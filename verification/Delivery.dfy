/** To whom a message or a kick goes, and how often, when queues are filled after m_peersMutex has been
    released and everybody else keeps moving. */
module Delivery {
  import opened Messages
  import opened Protocol
  import opened ProtocolInvariant
  import opened Sequential
  import P = PeerSession

  /** How often peer q has been offered m. */
  ghost function Received(s: State, q: nat, m: Message): nat {
    if q < |s.peers| then Occurrences(OfferedTo(s, q), m) else 0
  }

  /** How often peer p has still to offer m to peer q. */
  ghost function Owed(s: State, p: nat, m: Message, q: nat): nat
    requires p < |s.peers|
  {
    var h := s.peers[p].handler;
    if h.Fanning? && h.msg == m then Occurrences(h.targets, q) else 0
  }

  ghost function Total(s: State, p: nat, m: Message, q: nat): nat
    requires p < |s.peers|
  {
    Received(s, q, m) + Owed(s, p, m, q)
  }

  /** m is a message that peer p has issued to be forwarded. */
  ghost predicate IssuedBy(s: State, p: nat, m: Message) {
    p < |s.peers| && m.Text? && m.sender == p && m.issue < s.peers[p].issued
  }

  lemma NothingForOutsiders(s: State, p: nat, m: Message, q: nat)
    requires Threads(s) && p < |s.peers| && q >= |s.peers|
    ensures Owed(s, p, m, q) == 0
  {
    assert HandlerOk(s, p);
  }

  lemma OfferIsReceived(s: State, a: Action, q: nat, m: Message)
    requires OfferStep(a) && Invariant(s) && Can(s, a) && q < |s.peers|
    ensures Received(Do(s, a), q, m) ==
              Received(s, q, m) + if Reaches(s, a) && q == Recipient(s, a) && m == Payload(s, a) then 1 else 0
  {
    OfferEffect(s, a);
    if Reaches(s, a) && q == Recipient(s, a) {
      RecipientKeepsBox(s, a);
    } else {
      BystanderKeepsBox(s, a, q);
    }
    hide Do, Can, OfferedTo, Invariant;
  }

  /** Peer p is about to offer m to peer q. */
  ghost predicate Pays(s: State, a: Action, p: nat, m: Message, q: nat) {
    && a == Forward(p) && p < |s.peers| && s.peers[p].handler.Fanning?
    && s.peers[p].handler.msg == m && s.peers[p].handler.targets != [] && s.peers[p].handler.targets[0] == q
  }

  lemma OfferIsPaid(s: State, a: Action, p: nat, m: Message, q: nat)
    requires OfferStep(a) && Can(s, a) && p < |s.peers|
    ensures p < |Do(s, a).peers| && Owed(s, p, m, q) == Owed(Do(s, a), p, m, q) + if Pays(s, a, p, m, q) then 1 else 0
  {
    OfferEffect(s, a);
    var h := s.peers[p].handler;
    if h.Fanning? && h.targets != [] {
      OccurrencesFirst(h.targets, q);
    }
    hide Do, Occurrences;
  }

  /** Nobody else offers a message that p has issued. */
  lemma OwnMessagesOnly(s: State, a: Action, p: nat, m: Message, q: nat)
    requires OfferStep(a) && Threads(s) && Can(s, a) && IssuedBy(s, p, m)
    ensures Pays(s, a, p, m, q) <==> Reaches(s, a) && q == Recipient(s, a) && m == Payload(s, a)
  {
    assert a.Forward? || a.AnnounceTo? ==> HandlerOk(s, a.p);
  }

  lemma OfferKeepsTotal(s: State, a: Action, p: nat, m: Message, q: nat)
    requires OfferStep(a) && Invariant(s) && Can(s, a) && IssuedBy(s, p, m) && q < |s.peers|
    ensures p < |Do(s, a).peers| && Total(Do(s, a), p, m, q) == Total(s, p, m, q)
  {
    OfferIsReceived(s, a, q, m);
    OfferIsPaid(s, a, p, m, q);
    OwnMessagesOnly(s, a, p, m, q);
    hide Do, Can, Received, Owed, Invariant, Pays, Reaches, Recipient, Payload;
  }

  lemma MemberKeepsTotal(s: State, a: Action, p: nat, m: Message, q: nat)
    requires MemberStep(a) && Threads(s) && Can(s, a) && IssuedBy(s, p, m)
    ensures p < |Do(s, a).peers| && Total(Do(s, a), p, m, q) == Total(s, p, m, q)
  {
    MemberEffect(s, a);
    if |s.peers| <= q < |Do(s, a).peers| {
      assert OfferedTo(Do(s, a), q) == [];
    }
  }

  lemma HandlersElsewhere(s: State, a: Action)
    requires !MemberStep(a) && !OfferStep(a) && Can(s, a)
    ensures a.p < |s.peers| && a.p < |Do(s, a).peers|
    ensures !Forwards(a) && !a.Inside? ==>
              !s.peers[a.p].handler.Fanning? && !Do(s, a).peers[a.p].handler.Fanning?
  {
  }

  lemma OtherKeepsTotal(s: State, a: Action, p: nat, m: Message, q: nat)
    requires !MemberStep(a) && !OfferStep(a) && Invariant(s) && Can(s, a) && IssuedBy(s, p, m)
    ensures p < |Do(s, a).peers| && Total(Do(s, a), p, m, q) == Total(s, p, m, q)
  {
    OtherEffect(s, a);
    HandlersElsewhere(s, a);
    if Forwards(a) {
      FanStarts(s, a);
    }
    if q < |s.peers| {
      assert BoxOk(s, q);
      OtherStepIsQuiet(s, a, q);
    }
    hide Do, Can, Invariant, Threads;
  }

  lemma StepKeepsTotal(s: State, a: Action, p: nat, m: Message, q: nat)
    requires Invariant(s) && Can(s, a) && IssuedBy(s, p, m)
    ensures IssuedBy(Do(s, a), p, m) && Total(Do(s, a), p, m, q) == Total(s, p, m, q)
  {
    if MemberStep(a) {
      MemberEffect(s, a);
      MemberKeepsTotal(s, a, p, m, q);
    } else if OfferStep(a) {
      OfferEffect(s, a);
      if q < |s.peers| {
        OfferKeepsTotal(s, a, p, m, q);
      } else {
        StepKeepsThreads(s, a);
        NothingForOutsiders(s, p, m, q);
        NothingForOutsiders(Do(s, a), p, m, q);
      }
    } else {
      OtherEffect(s, a);
      OtherKeepsTotal(s, a, p, m, q);
    }
  }

  lemma {:induction false} RunKeepsTotal(s: State, actions: seq<Action>, p: nat, m: Message, q: nat)
    requires Invariant(s) && IsTrace(s, actions) && IssuedBy(s, p, m)
    ensures IssuedBy(After(s, actions), p, m)
    ensures Total(After(s, actions), p, m, q) == Total(s, p, m, q)
    decreases |actions|
  {
    if actions != [] {
      StepKeepsTotal(s, actions[0], p, m, q);
      StepKeepsInvariant(s, actions[0]);
      hide Do, Can, Invariant, Total, IssuedBy;
      RunKeepsTotal(Do(s, actions[0]), actions[1..], p, m, q);
    }
  }

  /** When a message is issued, what is owed is what its audience asks for of the members of that
      moment, and nobody has been offered it. */
  lemma IssuedInFull(s: State, a: Action, q: nat)
    requires Invariant(s) && Forwards(a) && Can(s, a)
    ensures var t, m := Do(s, a), NextText(s, a.p, a.data);
      && Received(s, q, m) == 0
      && IssuedBy(t, a.p, m) && Total(t, a.p, m, q) == if q in s.members then P.Times(AudienceOf(s, a), a.p, q) else 0
  {
    var m := NextText(s, a.p, a.data);
    FanStarts(s, a);
    ListedCounts(s, a, q);
    if q < |s.peers| {
      assert BoxOk(s, q);
      assert forall x :: x in OfferedTo(s, q) ==> Known(s, q, x);
      assert m !in OfferedTo(s, q);
      assert OfferedTo(Do(s, a), q) == OfferedTo(s, q);
    }
  }

  lemma AskedFor(s: State, a: Action, q: nat)
    requires Forwards(a) && Can(s, a)
    ensures P.Times(AudienceOf(s, a), a.p, q) ==
              if q == a.p then 0
              else if a.Broadcast? then 1
              else if a.Direct? then multiset(a.ids)[Some(q)]
              else if s.host == Some(q) then 1 else 0
  {
  }

  /** The messages still on their way. */
  ghost predicate UnderWay(s: State, p: nat, m: Message) {
    p < |s.peers| && s.peers[p].handler.Fanning? && s.peers[p].handler.msg == m
  }

  /** Whatever happens between and after: a broadcast, direct message or message to the host is
      never offered to a peer more often than its audience asked for when the snapshot was taken,
      and once its sender has worked through the snapshot, exactly as often: every other member
      once for a broadcast, as often as its id was listed for a direct message, the host once for
      a message to the host, and never the sender, a peer not listed or one that joined later. */
  lemma FanOutMultiplicity(limit: nat, past: seq<Action>, a: Action, future: seq<Action>, q: nat)
    requires IsTrace(Initial(limit), past)
    requires Forwards(a) && Can(After(Initial(limit), past), a)
    requires IsTrace(Do(After(Initial(limit), past), a), future)
    ensures var s := After(Initial(limit), past);
      var t, m := After(Do(s, a), future), NextText(s, a.p, a.data);
      var asked :=
        if q !in s.members || q == a.p then 0
        else if a.Broadcast? then 1
        else if a.Direct? then multiset(a.ids)[Some(q)]
        else if s.host == Some(q) then 1 else 0;
      && Received(s, q, m) == 0
      && Received(t, q, m) <= asked
      && (!UnderWay(t, a.p, m) ==> Received(t, q, m) == asked)
  {
    var s, m := After(Initial(limit), past), NextText(After(Initial(limit), past), a.p, a.data);
    RunKeepsInvariant(Initial(limit), past);
    StepKeepsInvariant(s, a);
    IssuedInFull(s, a, q);
    RunKeepsTotal(Do(s, a), future, a.p, m, q);
    AskedFor(s, a, q);
    hide Can, Do, Invariant, Received, AudienceOf, P.Times;
  }

  lemma {:induction false} RangeOnce(lo: nat, hi: nat, id: nat)
    ensures Occurrences(Range(lo, hi), id) == if lo <= id < hi then 1 else 0
  {
    if lo < hi {
      RangeOnce(lo, hi - 1, id);
    }
  }

  /** A synchronized event is offered exactly once to every peer whose membership it falls into,
      and to nobody else. */
  lemma EventMultiplicity(limit: nat, actions: seq<Action>, p: nat, id: nat)
    requires IsTrace(Initial(limit), actions) && p < |After(Initial(limit), actions).peers|
    ensures var s := After(Initial(limit), actions);
      Occurrences(EventIds(OfferedTo(s, p)), id) == if s.peers[p].first <= id < Until(s, p) then 1 else 0
  {
    RunKeepsInvariant(Initial(limit), actions);
    var s := After(Initial(limit), actions);
    assert BoxOk(s, p);
    RangeOnce(s.peers[p].first, Until(s, p), id);
  }

  // ----- kicks -----

  ghost function Kicked(s: State, p: nat, v: nat): nat {
    Occurrences(s.kicks, (p, v))
  }

  /** How often peer p has still to kick peer v. */
  ghost function ToKick(s: State, p: nat, v: nat): nat {
    if p < |s.peers| && s.peers[p].handler.Kicking? then Occurrences(s.peers[p].handler.victims, v) else 0
  }

  /** What a kick order asks for of the members of the moment in which its victims are looked up. */
  ghost function Ordered(s: State, a: Action, p: nat, v: nat): nat
    requires Can(s, a)
  {
    if a == PickVictims(p) && v in s.members && v != p then multiset(s.peers[p].handler.ids)[Some(v)] else 0
  }

  ghost function OrderedIn(s: State, actions: seq<Action>, p: nat, v: nat): nat
    requires IsTrace(s, actions)
    decreases |actions|
  {
    if actions == [] then 0
    else Ordered(s, actions[0], p, v) + OrderedIn(Do(s, actions[0]), actions[1..], p, v)
  }

  lemma KicksElsewhere(s: State, a: Action, p: nat)
    requires Can(s, a)
    ensures !a.KickOne? ==> Do(s, a).kicks == s.kicks
    ensures !(a.KickOne? && a.p == p) && a != PickVictims(p) && p < |s.peers| ==>
              && p < |Do(s, a).peers|
              && (s.peers[p].handler.Kicking? || Do(s, a).peers[p].handler.Kicking? ==>
                    Do(s, a).peers[p].handler == s.peers[p].handler)
    ensures |s.peers| <= p < |Do(s, a).peers| ==> Do(s, a).peers[p].handler.Idle?
  {
    if MemberStep(a) {
      MemberEffect(s, a);
    } else if OfferStep(a) {
      OfferEffect(s, a);
    }
  }

  lemma PickedAsOrdered(s: State, p: nat, v: nat)
    requires Can(s, PickVictims(p))
    ensures ToKick(s, p, v) == 0
    ensures ToKick(Do(s, PickVictims(p)), p, v) == Ordered(s, PickVictims(p), p, v)
  {
    var ids := s.peers[p].handler.ids;
    OthersCount(p, Lookup(s.members, ids), v);
    LookupCounts(s.members, ids, v);
  }

  lemma KickOneCounts(s: State, q: nat, p: nat, v: nat)
    requires Can(s, KickOne(q))
    ensures var t := Do(s, KickOne(q));
      Kicked(t, p, v) + (if q == p then ToKick(t, p, v) else 0) ==
        Kicked(s, p, v) + if q == p then ToKick(s, p, v) else 0
  {
    var victims := s.peers[q].handler.victims;
    if victims != [] {
      OccurrencesFirst(victims, v);
      OccurrencesLast(s.kicks, (q, victims[0]), (p, v));
    }
  }

  lemma StepKeepsKicks(s: State, a: Action, p: nat, v: nat)
    requires Can(s, a)
    ensures Kicked(Do(s, a), p, v) + ToKick(Do(s, a), p, v) == Kicked(s, p, v) + ToKick(s, p, v) + Ordered(s, a, p, v)
  {
    KicksElsewhere(s, a, p);
    if a.KickOne? {
      KickOneCounts(s, a.p, p, v);
    } else if a == PickVictims(p) {
      PickedAsOrdered(s, p, v);
    }
    hide Do, Can, Occurrences;
  }

  lemma {:induction false} RunKeepsKicks(s: State, actions: seq<Action>, p: nat, v: nat)
    requires IsTrace(s, actions)
    ensures Kicked(After(s, actions), p, v) + ToKick(After(s, actions), p, v)
         == Kicked(s, p, v) + ToKick(s, p, v) + OrderedIn(s, actions, p, v)
    decreases |actions|
  {
    hide Do, Can, Kicked, ToKick, Ordered;
    if actions != [] {
      StepKeepsKicks(s, actions[0], p, v);
      RunKeepsKicks(Do(s, actions[0]), actions[1..], p, v);
    }
  }

  /** In every run and whatever happens in between, peer p has kicked peer v, or is about to, as
      often as v's id was listed in p's kick orders, counting an order only if v was a member when
      its victims were looked up, and never counting p itself. */
  lemma KickMultiplicity(limit: nat, actions: seq<Action>, p: nat, v: nat)
    requires IsTrace(Initial(limit), actions)
    ensures var t := After(Initial(limit), actions);
      Kicked(t, p, v) + ToKick(t, p, v) == OrderedIn(Initial(limit), actions, p, v)
  {
    RunKeepsKicks(Initial(limit), actions, p, v);
  }
}
