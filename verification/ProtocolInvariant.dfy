/** The inductive invariant of the session protocol and the proof that every step keeps it. */
module ProtocolInvariant {
  import opened Messages
  import opened Mailboxes
  import opened Protocol

  // ----- threads, roles and counters -----

  ghost predicate HandlerOk(s: State, p: nat)
    requires p < |s.peers|
  {
    var x := s.peers[p];
    match x.handler
    case Idle => true
    case Fanning(m, targets) =>
      && m.Text? && m.sender == p && m.issue + 1 == x.issued
      && forall t :: t in targets ==> t < |s.peers|
    case Announcing(e, left) =>
      && e.Event? && e.sender == p && e.issue + 1 == x.issued
      && s.events != [] && e == s.events[|s.events| - 1]
      && left <= s.members
    case MayKick(_) => s.creator == Some(p)
    case Kicking(victims) => s.creator == Some(p) && p !in victims
  }

  ghost predicate StageOk(s: State, p: nat)
    requires p < |s.peers|
  {
    var x := s.peers[p];
    && (p in s.members <==> x.stage.Inserting? || x.stage.Inserted? || x.stage.Greeted?)
    && (x.stage.Inserting? <==> s.lock == Joins(p))
    && (x.stage.Leaving? <==> s.lock == Leaves(p))
    && (x.handler.Announcing? <==> s.lock == Broadcasts(p))
    && (x.asHost <==> s.creator == Some(p))
    && (x.stage.Made? ==> x.first == x.last == 0)
    && (x.late ==> !x.asHost && !x.stage.Made?)
    && (x.stage.Inserting? || x.stage.Leaving? ==> !x.asHost)
    && (x.stage.Inserting? ==> x.late)
  }

  ghost predicate HostOk(s: State) {
    && (s.creator.Some? ==> s.creator.value < |s.peers|)
    && (s.host.Some? ==> s.host == s.creator && s.host.value in s.members)
    && (s.creator.Some? && s.host.None? ==>
          s.peers[s.creator.value].stage.Made? || s.peers[s.creator.value].stage.Gone?)
    && (!s.lock.Free? ==> s.lock.p < |s.peers|)
    && (s.lock.Joins? || s.lock.Leaves? ==> s.host.Some?)
    && (forall x :: 0 <= x < |s.peers| && s.peers[x].late ==>
          s.creator.Some? && !s.peers[s.creator.value].stage.Made?)
  }

  ghost predicate LogsOk(s: State) {
    && |s.events| == s.nextEvent
    && (forall i :: 0 <= i < |s.events| ==> s.events[i].Event? && s.events[i].eventId == i)
    && (forall k :: k in s.kicks ==> s.creator == Some(k.0) && k.1 != k.0)
  }

  ghost predicate Threads(s: State) {
    && (forall p :: p in s.members ==> p < |s.peers|)
    && (forall p :: 0 <= p < |s.peers| ==> StageOk(s, p) && HandlerOk(s, p))
    && HostOk(s)
    && LogsOk(s)
  }

  // ----- what has been offered to each peer -----

  /** A broadcast is under way and has not reached member p yet. */
  ghost predicate NotYet(s: State, p: nat) {
    && s.lock.Broadcasts? && s.lock.p < |s.peers|
    && s.peers[s.lock.p].handler.Announcing? && p in s.peers[s.lock.p].handler.left
  }

  /** The event id up to which peer p has been offered the session's events. */
  ghost function Until(s: State, p: nat): nat
    requires p < |s.peers|
  {
    if p !in s.members then s.peers[p].last
    else if NotYet(s, p) && s.nextEvent > 0 then s.nextEvent - 1
    else s.nextEvent
  }

  ghost predicate Issued(s: State, sender: int, issue: nat) {
    0 <= sender < |s.peers| && issue < s.peers[sender].issued
  }

  /** What a message offered to peer p in the past says about the state. */
  ghost predicate Known(s: State, p: nat, m: Message)
    requires p < |s.peers|
  {
    match m
    case Hello(id, h) => id == p && h == s.peers[p].asHost && s.peers[p].stage.Rank() >= 3
    case Text(sender, issue, _) => Issued(s, sender, issue)
    case Event(id, sender, issue, _) =>
      id < Until(s, p) && id < |s.events| && s.events[id] == m && Issued(s, sender, issue)
    case Joined(x) =>
      0 <= x < |s.peers| && s.peers[x].late && s.peers[x].stage.Rank() >= 2 && s.peers[p].asHost
    case Left(x) => 0 <= x < |s.peers| && s.peers[x].stage.Gone? && s.peers[p].asHost
  }

  ghost function OfferedTo(s: State, p: nat): seq<Message>
    requires p < |s.peers|
  {
    OfferedMsgs(s.peers[p].box.offers)
  }

  ghost predicate BoxOk(s: State, p: nat)
    requires p < |s.peers|
  {
    && Inv(s.peers[p].box)
    && s.peers[p].box.limit == s.limit
    && (forall m :: m in OfferedTo(s, p) ==> Known(s, p, m))
    && Orderly(OfferedTo(s, p))
    && s.peers[p].first <= Until(s, p)
    && EventIds(OfferedTo(s, p)) == Range(s.peers[p].first, Until(s, p))
  }

  // ----- what the host has been told -----

  /** A reader of the stream who adds every client announced and drops every client retired. */
  ghost function Replay(s: seq<Message>): set<int> {
    if s == [] then {} else Hear(Replay(s[..|s| - 1]), s[|s| - 1])
  }

  ghost function Hear(roster: set<int>, m: Message): set<int> {
    if m.Joined? then roster + {m.client} else if m.Left? then roster - {m.client} else roster
  }

  /** Clients announced to the host and not yet retired. */
  ghost function Roster(s: State): set<int> {
    set x: int | 0 <= x < |s.peers| && s.peers[x].late && 2 <= s.peers[x].stage.Rank() <= 4
  }

  ghost predicate RosterOk(s: State) {
    s.host.Some? && s.host.value < |s.peers| ==> Replay(OfferedTo(s, s.host.value)) == Roster(s)
  }

  ghost predicate Invariant(s: State) {
    && Threads(s)
    && (forall p :: 0 <= p < |s.peers| ==> BoxOk(s, p))
    && RosterOk(s)
  }

  // ----- steps keep Threads -----

  ghost predicate MemberStep(a: Action) {
    a.Connect? || a.Insert? || a.Remove?
  }

  ghost predicate OfferStep(a: Action) {
    a.TellJoined? || a.Greet? || a.TellLeft? || a.Forward? || a.AnnounceTo?
  }

  /** The queue that an offering step reaches, if any, and the message it puts there. */
  ghost predicate Reaches(s: State, a: Action)
    requires OfferStep(a) && Can(s, a)
  {
    a.Forward? ==> s.peers[a.p].handler.targets != []
  }

  ghost function Recipient(s: State, a: Action): nat
    requires OfferStep(a) && Can(s, a) && Reaches(s, a)
  {
    if a.Greet? then a.p
    else if a.Forward? then s.peers[a.p].handler.targets[0]
    else if a.AnnounceTo? then a.q
    else s.host.value
  }

  ghost function Payload(s: State, a: Action): Message
    requires OfferStep(a) && Can(s, a) && Reaches(s, a)
  {
    if a.Greet? then Hello(a.p, s.peers[a.p].asHost)
    else if a.Forward? then s.peers[a.p].handler.msg
    else if a.AnnounceTo? then s.peers[a.p].handler.event
    else if a.TellJoined? then Joined(s.lock.p)
    else Left(s.lock.p)
  }

  // What a step does, spelled out once, so that the proofs below need not look into Do.

  /** What an offering step makes of peer q. */
  ghost function OfferedPeer(s: State, a: Action, q: nat): Peer
    requires OfferStep(a) && Can(s, a) && q < |s.peers|
  {
    var x := s.peers[q];
    x.(box := if Reaches(s, a) && q == Recipient(s, a) then Offered(x.box, Payload(s, a)) else x.box,
       stage := if a.TellJoined? && q == s.lock.p then Inserted
                else if a.TellLeft? && q == s.lock.p then Gone
                else if a.Greet? && q == a.p then Greeted
                else x.stage,
       handler := if a.Forward? && q == a.p
                  then if x.handler.targets == [] then Idle else x.handler.(targets := x.handler.targets[1..])
                  else if a.AnnounceTo? && q == a.p then x.handler.(left := x.handler.left - {a.q})
                  else x.handler)
  }

  lemma OfferEffect(s: State, a: Action)
    requires OfferStep(a) && Can(s, a)
    ensures var t := Do(s, a);
      && t == s.(peers := t.peers, lock := if a.TellJoined? || a.TellLeft? then Free else s.lock)
      && |t.peers| == |s.peers|
      && forall q :: 0 <= q < |s.peers| ==> t.peers[q] == OfferedPeer(s, a, q)
  {
  }

  /** Steps that change no membership and offer nothing are those of one handler or one queue. */
  lemma OtherEffect(s: State, a: Action)
    requires !MemberStep(a) && !OfferStep(a) && Can(s, a)
    ensures var t := Do(s, a);
      && a.p < |s.peers|
      && t == s.(peers := s.peers[a.p := t.peers[a.p]], lock := t.lock,
                 nextEvent := t.nextEvent, events := t.events, kicks := t.kicks)
      && t.lock == (if a.Announce? then Broadcasts(a.p) else if a.Announced? then Free else s.lock)
      && (!a.Announce? ==> t.nextEvent == s.nextEvent && t.events == s.events)
      && t.peers[a.p] == s.peers[a.p].(box := t.peers[a.p].box, issued := t.peers[a.p].issued,
                                       handler := t.peers[a.p].handler)
      && t.peers[a.p].issued >= s.peers[a.p].issued
      && (!a.Inside? ==> t.peers[a.p].box == s.peers[a.p].box)
      && (a.Inside? ==> t.peers[a.p].handler == s.peers[a.p].handler && t.kicks == s.kicks)
      && (!a.Inside? ==> (t.peers[a.p].handler.Announcing? <==> a.Announce?))
  {
  }

  lemma ConnectKeepsStage(s: State, asHost: bool, q: nat)
    requires Threads(s) && Can(s, Connect(asHost)) && q <= |s.peers|
    ensures StageOk(Do(s, Connect(asHost)), q)
  {
    assert q < |s.peers| ==> StageOk(s, q);
  }

  lemma InsertKeepsStage(s: State, p: nat, q: nat)
    requires Threads(s) && s.lock.Free? && p < |s.peers| && s.peers[p].stage.Made? && q < |s.peers|
    ensures StageOk(DoInsert(s, p), q)
  {
    assert StageOk(s, q) && StageOk(s, p);
  }

  lemma RemoveKeepsStage(s: State, p: nat, q: nat)
    requires Threads(s) && s.lock.Free? && p < |s.peers| && s.peers[p].stage.Greeted? && q < |s.peers|
    ensures StageOk(DoRemove(s, p), q)
  {
    assert StageOk(s, q) && StageOk(s, p);
  }

  lemma MemberStepKeepsStage(s: State, a: Action, q: nat)
    requires MemberStep(a) && Threads(s) && Can(s, a) && q < |Do(s, a).peers|
    ensures StageOk(Do(s, a), q)
  {
    if a.Connect? {
      ConnectKeepsStage(s, a.asHost, q);
    } else if a.Insert? {
      InsertKeepsStage(s, a.p, q);
    } else {
      RemoveKeepsStage(s, a.p, q);
    }
  }

  lemma OfferStepKeepsStage(s: State, a: Action, q: nat)
    requires OfferStep(a) && Threads(s) && Can(s, a) && q < |s.peers|
    ensures StageOk(Do(s, a), q)
  {
    OfferEffect(s, a);
    hide Do;
    assert StageOk(s, q);
  }

  lemma OtherStepKeepsStage(s: State, a: Action, q: nat)
    requires !MemberStep(a) && !OfferStep(a) && Threads(s) && Can(s, a) && q < |s.peers|
    ensures StageOk(Do(s, a), q)
  {
    OtherEffect(s, a);
    hide Do;
    assert StageOk(s, q) && StageOk(s, a.p);
  }

  lemma OthersAreElsewhere(p: nat, targets: seq<nat>)
    ensures p !in Others(p, targets)
    ensures forall t :: t in Others(p, targets) ==> t in targets
  {
  }

  lemma LookupFindsMembers(members: set<nat>, ids: seq<Option<int>>)
    ensures forall t :: t in Lookup(members, ids) ==> t in members
  {
    FindsKnown(ById(members), ids);
  }

  lemma MemberEffect(s: State, a: Action)
    requires MemberStep(a) && Can(s, a)
    ensures var t := Do(s, a);
      && |s.peers| <= |t.peers| && t.events == s.events && t.limit == s.limit
      && (t.creator == s.creator || (s.creator.None? && a.Connect?))
      && (if a.Connect? then t.members == s.members else s.lock.Free?)
      && (forall q :: 0 <= q < |s.peers| ==>
            var x, y := s.peers[q], t.peers[q];
            y.handler == x.handler && y.issued == x.issued && y.box == x.box && y.asHost == x.asHost)
      && (forall q :: |s.peers| <= q < |t.peers| ==> t.peers[q].handler.Idle?)
  {
  }

  lemma MemberStepKeepsHandler(s: State, a: Action, p: nat)
    requires MemberStep(a) && Threads(s) && Can(s, a) && p < |Do(s, a).peers|
    ensures HandlerOk(Do(s, a), p)
  {
    MemberEffect(s, a);
    hide Do, Can;
    if p < |s.peers| {
      assert HandlerOk(s, p) && StageOk(s, p);
    }
  }

  lemma OfferStepKeepsHandler(s: State, a: Action, q: nat)
    requires OfferStep(a) && Threads(s) && Can(s, a) && q < |s.peers|
    ensures HandlerOk(Do(s, a), q)
  {
    OfferEffect(s, a);
    hide Do;
    assert HandlerOk(s, q) && StageOk(s, q);
    var h := s.peers[q].handler;
    if a.Forward? && h.Fanning? && h.targets != [] {
      assert forall t :: t in h.targets[1..] ==> t in h.targets;
    }
  }

  /** Steps that start to forward a message. */
  ghost predicate Forwards(a: Action) {
    a.Broadcast? || a.Direct? || a.ToHost?
  }

  /** The peers a snapshot lists for it. */
  ghost function Listed(s: State, a: Action): seq<nat>
    requires Forwards(a) && Can(s, a)
  {
    if a.Broadcast? then a.order else if a.Direct? then Lookup(s.members, a.ids) else [s.host.value]
  }

  lemma FanStarts(s: State, a: Action)
    requires Forwards(a) && Can(s, a)
    ensures Resting(s, a.p) && Do(s, a) == Fan(s, a.p, a.data, Listed(s, a))
  {
  }

  lemma ListedInRange(s: State, a: Action)
    requires Forwards(a) && Can(s, a) && Threads(s)
    ensures forall i :: 0 <= i < |Others(a.p, Listed(s, a))| ==> Others(a.p, Listed(s, a))[i] < |s.peers|
  {
    var listed := Listed(s, a);
    OthersAreElsewhere(a.p, listed);
    if a.Direct? {
      LookupFindsMembers(s.members, a.ids);
    }
    forall i | 0 <= i < |Others(a.p, listed)|
      ensures Others(a.p, listed)[i] < |s.peers|
    {
      assert Others(a.p, listed)[i] in Others(a.p, listed);
    }
  }

  lemma ForwardsKeepsHandler(s: State, a: Action, q: nat)
    requires Forwards(a) && Threads(s) && Can(s, a) && q < |s.peers|
    ensures HandlerOk(Do(s, a), q)
  {
    FanStarts(s, a);
    ListedInRange(s, a);
    hide Do, Can, Others, Listed;
    assert HandlerOk(s, q);
  }

  lemma OtherStepKeepsHandler(s: State, a: Action, p: nat)
    requires !MemberStep(a) && !OfferStep(a) && Threads(s) && Can(s, a) && p < |s.peers|
    ensures HandlerOk(Do(s, a), p)
  {
    if Forwards(a) {
      ForwardsKeepsHandler(s, a, p);
    } else {
      assert HandlerOk(s, p) && StageOk(s, p);
      if a.PickVictims? {
        OthersAreElsewhere(a.p, Lookup(s.members, s.peers[a.p].handler.ids));
      }
      hide Lookup, Others;
    }
  }

  lemma MemberStepKeepsHost(s: State, a: Action)
    requires MemberStep(a) && Threads(s) && Can(s, a)
    ensures HostOk(Do(s, a))
  {
    assert s.creator.Some? ==> StageOk(s, s.creator.value);
    assert a.Insert? || a.Remove? ==> StageOk(s, a.p);
  }

  lemma OfferStepKeepsHost(s: State, a: Action)
    requires OfferStep(a) && Threads(s) && Can(s, a)
    ensures HostOk(Do(s, a))
  {
    OfferEffect(s, a);
    hide Do;
    assert s.creator.Some? ==> StageOk(s, s.creator.value);
  }

  lemma OtherStepKeepsHost(s: State, a: Action)
    requires !MemberStep(a) && !OfferStep(a) && Threads(s) && Can(s, a)
    ensures HostOk(Do(s, a))
  {
    OtherEffect(s, a);
    hide Do;
  }

  lemma StepKeepsLogs(s: State, a: Action)
    requires Threads(s) && Can(s, a)
    ensures LogsOk(Do(s, a))
    ensures forall p :: p in Do(s, a).members ==> p < |Do(s, a).peers|
  {
    assert a.KickOne? ==> HandlerOk(s, a.p);
  }

  lemma StepKeepsThreads(s: State, a: Action)
    requires Threads(s) && Can(s, a)
    ensures Threads(Do(s, a))
  {
    if MemberStep(a) {
      MemberStepKeepsHost(s, a);
    } else if OfferStep(a) {
      OfferStepKeepsHost(s, a);
    } else {
      OtherStepKeepsHost(s, a);
    }
    StepKeepsLogs(s, a);
    forall p | 0 <= p < |Do(s, a).peers|
      ensures StageOk(Do(s, a), p) && HandlerOk(Do(s, a), p)
    {
      if MemberStep(a) {
        MemberStepKeepsStage(s, a, p);
        MemberStepKeepsHandler(s, a, p);
      } else if OfferStep(a) {
        OfferStepKeepsStage(s, a, p);
        OfferStepKeepsHandler(s, a, p);
      } else {
        OtherStepKeepsStage(s, a, p);
        OtherStepKeepsHandler(s, a, p);
      }
    }
  }

  // ----- steps keep BoxOk -----

  /** Everything that offered messages refer to only ever moves forward. */
  ghost predicate Advances(s: State, t: State) {
    && s.limit == t.limit
    && |s.peers| <= |t.peers|
    && s.events <= t.events
    && forall p :: 0 <= p < |s.peers| ==> PeerAdvances(s, t, p)
  }

  ghost predicate PeerAdvances(s: State, t: State, p: nat)
    requires p < |s.peers| <= |t.peers|
  {
    var x, y := s.peers[p], t.peers[p];
    && x.asHost == y.asHost
    && (x.late ==> y.late)
    && x.issued <= y.issued
    && x.stage.Rank() <= y.stage.Rank()
    && Until(s, p) <= Until(t, p)
  }

  lemma KnownForGood(s: State, t: State, p: nat, m: Message)
    requires Advances(s, t) && p < |s.peers| && Known(s, p, m)
    ensures Known(t, p, m)
  {
    assert PeerAdvances(s, t, p);
    if m.FromPeer() {
      assert PeerAdvances(s, t, m.sender);
    } else if m.Joined? || m.Left? {
      assert PeerAdvances(s, t, m.client);
    }
  }

  /** A peer to which nothing is offered. */
  lemma QuietKeepsBox(s: State, t: State, p: nat)
    requires Advances(s, t) && p < |s.peers| && BoxOk(s, p)
    requires Inv(t.peers[p].box) && t.peers[p].box.limit == s.limit && OfferedTo(t, p) == OfferedTo(s, p)
    requires t.peers[p].first <= Until(t, p)
    requires Range(s.peers[p].first, Until(s, p)) == Range(t.peers[p].first, Until(t, p))
    ensures BoxOk(t, p)
  {
    forall m | m in OfferedTo(t, p)
      ensures Known(t, p, m)
    {
      KnownForGood(s, t, p, m);
    }
  }

  /** A peer that is offered m. */
  lemma OfferKeepsBox(s: State, t: State, p: nat, m: Message)
    requires Advances(s, t) && p < |s.peers| && BoxOk(s, p) && QueueFree(s, p)
    requires t.peers[p].box == Offered(s.peers[p].box, m)
    requires Known(t, p, m)
    requires forall a :: a in OfferedTo(s, p) ==> InOrder(a, m)
    requires t.peers[p].first == s.peers[p].first
    requires Range(t.peers[p].first, Until(t, p))
          == Range(s.peers[p].first, Until(s, p)) + (if m.Event? then [m.eventId] else [])
    ensures BoxOk(t, p)
    ensures OfferedTo(t, p) == OfferedTo(s, p) + [m]
  {
    assert OfferedTo(t, p) == OfferedTo(s, p) + [m];
    assert PeerAdvances(s, t, p);
    StepKeepsInv(s.peers[p].box, Offers(m));
    OrderlyAppend(OfferedTo(s, p), m);
    EventIdsAppend(OfferedTo(s, p), m);
    forall a | a in OfferedTo(s, p)
      ensures Known(t, p, a)
    {
      KnownForGood(s, t, p, a);
    }
  }

  lemma MemberStepAdvances(s: State, a: Action)
    requires MemberStep(a) && Threads(s) && Can(s, a)
    ensures Advances(s, Do(s, a))
  {
    forall p | 0 <= p < |s.peers|
      ensures PeerAdvances(s, Do(s, a), p)
    {
      assert StageOk(s, p);
    }
  }

  lemma OfferKeepsUntil(s: State, a: Action, p: nat)
    requires OfferStep(a) && Threads(s) && Can(s, a) && p < |s.peers| && !(a.AnnounceTo? && a.q == p)
    ensures Until(Do(s, a), p) == Until(s, p)
  {
    OfferEffect(s, a);
    hide Do;
    assert StageOk(s, p);
  }

  /** Only the step that offers an event to p moves p's mark, and by that event. */
  lemma AnnounceMovesUntil(s: State, p: nat, q: nat)
    requires Threads(s) && Can(s, AnnounceTo(p, q))
    ensures var e := s.peers[p].handler.event;
      && e.Event? && Until(s, q) == e.eventId && Until(Do(s, AnnounceTo(p, q)), q) == e.eventId + 1
  {
    OfferEffect(s, AnnounceTo(p, q));
    hide Do;
    assert HandlerOk(s, p) && StageOk(s, p) && StageOk(s, q);
  }

  lemma OfferStepAdvances(s: State, a: Action)
    requires OfferStep(a) && Threads(s) && Can(s, a)
    ensures Advances(s, Do(s, a))
  {
    OfferEffect(s, a);
    hide Do;
    forall q: nat | q < |s.peers|
      ensures PeerAdvances(s, Do(s, a), q)
    {
      assert StageOk(s, q);
      if a.AnnounceTo? && a.q == q {
        AnnounceMovesUntil(s, a.p, q);
      } else {
        OfferKeepsUntil(s, a, q);
      }
    }
  }

  lemma OtherStepAdvances(s: State, a: Action)
    requires !MemberStep(a) && !OfferStep(a) && Threads(s) && Can(s, a)
    ensures Advances(s, Do(s, a))
  {
    OtherEffect(s, a);
    hide Do;
  }

  lemma OfferStepOffers(s: State, a: Action)
    requires OfferStep(a) && Can(s, a) && Reaches(s, a)
    ensures QueueFree(s, Recipient(s, a))
    ensures Do(s, a).peers[Recipient(s, a)].box == Offered(s.peers[Recipient(s, a)].box, Payload(s, a))
    ensures forall p :: 0 <= p < |s.peers| && p != Recipient(s, a) ==> Do(s, a).peers[p].box == s.peers[p].box
  {
    OfferEffect(s, a);
    hide Do;
  }

  lemma OfferedInOrder(s: State, a: Action, x: Message)
    requires OfferStep(a) && Threads(s) && Can(s, a) && Reaches(s, a)
    requires Recipient(s, a) < |s.peers| && Known(s, Recipient(s, a), x)
    ensures InOrder(x, Payload(s, a))
  {
    if a.Greet? {
    } else if a.Forward? {
      assert HandlerOk(s, a.p);
    } else if a.AnnounceTo? {
      assert HandlerOk(s, a.p) && StageOk(s, a.p);
    } else {
      assert StageOk(s, s.lock.p);
    }
  }

  lemma OfferedIsKnown(s: State, a: Action)
    requires OfferStep(a) && Threads(s) && Can(s, a) && Reaches(s, a)
    ensures Recipient(s, a) < |s.peers| && Known(Do(s, a), Recipient(s, a), Payload(s, a))
  {
    OfferEffect(s, a);
    hide Do;
    if a.Forward? {
      assert HandlerOk(s, a.p);
    } else if a.AnnounceTo? {
      assert HandlerOk(s, a.p) && StageOk(s, a.p);
    } else if !a.Greet? {
      assert StageOk(s, s.lock.p) && StageOk(s, s.host.value);
    }
  }

  lemma OfferedRange(s: State, a: Action, p: nat)
    requires OfferStep(a) && Threads(s) && Can(s, a) && p < |s.peers|
    requires s.peers[p].first <= Until(s, p)
    ensures Do(s, a).peers[p].first == s.peers[p].first
    ensures Range(s.peers[p].first, Until(Do(s, a), p)) == Range(s.peers[p].first, Until(s, p)) +
              if Reaches(s, a) && p == Recipient(s, a) && Payload(s, a).Event? then [Payload(s, a).eventId] else []
  {
    OfferEffect(s, a);
    hide Do;
    if a.AnnounceTo? && a.q == p {
      AnnounceMovesUntil(s, a.p, p);
    } else {
      OfferKeepsUntil(s, a, p);
      assert a.Forward? ==> HandlerOk(s, a.p);
    }
  }

  lemma RecipientKeepsBox(s: State, a: Action)
    requires OfferStep(a) && Invariant(s) && Can(s, a) && Reaches(s, a)
    ensures Recipient(s, a) < |s.peers|
    ensures BoxOk(Do(s, a), Recipient(s, a))
    ensures OfferedTo(Do(s, a), Recipient(s, a)) == OfferedTo(s, Recipient(s, a)) + [Payload(s, a)]
  {
    OfferedIsKnown(s, a);
    OfferStepAdvances(s, a);
    OfferStepOffers(s, a);
    var p, m := Recipient(s, a), Payload(s, a);
    assert BoxOk(s, p);
    OfferedRange(s, a, p);
    forall x | x in OfferedTo(s, p)
      ensures InOrder(x, m)
    {
      OfferedInOrder(s, a, x);
    }
    OfferKeepsBox(s, Do(s, a), p, m);
  }

  lemma BystanderKeepsBox(s: State, a: Action, p: nat)
    requires OfferStep(a) && Invariant(s) && Can(s, a) && p < |s.peers|
    requires Reaches(s, a) ==> p != Recipient(s, a)
    ensures BoxOk(Do(s, a), p)
    ensures OfferedTo(Do(s, a), p) == OfferedTo(s, p)
  {
    hide Known, StageOk, HandlerOk, HostOk, LogsOk, RosterOk, Inv, Orderly;
    OfferStepAdvances(s, a);
    if Reaches(s, a) {
      OfferStepOffers(s, a);
    }
    assert BoxOk(s, p);
    OfferedRange(s, a, p);
    QuietKeepsBox(s, Do(s, a), p);
  }

  lemma OfferStepKeepsBoxes(s: State, a: Action)
    requires OfferStep(a) && Invariant(s) && Can(s, a)
    ensures forall p :: 0 <= p < |Do(s, a).peers| ==> BoxOk(Do(s, a), p)
  {
    forall p | 0 <= p < |Do(s, a).peers|
      ensures BoxOk(Do(s, a), p)
    {
      if Reaches(s, a) && p == Recipient(s, a) {
        RecipientKeepsBox(s, a);
      } else {
        BystanderKeepsBox(s, a, p);
      }
    }
  }

  lemma MemberStepIsQuiet(s: State, a: Action, p: nat)
    requires MemberStep(a) && Threads(s) && Can(s, a) && p < |s.peers|
    requires s.peers[p].first <= Until(s, p)
    ensures Do(s, a).peers[p].box == s.peers[p].box
    ensures Do(s, a).peers[p].first <= Until(Do(s, a), p)
    ensures Range(s.peers[p].first, Until(s, p)) == Range(Do(s, a).peers[p].first, Until(Do(s, a), p))
  {
    assert StageOk(s, p);
  }

  lemma NewPeerBoxOk(s: State, a: Action, p: nat)
    requires MemberStep(a) && Threads(s) && Can(s, a) && |s.peers| <= p < |Do(s, a).peers|
    ensures BoxOk(Do(s, a), p)
  {
  }

  lemma MemberStepKeepsBoxes(s: State, a: Action)
    requires MemberStep(a) && Invariant(s) && Can(s, a)
    ensures forall p :: 0 <= p < |Do(s, a).peers| ==> BoxOk(Do(s, a), p)
  {
    var t := Do(s, a);
    MemberStepAdvances(s, a);
    forall p | 0 <= p < |t.peers|
      ensures BoxOk(t, p)
    {
      if p < |s.peers| {
        assert BoxOk(s, p);
        MemberStepIsQuiet(s, a, p);
        QuietKeepsBox(s, t, p);
      } else {
        NewPeerBoxOk(s, a, p);
      }
    }
    hide Do, Can, BoxOk, Invariant;
  }

  lemma OtherStepIsQuiet(s: State, a: Action, p: nat)
    requires !MemberStep(a) && !OfferStep(a) && Threads(s) && Can(s, a) && p < |s.peers|
    requires Inv(s.peers[p].box)
    ensures Inv(Do(s, a).peers[p].box)
    ensures Do(s, a).peers[p].box.limit == s.peers[p].box.limit
    ensures Do(s, a).peers[p].box.offers == s.peers[p].box.offers
  {
    if a.Inside? && a.p == p {
      StepKeepsInv(s.peers[p].box, a.step);
    }
  }

  lemma OtherStepKeepsUntil(s: State, a: Action, p: nat)
    requires !MemberStep(a) && !OfferStep(a) && Threads(s) && Can(s, a) && p < |s.peers|
    ensures Until(Do(s, a), p) == Until(s, p) && Do(s, a).peers[p].first == s.peers[p].first
  {
    OtherEffect(s, a);
    hide Do;
    assert StageOk(s, p);
    assert a.Announced? ==> StageOk(s, a.p) && HandlerOk(s, a.p);
  }

  lemma OtherStepKeepsBoxes(s: State, a: Action)
    requires !MemberStep(a) && !OfferStep(a) && Invariant(s) && Can(s, a)
    ensures forall p :: 0 <= p < |Do(s, a).peers| ==> BoxOk(Do(s, a), p)
  {
    var t := Do(s, a);
    OtherStepAdvances(s, a);
    forall p | 0 <= p < |t.peers|
      ensures BoxOk(t, p)
    {
      assert BoxOk(s, p);
      OtherStepIsQuiet(s, a, p);
      OtherStepKeepsUntil(s, a, p);
      QuietKeepsBox(s, t, p);
    }
  }

  // ----- steps keep the roster -----

  lemma ReplayAppend(s: seq<Message>, m: Message)
    ensures Replay(s + [m]) == Hear(Replay(s), m)
  {
  }

  lemma {:induction false} ReplayOfNothing(s: seq<Message>)
    requires forall m :: m in s ==> !m.Joined?
    ensures Replay(s) == {}
  {
    if s != [] {
      ReplayOfNothing(s[..|s| - 1]);
    }
  }

  /** When the host arrives, nobody has been announced to it. */
  lemma NewHostKnowsNobody(s: State, h: nat)
    requires Invariant(s) && Can(s, Insert(h)) && s.peers[h].asHost
    ensures Replay(OfferedTo(s, h)) == {} && Roster(s) == {}
  {
    assert StageOk(s, h) && BoxOk(s, h);
    assert forall m :: m in OfferedTo(s, h) ==> Known(s, h, m);
    ReplayOfNothing(OfferedTo(s, h));
  }

  lemma MemberStepKeepsRoster(s: State, a: Action)
    requires MemberStep(a) && Invariant(s) && Can(s, a)
    ensures RosterOk(Do(s, a))
  {
    var t := Do(s, a);
    if a.Insert? && s.peers[a.p].asHost {
      NewHostKnowsNobody(s, a.p);
    }
    assert !a.Connect? ==> StageOk(s, a.p);
    assert s.host.Some? ==> Roster(t) == Roster(s);
    assert Roster(s) == {} ==> Roster(t) == {};
  }

  lemma RosterHears(s: State, a: Action)
    requires OfferStep(a) && Threads(s) && Can(s, a) && s.host.Some?
    ensures Roster(Do(s, a)) == if Reaches(s, a) then Hear(Roster(s), Payload(s, a)) else Roster(s)
    ensures Reaches(s, a) && Recipient(s, a) != s.host.value ==> !Payload(s, a).Joined? && !Payload(s, a).Left?
  {
    OfferEffect(s, a);
    hide Do;
    if a.TellJoined? || a.TellLeft? {
      assert StageOk(s, s.lock.p);
    } else if a.Forward? || a.AnnounceTo? {
      assert HandlerOk(s, a.p);
    }
  }

  lemma OfferStepKeepsRoster(s: State, a: Action)
    requires OfferStep(a) && Invariant(s) && Can(s, a) && s.host.Some?
    ensures RosterOk(Do(s, a))
  {
    var h := s.host.value;
    RosterHears(s, a);
    if Reaches(s, a) && Recipient(s, a) == h {
      RecipientKeepsBox(s, a);
      ReplayAppend(OfferedTo(s, h), Payload(s, a));
    } else {
      BystanderKeepsBox(s, a, h);
    }
  }

  lemma OtherStepKeepsRoster(s: State, a: Action)
    requires !MemberStep(a) && !OfferStep(a) && Invariant(s) && Can(s, a) && s.host.Some?
    ensures RosterOk(Do(s, a))
  {
    OtherEffect(s, a);
    hide Do;
    assert BoxOk(s, s.host.value);
    OtherStepIsQuiet(s, a, s.host.value);
    assert Roster(Do(s, a)) == Roster(s);
  }

  // ----- the invariant holds in every run -----

  lemma StepKeepsInvariant(s: State, a: Action)
    requires Invariant(s) && Can(s, a)
    ensures Invariant(Do(s, a))
  {
    StepKeepsThreads(s, a);
    if MemberStep(a) {
      MemberStepKeepsBoxes(s, a);
      MemberStepKeepsRoster(s, a);
    } else if OfferStep(a) {
      OfferStepKeepsBoxes(s, a);
      if s.host.Some? {
        OfferStepKeepsRoster(s, a);
      }
    } else {
      OtherStepKeepsBoxes(s, a);
      if s.host.Some? {
        OtherStepKeepsRoster(s, a);
      }
    }
  }

  lemma {:induction false} RunKeepsInvariant(s: State, actions: seq<Action>)
    requires Invariant(s) && IsTrace(s, actions)
    ensures Invariant(After(s, actions))
    decreases |actions|
  {
    if actions != [] {
      StepKeepsInvariant(s, actions[0]);
      RunKeepsInvariant(Do(s, actions[0]), actions[1..]);
    }
  }
}
