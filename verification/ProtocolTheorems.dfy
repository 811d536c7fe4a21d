/** What the session protocol guarantees in every run, however its threads interleave. */
module ProtocolTheorems {
  import opened Messages
  import opened Mailboxes
  import opened Protocol
  import opened ProtocolInvariant
  import opened Projection

  lemma ReachableInvariant(limit: nat, actions: seq<Action>)
    requires IsTrace(Initial(limit), actions)
    ensures Invariant(After(Initial(limit), actions))
    ensures After(Initial(limit), actions).limit == limit
  {
    RunKeepsInvariant(Initial(limit), actions);
    LimitNeverChanges(Initial(limit), actions);
  }

  lemma {:induction false} LimitNeverChanges(s: State, actions: seq<Action>)
    requires IsTrace(s, actions)
    ensures After(s, actions).limit == s.limit
    decreases |actions|
  {
    if actions != [] {
      LimitNeverChanges(Do(s, actions[0]), actions[1..]);
    }
  }

  /** The messages popped from peer p's queue for sending. */
  function Stream(s: State, p: nat): seq<Message>
    requires p < |s.peers|
  {
    s.peers[p].box.popped
  }

  // ----- one order of synchronized events for everybody -----

  /** The events of a stream are a subsequence of the session's event log. */
  ghost predicate FollowsLog(stream: seq<Message>, log: seq<Message>) {
    && (forall i :: 0 <= i < |stream| && stream[i].Event? ==>
          stream[i].eventId < |log| && log[stream[i].eventId] == stream[i])
    && (forall i, j :: 0 <= i < j < |stream| && stream[i].Event? && stream[j].Event? ==>
          stream[i].eventId < stream[j].eventId)
  }

  /** Two streams order every pair of events that both of them carry in the same way. */
  ghost predicate SameOrder(a: seq<Message>, b: seq<Message>) {
    forall i, j, k, l | 0 <= i < |a| && 0 <= j < |a| && 0 <= k < |b| && 0 <= l < |b|
      :: a[i].Event? && a[j].Event? && a[i] == b[k] && a[j] == b[l] ==> (i < j <==> k < l)
  }

  lemma LogOrdersStreams(a: seq<Message>, b: seq<Message>, log: seq<Message>)
    requires FollowsLog(a, log) && FollowsLog(b, log)
    ensures SameOrder(a, b)
  {
  }

  /** Every peer's stream carries the synchronized events in the session's order, so any two
      peers agree on every pair of events both have been sent; what reaches a socket is the
      stream itself, but for a last message still in flight. */
  lemma TotalOrder(limit: nat, actions: seq<Action>, p: nat, q: nat)
    requires IsTrace(Initial(limit), actions)
    requires p < |After(Initial(limit), actions).peers| && q < |After(Initial(limit), actions).peers|
    ensures var s := After(Initial(limit), actions);
      && FollowsLog(Stream(s, p), s.events)
      && SameOrder(Stream(s, p), Stream(s, q))
      && Wire(s.peers[p].box) <= Stream(s, p) && |Stream(s, p)| <= |Wire(s.peers[p].box)| + 1
  {
    ReachableInvariant(limit, actions);
    var s := After(Initial(limit), actions);
    StreamFollowsLog(s, p);
    StreamFollowsLog(s, q);
    LogOrdersStreams(Stream(s, p), Stream(s, q), s.events);
    assert BoxOk(s, p);
    PoppedIsOrderly(s.peers[p].box);
  }

  lemma StreamFollowsLog(s: State, p: nat)
    requires Invariant(s) && p < |s.peers|
    ensures FollowsLog(Stream(s, p), s.events)
  {
    assert BoxOk(s, p);
    PoppedIsOrderly(s.peers[p].box);
    var w := Stream(s, p);
    forall i | 0 <= i < |w| && w[i].Event?
      ensures w[i].eventId < |s.events| && s.events[w[i].eventId] == w[i]
    {
      assert w[i] in w;
      assert Known(s, p, w[i]);
    }
    assert forall i, j :: 0 <= i < j < |w| ==> InOrder(w[i], w[j]);
  }

  // ----- every missing event has a reason -----

  lemma OneMore(all: seq<nat>, a: seq<nat>, b: seq<nat>, more: seq<nat>, toA: bool)
    requires multiset(all) == multiset(a) + multiset(b)
    ensures multiset(all + more) == multiset(if toA then a + more else a) + multiset(if toA then b else b + more)
  {
    assert multiset(all + more) == multiset(all) + multiset(more);
    assert multiset(a + more) == multiset(a) + multiset(more);
    assert multiset(b + more) == multiset(b) + multiset(more);
  }

  function EventIdOf(m: Message): seq<nat> {
    if m.Event? then [m.eventId] else []
  }

  lemma OneOfferMore(s: seq<Offer>, x: Offer)
    ensures var more := EventIdOf(x.msg);
      && EventIds(OfferedMsgs(s + [x])) == EventIds(OfferedMsgs(s)) + more
      && forall k: bool :: EventIds(Select(s + [x], k)) ==
           if x.taken == k then EventIds(Select(s, k)) + more else EventIds(Select(s, k))
  {
    assert OfferedMsgs(s + [x]) == OfferedMsgs(s) + [x.msg];
    EventIdsAppend(OfferedMsgs(s), x.msg);
    forall k: bool
      ensures EventIds(Select(s + [x], k)) ==
                if x.taken == k then EventIds(Select(s, k)) + EventIdOf(x.msg) else EventIds(Select(s, k))
    {
      SelectAppend(s, x, k);
      EventIdsAppend(Select(s, k), x.msg);
    }
  }

  lemma {:induction false} OffersAddUp(s: seq<Offer>)
    ensures multiset(EventIds(OfferedMsgs(s)))
         == multiset(EventIds(Select(s, true))) + multiset(EventIds(Select(s, false)))
  {
    if s != [] {
      var front, last := s[..|s| - 1], s[|s| - 1];
      assert s == front + [last];
      OffersAddUp(front);
      OneOfferMore(front, last);
      hide EventIds, EventIdOf, OfferedMsgs, Select;
      OneMore(EventIds(OfferedMsgs(front)), EventIds(Select(front, true)), EventIds(Select(front, false)),
              EventIdOf(last.msg), last.taken);
    }
  }

  lemma OneSettlementMore(s: seq<Settlement>, x: Settlement)
    ensures var more := EventIdOf(x.msg);
      && EventIds(SettledMsgs(s + [x])) == EventIds(SettledMsgs(s)) + more
      && forall k: Fate :: EventIds(WithFate(s + [x], k)) ==
           if x.fate == k then EventIds(WithFate(s, k)) + more else EventIds(WithFate(s, k))
  {
    assert SettledMsgs(s + [x]) == SettledMsgs(s) + [x.msg];
    EventIdsAppend(SettledMsgs(s), x.msg);
    forall k: Fate
      ensures EventIds(WithFate(s + [x], k)) ==
                if x.fate == k then EventIds(WithFate(s, k)) + EventIdOf(x.msg) else EventIds(WithFate(s, k))
    {
      WithFateAppend(s, x, k);
      EventIdsAppend(WithFate(s, k), x.msg);
    }
  }

  lemma {:induction false} SettlementsAddUp(s: seq<Settlement>)
    ensures multiset(EventIds(SettledMsgs(s)))
         == multiset(EventIds(WithFate(s, Popped))) + multiset(EventIds(WithFate(s, Cleared)))
  {
    if s != [] {
      var front, last := s[..|s| - 1], s[|s| - 1];
      assert s == front + [last];
      SettlementsAddUp(front);
      OneSettlementMore(front, last);
      hide EventIds, EventIdOf, SettledMsgs, WithFate;
      OneMore(EventIds(SettledMsgs(front)), EventIds(WithFate(front, Popped)), EventIds(WithFate(front, Cleared)),
              EventIdOf(last.msg), last.fate == Popped);
    }
  }

  lemma {:induction false} NoEventRefused(s: seq<Offer>)
    requires EventIds(Select(s, false)) == []
    ensures EventIds(Select(s, true)) == EventIds(OfferedMsgs(s))
  {
    if s != [] {
      var front, last := s[..|s| - 1], s[|s| - 1];
      assert s == front + [last];
      OneOfferMore(front, last);
      NoEventRefused(front);
    }
  }

  lemma {:induction false} NoEventCleared(s: seq<Settlement>)
    requires EventIds(WithFate(s, Cleared)) == []
    ensures EventIds(WithFate(s, Popped)) == EventIds(SettledMsgs(s))
  {
    if s != [] {
      var front, last := s[..|s| - 1], s[|s| - 1];
      assert s == front + [last];
      OneSettlementMore(front, last);
      NoEventCleared(front);
    }
  }

  lemma AddUp(offered: seq<nat>, taken: seq<nat>, refused: seq<nat>,
              settled: seq<nat>, popped: seq<nat>, cleared: seq<nat>, pending: seq<nat>)
    requires multiset(offered) == multiset(taken) + multiset(refused)
    requires multiset(settled) == multiset(popped) + multiset(cleared)
    requires taken == settled + pending
    requires refused == [] ==> taken == offered
    requires cleared == [] ==> popped == settled
    ensures multiset(offered) == multiset(refused) + multiset(popped) + multiset(cleared) + multiset(pending)
    ensures popped + pending == offered <==> refused == [] && cleared == []
  {
    assert multiset(taken) == multiset(settled) + multiset(pending);
    assert multiset(popped + pending) == multiset(popped) + multiset(pending);
    assert |multiset(offered)| == |multiset(popped + pending)| + |refused| + |cleared|;
  }

  /** Where the events offered to a peer are. */
  lemma EventsOfABox(b: Mailbox)
    requires Inv(b)
    ensures var offered := EventIds(OfferedMsgs(b.offers));
      var refused, cleared := EventIds(Select(b.offers, false)), EventIds(WithFate(b.settled, Cleared));
      && multiset(offered) == multiset(refused) + multiset(EventIds(b.popped)) + multiset(cleared)
                            + multiset(EventIds(b.pending))
      && (EventIds(b.popped) + EventIds(b.pending) == offered <==> refused == [] && cleared == [])
      && (b.socket ==> cleared == [])
  {
    var offered, refused := EventIds(OfferedMsgs(b.offers)), EventIds(Select(b.offers, false));
    var settled, cleared := EventIds(SettledMsgs(b.settled)), EventIds(WithFate(b.settled, Cleared));
    OffersAddUp(b.offers);
    SettlementsAddUp(b.settled);
    EventIdsConcat(SettledMsgs(b.settled), b.pending);
    if b.socket {
      AllPopped(b.settled);
      assert cleared == [];
    }
    if refused == [] {
      NoEventRefused(b.offers);
    }
    if cleared == [] {
      NoEventCleared(b.settled);
    }
    hide EventIds, Select, WithFate, OfferedMsgs, SettledMsgs, Control, Wire, InFlight;
    AddUp(offered, EventIds(Select(b.offers, true)), refused,
          settled, EventIds(b.popped), cleared, EventIds(b.pending));
  }

  /** Each event of a peer's membership is accounted for exactly once: refused because the queue
      was full, popped for sending, discarded by an invalidation, or still queued. Popped and
      queued events are exactly the contiguous range if and only if no event was offered while
      the queue was full and the queue was never cleared with an event in it. */
  lemma GapsExplained(limit: nat, actions: seq<Action>, p: nat)
    requires IsTrace(Initial(limit), actions) && p < |After(Initial(limit), actions).peers|
    ensures var s, steps := After(Initial(limit), actions), BoxSteps(Initial(limit), actions, p);
      var b, range := s.peers[p].box, Range(s.peers[p].first, Until(s, p));
      && IsRun(Fresh(limit), steps) && End(Fresh(limit), steps) == b
      && multiset(range) == multiset(RefusedEvents(b)) + multiset(EventIds(b.popped))
                          + multiset(ClearedEvents(b)) + multiset(EventIds(b.pending))
      && (RefusedEvents(b) != [] <==> RefusesEvent(Fresh(limit), steps))
      && (ClearedEvents(b) != [] <==> ClearsEvent(Fresh(limit), steps))
      && (EventIds(b.popped) + EventIds(b.pending) == range <==>
            !RefusesEvent(Fresh(limit), steps) && !ClearsEvent(Fresh(limit), steps))
      && (b.socket ==> ClearedEvents(b) == [])
      && (p in s.members && s.lock.Free? ==> Until(s, p) == s.nextEvent)
  {
    ReachableInvariant(limit, actions);
    var s := After(Initial(limit), actions);
    assert BoxOk(s, p);
    QueueRun(Initial(limit), actions, p);
    EventsAreLostIff(Fresh(limit), BoxSteps(Initial(limit), actions, p));
    EventsOfABox(s.peers[p].box);
  }

  lemma OneAttemptMore(s: seq<Attempt>, x: Attempt)
    ensures var more := EventIdOf(x.msg);
      && EventIds(AttemptMsgs(s + [x])) == EventIds(AttemptMsgs(s)) + more
      && forall k: bool :: EventIds(Written(s + [x], k)) ==
           if x.ok == k then EventIds(Written(s, k)) + more else EventIds(Written(s, k))
  {
    assert AttemptMsgs(s + [x]) == AttemptMsgs(s) + [x.msg];
    EventIdsAppend(AttemptMsgs(s), x.msg);
    forall k: bool
      ensures EventIds(Written(s + [x], k)) ==
                if x.ok == k then EventIds(Written(s, k)) + EventIdOf(x.msg) else EventIds(Written(s, k))
    {
      WrittenAppend(s, x, k);
      EventIdsAppend(Written(s, k), x.msg);
    }
  }

  lemma {:induction false} AttemptsAddUp(s: seq<Attempt>)
    ensures multiset(EventIds(AttemptMsgs(s)))
         == multiset(EventIds(Written(s, true))) + multiset(EventIds(Written(s, false)))
  {
    if s != [] {
      var front, last := s[..|s| - 1], s[|s| - 1];
      assert s == front + [last];
      AttemptsAddUp(front);
      OneAttemptMore(front, last);
      hide EventIds, EventIdOf, AttemptMsgs, Written;
      OneMore(EventIds(AttemptMsgs(front)), EventIds(Written(front, true)), EventIds(Written(front, false)),
              EventIdOf(last.msg), last.ok);
    }
  }

  lemma {:induction false} NoEventFailed(s: seq<Attempt>)
    requires EventIds(Written(s, false)) == []
    ensures EventIds(Written(s, true)) == EventIds(AttemptMsgs(s))
  {
    if s != [] {
      var front, last := s[..|s| - 1], s[|s| - 1];
      assert s == front + [last];
      OneAttemptMore(front, last);
      NoEventFailed(front);
    }
  }

  lemma SendsAddUp(offered: seq<nat>, lost: multiset<nat>, popped: seq<nat>, tried: seq<nat>,
                   sent: seq<nat>, failed: seq<nat>, flight: seq<nat>, pending: seq<nat>)
    requires multiset(offered) == lost + multiset(popped) + multiset(pending)
    requires popped + pending == offered <==> lost == multiset{}
    requires popped == tried + flight && multiset(tried) == multiset(sent) + multiset(failed)
    requires failed == [] ==> sent == tried
    ensures multiset(offered) == lost + multiset(failed) + multiset(sent) + multiset(flight) + multiset(pending)
    ensures sent + flight + pending == offered <==> lost == multiset{} && failed == []
  {
    assert multiset(popped) == multiset(tried) + multiset(flight);
    assert multiset(sent + flight + pending) == multiset(sent) + multiset(flight) + multiset(pending);
    assert |multiset(offered)| == |lost| + |failed| + |multiset(sent + flight + pending)|;
  }

  lemma NothingLost(refused: seq<nat>, cleared: seq<nat>)
    ensures multiset(refused) + multiset(cleared) == multiset{} <==> refused == [] && cleared == []
  {
    assert |multiset(refused) + multiset(cleared)| == |refused| + |cleared|;
  }

  /** Where the events offered to a peer are, as seen from its socket. */
  lemma EventsOfASocket(b: Mailbox)
    requires Inv(b)
    ensures var offered, flight := EventIds(OfferedMsgs(b.offers)), EventIds(InFlight(b.drainers));
      && multiset(offered) == multiset(RefusedEvents(b)) + multiset(ClearedEvents(b)) + multiset(FailedEvents(b))
                            + multiset(SentEvents(b)) + multiset(flight) + multiset(EventIds(b.pending))
      && (SentEvents(b) + flight + EventIds(b.pending) == offered <==>
            RefusedEvents(b) == [] && ClearedEvents(b) == [] && FailedEvents(b) == [])
  {
    EventsOfABox(b);
    AttemptsAddUp(b.attempts);
    if FailedEvents(b) == [] {
      NoEventFailed(b.attempts);
    }
    EventIdsConcat(Wire(b), InFlight(b.drainers));
    var lost := multiset(RefusedEvents(b)) + multiset(ClearedEvents(b));
    NothingLost(RefusedEvents(b), ClearedEvents(b));
    var offered, popped, tried := EventIds(OfferedMsgs(b.offers)), EventIds(b.popped), EventIds(Wire(b));
    var flight, pending := EventIds(InFlight(b.drainers)), EventIds(b.pending);
    assert popped == tried + flight;
    hide EventIds, Select, WithFate, Written, OfferedMsgs, Control, Wire, InFlight, Inv;
    SendsAddUp(offered, lost, popped, tried, SentEvents(b), FailedEvents(b), flight, pending);
  }

  /** What a peer actually receives. Each event of its membership has been written to its socket,
      is being written, is queued, was refused, was discarded or failed to be written, exactly
      once. Those written, being written and queued are exactly the contiguous range if and only
      if no event was offered to a full queue, the queue was never cleared with an event in it, and
      no write of an event failed. */
  lemma DeliveryExplained(limit: nat, actions: seq<Action>, p: nat)
    requires IsTrace(Initial(limit), actions) && p < |After(Initial(limit), actions).peers|
    ensures var s, steps := After(Initial(limit), actions), BoxSteps(Initial(limit), actions, p);
      var b, range := s.peers[p].box, Range(s.peers[p].first, Until(s, p));
      var flight := EventIds(InFlight(b.drainers));
      && IsRun(Fresh(limit), steps) && End(Fresh(limit), steps) == b
      && multiset(range) == multiset(RefusedEvents(b)) + multiset(ClearedEvents(b)) + multiset(FailedEvents(b))
                          + multiset(SentEvents(b)) + multiset(flight) + multiset(EventIds(b.pending))
      && (SentEvents(b) + flight + EventIds(b.pending) == range <==>
            && !RefusesEvent(Fresh(limit), steps)
            && !ClearsEvent(Fresh(limit), steps)
            && !FailsEvent(Fresh(limit), steps))
      && (p in s.members && s.lock.Free? ==> Until(s, p) == s.nextEvent)
  {
    ReachableInvariant(limit, actions);
    var s := After(Initial(limit), actions);
    assert BoxOk(s, p);
    QueueRun(Initial(limit), actions, p);
    EventsAreLostIff(Fresh(limit), BoxSteps(Initial(limit), actions, p));
    EventsFailIff(Fresh(limit), BoxSteps(Initial(limit), actions, p));
    EventsOfASocket(s.peers[p].box);
  }

  // ----- first in, first out for each sender -----

  /** Whatever mixture of broadcasts, direct messages, messages to the host and synchronized
      events a sender issues, no peer is sent two of them in the opposite order. */
  lemma SenderOrder(limit: nat, actions: seq<Action>, p: nat)
    requires IsTrace(Initial(limit), actions) && p < |After(Initial(limit), actions).peers|
    ensures var s := After(Initial(limit), actions);
      var w := Stream(s, p);
      && (forall i, j :: 0 <= i < j < |w| && w[i].FromPeer() && w[j].FromPeer() && w[i].sender == w[j].sender
            ==> w[i].issue <= w[j].issue)
      && (forall i :: 0 <= i < |w| && w[i].FromPeer() ==> Issued(s, w[i].sender, w[i].issue))
  {
    ReachableInvariant(limit, actions);
    var s := After(Initial(limit), actions);
    assert BoxOk(s, p);
    PoppedIsOrderly(s.peers[p].box);
    var w := Stream(s, p);
    assert forall i, j :: 0 <= i < j < |w| ==> InOrder(w[i], w[j]);
    forall i | 0 <= i < |w| && w[i].FromPeer()
      ensures Issued(s, w[i].sender, w[i].issue)
    {
      assert w[i] in w;
      assert Known(s, p, w[i]);
    }
  }

  // ----- what the host knows -----

  /** Clients that joined while there was no host to tell. */
  ghost function Early(s: State): set<int> {
    set x: int | 0 <= x < |s.peers| && !s.peers[x].late
  }

  ghost function MemberIds(s: State): set<int> {
    set x: int | 0 <= x < |s.peers| && x in s.members
  }

  /** While the host is there and nobody is inside m_peersMutex, replaying what it was offered
      yields the session's peers without the host itself and without the clients that were
      there before it; nobody is announced or retired twice, or retired before announced. */
  lemma RosterMirror(limit: nat, actions: seq<Action>)
    requires IsTrace(Initial(limit), actions)
    requires After(Initial(limit), actions).host.Some? && After(Initial(limit), actions).lock.Free?
    ensures var s := After(Initial(limit), actions);
      && s.host.value < |s.peers|
      && var told := OfferedTo(s, s.host.value);
      && Replay(told) == MemberIds(s) - {s.host.value} - Early(s)
      && (forall i, j :: 0 <= i < j < |told| ==>
            && (told[i].Joined? && told[j].Joined? ==> told[i].client != told[j].client)
            && (told[i].Left? && (told[j].Left? || told[j].Joined?) ==> told[i].client != told[j].client))
  {
    ReachableInvariant(limit, actions);
    var s := After(Initial(limit), actions);
    var h := s.host.value;
    assert BoxOk(s, h);
    var told := OfferedTo(s, h);
    assert forall i, j :: 0 <= i < j < |told| ==> InOrder(told[i], told[j]);
    forall x | 0 <= x < |s.peers|
      ensures x in Roster(s) <==> x in MemberIds(s) - {h} - Early(s)
    {
      assert StageOk(s, x);
    }
    assert Roster(s) == MemberIds(s) - {h} - Early(s);
  }

  // ----- the host -----

  /** The host is the connection that created the session and sits in m_peers under its own id;
      every kick was ordered by that connection and hits somebody else. */
  lemma HostAuthority(limit: nat, actions: seq<Action>)
    requires IsTrace(Initial(limit), actions)
    ensures var s := After(Initial(limit), actions);
      && (s.host.Some? ==> s.host.value in s.members && s.host.value < |s.peers| && s.peers[s.host.value].asHost)
      && (forall p, q :: 0 <= p < |s.peers| && 0 <= q < |s.peers| && s.peers[p].asHost && s.peers[q].asHost ==> p == q)
      && (forall k :: k in s.kicks ==> k.0 < |s.peers| && s.peers[k.0].asHost && k.1 != k.0)
  {
    ReachableInvariant(limit, actions);
    var s := After(Initial(limit), actions);
    forall p | 0 <= p < |s.peers|
      ensures s.peers[p].asHost <==> s.creator == Some(p)
    {
      assert StageOk(s, p);
    }
  }

  lemma {:induction false} GoneHostStaysGone(s: State, actions: seq<Action>)
    requires Invariant(s) && IsTrace(s, actions)
    requires s.creator.Some? && s.peers[s.creator.value].stage.Rank() >= 4
    ensures After(s, actions).host.None?
    decreases |actions|
  {
    assert StageOk(s, s.creator.value);
    if actions != [] {
      StepKeepsInvariant(s, actions[0]);
      GoneForGood(s, actions[0]);
      GoneHostStaysGone(Do(s, actions[0]), actions[1..]);
    }
  }

  lemma GoneForGood(s: State, a: Action)
    requires Invariant(s) && Can(s, a)
    requires s.creator.Some? && s.peers[s.creator.value].stage.Rank() >= 4
    ensures Do(s, a).creator == s.creator && Do(s, a).peers[s.creator.value].stage.Rank() >= 4
  {
    if !a.Connect? {
      assert StageOk(s, s.creator.value);
    }
  }

  /** Once the host has been removed, the session never has a host again, whoever joins. */
  lemma HostNeverReturns(limit: nat, past: seq<Action>, p: nat, future: seq<Action>)
    requires IsTrace(Initial(limit), past)
    requires var s := After(Initial(limit), past);
      s.host == Some(p) && Can(s, Remove(p)) && IsTrace(Do(s, Remove(p)), future)
    ensures After(Do(After(Initial(limit), past), Remove(p)), future).host.None?
  {
    ReachableInvariant(limit, past);
    var s := After(Initial(limit), past);
    StepKeepsInvariant(s, Remove(p));
    GoneHostStaysGone(Do(s, Remove(p)), future);
  }

  // ----- every queue of the session -----

  /** In every reachable state of the whole session, each peer has at most one coroutine, and a
      non-empty queue with an open socket has exactly one unless its mutex is held. */
  lemma EveryQueueIsDrained(limit: nat, actions: seq<Action>, p: nat)
    requires IsTrace(Initial(limit), actions) && p < |After(Initial(limit), actions).peers|
    ensures var b := After(Initial(limit), actions).peers[p].box;
      && |b.drainers| <= 1
      && |b.pending| <= limit
      && (b.pending != [] && b.socket && !b.spawning ==> |b.drainers| == 1)
  {
    ReachableInvariant(limit, actions);
    assert BoxOk(After(Initial(limit), actions), p);
  }
}
