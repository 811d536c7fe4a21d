/** The methods of the Peer and Session objects, which run alone, are runs of the session
    protocol: what their contracts say is what some sequence of the protocol's steps does. So
    everything proved about all runs of the protocol holds of what the methods do. */
module Sequential {
  import opened Messages
  import opened Mailboxes
  import opened Protocol
  import opened ProtocolInvariant
  import P = PeerSession

  /** Nobody is inside m_peersMutex or inside a queue mutex. */
  ghost predicate Quiet(s: State) {
    s.lock.Free? && Unspawning(s)
  }

  ghost predicate Unspawning(s: State) {
    forall q :: 0 <= q < |s.peers| ==> !s.peers[q].box.spawning
  }

  // ----- one delivery -----

  /** A whole call of queueMessage on peer q. */
  function Delivered(s: State, q: nat, m: Message): State
    requires q < |s.peers|
  {
    With(s, q, s.peers[q].(box := Enqueue(s.peers[q].box, m)))
  }

  /** Steps that only the thread inside m_peersMutex, or a thread inside a queue mutex, takes. */
  predicate HoldersStep(a: Action) {
    a.TellJoined? || a.TellLeft? || a.AnnounceTo? || a.Announced? || (a.Inside? && a.step.Spawns?)
  }

  predicate HoldersSteps(actions: seq<Action>) {
    forall i :: 0 <= i < |actions| ==> HoldersStep(actions[i])
  }

  /** After an offer, the caller's look at the socket completes queueMessage. */
  lemma Complete(s: State, q: nat, m: Message) returns (actions: seq<Action>)
    requires q < |s.peers| && !s.peers[q].box.spawning
    ensures IsTrace(Queue(s, q, m), actions) && After(Queue(s, q, m), actions) == Delivered(s, q, m)
    ensures HoldersSteps(actions)
  {
    var t := Queue(s, q, m);
    if t.peers[q].box.spawning {
      var look := Inside(q, Spawns);
      assert Do(t, look).peers == Delivered(s, q, m).peers;
      actions := [look];
      assert actions[1..] == [];
    } else {
      actions := [];
    }
  }

  // ----- a message and its deliveries -----

  lemma {:induction false} EnqueueFirst(b: Mailbox, m: Message, n: nat)
    ensures P.EnqueueTimes(Enqueue(b, m), m, n) == P.EnqueueTimes(b, m, n + 1)
  {
    if n > 0 {
      EnqueueFirst(b, m, n - 1);
    } else {
      P.EnqueueAgain(b, m);
    }
  }

  /** Peer q once peer p's fan-out of m to `targets` is over. */
  function Reached(x: Peer, q: nat, p: nat, m: Message, targets: seq<nat>): Peer {
    var y := x.(box := P.EnqueueTimes(x.box, m, Occurrences(targets, q)));
    if q == p then y.(handler := Idle) else y
  }

  /** The state in which p still has m to deliver to `targets`. */
  function Owing(s: State, p: nat, m: Message, targets: seq<nat>): State
    requires p < |s.peers|
  {
    With(s, p, s.peers[p].(handler := Fanning(m, targets)))
  }

  lemma FanOutOne(s: State, p: nat, m: Message, targets: seq<nat>) returns (actions: seq<Action>)
    requires Unspawning(s) && p < |s.peers| && s.peers[p].handler == Fanning(m, targets)
    requires targets != [] && targets[0] < |s.peers|
    ensures IsTrace(s, actions)
    ensures After(s, actions) == Delivered(Owing(s, p, m, targets[1..]), targets[0], m)
  {
    var looks := Complete(Owing(s, p, m, targets[1..]), targets[0], m);
    TraceFirst(s, Forward(p), looks);
    actions := [Forward(p)] + looks;
  }

  lemma FanOutEnds(s: State, p: nat, m: Message)
    requires p < |s.peers| && s.peers[p].handler == Fanning(m, [])
    ensures IsTrace(s, [Forward(p)]) && After(s, [Forward(p)]) == With(s, p, s.peers[p].(handler := Idle))
  {
  }

  function AllReached(s: State, p: nat, m: Message, targets: seq<nat>): State {
    s.(peers := seq(|s.peers|, q requires 0 <= q < |s.peers| => Reached(s.peers[q], q, p, m, targets)))
  }

  lemma ReachedOneMore(s: State, p: nat, m: Message, targets: seq<nat>)
    requires p < |s.peers| && targets != [] && targets[0] < |s.peers|
    ensures AllReached(Delivered(Owing(s, p, m, targets[1..]), targets[0], m), p, m, targets[1..])
         == AllReached(s, p, m, targets)
  {
    hide Enqueue;
    var q, rest := targets[0], targets[1..];
    var t := Delivered(Owing(s, p, m, rest), q, m);
    assert targets == [q] + rest;
    forall r: nat | r < |s.peers|
      ensures Reached(t.peers[r], r, p, m, rest) == Reached(s.peers[r], r, p, m, targets)
    {
      EnqueueFirst(s.peers[r].box, m, Occurrences(rest, r));
      assert Occurrences(targets, r) == Occurrences(rest, r) + if r == q then 1 else 0;
    }
  }

  /** With nobody else moving, a fan-out reaches every peer as often as it is listed. */
  lemma {:induction false} FanOut(s: State, p: nat, m: Message, targets: seq<nat>) returns (actions: seq<Action>)
    requires Unspawning(s) && p < |s.peers| && s.peers[p].handler == Fanning(m, targets)
    requires forall i :: 0 <= i < |targets| ==> targets[i] < |s.peers|
    ensures IsTrace(s, actions) && After(s, actions) == AllReached(s, p, m, targets)
    decreases |targets|
  {
    hide Can, Do, Enqueue;
    if targets == [] {
      FanOutEnds(s, p, m);
      actions := [Forward(p)];
      assert With(s, p, s.peers[p].(handler := Idle)).peers == AllReached(s, p, m, targets).peers;
    } else {
      var first := FanOutOne(s, p, m, targets);
      var t := Delivered(Owing(s, p, m, targets[1..]), targets[0], m);
      StaysUnspawning(s, p, m, targets);
      var later := FanOut(t, p, m, targets[1..]);
      ReachedOneMore(s, p, m, targets);
      TraceConcat(s, first, later);
      actions := first + later;
    }
  }

  lemma StaysUnspawning(s: State, p: nat, m: Message, targets: seq<nat>)
    requires Unspawning(s) && p < |s.peers| && targets != [] && targets[0] < |s.peers|
    ensures Unspawning(Delivered(Owing(s, p, m, targets[1..]), targets[0], m))
  {
  }

  // ----- whom a forwarded message reaches -----

  lemma LookupCounts(members: set<nat>, ids: seq<Option<int>>, q: nat)
    ensures Occurrences(Lookup(members, ids), q) == if q in members then Requested(ids, q) else 0
  {
    if q in members {
      FindCounts(ById(members), ids, q);
    } else {
      LookupFindsMembers(members, ids);
    }
  }

  lemma {:induction false} OthersCount(p: nat, targets: seq<nat>, q: nat)
    ensures Occurrences(Others(p, targets), q) == if q == p then 0 else Occurrences(targets, q)
    ensures forall i :: 0 <= i < |Others(p, targets)| ==> Others(p, targets)[i] in targets
  {
    if targets != [] {
      OthersCount(p, targets[1..], q);
      assert targets == [targets[0]] + targets[1..];
    }
  }

  /** The audience that the methods give for a forwarding step. */
  ghost function AudienceOf(s: State, a: Action): P.Audience
    requires Forwards(a) && Can(s, a)
  {
    if a.Broadcast? then P.Everyone else if a.Direct? then P.Listed(a.ids) else P.Only(s.host.value)
  }

  lemma ListedCounts(s: State, a: Action, q: nat)
    requires Forwards(a) && Can(s, a) && Threads(s)
    ensures Occurrences(Others(a.p, Listed(s, a)), q) ==
              if q in s.members then P.Times(AudienceOf(s, a), a.p, q) else 0
  {
    OthersCount(a.p, Listed(s, a), q);
    if a.Broadcast? {
      DistinctOccur(a.order, q);
    } else if a.Direct? {
      LookupCounts(s.members, a.ids, q);
    }
  }

  /** The state once a peer has forwarded a message and nobody else has moved: every other member
      has been offered it as often as the audience asks for, and nothing else has changed. */
  ghost function Forwarded(s: State, a: Action): State
    requires Forwards(a) && Can(s, a)
  {
    s.(peers := seq(|s.peers|, q requires 0 <= q < |s.peers| => ForwardedTo(s, a, q)))
  }

  ghost function ForwardedTo(s: State, a: Action, q: nat): Peer
    requires Forwards(a) && Can(s, a) && q < |s.peers|
  {
    var x := s.peers[q];
    var times := if q in s.members then P.Times(AudienceOf(s, a), a.p, q) else 0;
    x.(box := P.EnqueueTimes(x.box, NextText(s, a.p, a.data), times),
       issued := if q == a.p then x.issued + 1 else x.issued)
  }

  lemma ListedPeerIsReached(s: State, a: Action, q: nat)
    requires Threads(s) && Forwards(a) && Can(s, a) && q < |s.peers|
    ensures a.p < |s.peers|
    ensures Reached(Fan(s, a.p, a.data, Listed(s, a)).peers[q], q, a.p,
                    NextText(s, a.p, a.data), Others(a.p, Listed(s, a)))
         == ForwardedTo(s, a, q)
  {
    FanStarts(s, a);
    ListedCounts(s, a, q);
    hide Can, Others, Listed, Threads, P.EnqueueTimes, P.Times;
  }

  lemma EveryoneListedIsReached(s: State, a: Action)
    requires Threads(s) && Forwards(a) && Can(s, a)
    ensures a.p < |s.peers|
    ensures AllReached(Fan(s, a.p, a.data, Listed(s, a)), a.p, NextText(s, a.p, a.data), Others(a.p, Listed(s, a)))
         == Forwarded(s, a)
  {
    FanStarts(s, a);
    hide Can, Others, Listed, Threads, ForwardedTo, Reached, NextText;
    forall q: nat | q < |s.peers|
      ensures Reached(Fan(s, a.p, a.data, Listed(s, a)).peers[q], q, a.p,
                      NextText(s, a.p, a.data), Others(a.p, Listed(s, a)))
           == ForwardedTo(s, a, q)
    {
      ListedPeerIsReached(s, a, q);
    }
    assert AllReached(Fan(s, a.p, a.data, Listed(s, a)), a.p, NextText(s, a.p, a.data), Others(a.p, Listed(s, a))).peers
        == Forwarded(s, a).peers;
  }

  /** handleBroadcast, handleDirectMessage and handleClientMessage, run alone, are runs of the
      protocol that end where the methods' contracts say. */
  lemma ForwardIsARun(s: State, a: Action) returns (actions: seq<Action>)
    requires Threads(s) && Quiet(s) && Forwards(a) && Can(s, a)
    ensures IsTrace(s, actions) && After(s, actions) == Forwarded(s, a)
  {
    var t, m, targets := Do(s, a), NextText(s, a.p, a.data), Others(a.p, Listed(s, a));
    FanStarts(s, a);
    ListedInRange(s, a);
    hide Can, Do, Others, Listed, Threads, AllReached, Forwarded;
    var rest := FanOut(t, a.p, m, targets);
    TraceFirst(s, a, rest);
    actions := [a] + rest;
    EveryoneListedIsReached(s, a);
  }

  // ----- synchronized events -----

  /** The state in which p still has to offer e to `left`. */
  function Unannounced(s: State, p: nat, e: Message, left: set<nat>): State
    requires p < |s.peers|
  {
    With(s, p, s.peers[p].(handler := Announcing(e, left)))
  }

  function Told(x: Peer, q: nat, p: nat, e: Message, left: set<nat>): Peer {
    var y := if q in left then x.(box := Enqueue(x.box, e)) else x;
    if q == p then y.(handler := Idle) else y
  }

  function AllTold(s: State, p: nat, e: Message, left: set<nat>): State {
    s.(lock := Free,
       peers := seq(|s.peers|, q requires 0 <= q < |s.peers| => Told(s.peers[q], q, p, e, left)))
  }

  lemma AnnounceOne(s: State, p: nat, e: Message, left: set<nat>, q: nat) returns (actions: seq<Action>)
    requires Unspawning(s) && p < |s.peers| && s.peers[p].handler == Announcing(e, left)
    requires q in left && q < |s.peers|
    ensures IsTrace(s, actions) && After(s, actions) == Delivered(Unannounced(s, p, e, left - {q}), q, e)
    ensures HoldersSteps(actions)
  {
    var looks := Complete(Unannounced(s, p, e, left - {q}), q, e);
    TraceFirst(s, AnnounceTo(p, q), looks);
    actions := [AnnounceTo(p, q)] + looks;
  }

  lemma ToldOneMore(s: State, p: nat, e: Message, left: set<nat>, q: nat)
    requires p < |s.peers| && q in left && q < |s.peers|
    ensures AllTold(Delivered(Unannounced(s, p, e, left - {q}), q, e), p, e, left - {q}) == AllTold(s, p, e, left)
    ensures Unspawning(s) ==> Unspawning(Delivered(Unannounced(s, p, e, left - {q}), q, e))
  {
  }

  lemma AnnouncedEnds(s: State, p: nat, e: Message)
    requires p < |s.peers| && s.peers[p].handler == Announcing(e, {})
    ensures IsTrace(s, [Announced(p)]) && After(s, [Announced(p)]) == AllTold(s, p, e, {})
  {
  }

  lemma {:induction false} AnnounceAll(s: State, p: nat, e: Message, left: set<nat>) returns (actions: seq<Action>)
    requires Unspawning(s) && p < |s.peers| && s.peers[p].handler == Announcing(e, left)
    requires forall q :: q in left ==> q < |s.peers|
    ensures IsTrace(s, actions) && After(s, actions) == AllTold(s, p, e, left)
    ensures HoldersSteps(actions)
    decreases left
  {
    hide Can, Do, Enqueue, AllTold;
    if left == {} {
      AnnouncedEnds(s, p, e);
      actions := [Announced(p)];
    } else {
      var q :| q in left;
      var first := AnnounceOne(s, p, e, left, q);
      ToldOneMore(s, p, e, left, q);
      var later := AnnounceAll(Delivered(Unannounced(s, p, e, left - {q}), q, e), p, e, left - {q});
      TraceConcat(s, first, later);
      actions := first + later;
    }
  }

  function NextEvent(s: State, p: nat, data: Option<string>): Message
    requires p < |s.peers|
  {
    Event(s.nextEvent, p, s.peers[p].issued, data)
  }

  /** The state once peer p's event has been broadcast and nobody else has moved. */
  function EventSent(s: State, p: nat, data: Option<string>): State
    requires p < |s.peers|
  {
    s.(nextEvent := s.nextEvent + 1, events := s.events + [NextEvent(s, p, data)],
       peers := seq(|s.peers|, q requires 0 <= q < |s.peers| =>
         EventDone(s.peers[q], q == p, q in s.members, NextEvent(s, p, data))))
  }

  function EventDone(x: Peer, sends: bool, receives: bool, e: Message): Peer {
    x.(issued := if sends then x.issued + 1 else x.issued,
       box := if receives then P.EnqueueTimes(x.box, e, 1) else x.box)
  }

  function EventOpened(s: State, p: nat, e: Message): State
    requires p < |s.peers|
  {
    With(s, p, s.peers[p].(issued := s.peers[p].issued + 1, handler := Announcing(e, s.members)))
      .(nextEvent := s.nextEvent + 1, events := s.events + [e], lock := Broadcasts(p))
  }

  lemma AnnounceStarts(s: State, p: nat, data: Option<string>)
    requires s.lock.Free? && Resting(s, p)
    ensures Can(s, Announce(p, data)) && Do(s, Announce(p, data)) == EventOpened(s, p, NextEvent(s, p, data))
  {
  }

  lemma PeerIsTold(x: Peer, y: Peer, q: nat, p: nat, e: Message, members: set<nat>)
    requires x.handler.Idle? || q != p
    requires y == if q == p then x.(issued := x.issued + 1, handler := Announcing(e, members)) else x
    ensures Told(y, q, p, e, members) == EventDone(x, q == p, q in members, e)
  {
    P.EnqueueAgain(x.box, e);
  }

  lemma EventSentIsTold(s: State, p: nat, data: Option<string>)
    requires s.lock.Free? && Resting(s, p)
    ensures AllTold(EventOpened(s, p, NextEvent(s, p, data)), p, NextEvent(s, p, data), s.members)
         == EventSent(s, p, data)
  {
    var e := NextEvent(s, p, data);
    hide NextEvent, Told, EventDone;
    var t := EventOpened(s, p, e);
    forall q: nat | q < |s.peers|
      ensures Told(t.peers[q], q, p, e, s.members) == EventDone(s.peers[q], q == p, q in s.members, e)
    {
      PeerIsTold(s.peers[q], t.peers[q], q, p, e, s.members);
    }
    assert AllTold(t, p, e, s.members).peers == EventSent(s, p, data).peers;
  }

  /** handleSynchronizedEvent, run alone, is a run of the protocol that offers the next event to
      every member once. */
  lemma EventIsARun(s: State, p: nat, data: Option<string>) returns (actions: seq<Action>)
    requires Threads(s) && Quiet(s) && Resting(s, p)
    ensures IsTrace(s, actions) && After(s, actions) == EventSent(s, p, data)
  {
    var e := NextEvent(s, p, data);
    AnnounceStarts(s, p, data);
    EventSentIsTold(s, p, data);
    hide AllTold, EventSent, NextEvent, Can, Do;
    var rest := AnnounceAll(EventOpened(s, p, e), p, e, s.members);
    TraceFirst(s, Announce(p, data), rest);
    actions := [Announce(p, data)] + rest;
  }

  // ----- joining and leaving -----

  /** The host, if there is one, has been offered m; nothing else has changed. */
  function HostTold(s: State, m: Message): State {
    if s.host.Some? && s.host.value < |s.peers| then Delivered(s, s.host.value, m) else s
  }

  function Newcomer(s: State, asHost: bool): Peer {
    Peer(Enqueue(Fresh(s.limit), Hello(|s.peers|, asHost)), Greeted, asHost, s.host.Some?, s.nextEvent, 0, 0, Idle)
  }

  /** The state once a connection has been made a peer and nobody else has moved: it has been
      greeted, and the host, if there is one, has been told. */
  function JoinedState(s: State, asHost: bool): State {
    var p := |s.peers|;
    var t := HostTold(s, Joined(p));
    t.(peers := t.peers + [Newcomer(s, asHost)],
       members := s.members + {p},
       host := if asHost then Some(p) else s.host,
       creator := if asHost then Some(p) else s.creator)
  }

  /** onAfterCreate_NonBlocking up to the end of addPeer's critical section. */
  lemma InsertNow(s: State, asHost: bool) returns (actions: seq<Action>)
    requires Threads(s) && Quiet(s) && Can(s, Connect(asHost))
    ensures IsTrace(s, actions)
    ensures var p, t := |s.peers|, HostTold(s, Joined(|s.peers|));
      After(s, actions) == JoinedState(s, asHost).(
        peers := t.peers + [Newcomer(s, asHost).(box := Fresh(s.limit), stage := Inserted)])
  {
    var p := |s.peers|;
    var c := Do(s, Connect(asHost));
    var i := Do(c, Insert(p));
    assert asHost ==> s.host.None?;
    var rest: seq<Action>;
    if s.host.Some? {
      var u := With(i, p, i.peers[p].(stage := Inserted)).(lock := Free);
      var looks := Complete(u, s.host.value, Joined(p));
      TraceFirst(i, TellJoined, looks);
      rest := [TellJoined] + looks;
      assert Delivered(u, s.host.value, Joined(p)).peers
          == HostTold(s, Joined(p)).peers + [Newcomer(s, asHost).(box := Fresh(s.limit), stage := Inserted)];
    } else {
      rest := [];
    }
    TraceFirst(c, Insert(p), rest);
    TraceFirst(s, Connect(asHost), [Insert(p)] + rest);
    actions := [Connect(asHost)] + ([Insert(p)] + rest);
  }

  /** generateNewPeerId and addPeer, run alone, are a run of the protocol that greets the new
      peer and tells the host. */
  lemma JoinIsARun(s: State, asHost: bool) returns (actions: seq<Action>)
    requires Threads(s) && Quiet(s) && Can(s, Connect(asHost))
    ensures IsTrace(s, actions) && After(s, actions) == JoinedState(s, asHost)
  {
    var p := |s.peers|;
    var first := InsertNow(s, asHost);
    var t := After(s, first);
    var u := With(t, p, t.peers[p].(stage := Greeted));
    var looks := Complete(u, p, Hello(p, asHost));
    TraceFirst(t, Greet(p), looks);
    TraceConcat(s, first, [Greet(p)] + looks);
    actions := first + ([Greet(p)] + looks);
    assert Delivered(u, p, Hello(p, asHost)).peers == JoinedState(s, asHost).peers;
  }

  /** The host that is left once p has gone. */
  function HostWithout(s: State, p: nat): Option<nat> {
    if s.host == Some(p) then None else s.host
  }

  /** The state once peer p's connection is destroyed and nobody else has moved: its socket and
      queue are gone, and the host, if one is left, has been told. */
  function LeftState(s: State, p: nat): State
    requires p < |s.peers|
  {
    var x := s.peers[p];
    HostTold(With(s, p, x.(box := Emptied(Disconnected(x.box)), stage := Gone, last := s.nextEvent))
               .(members := s.members - {p}, host := HostWithout(s, p)), Left(p))
  }

  const INVALIDATION := [Disconnects, Clears]

  lemma InvalidateNow(s: State, p: nat)
    requires p < |s.peers| && !s.peers[p].box.spawning
    ensures IsTrace(s, Insides(p, INVALIDATION))
    ensures After(s, Insides(p, INVALIDATION)) == WithBox(s, p, Emptied(Disconnected(s.peers[p].box)))
  {
    var b := s.peers[p].box;
    assert INVALIDATION[1..] == [Clears] && [Clears][1..] == [];
    assert IsRun(Disconnected(b), [Clears]);
    assert IsRun(b, INVALIDATION) && End(b, INVALIDATION) == Emptied(Disconnected(b));
    InsideRun(s, p, INVALIDATION);
  }

  function DroppedState(s: State, dropped: set<nat>): State {
    s.(peers := seq(|s.peers|, q requires 0 <= q < |s.peers| => DroppedPeer(s.peers[q], q in dropped)))
  }

  function DroppedPeer(x: Peer, isDropped: bool): Peer {
    if isDropped then x.(box := Emptied(Disconnected(x.box))) else x
  }

  lemma DropOne(s: State, dropped: set<nat>, p: nat)
    requires Unspawning(s) && p in dropped && p < |s.peers|
    ensures var t := WithBox(s, p, Emptied(Disconnected(s.peers[p].box)));
      Unspawning(t) && DroppedState(t, dropped - {p}) == DroppedState(s, dropped)
  {
    var t := WithBox(s, p, Emptied(Disconnected(s.peers[p].box)));
    assert DroppedState(t, dropped - {p}).peers == DroppedState(s, dropped).peers;
  }

  /** A round of checks, in whatever order it meets the peers. */
  lemma {:induction false} DropEach(s: State, dropped: set<nat>) returns (actions: seq<Action>)
    requires Unspawning(s) && forall p :: p in dropped ==> p < |s.peers|
    ensures IsTrace(s, actions) && After(s, actions) == DroppedState(s, dropped)
    decreases dropped
  {
    if dropped == {} {
      actions := [];
      assert DroppedState(s, dropped).peers == s.peers;
    } else {
      var p :| p in dropped;
      InvalidateNow(s, p);
      DropOne(s, dropped, p);
      hide Can, Do, DroppedState, Emptied;
      var rest := DropEach(WithBox(s, p, Emptied(Disconnected(s.peers[p].box))), dropped - {p});
      TraceConcat(s, Insides(p, INVALIDATION), rest);
      actions := Insides(p, INVALIDATION) + rest;
    }
  }

  lemma InsideNow(s: State, p: nat, step: Step) returns (actions: seq<Action>)
    requires p < |s.peers| && !step.Offers? && Enabled(s.peers[p].box, step)
    ensures IsTrace(s, actions) && After(s, actions) == WithBox(s, p, Apply(s.peers[p].box, step))
  {
    assert [step][1..] == [];
    InsideRun(s, p, [step]);
    actions := Insides(p, [step]);
  }

  lemma RemoveNow(s: State, p: nat) returns (actions: seq<Action>)
    requires Threads(s) && Quiet(s) && Can(s, Remove(p))
    ensures IsTrace(s, actions)
    ensures After(s, actions) == HostTold(With(s, p, s.peers[p].(stage := Gone, last := s.nextEvent))
                                   .(members := s.members - {p}, host := HostWithout(s, p)), Left(p))
  {
    var r := Do(s, Remove(p));
    var rest: seq<Action>;
    if r.host.Some? {
      var u := With(r, p, r.peers[p].(stage := Gone)).(lock := Free);
      var looks := Complete(u, r.host.value, Left(p));
      TraceFirst(r, TellLeft, looks);
      rest := [TellLeft] + looks;
      assert u.peers == With(s, p, s.peers[p].(stage := Gone, last := s.nextEvent)).peers;
    } else {
      rest := [];
    }
    TraceFirst(s, Remove(p), rest);
    actions := [Remove(p)] + rest;
  }

  /** onBeforeDestroy_NonBlocking on a member, run alone, is a run of the protocol. */
  lemma LeaveIsARun(s: State, p: nat) returns (actions: seq<Action>)
    requires Threads(s) && Quiet(s) && Can(s, Remove(p))
    ensures IsTrace(s, actions) && After(s, actions) == LeftState(s, p)
  {
    InvalidateNow(s, p);
    var first := Insides(p, INVALIDATION);
    var t := After(s, first);
    RunKeepsThreads(s, first);
    var rest := RemoveNow(t, p);
    TraceConcat(s, first, rest);
    actions := first + rest;
    assert With(t, p, t.peers[p].(stage := Gone, last := s.nextEvent)).peers
        == With(s, p, t.peers[p].(stage := Gone, last := s.nextEvent)).peers;
  }

  lemma {:induction false} RunKeepsThreads(s: State, actions: seq<Action>)
    requires Threads(s) && IsTrace(s, actions)
    ensures Threads(After(s, actions))
    decreases |actions|
  {
    if actions != [] {
      StepKeepsThreads(s, actions[0]);
      RunKeepsThreads(Do(s, actions[0]), actions[1..]);
    }
  }

  // ----- kicks -----

  function Victims(p: nat, victims: seq<nat>): seq<(nat, nat)> {
    seq(|victims|, i requires 0 <= i < |victims| => (p, victims[i]))
  }

  /** The state in which p still has to kick `victims`. */
  function Kicking(s: State, p: nat, victims: seq<nat>): State
    requires p < |s.peers|
  {
    With(s, p, s.peers[p].(handler := Handler.Kicking(victims)))
  }

  lemma KickNext(s: State, p: nat, victims: seq<nat>)
    requires Resting(s, p)
    ensures Can(Kicking(s, p, victims), KickOne(p))
    ensures Do(Kicking(s, p, victims), KickOne(p)) ==
              if victims == [] then s else Kicking(s.(kicks := s.kicks + [(p, victims[0])]), p, victims[1..])
  {
    if victims == [] {
      assert Do(Kicking(s, p, victims), KickOne(p)).peers == s.peers;
    }
  }

  lemma {:induction false} KickAll(s: State, p: nat, victims: seq<nat>) returns (actions: seq<Action>)
    requires Resting(s, p)
    ensures IsTrace(Kicking(s, p, victims), actions)
    ensures After(Kicking(s, p, victims), actions) == s.(kicks := s.kicks + Victims(p, victims))
    decreases |victims|
  {
    KickNext(s, p, victims);
    var k, rest := Kicking(s, p, victims), [];
    if victims != [] {
      var u := s.(kicks := s.kicks + [(p, victims[0])]);
      rest := KickAll(u, p, victims[1..]);
      assert u.kicks + Victims(p, victims[1..]) == s.kicks + Victims(p, victims);
    } else {
      assert s.kicks + Victims(p, victims) == s.kicks;
    }
    hide Do, Can, Kicking, Victims;
    TraceFirst(k, KickOne(p), rest);
    actions := [KickOne(p)] + rest;
  }

  /** handleKickMessage, run alone, is a run of the protocol that kicks, in request order, the other
      members that are listed, as often as they are listed, and changes nothing else; and only the
      host can start it. */
  lemma KickIsARun(s: State, p: nat, ids: seq<Option<int>>) returns (actions: seq<Action>)
    requires Quiet(s) && Resting(s, p)
    ensures Can(s, AskKick(p, ids)) <==> s.host == Some(p) && ids != []
    ensures s.host == Some(p) && ids != [] ==>
              && IsTrace(s, actions)
              && After(s, actions) == s.(kicks := s.kicks + Victims(p, Others(p, Lookup(s.members, ids))))
  {
    actions := [];
    if s.host == Some(p) && ids != [] {
      var victims := Others(p, Lookup(s.members, ids));
      var rest := KickAll(s, p, victims);
      var m := Do(s, AskKick(p, ids));
      assert Do(m, PickVictims(p)).peers == Kicking(s, p, victims).peers;
      TraceFirst(m, PickVictims(p), rest);
      TraceFirst(s, AskKick(p, ids), [PickVictims(p)] + rest);
      actions := [AskKick(p, ids)] + ([PickVictims(p)] + rest);
    }
  }

  // ----- whole histories of calls -----

  /** One call that nothing interleaves with: a peer forwards a message or sends an event, a
      connection arrives or departs, a coroutine has a turn or finishes a send, a peer is
      invalidated, or a round of checks drops some peers. */
  datatype Call =
    | Asks(a: Action)
    | Announces(p: nat, data: Option<string>)
    | Arrives(asHost: bool)
    | Departs(p: nat)
    | Pops(p: nat, i: nat)
    | Ends(p: nat, i: nat, ok: bool)
    | Invalidates(p: nat)
    | Drops(dropped: set<nat>)

  ghost predicate MayCall(s: State, c: Call) {
    match c
    case Asks(a) => Forwards(a) && Can(s, a)
    case Announces(p, _) => Resting(s, p)
    case Arrives(asHost) => Can(s, Connect(asHost))
    case Departs(p) => Can(s, Remove(p))
    case Pops(p, i) => p < |s.peers| && Enabled(s.peers[p].box, Turns(i))
    case Ends(p, i, ok) => p < |s.peers| && Enabled(s.peers[p].box, Sends(i, ok))
    case Invalidates(p) => p < |s.peers|
    case Drops(dropped) => forall p :: p in dropped ==> p < |s.peers|
  }

  ghost function Outcome(s: State, c: Call): State
    requires MayCall(s, c)
  {
    match c
    case Asks(a) => Forwarded(s, a)
    case Announces(p, data) => EventSent(s, p, data)
    case Arrives(asHost) => JoinedState(s, asHost)
    case Departs(p) => LeftState(s, p)
    case Pops(p, i) => WithBox(s, p, Turned(s.peers[p].box, i))
    case Ends(p, i, ok) => WithBox(s, p, Sent(s.peers[p].box, i, ok))
    case Invalidates(p) => WithBox(s, p, Emptied(Disconnected(s.peers[p].box)))
    case Drops(dropped) => DroppedState(s, dropped)
  }

  lemma CallIsARun(s: State, c: Call) returns (actions: seq<Action>)
    requires Threads(s) && Quiet(s) && MayCall(s, c)
    ensures IsTrace(s, actions) && After(s, actions) == Outcome(s, c)
  {
    hide Can, Do, Threads, Forwarded, EventSent, JoinedState, LeftState;
    match c
    case Asks(a) => actions := ForwardIsARun(s, a);
    case Announces(p, data) => actions := EventIsARun(s, p, data);
    case Arrives(asHost) => actions := JoinIsARun(s, asHost);
    case Departs(p) => actions := LeaveIsARun(s, p);
    case Pops(p, i) => actions := InsideNow(s, p, Turns(i));
    case Ends(p, i, ok) => actions := InsideNow(s, p, Sends(i, ok));
    case Invalidates(p) =>
      InvalidateNow(s, p);
      actions := Insides(p, INVALIDATION);
    case Drops(dropped) => actions := DropEach(s, dropped);
  }

  lemma EnqueueStaysQuiet(b: Mailbox, m: Message, n: nat)
    requires !b.spawning
    ensures !P.EnqueueTimes(b, m, n).spawning
  {
  }

  lemma OffersStayQuiet(s: State, c: Call)
    requires Quiet(s) && MayCall(s, c) && (c.Asks? || c.Announces?)
    ensures Quiet(Outcome(s, c))
  {
    forall b: Mailbox, m: Message, n: nat | !b.spawning
      ensures !P.EnqueueTimes(b, m, n).spawning
    {
      EnqueueStaysQuiet(b, m, n);
    }
    hide P.EnqueueTimes, NextText, Can;
  }

  lemma CallStaysQuiet(s: State, c: Call)
    requires Quiet(s) && MayCall(s, c)
    ensures Quiet(Outcome(s, c))
  {
    if c.Asks? || c.Announces? {
      OffersStayQuiet(s, c);
    }
    hide Forwarded, EventSent, NextText, Can;
  }

  ghost predicate IsHistory(s: State, calls: seq<Call>)
    decreases |calls|
  {
    calls == [] || (MayCall(s, calls[0]) && IsHistory(Outcome(s, calls[0]), calls[1..]))
  }

  ghost function Final(s: State, calls: seq<Call>): State
    requires IsHistory(s, calls)
    decreases |calls|
  {
    if calls == [] then s else Final(Outcome(s, calls[0]), calls[1..])
  }

  /** Any history of calls is a run of the protocol, so its state satisfies the protocol's
      invariant and with it everything proved of reachable states. */
  lemma {:induction false} HistoryIsARun(s: State, calls: seq<Call>) returns (actions: seq<Action>)
    requires Invariant(s) && Quiet(s) && IsHistory(s, calls)
    ensures IsTrace(s, actions) && After(s, actions) == Final(s, calls)
    ensures Invariant(Final(s, calls)) && Quiet(Final(s, calls))
    decreases |calls|
  {
    if calls == [] {
      actions := [];
    } else {
      var first := CallIsARun(s, calls[0]);
      RunKeepsInvariant(s, first);
      CallStaysQuiet(s, calls[0]);
      hide MayCall, Outcome, Invariant, Quiet, Can, Do;
      var rest := HistoryIsARun(Outcome(s, calls[0]), calls[1..]);
      TraceConcat(s, first, rest);
      actions := first + rest;
    }
  }

  // ----- what can be asked for after any history -----

  /** Nobody is in the middle of anything, and the peers that are in the session are the members. */
  ghost predicate Settled(s: State) {
    && Quiet(s)
    && (forall p :: p in s.members ==> p < |s.peers|)
    && (forall p :: 0 <= p < |s.peers| ==>
          s.peers[p].handler.Idle? && (s.peers[p].stage.Greeted? <==> p in s.members))
  }

  lemma OutcomeIsSettled(s: State, c: Call)
    requires Settled(s) && MayCall(s, c)
    ensures Settled(Outcome(s, c))
  {
    CallStaysQuiet(s, c);
    hide Quiet, Enqueue, P.EnqueueTimes, Emptied, NextText, NextEvent, P.Times, AudienceOf;
  }

  lemma {:induction false} HistoryIsSettled(s: State, calls: seq<Call>)
    requires Settled(s) && IsHistory(s, calls)
    ensures Settled(Final(s, calls))
    decreases |calls|
  {
    if calls != [] {
      OutcomeIsSettled(s, calls[0]);
      hide Settled, MayCall, Outcome;
      HistoryIsSettled(Outcome(s, calls[0]), calls[1..]);
    }
  }

  lemma CreatorsAreHosts(s: State)
    requires Invariant(s)
    ensures s.creator.None? <==> forall q :: 0 <= q < |s.peers| ==> !s.peers[q].asHost
  {
    forall q | 0 <= q < |s.peers|
      ensures s.peers[q].asHost <==> s.creator == Some(q)
    {
      assert StageOk(s, q);
    }
  }

  lemma SettledMay(s: State, p: nat, data: Option<string>, ids: seq<Option<int>>, order: seq<nat>)
    requires Settled(s) && p < |s.peers| && Enumerates(order, s.members)
    ensures MayCall(s, Arrives(false)) && (MayCall(s, Arrives(true)) <==> s.creator.None?)
    ensures MayCall(s, Asks(Broadcast(p, data, order))) && MayCall(s, Announces(p, data)) && MayCall(s, Invalidates(p))
    ensures MayCall(s, Asks(Direct(p, data, ids))) <==> ids != []
    ensures MayCall(s, Asks(ToHost(p, data))) <==> s.host.Some? && s.host != Some(p)
    ensures MayCall(s, Departs(p)) <==> p in s.members
  {
    hide Enumerates;
  }

  /** After any history a client can arrive, a host can exactly if none ever has, and any peer,
      gone or not, can broadcast, announce an event, be invalidated, send to a non-empty list, and
      send to the host if there is one and it is somebody else; exactly the members can depart. */
  lemma WhatMayBeAsked(limit: nat, calls: seq<Call>, p: nat, data: Option<string>, ids: seq<Option<int>>,
                       order: seq<nat>)
    requires IsHistory(Initial(limit), calls) && p < |Final(Initial(limit), calls).peers|
    requires Enumerates(order, Final(Initial(limit), calls).members)
    ensures var s := Final(Initial(limit), calls);
      && MayCall(s, Arrives(false))
      && (MayCall(s, Arrives(true)) <==> forall q :: 0 <= q < |s.peers| ==> !s.peers[q].asHost)
      && MayCall(s, Asks(Broadcast(p, data, order))) && MayCall(s, Announces(p, data)) && MayCall(s, Invalidates(p))
      && (MayCall(s, Asks(Direct(p, data, ids))) <==> ids != [])
      && (MayCall(s, Asks(ToHost(p, data))) <==> s.host.Some? && s.host != Some(p))
      && (MayCall(s, Departs(p)) <==> p in s.members)
  {
    var s := Final(Initial(limit), calls);
    hide MayCall, Final, IsHistory, Enumerates;
    HistoryIsSettled(Initial(limit), calls);
    var _ := HistoryIsARun(Initial(limit), calls);
    hide Invariant, Settled, Quiet;
    CreatorsAreHosts(s);
    SettledMay(s, p, data, ids, order);
  }

  // ----- an event that is lost without an overflow -----

  lemma HistoryFirst(s: State, c: Call, rest: seq<Call>)
    requires MayCall(s, c) && IsHistory(Outcome(s, c), rest)
    ensures IsHistory(s, [c] + rest) && Final(s, [c] + rest) == Final(Outcome(s, c), rest)
  {
    assert ([c] + rest)[1..] == rest;
  }

  /** The queue of a peer that has been greeted and has been sent the greeting. */
  function Served(hello: Message): Mailbox {
    Sent(Turned(Enqueue(Fresh(1), hello), 0), 0, true)
  }

  lemma NothingIsRefused(b: Mailbox, hello: Message, e: Message)
    requires b.offers == [Offer(hello, 0, true), Offer(e, 0, true)]
    ensures RefusedEvents(b) == []
  {
    var x, y := Offer(hello, 0, true), Offer(e, 0, true);
    SelectAppend([], x, false);
    SelectAppend([x], y, false);
    assert [] + [x] == [x] && [x] + [y] == b.offers && Select([], false) == [];
  }

  lemma WaitsForItsEvent(hello: Message, e: Message)
    ensures var b := Enqueue(Served(hello), e);
      && b.offers == [Offer(hello, 0, true), Offer(e, 0, true)]
      && b.settled == [Settlement(hello, Popped)] && b.pending == [e]
  {
  }

  lemma OneEventIsCleared(s: seq<Settlement>, hello: Message, e: Message)
    requires e.Event? && s == [Settlement(hello, Popped)] + AllCleared([e])
    ensures EventIds(WithFate(s, Cleared)) == [e.eventId]
  {
    var x := [Settlement(hello, Popped)];
    assert x[..0] == [] && WithFate(x, Cleared) == [];
    WithFateCleared(x, [e]);
    assert [] + [e] == [e];
    EventIdsAppend([], e);
  }

  lemma ServedLosesAnEvent(hello: Message, e: Message)
    requires e.Event?
    ensures var b := Emptied(Disconnected(Enqueue(Served(hello), e)));
      RefusedEvents(b) == [] && ClearedEvents(b) == [e.eventId]
  {
    var b := Emptied(Disconnected(Enqueue(Served(hello), e)));
    WaitsForItsEvent(hello, e);
    hide Enqueue, Served, AllCleared, WithFate, EventIds, RefusedEvents;
    NothingIsRefused(b, hello, e);
    OneEventIsCleared(b.settled, hello, e);
  }

  /** A session whose only peer is its host. */
  function LoneHost(b: Mailbox, issued: nat, log: seq<Message>): State {
    State(1, [Peer(b, Greeted, true, false, 0, 0, issued, Idle)], {0}, Some(0), |log|, Free, Some(0), log, [])
  }

  lemma LoneHostJoins()
    ensures MayCall(Initial(1), Arrives(true))
    ensures Outcome(Initial(1), Arrives(true)) == LoneHost(Enqueue(Fresh(1), Hello(0, true)), 0, [])
  {
  }

  lemma LoneHostSends(b: Mailbox, data: Option<string>)
    ensures MayCall(LoneHost(b, 0, []), Announces(0, data))
    ensures Outcome(LoneHost(b, 0, []), Announces(0, data))
         == LoneHost(Enqueue(b, Event(0, 0, 0, data)), 1, [Event(0, 0, 0, data)])
  {
    P.EnqueueAgain(b, Event(0, 0, 0, data));
  }

  lemma LoneHostPops(b: Mailbox, issued: nat, log: seq<Message>)
    requires Enabled(b, Turns(0))
    ensures MayCall(LoneHost(b, issued, log), Pops(0, 0))
    ensures Outcome(LoneHost(b, issued, log), Pops(0, 0)) == LoneHost(Turned(b, 0), issued, log)
  {
  }

  lemma LoneHostEnds(b: Mailbox, ok: bool, issued: nat, log: seq<Message>)
    requires Enabled(b, Sends(0, ok))
    ensures MayCall(LoneHost(b, issued, log), Ends(0, 0, ok))
    ensures Outcome(LoneHost(b, issued, log), Ends(0, 0, ok)) == LoneHost(Sent(b, 0, ok), issued, log)
  {
  }

  lemma LoneHostIsDropped(b: Mailbox, issued: nat, log: seq<Message>)
    ensures MayCall(LoneHost(b, issued, log), Invalidates(0))
    ensures Outcome(LoneHost(b, issued, log), Invalidates(0)) == LoneHost(Emptied(Disconnected(b)), issued, log)
  {
  }

  /** A lone host joins and is sent its greeting, before anything else happens. */
  lemma LoneHostIsServed(rest: seq<Call>) returns (calls: seq<Call>)
    requires IsHistory(LoneHost(Served(Hello(0, true)), 0, []), rest)
    ensures IsHistory(Initial(1), calls)
    ensures Final(Initial(1), calls) == Final(LoneHost(Served(Hello(0, true)), 0, []), rest)
  {
    var b := Enqueue(Fresh(1), Hello(0, true));
    assert Enabled(b, Turns(0)) && Enabled(Turned(b, 0), Sends(0, true));
    LoneHostJoins();
    LoneHostPops(b, 0, []);
    LoneHostEnds(Turned(b, 0), true, 0, []);
    hide MayCall, Outcome, Enqueue, Fresh, Turned, Sent, Enabled;
    HistoryFirst(LoneHost(Turned(b, 0), 0, []), Ends(0, 0, true), rest);
    HistoryFirst(LoneHost(b, 0, []), Pops(0, 0), [Ends(0, 0, true)] + rest);
    HistoryFirst(Initial(1), Arrives(true), [Pops(0, 0)] + ([Ends(0, 0, true)] + rest));
    calls := [Arrives(true)] + ([Pops(0, 0)] + ([Ends(0, 0, true)] + rest));
  }

  /** A full queue is not the only reason for a gap. In this history of whole calls a lone host
      joins, is greeted, sends an event and is dropped by the failure detector before the event
      has gone out: the event is lost although the queue always had room. */
  lemma GapWithoutOverflow(data: Option<string>) returns (calls: seq<Call>)
    ensures IsHistory(Initial(1), calls) && |Final(Initial(1), calls).peers| == 1
    ensures var s := Final(Initial(1), calls);
      && Quiet(s) && s.members == {0} && s.peers[0].stage.Greeted?
      && RefusedEvents(s.peers[0].box) == [] && ClearedEvents(s.peers[0].box) == [0]
  {
    var hello, e := Hello(0, true), Event(0, 0, 0, data);
    var b := Enqueue(Served(hello), e);
    ServedLosesAnEvent(hello, e);
    LoneHostSends(Served(hello), data);
    LoneHostIsDropped(b, 1, [e]);
    assert !Emptied(Disconnected(b)).spawning;
    hide MayCall, Outcome, Enqueue, Served, Emptied, RefusedEvents, ClearedEvents;
    HistoryFirst(LoneHost(b, 1, [e]), Invalidates(0), []);
    HistoryFirst(LoneHost(Served(hello), 0, []), Announces(0, data), [Invalidates(0)] + []);
    calls := LoneHostIsServed([Announces(0, data)] + ([Invalidates(0)] + []));
  }

  /** The queue of a host whose event was popped and then failed to be written. */
  function Unlucky(hello: Message, e: Message): Mailbox {
    Sent(Turned(Enqueue(Served(hello), e), 0), 0, false)
  }

  lemma UnluckyLosesItsEvent(hello: Message, e: Message)
    requires !hello.Event? && e.Event?
    ensures var b := Enqueue(Served(hello), e);
      && Enabled(b, Turns(0)) && Enabled(Turned(b, 0), Sends(0, false))
    ensures var b := Unlucky(hello, e);
      && b.attempts == [Attempt(hello, true), Attempt(e, false)]
      && b.offers == [Offer(hello, 0, true), Offer(e, 0, true)]
      && b.settled == [Settlement(hello, Popped), Settlement(e, Popped)]
      && b.pending == [] && b.socket && b.drainers == [Ready] && !b.spawning
  {
  }

  lemma NothingIsCleared(b: Mailbox)
    requires forall x :: x in b.settled ==> x.fate == Popped
    ensures ClearedEvents(b) == []
  {
    AllPopped(b.settled);
  }

  lemma OnlyTheWriteFails(b: Mailbox, hello: Message, e: Message)
    requires !hello.Event? && e.Event?
    requires b.attempts == [Attempt(hello, true), Attempt(e, false)]
    ensures SentEvents(b) == [] && FailedEvents(b) == [e.eventId]
  {
    var x, y := Attempt(hello, true), Attempt(e, false);
    assert Written([], true) == [] && Written([], false) == [];
    WrittenAppend([], x, true);
    WrittenAppend([], x, false);
    WrittenAppend([x], y, true);
    WrittenAppend([x], y, false);
    assert [] + [x] == [x] && [x] + [y] == b.attempts && [] + [hello] == [hello] && [] + [e] == [e];
    hide Written;
    EventIdsAppend([], hello);
    EventIdsAppend([], e);
  }

  /** A lone host sends an event, which is popped and fails to be written. */
  lemma LoneHostIsUnlucky(data: Option<string>) returns (calls: seq<Call>)
    ensures var hello, e := Hello(0, true), Event(0, 0, 0, data);
      && IsHistory(LoneHost(Served(hello), 0, []), calls)
      && Final(LoneHost(Served(hello), 0, []), calls) == LoneHost(Unlucky(hello, e), 1, [e])
  {
    var hello, e := Hello(0, true), Event(0, 0, 0, data);
    var b := Enqueue(Served(hello), e);
    UnluckyLosesItsEvent(hello, e);
    LoneHostSends(Served(hello), data);
    LoneHostPops(b, 1, [e]);
    LoneHostEnds(Turned(b, 0), false, 1, [e]);
    hide MayCall, Outcome, Enqueue, Served, Turned, Sent, Enabled, LoneHost;
    HistoryFirst(LoneHost(Turned(b, 0), 1, [e]), Ends(0, 0, false), []);
    HistoryFirst(LoneHost(b, 1, [e]), Pops(0, 0), [Ends(0, 0, false)] + []);
    var rest := [Pops(0, 0)] + ([Ends(0, 0, false)] + []);
    HistoryFirst(LoneHost(Served(hello), 0, []), Announces(0, data), rest);
    calls := [Announces(0, data)] + rest;
  }

  /** What a session shows whose only peer has missed an event without being any the worse for it. */
  ghost predicate MissedUnnoticed(s: State, id: nat) {
    && Quiet(s) && |s.peers| == 1 && s.members == {0} && s.peers[0].stage.Greeted?
    && var b := s.peers[0].box;
    && b.socket && b.pending == [] && InFlight(b.drainers) == []
    && RefusedEvents(b) == [] && ClearedEvents(b) == [] && SentEvents(b) == [] && FailedEvents(b) == [id]
  }

  lemma UnluckyHostMissesItsEvent(hello: Message, e: Message)
    requires !hello.Event? && e.Event?
    ensures MissedUnnoticed(LoneHost(Unlucky(hello, e), 1, [e]), e.eventId)
  {
    UnluckyLosesItsEvent(hello, e);
    var b := Unlucky(hello, e);
    hide Unlucky, Served, RefusedEvents, ClearedEvents, SentEvents, FailedEvents;
    NothingIsRefused(b, hello, e);
    NothingIsCleared(b);
    OnlyTheWriteFails(b, hello, e);
  }

  /** An open socket and room in the queue are not enough either. In this history of whole calls a
      lone host's event is popped and its write fails; the coroutine goes on to the next message,
      and the host stays in the session without ever having been sent the event. */
  lemma GapWithOpenSocket(data: Option<string>) returns (calls: seq<Call>)
    ensures IsHistory(Initial(1), calls) && MissedUnnoticed(Final(Initial(1), calls), 0)
  {
    UnluckyHostMissesItsEvent(Hello(0, true), Event(0, 0, 0, data));
    hide MissedUnnoticed, LoneHost, Unlucky, Served, IsHistory, Final;
    var rest := LoneHostIsUnlucky(data);
    calls := LoneHostIsServed(rest);
  }
}
