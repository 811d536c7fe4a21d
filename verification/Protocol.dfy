/** One session shared by any number of connections: every step is one critical section of
    m_peersMutex, of a queue mutex or of a socket mutex, and steps of different threads
    interleave freely. A thread that works through a list while it holds m_peersMutex takes one
    step per peer, so queues move underneath it. */
module Protocol {
  import opened Messages
  import opened Mailboxes

  /** Where a connection's create and destroy callbacks have got to. */
  datatype Stage = Made | Inserting | Inserted | Greeted | Leaving | Gone
  {
    function Rank(): nat {
      match this
      case Made => 0
      case Inserting => 1
      case Inserted => 2
      case Greeted => 3
      case Leaving => 4
      case Gone => 5
    }
  }

  /** What the one message that a connection is handling still has to do. */
  datatype Handler =
    | Idle
    | Fanning(msg: Message, targets: seq<nat>)
    | Announcing(event: Message, left: set<nat>)
    | MayKick(ids: seq<Option<int>>)
    | Kicking(victims: seq<nat>)

  /** A Peer object. `first` and `last` delimit the event ids of its membership; `late` records
      that it joined while there was a host. Both, and `issued`, are histories. */
  datatype Peer = Peer(
    box: Mailbox,
    stage: Stage,
    asHost: bool,
    late: bool,
    first: nat,
    last: nat,
    issued: nat,
    handler: Handler)

  /** Which thread is inside m_peersMutex for longer than one step. */
  datatype Holder = Free | Joins(p: nat) | Leaves(p: nat) | Broadcasts(p: nat)

  /** `peers` holds every Peer object made for the session, under its id; the next id is the
      length. `members` is the key set of m_peers. `creator`, `events` and `kicks` are
      histories. */
  datatype State = State(
    limit: nat,
    peers: seq<Peer>,
    members: set<nat>,
    host: Option<nat>,
    nextEvent: nat,
    lock: Holder,
    creator: Option<nat>,
    events: seq<Message>,
    kicks: seq<(nat, nat)>)

  function Initial(limit: nat): State {
    State(limit, [], {}, None, 0, Free, None, [], [])
  }

  datatype Action =
    | Connect(asHost: bool)
    | Insert(p: nat)
    | TellJoined
    | Greet(p: nat)
    | Remove(p: nat)
    | TellLeft
    | Broadcast(p: nat, data: Option<string>, order: seq<nat>)
    | Direct(p: nat, data: Option<string>, ids: seq<Option<int>>)
    | ToHost(p: nat, data: Option<string>)
    | Forward(p: nat)
    | Announce(p: nat, data: Option<string>)
    | AnnounceTo(p: nat, q: nat)
    | Announced(p: nat)
    | AskKick(p: nat, ids: seq<Option<int>>)
    | PickVictims(p: nat)
    | KickOne(p: nat)
    | Inside(p: nat, step: Step)

  // ----- building blocks -----

  function With(s: State, p: nat, x: Peer): State
    requires p < |s.peers|
  {
    s.(peers := s.peers[p := x])
  }

  /** queueMessage(m) on peer p, up to the look at the socket. */
  function Queue(s: State, p: nat, m: Message): State
    requires p < |s.peers|
  {
    With(s, p, s.peers[p].(box := Offered(s.peers[p].box, m)))
  }

  predicate QueueFree(s: State, p: nat) {
    p < |s.peers| && !s.peers[p].box.spawning
  }

  predicate Resting(s: State, p: nat) {
    p < |s.peers| && s.peers[p].handler.Idle?
  }

  /** getPeers: the requested members, in request order. */
  function Lookup(members: set<nat>, ids: seq<Option<int>>): seq<nat> {
    Find(ById(members), ids)
  }

  function ById(members: set<nat>): map<int, nat> {
    map i: nat | i in members :: i
  }

  function Others(p: nat, targets: seq<nat>): seq<nat> {
    if targets == [] then [] else
      (if targets[0] != p then [targets[0]] else []) + Others(p, targets[1..])
  }

  /** `order` lists every member once: the order in which the hash map happens to iterate. */
  predicate Enumerates(order: seq<nat>, members: set<nat>) {
    && (forall x :: x in order ==> x in members)
    && (forall x :: x in members ==> x in order)
    && (forall i, j :: 0 <= i < j < |order| ==> order[i] != order[j])
  }

  function NextText(s: State, p: nat, data: Option<string>): Message
    requires p < |s.peers|
  {
    Text(p, s.peers[p].issued, data)
  }

  /** The sender starts on its next message and will offer it to `targets`. */
  function Fan(s: State, p: nat, data: Option<string>, targets: seq<nat>): State
    requires p < |s.peers|
  {
    With(s, p, s.peers[p].(issued := s.peers[p].issued + 1,
                           handler := Fanning(NextText(s, p, data), Others(p, targets))))
  }

  // ----- the steps -----

  predicate Can(s: State, a: Action) {
    match a
    case Connect(asHost) => asHost ==> s.creator.None?
    case Insert(p) => s.lock.Free? && p < |s.peers| && s.peers[p].stage.Made?
    case TellJoined => s.lock.Joins? && s.lock.p < |s.peers| && s.host.Some? && QueueFree(s, s.host.value)
    case Greet(p) => QueueFree(s, p) && s.peers[p].stage.Inserted?
    case Remove(p) => s.lock.Free? && p < |s.peers| && s.peers[p].stage.Greeted?
    case TellLeft => s.lock.Leaves? && s.lock.p < |s.peers| && s.host.Some? && QueueFree(s, s.host.value)
    case Broadcast(p, _, order) => s.lock.Free? && Resting(s, p) && Enumerates(order, s.members)
    case Direct(p, _, ids) => s.lock.Free? && Resting(s, p) && ids != []
    case ToHost(p, _) => s.lock.Free? && Resting(s, p) && s.host.Some? && s.host.value != p
    case Forward(p) =>
      && p < |s.peers| && s.peers[p].handler.Fanning?
      && (s.peers[p].handler.targets != [] ==> QueueFree(s, s.peers[p].handler.targets[0]))
    case Announce(p, _) => s.lock.Free? && Resting(s, p)
    case AnnounceTo(p, q) =>
      p < |s.peers| && s.peers[p].handler.Announcing? && q in s.peers[p].handler.left && QueueFree(s, q)
    case Announced(p) => p < |s.peers| && s.peers[p].handler.Announcing? && s.peers[p].handler.left == {}
    case AskKick(p, ids) => s.lock.Free? && Resting(s, p) && s.host == Some(p) && ids != []
    case PickVictims(p) => s.lock.Free? && p < |s.peers| && s.peers[p].handler.MayKick?
    case KickOne(p) => p < |s.peers| && s.peers[p].handler.Kicking?
    case Inside(p, step) => p < |s.peers| && !step.Offers? && Enabled(s.peers[p].box, step)
  }

  function Do(s: State, a: Action): State
    requires Can(s, a)
  {
    match a
    case Connect(asHost) =>
      s.(peers := s.peers + [Peer(Fresh(s.limit), Made, asHost, false, 0, 0, 0, Idle)],
         creator := if asHost then Some(|s.peers|) else s.creator)
    case Insert(p) => DoInsert(s, p)
    case TellJoined =>
      var p := s.lock.p;
      var t := With(s, p, s.peers[p].(stage := Inserted)).(lock := Free);
      Queue(t, s.host.value, Joined(p))
    case Greet(p) =>
      Queue(With(s, p, s.peers[p].(stage := Greeted)), p, Hello(p, s.peers[p].asHost))
    case Remove(p) => DoRemove(s, p)
    case TellLeft =>
      var p := s.lock.p;
      var t := With(s, p, s.peers[p].(stage := Gone)).(lock := Free);
      Queue(t, s.host.value, Left(p))
    case Broadcast(p, data, order) => Fan(s, p, data, order)
    case Direct(p, data, ids) => Fan(s, p, data, Lookup(s.members, ids))
    case ToHost(p, data) => Fan(s, p, data, [s.host.value])
    case Forward(p) =>
      var h := s.peers[p].handler;
      if h.targets == [] then With(s, p, s.peers[p].(handler := Idle))
      else Queue(With(s, p, s.peers[p].(handler := h.(targets := h.targets[1..]))), h.targets[0], h.msg)
    case Announce(p, data) =>
      var e := Event(s.nextEvent, p, s.peers[p].issued, data);
      With(s, p, s.peers[p].(issued := s.peers[p].issued + 1, handler := Announcing(e, s.members)))
        .(nextEvent := s.nextEvent + 1, events := s.events + [e], lock := Broadcasts(p))
    case AnnounceTo(p, q) =>
      var h := s.peers[p].handler;
      Queue(With(s, p, s.peers[p].(handler := h.(left := h.left - {q}))), q, h.event)
    case Announced(p) => With(s, p, s.peers[p].(handler := Idle)).(lock := Free)
    case AskKick(p, ids) => With(s, p, s.peers[p].(handler := MayKick(ids)))
    case PickVictims(p) =>
      With(s, p, s.peers[p].(handler := Kicking(Others(p, Lookup(s.members, s.peers[p].handler.ids)))))
    case KickOne(p) =>
      var v := s.peers[p].handler.victims;
      if v == [] then With(s, p, s.peers[p].(handler := Idle))
      else With(s, p, s.peers[p].(handler := Kicking(v[1..]))).(kicks := s.kicks + [(p, v[0])])
    case Inside(p, step) => With(s, p, s.peers[p].(box := Apply(s.peers[p].box, step)))
  }

  /** addPeer's critical section; with a host to tell, the mutex is kept for TellJoined. */
  function DoInsert(s: State, p: nat): State
    requires p < |s.peers|
  {
    var x := s.peers[p].(first := s.nextEvent);
    var t := s.(members := s.members + {p});
    if x.asHost then With(t, p, x.(stage := Inserted)).(host := Some(p))
    else if s.host.Some? then With(t, p, x.(stage := Inserting, late := true)).(lock := Joins(p))
    else With(t, p, x.(stage := Inserted))
  }

  /** removePeerById; with a host left to tell, the mutex is kept for TellLeft. */
  function DoRemove(s: State, p: nat): State
    requires p < |s.peers|
  {
    var x := s.peers[p].(last := s.nextEvent);
    var host := if s.host == Some(p) then None else s.host;
    var t := s.(members := s.members - {p}, host := host);
    if host.Some? then With(t, p, x.(stage := Leaving)).(lock := Leaves(p))
    else With(t, p, x.(stage := Gone))
  }

  predicate IsTrace(s: State, actions: seq<Action>)
    decreases |actions|
  {
    actions == [] || (Can(s, actions[0]) && IsTrace(Do(s, actions[0]), actions[1..]))
  }

  function After(s: State, actions: seq<Action>): State
    requires IsTrace(s, actions)
    decreases |actions|
  {
    if actions == [] then s else After(Do(s, actions[0]), actions[1..])
  }

  lemma {:induction false} TraceConcat(s: State, a: seq<Action>, b: seq<Action>)
    requires IsTrace(s, a) && IsTrace(After(s, a), b)
    ensures IsTrace(s, a + b) && After(s, a + b) == After(After(s, a), b)
    decreases |a|
  {
    hide Can, Do;
    if a == [] {
      assert a + b == b;
    } else {
      TraceConcat(Do(s, a[0]), a[1..], b);
      assert (a + b)[1..] == a[1..] + b;
    }
  }

  lemma TraceFirst(s: State, a: Action, rest: seq<Action>)
    requires Can(s, a) && IsTrace(Do(s, a), rest)
    ensures IsTrace(s, [a] + rest) && After(s, [a] + rest) == After(Do(s, a), rest)
  {
  }

  /** Steps of one queue, as steps of the session. */
  function Insides(p: nat, steps: seq<Step>): seq<Action> {
    if steps == [] then [] else [Inside(p, steps[0])] + Insides(p, steps[1..])
  }

  function WithBox(s: State, p: nat, b: Mailbox): State
    requires p < |s.peers|
  {
    With(s, p, s.peers[p].(box := b))
  }

  lemma InsideIsLocal(s: State, p: nat, step: Step)
    requires p < |s.peers| && !step.Offers? && Enabled(s.peers[p].box, step)
    ensures Can(s, Inside(p, step)) && Do(s, Inside(p, step)) == WithBox(s, p, Apply(s.peers[p].box, step))
  {
  }

  /** A run of one queue without offers is a run of the session that changes nothing else. */
  lemma {:induction false} InsideRun(s: State, p: nat, steps: seq<Step>)
    requires p < |s.peers| && IsRun(s.peers[p].box, steps)
    requires forall i :: 0 <= i < |steps| ==> !steps[i].Offers?
    ensures IsTrace(s, Insides(p, steps))
    ensures After(s, Insides(p, steps)) == WithBox(s, p, End(s.peers[p].box, steps))
    decreases |steps|
  {
    hide Can, Do, Apply, Enabled;
    if steps == [] {
      assert WithBox(s, p, s.peers[p].box).peers == s.peers;
    } else {
      var b := Apply(s.peers[p].box, steps[0]);
      var t := WithBox(s, p, b);
      InsideIsLocal(s, p, steps[0]);
      InsideRun(t, p, steps[1..]);
      TraceFirst(s, Inside(p, steps[0]), Insides(p, steps[1..]));
      assert WithBox(t, p, End(b, steps[1..])).peers == WithBox(s, p, End(b, steps[1..])).peers;
    }
  }
}
