/** The order in which the server's threads take their mutexes, and why they never deadlock.
    Every operation is reduced to the mutexes it acquires and releases. Which peers and sessions
    it meets, and which branches it takes, are parameters. */
module Locks {

  datatype Mutex =
    | RegistryMutex
    | ConfigMutex
    | GameMutex(game: nat)
    | SessionPingMutex(session: nat)
    | PeersMutex(session: nat)
    | PeerPingMutex(peer: nat)
    | QueueMutex(peer: nat)
    | SocketMutex(peer: nat)

  const TOP := 8

  function Rank(m: Mutex): (r: nat)
    ensures r < TOP
  {
    match m
    case RegistryMutex => 0
    case ConfigMutex => 1
    case GameMutex(_) => 2
    case SessionPingMutex(_) => 3
    case PeersMutex(_) => 4
    case PeerPingMutex(_) => 5
    case QueueMutex(_) => 6
    case SocketMutex(_) => 7
  }

  datatype Action = Lock(m: Mutex) | Unlock(m: Mutex)

  type Code = seq<Action>

  // ----- the operations -----

  function Section(m: Mutex, inner: Code): Code {
    [Lock(m)] + inner + [Unlock(m)]
  }

  /** queueMessage; the socket is looked at only when the queue was not active. */
  function QueueMessage(p: nat, starts: bool): Code {
    Section(QueueMutex(p), if starts then Section(SocketMutex(p), []) else [])
  }

  datatype Delivery = Delivery(peer: nat, starts: bool)

  function QueueAll(to: seq<Delivery>): Code {
    if to == [] then [] else QueueMessage(to[0].peer, to[0].starts) + QueueAll(to[1..])
  }

  /** One turn of the SendMessageCoroutine. */
  function DrainTurn(p: nat): Code {
    Section(QueueMutex(p), [])
  }

  /** ping, kick, sendErrorAsync and sendMessageAsync only look at the socket. */
  function TouchSocket(p: nat): Code {
    Section(SocketMutex(p), [])
  }

  function InvalidateSocket(p: nat): Code {
    Section(SocketMutex(p), []) + Section(QueueMutex(p), [])
  }

  function CheckPingsRules(p: nat, drops: bool): Code {
    Section(PeerPingMutex(p), if drops then InvalidateSocket(p) else [])
  }

  datatype Check = Check(peer: nat, drops: bool)

  function CheckAll(checks: seq<Check>): Code {
    if checks == [] then [] else CheckPingsRules(checks[0].peer, checks[0].drops) + CheckAll(checks[1..])
  }

  function PingAll(peers: seq<nat>): Code {
    if peers == [] then [] else TouchSocket(peers[0]) + PingAll(peers[1..])
  }

  function CheckAllPeersPings(s: nat, checks: seq<Check>): Code {
    Section(SessionPingMutex(s), []) + Section(PeersMutex(s), CheckAll(checks))
  }

  function PingAllPeers(s: nat, peers: seq<nat>): Code {
    Section(SessionPingMutex(s), []) + Section(PeersMutex(s), PingAll(peers))
  }

  datatype Round = Round(session: nat, checks: seq<Check>, peers: seq<nat>)

  function CheckRounds(rounds: seq<Round>): Code {
    if rounds == [] then [] else CheckAllPeersPings(rounds[0].session, rounds[0].checks) + CheckRounds(rounds[1..])
  }

  function PingRounds(rounds: seq<Round>): Code {
    if rounds == [] then [] else PingAllPeers(rounds[0].session, rounds[0].peers) + PingRounds(rounds[1..])
  }

  /** A turn of the Pinger. */
  function PingerTurn(g: nat, rounds: seq<Round>): Code {
    Section(GameMutex(g), CheckRounds(rounds) + PingRounds(rounds))
  }

  /** getAllPeers, getPeers, getHost and isHostPeer. */
  function ReadPeers(s: nat): Code {
    Section(PeersMutex(s), [])
  }

  function HandlePong(s: nat, p: nat): Code {
    Section(SessionPingMutex(s), []) + Section(PeerPingMutex(p), [])
  }

  /** handleBroadcast, handleDirectMessage and handleClientMessage. */
  function ForwardMessage(s: nat, to: seq<Delivery>): Code {
    ReadPeers(s) + QueueAll(to)
  }

  function BroadcastSynchronizedEvent(s: nat, to: seq<Delivery>): Code {
    Section(PeersMutex(s), QueueAll(to))
  }

  function HandleKick(s: nat, victims: seq<nat>): Code {
    ReadPeers(s) + ReadPeers(s) + PingAll(victims)
  }

  function GetGameById(asksConfig: bool): Code {
    Section(RegistryMutex, if asksConfig then Section(ConfigMutex, []) else [])
  }

  /** createNewSession, findSession and deleteSession. */
  function GameSection(g: nat): Code {
    Section(GameMutex(g), [])
  }

  /** onAfterCreate_NonBlocking; `told` is the delivery to the host, if there is one to tell. */
  function OnAfterCreate(asksConfig: bool, g: nat, s: nat, told: seq<Delivery>, hello: Delivery): Code {
    GetGameById(asksConfig) + GameSection(g) + Section(PeersMutex(s), QueueAll(told)) +
      QueueMessage(hello.peer, hello.starts)
  }

  /** onAfterCreate_NonBlocking when no session can be given to the connection. */
  function RefuseConnection(asksConfig: bool, g: nat, gameFound: bool): Code {
    GetGameById(asksConfig) + if gameFound then GameSection(g) else []
  }

  function OnBeforeDestroy(p: nat, s: nat, told: seq<Delivery>, empty: bool, g: nat): Code {
    InvalidateSocket(p) + Section(PeersMutex(s), QueueAll(told)) +
      if empty then GetGameById(false) + GameSection(g) else []
  }

  /** Everything a thread of the server can be asked to run. */
  datatype Operation =
    | Turn(p: nat)
    | Touch(p: nat)
    | Invalidate(p: nat)
    | Pinger(g: nat, rounds: seq<Round>)
    | Pong(s: nat, p: nat)
    | Forward(s: nat, to: seq<Delivery>)
    | SyncEvent(s: nat, to: seq<Delivery>)
    | Kick(s: nat, victims: seq<nat>)
    | Created(asksConfig: bool, g: nat, s: nat, told: seq<Delivery>, hello: Delivery)
    | Refused(asksConfig: bool, g: nat, gameFound: bool)
    | Destroyed(p: nat, s: nat, told: seq<Delivery>, empty: bool, g: nat)

  function CodeOf(op: Operation): Code {
    match op
    case Turn(p) => DrainTurn(p)
    case Touch(p) => TouchSocket(p)
    case Invalidate(p) => InvalidateSocket(p)
    case Pinger(g, rounds) => PingerTurn(g, rounds)
    case Pong(s, p) => HandlePong(s, p)
    case Forward(s, to) => ForwardMessage(s, to)
    case SyncEvent(s, to) => BroadcastSynchronizedEvent(s, to)
    case Kick(s, victims) => HandleKick(s, victims)
    case Created(asksConfig, g, s, told, hello) => OnAfterCreate(asksConfig, g, s, told, hello)
    case Refused(asksConfig, g, gameFound) => RefuseConnection(asksConfig, g, gameFound)
    case Destroyed(p, s, told, empty, g) => OnBeforeDestroy(p, s, told, empty, g)
  }

  // ----- lock discipline -----

  ghost predicate Above(held: set<Mutex>, r: nat) {
    forall m :: m in held ==> Rank(m) < r
  }

  /** Starting with `held`, every mutex the code takes ranks above all those it holds, it only
      releases what it holds, and it ends holding `left`. */
  ghost predicate Disciplined(held: set<Mutex>, code: Code, left: set<Mutex>)
    decreases |code|
  {
    if code == [] then held == left else
      match code[0]
      case Lock(m) => Above(held, Rank(m)) && Disciplined(held + {m}, code[1..], left)
      case Unlock(m) => m in held && Disciplined(held - {m}, code[1..], left)
  }

  /** Code that may run whenever only mutexes ranking below `r` are held, and gives back all
      that it takes. */
  ghost predicate Fits(code: Code, r: nat) {
    forall held :: Above(held, r) ==> Disciplined(held, code, held)
  }

  lemma {:induction false} Sequence(held: set<Mutex>, a: Code, mid: set<Mutex>, b: Code, left: set<Mutex>)
    requires Disciplined(held, a, mid) && Disciplined(mid, b, left)
    ensures Disciplined(held, a + b, left)
    decreases |a|
  {
    if a == [] {
      assert a + b == b;
    } else {
      assert (a + b)[1..] == a[1..] + b;
      Sequence(if a[0].Lock? then held + {a[0].m} else held - {a[0].m}, a[1..], mid, b, left);
    }
  }

  lemma FitsSequence(a: Code, b: Code, r: nat)
    requires Fits(a, r) && Fits(b, r)
    ensures Fits(a + b, r)
  {
    forall held | Above(held, r)
      ensures Disciplined(held, a + b, held)
    {
      Sequence(held, a, held, b, held);
    }
  }

  lemma FitsLower(code: Code, r: nat, q: nat)
    requires Fits(code, r) && q <= r
    ensures Fits(code, q)
  {
  }

  lemma FitsSection(m: Mutex, inner: Code)
    requires Fits(inner, Rank(m) + 1)
    ensures Fits(Section(m, inner), Rank(m))
  {
    forall held | Above(held, Rank(m))
      ensures Disciplined(held, Section(m, inner), held)
    {
      var inside := held + {m};
      assert inside - {m} == held;
      assert Disciplined(inside, [Unlock(m)], held) by {
        assert [Unlock(m)][1..] == [];
      }
      Sequence(inside, inner, inside, [Unlock(m)], held);
      assert Section(m, inner)[1..] == inner + [Unlock(m)];
    }
  }

  lemma FitsNothing(r: nat)
    ensures Fits([], r)
  {
  }

  /** A section with nothing inside. */
  lemma FitsLeaf(m: Mutex, r: nat)
    requires r <= Rank(m)
    ensures Fits(Section(m, []), r)
  {
    FitsNothing(Rank(m) + 1);
    FitsSection(m, []);
    FitsLower(Section(m, []), Rank(m), r);
  }

  lemma QueueMessageFits(p: nat, starts: bool)
    ensures Fits(QueueMessage(p, starts), 6)
  {
    FitsNothing(7);
    FitsLeaf(SocketMutex(p), 7);
    FitsSection(QueueMutex(p), if starts then Section(SocketMutex(p), []) else []);
  }

  lemma {:induction false} QueueAllFits(to: seq<Delivery>)
    ensures Fits(QueueAll(to), 6)
  {
    if to == [] {
      FitsNothing(6);
    } else {
      QueueMessageFits(to[0].peer, to[0].starts);
      QueueAllFits(to[1..]);
      FitsSequence(QueueMessage(to[0].peer, to[0].starts), QueueAll(to[1..]), 6);
    }
  }

  lemma InvalidateSocketFits(p: nat)
    ensures Fits(InvalidateSocket(p), 6)
  {
    FitsLeaf(SocketMutex(p), 6);
    FitsLeaf(QueueMutex(p), 6);
    FitsSequence(Section(SocketMutex(p), []), Section(QueueMutex(p), []), 6);
  }

  lemma {:induction false} CheckAllFits(checks: seq<Check>)
    ensures Fits(CheckAll(checks), 5)
  {
    if checks == [] {
      FitsNothing(5);
    } else {
      var p, drops := checks[0].peer, checks[0].drops;
      InvalidateSocketFits(p);
      FitsNothing(6);
      FitsSection(PeerPingMutex(p), if drops then InvalidateSocket(p) else []);
      CheckAllFits(checks[1..]);
      FitsSequence(CheckPingsRules(p, drops), CheckAll(checks[1..]), 5);
    }
  }

  lemma {:induction false} PingAllFits(peers: seq<nat>)
    ensures Fits(PingAll(peers), 5)
  {
    if peers == [] {
      FitsNothing(5);
    } else {
      FitsLeaf(SocketMutex(peers[0]), 5);
      PingAllFits(peers[1..]);
      FitsSequence(TouchSocket(peers[0]), PingAll(peers[1..]), 5);
    }
  }

  lemma PeersSectionFits(s: nat, inner: Code, r: nat)
    requires Fits(inner, 5) && r <= 4
    ensures Fits(Section(PeersMutex(s), inner), r)
  {
    FitsSection(PeersMutex(s), inner);
    FitsLower(Section(PeersMutex(s), inner), 4, r);
  }

  lemma {:induction false} CheckRoundsFit(rounds: seq<Round>)
    ensures Fits(CheckRounds(rounds), 3)
  {
    if rounds == [] {
      FitsNothing(3);
    } else {
      var s, checks := rounds[0].session, rounds[0].checks;
      FitsLeaf(SessionPingMutex(s), 3);
      CheckAllFits(checks);
      PeersSectionFits(s, CheckAll(checks), 3);
      FitsSequence(Section(SessionPingMutex(s), []), Section(PeersMutex(s), CheckAll(checks)), 3);
      CheckRoundsFit(rounds[1..]);
      FitsSequence(CheckAllPeersPings(s, checks), CheckRounds(rounds[1..]), 3);
    }
  }

  lemma {:induction false} PingRoundsFit(rounds: seq<Round>)
    ensures Fits(PingRounds(rounds), 3)
  {
    if rounds == [] {
      FitsNothing(3);
    } else {
      var s, peers := rounds[0].session, rounds[0].peers;
      FitsLeaf(SessionPingMutex(s), 3);
      PingAllFits(peers);
      PeersSectionFits(s, PingAll(peers), 3);
      FitsSequence(Section(SessionPingMutex(s), []), Section(PeersMutex(s), PingAll(peers)), 3);
      PingRoundsFit(rounds[1..]);
      FitsSequence(PingAllPeers(s, peers), PingRounds(rounds[1..]), 3);
    }
  }

  lemma PeersQueueFits(s: nat, to: seq<Delivery>)
    ensures Fits(Section(PeersMutex(s), QueueAll(to)), 0)
  {
    QueueAllFits(to);
    FitsLower(QueueAll(to), 6, 5);
    PeersSectionFits(s, QueueAll(to), 0);
  }

  lemma GetGameByIdFits(asksConfig: bool)
    ensures Fits(GetGameById(asksConfig), 0)
  {
    FitsNothing(1);
    FitsLeaf(ConfigMutex, 1);
    FitsSection(RegistryMutex, if asksConfig then Section(ConfigMutex, []) else []);
  }

  /** Every operation of the server acquires its mutexes in strictly rising rank and gives all
      of them back. */
  lemma EveryOperationIsDisciplined(op: Operation)
    ensures Disciplined({}, CodeOf(op), {})
  {
    OperationFits(op);
    assert Above({}, 0);
  }

  lemma OperationFits(op: Operation)
    ensures Fits(CodeOf(op), 0)
  {
    FitsNothing(0);
    match op
    case Turn(p) => FitsLeaf(QueueMutex(p), 0);
    case Touch(p) => FitsLeaf(SocketMutex(p), 0);
    case Invalidate(p) =>
      InvalidateSocketFits(p);
      FitsLower(InvalidateSocket(p), 6, 0);
    case Pinger(g, rounds) =>
      CheckRoundsFit(rounds);
      PingRoundsFit(rounds);
      FitsSequence(CheckRounds(rounds), PingRounds(rounds), 3);
      FitsSection(GameMutex(g), CheckRounds(rounds) + PingRounds(rounds));
      FitsLower(PingerTurn(g, rounds), 2, 0);
    case Pong(s, p) =>
      FitsLeaf(SessionPingMutex(s), 0);
      FitsLeaf(PeerPingMutex(p), 0);
      FitsSequence(Section(SessionPingMutex(s), []), Section(PeerPingMutex(p), []), 0);
    case Forward(s, to) =>
      FitsLeaf(PeersMutex(s), 0);
      QueueAllFits(to);
      FitsLower(QueueAll(to), 6, 0);
      FitsSequence(ReadPeers(s), QueueAll(to), 0);
    case SyncEvent(s, to) => PeersQueueFits(s, to);
    case Kick(s, victims) =>
      FitsLeaf(PeersMutex(s), 0);
      PingAllFits(victims);
      FitsLower(PingAll(victims), 5, 0);
      FitsSequence(ReadPeers(s), ReadPeers(s), 0);
      FitsSequence(ReadPeers(s) + ReadPeers(s), PingAll(victims), 0);
    case Created(asksConfig, g, s, told, hello) => OnAfterCreateFits(asksConfig, g, s, told, hello);
    case Refused(asksConfig, g, gameFound) =>
      GetGameByIdFits(asksConfig);
      FitsLeaf(GameMutex(g), 0);
      FitsSequence(GetGameById(asksConfig), if gameFound then GameSection(g) else [], 0);
    case Destroyed(p, s, told, empty, g) => OnBeforeDestroyFits(p, s, told, empty, g);
  }

  lemma OnAfterCreateFits(asksConfig: bool, g: nat, s: nat, told: seq<Delivery>, hello: Delivery)
    ensures Fits(OnAfterCreate(asksConfig, g, s, told, hello), 0)
  {
    GetGameByIdFits(asksConfig);
    FitsLeaf(GameMutex(g), 0);
    FitsSequence(GetGameById(asksConfig), GameSection(g), 0);
    PeersQueueFits(s, told);
    var front := GetGameById(asksConfig) + GameSection(g);
    FitsSequence(front, Section(PeersMutex(s), QueueAll(told)), 0);
    QueueMessageFits(hello.peer, hello.starts);
    FitsLower(QueueMessage(hello.peer, hello.starts), 6, 0);
    FitsSequence(front + Section(PeersMutex(s), QueueAll(told)), QueueMessage(hello.peer, hello.starts), 0);
  }

  lemma OnBeforeDestroyFits(p: nat, s: nat, told: seq<Delivery>, empty: bool, g: nat)
    ensures Fits(OnBeforeDestroy(p, s, told, empty, g), 0)
  {
    InvalidateSocketFits(p);
    FitsLower(InvalidateSocket(p), 6, 0);
    PeersQueueFits(s, told);
    FitsSequence(InvalidateSocket(p), Section(PeersMutex(s), QueueAll(told)), 0);
    FitsNothing(0);
    GetGameByIdFits(false);
    FitsLeaf(GameMutex(g), 0);
    FitsSequence(GetGameById(false), GameSection(g), 0);
    var tail := if empty then GetGameById(false) + GameSection(g) else [];
    FitsSequence(InvalidateSocket(p) + Section(PeersMutex(s), QueueAll(told)), tail, 0);
  }

  // ----- threads -----

  datatype Thread = Thread(held: set<Mutex>, rest: Code)

  type System = seq<Thread>

  /** A mutex is free when no thread holds it; std::mutex is not recursive. */
  ghost predicate FreeIn(sys: System, m: Mutex) {
    forall u :: 0 <= u < |sys| ==> m !in sys[u].held
  }

  ghost predicate CanStep(sys: System, t: nat) {
    && t < |sys| && sys[t].rest != []
    && (sys[t].rest[0].Lock? ==> FreeIn(sys, sys[t].rest[0].m))
  }

  ghost function Step(sys: System, t: nat): System
    requires CanStep(sys, t)
  {
    var x := sys[t];
    var held := if x.rest[0].Lock? then x.held + {x.rest[0].m} else x.held - {x.rest[0].m};
    sys[t := Thread(held, x.rest[1..])]
  }

  /** An idle thread is given an operation to run. */
  ghost predicate CanStart(sys: System, t: nat) {
    t < |sys| && sys[t].rest == []
  }

  ghost function Start(sys: System, t: nat, op: Operation): System
    requires CanStart(sys, t)
  {
    sys[t := sys[t].(rest := CodeOf(op))]
  }

  datatype Move = Steps(t: nat) | Starts(t: nat, op: Operation)

  ghost predicate IsRun(sys: System, moves: seq<Move>)
    decreases |moves|
  {
    moves == [] ||
    match moves[0]
      case Steps(t) => CanStep(sys, t) && IsRun(Step(sys, t), moves[1..])
      case Starts(t, op) => CanStart(sys, t) && IsRun(Start(sys, t, op), moves[1..])
  }

  ghost function End(sys: System, moves: seq<Move>): System
    requires IsRun(sys, moves)
    decreases |moves|
  {
    if moves == [] then sys else
      match moves[0]
      case Steps(t) => End(Step(sys, t), moves[1..])
      case Starts(t, op) => End(Start(sys, t, op), moves[1..])
  }

  function Idle(n: nat): System {
    seq(n, i => Thread({}, []))
  }

  ghost predicate Inv(sys: System) {
    && (forall t :: 0 <= t < |sys| ==> Disciplined(sys[t].held, sys[t].rest, {}))
    && (forall t, u :: 0 <= t < |sys| && 0 <= u < |sys| && t != u ==> sys[t].held !! sys[u].held)
  }

  lemma StepKeepsInv(sys: System, t: nat)
    requires Inv(sys) && CanStep(sys, t)
    ensures Inv(Step(sys, t))
  {
  }

  lemma StartKeepsInv(sys: System, t: nat, op: Operation)
    requires Inv(sys) && CanStart(sys, t)
    ensures Inv(Start(sys, t, op))
  {
    EveryOperationIsDisciplined(op);
    assert sys[t].held == {};
  }

  lemma {:induction false} RunKeepsInv(sys: System, moves: seq<Move>)
    requires Inv(sys) && IsRun(sys, moves)
    ensures Inv(End(sys, moves)) && |End(sys, moves)| == |sys|
    decreases |moves|
  {
    if moves != [] {
      match moves[0]
      case Steps(t) =>
        StepKeepsInv(sys, t);
        RunKeepsInv(Step(sys, t), moves[1..]);
      case Starts(t, op) =>
        StartKeepsInv(sys, t, op);
        RunKeepsInv(Start(sys, t, op), moves[1..]);
    }
  }

  /** Follow the chain from a blocked thread to the thread it waits for: ranks rise along the
      chain, so it ends at a thread that is not blocked. */
  lemma {:induction false} Unblock(sys: System, t: nat) returns (u: nat)
    requires Inv(sys) && t < |sys| && sys[t].rest != []
    ensures CanStep(sys, u)
    decreases if sys[t].rest[0].Lock? then TOP - Rank(sys[t].rest[0].m) else 0
  {
    if CanStep(sys, t) {
      u := t;
    } else {
      var m := sys[t].rest[0].m;
      var holder: nat :| holder < |sys| && m in sys[holder].held;
      assert Disciplined(sys[holder].held, sys[holder].rest, {});
      u := Unblock(sys, holder);
    }
  }

  /** However many threads run whatever operations on however many sessions and peers: as long
      as one of them is unfinished, some thread can take its next step. */
  lemma NoDeadlock(n: nat, moves: seq<Move>)
    requires IsRun(Idle(n), moves)
    requires exists t :: 0 <= t < |End(Idle(n), moves)| && End(Idle(n), moves)[t].rest != []
    ensures exists u :: CanStep(End(Idle(n), moves), u)
  {
    RunKeepsInv(Idle(n), moves);
    var sys := End(Idle(n), moves);
    var t: nat :| t < |sys| && sys[t].rest != [];
    var u := Unblock(sys, t);
  }

  function Work(sys: System): nat {
    if sys == [] then 0 else |sys[|sys| - 1].rest| + Work(sys[..|sys| - 1])
  }

  lemma {:induction false} WorkDone(sys: System, t: nat, x: Thread)
    requires t < |sys|
    ensures Work(sys[t := x]) + |sys[t].rest| == Work(sys) + |x.rest|
  {
    var n := |sys| - 1;
    if t < n {
      assert sys[t := x][..n] == sys[..n][t := x];
      WorkDone(sys[..n], t, x);
    } else {
      assert sys[t := x][..n] == sys[..n];
    }
  }

  /** From every reachable state the threads can finish everything they have started. */
  lemma {:induction false} EverybodyCanFinish(sys: System) returns (moves: seq<Move>)
    requires Inv(sys)
    ensures IsRun(sys, moves)
    ensures forall i :: 0 <= i < |moves| ==> moves[i].Steps?
    ensures forall t :: 0 <= t < |End(sys, moves)| ==> End(sys, moves)[t] == Thread({}, [])
    decreases Work(sys)
  {
    if t: nat :| t < |sys| && sys[t].rest != [] {
      var u := Unblock(sys, t);
      var next := Step(sys, u);
      StepKeepsInv(sys, u);
      WorkDone(sys, u, next[u]);
      var rest := EverybodyCanFinish(next);
      moves := [Steps(u)] + rest;
      assert moves[1..] == rest;
    } else {
      moves := [];
      assert forall t :: 0 <= t < |sys| ==> Disciplined(sys[t].held, sys[t].rest, {});
    }
  }
}
