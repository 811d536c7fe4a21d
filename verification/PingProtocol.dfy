/** Ping rounds of one session. The pinger alternates a round of checks with a round of pings;
    peers join, leave and answer at any time in between. The session and the peer record a pong
    in two separate critical sections. Clock readings are inputs of the steps. */
module PingProtocol {
  import opened Messages
  import opened PingRules
  import BestPing

  /** Where the pinger's turn has got to; a round holds m_peersMutex while peers are `left`. */
  datatype Phase =
    | BeforeCheck
    | CheckRead(round: int)
    | Checking(round: int, left: set<nat>)
    | BeforePing
    | PingSet(round: int)
    | Pinging(round: int, left: set<nat>)

  /** A pong between reportPeerPong and the peer's own update. `answers` records that it is
      the reply to the last ping this peer was sent. */
  datatype Pong = NoPong | Reported(timestamp: int, pingTime: int, answers: bool)

  /** A peer is made, and can already answer, before it is put into the session. */
  datatype Standing = Made | Member | Gone

  /** `sent` is the last ping sent to the peer, `owed` that its answer has not been recorded yet,
      `late` that some check came while an answer was owed, and `rounds` the rounds checked
      since the peer joined or last had a pong accepted. All four are histories. */
  datatype Peer = Peer(
    ping: PeerPing,
    standing: Standing,
    pong: Pong,
    dropped: bool,
    sent: Option<int>,
    owed: bool,
    late: bool,
    rounds: seq<int>)

  /** `pongs` is the history of the pongs that matched the session's timestamp. */
  datatype State = State(
    max: nat,
    current: int,
    phase: Phase,
    peers: seq<Peer>,
    best: BestPing.Best,
    pongs: seq<BestPing.Pong>)

  function Empty(max: nat, current: int, phase: Phase): State {
    State(max, current, phase, [], BestPing.NOBODY, [])
  }

  function Initial(max: nat): State {
    Empty(max, -1, BeforeCheck)
  }

  datatype Step =
    | Make
    | Join(p: nat)
    | Leave(p: nat)
    | ReadRound
    | StartChecks
    | CheckOne(p: nat)
    | EndChecks
    | SetRound(now: int)
    | StartPings
    | PingOne(p: nat)
    | EndPings
    | Report(p: nat, timestamp: int, now: int)
    | Record(p: nat)

  predicate PeersFree(s: State) {
    !s.phase.Checking? && !s.phase.Pinging?
  }

  /** Fresh round timestamps and a clock that does not go back are the two assumptions about
      the environment: see SetRound and Report. */
  predicate Can(s: State, step: Step) {
    match step
    case Make => true
    case Join(p) => PeersFree(s) && p < |s.peers| && s.peers[p].standing.Made?
    case Leave(p) => PeersFree(s) && p < |s.peers| && s.peers[p].standing.Member?
    case ReadRound => s.phase.BeforeCheck?
    case StartChecks => s.phase.CheckRead?
    case CheckOne(p) => s.phase.Checking? && p in s.phase.left && p < |s.peers|
    case EndChecks => s.phase.Checking? && s.phase.left == {}
    case SetRound(now) => s.phase.BeforePing? && now > s.current
    case StartPings => s.phase.PingSet?
    case PingOne(p) => s.phase.Pinging? && p in s.phase.left && p < |s.peers|
    case EndPings => s.phase.Pinging? && s.phase.left == {}
    case Report(p, _, now) => p < |s.peers| && s.peers[p].pong.NoPong? && now >= s.current
    case Record(p) => p < |s.peers| && s.peers[p].pong.Reported?
  }

  function Members(s: State): set<nat> {
    set p: nat | p < |s.peers| && s.peers[p].standing.Member?
  }

  function With(s: State, p: nat, x: Peer): State
    requires p < |s.peers|
  {
    s.(peers := s.peers[p := x])
  }

  function Do(s: State, step: Step): State
    requires Can(s, step)
  {
    match step
    case Make => s.(peers := s.peers + [Peer(UNTESTED, Made, NoPong, false, None, false, false, [])])
    case Join(p) => With(s, p, s.peers[p].(standing := Member))
    case Leave(p) => With(s, p, s.peers[p].(standing := Gone))
    case ReadRound => s.(phase := CheckRead(s.current))
    case StartChecks => s.(phase := Checking(s.phase.round, Members(s)))
    case CheckOne(p) =>
      var x := s.peers[p];
      var ping := Checked(x.ping, s.phase.round);
      With(s, p, x.(ping := ping,
                    dropped := x.dropped || TooMany(ping, s.max),
                    late := x.late || x.owed,
                    rounds := x.rounds + [s.phase.round]))
        .(phase := Checking(s.phase.round, s.phase.left - {p}))
    case EndChecks => s.(phase := BeforePing)
    case SetRound(now) => s.(current := now, phase := PingSet(now))
    case StartPings => s.(phase := Pinging(s.phase.round, Members(s)))
    case PingOne(p) =>
      With(s, p, s.peers[p].(sent := Some(s.phase.round), owed := true))
        .(phase := Pinging(s.phase.round, s.phase.left - {p}))
    case EndPings => s.(phase := BeforeCheck)
    case Report(p, timestamp, now) =>
      var x := s.peers[p];
      var pingTime := if timestamp == s.current then now - timestamp else -1;
      var t := With(s, p, x.(pong := Reported(timestamp, pingTime, x.owed && x.sent == Some(timestamp))));
      if timestamp == s.current then
        var pong := BestPing.Pong(p, timestamp, pingTime);
        t.(best := BestPing.Report(s.best, pong), pongs := s.pongs + [pong])
      else t
    case Record(p) =>
      var x := s.peers[p];
      With(s, p, x.(ping := Ponged(x.ping, x.pong.timestamp, x.pong.pingTime),
                    pong := NoPong,
                    owed := x.owed && !x.pong.answers,
                    rounds := if x.pong.pingTime >= 0 then [] else x.rounds))
  }

  predicate IsRun(s: State, steps: seq<Step>)
    decreases |steps|
  {
    steps == [] || (Can(s, steps[0]) && IsRun(Do(s, steps[0]), steps[1..]))
  }

  function End(s: State, steps: seq<Step>): State
    requires IsRun(s, steps)
    decreases |steps|
  {
    if steps == [] then s else End(Do(s, steps[0]), steps[1..])
  }

  // ----- counting failed rounds -----

  /** How many of the rounds differ from the acknowledged timestamp. */
  function Failures(rounds: seq<int>, last: int): nat {
    if rounds == [] then 0 else
      Failures(rounds[..|rounds| - 1], last) + if rounds[|rounds| - 1] != last then 1 else 0
  }

  ghost predicate Increasing(rounds: seq<int>) {
    forall i, j :: 0 <= i < j < |rounds| ==> rounds[i] < rounds[j]
  }

  lemma FailuresAppend(rounds: seq<int>, round: int, last: int)
    ensures Failures(rounds + [round], last) == Failures(rounds, last) + if round != last then 1 else 0
  {
  }

  lemma IncreasingAppend(rounds: seq<int>, round: int)
    requires Increasing(rounds) && forall r :: r in rounds ==> r < round
    ensures Increasing(rounds + [round]) && forall r :: r in rounds + [round] ==> r <= round
  {
    var all := rounds + [round];
    forall i, j | 0 <= i < j < |all|
      ensures all[i] < all[j]
    {
      assert all[i] in rounds;
    }
  }

  /** Distinct rounds match the acknowledged timestamp at most once. */
  lemma {:induction false} AtMostOneMatch(rounds: seq<int>, last: int)
    requires Increasing(rounds)
    ensures Failures(rounds, last) <= |rounds| <= Failures(rounds, last) + 1
    ensures rounds != [] && rounds[|rounds| - 1] < last ==> Failures(rounds, last) == |rounds|
    ensures rounds != [] && rounds[|rounds| - 1] == last ==> Failures(rounds, last) == |rounds| - 1
  {
    if rounds != [] {
      var front := rounds[..|rounds| - 1];
      AtMostOneMatch(front, last);
      if front != [] {
        assert front[|front| - 1] == rounds[|front| - 1] < rounds[|rounds| - 1];
      }
    }
  }

  // ----- the invariant -----

  /** Peer p has not been checked in the round that the pinger last announced. */
  ghost predicate Unchecked(s: State, p: nat) {
    s.phase.BeforeCheck? || s.phase.CheckRead? || (s.phase.Checking? && p in s.phase.left)
  }

  ghost predicate PhaseOk(s: State) {
    && s.current >= -1
    && (s.phase.CheckRead? || s.phase.Checking? || s.phase.PingSet? || s.phase.Pinging? ==>
          s.phase.round == s.current)
    && (s.phase.Checking? || s.phase.Pinging? ==> forall p :: p in s.phase.left ==> p < |s.peers|)
  }

  ghost predicate CountOk(s: State, p: nat)
    requires p < |s.peers|
  {
    var x := s.peers[p];
    && x.ping.failed == Failures(x.rounds, x.ping.last)
    && x.ping.last <= s.current
    && (x.pong.Reported? && x.pong.pingTime >= 0 ==> x.pong.timestamp <= s.current)
    && Increasing(x.rounds)
    && (forall r :: r in x.rounds ==> r <= s.current && (Unchecked(s, p) ==> r < s.current))
    && (s.phase.PingSet? || s.phase.Pinging? ==> forall r :: r in x.rounds ==> r < s.current)
    && (x.rounds != [] && TooMany(x.ping, s.max) ==> x.dropped)
  }

  /** What holds of a member whose answers have all come before the check after the ping. */
  ghost predicate Punctual(s: State, p: nat)
    requires p < |s.peers|
  {
    var x := s.peers[p];
    && x.ping.failed <= 1
    && (x.sent.None? ==> !x.owed && (Unchecked(s, p) ==> x.ping.failed == 0))
    && (x.sent.Some? ==> x.sent.value <= s.current)
    && (x.sent.Some? && s.phase.BeforePing? ==> !x.owed && x.sent.value == s.current)
    && (x.sent.Some? && !x.owed ==> x.ping.failed == 0)
    && (x.sent == Some(s.current) && !x.owed ==> x.ping.last == s.current)
    && (x.owed ==> x.sent == Some(s.current))
    && (x.pong.Reported? && x.pong.answers ==>
          x.owed && x.pong.timestamp == s.current && x.pong.pingTime >= 0)
    && (x.pong.Reported? && x.pong.pingTime >= 0 && x.sent == Some(s.current) && !x.owed ==>
          x.pong.timestamp == s.current)
  }

  ghost predicate SentOk(s: State, p: nat)
    requires p < |s.peers|
  {
    var x := s.peers[p];
    && (s.phase.Pinging? && p !in s.phase.left && x.standing.Member? ==> x.sent == Some(s.current))
    && (s.phase.Checking? && p !in s.phase.left ==> !x.owed)
    && (s.phase.PingSet? || (s.phase.Pinging? && p in s.phase.left) ==> x.sent != Some(s.current) && !x.owed)
    && (x.sent.Some? && (s.phase.BeforeCheck? || s.phase.CheckRead? || s.phase.Checking?) ==> x.sent == Some(s.current))
  }

  ghost predicate Faithful(s: State, p: nat)
    requires p < |s.peers|
  {
    var x := s.peers[p];
    && (x.standing.Member? && !x.late ==> Punctual(s, p) && SentOk(s, p) && (s.max >= 2 ==> !x.dropped))
    && (x.standing.Made? ==>
          && x.ping.failed == 0 && x.rounds == []
          && x.sent.None? && !x.owed && !x.late && !x.dropped
          && !(x.pong.Reported? && x.pong.answers)
          && !(s.phase.Checking? && p in s.phase.left) && !(s.phase.Pinging? && p in s.phase.left))
  }

  ghost predicate Inv(s: State) {
    && PhaseOk(s)
    && (forall p :: 0 <= p < |s.peers| ==> CountOk(s, p) && Faithful(s, p))
  }

  lemma CheckFields(s: State, p: nat)
    requires PhaseOk(s) && Can(s, CheckOne(p))
    ensures var t, x := Do(s, CheckOne(p)), s.peers[p];
      && t.current == s.current == s.phase.round && t.max == s.max && t.phase.Checking?
      && !Unchecked(t, p) && |t.peers| == |s.peers|
      && t.peers[p].ping == Checked(x.ping, s.current) && t.peers[p].pong == x.pong
      && t.peers[p].rounds == x.rounds + [s.current]
      && t.peers[p].dropped == (x.dropped || TooMany(t.peers[p].ping, s.max))
  {
  }

  lemma CheckKeepsCount(s: State, p: nat)
    requires PhaseOk(s) && Can(s, CheckOne(p)) && CountOk(s, p)
    ensures CountOk(Do(s, CheckOne(p)), p)
  {
    var t, x := Do(s, CheckOne(p)), s.peers[p];
    CheckFields(s, p);
    assert Unchecked(s, p);
    FailuresAppend(x.rounds, s.current, x.ping.last);
    IncreasingAppend(x.rounds, s.current);
    hide Do, Failures, Increasing, Unchecked, TooMany, PhaseOk;
  }

  /** Steps of the pinger. */
  predicate PingerStep(step: Step) {
    !step.Make? && !step.Join? && !step.Leave? && !step.Report? && !step.Record?
  }

  lemma PingerStepKeepsCount(s: State, step: Step, p: nat)
    requires PingerStep(step) && step != CheckOne(p)
    requires PhaseOk(s) && Can(s, step) && p < |s.peers| && CountOk(s, p)
    ensures CountOk(Do(s, step), p)
  {
    hide Failures, Increasing;
  }

  lemma PeerStepKeepsCount(s: State, step: Step, p: nat)
    requires !PingerStep(step)
    requires PhaseOk(s) && Can(s, step) && p < |Do(s, step).peers| && (p < |s.peers| ==> CountOk(s, p))
    ensures CountOk(Do(s, step), p)
  {
    assert Increasing([]) && forall last :: Failures([], last) == 0;
    hide Failures, Increasing;
  }

  lemma PingerStepKeepsFaithful(s: State, step: Step, p: nat)
    requires PingerStep(step)
    requires PhaseOk(s) && Can(s, step) && p < |s.peers| && CountOk(s, p) && Faithful(s, p)
    ensures Faithful(Do(s, step), p)
  {
    hide Failures, Increasing;
  }

  lemma MemberStepKeepsFaithful(s: State, step: Step, p: nat)
    requires step.Make? || step.Join? || step.Leave?
    requires PhaseOk(s) && Can(s, step) && p < |Do(s, step).peers|
    requires p < |s.peers| ==> CountOk(s, p) && Faithful(s, p)
    ensures Faithful(Do(s, step), p)
  {
    hide Failures, Increasing;
  }

  lemma PongStepKeepsFaithful(s: State, step: Step, p: nat)
    requires step.Report? || step.Record?
    requires PhaseOk(s) && Can(s, step) && p < |s.peers| && CountOk(s, p) && Faithful(s, p)
    ensures Faithful(Do(s, step), p)
  {
    hide Increasing;
  }

  lemma StepKeepsPeer(s: State, step: Step, p: nat)
    requires Inv(s) && Can(s, step) && p < |Do(s, step).peers|
    ensures CountOk(Do(s, step), p) && Faithful(Do(s, step), p)
  {
    assert p < |s.peers| ==> CountOk(s, p) && Faithful(s, p);
    assert !step.Make? ==> p < |s.peers|;
    hide CountOk, Faithful, PhaseOk, Do;
    if PingerStep(step) {
      if step == CheckOne(p) {
        CheckKeepsCount(s, p);
      } else {
        PingerStepKeepsCount(s, step, p);
      }
      PingerStepKeepsFaithful(s, step, p);
    } else {
      PeerStepKeepsCount(s, step, p);
      if step.Report? || step.Record? {
        PongStepKeepsFaithful(s, step, p);
      } else {
        MemberStepKeepsFaithful(s, step, p);
      }
    }
  }

  lemma StepKeepsInv(s: State, step: Step)
    requires Inv(s) && Can(s, step)
    ensures Inv(Do(s, step))
  {
    forall p | 0 <= p < |Do(s, step).peers|
      ensures CountOk(Do(s, step), p) && Faithful(Do(s, step), p)
    {
      StepKeepsPeer(s, step, p);
    }
    hide CountOk, Faithful;
  }

  lemma {:induction false} RunKeepsInv(s: State, steps: seq<Step>)
    requires Inv(s) && IsRun(s, steps)
    ensures Inv(End(s, steps)) && End(s, steps).max == s.max
    decreases |steps|
  {
    if steps != [] {
      StepKeepsInv(s, steps[0]);
      RunKeepsInv(Do(s, steps[0]), steps[1..]);
    }
  }

  // ----- theorems over every run -----

  /** m_failedPings is the number of rounds since the last reset that differ from the
      acknowledged timestamp, and that timestamp is never ahead of the session's. */
  lemma ExactCount(max: nat, steps: seq<Step>, p: nat)
    requires IsRun(Initial(max), steps) && p < |End(Initial(max), steps).peers|
    ensures var s := End(Initial(max), steps);
      && s.peers[p].ping.failed == Failures(s.peers[p].rounds, s.peers[p].ping.last)
      && s.peers[p].ping.last <= s.current
  {
    RunKeepsInv(Initial(max), steps);
    assert CountOk(End(Initial(max), steps), p);
  }

  lemma CheckCounts(s: State, p: nat)
    requires Inv(s) && Can(s, CheckOne(p))
    ensures var t, x := Do(s, CheckOne(p)), s.peers[p];
      && t.peers[p].ping.failed == Failures(x.rounds + [s.phase.round], x.ping.last)
      && (t.peers[p].dropped <==> x.dropped || t.peers[p].ping.failed >= s.max)
  {
    assert CountOk(s, p);
    CheckFields(s, p);
    FailuresAppend(s.peers[p].rounds, s.phase.round, s.peers[p].ping.last);
    hide Do, Failures, Increasing;
  }

  /** In the course of the run some check of peer p finds that at least `max` rounds since the last
      reset, the present one included, differ from the acknowledged timestamp. */
  predicate FoundFailing(s: State, p: nat, steps: seq<Step>)
    requires IsRun(s, steps)
    decreases |steps|
  {
    steps != [] &&
    ((steps[0] == CheckOne(p) && Failures(s.peers[p].rounds + [s.phase.round], s.peers[p].ping.last) >= s.max) ||
     FoundFailing(Do(s, steps[0]), p, steps[1..]))
  }

  lemma StepDropsIff(s: State, step: Step, p: nat)
    requires Inv(s) && Can(s, step) && p < |Do(s, step).peers|
    ensures Do(s, step).max == s.max
    ensures Do(s, step).peers[p].dropped <==>
              || (p < |s.peers| && s.peers[p].dropped)
              || (step == CheckOne(p) && Failures(s.peers[p].rounds + [s.phase.round], s.peers[p].ping.last) >= s.max)
  {
    if step == CheckOne(p) {
      CheckCounts(s, p);
    }
  }

  lemma {:induction false} DroppedFrom(s: State, steps: seq<Step>, p: nat)
    requires Inv(s) && IsRun(s, steps)
    ensures |s.peers| <= |End(s, steps).peers|
    ensures p < |End(s, steps).peers| ==>
              (End(s, steps).peers[p].dropped <==> (p < |s.peers| && s.peers[p].dropped) || FoundFailing(s, p, steps))
    decreases |steps|
  {
    if steps != [] {
      var t := Do(s, steps[0]);
      StepKeepsInv(s, steps[0]);
      if p < |t.peers| {
        StepDropsIff(s, steps[0], p);
      }
      hide Can, Failures, Inv;
      DroppedFrom(t, steps[1..], p);
    }
  }

  /** In every run a peer is dropped if and only if some check of it has found at least
      maxFailedPings failures: never for fewer, and never spared for so many. */
  lemma DroppedIffFoundFailing(max: nat, steps: seq<Step>, p: nat)
    requires IsRun(Initial(max), steps) && p < |End(Initial(max), steps).peers|
    ensures End(Initial(max), steps).peers[p].dropped <==> FoundFailing(Initial(max), p, steps)
    ensures End(Initial(max), steps).max == max
  {
    RunKeepsInv(Initial(max), steps);
    DroppedFrom(Initial(max), steps, p);
  }

  lemma RunFirst(s: State, step: Step, rest: seq<Step>)
    requires Can(s, step) && IsRun(Do(s, step), rest)
    ensures IsRun(s, [step] + rest) && End(s, [step] + rest) == End(Do(s, step), rest)
  {
  }

  lemma PingFields(s: State, p: nat)
    requires Inv(s) && Can(s, PingOne(p))
    ensures var t, x := Do(s, PingOne(p)), s.peers[p];
      t.current == s.current && p < |t.peers| && t.peers[p] == x.(sent := Some(s.current), owed := true)
  {
  }

  lemma AnswerFields(s: State, p: nat, now: int)
    requires p < |s.peers| && s.peers[p].pong.NoPong? && now >= s.current
    requires s.peers[p].sent == Some(s.current) && s.peers[p].owed
    ensures Can(s, Report(p, s.current, now))
    ensures var t := Do(s, Report(p, s.current, now));
      && Can(t, Record(p))
      && var x := Do(t, Record(p)).peers[p];
         x == s.peers[p].(ping := PeerPing(0, s.current, now - s.current), owed := false, rounds := [])
  {
  }

  /** A ping that is answered before anything else happens leaves no debt and no failure, and the
      round counts as acknowledged. */
  lemma AnswerIsRecorded(s: State, p: nat, now: int)
    requires Inv(s) && Can(s, PingOne(p)) && s.peers[p].pong.NoPong? && now >= s.current
    ensures var steps := [PingOne(p)] + ([Report(p, s.current, now)] + ([Record(p)] + []));
      && IsRun(s, steps) && p < |End(s, steps).peers|
      && End(s, steps).peers[p] ==
           s.peers[p].(ping := PeerPing(0, s.current, now - s.current),
                       sent := Some(s.current), owed := false, rounds := [])
  {
    PingFields(s, p);
    var a := Do(s, PingOne(p));
    AnswerFields(a, p, now);
    hide Do, Can, Inv;
    var b := Do(a, Report(p, s.current, now));
    RunFirst(b, Record(p), []);
    RunFirst(a, Report(p, s.current, now), [Record(p)] + []);
    RunFirst(s, PingOne(p), [Report(p, s.current, now)] + ([Record(p)] + []));
  }

  // ----- the best ping over a run -----

  ghost predicate RecordOk(s: State) {
    s.best == BestPing.ReportAll(s.pongs) && BestPing.Sane(s.pongs)
  }

  lemma ReportKeepsRecord(s: State, pong: BestPing.Pong)
    requires RecordOk(s) && pong.peer >= 0 && pong.pingTime >= 0
    ensures BestPing.Report(s.best, pong) == BestPing.ReportAll(s.pongs + [pong])
    ensures BestPing.Sane(s.pongs + [pong])
  {
  }

  lemma StepKeepsRecord(s: State, step: Step)
    requires RecordOk(s) && Can(s, step)
    ensures RecordOk(Do(s, step))
  {
    if step.Report? && step.timestamp == s.current {
      ReportKeepsRecord(s, BestPing.Pong(step.p, s.current, step.now - s.current));
    }
    hide BestPing.Report, BestPing.ReportAll, BestPing.Sane;
  }

  lemma {:induction false} RunKeepsRecord(s: State, steps: seq<Step>)
    requires RecordOk(s) && IsRun(s, steps)
    ensures RecordOk(End(s, steps))
    decreases |steps|
  {
    hide Do, Can, RecordOk;
    if steps != [] {
      StepKeepsRecord(s, steps[0]);
      RunKeepsRecord(Do(s, steps[0]), steps[1..]);
    }
  }

  /** However rounds, joins, leaves and pongs interleave, the session's record describes exactly
      the pongs that matched a current timestamp: the smallest ping time, the first peer to reach
      it, and the timestamp with which that peer's unbroken tenure began. */
  lemma RecordIsEarliestBest(max: nat, steps: seq<Step>) returns (best: int, start: int)
    requires IsRun(Initial(max), steps) && End(Initial(max), steps).pongs != []
    ensures var s := End(Initial(max), steps); BestPing.Describes(s.pongs, s.best, best, start)
  {
    RunKeepsRecord(Initial(max), steps);
    best, start := BestPing.EarliestArgMin(End(Initial(max), steps).pongs);
  }

  function ChecksOf(p: nat, steps: seq<Step>): nat {
    if steps == [] then 0 else (if steps[0] == CheckOne(p) then 1 else 0) + ChecksOf(p, steps[1..])
  }

  /** No pong of peer p is accepted and recorded in the course of the run. */
  predicate Silent(s: State, p: nat, steps: seq<Step>)
    requires IsRun(s, steps)
    decreases |steps|
  {
    steps != [] ==>
      && !(steps[0] == Record(p) && s.peers[p].pong.pingTime >= 0)
      && Silent(Do(s, steps[0]), p, steps[1..])
  }

  lemma {:induction false} SilenceAddsUp(s: State, p: nat, steps: seq<Step>)
    requires p < |s.peers| && IsRun(s, steps) && Silent(s, p, steps)
    ensures p < |End(s, steps).peers|
    ensures |End(s, steps).peers[p].rounds| == |s.peers[p].rounds| + ChecksOf(p, steps)
    decreases |steps|
  {
    if steps != [] {
      SilenceAddsUp(Do(s, steps[0]), p, steps[1..]);
    }
  }

  /** From any reachable state on, a peer that has no pong recorded is invalidated no later than
      its (maxFailedPings + 1)-th check; one check may still match the ping it answered last. */
  lemma SilentPeerIsDropped(max: nat, past: seq<Step>, p: nat, steps: seq<Step>)
    requires IsRun(Initial(max), past) && p < |End(Initial(max), past).peers|
    requires IsRun(End(Initial(max), past), steps) && Silent(End(Initial(max), past), p, steps)
    requires ChecksOf(p, steps) > max
    ensures p < |End(End(Initial(max), past), steps).peers|
    ensures End(End(Initial(max), past), steps).peers[p].dropped
  {
    var s := End(Initial(max), past);
    RunKeepsInv(Initial(max), past);
    RunKeepsInv(s, steps);
    SilenceAddsUp(s, p, steps);
    var x := End(s, steps).peers[p];
    assert CountOk(End(s, steps), p);
    AtMostOneMatch(x.rounds, x.ping.last);
  }

  /** A peer that has recorded the answer to every ping it was sent before the check after it is
      never invalidated, even if it joined in the middle of a round and was charged for a ping
      it never got. */
  lemma PunctualPeerIsKept(max: nat, steps: seq<Step>, p: nat)
    requires max >= 2
    requires IsRun(Initial(max), steps) && p < |End(Initial(max), steps).peers|
    requires End(Initial(max), steps).peers[p].standing.Member? && !End(Initial(max), steps).peers[p].late
    ensures !End(Initial(max), steps).peers[p].dropped
    ensures End(Initial(max), steps).peers[p].ping.failed <= 1
  {
    RunKeepsInv(Initial(max), steps);
    assert Faithful(End(Initial(max), steps), p);
  }

  /** A member that never let a check find it owing an answer, and was dropped all the same. */
  ghost predicate Wronged(s: State, p: nat) {
    p < |s.peers| && s.peers[p].standing.Member? && !s.peers[p].late && s.peers[p].dropped
  }

  const FIRST_ROUND := [ReadRound, StartChecks, EndChecks, SetRound(0), StartPings, EndPings]
  const NEWCOMER := [Make, Join(0), ReadRound, StartChecks, CheckOne(0)]

  /** A first round of checks and pings over an empty session. */
  lemma FirstRound(max: nat)
    ensures IsRun(Initial(max), FIRST_ROUND) && End(Initial(max), FIRST_ROUND) == Empty(max, 0, BeforeCheck)
  {
  }

  /** A peer joins, and the next round of checks comes before its first ping. */
  lemma NewcomerIsCharged(max: nat)
    ensures var s := Empty(max, 0, BeforeCheck);
      && IsRun(s, NEWCOMER)
      && Wronged(End(s, NEWCOMER), 0) == (max < 2)
  {
  }

  /** With maxFailedPings below 2 a peer that joins between a round of pings and the next round
      of checks is dropped before it has been sent anything. */
  lemma NewcomerIsWronged(max: nat) returns (steps: seq<Step>)
    requires max < 2
    ensures IsRun(Initial(max), steps) && Wronged(End(Initial(max), steps), 0)
  {
    FirstRound(max);
    NewcomerIsCharged(max);
    RunConcat(Initial(max), FIRST_ROUND, NEWCOMER);
    steps := FIRST_ROUND + NEWCOMER;
  }

  lemma {:induction false} RunConcat(s: State, a: seq<Step>, b: seq<Step>)
    requires IsRun(s, a) && IsRun(End(s, a), b)
    ensures IsRun(s, a + b) && End(s, a + b) == End(End(s, a), b)
    decreases |a|
  {
    if a == [] {
      assert a + b == b;
    } else {
      RunConcat(Do(s, a[0]), a[1..], b);
      assert (a + b)[1..] == a[1..] + b;
    }
  }

  ghost predicate WrongedBy(max: nat, steps: seq<Step>, p: nat) {
    IsRun(Initial(max), steps) && Wronged(End(Initial(max), steps), p)
  }

  /** Punctual peers are safe in every run exactly when two failures are allowed for. */
  lemma PunctualityPaysIff(max: nat)
    ensures (forall steps: seq<Step>, p: nat :: !WrongedBy(max, steps, p)) <==> max >= 2
  {
    if max >= 2 {
      forall steps: seq<Step>, p: nat
        ensures !WrongedBy(max, steps, p)
      {
        if WrongedBy(max, steps, p) {
          PunctualPeerIsKept(max, steps, p);
        }
      }
    } else {
      var steps := NewcomerIsWronged(max);
      assert WrongedBy(max, steps, 0);
    }
  }
}
