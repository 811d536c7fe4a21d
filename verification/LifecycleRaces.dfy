/** Connect and disconnect callbacks of one game at the granularity of its mutexes. Looking a session
    up and adding the peer to it are separate critical sections, and so are removing a peer and
    deleting the session that it left empty, so other callbacks can come in between. */
module LifecycleRaces {

  /** A connection has found its session and is not in it yet, is in it, has left it empty and has
      still to delete it, or has no more to do. */
  datatype Stage = Joining | Member | Deleting | Done

  datatype Link = Link(session: nat, stage: Stage)

  /** `sessions` are the names of all Session objects ever made, `registered` is the game's map
      from names to them, and `links` are all connections that were admitted. */
  datatype State = State(sessions: seq<string>, registered: map<string, nat>, links: seq<Link>)

  const EMPTY := State([], map[], [])

  /** The connections that have got as far as `stage` with session o. */
  function At(s: State, o: nat, stage: Stage): set<nat> {
    set c: nat | c < |s.links| && s.links[c] == Link(o, stage)
  }

  datatype Step = Create(name: string) | Find(name: string) | Add(c: nat) | Remove(c: nat) | Delete(c: nat)

  /** Connections that are turned away change nothing and are left out. */
  predicate Can(s: State, step: Step) {
    match step
    case Create(name) => name !in s.registered
    case Find(name) => name in s.registered
    case Add(c) => c < |s.links| && s.links[c].stage.Joining?
    case Remove(c) => c < |s.links| && s.links[c].stage.Member?
    case Delete(c) => c < |s.links| && s.links[c].stage.Deleting? && s.links[c].session < |s.sessions|
  }

  function Move(s: State, c: nat, stage: Stage): State
    requires c < |s.links|
  {
    s.(links := s.links[c := s.links[c].(stage := stage)])
  }

  function Enter(s: State, o: nat): State {
    s.(links := s.links + [Link(o, Joining)])
  }

  function Do(s: State, step: Step): State
    requires Can(s, step)
  {
    match step
    case Create(name) =>
      Enter(s.(sessions := s.sessions + [name], registered := s.registered[name := |s.sessions|]), |s.sessions|)
    case Find(name) => Enter(s, s.registered[name])
    case Add(c) => Move(s, c, Member)
    case Remove(c) => Move(s, c, if At(s, s.links[c].session, Member) == {c} then Deleting else Done)
    case Delete(c) => Move(s, c, Done).(registered := s.registered - {s.sessions[s.links[c].session]})
  }

  predicate IsRun(s: State, steps: seq<Step>)
    decreases |steps|
  {
    steps == [] || (Can(s, steps[0]) && IsRun(Do(s, steps[0]), steps[1..]))
  }

  function End(s: State, steps: seq<Step>): State
    requires IsRun(s, steps)
    decreases |steps|
  {
    if steps == [] then s else End(Do(s, steps[0]), steps[1..])
  }

  function Changed(cs: set<nat>, c: nat, from: bool, to: bool): set<nat> {
    if to then cs + {c} else if from then cs - {c} else cs
  }

  lemma Moved(s: State, c: nat, stage: Stage, o: nat)
    requires c < |s.links| && s.links[c].stage != stage
    ensures var l, t := s.links[c], Move(s, c, stage);
      && c in At(s, l.session, l.stage)
      && forall g :: At(t, o, g) == if o == l.session then Changed(At(s, o, g), c, g == l.stage, g == stage)
                                    else At(s, o, g)
  {
  }

  lemma Entered(s: State, p: nat, o: nat)
    ensures forall g :: At(Enter(s, p), o, g) == At(s, o, g) + if o == p && g == Joining then {|s.links|} else {}
  {
  }

  // ----- what should hold, and what spoils it -----

  predicate Registered(s: State, o: nat)
    requires o < |s.sessions|
  {
    s.sessions[o] in s.registered && s.registered[s.sessions[o]] == o
  }

  ghost predicate SoundFor(s: State, o: nat)
    requires o < |s.sessions|
  {
    Registered(s, o) <==> At(s, o, Member) != {}
  }

  /** Every session is registered exactly if it has a peer. */
  ghost predicate Sound(s: State) {
    forall o: nat | o < |s.sessions| :: SoundFor(s, o)
  }

  predicate QuietFor(s: State, o: nat) {
    At(s, o, Joining) == {} && At(s, o, Deleting) == {}
  }

  /** No callback is under way. */
  ghost predicate Quiescent(s: State) {
    forall o: nat | o < |s.sessions| :: QuietFor(s, o)
  }

  predicate OverlapsFor(s: State, o: nat) {
    At(s, o, Joining) != {} && At(s, o, Deleting) != {}
  }

  /** Some connection is between looking a session up and joining it while another is about to
      delete that session. */
  ghost predicate Overlaps(s: State) {
    exists o: nat | o < |s.sessions| :: OverlapsFor(s, o)
  }

  ghost predicate Single(cs: set<nat>) {
    forall c, d :: c in cs && d in cs ==> c == d
  }

  /** What holds of a session up to the first overlap, and in the state in which that arises. */
  ghost predicate GoodFor(s: State, o: nat)
    requires o < |s.sessions|
  {
    && (Registered(s, o) <==> At(s, o, Joining) + At(s, o, Member) + At(s, o, Deleting) != {})
    && (At(s, o, Deleting) != {} ==> At(s, o, Member) == {} && Single(At(s, o, Deleting)))
  }

  ghost predicate LinksOk(s: State) {
    forall c: nat | c < |s.links| :: s.links[c].session < |s.sessions|
  }

  ghost predicate Good(s: State) {
    && LinksOk(s)
    && (forall n :: n in s.registered ==> s.registered[n] < |s.sessions| && s.sessions[s.registered[n]] == n)
    && (forall o: nat | o < |s.sessions| :: GoodFor(s, o))
  }

  lemma NobodyThere(s: State, o: nat)
    requires Good(s) && o >= |s.sessions|
    ensures forall g :: At(s, o, g) == {}
  {
  }

  lemma EnterKeepsGoodFor(s: State, step: Step, o: nat)
    requires Good(s) && !Overlaps(s) && Can(s, step) && (step.Create? || step.Find?) && o < |Do(s, step).sessions|
    ensures GoodFor(Do(s, step), o)
  {
    assert o < |s.sessions| ==> GoodFor(s, o);
    if step.Create? {
      var named := s.(sessions := s.sessions + [step.name], registered := s.registered[step.name := |s.sessions|]);
      NobodyThere(s, |s.sessions|);
      Entered(named, |s.sessions|, o);
      assert forall g :: At(named, o, g) == At(s, o, g);
    } else {
      Entered(s, s.registered[step.name], o);
      assert GoodFor(s, s.registered[step.name]);
    }
    hide At;
  }

  lemma AddKeepsGoodFor(s: State, c: nat, o: nat)
    requires Good(s) && !Overlaps(s) && Can(s, Add(c)) && o < |s.sessions|
    ensures GoodFor(Do(s, Add(c)), o)
  {
    assert GoodFor(s, o) && !OverlapsFor(s, o);
    Moved(s, c, Member, o);
    hide At;
  }

  lemma RemoveKeepsGoodFor(s: State, c: nat, o: nat)
    requires Good(s) && Can(s, Remove(c)) && o < |s.sessions|
    ensures GoodFor(Do(s, Remove(c)), o)
  {
    assert GoodFor(s, o);
    Moved(s, c, if At(s, s.links[c].session, Member) == {c} then Deleting else Done, o);
    hide At;
  }

  lemma DeleteKeepsGoodFor(s: State, c: nat, o: nat)
    requires Good(s) && !Overlaps(s) && Can(s, Delete(c)) && o < |s.sessions|
    ensures GoodFor(Do(s, Delete(c)), o)
  {
    var p := s.links[c].session;
    assert GoodFor(s, o) && !OverlapsFor(s, o) && GoodFor(s, p) && !OverlapsFor(s, p);
    Moved(s, c, Done, o);
    var t := Move(s, c, Done);
    assert forall g :: At(t.(registered := s.registered - {s.sessions[p]}), o, g) == At(t, o, g);
    hide At;
  }

  lemma StepKeepsGood(s: State, step: Step)
    requires Good(s) && !Overlaps(s) && Can(s, step)
    ensures Good(Do(s, step))
  {
    forall o: nat | o < |Do(s, step).sessions|
      ensures GoodFor(Do(s, step), o)
    {
      if step.Create? || step.Find? {
        EnterKeepsGoodFor(s, step, o);
      } else if step.Add? {
        AddKeepsGoodFor(s, step.c, o);
      } else if step.Remove? {
        RemoveKeepsGoodFor(s, step.c, o);
      } else {
        DeleteKeepsGoodFor(s, step.c, o);
      }
    }
    hide GoodFor, At;
  }

  // ----- finishing what is under way -----

  predicate Finishes(step: Step) {
    step.Add? || step.Delete?
  }

  /** The callbacks under way run to their ends, in some order, and nothing else happens. */
  ghost predicate Completes(s: State, steps: seq<Step>) {
    IsRun(s, steps) && (forall i :: 0 <= i < |steps| ==> Finishes(steps[i])) && Quiescent(End(s, steps))
  }

  lemma FinishingShrinks(s: State, step: Step, o: nat)
    requires Can(s, step) && Finishes(step)
    ensures At(Do(s, step), o, Joining) <= At(s, o, Joining) && At(Do(s, step), o, Deleting) <= At(s, o, Deleting)
    ensures Do(s, step).sessions == s.sessions
  {
  }

  lemma FinishingStaysClear(s: State, step: Step)
    requires Can(s, step) && Finishes(step) && !Overlaps(s)
    ensures !Overlaps(Do(s, step))
  {
    forall o: nat | o < |s.sessions|
      ensures !OverlapsFor(Do(s, step), o)
    {
      FinishingShrinks(s, step, o);
      assert !OverlapsFor(s, o);
    }
    FinishingShrinks(s, step, 0);
  }

  lemma {:induction false} ClearIsSound(s: State, steps: seq<Step>)
    requires Good(s) && !Overlaps(s) && Completes(s, steps)
    ensures Sound(End(s, steps))
    decreases |steps|
  {
    if steps == [] {
      forall o: nat | o < |s.sessions|
        ensures SoundFor(s, o)
      {
        assert GoodFor(s, o) && QuietFor(s, o);
      }
    } else {
      StepKeepsGood(s, steps[0]);
      FinishingStaysClear(s, steps[0]);
      ClearIsSound(Do(s, steps[0]), steps[1..]);
    }
  }

  /** Connection c is joining session o or in it, and the session has lost its place in the map or
      is about to. */
  ghost predicate Doomed(s: State, o: nat, c: nat, d: nat) {
    && o < |s.sessions|
    && (c in At(s, o, Joining) || c in At(s, o, Member))
    && (d in At(s, o, Deleting) || s.sessions[o] !in s.registered)
  }

  lemma {:induction false} DoomedIsLost(s: State, steps: seq<Step>, o: nat, c: nat, d: nat)
    requires Doomed(s, o, c, d) && Completes(s, steps)
    ensures !Sound(End(s, steps))
    decreases |steps|
  {
    if steps == [] {
      assert QuietFor(s, o);
      assert !SoundFor(s, o);
    } else {
      assert Doomed(Do(s, steps[0]), o, c, d);
      DoomedIsLost(Do(s, steps[0]), steps[1..], o, c, d);
    }
  }

  function Pending(s: State): set<nat> {
    set c: nat | c < |s.links| && (s.links[c].stage.Joining? || s.links[c].stage.Deleting?)
  }

  lemma {:induction false} CompletionExists(s: State) returns (steps: seq<Step>)
    requires LinksOk(s)
    ensures Completes(s, steps)
    decreases |Pending(s)|
  {
    if c: nat :| c in Pending(s) {
      var step := if s.links[c].stage.Joining? then Add(c) else Delete(c);
      assert Pending(Do(s, step)) == Pending(s) - {c};
      var rest := CompletionExists(Do(s, step));
      steps := [step] + rest;
      assert steps[1..] == rest;
    } else {
      steps := [];
      forall o: nat | o < |s.sessions|
        ensures QuietFor(s, o)
      {
        assert At(s, o, Joining) <= Pending(s) && At(s, o, Deleting) <= Pending(s);
      }
    }
  }

  /** Up to the first overlap, and in the state in which it arises: however the callbacks under way
      are completed, every session is registered exactly if it has a peer if and only if there is
      no overlap. */
  lemma CompletionsAreSoundIff(s: State, rest: seq<Step>)
    requires Good(s) && Completes(s, rest)
    ensures Sound(End(s, rest)) <==> !Overlaps(s)
  {
    if Overlaps(s) {
      var o: nat :| o < |s.sessions| && OverlapsFor(s, o);
      var c :| c in At(s, o, Joining);
      var d :| d in At(s, o, Deleting);
      DoomedIsLost(s, rest, o, c, d);
    } else {
      ClearIsSound(s, rest);
    }
  }

  ghost predicate SoundHowever(s: State) {
    forall rest :: Completes(s, rest) ==> Sound(End(s, rest))
  }

  /** In every state of the run, however the callbacks then under way are completed, every session
      ends up registered exactly if it has a peer. */
  ghost predicate AlwaysSound(s: State, steps: seq<Step>)
    requires IsRun(s, steps)
    decreases |steps|
  {
    SoundHowever(s) && (steps != [] ==> AlwaysSound(Do(s, steps[0]), steps[1..]))
  }

  ghost predicate NeverOverlaps(s: State, steps: seq<Step>)
    requires IsRun(s, steps)
    decreases |steps|
  {
    !Overlaps(s) && (steps != [] ==> NeverOverlaps(Do(s, steps[0]), steps[1..]))
  }

  lemma {:induction false} SoundIffClearFrom(s: State, steps: seq<Step>)
    requires Good(s) && IsRun(s, steps)
    ensures AlwaysSound(s, steps) <==> NeverOverlaps(s, steps)
    decreases |steps|
  {
    if Overlaps(s) {
      var rest := CompletionExists(s);
      CompletionsAreSoundIff(s, rest);
    } else {
      forall rest | Completes(s, rest)
        ensures Sound(End(s, rest))
      {
        CompletionsAreSoundIff(s, rest);
      }
      if steps != [] {
        StepKeepsGood(s, steps[0]);
        SoundIffClearFrom(Do(s, steps[0]), steps[1..]);
      }
    }
  }

  /** The exact condition, for every run: sessions stay registered exactly if they have peers, in all
      states and however callbacks are completed, if and only if no connection is ever between
      looking a session up and joining it while another is about to delete that session. */
  lemma SoundIffClear(steps: seq<Step>)
    requires IsRun(EMPTY, steps)
    ensures AlwaysSound(EMPTY, steps) <==> NeverOverlaps(EMPTY, steps)
  {
    SoundIffClearFrom(EMPTY, steps);
  }

  lemma EveryRunCanComplete(steps: seq<Step>) returns (rest: seq<Step>)
    requires IsRun(EMPTY, steps)
    ensures Completes(End(EMPTY, steps), rest)
  {
    RunKeepsLinks(EMPTY, steps);
    rest := CompletionExists(End(EMPTY, steps));
  }

  ghost predicate TablesOk(s: State) {
    LinksOk(s) && forall n :: n in s.registered ==> s.registered[n] < |s.sessions|
  }

  lemma {:induction false} RunKeepsLinks(s: State, steps: seq<Step>)
    requires TablesOk(s) && IsRun(s, steps)
    ensures TablesOk(End(s, steps))
    decreases |steps|
  {
    if steps != [] {
      RunKeepsLinks(Do(s, steps[0]), steps[1..]);
    }
  }

  /** A host leaves while a client has found its session and not joined it. The client ends up in a
      session that is in no map; a second host founds a session of the same name; and when the
      client leaves, its callback deletes that one by name, under the feet of the second host. */
  lemma SecondSessionIsErased(name: string) returns (steps: seq<Step>)
    ensures IsRun(EMPTY, steps)
    ensures var s := End(EMPTY, steps);
      && s.sessions == [name, name] && s.registered == map[] && Quiescent(s)
      && At(s, 0, Member) == {} && At(s, 1, Member) == {2}
  {
    var l0, l1 := Link(0, Done), Link(0, Member);
    var founded := State([name], map[name := 0], [Link(0, Member)]);
    var orphaned := State([name], map[], [l0, Link(0, Joining)]);
    var both := State([name, name], map[name := 1], [l0, l1, Link(1, Member)]);
    var erased := State([name, name], map[], [l0, l0, Link(1, Member)]);
    var first := [Create(name), Add(0)];
    var second := [Find(name), Remove(0), Delete(0)];
    var third := [Create(name), Add(1), Add(2)];
    var fourth := [Remove(1), Delete(1)];
    Founded(name, first, founded);
    Orphaned(name, second, founded, orphaned);
    SecondFounded(name, third, orphaned, both);
    Erased(name, fourth, both, erased);
    RunConcat(orphaned, third, fourth);
    RunConcat(founded, second, third + fourth);
    RunConcat(EMPTY, first, second + (third + fourth));
    steps := first + (second + (third + fourth));
    assert At(erased, 0, Member) == {} && At(erased, 1, Member) == {2};
  }

  lemma Founded(name: string, steps: seq<Step>, t: State)
    requires steps == [Create(name), Add(0)] && t == State([name], map[name := 0], [Link(0, Member)])
    ensures IsRun(EMPTY, steps) && End(EMPTY, steps) == t
  {
    assert steps[1..] == [Add(0)] && [Add(0)][1..] == [];
    assert Do(EMPTY, Create(name)) == State([name], map[name := 0], [Link(0, Joining)]);
    assert IsRun(Do(EMPTY, Create(name)), [Add(0)]);
  }

  lemma Orphaned(name: string, steps: seq<Step>, s: State, t: State)
    requires steps == [Find(name), Remove(0), Delete(0)] && s == State([name], map[name := 0], [Link(0, Member)])
    requires t == State([name], map[], [Link(0, Done), Link(0, Joining)])
    ensures IsRun(s, steps) && End(s, steps) == t
  {
    assert steps[1..] == [Remove(0), Delete(0)] && steps[1..][1..] == [Delete(0)] && [Delete(0)][1..] == [];
    var u := State([name], map[name := 0], [Link(0, Member), Link(0, Joining)]);
    var v := State([name], map[name := 0], [Link(0, Deleting), Link(0, Joining)]);
    assert Do(s, Find(name)) == u;
    assert At(u, 0, Member) == {0};
    assert Do(u, Remove(0)) == v && Do(v, Delete(0)) == t;
    assert IsRun(v, [Delete(0)]) && IsRun(u, [Remove(0), Delete(0)]);
  }

  lemma SecondFounded(name: string, steps: seq<Step>, s: State, t: State)
    requires steps == [Create(name), Add(1), Add(2)]
    requires s == State([name], map[], [Link(0, Done), Link(0, Joining)])
    requires t == State([name, name], map[name := 1], [Link(0, Done), Link(0, Member), Link(1, Member)])
    ensures IsRun(s, steps) && End(s, steps) == t
  {
    assert steps[1..] == [Add(1), Add(2)] && steps[1..][1..] == [Add(2)] && [Add(2)][1..] == [];
    var u := State([name, name], map[name := 1], [Link(0, Done), Link(0, Joining), Link(1, Joining)]);
    var v := State([name, name], map[name := 1], [Link(0, Done), Link(0, Member), Link(1, Joining)]);
    assert Do(s, Create(name)) == u && Do(u, Add(1)) == v && Do(v, Add(2)) == t;
    assert IsRun(v, [Add(2)]) && IsRun(u, [Add(1), Add(2)]);
  }

  lemma Erased(name: string, steps: seq<Step>, s: State, t: State)
    requires steps == [Remove(1), Delete(1)]
    requires s == State([name, name], map[name := 1], [Link(0, Done), Link(0, Member), Link(1, Member)])
    requires t == State([name, name], map[], [Link(0, Done), Link(0, Done), Link(1, Member)])
    ensures IsRun(s, steps) && End(s, steps) == t
  {
    assert steps[1..] == [Delete(1)] && [Delete(1)][1..] == [];
    var u := State([name, name], map[name := 1], [Link(0, Done), Link(0, Deleting), Link(1, Member)]);
    assert At(s, 0, Member) == {1};
    assert Do(s, Remove(1)) == u && Do(u, Delete(1)) == t;
    assert IsRun(u, [Delete(1)]);
  }

  lemma {:induction false} RunConcat(s: State, a: seq<Step>, b: seq<Step>)
    requires IsRun(s, a) && IsRun(End(s, a), b)
    ensures IsRun(s, a + b) && End(s, a + b) == End(End(s, a), b)
    decreases |a|
  {
    if a == [] {
      assert a + b == b;
    } else {
      RunConcat(Do(s, a[0]), a[1..], b);
      assert (a + b)[1..] == a[1..] + b;
    }
  }
}
