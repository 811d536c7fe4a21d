/** A game's session map and the coroutine that pings its sessions. Every operation holds the
    game's mutex from beginning to end, so each is one step. */
module Games {

  /** `pingers` counts the Pinger coroutines that have been started and have not finished. */
  datatype Game<S> = Game(sessions: map<string, S>, isPingerActive: bool, pingers: nat)

  function NewGame<S>(): Game<S> {
    Game(map[], false, 0)
  }

  /** createNewSession, which starts a pinger unless one is marked active. */
  function Created<S>(g: Game<S>, id: string, s: S): Game<S> {
    if id in g.sessions then g
    else Game(g.sessions[id := s], true, if g.isPingerActive then g.pingers else g.pingers + 1)
  }

  function Deleted<S>(g: Game<S>, id: string): Game<S> {
    g.(sessions := g.sessions - {id})
  }

  /** A turn of a pinger: it finishes when there are no sessions. */
  function Turned<S>(g: Game<S>): Game<S>
    requires g.pingers > 0
  {
    if g.sessions == map[] then Game(g.sessions, false, g.pingers - 1) else g
  }

  datatype Step<S> = Creates(id: string, s: S) | Deletes(id: string) | Turns

  predicate Can<S>(g: Game<S>, step: Step<S>) {
    step.Turns? ==> g.pingers > 0
  }

  function Do<S>(g: Game<S>, step: Step<S>): Game<S>
    requires Can(g, step)
  {
    match step
    case Creates(id, s) => Created(g, id, s)
    case Deletes(id) => Deleted(g, id)
    case Turns => Turned(g)
  }

  predicate IsRun<S>(g: Game<S>, steps: seq<Step<S>>)
    decreases |steps|
  {
    steps == [] || (Can(g, steps[0]) && IsRun(Do(g, steps[0]), steps[1..]))
  }

  function End<S>(g: Game<S>, steps: seq<Step<S>>): Game<S>
    requires IsRun(g, steps)
    decreases |steps|
  {
    if steps == [] then g else End(Do(g, steps[0]), steps[1..])
  }

  /** One pinger while active and none otherwise; sessions are never without a pinger. */
  predicate Covered<S>(g: Game<S>) {
    && g.pingers == (if g.isPingerActive then 1 else 0)
    && (g.sessions != map[] ==> g.isPingerActive)
  }

  /** In every interleaving of creations, deletions and turns there is exactly one live pinger
      when the game says so and none otherwise, and there is one whenever there are sessions. */
  lemma {:induction false} PingerIsUnique<S>(g: Game<S>, steps: seq<Step<S>>)
    requires Covered(g) && IsRun(g, steps)
    ensures Covered(End(g, steps))
    decreases |steps|
  {
    if steps != [] {
      PingerIsUnique(Do(g, steps[0]), steps[1..]);
    }
  }

  /** A session that stays in the map keeps the pinger alive: whatever else is created and
      deleted, the game still has its one pinger and the session is still there to be pinged. */
  lemma {:induction false} SessionKeepsPinger<S>(g: Game<S>, steps: seq<Step<S>>, id: string)
    requires Covered(g) && id in g.sessions && IsRun(g, steps)
    requires forall i :: 0 <= i < |steps| ==> steps[i] != Deletes(id)
    ensures var h := End(g, steps);
      id in h.sessions && h.sessions[id] == g.sessions[id] && h.pingers == 1 && Turned(h) == h
    decreases |steps|
  {
    if steps != [] {
      var h := Do(g, steps[0]);
      assert steps[0] != Deletes(id);
      assert id in h.sessions && Covered(h);
      SessionKeepsPinger(h, steps[1..], id);
    } else {
      assert g.sessions != map[];
    }
  }

  /** A pinger's turn ends the pinger exactly if no session is left, whatever came before, and
      leaves the sessions alone. */
  lemma PingerEndsIff<S>(g: Game<S>, steps: seq<Step<S>>)
    requires Covered(g) && IsRun(g, steps) && End(g, steps).pingers > 0
    ensures var h := End(g, steps);
      var k := Do(h, Turns);
      && k.sessions == h.sessions
      && (h.sessions == map[] ==> k.pingers == 0 && !k.isPingerActive)
      && (h.sessions != map[] ==> k.pingers == 1 && k.isPingerActive)
  {
    PingerIsUnique(g, steps);
  }
}
