/** What a run of the session looks like from one peer's queue: a run of that queue. */
module Projection {
  import opened Messages
  import opened Mailboxes
  import opened Protocol
  import opened ProtocolInvariant

  /** The step that peer p's queue takes when the session takes step a. */
  ghost function BoxStep(s: State, a: Action, p: nat): Option<Step>
    requires Can(s, a)
  {
    if OfferStep(a) then
      if Reaches(s, a) && Recipient(s, a) == p then Some(Offers(Payload(s, a))) else None
    else if a.Inside? && a.p == p then Some(a.step) else None
  }

  ghost function BoxSteps(s: State, actions: seq<Action>, p: nat): seq<Step>
    requires IsTrace(s, actions)
    decreases |actions|
  {
    if actions == [] then [] else
      var rest := BoxSteps(Do(s, actions[0]), actions[1..], p);
      match BoxStep(s, actions[0], p)
      case None => rest
      case Some(step) => [step] + rest
  }

  lemma BoxMoves(s: State, a: Action, p: nat)
    requires Can(s, a) && p < |s.peers|
    ensures p < |Do(s, a).peers|
    ensures var b, step := s.peers[p].box, BoxStep(s, a, p);
      if step.None? then Do(s, a).peers[p].box == b
      else Enabled(b, step.value) && Do(s, a).peers[p].box == Apply(b, step.value)
  {
    if MemberStep(a) {
      MemberEffect(s, a);
    } else if OfferStep(a) {
      OfferEffect(s, a);
    } else {
      OtherEffect(s, a);
    }
  }

  lemma {:induction false} QueueRunFrom(s: State, actions: seq<Action>, p: nat)
    requires IsTrace(s, actions) && p < |s.peers|
    ensures var steps := BoxSteps(s, actions, p);
      && p < |After(s, actions).peers|
      && IsRun(s.peers[p].box, steps) && End(s.peers[p].box, steps) == After(s, actions).peers[p].box
    decreases |actions|
  {
    if actions != [] {
      BoxMoves(s, actions[0], p);
      hide Do, Can, BoxStep, Apply, Enabled;
      QueueRunFrom(Do(s, actions[0]), actions[1..], p);
    }
  }

  lemma NotYetThere(s: State, a: Action, p: nat)
    requires Can(s, a) && p >= |s.peers|
    ensures BoxStep(s, a, p).None? && Do(s, a).limit == s.limit
    ensures p < |Do(s, a).peers| ==> Do(s, a).peers[p].box == Fresh(s.limit)
  {
    if MemberStep(a) {
      MemberEffect(s, a);
    } else if OfferStep(a) {
      OfferEffect(s, a);
    } else {
      OtherEffect(s, a);
    }
  }

  /** Seen from the queue of any peer, a run of the session is a run of that queue, so all that
      is proved about one queue holds of every queue of a session. */
  lemma {:induction false} QueueRun(s: State, actions: seq<Action>, p: nat)
    requires IsTrace(s, actions) && p >= |s.peers| && p < |After(s, actions).peers|
    ensures var steps := BoxSteps(s, actions, p);
      IsRun(Fresh(s.limit), steps) && End(Fresh(s.limit), steps) == After(s, actions).peers[p].box
    decreases |actions|
  {
    if actions != [] {
      NotYetThere(s, actions[0], p);
      hide Do, Can, BoxStep, Fresh;
      var t := Do(s, actions[0]);
      if p < |t.peers| {
        QueueRunFrom(t, actions[1..], p);
      } else {
        QueueRun(t, actions[1..], p);
      }
    }
  }
}
