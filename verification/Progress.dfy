/** The session never gets stuck: whoever is inside m_peersMutex can always finish. */
module Progress {
  import opened Mailboxes
  import opened Protocol
  import opened ProtocolInvariant
  import opened Sequential

  /** Queues whose mutex is held by a caller that has yet to look at the socket. */
  ghost function Held(s: State): set<nat> {
    set q: nat | q < |s.peers| && s.peers[q].box.spawning
  }

  /** Every pending look at a socket can be completed, by steps of queue holders alone. */
  lemma {:induction false} QueuesAreReleased(s: State) returns (actions: seq<Action>)
    ensures IsTrace(s, actions) && Unspawning(After(s, actions))
    ensures After(s, actions).lock == s.lock
    ensures HoldersSteps(actions)
    decreases Held(s)
  {
    if q: nat :| q in Held(s) {
      var t := Do(s, Inside(q, Spawns));
      assert Held(t) == Held(s) - {q};
      var rest := QueuesAreReleased(t);
      TraceFirst(s, Inside(q, Spawns), rest);
      actions := [Inside(q, Spawns)] + rest;
    } else {
      actions := [];
      forall q: nat | q < |s.peers|
        ensures !s.peers[q].box.spawning
      {
        assert q !in Held(s);
      }
    }
  }

  lemma HolderFinishes(s: State) returns (actions: seq<Action>)
    requires Invariant(s) && Unspawning(s) && !s.lock.Free?
    ensures IsTrace(s, actions) && HoldersSteps(actions)
    ensures After(s, actions).lock.Free? && Unspawning(After(s, actions))
  {
    assert StageOk(s, s.lock.p) && HandlerOk(s, s.lock.p);
    if s.lock.Joins? || s.lock.Leaves? {
      actions := [if s.lock.Joins? then TellJoined else TellLeft];
      assert actions[1..] == [];
    } else {
      var h := s.peers[s.lock.p].handler;
      actions := AnnounceAll(s, s.lock.p, h.event, h.left);
    }
    var looks := QueuesAreReleased(After(s, actions));
    TraceConcat(s, actions, looks);
    actions := actions + looks;
  }

  /** From every reachable state m_peersMutex can be released by those who hold mutexes alone:
      no coroutine, socket or other peer has to help, and neither a full queue nor a socket that
      has gone is in the way. The step that offers the last message gives the lock up in the model;
      the mutex is free once the look at the socket that belongs to the same section is over. */
  lemma PeersMutexIsReleased(limit: nat, past: seq<Action>) returns (actions: seq<Action>)
    requires IsTrace(Initial(limit), past)
    ensures IsTrace(After(Initial(limit), past), actions)
    ensures HoldersSteps(actions)
    ensures var t := After(After(Initial(limit), past), actions);
      t.lock.Free? && Unspawning(t)
  {
    var s := After(Initial(limit), past);
    RunKeepsInvariant(Initial(limit), past);
    actions := QueuesAreReleased(s);
    var t := After(s, actions);
    if !t.lock.Free? {
      RunKeepsInvariant(s, actions);
      var rest := HolderFinishes(t);
      TraceConcat(s, actions, rest);
      actions := actions + rest;
    }
  }

  lemma {:induction false} OnePeersSteps(p: nat, steps: seq<Step>)
    ensures forall i :: 0 <= i < |Insides(p, steps)| ==> Insides(p, steps)[i].Inside? && Insides(p, steps)[i].p == p
  {
    if steps != [] {
      OnePeersSteps(p, steps[1..]);
    }
  }

  /** From every reachable state, a peer whose socket is open can be sent its whole backlog, in
      order, without a step of anybody else. */
  lemma BacklogIsSent(limit: nat, past: seq<Action>, p: nat) returns (actions: seq<Action>)
    requires IsTrace(Initial(limit), past)
    requires p < |After(Initial(limit), past).peers| && After(Initial(limit), past).peers[p].box.socket
    ensures var s := After(Initial(limit), past);
      && IsTrace(s, actions) && p < |After(s, actions).peers|
      && After(s, actions).peers[p].box.pending == []
      && Wire(After(s, actions).peers[p].box) == s.peers[p].box.popped + s.peers[p].box.pending
    ensures forall i :: 0 <= i < |actions| ==> actions[i].Inside? && actions[i].p == p
  {
    var s := After(Initial(limit), past);
    RunKeepsInvariant(Initial(limit), past);
    assert BoxOk(s, p);
    var steps := BacklogCanBeSent(s.peers[p].box);
    InsideRun(s, p, steps);
    OnePeersSteps(p, steps);
    actions := Insides(p, steps);
  }
}
