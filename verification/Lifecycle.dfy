/** Connections coming and going, with each connect and each disconnect callback as one step. */
module Lifecycle {
  import opened Messages
  import opened Games

  datatype Params = Params(gameId: Option<string>, sessionId: Option<string>, peerType: Option<string>)

  const HOST := "host"

  /** A Session object: the game and name it was created under, its members and its id counter. */
  datatype Session = Session(gameId: string, name: string, members: set<nat>, nextId: nat)

  /** A connection that was admitted: its Session object and peer id. */
  datatype Link = Link(session: nat, peer: nat, asHost: bool, open: bool)

  /** `sessions` and `links` hold every object ever made; a game's map refers to the former. */
  datatype State = State(
    configs: set<string>,
    games: map<string, Game<nat>>,
    sessions: seq<Session>,
    links: seq<Link>)

  function Initial(configs: set<string>): State {
    State(configs, map[], [], [])
  }

  datatype Verdict = Refused(error: ErrorCode) | Admitted(gameId: string, name: string, asHost: bool)

  /** getSessionForPeer's checks, in the order in which it makes them; `names` gives the sessions
      of every game made so far. */
  function Judge(configs: set<string>, names: map<string, set<string>>, p: Params): (v: Verdict)
    ensures v.Admitted? ==>
              && p.gameId == Some(v.gameId) && p.sessionId == Some(v.name)
              && p.peerType.Some? && v.asHost == (p.peerType.value == HOST)
  {
    if p.gameId.None? || p.sessionId.None? || p.peerType.None? then Refused(BadRequest)
    else
      var g, name, asHost := p.gameId.value, p.sessionId.value, p.peerType.value == HOST;
      if g !in names && g !in configs then Refused(GameNotFound)
      else
        var known := g in names && name in names[g];
        if asHost && known then Refused(OperationNotPermitted)
        else if !asHost && !known then Refused(SessionNotFound)
        else Admitted(g, name, asHost)
  }

  function Names(s: State): map<string, set<string>> {
    map g | g in s.games :: s.games[g].sessions.Keys
  }

  function VerdictOn(s: State, p: Params): Verdict {
    Judge(s.configs, Names(s), p)
  }

  /** getGameById: a configured game is made when it is first asked for. */
  function Opened(s: State, p: Params): State {
    if p.gameId.Some? && p.sessionId.Some? && p.peerType.Some? &&
       p.gameId.value !in s.games && p.gameId.value in s.configs
    then s.(games := s.games[p.gameId.value := NewGame()]) else s
  }

  /** onAfterCreate_NonBlocking. */
  function Connected(s: State, p: Params): State {
    var t := Opened(s, p);
    match VerdictOn(s, p)
    case Refused(_) => t
    case Admitted(g, name, asHost) =>
      if asHost then Founded(t, g, name)
      else if t.games[g].sessions[name] < |t.sessions| then Joined(t, t.games[g].sessions[name])
      else t
  }

  /** The host's connection makes the session and is its first peer. */
  function Founded(s: State, g: string, name: string): State
    requires g in s.games
  {
    s.(games := s.games[g := Created(s.games[g], name, |s.sessions|)],
       sessions := s.sessions + [Session(g, name, {0}, 1)],
       links := s.links + [Link(|s.sessions|, 0, true, true)])
  }

  function Joined(s: State, o: nat): State
    requires o < |s.sessions|
  {
    var x := s.sessions[o];
    s.(sessions := s.sessions[o := x.(members := x.members + {x.nextId}, nextId := x.nextId + 1)],
       links := s.links + [Link(o, x.nextId, false, true)])
  }

  /** onBeforeDestroy_NonBlocking: the last peer to leave deletes the session by its name. */
  function Disconnected(s: State, c: nat): State
    requires c < |s.links| && s.links[c].session < |s.sessions|
  {
    var l := s.links[c];
    var x := s.sessions[l.session];
    var left := x.members - {l.peer};
    var t := s.(sessions := s.sessions[l.session := x.(members := left)],
                links := s.links[c := l.(open := false)]);
    if left == {} && x.gameId in t.games
    then t.(games := t.games[x.gameId := Deleted(t.games[x.gameId], x.name)]) else t
  }

  datatype Step = Connects(p: Params) | Disconnects(c: nat) | PingerTurns(g: string)

  predicate Can(s: State, step: Step) {
    match step
    case Connects(_) => true
    case Disconnects(c) => c < |s.links| && s.links[c].open && s.links[c].session < |s.sessions|
    case PingerTurns(g) => g in s.games && s.games[g].pingers > 0
  }

  function Do(s: State, step: Step): State
    requires Can(s, step)
  {
    match step
    case Connects(p) => Connected(s, p)
    case Disconnects(c) => Disconnected(s, c)
    case PingerTurns(g) => s.(games := s.games[g := Turned(s.games[g])])
  }

  predicate IsRun(s: State, steps: seq<Step>)
    decreases |steps|
  {
    steps == [] || (Can(s, steps[0]) && IsRun(Do(s, steps[0]), steps[1..]))
  }

  function End(s: State, steps: seq<Step>): State
    requires IsRun(s, steps)
    decreases |steps|
  {
    if steps == [] then s else End(Do(s, steps[0]), steps[1..])
  }

  // ----- the invariant -----

  /** The game's map leads from the session's name to this object. */
  predicate Registered(s: State, o: nat)
    requires o < |s.sessions|
  {
    var x := s.sessions[o];
    x.gameId in s.games && x.name in s.games[x.gameId].sessions && s.games[x.gameId].sessions[x.name] == o
  }

  ghost predicate SessionsOk(s: State) {
    forall o :: 0 <= o < |s.sessions| ==>
      && (Registered(s, o) <==> s.sessions[o].members != {})
      && (forall m :: m in s.sessions[o].members ==> m < s.sessions[o].nextId)
  }

  ghost predicate GamesOk(s: State) {
    && (forall g :: g in s.games ==> Covered(s.games[g]))
    && (forall g, name :: g in s.games && name in s.games[g].sessions ==>
          var o := s.games[g].sessions[name];
          o < |s.sessions| && s.sessions[o].gameId == g && s.sessions[o].name == name)
  }

  ghost predicate LinkOk(sessions: seq<Session>, l: Link) {
    && l.session < |sessions|
    && l.peer < sessions[l.session].nextId
    && (l.open ==> l.peer in sessions[l.session].members)
  }

  ghost predicate LinksOk(s: State) {
    && (forall c :: 0 <= c < |s.links| ==> LinkOk(s.sessions, s.links[c]))
    && (forall c, d | 0 <= c < |s.links| && 0 <= d < |s.links| && c != d
          :: s.links[c].session == s.links[d].session ==> s.links[c].peer != s.links[d].peer)
  }

  ghost predicate Inv(s: State) {
    SessionsOk(s) && GamesOk(s) && LinksOk(s)
  }

  lemma OpenedKeepsInv(s: State, p: Params)
    requires Inv(s)
    ensures Inv(Opened(s, p)) && VerdictOn(Opened(s, p), p) == VerdictOn(s, p)
    ensures VerdictOn(s, p).Admitted? ==> VerdictOn(s, p).gameId in Opened(s, p).games
  {
  }

  lemma FoundedKeepsInv(s: State, g: string, name: string)
    requires Inv(s) && g in s.games && name !in s.games[g].sessions
    ensures Inv(Founded(s, g, name))
  {
    var t := Founded(s, g, name);
    forall o | 0 <= o < |s.sessions|
      ensures Registered(t, o) <==> Registered(s, o)
    {
    }
    assert Registered(t, |s.sessions|);
    forall c | 0 <= c < |s.links|
      ensures LinkOk(t.sessions, t.links[c])
    {
      assert LinkOk(s.sessions, s.links[c]);
    }
  }

  lemma JoinedKeepsInv(s: State, o: nat)
    requires Inv(s) && o < |s.sessions| && Registered(s, o)
    ensures Inv(Joined(s, o))
  {
  }

  lemma DisconnectKeepsSessions(s: State, c: nat)
    requires Inv(s) && Can(s, Disconnects(c))
    ensures SessionsOk(Disconnected(s, c))
  {
    assert LinkOk(s.sessions, s.links[c]);
    hide LinksOk;
  }

  lemma DisconnectKeepsGames(s: State, c: nat)
    requires Inv(s) && Can(s, Disconnects(c))
    ensures GamesOk(Disconnected(s, c))
  {
    hide LinksOk, SessionsOk;
  }

  lemma DisconnectKeepsLinks(s: State, c: nat)
    requires Inv(s) && Can(s, Disconnects(c))
    ensures LinksOk(Disconnected(s, c))
  {
    hide SessionsOk, GamesOk;
  }

  lemma DisconnectKeepsInv(s: State, c: nat)
    requires Inv(s) && Can(s, Disconnects(c))
    ensures Inv(Disconnected(s, c))
  {
    DisconnectKeepsSessions(s, c);
    DisconnectKeepsGames(s, c);
    DisconnectKeepsLinks(s, c);
  }

  lemma TurnKeepsInv(s: State, g: string)
    requires Inv(s) && Can(s, PingerTurns(g))
    ensures Inv(Do(s, PingerTurns(g)))
  {
  }

  lemma StepKeepsInv(s: State, step: Step)
    requires Inv(s) && Can(s, step)
    ensures Inv(Do(s, step))
  {
    match step
    case Connects(p) =>
      OpenedKeepsInv(s, p);
      var v := VerdictOn(s, p);
      if v.Admitted? {
        var t := Opened(s, p);
        if v.asHost {
          FoundedKeepsInv(t, v.gameId, v.name);
        } else {
          JoinedKeepsInv(t, t.games[v.gameId].sessions[v.name]);
        }
      }
    case Disconnects(c) => DisconnectKeepsInv(s, c);
    case PingerTurns(g) => TurnKeepsInv(s, g);
  }

  lemma {:induction false} RunKeepsInv(s: State, steps: seq<Step>)
    requires Inv(s) && IsRun(s, steps)
    ensures Inv(End(s, steps))
    decreases |steps|
  {
    if steps != [] {
      StepKeepsInv(s, steps[0]);
      RunKeepsInv(Do(s, steps[0]), steps[1..]);
    }
  }

  // ----- theorems over every run -----

  /** A session is registered in its game exactly while it has a peer, and every registered
      session's game has its one pinger running. */
  lemma RegisteredIffInhabited(configs: set<string>, steps: seq<Step>, o: nat)
    requires IsRun(Initial(configs), steps) && o < |End(Initial(configs), steps).sessions|
    ensures var s := End(Initial(configs), steps);
      && (Registered(s, o) <==> s.sessions[o].members != {})
      && (Registered(s, o) ==> s.games[s.sessions[o].gameId].pingers == 1)
  {
    RunKeepsInv(Initial(configs), steps);
    var s := End(Initial(configs), steps);
    if Registered(s, o) {
      assert s.games[s.sessions[o].gameId].sessions != map[];
    }
  }

  /** After any past, a connection is admitted exactly if no parameter is missing, its game has been
      made or is configured, and the name is taken if it is to be a client and free if it is to be
      a host. A host's session is new; a client is added to the one that bears the name. */
  lemma AdmittedIff(configs: set<string>, steps: seq<Step>, p: Params)
    requires IsRun(Initial(configs), steps)
    ensures var s := End(Initial(configs), steps);
      var t := Do(s, Connects(p));
      var complete := p.gameId.Some? && p.sessionId.Some? && p.peerType.Some?;
      var taken := complete && p.gameId.value in s.games && p.sessionId.value in s.games[p.gameId.value].sessions;
      && (|t.links| == |s.links| + 1 <==>
            && complete && (p.gameId.value in s.games || p.gameId.value in configs)
            && (p.peerType.value == "host" <==> !taken))
      && (|t.links| != |s.links| + 1 ==>
            && t.links == s.links && t.sessions == s.sessions
            && forall g :: g in s.games ==> g in t.games && t.games[g] == s.games[g])
      && (|t.links| == |s.links| + 1 && p.peerType.value == "host" ==>
            && t.sessions == s.sessions + [Session(p.gameId.value, p.sessionId.value, {0}, 1)]
            && t.links == s.links + [Link(|s.sessions|, 0, true, true)]
            && p.gameId.value in t.games && t.games[p.gameId.value].pingers == 1
            && p.sessionId.value in t.games[p.gameId.value].sessions
            && t.games[p.gameId.value].sessions[p.sessionId.value] == |s.sessions|)
      && (|t.links| == |s.links| + 1 && p.peerType.value != "host" ==>
            && t.games == s.games
            && var o := s.games[p.gameId.value].sessions[p.sessionId.value];
               && o < |s.sessions|
               && t.links == s.links + [Link(o, s.sessions[o].nextId, false, true)]
               && t.sessions[o].members == s.sessions[o].members + {s.sessions[o].nextId})
  {
    RunKeepsInv(Initial(configs), steps);
    ConfigsNeverChange(Initial(configs), steps);
    hide SessionsOk, LinksOk;
  }

  lemma {:induction false} ConfigsNeverChange(s: State, steps: seq<Step>)
    requires IsRun(s, steps)
    ensures End(s, steps).configs == s.configs
    decreases |steps|
  {
    if steps != [] {
      ConfigsNeverChange(Do(s, steps[0]), steps[1..]);
    }
  }

  /** After any past, a disconnect takes the peer out of its session, and the session's name is
      given up exactly if nobody is left in it. */
  lemma ReleasedIff(configs: set<string>, steps: seq<Step>, c: nat)
    requires IsRun(Initial(configs), steps) && Can(End(Initial(configs), steps), Disconnects(c))
    ensures var s := End(Initial(configs), steps);
      var t, l := Do(s, Disconnects(c)), s.links[c];
      var x := s.sessions[l.session];
      && t.sessions == s.sessions[l.session := x.(members := x.members - {l.peer})]
      && t.links == s.links[c := l.(open := false)]
      && x.gameId in s.games && x.name in s.games[x.gameId].sessions
      && t.games.Keys == s.games.Keys
      && (forall g :: g in s.games && g != x.gameId ==> t.games[g] == s.games[g])
      && (x.members != {l.peer} ==> t.games == s.games)
      && (x.members == {l.peer} ==>
            t.games[x.gameId] == s.games[x.gameId].(sessions := s.games[x.gameId].sessions - {x.name}))
  {
    RunKeepsInv(Initial(configs), steps);
    var s := End(Initial(configs), steps);
    assert LinkOk(s.sessions, s.links[c]) && Registered(s, s.links[c].session);
    hide GamesOk, LinksOk;
  }

  /** At any time one game id and session name stand for at most one inhabited Session object,
      so all open connections admitted under that pair share it, under different peer ids. */
  lemma PeersShareTheirSession(configs: set<string>, steps: seq<Step>, c: nat, d: nat)
    requires IsRun(Initial(configs), steps)
    requires c < |End(Initial(configs), steps).links| && d < |End(Initial(configs), steps).links|
    ensures var s := End(Initial(configs), steps);
      var l, m := s.links[c], s.links[d];
      && l.session < |s.sessions| && m.session < |s.sessions|
      && (l.open && m.open
          && s.sessions[l.session].gameId == s.sessions[m.session].gameId
          && s.sessions[l.session].name == s.sessions[m.session].name
          ==> l.session == m.session && (c != d ==> l.peer != m.peer))
  {
    RunKeepsInv(Initial(configs), steps);
    var s := End(Initial(configs), steps);
    assert LinkOk(s.sessions, s.links[c]) && LinkOk(s.sessions, s.links[d]);
    if s.links[c].open && s.links[d].open {
      assert Registered(s, s.links[c].session) && Registered(s, s.links[d].session);
    }
  }

  ghost predicate HostIsPeerZero(s: State) {
    && (forall c :: 0 <= c < |s.links| ==> (s.links[c].asHost <==> s.links[c].peer == 0))
    && (forall o :: 0 <= o < |s.sessions| ==> s.sessions[o].nextId >= 1)
  }

  lemma {:induction false} HostStaysPeerZero(s: State, steps: seq<Step>)
    requires HostIsPeerZero(s) && IsRun(s, steps)
    ensures HostIsPeerZero(End(s, steps))
    decreases |steps|
  {
    if steps != [] {
      HostStaysPeerZero(Do(s, steps[0]), steps[1..]);
    }
  }

  /** A Session object has at most one connection in the host role: the one that created it. */
  lemma OneHostPerSession(configs: set<string>, steps: seq<Step>, c: nat, d: nat)
    requires IsRun(Initial(configs), steps)
    requires c < |End(Initial(configs), steps).links| && d < |End(Initial(configs), steps).links|
    ensures var t := End(Initial(configs), steps);
      t.links[c].session == t.links[d].session && t.links[c].asHost && t.links[d].asHost ==> c == d
  {
    RunKeepsInv(Initial(configs), steps);
    HostStaysPeerZero(Initial(configs), steps);
  }
}
