/** The Game and Registry objects. */
module GameServer {
  import opened Messages
  import opened PingRules
  import opened PeerSession
  import opened Mailboxes
  import Games
  import Lifecycle

  class Game {
    const config: GameConfig

    var sessions: map<string, Session>
    var isPingerActive: bool
    var pingers: nat             // Pinger coroutines that the executor runs

    ghost function View(): Games.Game<Session>
      reads this
    {
      Games.Game(sessions, isPingerActive, pingers)
    }

    /** Every session is stored under its own name with the game's settings, and there is one
        pinger whenever there are sessions. */
    ghost predicate Valid()
      reads this
    {
      && Games.Covered(View())
      && forall n :: n in sessions ==> sessions[n].id == n && sessions[n].config == config
    }

    constructor (config: GameConfig)
      ensures this.config == config && Valid() && View() == Games.NewGame()
      ensures sessions == map[] && !isPingerActive && pingers == 0
    {
      this.config := config;
      sessions, isPingerActive, pingers := map[], false, 0;
    }

    method StartPinger()
      modifies `isPingerActive, `pingers
      ensures isPingerActive
      ensures pingers == if old(isPingerActive) then old(pingers) else old(pingers) + 1
      ensures old(pingers == if isPingerActive then 1 else 0) ==> pingers == 1
    {
      if !isPingerActive {
        isPingerActive := true;
        pingers := pingers + 1;
      }
    }

    method CreateNewSession(sessionId: string) returns (session: Session?)
      requires Valid()
      modifies this
      ensures Valid()
      ensures sessionId in old(sessions) ==> session == null && View() == old(View())
      ensures sessionId !in old(sessions) ==>
                && session != null && fresh(session) && session.Valid() && session.id == sessionId
                && session.config == config && session.peers == map[] && session.host == null
                && session.peerIdCounter == 0
                && View() == Games.Created(old(View()), sessionId, session)
                && sessions == old(sessions)[sessionId := session] && isPingerActive && pingers == 1
    {
      if sessionId in sessions {
        return null;
      }
      session := new Session(sessionId, config);
      sessions := sessions[sessionId := session];
      StartPinger();
    }

    method FindSession(sessionId: string) returns (session: Session?)
      ensures session == if sessionId in sessions then sessions[sessionId] else null
      ensures Valid() && session != null ==> session.id == sessionId && session.config == config
    {
      session := if sessionId in sessions then sessions[sessionId] else null;
    }

    method DeleteSession(sessionId: string)
      requires Valid()
      modifies this
      ensures Valid() && View() == Games.Deleted(old(View()), sessionId)
      ensures sessions == old(sessions) - {sessionId}
      ensures isPingerActive == old(isPingerActive) && pingers == old(pingers)
    {
      sessions := sessions - {sessionId};
    }

    /** Pinger::act. All sessions are checked before any is pinged; `clock` is the reading each
        session takes. */
    method PingerTurn(clock: string -> int, ghost all: set<Peer>)
      requires Valid() && pingers > 0
      requires forall s :: s in sessions.Values ==> s.Valid() && s.peers.Values <= all
      requires forall p :: p in all ==> p.session in sessions.Values && p in p.session.peers.Values
      modifies this, sessions.Values, all
      ensures Valid() && View() == Games.Turned(old(View())) && sessions == old(sessions)
      ensures sessions == map[] ==> !isPingerActive && pingers == 0
      ensures sessions != map[] ==> isPingerActive && pingers == 1
      ensures forall s :: s in old(sessions).Values ==> s.Valid() && s.pingCurrentTimestamp == clock(s.id)
      ensures forall p :: p in all ==>
                p.View() == Noticed(CheckedView(old(p.View()), old(p.session.pingCurrentTimestamp),
                                                config.maxFailedPings),
                                    PingNotice(clock(p.session.id)), 1)
    {
      if sessions == map[] {
        isPingerActive := false;
        pingers := pingers - 1;
        return;
      }
      var order := Listing(sessions);
      CheckSessions(order, all, config.maxFailedPings);
      PingSessions(order, all, clock);
    }
  }

  method Listing(sessions: map<string, Session>) returns (order: seq<Session>)
    ensures forall s :: s in order <==> s in sessions.Values
    ensures forall i, j :: 0 <= i < j < |order| ==> order[i] != order[j]
  {
    order := [];
    var left := sessions.Values;
    while left != {}
      invariant left <= sessions.Values
      invariant forall s :: s in order ==> s in sessions.Values - left
      invariant forall s :: s in sessions.Values ==> s in left || s in order
      invariant forall i, j :: 0 <= i < j < |order| ==> order[i] != order[j]
      decreases left
    {
      var s :| s in left;
      left := left - {s};
      assert s !in order;
      order := order + [s];
    }
  }

  method CheckSessions(order: seq<Session>, ghost all: set<Peer>, ghost maxFailedPings: nat)
    requires forall i, j :: 0 <= i < j < |order| ==> order[i] != order[j]
    requires forall s :: s in order ==> s.Valid() && s.config.maxFailedPings == maxFailedPings && s.peers.Values <= all
    requires forall p :: p in all ==> p.session in order && p in p.session.peers.Values
    modifies all
    ensures forall s :: s in order ==> s.Valid()
    ensures forall p :: p in all ==>
              p.View() == CheckedView(old(p.View()), p.session.pingCurrentTimestamp, maxFailedPings)
  {
    for n := 0 to |order|
      invariant forall s :: s in order ==> s.Valid()
      invariant forall p :: p in all ==>
                  p.View() == if p.session in order[..n]
                              then CheckedView(old(p.View()), p.session.pingCurrentTimestamp, maxFailedPings)
                              else old(p.View())
    {
      assert order[n] !in order[..n];
      assert order[..n + 1] == order[..n] + [order[n]];
      order[n].CheckAllPeersPings();
    }
    assert order[..|order|] == order;
  }

  method PingSessions(order: seq<Session>, ghost all: set<Peer>, clock: string -> int)
    requires forall i, j :: 0 <= i < j < |order| ==> order[i] != order[j]
    requires forall s :: s in order ==> s.Valid() && s.peers.Values <= all
    requires forall p :: p in all ==> p.session in order && p in p.session.peers.Values
    modifies order, all
    ensures forall s :: s in order ==> s.Valid() && s.pingCurrentTimestamp == clock(s.id)
    ensures forall p :: p in all ==> p.View() == Noticed(old(p.View()), PingNotice(clock(p.session.id)), 1)
  {
    for n := 0 to |order|
      invariant forall s :: s in order ==> s.Valid() && s.peers == old(s.peers)
      invariant forall s :: s in order[..n] ==> s.pingCurrentTimestamp == clock(s.id)
      invariant forall p :: p in all ==>
                  p.View() == if p.session in order[..n]
                              then Noticed(old(p.View()), PingNotice(clock(p.session.id)), 1)
                              else old(p.View())
    {
      assert order[n] !in order[..n];
      assert order[..n + 1] == order[..n] + [order[n]];
      order[n].PingAllPeers(clock(order[n].id));
    }
    assert order[..|order|] == order;
  }

  /** What getSessionForPeer finds out. */
  datatype SessionInfo = SessionInfo(session: Session?, error: Option<ErrorCode>, isHost: bool)

  /** Each game's session map. */
  type Index = map<string, map<string, Session>>

  /** `live` is exactly the sessions in the index, each under its own name in the game that its
      settings belong to. */
  ghost predicate Indexed(index: Index, live: set<Session>) {
    && (forall g, n :: g in index && n in index[g] ==>
          index[g][n] in live && index[g][n].id == n && index[g][n].config.gameId == g)
    && (forall s :: s in live ==> Filed(index, s))
  }

  ghost predicate Filed(index: Index, s: Session) {
    s.config.gameId in index && s.id in index[s.config.gameId] && index[s.config.gameId][s.id] == s
  }

  lemma FileSession(index: Index, live: set<Session>, s: Session)
    requires Indexed(index, live)
    requires s.config.gameId in index && s.id !in index[s.config.gameId]
    ensures Indexed(index[s.config.gameId := index[s.config.gameId][s.id := s]], live + {s})
  {
  }

  lemma OpenGame(index: Index, live: set<Session>, g: string)
    requires Indexed(index, live) && g !in index
    ensures Indexed(index[g := map[]], live)
  {
  }

  lemma UnfileSession(index: Index, live: set<Session>, s: Session)
    requires Indexed(index, live) && s in live
    ensures Indexed(index[s.config.gameId := index[s.config.gameId] - {s.id}], live - {s})
  {
  }

  /** `connected` is exactly the peers of the live sessions, each of which has one; only a
      session that is being set up may have none. */
  ghost predicate Inhabited(live: set<Session>, connected: set<Peer>, newborn: Session?)
    reads live, connected
  {
    && (forall s :: s in live ==> (s != newborn ==> s.peers != map[]) && s.peers.Values <= connected && s.Valid())
    && (forall p :: p in connected ==>
          p.session in live && p.peerId in p.session.peers && p.session.peers[p.peerId] == p)
  }

  lemma NewbornIsAlone(live: set<Session>, connected: set<Peer>, s: Session)
    requires Inhabited(live, connected, null) && s.Valid() && s.peers == map[]
    ensures Inhabited(live + {s}, connected, s)
  {
  }

  class Registry {
    const configs: map<string, GameConfig>

    var games: map<string, Game>
    ghost var live: set<Session>     // the sessions registered in any game
    ghost var connected: set<Peer>   // their peers

    ghost function Sessions(): Index
      reads `games, games.Values
    {
      map g | g in games :: games[g].sessions
    }

    ghost function Names(): map<string, set<string>>
      reads this, games.Values
    {
      map g | g in games :: games[g].sessions.Keys
    }

    /** Games are stored under the ids of their settings. */
    ghost predicate GamesOk()
      reads `games, games.Values
    {
      && (forall g :: g in configs ==> configs[g].gameId == g)
      && (forall g :: g in games ==> g in configs && games[g].config == configs[g] && games[g].Valid())
    }

    ghost predicate Sound(newborn: Session?)
      reads this, games.Values, live, connected
    {
      GamesOk() && Indexed(Sessions(), live) && Inhabited(live, connected, newborn)
    }

    ghost predicate Valid()
      reads this, games.Values, live, connected
    {
      Sound(null)
    }

    constructor (configs: map<string, GameConfig>)
      requires forall g :: g in configs ==> configs[g].gameId == g
      ensures this.configs == configs && Valid() && games == map[] && live == {} && connected == {}
    {
      this.configs := configs;
      games, live, connected := map[], {}, {};
    }

    method GetGameById(gameId: string, ghost newborn: Session?) returns (game: Game?)
      requires Sound(newborn)
      modifies `games
      ensures Sound(newborn)
      ensures games.Keys == old(games.Keys) + if gameId in configs then {gameId} else {}
      ensures GameView(gameId) == old(GameView(gameId))
      ensures gameId in old(games) ==> games == old(games) && game == games[gameId]
      ensures gameId !in old(games) && gameId in configs ==>
                && game != null && fresh(game) && game.View() == Games.NewGame()
                && games == old(games)[gameId := game]
      ensures gameId !in old(games) && gameId !in configs ==> game == null && games == old(games)
      ensures game != null ==> game.config.gameId == gameId
    {
      hide Indexed, Inhabited, Games.Covered, Peer.Valid, Session.Valid;
      if gameId in games {
        return games[gameId];
      }
      if gameId in configs {
        game := new Game(configs[gameId]);
        OpenGame(Sessions(), live, gameId);
        games := games[configs[gameId].gameId := game];
        assert Sessions() == old(Sessions())[gameId := map[]];
        assert GamesOk();
        return;
      }
      return null;
    }

    /** The host's side of getSessionForPeer: a new session, unless the name is taken. */
    method HostSession(game: Game, sessionId: string) returns (session: Session?)
      requires Valid()
      requires game.config.gameId in games && games[game.config.gameId] == game
      modifies `live, game
      ensures Sound(session)
      ensures sessionId in old(game.sessions) ==>
                session == null && live == old(live) && game.View() == old(game.View())
      ensures sessionId !in old(game.sessions) ==>
                && session != null && fresh(session) && session.peers == map[] && session.host == null
                && session.peerIdCounter == 0 && session.config == game.config && session.id == sessionId
                && live == old(live) + {session}
                && game.View() == Games.Created(old(game.View()), sessionId, session)
    {
      hide Indexed, Inhabited, Peer.Valid, Session.Valid, Games.Covered;
      session := game.CreateNewSession(sessionId);
      if session != null {
        FileSession(old(Sessions()), live, session);
        NewbornIsAlone(live, connected, session);
        live := live + {session};
        assert Sessions() ==
          old(Sessions())[game.config.gameId := old(Sessions())[game.config.gameId][sessionId := session]];
      } else {
        assert Sessions() == old(Sessions());
      }
    }

    /** The client's side: the session of that name, if there is one. */
    method ClientSession(game: Game, sessionId: string) returns (session: Session?)
      requires Valid()
      requires game.config.gameId in games && games[game.config.gameId] == game
      ensures session == if sessionId in game.sessions then game.sessions[sessionId] else null
      ensures session != null ==>
                session in live && session.id == sessionId && session.config.gameId == game.config.gameId
    {
      hide Inhabited;
      session := game.FindSession(sessionId);
      assert session != null ==> Sessions()[game.config.gameId][sessionId] == session;
    }

    /** The game that these parameters name, if it has been made. */
    ghost function Named(params: Lifecycle.Params): set<Game>
      reads this
    {
      if params.gameId.Some? && params.gameId.value in games then {games[params.gameId.value]} else {}
    }

    /** A game's state; one that has not been made yet is as good as a new one. */
    ghost function GameView(gameId: string): Games.Game<Session>
      reads `games, games.Values
    {
      if gameId in games then games[gameId].View() else Games.NewGame()
    }

    /** A game is made when it is first asked for, whatever becomes of the connection. */
    ghost function Opened(params: Lifecycle.Params): set<string>
      reads `games
    {
      if params.gameId.Some? && params.sessionId.Some? && params.peerType.Some? && params.gameId.value in configs
      then games.Keys + {params.gameId.value} else games.Keys
    }

    ghost function Verdict(params: Lifecycle.Params): (v: Lifecycle.Verdict)
      reads this, games.Values
      ensures v.Admitted? ==> params.gameId == Some(v.gameId) && params.sessionId == Some(v.name)
    {
      Lifecycle.Judge(configs.Keys, Names(), params)
    }

    method GetSessionForPeer(params: Lifecycle.Params) returns (info: SessionInfo)
      requires Valid()
      modifies `games, `live, Named(params)
      ensures Sound(if info.isHost then info.session else null)
      ensures games.Keys == old(Opened(params)) && forall g :: g in old(games) ==> games[g] == old(games[g])
      ensures old(Verdict(params)).Refused? && params.gameId.Some? ==>
                GameView(params.gameId.value) == old(GameView(params.gameId.value))
      ensures old(Verdict(params)).Refused? ==>
                info.session == null && info.error == Some(old(Verdict(params)).error) && live == old(live)
      ensures old(Verdict(params)).Admitted? ==>
                && info.error == None && info.isHost == old(Verdict(params)).asHost && info.session != null
                && info.session.config.gameId == old(Verdict(params)).gameId
                && info.session.id == old(Verdict(params)).name
                && live == old(live) + {info.session}
      ensures old(Verdict(params)).Admitted? ==>
                GameView(params.gameId.value) ==
                  (if info.isHost
                   then Games.Created(old(GameView(params.gameId.value)), params.sessionId.value, info.session)
                   else old(GameView(params.gameId.value)))
      ensures old(Verdict(params)).Admitted? && info.isHost ==>
                && fresh(info.session) && info.session.peers == map[] && info.session.host == null
                && info.session.peerIdCounter == 0
      ensures old(Verdict(params)).Admitted? && !info.isHost ==>
                info.session in old(live) && {info.session} == old(Found(params))
      ensures games.Keys == old(games.Keys) +
                (if params.gameId.Some? && params.sessionId.Some? && params.peerType.Some? &&
                    params.gameId.value in configs
                 then {params.gameId.value} else {})
      ensures info.error == Some(BadRequest) <==>
                params.gameId.None? || params.sessionId.None? || params.peerType.None?
      ensures info.error == Some(GameNotFound) <==>
                && params.gameId.Some? && params.sessionId.Some? && params.peerType.Some?
                && params.gameId.value !in old(games) && params.gameId.value !in configs
      ensures info.error == Some(OperationNotPermitted) <==>
                && params.gameId.Some? && params.sessionId.Some? && params.peerType == Some("host")
                && old(params.gameId.value in games && params.sessionId.value in games[params.gameId.value].sessions)
      ensures info.error == Some(SessionNotFound) <==>
                && params.gameId.Some? && params.sessionId.Some?
                && params.peerType.Some? && params.peerType.value != "host"
                && (params.gameId.value in old(games) || params.gameId.value in configs)
                && !old(params.gameId.value in games && params.sessionId.value in games[params.gameId.value].sessions)
      ensures info.error.None? <==>
                && params.gameId.Some? && params.sessionId.Some? && params.peerType.Some?
                && (params.gameId.value in old(games) || params.gameId.value in configs)
                && (params.peerType.value == "host" <==>
                      !old(params.gameId.value in games &&
                           params.sessionId.value in games[params.gameId.value].sessions))
      ensures info.error.None? <==> info.session != null
      ensures info.error.None? && params.peerType != Some("host") ==>
                info.session ==
                  old(if params.gameId.value in games &&
                         params.sessionId.value in games[params.gameId.value].sessions
                      then games[params.gameId.value].sessions[params.sessionId.value] else null)
      ensures params.peerType.Some? && info.error.None? ==> info.isHost == (params.peerType.value == "host")
      ensures info.error.None? && params.peerType == Some("host") ==>
                && params.gameId.value in games
                && games[params.gameId.value].sessions ==
                     old(if params.gameId.value in games then games[params.gameId.value].sessions else map[])
                     [params.sessionId.value := info.session]
    {
      hide Sound;
      if params.gameId.None? || params.sessionId.None? || params.peerType.None? {
        return SessionInfo(null, Some(BadRequest), false);
      }
      var isHost := params.peerType.value == Lifecycle.HOST;
      var game := GetGameById(params.gameId.value, null);
      if game == null {
        return SessionInfo(null, Some(GameNotFound), isHost);
      }
      if isHost {
        var session := HostSession(game, params.sessionId.value);
        return SessionInfo(session, if session == null then Some(OperationNotPermitted) else None, isHost);
      }
      var session := ClientSession(game, params.sessionId.value);
      return SessionInfo(session, if session == null then Some(SessionNotFound) else None, isHost);
    }

    /** The session that a client with these parameters joins, if there is one. */
    ghost function Found(params: Lifecycle.Params): set<Session>
      reads this, games.Values
    {
      if params.gameId.Some? && params.sessionId.Some? && params.gameId.value in games &&
         params.sessionId.value in games[params.gameId.value].sessions
      then {games[params.gameId.value].sessions[params.sessionId.value]} else {}
    }

    ghost function FoundHosts(params: Lifecycle.Params): set<Peer>
      reads this, games.Values, Found(params)
    {
      set s, h | s in Found(params) && h in s.HostSet() :: h
    }

    method Join(session: Session, isHost: bool) returns (peer: Peer)
      requires session in live && Sound(if isHost then session else null)
      requires isHost ==> session.host == null
      modifies `connected, session, session.HostSet()
      ensures Valid()
      ensures fresh(peer) && peer.session == session && peer.peerId == old(session.peerIdCounter)
      ensures connected == old(connected) + {peer}
      ensures session.peers == old(session.peers)[peer.peerId := peer]
      ensures session.host == if isHost then peer else old(session.host)
      ensures peer.View() == Queued(NewPeer(session.config), Hello(peer.peerId, isHost), 1)
      ensures old(session.host) != null ==>
                old(session.host).View() == Queued(old(session.host.View()), Joined(peer.peerId), 1)
    {
      hide Indexed, Inhabited;
      peer := Enroll(session, isHost, live, connected);
      connected := connected + {peer};
    }

    method OnAfterCreate(params: Lifecycle.Params) returns (peer: Peer?, error: Option<ErrorCode>)
      requires Valid()
      modifies `games, `live, `connected, Named(params), Found(params), FoundHosts(params)
      ensures Valid() && games.Keys == old(Opened(params))
      ensures old(Verdict(params)).Refused? && params.gameId.Some? ==>
                GameView(params.gameId.value) == old(GameView(params.gameId.value))
      ensures old(Verdict(params)).Refused? ==>
                && peer == null && error == Some(old(Verdict(params)).error)
                && live == old(live) && connected == old(connected)
      ensures old(Verdict(params)).Admitted? ==>
                && peer != null && fresh(peer) && error == None
                && peer.session.config.gameId == old(Verdict(params)).gameId
                && peer.session.id == old(Verdict(params)).name
                && connected == old(connected) + {peer} && live == old(live) + {peer.session}
                && peer.View() ==
                     Queued(NewPeer(peer.session.config), Hello(peer.peerId, old(Verdict(params)).asHost), 1)
      ensures old(Verdict(params)).Admitted? ==>
                GameView(params.gameId.value) ==
                  if old(Verdict(params)).asHost
                  then Games.Created(old(GameView(params.gameId.value)), params.sessionId.value, peer.session)
                  else old(GameView(params.gameId.value))
      ensures old(Verdict(params)).Admitted? && old(Verdict(params)).asHost ==>
                && fresh(peer.session) && peer.session.host == peer && peer.session.peers == map[0 := peer]
      ensures old(Verdict(params)).Admitted? && !old(Verdict(params)).asHost ==>
                forall s :: s in old(Found(params)) ==>
                  && s == peer.session && s.peers == old(s.peers)[peer.peerId := peer] && s.host == old(s.host)
                  && peer.peerId == old(s.peerIdCounter)
                  && (s.host != null ==> s.host.View() == Queued(old(s.host.View()), Joined(peer.peerId), 1))
      ensures games.Keys == old(games.Keys) +
                (if params.gameId.Some? && params.sessionId.Some? && params.peerType.Some? &&
                    params.gameId.value in configs
                 then {params.gameId.value} else {})
      ensures error == Some(BadRequest) <==>
                params.gameId.None? || params.sessionId.None? || params.peerType.None?
      ensures error == Some(GameNotFound) <==>
                && params.gameId.Some? && params.sessionId.Some? && params.peerType.Some?
                && params.gameId.value !in old(games) && params.gameId.value !in configs
      ensures error == Some(OperationNotPermitted) <==>
                && params.gameId.Some? && params.sessionId.Some? && params.peerType == Some("host")
                && old(params.gameId.value in games && params.sessionId.value in games[params.gameId.value].sessions)
      ensures error == Some(SessionNotFound) <==>
                && params.gameId.Some? && params.sessionId.Some?
                && params.peerType.Some? && params.peerType.value != "host"
                && (params.gameId.value in old(games) || params.gameId.value in configs)
                && !old(params.gameId.value in games && params.sessionId.value in games[params.gameId.value].sessions)
      ensures error.None? <==>
                && params.gameId.Some? && params.sessionId.Some? && params.peerType.Some?
                && (params.gameId.value in old(games) || params.gameId.value in configs)
                && (params.peerType.value == "host" <==>
                      !old(params.gameId.value in games &&
                           params.sessionId.value in games[params.gameId.value].sessions))
      ensures error.None? <==> peer != null
      ensures peer != null && params.peerType != Some("host") ==>
                peer.session ==
                  old(if params.gameId.value in games &&
                         params.sessionId.value in games[params.gameId.value].sessions
                      then games[params.gameId.value].sessions[params.sessionId.value] else null)
      ensures forall g :: g in old(games) ==> g in games && games[g] == old(games[g])
      ensures peer != null && params.peerType == Some("host") ==>
                && params.gameId.value in games
                && games[params.gameId.value].sessions ==
                     old(if params.gameId.value in games then games[params.gameId.value].sessions else map[])
                     [params.sessionId.value := peer.session]
    {
      hide Sound, Queued, Lifecycle.Judge, Games.Created, GameView, Opened, Verdict;
      var info := GetSessionForPeer(params);
      if info.error.Some? {
        return null, info.error;
      }
      error := None;
      peer := Join(info.session, info.isHost);
    }

    /** The game that a session belongs to. */
    ghost function GameOf(session: Session): set<Game>
      reads this
    {
      if session.config.gameId in games then {games[session.config.gameId]} else {}
    }

    lemma HasItsGame(peer: Peer)
      requires Valid() && peer in connected
      ensures peer.session.config.gameId in games
    {
      assert Filed(Sessions(), peer.session);
    }

    /** Closing the session that has lost its last peer. */
    method Close(session: Session)
      requires session in live && session.peers == map[] && Sound(session)
      modifies `games, `live, GameOf(session)
      ensures Valid() && games == old(games) && live == old(live) - {session}
      ensures GameView(session.config.gameId) == Games.Deleted(old(GameView(session.config.gameId)), session.id)
    {
      assert Filed(Sessions(), session);
      hide Sound;
      var game := GetGameById(session.config.gameId, session);
      Unlist(game, session);
    }

    method Unlist(game: Game, session: Session)
      requires session in live && session.peers == map[] && Sound(session)
      requires session.config.gameId in games && games[session.config.gameId] == game
      modifies `live, game
      ensures Valid() && live == old(live) - {session}
      ensures game.View() == Games.Deleted(old(game.View()), session.id)
    {
      hide Indexed, Inhabited, Games.Covered, Peer.Valid, Session.Valid;
      UnfileSession(Sessions(), live, session);
      NobodyLeft(live, connected, session);
      game.DeleteSession(session.id);
      live := live - {session};
      assert Sessions() ==
        old(Sessions())[session.config.gameId := old(Sessions())[session.config.gameId] - {session.id}];
    }

    method OnBeforeDestroy(peer: Peer?)
      requires Valid() && (peer != null ==> peer in connected)
      modifies `games, `live, `connected
      modifies (if peer == null then {} else GameOf(peer.session))
      modifies (if peer == null then {} else {peer.session})
      modifies (if peer == null then {} else {peer} + peer.session.HostSet())
      ensures Valid() && games == old(games)
      ensures peer == null ==> live == old(live) && connected == old(connected)
      ensures peer != null ==>
                && connected == old(connected) - {peer}
                && peer.session.peers == old(peer.session.peers) - {peer.peerId}
                && peer.session.host == (if old(peer.session.host) == peer then null else old(peer.session.host))
                && peer.View() == old(peer.View()).(box := Emptied(Disconnected(old(peer.box))))
                && (peer.session.host != null ==>
                      peer.session.host.View() == Queued(old(peer.session.host.View()), Left(peer.peerId), 1))
      ensures peer != null ==>
                && live == (if peer.session.peers == map[] then old(live) - {peer.session} else old(live))
                && GameView(peer.session.config.gameId) ==
                     if peer.session.peers == map[]
                     then Games.Deleted(old(GameView(peer.session.config.gameId)), peer.session.id)
                     else old(GameView(peer.session.config.gameId))
      ensures peer != null ==> peer.queue == [] && !peer.socket
      ensures peer != null ==>
                && peer.session.config.gameId in games
                && games[peer.session.config.gameId].sessions ==
                     if peer.session.peers == map[]
                     then old(games[peer.session.config.gameId].sessions) - {peer.session.id}
                     else old(games[peer.session.config.gameId].sessions)
    {
      hide Sound;
      if peer != null {
        HasItsGame(peer);
        var isEmpty := Part(peer);
        if isEmpty {
          Close(peer.session);
        }
      }
    }

    /** The part of onBeforeDestroy_NonBlocking that concerns the peer and its session. */
    method Part(peer: Peer) returns (isEmpty: bool)
      requires Valid() && peer in connected
      modifies `connected, peer, peer.session, peer.session.HostSet()
      ensures Sound(if isEmpty then peer.session else null) && peer.session in live
      ensures connected == old(connected) - {peer}
      ensures peer.session.peers == old(peer.session.peers) - {peer.peerId} && isEmpty == (peer.session.peers == map[])
      ensures peer.session.host == if old(peer.session.host) == peer then null else old(peer.session.host)
      ensures peer.View() == old(peer.View()).(box := Emptied(Disconnected(old(peer.box))))
      ensures peer.queue == [] && !peer.socket
      ensures peer.session.host != null ==>
                peer.session.host.View() == Queued(old(peer.session.host.View()), Left(peer.peerId), 1)
    {
      hide Indexed, Inhabited, GamesOk, Queued, Emptied, Disconnected, Peer.View, Session.Valid;
      isEmpty := Withdraw(peer, live, connected);
      connected := connected - {peer};
    }
  }

  /** The rest of onAfterCreate_NonBlocking: a peer for the connection, in its session; `others`
      are the remaining sessions. */
  method Admit(session: Session, isHost: bool, ghost others: set<Session>) returns (peer: Peer)
    requires session.Valid() && session !in others && forall s :: s in others ==> s.Valid()
    requires isHost ==> session.host == null
    modifies session, session.HostSet()
    ensures session.Valid() && forall s :: s in others ==> s.Valid()
    ensures fresh(peer) && peer.session == session && peer.peerId == old(session.peerIdCounter)
    ensures session.peers == old(session.peers)[peer.peerId := peer]
    ensures session.host == if isHost then peer else old(session.host)
    ensures peer.View() == Queued(NewPeer(session.config), Hello(peer.peerId, isHost), 1)
    ensures old(session.host) != null ==>
              old(session.host).View() == Queued(old(session.host.View()), Joined(peer.peerId), 1)
  {
    hide Inv, Queued;
    var id := session.GenerateNewPeerId();
    peer := new Peer(session, id);
    session.AddPeer(peer, isHost);
  }

  /** The same, with what it means for all sessions and peers. */
  method Enroll(session: Session, isHost: bool, ghost live: set<Session>, ghost connected: set<Peer>)
    returns (peer: Peer)
    requires session in live && Inhabited(live, connected, if isHost then session else null)
    requires isHost ==> session.host == null
    modifies session, session.HostSet()
    ensures fresh(peer) && Inhabited(live, connected + {peer}, null)
    ensures peer.session == session && peer.peerId == old(session.peerIdCounter)
    ensures session.peers == old(session.peers)[peer.peerId := peer]
    ensures session.host == if isHost then peer else old(session.host)
    ensures peer.View() == Queued(NewPeer(session.config), Hello(peer.peerId, isHost), 1)
    ensures old(session.host) != null ==>
              old(session.host).View() == Queued(old(session.host.View()), Joined(peer.peerId), 1)
  {
    hide Peer.Valid, Queued;
    ghost var others := live - {session};
    peer := Admit(session, isHost, others);
    forall p | p in connected
      ensures p.peerId in p.session.peers && p.session.peers[p.peerId] == p
    {
      assert p.session in others || p.peerId != peer.peerId;
    }
  }

  method Withdraw(peer: Peer, ghost live: set<Session>, ghost connected: set<Peer>) returns (isEmpty: bool)
    requires peer in connected && Inhabited(live, connected, null)
    modifies peer, peer.session, peer.session.HostSet()
    ensures Inhabited(live, connected - {peer}, if isEmpty then peer.session else null) && peer.session in live
    ensures peer.session.peers == old(peer.session.peers) - {peer.peerId} && isEmpty == (peer.session.peers == map[])
    ensures peer.session.host == if old(peer.session.host) == peer then null else old(peer.session.host)
    ensures peer.View() == old(peer.View()).(box := Emptied(Disconnected(old(peer.box))))
    ensures peer.queue == [] && !peer.socket
    ensures peer.session.host != null ==>
              peer.session.host.View() == Queued(old(peer.session.host.View()), Left(peer.peerId), 1)
  {
    hide Peer.Valid, Queued, Emptied, Disconnected;
    ghost var others := live - {peer.session};
    isEmpty := Leave(peer, others);
    forall p | p in connected - {peer}
      ensures p.peerId in p.session.peers && p.session.peers[p.peerId] == p
    {
      assert p.session in others || p.peerId != peer.peerId;
    }
    assert forall p :: p in peer.session.peers.Values ==> p in old(peer.session.peers.Values) && p != peer;
  }

  method Leave(peer: Peer, ghost others: set<Session>) returns (isEmpty: bool)
    requires peer.session.Valid() && peer.session !in others && forall s :: s in others ==> s.Valid()
    requires peer.peerId in peer.session.peers && peer.session.peers[peer.peerId] == peer
    modifies peer, peer.session, peer.session.HostSet()
    ensures peer.session.Valid() && forall s :: s in others ==> s.Valid()
    ensures peer.session.peers == old(peer.session.peers) - {peer.peerId} && isEmpty == (peer.session.peers == map[])
    ensures peer.session.host == if old(peer.session.host) == peer then null else old(peer.session.host)
    ensures peer.View() == old(peer.View()).(box := Emptied(Disconnected(old(peer.box))))
    ensures peer.queue == [] && !peer.socket
    ensures peer.session.host != null ==>
              peer.session.host.View() == Queued(old(peer.session.host.View()), Left(peer.peerId), 1)
  {
    hide Peer.Valid, Queued, Emptied, Disconnected;
    peer.InvalidateSocket();
    isEmpty := peer.session.RemovePeerById(peer.peerId);
  }

  lemma NobodyLeft(live: set<Session>, connected: set<Peer>, s: Session)
    requires Inhabited(live, connected, s) && s.peers == map[]
    ensures Inhabited(live - {s}, connected, null)
  {
  }

  ghost function NewPeer(config: GameConfig): PeerView {
    PeerView(Fresh(config.maxQueuedMessages), UNTESTED, [], 0)
  }
}
