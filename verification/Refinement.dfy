/** The objects refine the session protocol: methods run on a Session and its Peers end in objects
    that represent the protocol state which the protocol's own account of the call gives. */
module Refinement {
  import opened Messages
  import opened Mailboxes
  import opened PingRules
  import opened Protocol
  import opened ProtocolInvariant
  import opened Sequential
  import P = PeerSession

  /** `objects` are all the peers ever made for the session, in the order of their ids. */
  ghost predicate Kept(session: P.Session, objects: seq<P.Peer>)
    reads session, objects
  {
    && session.peerIdCounter == |objects|
    && (forall p :: 0 <= p < |objects| ==>
          objects[p].session == session && objects[p].peerId == p && objects[p].Valid())
    && (forall i :: i in session.peers ==> 0 <= i < |objects| && session.peers[i] == objects[i])
  }

  lemma MembersAreMapped(session: P.Session, objects: seq<P.Peer>)
    requires session.Valid() && Kept(session, objects)
    ensures forall q :: 0 <= q < |objects| ==> (objects[q] in session.peers.Values <==> q in session.peers)
    ensures session.peers.Values <= (set o | o in objects)
  {
    forall q | 0 <= q < |objects| && q in session.peers
      ensures objects[q] in session.peers.Values
    {
      assert session.peers[q] in session.peers.Values;
    }
    forall o | o in session.peers.Values
      ensures o in objects
    {
      assert objects[o.peerId] == o;
    }
  }

  lemma HostIsKept(session: P.Session, objects: seq<P.Peer>)
    requires session.Valid() && Kept(session, objects)
    ensures session.host != null ==>
              0 <= session.host.peerId < |objects| && objects[session.host.peerId] == session.host
  {
  }

  // ----- what each call does to every peer that the session ever had -----

  ghost function ForwardedView(v: P.PeerView, sends: bool, receives: bool, m: Message, times: nat): (w: P.PeerView)
    ensures w.pings == v.pings
  {
    if sends then v.(issued := v.issued + 1) else if receives then P.Queued(v, m, times) else v
  }

  method Broadcast(session: P.Session, objects: seq<P.Peer>, p: nat, data: Option<string>)
    requires session.Valid() && Kept(session, objects) && p < |objects|
    modifies objects
    ensures session.Valid() && Kept(session, objects)
    ensures forall q :: 0 <= q < |objects| ==>
              objects[q].View() == ForwardedView(old(objects[q].View()), q == p, q in session.peers,
                                                 Text(p, old(objects[p].issued), data), P.Times(P.Everyone, p, q))
  {
    MembersAreMapped(session, objects);
    hide P.Queued, P.Times;
    var _ := objects[p].HandleBroadcast(data);
  }

  method Direct(session: P.Session, objects: seq<P.Peer>, p: nat, data: Option<string>, ids: seq<Option<int>>)
    requires session.Valid() && Kept(session, objects) && p < |objects| && ids != []
    modifies objects
    ensures session.Valid() && Kept(session, objects)
    ensures forall q :: 0 <= q < |objects| ==>
              objects[q].View() == ForwardedView(old(objects[q].View()), q == p, q in session.peers,
                                                 Text(p, old(objects[p].issued), data), P.Times(P.Listed(ids), p, q))
  {
    MembersAreMapped(session, objects);
    hide P.Queued, P.Times;
    var _ := objects[p].HandleDirectMessage(Some(P.DirectBody(Some(ids), data)));
  }

  method ToHost(session: P.Session, objects: seq<P.Peer>, p: nat, data: Option<string>)
    requires session.Valid() && Kept(session, objects) && p < |objects|
    requires session.host != null && session.host.peerId != p
    modifies objects
    ensures session.Valid() && Kept(session, objects)
    ensures forall q :: 0 <= q < |objects| ==>
              objects[q].View() == ForwardedView(old(objects[q].View()), q == p, q in session.peers,
                                                 Text(p, old(objects[p].issued), data),
                                                 P.Times(P.Only(session.host.peerId), p, q))
  {
    MembersAreMapped(session, objects);
    hide P.Queued, P.Times;
    var _ := objects[p].HandleClientMessage(data);
  }

  ghost function AnnouncedView(v: P.PeerView, sends: bool, receives: bool, e: Message): (w: P.PeerView)
    ensures w.pings == v.pings
  {
    var sent := if sends then v.(issued := v.issued + 1) else v;
    if receives then P.Queued(sent, e, 1) else sent
  }

  method Announce(session: P.Session, objects: seq<P.Peer>, p: nat, data: Option<string>)
    requires session.Valid() && Kept(session, objects) && p < |objects|
    modifies session, objects
    ensures session.Valid() && Kept(session, objects)
    ensures session.peers == old(session.peers) && session.host == old(session.host)
    ensures session.synchronizedEventId == old(session.synchronizedEventId) + 1
    ensures session.pingCurrentTimestamp == old(session.pingCurrentTimestamp)
    ensures var e := Event(old(session.synchronizedEventId), p, old(objects[p].issued), data);
      forall q :: 0 <= q < |objects| ==>
        objects[q].View() == AnnouncedView(old(objects[q].View()), q == p, q in session.peers, e)
  {
    MembersAreMapped(session, objects);
    hide P.Queued;
    var _ := objects[p].HandleSynchronizedEvent(data);
  }

  ghost function ArrivedView(v: P.PeerView, isHost: bool, p: nat): (w: P.PeerView)
    ensures w.pings == v.pings
  {
    if isHost then P.Queued(v, Joined(p), 1) else v
  }

  method Add(session: P.Session, objects: seq<P.Peer>, peer: P.Peer, asHost: bool)
    requires session.Valid() && peer.Valid() && peer.session == session
    requires session.peerIdCounter == |objects| + 1 && peer.peerId == |objects|
    requires forall p :: 0 <= p < |objects| ==>
               objects[p].session == session && objects[p].peerId == p && objects[p].Valid()
    requires forall i :: i in session.peers ==> 0 <= i < |objects| && session.peers[i] == objects[i]
    requires asHost ==> session.host == null
    modifies session, objects, peer
    ensures session.Valid() && Kept(session, objects + [peer])
    ensures session.peers == old(session.peers)[|objects| := peer]
    ensures session.host == if asHost then peer else old(session.host)
    ensures session.synchronizedEventId == old(session.synchronizedEventId)
    ensures session.pingCurrentTimestamp == old(session.pingCurrentTimestamp)
    ensures peer.View() == P.Queued(old(peer.View()), Hello(|objects|, asHost), 1)
    ensures forall q :: 0 <= q < |objects| ==>
              objects[q].View() == ArrivedView(old(objects[q].View()), objects[q] == old(session.host), |objects|)
  {
    hide P.Queued, P.Peer.Valid;
    ghost var h := if session.host == null then |objects| else session.host.peerId;
    assert session.host != null ==> objects[h] == session.host;
    session.AddPeer(peer, asHost);
    ghost var all := objects + [peer];
    assert peer == session.peers[|objects|];
    forall q | 0 <= q < |all|
      ensures all[q].session == session && all[q].peerId == q && all[q].Valid()
    {
      if q == h || q == |objects| {
        assert session.peers[q] in session.peers.Values;
      }
    }
  }

  method Arrive(session: P.Session, objects: seq<P.Peer>, asHost: bool) returns (peer: P.Peer)
    requires session.Valid() && Kept(session, objects) && (asHost ==> session.host == null)
    modifies session, objects
    ensures fresh(peer) && session.Valid() && Kept(session, objects + [peer])
    ensures session.peers == old(session.peers)[|objects| := peer]
    ensures session.host == if asHost then peer else old(session.host)
    ensures session.synchronizedEventId == old(session.synchronizedEventId)
    ensures session.pingCurrentTimestamp == old(session.pingCurrentTimestamp)
    ensures peer.box == P.EnqueueTimes(Fresh(session.config.maxQueuedMessages), Hello(|objects|, asHost), 1)
    ensures peer.issued == 0 && peer.View().pings == UNTESTED
    ensures forall q :: 0 <= q < |objects| ==>
              objects[q].View() == ArrivedView(old(objects[q].View()), objects[q] == old(session.host), |objects|)
  {
    HostIsKept(session, objects);
    hide P.Session.Valid, P.Peer.Valid, P.Queued;
    var id := session.GenerateNewPeerId();
    peer := new P.Peer(session, id);
    Add(session, objects, peer, asHost);
  }

  method Invalidate(session: P.Session, objects: seq<P.Peer>, p: nat)
    requires session.Valid() && Kept(session, objects) && p < |objects|
    modifies objects
    ensures session.Valid() && Kept(session, objects)
    ensures forall q :: 0 <= q < |objects| ==>
              objects[q].View() == if q == p
                                   then old(objects[q].View()).(box := Emptied(Disconnected(old(objects[q].box))))
                                   else old(objects[q].View())
  {
    hide Emptied, Disconnected, P.Peer.Valid;
    objects[p].InvalidateSocket();
  }

  method Turn(session: P.Session, objects: seq<P.Peer>, p: nat, ghost i: nat)
    requires session.Valid() && Kept(session, objects) && p < |objects|
    requires i < |objects[p].box.drainers| && objects[p].box.drainers[i].Ready?
    modifies objects
    ensures session.Valid() && Kept(session, objects)
    ensures forall q :: 0 <= q < |objects| ==>
              objects[q].View() == if q == p then old(objects[q].View()).(box := Turned(old(objects[q].box), i))
                                   else old(objects[q].View())
  {
    hide Turned, P.Peer.Valid;
    var _ := objects[p].Act(i);
  }

  ghost method SendEnds(session: P.Session, objects: seq<P.Peer>, p: nat, i: nat, ok: bool)
    requires session.Valid() && Kept(session, objects) && p < |objects|
    requires i < |objects[p].box.drainers| && objects[p].box.drainers[i].Sending?
    modifies objects
    ensures session.Valid() && Kept(session, objects)
    ensures forall q :: 0 <= q < |objects| ==>
              objects[q].View() == if q == p then old(objects[q].View()).(box := Sent(old(objects[q].box), i, ok))
                                   else old(objects[q].View())
  {
    hide Sent, P.Peer.Valid;
    objects[p].SendEnds(i, ok);
  }

  method Remove(session: P.Session, objects: seq<P.Peer>, p: nat)
    requires session.Valid() && Kept(session, objects) && p < |objects|
    modifies session, objects
    ensures session.Valid() && Kept(session, objects)
    ensures session.peers == old(session.peers) - {p}
    ensures session.host == if old(session.host) == objects[p] then null else old(session.host)
    ensures session.synchronizedEventId == old(session.synchronizedEventId)
    ensures session.pingCurrentTimestamp == old(session.pingCurrentTimestamp)
    ensures forall q :: 0 <= q < |objects| ==>
              objects[q].View() == if objects[q] == old(session.host) && q != p
                                   then P.Queued(old(objects[q].View()), Left(p), 1)
                                   else old(objects[q].View())
  {
    hide P.Queued, P.Session.Valid, P.Peer.Valid, P.Peer.View;
    HostIsKept(session, objects);
    var _ := session.RemovePeerById(p);
  }

  ghost function DepartedView(v: P.PeerView, leaves: bool, isHost: bool, p: nat): (w: P.PeerView)
    ensures w.pings == v.pings
  {
    if leaves then v.(box := Emptied(Disconnected(v.box))) else if isHost then P.Queued(v, Left(p), 1) else v
  }

  method Depart(session: P.Session, objects: seq<P.Peer>, p: nat)
    requires session.Valid() && Kept(session, objects) && p < |objects|
    modifies session, objects
    ensures session.Valid() && Kept(session, objects)
    ensures session.peers == old(session.peers) - {p}
    ensures session.host == if old(session.host) == objects[p] then null else old(session.host)
    ensures session.synchronizedEventId == old(session.synchronizedEventId)
    ensures session.pingCurrentTimestamp == old(session.pingCurrentTimestamp)
    ensures forall q :: 0 <= q < |objects| ==>
              objects[q].View() == DepartedView(old(objects[q].View()), q == p, objects[q] == old(session.host), p)
  {
    hide P.Queued, Emptied, Disconnected, Kept, P.Session.Valid, P.Peer.Valid;
    Invalidate(session, objects, p);
    Remove(session, objects, p);
  }

  // ----- the calls refine the protocol -----

  ghost predicate Matches(v: P.PeerView, x: Peer) {
    v.box == x.box && v.issued == x.issued
  }

  ghost function HostObject(objects: seq<P.Peer>, host: Option<nat>): P.Peer? {
    if host.Some? && host.value < |objects| then objects[host.value] else null
  }

  /** The session and its peers show what the protocol's state says of queues, issued messages,
      members, host and event counter. */
  ghost predicate Represents(session: P.Session, objects: seq<P.Peer>, s: State)
    reads session, objects
  {
    && Kept(session, objects)
    && session.config.maxQueuedMessages == s.limit
    && session.synchronizedEventId == s.nextEvent
    && |objects| == |s.peers|
    && (forall p :: 0 <= p < |objects| ==> Matches(objects[p].View(), s.peers[p]))
    && (forall p :: 0 <= p < |objects| ==> (p in session.peers <==> p in s.members))
    && session.host == HostObject(objects, s.host)
  }

  /** All of Represents, from its parts. */
  lemma Shown(session: P.Session, objects: seq<P.Peer>, s: State)
    requires Kept(session, objects) && session.config.maxQueuedMessages == s.limit
    requires session.synchronizedEventId == s.nextEvent && |objects| == |s.peers|
    requires forall p :: 0 <= p < |objects| ==> Matches(objects[p].View(), s.peers[p])
    requires forall p :: 0 <= p < |objects| ==> (p in session.peers <==> p in s.members)
    requires session.host == HostObject(objects, s.host)
    ensures Represents(session, objects, s)
  {
  }

  lemma ForwardMatches(s: State, a: Action, q: nat, v: P.PeerView, receives: bool)
    requires Forwards(a) && Can(s, a) && q < |s.peers| && Matches(v, s.peers[q]) && receives == (q in s.members)
    ensures Matches(ForwardedView(v, q == a.p, receives, NextText(s, a.p, a.data), P.Times(AudienceOf(s, a), a.p, q)),
                    ForwardedTo(s, a, q))
  {
  }

  /** One of the three forwarding handlers, with its contract in the protocol's terms. */
  method Forward(session: P.Session, objects: seq<P.Peer>, a: Action, ghost s: State)
    requires session.Valid() && Represents(session, objects, s) && HostOk(s)
    requires Forwards(a) && Can(s, a)
    modifies objects
    ensures a.p < |objects| && session.Valid() && Kept(session, objects)
    ensures forall q :: 0 <= q < |objects| ==>
              objects[q].View() == ForwardedView(old(objects[q].View()), q == a.p, q in session.peers,
                                                 NextText(s, a.p, a.data), P.Times(AudienceOf(s, a), a.p, q))
  {
    hide P.Times, P.Queued, ForwardedView, HostOk;
    assert s.host.Some? ==> s.host.value < |s.peers| by {
      RevealHost(s);
    }
    assert Matches(objects[a.p].View(), s.peers[a.p]);
    if a.Broadcast? {
      Broadcast(session, objects, a.p, a.data);
    } else if a.Direct? {
      Direct(session, objects, a.p, a.data, a.ids);
    } else {
      ToHost(session, objects, a.p, a.data);
    }
  }

  lemma RevealHost(s: State)
    requires HostOk(s)
    ensures s.host.Some? ==> s.host.value < |s.peers|
  {
  }

  method RunForward(session: P.Session, objects: seq<P.Peer>, a: Action, ghost s: State)
    requires session.Valid() && Represents(session, objects, s) && HostOk(s)
    requires Forwards(a) && Can(s, a)
    modifies objects
    ensures session.Valid() && Represents(session, objects, Forwarded(s, a))
    ensures session.pingCurrentTimestamp == old(session.pingCurrentTimestamp)
    ensures forall q :: 0 <= q < |objects| ==> objects[q].View().pings == old(objects[q].View()).pings
  {
    hide P.Session.Valid, P.Peer.Valid, HostOk, Can, ForwardedView, ForwardedTo, P.Times, AudienceOf, NextText;
    Forward(session, objects, a, s);
    forall q: nat | q < |objects|
      ensures Matches(objects[q].View(), ForwardedTo(s, a, q))
    {
      ForwardMatches(s, a, q, old(objects[q].View()), q in session.peers);
    }
  }

  lemma AnnounceMatches(x: Peer, v: P.PeerView, sends: bool, receives: bool, e: Message)
    requires Matches(v, x)
    ensures Matches(AnnouncedView(v, sends, receives, e), EventDone(x, sends, receives, e))
  {
  }

  lemma EventSentFields(s: State, p: nat, data: Option<string>)
    requires p < |s.peers|
    ensures var t := EventSent(s, p, data);
      && t.limit == s.limit && t.members == s.members && t.host == s.host && t.nextEvent == s.nextEvent + 1
      && |t.peers| == |s.peers|
      && forall q :: 0 <= q < |s.peers| ==>
           t.peers[q] == EventDone(s.peers[q], q == p, q in s.members, NextEvent(s, p, data))
  {
  }

  method RunAnnounce(session: P.Session, objects: seq<P.Peer>, p: nat, data: Option<string>, ghost s: State)
    requires session.Valid() && Represents(session, objects, s) && Resting(s, p)
    modifies session, objects
    ensures session.Valid() && Represents(session, objects, EventSent(s, p, data))
    ensures session.pingCurrentTimestamp == old(session.pingCurrentTimestamp)
    ensures forall q :: 0 <= q < |objects| ==> objects[q].View().pings == old(objects[q].View()).pings
  {
    EventSentFields(s, p, data);
    assert Matches(objects[p].View(), s.peers[p]);
    ghost var e, t := NextEvent(s, p, data), EventSent(s, p, data);
    assert e == Event(session.synchronizedEventId, p, objects[p].issued, data);
    forall q: nat | q < |objects|
      ensures Matches(AnnouncedView(objects[q].View(), q == p, q in session.peers, e), t.peers[q])
    {
      AnnounceMatches(s.peers[q], objects[q].View(), q == p, q in session.peers, e);
    }
    assert session.host == HostObject(objects, t.host) && |objects| == |t.peers|;
    assert session.config.maxQueuedMessages == t.limit && session.synchronizedEventId + 1 == t.nextEvent;
    assert forall q :: 0 <= q < |objects| ==> (q in session.peers <==> q in t.members);
    hide EventSent, EventDone, AnnouncedView, NextEvent, Resting, Matches, Represents, Kept, HostObject,
      P.Session.Valid, P.Peer.View;
    Announce(session, objects, p, data);
    Shown(session, objects, t);
  }

  lemma JoinedStateFields(s: State, asHost: bool)
    requires s.host.Some? ==> s.host.value < |s.peers|
    ensures var p, t := |s.peers|, JoinedState(s, asHost);
      && t.limit == s.limit && t.members == s.members + {p} && t.nextEvent == s.nextEvent
      && t.host == (if asHost then Some(p) else s.host)
      && |t.peers| == p + 1
      && t.peers[p].box == P.EnqueueTimes(Fresh(s.limit), Hello(p, asHost), 1) && t.peers[p].issued == 0
      && (forall q :: 0 <= q < p ==>
            t.peers[q].issued == s.peers[q].issued
            && t.peers[q].box == if s.host == Some(q) then P.EnqueueTimes(s.peers[q].box, Joined(p), 1)
                                 else s.peers[q].box)
  {
    P.EnqueueAgain(Fresh(s.limit), Hello(|s.peers|, asHost));
    if s.host.Some? {
      P.EnqueueAgain(s.peers[s.host.value].box, Joined(|s.peers|));
    }
  }

  lemma ShownWithNewcomer(session: P.Session, objects: seq<P.Peer>, peer: P.Peer, s: State)
    requires Kept(session, objects + [peer]) && session.config.maxQueuedMessages == s.limit
    requires session.synchronizedEventId == s.nextEvent && |objects| + 1 == |s.peers|
    requires Matches(peer.View(), s.peers[|objects|])
    requires forall p :: 0 <= p < |objects| ==> Matches(objects[p].View(), s.peers[p])
    requires |objects| in session.peers && |objects| in s.members
    requires forall p :: 0 <= p < |objects| ==> (p in session.peers <==> p in s.members)
    requires session.host == HostObject(objects + [peer], s.host)
    ensures Represents(session, objects + [peer], s)
  {
    var all := objects + [peer];
    assert forall p :: 0 <= p < |all| ==> all[p] == if p < |objects| then objects[p] else peer;
  }

  method RunArrive(session: P.Session, objects: seq<P.Peer>, asHost: bool, ghost s: State) returns (peer: P.Peer)
    requires session.Valid() && Represents(session, objects, s) && HostOk(s)
    requires Can(s, Connect(asHost))
    modifies session, objects
    ensures fresh(peer) && session.Valid() && Represents(session, objects + [peer], JoinedState(s, asHost))
    ensures session.pingCurrentTimestamp == old(session.pingCurrentTimestamp)
    ensures forall q :: 0 <= q < |objects| ==> objects[q].View().pings == old(objects[q].View()).pings
    ensures peer.View().pings == UNTESTED
  {
    JoinedStateFields(s, asHost);
    ghost var p, t := |objects|, JoinedState(s, asHost);
    assert asHost ==> s.host.None?;
    forall q: nat | q < p
      ensures Matches(ArrivedView(objects[q].View(), objects[q] == session.host, p), t.peers[q])
      ensures objects[q] == session.host <==> s.host == Some(q)
    {
      assert Matches(objects[q].View(), s.peers[q]);
    }
    assert forall q :: 0 <= q < p ==> (q in session.peers <==> q in s.members);
    assert p == |s.peers| && |t.peers| == p + 1 && session.synchronizedEventId == t.nextEvent;
    assert session.config.maxQueuedMessages == s.limit == t.limit;
    assert session.host == HostObject(objects, s.host) && (s.host.Some? ==> s.host.value < p);
    hide JoinedState, HostOk, Can, P.EnqueueTimes, ArrivedView, Matches, Represents, Kept, P.Session.Valid, P.Peer.View;
    peer := Arrive(session, objects, asHost);
    ObjectMatches(peer, t.peers[p]);
    NewHost(objects, peer, s.host, asHost);
    hide HostObject;
    assert forall q :: 0 <= q < p ==> (q in session.peers <==> q in t.members);
    ShownWithNewcomer(session, objects, peer, t);
  }

  lemma NewHost(objects: seq<P.Peer>, o: P.Peer, host: Option<nat>, asHost: bool)
    requires host.Some? ==> host.value < |objects|
    ensures HostObject(objects + [o], if asHost then Some(|objects|) else host)
         == if asHost then o else HostObject(objects, host)
  {
  }

  lemma ObjectMatches(o: P.Peer, x: Peer)
    requires o.box == x.box && o.issued == x.issued
    ensures Matches(o.View(), x)
  {
  }

  lemma LeftStateFields(s: State, p: nat)
    requires p < |s.peers| && (s.host.Some? ==> s.host.value < |s.peers|)
    ensures var t := LeftState(s, p);
      && t.limit == s.limit && t.members == s.members - {p} && t.nextEvent == s.nextEvent
      && t.host == HostWithout(s, p) && |t.peers| == |s.peers|
      && (forall q :: 0 <= q < |s.peers| ==>
            t.peers[q].issued == s.peers[q].issued
            && t.peers[q].box == if q == p then Emptied(Disconnected(s.peers[q].box))
                                 else if s.host == Some(q) then P.EnqueueTimes(s.peers[q].box, Left(p), 1)
                                 else s.peers[q].box)
  {
    if s.host.Some? {
      P.EnqueueAgain(s.peers[s.host.value].box, Left(p));
    }
  }

  method RunDepart(session: P.Session, objects: seq<P.Peer>, p: nat, ghost s: State)
    requires session.Valid() && Represents(session, objects, s) && HostOk(s)
    requires p < |objects|
    modifies session, objects
    ensures session.Valid() && Represents(session, objects, LeftState(s, p))
    ensures session.pingCurrentTimestamp == old(session.pingCurrentTimestamp)
    ensures forall q :: 0 <= q < |objects| ==> objects[q].View().pings == old(objects[q].View()).pings
  {
    LeftStateFields(s, p);
    ghost var t := LeftState(s, p);
    forall q: nat | q < |objects|
      ensures Matches(DepartedView(objects[q].View(), q == p, objects[q] == session.host, p), t.peers[q])
      ensures objects[q] == session.host <==> s.host == Some(q)
    {
      assert Matches(objects[q].View(), s.peers[q]);
    }
    assert forall q :: 0 <= q < |objects| ==> (q in session.peers <==> q in s.members);
    hide LeftState, HostOk, DepartedView, Matches, Represents, Kept, P.Session.Valid;
    Depart(session, objects, p);
    Shown(session, objects, t);
  }

  method RunTurn(session: P.Session, objects: seq<P.Peer>, p: nat, ghost i: nat, ghost s: State)
    requires session.Valid() && Represents(session, objects, s)
    requires p < |objects| && Enabled(s.peers[p].box, Turns(i))
    modifies objects
    ensures session.Valid() && Represents(session, objects, WithBox(s, p, Turned(s.peers[p].box, i)))
    ensures session.pingCurrentTimestamp == old(session.pingCurrentTimestamp)
    ensures forall q :: 0 <= q < |objects| ==> objects[q].View().pings == old(objects[q].View()).pings
  {
    assert Matches(objects[p].View(), s.peers[p]);
    Turn(session, objects, p, i);
  }

  ghost method RunSendEnds(session: P.Session, objects: seq<P.Peer>, p: nat, i: nat, ok: bool, s: State)
    requires session.Valid() && Represents(session, objects, s)
    requires p < |objects| && Enabled(s.peers[p].box, Sends(i, ok))
    modifies objects
    ensures session.Valid() && Represents(session, objects, WithBox(s, p, Sent(s.peers[p].box, i, ok)))
    ensures session.pingCurrentTimestamp == old(session.pingCurrentTimestamp)
    ensures forall q :: 0 <= q < |objects| ==> objects[q].View().pings == old(objects[q].View()).pings
  {
    assert Matches(objects[p].View(), s.peers[p]);
    SendEnds(session, objects, p, i, ok);
  }

  method RunInvalidate(session: P.Session, objects: seq<P.Peer>, p: nat, ghost s: State)
    requires session.Valid() && Represents(session, objects, s) && p < |objects|
    modifies objects
    ensures session.Valid()
    ensures Represents(session, objects, WithBox(s, p, Emptied(Disconnected(s.peers[p].box))))
    ensures session.pingCurrentTimestamp == old(session.pingCurrentTimestamp)
    ensures forall q :: 0 <= q < |objects| ==> objects[q].View().pings == old(objects[q].View()).pings
  {
    assert Matches(objects[p].View(), s.peers[p]);
    Invalidate(session, objects, p);
  }

  // ----- rounds of pings, and messages that the protocol does not speak of -----

  ghost function CheckedIfMember(v: P.PeerView, isMember: bool, round: int, max: nat): P.PeerView {
    if isMember then P.CheckedView(v, round, max) else v
  }

  method CheckPings(session: P.Session, objects: seq<P.Peer>)
    requires session.Valid() && Kept(session, objects)
    modifies objects
    ensures session.Valid() && Kept(session, objects)
    ensures forall q :: 0 <= q < |objects| ==>
              objects[q].View() == CheckedIfMember(old(objects[q].View()), q in session.peers,
                                                   session.pingCurrentTimestamp, session.config.maxFailedPings)
  {
    MembersAreMapped(session, objects);
    hide P.CheckedView;
    session.CheckAllPeersPings();
  }

  method SendPings(session: P.Session, objects: seq<P.Peer>, now: int)
    requires session.Valid() && Kept(session, objects)
    modifies session, objects
    ensures session.Valid() && Kept(session, objects)
    ensures session.peers == old(session.peers) && session.host == old(session.host)
    ensures session.synchronizedEventId == old(session.synchronizedEventId) && session.pingCurrentTimestamp == now
    ensures forall q :: 0 <= q < |objects| ==>
              objects[q].View() == if q in session.peers then P.Noticed(old(objects[q].View()), P.PingNotice(now), 1)
                                   else old(objects[q].View())
  {
    MembersAreMapped(session, objects);
    hide P.Noticed;
    session.PingAllPeers(now);
  }

  ghost function AnsweredPing(x: PeerPing, message: P.Incoming, current: int, now: int): PeerPing {
    if message.Pong? && message.timestamp.Some?
    then Ponged(x, message.timestamp.value,
                if message.timestamp.value == current then now - message.timestamp.value else -1)
    else x
  }

  method OverhearPong(session: P.Session, objects: seq<P.Peer>, p: nat, timestamp: Option<int>, now: int)
    requires session.Valid() && Kept(session, objects) && p < |objects|
    modifies session, objects
    ensures session.Valid() && Kept(session, objects)
    ensures session.peers == old(session.peers) && session.host == old(session.host)
    ensures session.synchronizedEventId == old(session.synchronizedEventId)
    ensures session.pingCurrentTimestamp == old(session.pingCurrentTimestamp)
    ensures forall q :: 0 <= q < |objects| ==>
              objects[q].box == old(objects[q].box) && objects[q].issued == old(objects[q].issued)
    ensures forall q :: 0 <= q < |objects| ==>
              objects[q].View().pings == if q == p
                                         then AnsweredPing(old(objects[q].View()).pings, P.Pong(timestamp),
                                                           session.pingCurrentTimestamp, now)
                                         else old(objects[q].View()).pings
  {
    MembersAreMapped(session, objects);
    hide Ponged;
    var _ := objects[p].HandleMessage(P.Pong(timestamp), now);
    forall q: nat | q < |objects| && q != p
      ensures objects[q].box == old(objects[q].box) && objects[q].issued == old(objects[q].issued)
      ensures objects[q].View().pings == old(objects[q].View()).pings
    {
      assert q in session.peers ==> objects[q] in session.peers.Values;
    }
  }

  method OverhearRefusal(session: P.Session, objects: seq<P.Peer>, p: nat, message: P.Incoming, now: int)
    requires session.Valid() && Kept(session, objects) && p < |objects|
    requires objects[p].TurnsDown(message)
    modifies session, objects
    ensures session.Valid() && Kept(session, objects)
    ensures session.peers == old(session.peers) && session.host == old(session.host)
    ensures session.synchronizedEventId == old(session.synchronizedEventId)
    ensures session.pingCurrentTimestamp == old(session.pingCurrentTimestamp)
    ensures forall q :: 0 <= q < |objects| ==>
              objects[q].box == old(objects[q].box) && objects[q].issued == old(objects[q].issued)
    ensures forall q :: 0 <= q < |objects| ==> objects[q].View().pings == old(objects[q].View()).pings
  {
    MembersAreMapped(session, objects);
    hide P.Peer.TurnsDown;
    var _ := objects[p].HandleMessage(message, now);
    forall q: nat | q < |objects|
      ensures objects[q].box == old(objects[q].box) && objects[q].issued == old(objects[q].issued)
      ensures objects[q].View().pings == old(objects[q].View()).pings
    {
      assert q in session.peers ==> objects[q] in session.peers.Values;
    }
  }

  method OverhearKick(session: P.Session, objects: seq<P.Peer>, p: nat, ids: Option<seq<Option<int>>>, now: int)
    requires session.Valid() && Kept(session, objects) && p < |objects|
    modifies session, objects
    ensures session.Valid() && Kept(session, objects)
    ensures session.peers == old(session.peers) && session.host == old(session.host)
    ensures session.synchronizedEventId == old(session.synchronizedEventId)
    ensures session.pingCurrentTimestamp == old(session.pingCurrentTimestamp)
    ensures forall q :: 0 <= q < |objects| ==>
              objects[q].box == old(objects[q].box) && objects[q].issued == old(objects[q].issued)
    ensures forall q :: 0 <= q < |objects| ==> objects[q].View().pings == old(objects[q].View()).pings
  {
    MembersAreMapped(session, objects);
    hide P.Times, P.Noticed;
    var _ := objects[p].HandleMessage(P.KickClients(ids), now);
    forall q: nat | q < |objects|
      ensures objects[q].box == old(objects[q].box) && objects[q].issued == old(objects[q].issued)
      ensures objects[q].View().pings == old(objects[q].View()).pings
    {
      assert q in session.peers ==> objects[q] in session.peers.Values;
    }
  }

  /** A pong, a kick order or a refused message changes no queue, no membership, no host and no
      counter, and only a pong changes the sender's ping record. */
  method Overhear(session: P.Session, objects: seq<P.Peer>, p: nat, message: P.Incoming, now: int)
    requires session.Valid() && Kept(session, objects) && p < |objects|
    requires message.Pong? || message.KickClients? || objects[p].TurnsDown(message)
    modifies session, objects
    ensures session.Valid() && Kept(session, objects)
    ensures session.peers == old(session.peers) && session.host == old(session.host)
    ensures session.synchronizedEventId == old(session.synchronizedEventId)
    ensures session.pingCurrentTimestamp == old(session.pingCurrentTimestamp)
    ensures forall q :: 0 <= q < |objects| ==>
              objects[q].box == old(objects[q].box) && objects[q].issued == old(objects[q].issued)
    ensures forall q :: 0 <= q < |objects| ==>
              objects[q].View().pings == if q == p
                                         then AnsweredPing(old(objects[q].View()).pings, message,
                                                           session.pingCurrentTimestamp, now)
                                         else old(objects[q].View()).pings
  {
    hide Kept, P.Session.Valid, P.Peer.TurnsDown, Ponged;
    if message.Pong? {
      OverhearPong(session, objects, p, message.timestamp, now);
    } else if message.KickClients? {
      OverhearKick(session, objects, p, message.ids, now);
    } else {
      OverhearRefusal(session, objects, p, message, now);
    }
  }

  // ----- histories -----

  lemma ThreadsKnowTheHost(s: State)
    requires Threads(s)
    ensures HostOk(s)
  {
  }

  lemma SameLength(session: P.Session, objects: seq<P.Peer>, s: State)
    requires Represents(session, objects, s)
    ensures |objects| == |s.peers|
  {
  }

  method ExecuteQueue(session: P.Session, objects: seq<P.Peer>, c: Call, ghost s: State)
    requires session.Valid() && Represents(session, objects, s)
    requires MayCall(s, c) && (c.Pops? || c.Ends? || c.Invalidates?)
    modifies objects
    ensures session.Valid() && Represents(session, objects, Outcome(s, c))
    ensures session.pingCurrentTimestamp == old(session.pingCurrentTimestamp)
    ensures forall q :: 0 <= q < |objects| ==> objects[q].View().pings == old(objects[q].View()).pings
  {
    SameLength(session, objects, s);
    hide Represents, P.Session.Valid, Turned, Sent, Emptied, Disconnected, WithBox;
    if c.Pops? {
      RunTurn(session, objects, c.p, c.i, s);
    } else if c.Ends? {
      RunSendEnds(session, objects, c.p, c.i, c.ok, s);
    } else {
      RunInvalidate(session, objects, c.p, s);
    }
  }

  lemma CallFacts(s: State, c: Call)
    requires MayCall(s, c)
    ensures c.Asks? ==> Forwards(c.a) && Can(s, c.a) && Outcome(s, c) == Forwarded(s, c.a)
    ensures c.Announces? ==> Resting(s, c.p) && Outcome(s, c) == EventSent(s, c.p, c.data)
    ensures c.Arrives? ==> Can(s, Connect(c.asHost)) && Outcome(s, c) == JoinedState(s, c.asHost)
    ensures c.Departs? ==> c.p < |s.peers| && Outcome(s, c) == LeftState(s, c.p)
  {
  }

  /** Any call by or about a peer, run on the objects, ends in objects that represent its outcome
      in the protocol. */
  method Execute(session: P.Session, objects: seq<P.Peer>, c: Call, ghost s: State)
    requires session.Valid() && Represents(session, objects, s)
    requires Threads(s) && MayCall(s, c) && !c.Arrives? && !c.Drops?
    modifies session, objects
    ensures session.Valid() && Represents(session, objects, Outcome(s, c))
    ensures session.pingCurrentTimestamp == old(session.pingCurrentTimestamp)
    ensures forall q :: 0 <= q < |objects| ==> objects[q].View().pings == old(objects[q].View()).pings
  {
    ThreadsKnowTheHost(s);
    SameLength(session, objects, s);
    CallFacts(s, c);
    hide Can, Threads, HostOk, Represents, P.Session.Valid, Forwarded, EventSent, JoinedState, LeftState, MayCall,
      Outcome;
    if c.Asks? {
      RunForward(session, objects, c.a, s);
    } else if c.Announces? {
      RunAnnounce(session, objects, c.p, c.data, s);
    } else if c.Departs? {
      RunDepart(session, objects, c.p, s);
    } else {
      ExecuteQueue(session, objects, c, s);
    }
  }

  // ----- everything a session can be asked to do -----

  /** The protocol's state together with what it leaves out: every peer's ping record, the session's
      ping timestamp, and the failures allowed for. */
  datatype Situation = Situation(s: State, pings: seq<PeerPing>, current: int, max: nat)

  ghost predicate Shows(session: P.Session, objects: seq<P.Peer>, n: Situation)
    reads session, objects
  {
    && Represents(session, objects, n.s)
    && session.pingCurrentTimestamp == n.current && session.config.maxFailedPings == n.max
    && |n.pings| == |objects|
    && forall q :: 0 <= q < |objects| ==> objects[q].View().pings == n.pings[q]
  }

  /** A whole call, a round of checks, a round of pings, or a message that forwards nothing. */
  datatype Request =
    | Plain(c: Call)
    | ChecksPings
    | SendsPings(now: int)
    | Says(p: nat, message: P.Incoming, now: int)

  /** A pong, a kick order, or a message that is turned down. */
  ghost predicate Fruitless(s: State, p: nat, message: P.Incoming) {
    match message
    case NoCode => true
    case Pong(_) => true
    case Broadcast(_) => false
    case DirectMessage(body) => !P.Addressed(body)
    case SynchronizedEvent(_) => false
    case KickClients(_) => true
    case ClientMessage(_) => s.host.None? || s.host == Some(p)
    case OtherCode => true
  }

  ghost predicate May(n: Situation, r: Request) {
    match r
    case Plain(c) => MayCall(n.s, c) && !c.Drops?
    case ChecksPings => true
    case SendsPings(_) => true
    case Says(p, message, _) => p < |n.s.peers| && Fruitless(n.s, p, message)
  }

  /** The members that a round of checks drops. */
  ghost function Failing(n: Situation): set<nat> {
    set q: nat | q < |n.pings| && q < |n.s.peers| && q in n.s.members && TooMany(Checked(n.pings[q], n.current), n.max)
  }

  /** The call of the protocol that a request amounts to, if any. */
  ghost function CallOf(n: Situation, r: Request): Option<Call> {
    match r
    case Plain(c) => Some(c)
    case ChecksPings => Some(Drops(Failing(n)))
    case SendsPings(_) => None
    case Says(_, _, _) => None
  }

  ghost function PingsAfter(n: Situation, r: Request): seq<PeerPing> {
    match r
    case Plain(c) => if c.Arrives? then n.pings + [UNTESTED] else n.pings
    case ChecksPings =>
      seq(|n.pings|, q requires 0 <= q < |n.pings| =>
        if q in n.s.members then Checked(n.pings[q], n.current) else n.pings[q])
    case SendsPings(_) => n.pings
    case Says(p, message, now) =>
      if p < |n.pings| then n.pings[p := AnsweredPing(n.pings[p], message, n.current, now)] else n.pings
  }

  ghost function Next(n: Situation, r: Request): Situation
    requires May(n, r)
  {
    var c := CallOf(n, r);
    n.(s := if c.Some? then Outcome(n.s, c.value) else n.s,
       pings := PingsAfter(n, r),
       current := if r.SendsPings? then r.now else n.current)
  }

  lemma ChecksFields(n: Situation)
    requires |n.pings| == |n.s.peers|
    ensures var t := Next(n, ChecksPings);
      && t.s.limit == n.s.limit && t.s.members == n.s.members && t.s.host == n.s.host
      && t.s.nextEvent == n.s.nextEvent && t.current == n.current && t.max == n.max
      && |t.s.peers| == |t.pings| == |n.pings|
      && forall q :: 0 <= q < |n.pings| ==>
           var checked := Checked(n.pings[q], n.current);
           && t.s.peers[q] == DroppedPeer(n.s.peers[q], q in n.s.members && TooMany(checked, n.max))
           && t.pings[q] == if q in n.s.members then checked else n.pings[q]
  {
  }

  lemma CheckMatches(x: Peer, v: P.PeerView, isMember: bool, round: int, max: nat)
    requires Matches(v, x)
    ensures Matches(CheckedIfMember(v, isMember, round, max),
                    DroppedPeer(x, isMember && TooMany(Checked(v.pings, round), max)))
    ensures CheckedIfMember(v, isMember, round, max).pings == if isMember then Checked(v.pings, round) else v.pings
  {
  }

  method RunChecks(session: P.Session, objects: seq<P.Peer>, ghost n: Situation)
    requires session.Valid() && Shows(session, objects, n)
    modifies objects
    ensures session.Valid() && Shows(session, objects, Next(n, ChecksPings))
  {
    ghost var t := Next(n, ChecksPings);
    ChecksFields(n);
    hide Next, DroppedPeer, Checked, TooMany, CheckedIfMember;
    forall q: nat | q < |objects|
      ensures var w := CheckedIfMember(objects[q].View(), q in session.peers, n.current, n.max);
        Matches(w, t.s.peers[q]) && w.pings == t.pings[q]
    {
      CheckMatches(n.s.peers[q], objects[q].View(), q in session.peers, n.current, n.max);
    }
    assert session.host == HostObject(objects, t.s.host);
    assert forall q :: 0 <= q < |objects| ==> (q in session.peers <==> q in t.s.members);
    assert |objects| == |t.s.peers| && session.config.maxQueuedMessages == t.s.limit;
    hide Matches, Represents, P.Session.Valid, Kept, HostObject;
    CheckPings(session, objects);
    Shown(session, objects, t.s);
  }

  method RunPings(session: P.Session, objects: seq<P.Peer>, now: int, ghost n: Situation)
    requires session.Valid() && Shows(session, objects, n)
    modifies session, objects
    ensures session.Valid() && Shows(session, objects, Next(n, SendsPings(now)))
  {
    ghost var t := Next(n, SendsPings(now));
    assert session.host == HostObject(objects, t.s.host);
    assert forall q :: 0 <= q < |objects| ==> Matches(objects[q].View(), t.s.peers[q]);
    assert forall q :: 0 <= q < |objects| ==> (q in session.peers <==> q in t.s.members);
    assert t.s == n.s && t.pings == n.pings && t.current == now && t.max == n.max;
    hide Next, Represents, P.Session.Valid, Kept, HostObject, P.Noticed;
    SendPings(session, objects, now);
    Shown(session, objects, t.s);
  }

  lemma TurnedDown(session: P.Session, objects: seq<P.Peer>, s: State, p: nat, message: P.Incoming)
    requires session.Valid() && Represents(session, objects, s) && HostOk(s)
    requires p < |objects| && Fruitless(s, p, message)
    ensures message.Pong? || message.KickClients? || objects[p].TurnsDown(message)
  {
  }

  lemma SaysFields(n: Situation, p: nat, message: P.Incoming, now: int)
    requires p < |n.pings|
    requires May(n, Says(p, message, now))
    ensures var t := Next(n, Says(p, message, now));
      && t.s == n.s && t.current == n.current && t.max == n.max && |t.pings| == |n.pings|
      && forall q :: 0 <= q < |n.pings| ==>
           t.pings[q] == if q == p then AnsweredPing(n.pings[q], message, n.current, now) else n.pings[q]
  {
  }

  method RunSays(session: P.Session, objects: seq<P.Peer>, p: nat, message: P.Incoming, now: int, ghost n: Situation)
    requires session.Valid() && Shows(session, objects, n) && HostOk(n.s)
    requires May(n, Says(p, message, now))
    modifies session, objects
    ensures session.Valid() && Shows(session, objects, Next(n, Says(p, message, now)))
  {
    ghost var t := Next(n, Says(p, message, now));
    TurnedDown(session, objects, n.s, p, message);
    SaysFields(n, p, message, now);
    assert session.host == HostObject(objects, t.s.host) && |objects| == |t.s.peers|;
    assert session.config.maxQueuedMessages == t.s.limit && session.synchronizedEventId == t.s.nextEvent;
    forall q: nat | q < |objects|
      ensures objects[q].box == t.s.peers[q].box && objects[q].issued == t.s.peers[q].issued
    {
      assert Matches(objects[q].View(), t.s.peers[q]);
    }
    assert forall q :: 0 <= q < |objects| ==> (q in session.peers <==> q in t.s.members);
    hide Next, May, HostOk, P.Session.Valid, Kept, HostObject, AnsweredPing, Represents, Matches, P.Peer.View;
    Overhear(session, objects, p, message, now);
    forall q: nat | q < |objects|
      ensures Matches(objects[q].View(), t.s.peers[q])
    {
      ObjectMatches(objects[q], t.s.peers[q]);
    }
    Shown(session, objects, t.s);
  }

  lemma PlainFields(n: Situation, c: Call)
    requires May(n, Plain(c))
    ensures MayCall(n.s, c)
    ensures var t := Next(n, Plain(c));
      && t.s == Outcome(n.s, c) && t.current == n.current && t.max == n.max
      && t.pings == if c.Arrives? then n.pings + [UNTESTED] else n.pings
  {
  }

  method RunPlain(session: P.Session, objects: seq<P.Peer>, c: Call, ghost n: Situation)
    requires session.Valid() && Shows(session, objects, n) && Threads(n.s)
    requires May(n, Plain(c)) && !c.Arrives?
    modifies session, objects
    ensures session.Valid() && Shows(session, objects, Next(n, Plain(c)))
  {
    hide Next, Outcome, MayCall, Represents, P.Session.Valid, P.Peer.View, Threads;
    PlainFields(n, c);
    SameLength(session, objects, n.s);
    Execute(session, objects, c, n.s);
  }

  lemma ShowsNewcomer(session: P.Session, objects: seq<P.Peer>, peer: P.Peer, n: Situation)
    requires Represents(session, objects + [peer], n.s)
    requires session.pingCurrentTimestamp == n.current && session.config.maxFailedPings == n.max
    requires |n.pings| == |objects| + 1 && peer.View().pings == n.pings[|objects|]
    requires forall q :: 0 <= q < |objects| ==> objects[q].View().pings == n.pings[q]
    ensures Shows(session, objects + [peer], n)
  {
    hide Represents, P.Peer.View;
    var all := objects + [peer];
    assert forall q :: 0 <= q < |all| ==> all[q] == if q < |objects| then objects[q] else peer;
  }

  method RunNewcomer(session: P.Session, objects: seq<P.Peer>, c: Call, ghost n: Situation) returns (peer: P.Peer)
    requires session.Valid() && Shows(session, objects, n) && Threads(n.s)
    requires May(n, Plain(c)) && c.Arrives?
    modifies session, objects
    ensures fresh(peer) && session.Valid() && Shows(session, objects + [peer], Next(n, Plain(c)))
  {
    hide Next, May, Outcome, MayCall, Represents, P.Session.Valid, P.Peer.View, Threads, HostOk, Can, JoinedState;
    ThreadsKnowTheHost(n.s);
    PlainFields(n, c);
    CallFacts(n.s, c);
    SameLength(session, objects, n.s);
    peer := RunArrive(session, objects, c.asHost, n.s);
    ShowsNewcomer(session, objects, peer, Next(n, Plain(c)));
  }

  // ----- whatever a session is asked to do -----

  ghost predicate IsService(n: Situation, requests: seq<Request>)
    decreases |requests|
  {
    requests == [] || (May(n, requests[0]) && IsService(Next(n, requests[0]), requests[1..]))
  }

  ghost function EndOf(n: Situation, requests: seq<Request>): Situation
    requires IsService(n, requests)
    decreases |requests|
  {
    if requests == [] then n else EndOf(Next(n, requests[0]), requests[1..])
  }

  ghost function CallsOf(n: Situation, requests: seq<Request>): seq<Call>
    requires IsService(n, requests)
    decreases |requests|
  {
    if requests == [] then [] else
      var rest := CallsOf(Next(n, requests[0]), requests[1..]);
      var c := CallOf(n, requests[0]);
      if c.Some? then [c.value] + rest else rest
  }

  /** Serving requests is a history of calls of the protocol. */
  lemma {:induction false} ServiceIsHistory(n: Situation, requests: seq<Request>)
    requires IsService(n, requests)
    ensures IsHistory(n.s, CallsOf(n, requests))
    ensures Final(n.s, CallsOf(n, requests)) == EndOf(n, requests).s
    decreases |requests|
  {
    if requests != [] {
      var r := requests[0];
      assert CallOf(n, r).Some? ==> MayCall(n.s, CallOf(n, r).value);
      ServiceIsHistory(Next(n, r), requests[1..]);
      hide MayCall, Outcome;
      if CallOf(n, r).Some? {
        HistoryFirst(n.s, CallOf(n, r).value, CallsOf(Next(n, r), requests[1..]));
      }
    }
  }

  lemma NextKeeps(n: Situation, r: Request)
    requires Invariant(n.s) && Quiet(n.s) && May(n, r)
    ensures Invariant(Next(n, r).s) && Quiet(Next(n, r).s)
  {
    var c := CallOf(n, r);
    if c.Some? {
      assert MayCall(n.s, c.value);
      var actions := CallIsARun(n.s, c.value);
      RunKeepsInvariant(n.s, actions);
      CallStaysQuiet(n.s, c.value);
      hide MayCall, Outcome, Invariant, Quiet;
    }
  }

  lemma InvariantKnowsThreads(s: State)
    requires Invariant(s)
    ensures Threads(s) && HostOk(s)
  {
  }

  method ServeOne(session: P.Session, objects: seq<P.Peer>, r: Request, ghost n: Situation)
    requires session.Valid() && Shows(session, objects, n) && Threads(n.s) && HostOk(n.s)
    requires May(n, r) && !(r.Plain? && r.c.Arrives?)
    modifies session, objects
    ensures session.Valid() && Shows(session, objects, Next(n, r))
  {
    hide Shows, May, Next, P.Session.Valid, Threads, HostOk;
    match r {
      case Plain(c) => RunPlain(session, objects, c, n);
      case ChecksPings => RunChecks(session, objects, n);
      case SendsPings(now) => RunPings(session, objects, now, n);
      case Says(p, message, now) => RunSays(session, objects, p, message, now, n);
    }
  }

  lemma ServiceGoesOn(n: Situation, requests: seq<Request>)
    requires Invariant(n.s) && Quiet(n.s) && IsService(n, requests)
    ensures requests == [] ==> EndOf(n, requests) == n
    ensures requests != [] ==> Threads(n.s) && HostOk(n.s) && May(n, requests[0])
    ensures requests != [] ==>
              var t := Next(n, requests[0]);
              && Invariant(t.s) && Quiet(t.s) && IsService(t, requests[1..])
              && EndOf(n, requests) == EndOf(t, requests[1..])
  {
    if requests != [] {
      NextKeeps(n, requests[0]);
      InvariantKnowsThreads(n.s);
    }
  }

  method ServeAny(session: P.Session, objects: seq<P.Peer>, r: Request, ghost n: Situation) returns (all: seq<P.Peer>)
    requires session.Valid() && Shows(session, objects, n) && Threads(n.s) && HostOk(n.s) && May(n, r)
    modifies session, objects
    ensures forall q :: 0 <= q < |all| ==> fresh(all[q]) || (q < |objects| && all[q] == objects[q])
    ensures session.Valid() && Shows(session, all, Next(n, r))
  {
    hide Shows, May, Next, P.Session.Valid, Threads, HostOk;
    if r.Plain? && r.c.Arrives? {
      var peer := RunNewcomer(session, objects, r.c, n);
      all := objects + [peer];
    } else {
      ServeOne(session, objects, r, n);
      all := objects;
    }
  }

  method ServeEach(session: P.Session, objects: seq<P.Peer>, requests: seq<Request>, ghost n: Situation)
    returns (all: seq<P.Peer>)
    requires session.Valid() && Shows(session, objects, n)
    requires Invariant(n.s) && Quiet(n.s) && IsService(n, requests)
    modifies session, objects
    ensures session.Valid() && Shows(session, all, EndOf(n, requests))
    decreases |requests|
  {
    ServiceGoesOn(n, requests);
    hide Shows, May, Next, P.Session.Valid, Threads, HostOk, Invariant, Quiet, IsService, EndOf;
    if requests == [] {
      return objects;
    }
    ghost var t := Next(n, requests[0]);
    var present := ServeAny(session, objects, requests[0], n);
    all := ServeEach(session, present, requests[1..], t);
  }

  /** The methods refine the protocol. Whatever a session and its peers are asked to do, one request
      after the other — connections arriving and departing, messages of every kind, accepted or
      turned down, turns of coroutines, rounds of checks and of pings — the objects end up showing a
      state that some run of the protocol's steps reaches, so what is proved about every run of the
      protocol holds of the objects. */
  method ServeAll(session: P.Session, objects: seq<P.Peer>, requests: seq<Request>, ghost n: Situation)
    returns (all: seq<P.Peer>, ghost actions: seq<Action>)
    requires session.Valid() && Shows(session, objects, n)
    requires Invariant(n.s) && Quiet(n.s) && IsService(n, requests)
    modifies session, objects
    ensures session.Valid() && Shows(session, all, EndOf(n, requests))
    ensures IsTrace(n.s, actions) && After(n.s, actions) == EndOf(n, requests).s
    ensures Invariant(After(n.s, actions))
  {
    ServiceIsHistory(n, requests);
    actions := HistoryIsARun(n.s, CallsOf(n, requests));
    hide Shows, Invariant, Quiet, IsService, EndOf, IsTrace, P.Session.Valid;
    all := ServeEach(session, objects, requests, n);
  }

  /** A new session shows the protocol's initial state and has pinged nobody. */
  ghost function Outset(config: GameConfig): Situation {
    Situation(Initial(config.maxQueuedMessages), [], -1, config.maxFailedPings)
  }

  method Begin(id: string, config: GameConfig) returns (session: P.Session)
    ensures fresh(session) && session.config == config
    ensures session.Valid() && Shows(session, [], Outset(config))
  {
    session := new P.Session(id, config);
  }

  /** In particular, from a new session on. */
  method Serve(id: string, config: GameConfig, requests: seq<Request>)
    returns (session: P.Session, all: seq<P.Peer>, ghost actions: seq<Action>)
    requires IsService(Outset(config), requests)
    ensures session.Valid() && Shows(session, all, EndOf(Outset(config), requests))
    ensures IsTrace(Initial(config.maxQueuedMessages), actions)
    ensures After(Initial(config.maxQueuedMessages), actions) == EndOf(Outset(config), requests).s
  {
    session := Begin(id, config);
    hide Shows, P.Session.Valid, IsService, EndOf;
    all, actions := ServeAll(session, [], requests, Outset(config));
  }
}
