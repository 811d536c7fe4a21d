/** The Peer and Session objects and the methods that update them, each run on its own: the
    protocol modules say what happens when their critical sections interleave. */
module PeerSession {
  import opened Messages
  import opened Mailboxes
  import opened PingRules
  import opened Frames
  import BestPing

  /** A parsed incoming message; a missing payload is None. */
  datatype Incoming =
    | NoCode
    | Pong(timestamp: Option<int>)
    | Broadcast(data: Option<string>)
    | DirectMessage(body: Option<DirectBody>)
    | SynchronizedEvent(data: Option<string>)
    | KickClients(ids: Option<seq<Option<int>>>)
    | ClientMessage(data: Option<string>)
    | OtherCode

  datatype DirectBody = DirectBody(peerIds: Option<seq<Option<int>>>, data: Option<string>)

  /** What a handler sends back to its own peer: nothing, or an error. */
  datatype Reply = NoReply | Error(code: ErrorCode, fatal: bool)

  /** Frames that bypass the queue: the executor is asked to send them at once. */
  datatype Notice = PingNotice(timestamp: int) | KickNotice

  function Reverse<T>(s: seq<T>): (r: seq<T>)
    ensures |r| == |s|
  {
    if s == [] then [] else Reverse(s[1..]) + [s[0]]
  }

  /** Taking the back of a list is taking the front of its reversal. */
  lemma {:induction false} ReverseBack<T>(s: seq<T>)
    requires s != []
    ensures Reverse(s) == [s[|s| - 1]] + Reverse(s[..|s| - 1])
  {
    if |s| > 1 {
      ReverseBack(s[1..]);
      assert s[1..][..|s| - 2] == s[..|s| - 1][1..];
    }
  }

  /** Whom a forwarded message is for. */
  datatype Audience = Everyone | Listed(ids: seq<Option<int>>) | Only(peerId: int)

  predicate Addressed(body: Option<DirectBody>) {
    body.Some? && body.value.peerIds.Some? && body.value.peerIds.value != []
  }

  /** How often peer `id` is offered a message of `sender`; never its own. */
  function Times(to: Audience, sender: int, id: int): nat {
    if id == sender then 0 else
      match to
      case Everyone => 1
      case Listed(ids) => Requested(ids, id)
      case Only(peerId) => if id == peerId then 1 else 0
  }

  datatype PeerView = PeerView(
    box: Mailbox,
    pings: PeerPing,
    notices: seq<Notice>,
    issued: nat)

  function EnqueueTimes(b: Mailbox, m: Message, n: nat): Mailbox {
    if n == 0 then b else Enqueue(EnqueueTimes(b, m, n - 1), m)
  }

  lemma EnqueueAgain(b: Mailbox, m: Message)
    ensures EnqueueTimes(b, m, 1) == Enqueue(b, m)
  {
  }

  lemma EnqueueFills(b: Mailbox, m: Message)
    ensures var c := Enqueue(b, m);
      && c.pending == (if |b.pending| < b.limit then b.pending + [m] else b.pending)
      && OfferedMsgs(c.offers) == OfferedMsgs(b.offers) + [m]
      && c.limit == b.limit && c.socket == b.socket && c.settled == b.settled && c.popped == b.popped
  {
  }

  /** Offering a message n times queues it as often as there is room for it, behind all others. */
  lemma {:induction false} EnqueueTimesFills(b: Mailbox, m: Message, n: nat)
    requires |b.pending| <= b.limit
    ensures var c := EnqueueTimes(b, m, n);
      && c.pending == b.pending + seq(Min(n, b.limit - |b.pending|), i => m)
      && OfferedMsgs(c.offers) == OfferedMsgs(b.offers) + seq(n, i => m)
      && c.limit == b.limit && c.socket == b.socket && c.settled == b.settled && c.popped == b.popped
  {
    if n > 0 {
      EnqueueTimesFills(b, m, n - 1);
      EnqueueFills(EnqueueTimes(b, m, n - 1), m);
      hide Enqueue, OfferedMsgs;
      assert seq(n, i => m) == seq(n - 1, i => m) + [m];
      var k := Min(n - 1, b.limit - |b.pending|);
      assert seq(k + 1, i => m) == seq(k, i => m) + [m];
    }
  }

  // What one operation does to a peer.

  ghost function Queued(v: PeerView, m: Message, times: nat): (w: PeerView)
    ensures w.pings == v.pings && w.notices == v.notices && (times == 0 ==> w == v)
  {
    v.(box := EnqueueTimes(v.box, m, times))
  }

  ghost function CheckedView(v: PeerView, round: int, maxFailedPings: nat): PeerView {
    var pings := Checked(v.pings, round);
    v.(pings := pings, box := if TooMany(pings, maxFailedPings) then Emptied(Disconnected(v.box)) else v.box)
  }

  ghost function Noticed(v: PeerView, n: Notice, times: nat): (w: PeerView)
    ensures w.box == v.box && w.pings == v.pings && w.issued == v.issued && (times == 0 ==> w == v)
    ensures |w.notices| == |v.notices| + if v.box.socket then times else 0
  {
    if v.box.socket then v.(notices := v.notices + seq(times, i => n)) else v
  }

  lemma NoticedAgain(v: PeerView, n: Notice, times: nat)
    ensures Noticed(v, n, 0) == v && Noticed(Noticed(v, n, times), n, 1) == Noticed(v, n, times + 1)
  {
    assert v.notices + seq(times, i => n) + seq(1, i => n) == v.notices + seq(times + 1, i => n);
  }

  // ----- what a peer is sent outside its queue -----

  /** A call on a peer that can send a notice or close its socket. */
  datatype PeerCall = Queues(m: Message) | Checks(round: int) | Pings(timestamp: int) | Kicks | Invalidates

  ghost function Called(v: PeerView, maxFailedPings: nat, c: PeerCall): PeerView {
    match c
    case Queues(m) => Queued(v, m, 1)
    case Checks(round) => CheckedView(v, round, maxFailedPings)
    case Pings(timestamp) => Noticed(v, PingNotice(timestamp), 1)
    case Kicks => Noticed(v, KickNotice, 1)
    case Invalidates => v.(box := Emptied(Disconnected(v.box)))
  }

  ghost function CalledAll(v: PeerView, maxFailedPings: nat, calls: seq<PeerCall>): PeerView
    decreases |calls|
  {
    if calls == [] then v else CalledAll(Called(v, maxFailedPings, calls[0]), maxFailedPings, calls[1..])
  }

  function Orders(c: PeerCall): seq<Notice> {
    if c.Pings? then [PingNotice(c.timestamp)] else if c.Kicks? then [KickNotice] else []
  }

  function Ordered(calls: seq<PeerCall>): seq<Notice> {
    if calls == [] then [] else Orders(calls[0]) + Ordered(calls[1..])
  }

  lemma CallSendsOrder(v: PeerView, maxFailedPings: nat, c: PeerCall)
    requires v.box.socket
    ensures Called(v, maxFailedPings, c).notices == v.notices + Orders(c)
  {
    assert forall n: Notice :: seq(1, i => n) == [n];
  }

  lemma {:induction false} ClosedForGood(v: PeerView, maxFailedPings: nat, calls: seq<PeerCall>)
    requires !v.box.socket
    ensures CalledAll(v, maxFailedPings, calls).notices == v.notices
    ensures !CalledAll(v, maxFailedPings, calls).box.socket
    decreases |calls|
  {
    if calls != [] {
      if calls[0].Queues? {
        EnqueueAgain(v.box, calls[0].m);
      }
      ClosedForGood(Called(v, maxFailedPings, calls[0]), maxFailedPings, calls[1..]);
    }
  }

  /** The pings and kicks that go out are those ordered before the socket is closed, in the order
      in which they were ordered; the socket is closed by the first invalidation or failed check
      and never reopened. */
  lemma {:induction false} NoticesUntilClosed(v: PeerView, maxFailedPings: nat, calls: seq<PeerCall>)
    returns (n: nat)
    requires v.box.socket
    ensures n <= |calls|
    ensures CalledAll(v, maxFailedPings, calls).notices == v.notices + Ordered(calls[..n])
    ensures CalledAll(v, maxFailedPings, calls).box.socket <==> n == |calls|
    ensures CalledAll(v, maxFailedPings, calls[..n]).box.socket
    ensures n < |calls| ==> !CalledAll(v, maxFailedPings, calls[..n + 1]).box.socket
    decreases |calls|
  {
    if calls == [] {
      n := 0;
    } else {
      var w := Called(v, maxFailedPings, calls[0]);
      CallSendsOrder(v, maxFailedPings, calls[0]);
      hide Called, Orders;
      if w.box.socket {
        var k := NoticesUntilClosed(w, maxFailedPings, calls[1..]);
        n := k + 1;
        assert calls[..n][1..] == calls[1..][..k];
        assert k < |calls[1..]| ==> calls[..n + 1][1..] == calls[1..][..k + 1];
      } else {
        n := 0;
        ClosedForGood(w, maxFailedPings, calls[1..]);
        assert calls[..1][1..] == [];
      }
    }
  }

  class BufferOutputStream {
    var data: seq<Byte>

    constructor ()
      ensures data == []
    {
      data := [];
    }
  }

  class Peer {
    const session: Session
    const peerId: int

    var queue: seq<Message>      // m_messageQueue->queue, front first: push_front, pop_back
    var active: bool
    var drainers: nat            // coroutines the executor runs on this queue
    var socket: bool             // m_socket is not null
    const messageBuffer: BufferOutputStream
    var pingTime: int
    var failedPings: nat
    var lastPingTimestamp: int
    var notices: seq<Notice>     // what the executor has been asked to send at once
    var issued: nat              // the model's serial number for this peer's own messages
    ghost var box: Mailbox

    /** The fields and the abstract mailbox agree, and the mailbox is in order. */
    ghost predicate Valid()
      reads this
    {
      && Inv(box) && !box.spawning
      && box.limit == session.config.maxQueuedMessages
      && box.pending == Reverse(queue)
      && box.active == active
      && box.socket == socket
      && |box.drainers| == drainers
    }

    ghost function Pings(): PeerPing
      reads this
    {
      PeerPing(failedPings, lastPingTimestamp, pingTime)
    }

    /** Everything about the peer but its input buffer, as one value. */
    ghost function View(): PeerView
      reads this
    {
      PeerView(box, Pings(), notices, issued)
    }

    constructor (session: Session, peerId: int)
      ensures this.session == session && this.peerId == peerId
      ensures Valid() && box == Fresh(session.config.maxQueuedMessages)
      ensures fresh(messageBuffer) && messageBuffer.data == [] && Pings() == UNTESTED && notices == [] && issued == 0
      ensures queue == [] && !active && drainers == 0 && socket
      ensures pingTime == -1 && failedPings == 0 && lastPingTimestamp == -1
    {
      this.session := session;
      this.peerId := peerId;
      queue, active, drainers, socket := [], false, 0, true;
      messageBuffer := new BufferOutputStream();
      pingTime, failedPings, lastPingTimestamp := -1, 0, -1;
      notices, issued := [], 0;
      box := Fresh(session.config.maxQueuedMessages);
    }

    method QueueMessage(message: Option<Message>) returns (taken: bool)
      requires Valid()
      modifies `queue, `active, `drainers, `box
      ensures Valid()
      ensures taken <==> message.Some? && |old(queue)| < session.config.maxQueuedMessages
      ensures queue == if taken then [message.value] + old(queue) else old(queue)
      ensures active == (old(active) || taken)
      ensures drainers == old(drainers) + if taken && !old(active) && socket then 1 else 0
      ensures View() == if message.Some? then Queued(old(View()), message.value, 1) else old(View())
    {
      hide Inv;
      if message.Some? {
        EnqueueAgain(box, message.value);
        EnqueueKeepsInv(box, message.value);
        if |queue| < session.config.maxQueuedMessages {
          queue := [message.value] + queue;
          if !active {
            active := true;
            if socket {
              drainers := drainers + 1;
            }
          }
          box := Enqueue(box, message.value);
          return true;
        }
        box := Enqueue(box, message.value);
      }
      return false;
    }

    /** SendMessageCoroutine::act of coroutine i: the message to send, or None to finish. */
    method Act(ghost i: nat) returns (next: Option<Message>)
      requires Valid() && i < |box.drainers| && box.drainers[i].Ready?
      modifies `queue, `active, `drainers, `box
      ensures Valid() && box == Turned(old(box), i)
      ensures old(queue) == [] ==> next == None && queue == [] && !active && drainers == old(drainers) - 1
      ensures old(queue) != [] ==>
                && next == Some(old(queue)[|old(queue)| - 1]) && queue == old(queue)[..|old(queue)| - 1]
                && active == old(active) && drainers == old(drainers)
    {
      StepKeepsInv(box, Turns(i));
      assert Inv(Turned(box, i));
      hide Inv;
      if queue == [] {
        active := false;
        drainers := drainers - 1;
        box := Turned(box, i);
        return None;
      }
      ReverseBack(queue);
      next := Some(queue[|queue| - 1]);
      queue := queue[..|queue| - 1];
      box := Turned(box, i);
    }

    /** The executor is done with coroutine i's send, well or badly, and will run its act again;
        no field of the peer changes. */
    ghost method SendEnds(i: nat, ok: bool)
      requires Valid() && i < |box.drainers| && box.drainers[i].Sending?
      modifies `box
      ensures Valid() && box == Sent(old(box), i, ok)
    {
      StepKeepsInv(box, Sends(i, ok));
      box := Sent(box, i, ok);
    }

    method InvalidateSocket()
      requires Valid()
      modifies `queue, `socket, `box
      ensures Valid() && box == Emptied(Disconnected(old(box)))
      ensures queue == [] && !socket
    {
      StepKeepsInv(box, Disconnects);
      StepKeepsInv(Disconnected(box), Clears);
      if socket {
        socket := false;
      }
      queue := [];
      box := Emptied(Disconnected(box));
    }

    method CheckPingsRules(currentPingSessionTimestamp: int)
      requires Valid()
      modifies `failedPings, `queue, `socket, `box
      ensures Valid()
      ensures Pings() == Checked(old(Pings()), currentPingSessionTimestamp)
      ensures box == if TooMany(Pings(), session.config.maxFailedPings)
                     then Emptied(Disconnected(old(box))) else old(box)
      ensures failedPings == old(failedPings) + if lastPingTimestamp != currentPingSessionTimestamp then 1 else 0
      ensures failedPings < session.config.maxFailedPings ==> queue == old(queue) && socket == old(socket)
      ensures failedPings >= session.config.maxFailedPings ==> queue == [] && !socket
    {
      hide Inv;
      if lastPingTimestamp != currentPingSessionTimestamp {
        failedPings := failedPings + 1;
      }
      if failedPings >= session.config.maxFailedPings {
        InvalidateSocket();
      }
    }

    method Ping(timestampMicroseconds: int)
      requires Valid()
      modifies `notices
      ensures Valid() && notices == old(notices) + if socket then [PingNotice(timestampMicroseconds)] else []
      ensures View() == Noticed(old(View()), PingNotice(timestampMicroseconds), 1)
    {
      if socket {
        notices := notices + [PingNotice(timestampMicroseconds)];
      }
    }

    method Kick()
      requires Valid()
      modifies `notices
      ensures Valid() && notices == old(notices) + if socket then [KickNotice] else []
      ensures View() == Noticed(old(View()), KickNotice, 1)
    {
      if socket {
        notices := notices + [KickNotice];
      }
    }

    /** The serial number of the next message that this peer asks to have forwarded. */
    method Issue() returns (issue: nat)
      requires Valid()
      modifies `issued
      ensures Valid() && issue == old(issued) && View() == old(View()).(issued := old(issued) + 1)
    {
      issue := issued;
      issued := issued + 1;
    }

    // ----- handlers of incoming messages -----

    /** sendErrorAsync. */
    method SendError(code: ErrorCode, fatal: bool) returns (reply: Reply)
      ensures socket ==> reply == Error(code, fatal)
      ensures !socket ==> reply == NoReply
    {
      reply := if socket then Error(code, fatal) else NoReply;
    }

    /** What handlePong does to this peer and to the session's record. */
    twostate predicate PongHandled(timestamp: Option<int>, now: int, reply: Reply)
      reads this, session
    {
      if timestamp.None? then
        && reply == (if old(socket) then Error(BadMessage, false) else NoReply)
        && View() == old(View()) && session.Best() == old(session.Best())
      else
        var accepted := timestamp.value == old(session.pingCurrentTimestamp);
        var pingTime := if accepted then now - timestamp.value else -1;
        && reply == NoReply
        && View() == old(View()).(pings := Ponged(old(Pings()), timestamp.value, pingTime))
        && session.Best() == if accepted
                             then BestPing.Report(old(session.Best()), BestPing.Pong(peerId, timestamp.value, pingTime))
                             else old(session.Best())
    }

    method HandlePong(timestamp: Option<int>, now: int) returns (reply: Reply)
      requires Valid() && session.Valid()
      modifies `pingTime, `failedPings, `lastPingTimestamp
      modifies session`pingBestTime, session`pingBestPeerId, session`pingBestPeerSinceTimestamp
      ensures Valid() && session.Valid() && PongHandled(timestamp, now, reply)
      ensures timestamp.Some? && timestamp.value == session.pingCurrentTimestamp ==> pingTime == now - timestamp.value
      ensures timestamp.Some? && timestamp.value != session.pingCurrentTimestamp ==> pingTime == -1
      ensures timestamp.Some? && pingTime >= 0 ==> failedPings == 0 && lastPingTimestamp == timestamp.value
      ensures timestamp.None? || pingTime < 0 ==>
                failedPings == old(failedPings) && lastPingTimestamp == old(lastPingTimestamp)
    {
      hide Peer.Valid;
      if timestamp.None? {
        reply := SendError(BadMessage, false);
        return;
      }
      var pt := session.ReportPeerPong(peerId, timestamp.value, now);
      hide BestPing.Report, Ponged;
      RecordPong(timestamp.value, pt);
      return NoReply;
    }

    method RecordPong(timestamp: int, pt: int)
      requires Valid()
      modifies `pingTime, `failedPings, `lastPingTimestamp
      ensures Valid() && View() == old(View()).(pings := Ponged(old(Pings()), timestamp, pt))
      ensures pingTime == pt
      ensures pt >= 0 ==> failedPings == 0 && lastPingTimestamp == timestamp
      ensures pt < 0 ==> failedPings == old(failedPings) && lastPingTimestamp == old(lastPingTimestamp)
    {
      pingTime := pt;
      if pingTime >= 0 {
        failedPings := 0;
        lastPingTimestamp := timestamp;
      }
    }

    /** This peer has issued one more message, and every other member has been offered it as
        often as the audience asks for. */
    twostate predicate Forwarded(members: set<Peer>, m: Message, to: Audience)
      reads this, members
    {
      && View() == old(View()).(issued := old(issued) + 1)
      && forall p :: p in members && p != this ==>
           p.View() == Queued(old(p.View()), m, Times(to, peerId, p.peerId))
    }

    twostate predicate OthersKept(members: set<Peer>)
      reads members
    {
      forall p :: p in members && p != this ==> p.View() == old(p.View())
    }

    /** Nothing but this peer's reply comes of the message. */
    twostate predicate Ignored(members: set<Peer>)
      reads this, members
    {
      View() == old(View()) && OthersKept(members)
    }

    /** Nothing comes of the message but an error, if the socket is still there. */
    twostate predicate Refused(members: set<Peer>, new code: ErrorCode, reply: Reply)
      reads this, members
    {
      Ignored(members) && reply == if old(socket) then Error(code, false) else NoReply
    }

    /** The sending loop of handleBroadcast and handleDirectMessage over a snapshot of peers. */
    method Forward(data: Option<string>, targets: seq<Peer>, ghost to: Audience)
      requires Valid() && session.Valid()
      requires forall p :: p in targets ==> p in session.peers.Values
      requires forall p :: p in session.peers.Values && p.peerId != peerId ==>
                 Occurrences(targets, p) == Times(to, peerId, p.peerId)
      modifies `issued, session.peers.Values
      ensures Valid() && session.Valid()
      ensures Forwarded(session.peers.Values, Text(peerId, old(issued), data), to)
    {
      hide Peer.Valid, Queued;
      var issue := Issue();
      OfferOthers(session.peers.Values, targets, peerId, Text(peerId, issue, data));
    }

    method HandleBroadcast(data: Option<string>) returns (reply: Reply)
      requires Valid() && session.Valid()
      modifies `issued, session.peers.Values
      ensures Valid() && session.Valid() && reply == NoReply
      ensures Forwarded(session.peers.Values, Text(peerId, old(issued), data), Everyone)
    {
      hide Inv;
      var peers := session.GetAllPeers();
      forall p | p in session.peers.Values
        ensures Occurrences(peers, p) == 1
      {
        DistinctOccur(peers, p);
      }
      Forward(data, peers, Everyone);
      return NoReply;
    }

    method HandleDirectMessage(body: Option<DirectBody>) returns (reply: Reply)
      requires Valid() && session.Valid()
      modifies `issued, session.peers.Values
      ensures Valid() && session.Valid()
      ensures body.Some? && body.value.peerIds.Some? && body.value.peerIds.value != [] ==>
                && reply == NoReply
                && Forwarded(session.peers.Values, Text(peerId, old(issued), body.value.data),
                             Listed(body.value.peerIds.value))
      ensures body.None? || body.value.peerIds.None? || body.value.peerIds.value == [] ==>
                Refused(session.peers.Values, BadMessage, reply)
    {
      hide Inv;
      if body.None? {
        reply := SendError(BadMessage, false);
        return;
      }
      if body.value.peerIds.None? || body.value.peerIds.value == [] {
        reply := SendError(BadMessage, false);
        return;
      }
      var peers := session.GetPeers(body.value.peerIds);
      MembersFound(session.peers, body.value.peerIds.value);
      Forward(body.value.data, peers, Listed(body.value.peerIds.value));
      return NoReply;
    }

    method HandleSynchronizedEvent(data: Option<string>) returns (reply: Reply)
      requires Valid() && session.Valid()
      modifies `issued, session`synchronizedEventId, session.peers.Values
      ensures Valid() && session.Valid() && reply == NoReply
      ensures session.synchronizedEventId == old(session.synchronizedEventId) + 1
      ensures Announced(session.peers.Values, Event(old(session.synchronizedEventId), peerId, old(issued), data))
    {
      hide Peer.Valid, Queued;
      var issue := Issue();
      session.BroadcastSynchronizedEvent(peerId, issue, data);
      return NoReply;
    }

    /** Every member, this peer included, has been offered the event once. */
    twostate predicate Announced(members: set<Peer>, m: Message)
      reads this, members
    {
      && (this !in members ==> View() == old(View()).(issued := old(issued) + 1))
      && forall p :: p in members ==>
           p.View() == Queued(if p == this then old(View()).(issued := old(issued) + 1) else old(p.View()), m, 1)
    }

    method HandleClientMessage(data: Option<string>) returns (reply: Reply)
      requires Valid() && session.Valid()
      modifies `issued, session.peers.Values
      ensures Valid() && session.Valid()
      ensures session.host != null && session.host.peerId != peerId ==>
                && reply == NoReply
                && Forwarded(session.peers.Values, Text(peerId, old(issued), data), Only(session.host.peerId))
      ensures session.host == null ==> Refused(session.peers.Values, InvalidState, reply)
      ensures session.host != null && session.host.peerId == peerId ==>
                Refused(session.peers.Values, OperationNotPermitted, reply)
    {
      hide Peer.Valid;
      var host := session.GetHost();
      if host == null {
        reply := SendError(InvalidState, false);
        return;
      }
      if host.peerId == peerId {
        reply := SendError(OperationNotPermitted, false);
        return;
      }
      var issue := Issue();
      var _ := host.QueueMessage(Some(Text(peerId, issue, data)));
      return NoReply;
    }

    /** The loop of handleKickMessage. */
    method KickListed(ids: seq<Option<int>>)
      requires Valid() && session.Valid()
      modifies session.peers.Values
      ensures Valid() && session.Valid() && Kicked(session.peers.Values, ids)
      ensures forall p :: p in session.peers.Values && p.peerId == peerId ==> p.notices == old(p.notices)
      ensures forall p :: p in session.peers.Values && p.peerId != peerId ==>
                |p.notices| == |old(p.notices)| + if old(p.socket) then multiset(ids)[Some(p.peerId)] else 0
    {
      hide Peer.Valid, Requested, Occurrences, Find, Noticed, Times;
      SocketsAgree(session);
      var peers := session.GetPeers(Some(ids));
      VictimCounts(session, ids, peerId);
      KickOthers(session.peers.Values, peers, peerId);
    }

    /** Only the host may kick, and only others. */
    twostate predicate Kicked(members: set<Peer>, new ids: seq<Option<int>>)
      reads this, members
    {
      && View() == old(View())
      && forall p :: p in members && p != this ==>
           p.View() == Noticed(old(p.View()), KickNotice, Times(Listed(ids), peerId, p.peerId))
    }

    method HandleKickMessage(ids: Option<seq<Option<int>>>) returns (reply: Reply)
      requires Valid() && session.Valid()
      modifies session.peers.Values
      ensures Valid() && session.Valid()
      ensures session.host == null ==> Refused(session.peers.Values, InvalidState, reply)
      ensures session.host != null && session.host.peerId != peerId ==>
                Refused(session.peers.Values, OperationNotPermitted, reply)
      ensures session.host != null && session.host.peerId == peerId && (ids.None? || ids.value == []) ==>
                Refused(session.peers.Values, BadMessage, reply)
      ensures session.host != null && session.host.peerId == peerId && ids.Some? && ids.value != [] ==>
                reply == NoReply && Kicked(session.peers.Values, ids.value)
      ensures forall p :: p in session.peers.Values && p.notices != old(p.notices) ==>
                session.host != null && session.host.peerId == peerId != p.peerId
      ensures session.host != null && session.host.peerId == peerId && ids.Some? ==>
                forall p :: p in session.peers.Values && p.peerId != peerId ==>
                  |p.notices| == |old(p.notices)| + if old(p.socket) then multiset(ids.value)[Some(p.peerId)] else 0
    {
      hide Peer.Valid, Requested, Noticed, Times;
      var host := session.GetHost();
      if host == null {
        reply := SendError(InvalidState, false);
        return;
      }
      if host.peerId != peerId {
        reply := SendError(OperationNotPermitted, false);
        return;
      }
      if ids.None? || ids.value == [] {
        reply := SendError(BadMessage, false);
        return;
      }
      KickListed(ids.value);
      return NoReply;
    }

    /** Of the session's own fields only the best-ping record and the event counter change, and
        only for pongs and events. */
    twostate predicate SessionKept(byPong: bool, byEvent: bool)
      reads session
    {
      && session.peers == old(session.peers) && session.host == old(session.host)
      && session.peerIdCounter == old(session.peerIdCounter)
      && session.pingCurrentTimestamp == old(session.pingCurrentTimestamp)
      && (byPong || session.Best() == old(session.Best()))
      && (byEvent || session.synchronizedEventId == old(session.synchronizedEventId))
    }

    /** What handleMessage does. */
    twostate predicate Handled(members: set<Peer>, new message: Incoming, now: int, reply: Reply)
      reads this, session, members
    {
      SessionKept(message.Pong?, message.SynchronizedEvent?) &&
      match message
      case NoCode => Refused(members, BadMessage, reply)
      case Pong(timestamp) => PongHandled(timestamp, now, reply) && OthersKept(members)
      case Broadcast(data) =>
        reply == NoReply && Forwarded(members, Text(peerId, old(issued), data), Everyone)
      case DirectMessage(body) =>
        if body.Some? && body.value.peerIds.Some? && body.value.peerIds.value != [] then
          && reply == NoReply
          && Forwarded(members, Text(peerId, old(issued), body.value.data), Listed(body.value.peerIds.value))
        else Refused(members, BadMessage, reply)
      case SynchronizedEvent(data) =>
        && reply == NoReply && session.synchronizedEventId == old(session.synchronizedEventId) + 1
        && Announced(members, Event(old(session.synchronizedEventId), peerId, old(issued), data))
      case KickClients(ids) =>
        if session.host == null then Refused(members, InvalidState, reply)
        else if session.host.peerId != peerId then Refused(members, OperationNotPermitted, reply)
        else if ids.None? || ids.value == [] then Refused(members, BadMessage, reply)
        else reply == NoReply && Kicked(members, ids.value)
      case ClientMessage(data) =>
        if session.host == null then Refused(members, InvalidState, reply)
        else if session.host.peerId == peerId then Refused(members, OperationNotPermitted, reply)
        else
          && reply == NoReply
          && Forwarded(members, Text(peerId, old(issued), data), Only(session.host.peerId))
      case OtherCode => Refused(members, OperationNotPermitted, reply)
    }

    method HandleMessage(message: Incoming, now: int) returns (reply: Reply)
      requires Valid() && session.Valid()
      modifies this, session, session.peers.Values
      ensures Valid() && session.Valid() && session.peers == old(session.peers) && session.host == old(session.host)
      ensures Handled(session.peers.Values, message, now, reply)
      ensures old(TurnsDown(message)) ==> Ignored(session.peers.Values)
      ensures message.KickClients? && session.host == null ==>
                Refused(session.peers.Values, InvalidState, reply)
      ensures message.KickClients? && session.host != null && session.host.peerId != peerId ==>
                Refused(session.peers.Values, OperationNotPermitted, reply)
      ensures message.KickClients? && session.host != null && session.host.peerId == peerId ==>
                if message.ids.None? || message.ids.value == [] then Refused(session.peers.Values, BadMessage, reply)
                else reply == NoReply && Kicked(session.peers.Values, message.ids.value)
      ensures forall p :: p in session.peers.Values && p.notices != old(p.notices) ==>
                message.KickClients? && session.host != null && session.host.peerId == peerId != p.peerId
    {
      hide Queued, Noticed, Times, Ponged, Peer.Valid, Session.Valid;
      match message
      case NoCode => reply := SendError(BadMessage, false);
      case Pong(timestamp) => reply := HandlePong(timestamp, now);
      case Broadcast(data) => reply := HandleBroadcast(data);
      case DirectMessage(body) => reply := HandleDirectMessage(body);
      case SynchronizedEvent(data) => reply := HandleSynchronizedEvent(data);
      case KickClients(ids) => reply := HandleKickMessage(ids);
      case ClientMessage(data) => reply := HandleClientMessage(data);
      case OtherCode => reply := SendError(OperationNotPermitted, false);
    }

    /** The buffer is rewound and the message that was in it handled. */
    method RewindAndHandle(message: Incoming, now: int) returns (reply: Reply)
      requires Valid() && session.Valid()
      modifies this, messageBuffer, session, session.peers.Values
      ensures Valid() && session.Valid() && session.peers == old(session.peers) && session.host == old(session.host)
      ensures messageBuffer.data == [] && Handled(session.peers.Values, message, now, reply)
    {
      hide Queued, Noticed, Times, Ponged, Peer.Valid, Session.Valid;
      messageBuffer.data := [];
      reply := HandleMessage(message, now);
    }

    /** The whole message has been received; `parse` stands for the JSON mapper and fails with
        None. */
    method MessageComplete(parse: seq<Byte> -> Option<Incoming>, now: int) returns (reply: Reply)
      requires Valid() && session.Valid()
      modifies this, messageBuffer, session, session.peers.Values
      ensures Valid() && session.Valid() && session.peers == old(session.peers) && session.host == old(session.host)
      ensures messageBuffer.data == []
      ensures Completed(session.peers.Values, parse(old(messageBuffer.data)), now, reply)
    {
      var message := parse(messageBuffer.data);
      if message.Some? {
        reply := RewindAndHandle(message.value, now);
      } else {
        messageBuffer.data := [];
        reply := SendError(BadMessage, true);
      }
    }

    twostate predicate Completed(members: set<Peer>, new parsed: Option<Incoming>, now: int, reply: Reply)
      reads this, session, members
    {
      if parsed.None? then
        && SessionKept(false, false) && Ignored(members)
        && reply == if old(socket) then Error(BadMessage, true) else NoReply
      else Handled(members, parsed.value, now, reply)
    }

    /** One frame from the socket. */
    method ReadMessage(data: Frame, parse: seq<Byte> -> Option<Incoming>, now: int) returns (reply: Reply)
      requires Valid() && session.Valid()
      modifies this, messageBuffer, session, session.peers.Values
      ensures Valid() && session.Valid() && session.peers == old(session.peers) && session.host == old(session.host)
      ensures var fed := Feed(old(messageBuffer.data), session.config.maxMessageSizeBytes, data);
        messageBuffer.data == fed.buffer &&
        match fed.outcome
        case Rejected =>
          && SessionKept(false, false) && Ignored(session.peers.Values)
          && reply == if old(socket) then Error(BadMessage, true) else NoReply
        case Stored => SessionKept(false, false) && Ignored(session.peers.Values) && reply == NoReply
        case Complete(text) => Completed(session.peers.Values, parse(text), now, reply)
    {
      if |messageBuffer.data| + |data| > session.config.maxMessageSizeBytes {
        reply := SendError(BadMessage, true);
      } else if |data| == 0 {
        reply := MessageComplete(parse, now);
      } else {
        messageBuffer.data := messageBuffer.data + data;
        reply := NoReply;
      }
    }

    /** A message that is turned down whoever sends it, or because there is no other host. */
    ghost predicate TurnsDown(message: Incoming)
      reads this, session, session.host
    {
      match message
      case NoCode => true
      case DirectMessage(body) => !Addressed(body)
      case ClientMessage(_) => session.host == null || session.host.peerId == peerId
      case OtherCode => true
      case _ => false
    }
  }

  class Session {
    const id: string
    const config: GameConfig

    var peerIdCounter: nat
    var synchronizedEventId: nat
    var peers: map<int, Peer>
    var host: Peer?
    var pingCurrentTimestamp: int
    var pingBestTime: int
    var pingBestPeerId: int
    var pingBestPeerSinceTimestamp: int

    /** Every peer sits in the map under its own id, which the counter has passed; a host is
        the very object stored under its id. */
    ghost predicate Valid()
      reads this, peers.Values
    {
      && (forall i :: i in peers ==> peers[i].peerId == i && 0 <= i < peerIdCounter)
      && (forall p :: p in peers.Values ==>
            p.session == this && p.peerId in peers && peers[p.peerId] == p && p.Valid())
      && (host != null ==> host.peerId in peers && peers[host.peerId] == host)
    }

    ghost function Best(): BestPing.Best
      reads this
    {
      BestPing.Best(pingBestTime, pingBestPeerId, pingBestPeerSinceTimestamp)
    }

    constructor (id: string, config: GameConfig)
      ensures this.id == id && this.config == config
      ensures Valid() && peers == map[] && host == null && peerIdCounter == 0 && synchronizedEventId == 0
      ensures pingCurrentTimestamp == -1 && Best() == BestPing.NOBODY
      ensures pingBestTime == -1 && pingBestPeerId == -1 && pingBestPeerSinceTimestamp == -1
    {
      this.id := id;
      this.config := config;
      peerIdCounter, synchronizedEventId := 0, 0;
      peers, host := map[], null;
      pingCurrentTimestamp, pingBestTime, pingBestPeerId, pingBestPeerSinceTimestamp := -1, -1, -1, -1;
    }

    method GenerateNewPeerId() returns (id: int)
      requires Valid()
      modifies `peerIdCounter
      ensures Valid() && id == old(peerIdCounter) && peerIdCounter == old(peerIdCounter) + 1
      ensures id !in peers
    {
      id := peerIdCounter;
      peerIdCounter := peerIdCounter + 1;
    }

    ghost function HostSet(): set<Peer>
      reads this
    {
      if host == null then {} else {host}
    }

    method AddPeer(peer: Peer, isHost: bool)
      requires Valid() && peer.Valid()
      requires peer.session == this && 0 <= peer.peerId < peerIdCounter && peer.peerId !in peers
      modifies `peers, `host, peer, HostSet()
      ensures Valid()
      ensures peers == old(peers)[peer.peerId := peer]
      ensures host == if isHost then peer else old(host)
      ensures peer.View() == Queued(old(peer.View()), Hello(peer.peerId, isHost), 1)
      ensures old(host) != null ==>
                old(host).View() == Queued(old(host.View()), Joined(peer.peerId), if isHost then 0 else 1)
    {
      hide Peer.Valid;
      peers := peers[peer.peerId := peer];
      if isHost {
        host := peer;
      } else {
        if host != null {
          var _ := host.QueueMessage(Some(Joined(peer.peerId)));
        }
      }
      var _ := peer.QueueMessage(Some(Hello(peer.peerId, isHost)));
    }

    method GetHost() returns (h: Peer?)
      ensures h == host
      ensures Valid() && h != null ==> h.session == this && h.peerId in peers && peers[h.peerId] == h
    {
      h := host;
    }

    method RemovePeerById(peerId: int) returns (isEmpty: bool)
      requires Valid()
      modifies `peers, `host, HostSet()
      ensures Valid()
      ensures peers == old(peers) - {peerId} && isEmpty == (peers == map[])
      ensures host == if old(host) != null && old(host).peerId == peerId then null else old(host)
      ensures old(host) != null ==>
                && old(host).Valid()
                && old(host).View() ==
                     Queued(old(host.View()), Left(peerId), if old(host).peerId == peerId then 0 else 1)
      ensures old(host) != null && old(host).peerId == peerId ==>
                old(host).queue == old(host.queue) && old(host).socket == old(host.socket)
    {
      hide Peer.Valid, Queued;
      if host != null && host.peerId == peerId {
        host := null;
      }
      peers := peers - {peerId};
      isEmpty := peers == map[];
      if host != null {
        var _ := host.QueueMessage(Some(Left(peerId)));
      }
      assert forall i :: i in peers ==> peers[i].peerId == i;
      forall p | p in peers.Values
        ensures p.Valid() && p.peerId in peers && peers[p.peerId] == p
      {
        assert old(p.Valid()) && p in old(peers).Values;
      }
    }

    method GetAllPeers() returns (result: seq<Peer>)
      requires Valid()
      ensures forall p :: p in result ==> p in peers.Values
      ensures forall p :: p in peers.Values ==> p in result
      ensures Distinct(result)
    {
      result := [];
      var left := peers.Values;
      while left != {}
        invariant left <= peers.Values
        invariant forall p :: p in result ==> p in peers.Values - left
        invariant forall p :: p in peers.Values ==> p in left || p in result
        invariant Distinct(result)
        decreases left
      {
        var p :| p in left;
        left := left - {p};
        assert p !in result;
        result := result + [p];
      }
    }

    method GetPeers(peerIds: Option<seq<Option<int>>>) returns (result: seq<Peer>)
      ensures result == if peerIds.None? then [] else Find(peers, peerIds.value)
    {
      result := [];
      if peerIds.None? {
        return;
      }
      var ids := peerIds.value;
      for k := 0 to |ids|
        invariant result == Find(peers, ids[..k])
      {
        assert ids[..k + 1][..k] == ids[..k];
        if ids[k].Some? {
          if ids[k].value in peers {
            result := result + [peers[ids[k].value]];
          }
        }
      }
      assert ids[..|ids|] == ids;
    }

    method BroadcastSynchronizedEvent(senderId: int, issue: nat, eventData: Option<string>)
      requires Valid()
      modifies `synchronizedEventId, peers.Values
      ensures Valid() && synchronizedEventId == old(synchronizedEventId) + 1
      ensures forall p :: p in peers.Values ==>
                p.View() == Queued(old(p.View()), Event(old(synchronizedEventId), senderId, issue, eventData), 1)
    {
      var event := Event(synchronizedEventId, senderId, issue, eventData);
      synchronizedEventId := synchronizedEventId + 1;
      var order := GetAllPeers();
      OfferEach(order, event);
    }

    method CheckAllPeersPings()
      requires Valid()
      modifies peers.Values
      ensures Valid()
      ensures forall p :: p in peers.Values ==>
                p.View() == CheckedView(old(p.View()), pingCurrentTimestamp, config.maxFailedPings)
    {
      var currentTimestamp := pingCurrentTimestamp;
      var order := GetAllPeers();
      CheckEach(order, currentTimestamp, config.maxFailedPings);
    }

    method PingAllPeers(now: int)
      requires Valid()
      modifies `pingCurrentTimestamp, peers.Values
      ensures Valid() && pingCurrentTimestamp == now
      ensures forall p :: p in peers.Values ==> p.View() == Noticed(old(p.View()), PingNotice(now), 1)
    {
      pingCurrentTimestamp := now;
      var order := GetAllPeers();
      PingEach(order, now);
    }

    method ReportPeerPong(peerId: int, timestamp: int, now: int) returns (pingTime: int)
      modifies `pingBestTime, `pingBestPeerId, `pingBestPeerSinceTimestamp
      ensures timestamp != pingCurrentTimestamp ==> pingTime == -1 && Best() == old(Best())
      ensures timestamp == pingCurrentTimestamp ==>
                && pingTime == now - timestamp
                && Best() == BestPing.Report(old(Best()), BestPing.Pong(peerId, timestamp, pingTime))
    {
      if timestamp != pingCurrentTimestamp {
        return -1;
      }
      pingTime := now - timestamp;
      if pingBestTime < 0 || pingBestTime > pingTime {
        pingBestTime := pingTime;
        if pingBestPeerId != peerId {
          pingBestPeerId := peerId;
          pingBestPeerSinceTimestamp := timestamp;
        }
      }
    }
  }

  /** Each member is found exactly as often as its id is requested; nobody else is found. */
  lemma MembersFound(peers: map<int, Peer>, ids: seq<Option<int>>)
    requires forall i :: i in peers ==> peers[i].peerId == i
    requires forall p :: p in peers.Values ==> p.peerId in peers && peers[p.peerId] == p
    ensures forall p :: p in peers.Values ==>
              Occurrences(Find(peers, ids), p) == Requested(ids, p.peerId) == multiset(ids)[Some(p.peerId)]
    ensures forall p :: p in Find(peers, ids) ==> p in peers.Values
  {
    FindsKnown(peers, ids);
    forall p | p in peers.Values
      ensures Occurrences(Find(peers, ids), p) == Requested(ids, p.peerId)
    {
      FindCounts(peers, ids, p.peerId);
    }
  }

  lemma SocketsAgree(session: Session)
    requires session.Valid()
    ensures forall p :: p in session.peers.Values ==> p.socket == p.View().box.socket
  {
  }

  lemma VictimCounts(session: Session, ids: seq<Option<int>>, sender: int)
    requires session.Valid()
    ensures forall p :: p in Find(session.peers, ids) ==> p in session.peers.Values
    ensures forall p :: p in session.peers.Values && p.peerId != sender ==>
              Occurrences(Find(session.peers, ids), p) == Times(Listed(ids), sender, p.peerId)
              == multiset(ids)[Some(p.peerId)]
    ensures Times(Listed(ids), sender, sender) == 0
  {
    MembersFound(session.peers, ids);
  }

  // The loops over peers. `order` is the order in which the hash map is iterated.

  ghost predicate Distinct(order: seq<Peer>) {
    forall i, j :: 0 <= i < j < |order| ==> order[i] != order[j]
  }

  method OfferEach(order: seq<Peer>, m: Message)
    requires Distinct(order) && forall p :: p in order ==> p.Valid()
    modifies order
    ensures forall p :: p in order ==> p.Valid() && p.View() == Queued(old(p.View()), m, 1)
  {
    hide Inv;
    for n := 0 to |order|
      invariant forall p :: p in order ==> p.Valid()
      invariant forall p :: p in order ==>
                  p.View() == if p in order[..n] then Queued(old(p.View()), m, 1) else old(p.View())
    {
      assert order[n] !in order[..n];
      assert order[..n + 1] == order[..n] + [order[n]];
      var _ := order[n].QueueMessage(Some(m));
    }
    assert order[..|order|] == order;
  }

  /** The loops of handleBroadcast and handleDirectMessage: everybody but the sender, as often
      as they are listed. */
  method OfferOthers(ghost members: set<Peer>, targets: seq<Peer>, senderId: int, m: Message)
    requires forall p :: p in targets ==> p in members
    requires forall p :: p in members ==> p.Valid()
    modifies members
    ensures forall p :: p in members ==> p.Valid()
    ensures forall p :: p in members ==>
              p.View() == Queued(old(p.View()), m, if p.peerId == senderId then 0 else Occurrences(targets, p))
  {
    hide Peer.Valid, Occurrences;
    for n := 0 to |targets|
      invariant forall p :: p in members ==> p.Valid()
      invariant forall p :: p in members ==>
                  p.View() == Queued(old(p.View()), m, if p.peerId == senderId then 0 else Occurrences(targets[..n], p))
    {
      var p := targets[n];
      forall q | q in members
        ensures Occurrences(targets[..n + 1], q) == Occurrences(targets[..n], q) + if q == targets[n] then 1 else 0
      {
        OccurrencesNext(targets, n, q);
      }
      if p.peerId != senderId {
        EnqueueAgain(p.box, m);
        var _ := p.QueueMessage(Some(m));
      }
    }
    assert targets[..|targets|] == targets;
  }

  method CheckEach(order: seq<Peer>, round: int, maxFailedPings: nat)
    requires Distinct(order)
    requires forall p :: p in order ==> p.Valid() && p.session.config.maxFailedPings == maxFailedPings
    modifies order
    ensures forall p :: p in order ==> p.Valid() && p.View() == CheckedView(old(p.View()), round, maxFailedPings)
  {
    hide Inv;
    for n := 0 to |order|
      invariant forall p :: p in order ==> p.Valid()
      invariant forall p :: p in order ==>
                  p.View() == if p in order[..n]
                              then CheckedView(old(p.View()), round, maxFailedPings) else old(p.View())
    {
      assert order[n] !in order[..n];
      assert order[..n + 1] == order[..n] + [order[n]];
      order[n].CheckPingsRules(round);
    }
    assert order[..|order|] == order;
  }

  method PingEach(order: seq<Peer>, now: int)
    requires Distinct(order) && forall p :: p in order ==> p.Valid()
    modifies order
    ensures forall p :: p in order ==> p.Valid() && p.View() == Noticed(old(p.View()), PingNotice(now), 1)
  {
    hide Peer.Valid, Noticed;
    for n := 0 to |order|
      invariant forall p :: p in order ==> p.Valid()
      invariant forall p :: p in order ==>
                  p.View() == if p in order[..n] then Noticed(old(p.View()), PingNotice(now), 1) else old(p.View())
    {
      assert order[n] !in order[..n];
      assert order[..n + 1] == order[..n] + [order[n]];
      order[n].Ping(now);
    }
    assert order[..|order|] == order;
  }

  method KickOthers(ghost members: set<Peer>, victims: seq<Peer>, senderId: int)
    requires forall p :: p in victims ==> p in members
    requires forall p :: p in members ==> p.Valid()
    modifies members
    ensures forall p :: p in members ==> p.Valid()
    ensures forall p :: p in members ==>
              p.View() == Noticed(old(p.View()), KickNotice,
                                  if p.peerId == senderId then 0 else Occurrences(victims, p))
  {
    hide Peer.Valid, Occurrences, Noticed;
    forall p | p in members
      ensures Noticed(p.View(), KickNotice, 0) == p.View()
    {
      NoticedAgain(p.View(), KickNotice, 0);
    }
    for n := 0 to |victims|
      invariant forall p :: p in members ==> p.Valid()
      invariant forall p :: p in members ==>
                  p.View() == Noticed(old(p.View()), KickNotice,
                                      if p.peerId == senderId then 0 else Occurrences(victims[..n], p))
    {
      forall q | q in members
        ensures Occurrences(victims[..n + 1], q) == Occurrences(victims[..n], q) + if q == victims[n] then 1 else 0
      {
        OccurrencesNext(victims, n, q);
      }
      if victims[n].peerId != senderId {
        NoticedAgain(old(victims[n].View()), KickNotice, Occurrences(victims[..n], victims[n]));
        victims[n].Kick();
      }
    }
    assert victims[..|victims|] == victims;
  }
}
