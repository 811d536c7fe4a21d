/** The session's record of the best ping. */
module BestPing {

  /** m_pingBestTime, m_pingBestPeerId and m_pingBestPeerSinceTimestamp. */
  datatype Best = Best(time: int, peer: int, since: int)

  const NOBODY := Best(-1, -1, -1)

  /** A pong that matched the session's current ping timestamp. */
  datatype Pong = Pong(peer: int, timestamp: int, pingTime: int)

  /** What an accepted pong does to the record. */
  function Report(b: Best, p: Pong): Best {
    if b.time < 0 || b.time > p.pingTime then
      if b.peer != p.peer then Best(p.pingTime, p.peer, p.timestamp) else b.(time := p.pingTime)
    else b
  }

  function ReportAll(pongs: seq<Pong>): Best {
    if pongs == [] then NOBODY else Report(ReportAll(pongs[..|pongs| - 1]), pongs[|pongs| - 1])
  }

  /** Peer ids are issued from 0; with a clock that never goes back no ping time is negative. */
  predicate Sane(pongs: seq<Pong>) {
    forall i :: 0 <= i < |pongs| ==> pongs[i].peer >= 0 && pongs[i].pingTime >= 0
  }

  /** Pong i was faster than every pong before it. */
  ghost predicate IsRecord(pongs: seq<Pong>, i: int) {
    0 <= i < |pongs| && forall j :: 0 <= j < i ==> pongs[j].pingTime > pongs[i].pingTime
  }

  /** Pong i is the first of the fastest. */
  ghost predicate IsFirstBest(pongs: seq<Pong>, i: int) {
    IsRecord(pongs, i) && forall j :: 0 <= j < |pongs| ==> pongs[i].pingTime <= pongs[j].pingTime
  }

  /** From pong i on, every record belongs to the peer that sent pong i, which set a record
      itself; the record before it, if there was one, belonged to somebody else. */
  ghost predicate StartsTenure(pongs: seq<Pong>, i: int) {
    && IsRecord(pongs, i)
    && (forall j :: i <= j < |pongs| && IsRecord(pongs, j) ==> pongs[j].peer == pongs[i].peer)
    && (forall j :: IsFirstBest(pongs[..i], j) ==> pongs[j].peer != pongs[i].peer)
  }

  ghost predicate Describes(pongs: seq<Pong>, b: Best, best: int, start: int) {
    && IsFirstBest(pongs, best) && StartsTenure(pongs, start) && start <= best
    && b.time == pongs[best].pingTime
    && b.peer == pongs[best].peer
    && b.since == pongs[start].timestamp
  }

  lemma RecordsOfFront(pongs: seq<Pong>, p: Pong)
    ensures forall i :: i < |pongs| ==> (IsRecord(pongs + [p], i) <==> IsRecord(pongs, i))
  {
    var all := pongs + [p];
    forall i | i < |pongs|
      ensures IsRecord(all, i) <==> IsRecord(pongs, i)
    {
      if 0 <= i {
        assert all[i] == pongs[i];
        assert forall j :: 0 <= j < i ==> all[j] == pongs[j];
      }
    }
  }

  lemma FirstBestIsUnique(pongs: seq<Pong>, i: int, j: int)
    requires IsFirstBest(pongs, i) && IsFirstBest(pongs, j)
    ensures i == j
  {
    assert pongs[i].pingTime == pongs[j].pingTime;
  }

  /** One more pong, faster than all before it. */
  lemma FasterPong(pongs: seq<Pong>, p: Pong, b: Best, best: int, start: int) returns (since: int)
    requires Describes(pongs, b, best, start) && b.time >= 0 && p.pingTime < b.time
    ensures Describes(pongs + [p], Report(b, p), |pongs|, since)
  {
    var all := pongs + [p];
    RecordsOfFront(pongs, p);
    assert forall j :: 0 <= j < |pongs| ==> all[j] == pongs[j];
    assert IsFirstBest(all, |pongs|);
    if p.peer == b.peer {
      since := start;
      assert all[..start] == pongs[..start];
      assert IsRecord(pongs, best) && pongs[best].peer == pongs[start].peer;
    } else {
      since := |pongs|;
      assert all[..since] == pongs;
      forall j | IsFirstBest(pongs, j)
        ensures all[j].peer != p.peer
      {
        FirstBestIsUnique(pongs, j, best);
      }
    }
  }

  /** One more pong that is no faster. */
  lemma SlowerPong(pongs: seq<Pong>, p: Pong, b: Best, best: int, start: int)
    requires Describes(pongs, b, best, start) && p.pingTime >= b.time
    ensures Describes(pongs + [p], b, best, start)
  {
    var all := pongs + [p];
    RecordsOfFront(pongs, p);
    assert forall j :: 0 <= j < |pongs| ==> all[j] == pongs[j];
    assert !IsRecord(all, |pongs|) by {
      assert all[best].pingTime <= all[|pongs|].pingTime;
    }
    assert all[..start] == pongs[..start];
  }

  /** After any pongs the record is the smallest ping time, its holder the first peer to reach
      that time, and the `since` timestamp the one of the pong with which that peer took the
      record from its predecessor. */
  lemma {:induction false} EarliestArgMin(pongs: seq<Pong>) returns (best: int, start: int)
    requires Sane(pongs) && pongs != []
    ensures Describes(pongs, ReportAll(pongs), best, start)
  {
    var front, p := pongs[..|pongs| - 1], pongs[|pongs| - 1];
    assert pongs == front + [p];
    assert p.peer >= 0 && p.pingTime >= 0;
    if front == [] {
      best, start := 0, 0;
      assert ReportAll(front) == NOBODY;
    } else {
      best, start := EarliestArgMin(front);
      var b := ReportAll(front);
      assert front[best].pingTime >= 0;
      if p.pingTime < b.time {
        start := FasterPong(front, p, b, best, start);
        best := |front|;
      } else {
        SlowerPong(front, p, b, best, start);
      }
    }
  }
}
