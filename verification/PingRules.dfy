/** The failure detector's bookkeeping for one peer. */
module PingRules {

  /** m_failedPings, m_lastPingTimestamp and m_pingTime. */
  datatype PeerPing = PeerPing(failed: nat, last: int, time: int)

  const UNTESTED := PeerPing(0, -1, -1)

  /** checkPingsRules against the round that started at `round`. */
  function Checked(x: PeerPing, round: int): PeerPing {
    if x.last != round then x.(failed := x.failed + 1) else x
  }

  predicate TooMany(x: PeerPing, maxFailedPings: nat) {
    x.failed >= maxFailedPings
  }

  /** handlePong, once the session has valued the pong at `pingTime`. */
  function Ponged(x: PeerPing, timestamp: int, pingTime: int): PeerPing {
    if pingTime >= 0 then PeerPing(0, timestamp, pingTime) else x.(time := pingTime)
  }
}
