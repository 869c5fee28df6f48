/** TCP socket states (section 3.3.2 of RFC 9293) and what the client reads off a smoltcp socket. */
module Tcp {
  import opened Common

  datatype TcpState =
    | Closed | Listen | SynSent | SynReceived | Established
    | FinWait1 | FinWait2 | CloseWait | Closing | LastAck | TimeWait

  /** `(local ip, local port, remote ip, remote port)` */
  type ConnTuple = (Ipv4, Port, Ipv4, Port)

  /** `is_active`: a connection exists or is being set up. */
  predicate IsActive(s: TcpState) { !s.Closed? && !s.Listen? && !s.TimeWait? }

  /** A FIN was sent or received and the connection is not done yet. */
  predicate IsClosing(s: TcpState) { s.FinWait1? || s.FinWait2? || s.CloseWait? || s.Closing? || s.LastAck? }

  /** The transmit half is open. */
  predicate MaySend(s: TcpState) { s.Established? || s.CloseWait? }

  /** The peer's FIN was received, or there is no connection: no further byte arrives. */
  predicate PeerDone(s: TcpState) { s.CloseWait? || s.LastAck? || s.Closing? || s.TimeWait? || s.Closed? }

  /** The state after closing the transmit half. */
  function CloseState(s: TcpState): TcpState
  {
    match s
    case Listen | SynSent => Closed
    case SynReceived | Established => FinWait1
    case CloseWait => LastAck
    case _ => s
  }

  /** A relay socket smoltcp no longer needs; `remote` says whether it still knows its peer. */
  predicate Removable(s: TcpState, remote: bool) { s.TimeWait? || s.Listen? || (s.Closed? && !remote) }

  /** What driving a relay may do to its socket's state: nothing, a FIN, or a reset. */
  predicate DriveMay(s: TcpState, t: TcpState) { t == s || t == CloseState(s) || t.Closed? }

  /** Difference of two instants, in milliseconds. */
  function Elapsed(now: int, since: int): nat { if now >= since then now - since else since - now }
}
