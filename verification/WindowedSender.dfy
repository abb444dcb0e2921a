/**
 * The server's Selective Repeat sender (server/src/rdt/RdtSender.cpp) as functions on its state:
 * congestion window, round-trip estimator, per-packet acknowledgement, polling and retransmission.
 */
module WindowedSender {
  import opened Bytes
  import opened Datagrams
  import Codec

  const MAX_RETRIES := 10
  const MIN_TIMEOUT_MS := 50
  const MAX_TIMEOUT_MS := 2000

  datatype InFlight = InFlight(seqNum: nat, data: Data, isFinal: bool, sentTime: real,
                               acked: bool, retransmitted: bool, retries: nat)

  datatype SenderState = SenderState(window: seq<InFlight>, cwnd: real, cleanAcks: nat, timeoutMs: int,
                                     estimatedRttMs: real, devRttMs: real)

  function Clamp(x: int, low: int, high: int): (r: int)
    requires low <= high
    ensures low <= r <= high
    ensures (low <= x <= high ==> r == x) && (x < low ==> r == low) && (x > high ==> r == high)
  {
    if x < low then low else if x > high then high else x
  }

  function Ceiling(x: real): (n: int)
    ensures n as real - 1.0 < x <= n as real
  {
    -((-x).Floor)
  }

  function Distance(x: real, y: real): (d: real)
    ensures d >= 0.0 && (x + d == y || y + d == x)
  {
    if x < y then y - x else x - y
  }

  function Max(x: real, y: real): (m: real)
    ensures m >= x && m >= y && (m == x || m == y)
  {
    if x < y then y else x
  }

  function Initial(initialTimeoutMs: int): SenderState {
    var t := Clamp(initialTimeoutMs, MIN_TIMEOUT_MS, MAX_TIMEOUT_MS);
    SenderState([], 4.0, 0, t, t as real, 0.0)
  }

  /** Packets that may be in flight: the whole part of the congestion window, from one to ten. */
  function EffectiveWindow(s: SenderState): (e: int)
    ensures 1 <= e <= 10
    ensures s.cwnd >= 10.0 ==> e == 10
    ensures 1.0 <= s.cwnd < 10.0 ==> e as real <= s.cwnd < e as real + 1.0
  {
    Clamp(s.cwnd.Floor, 1, RECEIVE_WINDOW)
  }

  // ----- estimator and congestion control

  /** updateRtt: deviation first, from the old estimate; then the estimate; then the timeout. */
  function UpdateRtt(s: SenderState, sample: real): SenderState {
    var dev := 0.75 * s.devRttMs + 0.25 * Distance(sample, s.estimatedRttMs);
    var est := 0.875 * s.estimatedRttMs + 0.125 * sample;
    s.(devRttMs := dev, estimatedRttMs := est,
       timeoutMs := Clamp(Ceiling(est + 4.0 * dev), MIN_TIMEOUT_MS, MAX_TIMEOUT_MS))
  }

  /** One clean acknowledgement; a full effective window of them opens the window by one. */
  function CreditCleanAck(s: SenderState): SenderState {
    if s.cleanAcks + 1 >= EffectiveWindow(s) then s.(cwnd := s.cwnd + 1.0, cleanAcks := 0)
    else s.(cleanAcks := s.cleanAcks + 1)
  }

  function Decrease(s: SenderState): SenderState {
    s.(cwnd := Max(1.0, s.cwnd / 2.0), cleanAcks := 0,
       timeoutMs := Clamp(s.timeoutMs * 2, MIN_TIMEOUT_MS, MAX_TIMEOUT_MS))
  }

  // ----- acknowledgements

  /** Index of the first unacknowledged packet with this number, or the window size. */
  function FindUnacked(w: seq<InFlight>, ackNum: nat): (k: nat)
    ensures k <= |w|
    ensures k < |w| ==> w[k].seqNum == ackNum && !w[k].acked
    ensures forall j :: 0 <= j < k ==> !(w[j].seqNum == ackNum && !w[j].acked)
  {
    if w == [] then 0
    else if w[0].seqNum == ackNum && !w[0].acked then 0
    else 1 + FindUnacked(w[1..], ackNum)
  }

  function Slide(w: seq<InFlight>): seq<InFlight> {
    if w != [] && w[0].acked then Slide(w[1..]) else w
  }

  /** Marking: only a packet sent exactly once feeds the estimator and the window. */
  function MarkAcked(s: SenderState, k: nat, now: real): SenderState
    requires k < |s.window|
  {
    var p := s.window[k];
    var marked := s.(window := s.window[k := p.(acked := true)]);
    if p.retransmitted then marked else CreditCleanAck(UpdateRtt(marked, now - p.sentTime))
  }

  function OnAck(s: SenderState, ackNum: nat, now: real): SenderState {
    var k := FindUnacked(s.window, ackNum);
    var marked := if k < |s.window| then MarkAcked(s, k, now) else s;
    marked.(window := Slide(marked.window))
  }

  // ----- transmissions

  datatype SendOutcome = Sent(at: real) | SendFailed

  function Push(s: SenderState, seqNum: nat, data: Data, isFinal: bool, at: real): SenderState {
    s.(window := s.window + [InFlight(seqNum, data, isFinal, at, false, false, 0)])
  }

  function Resend(s: SenderState, j: nat, at: real): SenderState
    requires j < |s.window|
  {
    var p := s.window[j];
    s.(window := s.window[j := p.(retries := p.retries + 1, sentTime := at, retransmitted := true)])
  }

  function PacketOf(p: InFlight): Datagram { DataPacket(p.seqNum, p.data, p.isFinal) }

  /** More than the timeout has passed since the packet was last sent, in whole milliseconds. */
  predicate Expired(p: InFlight, now: real, timeout: int): (r: bool)
    ensures r <==> !p.acked && now - p.sentTime >= (timeout + 1) as real
  {
    !p.acked && (now - p.sentTime).Floor > timeout
  }

  predicate AnyExpired(w: seq<InFlight>, now: real, timeout: int) {
    exists j :: 0 <= j < |w| && Expired(w[j], now, timeout)
  }

  // ----- pollAcksAndRetransmit

  /** One turn of the receive loop: what the socket or the abort predicate showed. */
  datatype Observation = Arrived(d: Datagram, at: real) | Rejected | SocketError | AbortSeen

  /** Everything one poll sees: arrivals until the socket runs dry, a clock reading, send results. */
  datatype PollInput = PollInput(arrivals: seq<Observation>, now: real, abortInScan: bool, sends: nat -> SendOutcome)

  datatype PollResult = PollResult(state: SenderState, sent: seq<Datagram>, ok: bool)

  /** The receive loop. A NAK or an abort fails the poll; everything but a bare ACK is ignored. */
  function Drain(s: SenderState, arrivals: seq<Observation>): PollResult
    decreases |arrivals|
  {
    if arrivals == [] then PollResult(s, [], true)
    else match arrivals[0]
      case AbortSeen => PollResult(s, [], false)
      case SocketError => PollResult(s, [], true)
      case Rejected => Drain(s, arrivals[1..])
      case Arrived(d, at) =>
        if d.flags.data || d.payload != [] then Drain(s, arrivals[1..])
        else if d.flags.nak then PollResult(s, [], false)
        else if !d.flags.ack then Drain(s, arrivals[1..])
        else Drain(OnAck(s, d.ackNum, at), arrivals[1..])
  }

  lemma DrainSendsNothing(s: SenderState, arrivals: seq<Observation>)
    ensures Drain(s, arrivals).sent == []
    decreases |arrivals|
  {
  }

  /** The retransmission loop from window position `j`, with the timeout read before any halving. */
  function ResendFrom(s: SenderState, j: nat, now: real, timeout: int, sends: nat -> SendOutcome): PollResult
    decreases |s.window| - j
  {
    if j >= |s.window| then PollResult(s, [], true)
    else if !Expired(s.window[j], now, timeout) then ResendFrom(s, j + 1, now, timeout, sends)
    else if s.window[j].retries >= MAX_RETRIES then PollResult(s, [], false)
    else match sends(j)
      case SendFailed => PollResult(s, [], false)
      case Sent(at) =>
        var rest := ResendFrom(Resend(s, j, at), j + 1, now, timeout, sends);
        PollResult(rest.state, [PacketOf(s.window[j])] + rest.sent, rest.ok)
  }

  function Scan(s: SenderState, now: real, abort: bool, sends: nat -> SendOutcome): PollResult {
    if abort && s.window != [] then PollResult(s, [], false)
    else
      var halved := if AnyExpired(s.window, now, s.timeoutMs) then Decrease(s) else s;
      ResendFrom(halved, 0, now, s.timeoutMs, sends)
  }

  function Poll(s: SenderState, input: PollInput): PollResult {
    var drained := Drain(s, input.arrivals);
    if !drained.ok then drained else Scan(drained.state, input.now, input.abortInScan, input.sends)
  }

  // ----- sendChunk and flush; `done` is None while the call is still blocked

  datatype CallResult = CallResult(state: SenderState, sent: seq<Datagram>, done: Option<bool>)

  /** Polls until the window has room below `limit` (flush: until it is empty). */
  function PollUntil(s: SenderState, polls: seq<PollInput>, flushing: bool): CallResult
    decreases |polls|
  {
    if |s.window| < (if flushing then 1 else EffectiveWindow(s)) then CallResult(s, [], Some(true))
    else if polls == [] then CallResult(s, [], None)
    else
      var p := Poll(s, polls[0]);
      if !p.ok then CallResult(p.state, p.sent, Some(false))
      else
        var rest := PollUntil(p.state, polls[1..], flushing);
        CallResult(rest.state, p.sent + rest.sent, rest.done)
  }

  /** sendChunk with room in the window: transmit, put the packet in the window, poll once. */
  function SendNow(s: SenderState, seqNum: nat, data: Data, isFinal: bool, send: SendOutcome, after: PollInput): CallResult {
    match send
    case SendFailed => CallResult(s, [], Some(false))
    case Sent(at) =>
      var p := Poll(Push(s, seqNum, data, isFinal, at), after);
      CallResult(p.state, [DataPacket(seqNum, data, isFinal)] + p.sent, Some(p.ok))
  }

  function SendChunk(s: SenderState, seqNum: nat, data: Data, isFinal: bool, abort: bool,
                     polls: seq<PollInput>, send: SendOutcome, after: PollInput): CallResult
  {
    if abort || |data| > Codec.MAX_PAYLOAD then CallResult(s, [], Some(false))
    else
      var room := PollUntil(s, polls, false);
      if room.done != Some(true) then room
      else
        var now := SendNow(room.state, seqNum, data, isFinal, send, after);
        CallResult(now.state, room.sent + now.sent, now.done)
  }

  function Flush(s: SenderState, polls: seq<PollInput>): CallResult { PollUntil(s, polls, true) }
}
