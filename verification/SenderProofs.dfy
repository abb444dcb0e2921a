/** What every step, poll and call of the windowed sender keeps, and what its polls achieve. */
module SenderProofs {
  import opened Bytes
  import opened Datagrams
  import opened WindowedSender
  import Codec

  // ----- invariants

  /** Congestion and timeout state. */
  ghost predicate Healthy(s: SenderState) {
    s.cwnd >= 1.0 && s.cleanAcks < EffectiveWindow(s) && MIN_TIMEOUT_MS <= s.timeoutMs <= MAX_TIMEOUT_MS
  }

  /** A packet's retry bookkeeping. */
  ghost predicate PacketOk(p: InFlight) {
    (p.retransmitted <==> p.retries > 0) && p.retries <= MAX_RETRIES
  }

  /**
   * With `next` the number of the next new packet: at most ten in flight, numbered consecutively
   * up to next - 1, the front one unacknowledged.
   */
  ghost predicate WindowOk(w: seq<InFlight>, next: nat) {
    |w| <= RECEIVE_WINDOW && |w| <= next &&
    (forall j :: 0 <= j < |w| ==> w[j].seqNum == next - |w| + j && PacketOk(w[j])) &&
    (w != [] ==> !w[0].acked)
  }

  ghost predicate Good(s: SenderState, next: nat) { Healthy(s) && WindowOk(s.window, next) }

  /** A new sender: four packets may be in flight, and the estimate is the timeout it was given. */
  lemma InitialGood(initialTimeoutMs: int)
    ensures Good(Initial(initialTimeoutMs), 0)
    ensures var s := Initial(initialTimeoutMs);
            s.cwnd == 4.0 && s.estimatedRttMs == s.timeoutMs as real && s.devRttMs == 0.0 &&
            s.timeoutMs == if initialTimeoutMs < 50 then 50 else if initialTimeoutMs > 2000 then 2000 else initialTimeoutMs
  {
  }

  // ----- acknowledgements

  /** Packets slid out of the front. */
  function Slid(w: seq<InFlight>): (k: nat)
    ensures k <= |w| && Slide(w) == w[k..]
    ensures forall j :: 0 <= j < k ==> w[j].acked
    ensures k < |w| ==> !w[k].acked
  {
    if w != [] && w[0].acked then assert w[1..][Slid(w[1..])..] == w[1 + Slid(w[1..])..]; 1 + Slid(w[1..])
    else 0
  }

  /** The window with packet `k` marked, as an acknowledgement leaves it before sliding. */
  function Marked(w: seq<InFlight>, ackNum: nat): (r: seq<InFlight>)
    ensures |r| == |w|
    ensures forall j :: 0 <= j < |w| ==> r[j] == w[j] || (w[j].seqNum == ackNum && r[j] == w[j].(acked := true))
  {
    var k := FindUnacked(w, ackNum);
    if k < |w| then w[k := w[k].(acked := true)] else w
  }

  lemma OnAckWindow(s: SenderState, ackNum: nat, now: real)
    ensures var m := Marked(s.window, ackNum); OnAck(s, ackNum, now).window == m[Slid(m)..]
  {
    var k, m := FindUnacked(s.window, ackNum), Marked(s.window, ackNum);
    assert k < |s.window| ==> MarkAcked(s, k, now).window == m;
    assert OnAck(s, ackNum, now).window == Slide(m);
  }

  lemma OnAckHealthy(s: SenderState, ackNum: nat, now: real)
    requires Healthy(s)
    ensures Healthy(OnAck(s, ackNum, now))
  {
    var k := FindUnacked(s.window, ackNum);
    if k < |s.window| && !s.window[k].retransmitted {
      var u := UpdateRtt(s.(window := Marked(s.window, ackNum)), now - s.window[k].sentTime);
      assert Healthy(u);
      assert Healthy(CreditCleanAck(u));
    }
  }

  lemma MarkedSlideOk(w: seq<InFlight>, next: nat, ackNum: nat)
    requires WindowOk(w, next)
    ensures var m := Marked(w, ackNum); WindowOk(m[Slid(m)..], next)
  {
    var m := Marked(w, ackNum);
    var v := m[Slid(m)..];
    forall j | 0 <= j < |v|
      ensures v[j].seqNum == next - |v| + j && PacketOk(v[j])
    {
      assert v[j] == m[Slid(m) + j];
      assert PacketOk(w[Slid(m) + j]);
    }
  }

  lemma OnAckGood(s: SenderState, next: nat, ackNum: nat, now: real)
    requires Good(s, next)
    ensures Good(OnAck(s, ackNum, now), next)
  {
    OnAckHealthy(s, ackNum, now);
    OnAckWindow(s, ackNum, now);
    MarkedSlideOk(s.window, next, ackNum);
  }

  /**
   * Only the first acknowledgement of a packet sent exactly once moves the estimator or the window
   * credit (section 3 of RFC 6298), and then by these weights: the deviation by a quarter, from the
   * old estimate; the estimate by an eighth; the window by one after a full window of credits.
   */
  lemma OnlyFirstTransmissionsSampled(s: SenderState, next: nat, ackNum: nat, now: real)
    requires Good(s, next)
    ensures var t, k := OnAck(s, ackNum, now), FindUnacked(s.window, ackNum);
            if k < |s.window| && s.window[k].retries == 0 then
              var sample := now - s.window[k].sentTime;
              && t.devRttMs == 0.75 * s.devRttMs + 0.25 * Distance(sample, s.estimatedRttMs)
              && t.estimatedRttMs == 0.875 * s.estimatedRttMs + 0.125 * sample
              && t.timeoutMs == Clamp(Ceiling(t.estimatedRttMs + 4.0 * t.devRttMs), MIN_TIMEOUT_MS, MAX_TIMEOUT_MS)
              && (if s.cleanAcks + 1 == EffectiveWindow(s) then t.cwnd == s.cwnd + 1.0 && t.cleanAcks == 0
                  else t.cwnd == s.cwnd && t.cleanAcks == s.cleanAcks + 1)
            else t == s.(window := t.window)
  {
    var k := FindUnacked(s.window, ackNum);
    if k < |s.window| {
      assert PacketOk(s.window[k]);
    }
  }

  // ----- a poll

  lemma {:induction false} DrainGood(s: SenderState, next: nat, arrivals: seq<Observation>)
    requires Good(s, next)
    ensures Good(Drain(s, arrivals).state, next) && Drain(s, arrivals).sent == []
    decreases |arrivals|
  {
    if arrivals != [] {
      match arrivals[0]
      case AbortSeen =>
      case SocketError =>
      case Rejected => DrainGood(s, next, arrivals[1..]);
      case Arrived(d, at) =>
        OnAckGood(s, next, d.ackNum, at);
        DrainGood(OnAck(s, d.ackNum, at), next, arrivals[1..]);
        DrainGood(s, next, arrivals[1..]);
    }
  }

  /** Datagrams for the expired packets of `w`, oldest first. */
  function ExpiredPackets(w: seq<InFlight>, now: real, timeout: int): seq<Datagram> {
    if w == [] then []
    else (if Expired(w[0], now, timeout) then [PacketOf(w[0])] else []) + ExpiredPackets(w[1..], now, timeout)
  }

  /** What retransmission makes of one packet, given its send time. */
  function Resent(p: InFlight, now: real, timeout: int, outcome: SendOutcome): InFlight {
    if Expired(p, now, timeout) && outcome.Sent?
    then p.(retries := p.retries + 1, sentTime := outcome.at, retransmitted := true) else p
  }

  /** The retransmission loop can run to its end. */
  ghost predicate CanResend(w: seq<InFlight>, j: nat, now: real, timeout: int, sends: nat -> SendOutcome) {
    forall i :: j <= i < |w| && Expired(w[i], now, timeout) ==> w[i].retries < MAX_RETRIES && sends(i).Sent?
  }

  /** Window `v` is `w` with some of its expired packets from `j` on resent. */
  ghost predicate PartlyResent(v: seq<InFlight>, w: seq<InFlight>, j: nat, now: real, timeout: int,
                               sends: nat -> SendOutcome)
  {
    |v| == |w| && (forall i :: 0 <= i < j && i < |w| ==> v[i] == w[i]) &&
    forall i :: j <= i < |w| ==>
      v[i] == w[i] || (w[i].retries < MAX_RETRIES && v[i] == Resent(w[i], now, timeout, sends(i)))
  }

  /** Window `v` is `w` with every expired packet from `j` on resent. */
  ghost predicate FullyResent(v: seq<InFlight>, w: seq<InFlight>, j: nat, now: real, timeout: int,
                              sends: nat -> SendOutcome)
  {
    |v| == |w| && forall i :: j <= i < |w| ==> v[i] == Resent(w[i], now, timeout, sends(i))
  }

  lemma {:induction false} ResendFromWindow(s: SenderState, j: nat, now: real, timeout: int, sends: nat -> SendOutcome)
    requires j <= |s.window|
    ensures var r := ResendFrom(s, j, now, timeout, sends);
            && r.state == s.(window := r.state.window)
            && PartlyResent(r.state.window, s.window, j, now, timeout, sends)
            && (r.ok ==> FullyResent(r.state.window, s.window, j, now, timeout, sends))
    decreases |s.window| - j
  {
    if j < |s.window| {
      var p := s.window[j];
      if !Expired(p, now, timeout) {
        ResendFromWindow(s, j + 1, now, timeout, sends);
      } else if p.retries < MAX_RETRIES && sends(j).Sent? {
        ResendFromWindow(Resend(s, j, sends(j).at), j + 1, now, timeout, sends);
      }
    }
  }

  /**
   * The retransmission loop sends exactly the expired packets, in order; it stops short
   * exactly when an expired packet is out of retries or a send fails.
   */
  lemma {:induction false} ResendFromSends(s: SenderState, j: nat, now: real, timeout: int, sends: nat -> SendOutcome)
    requires j <= |s.window|
    ensures var r := ResendFrom(s, j, now, timeout, sends);
            var all := ExpiredPackets(s.window[j..], now, timeout);
            && (r.ok <==> CanResend(s.window, j, now, timeout, sends))
            && r.sent <= all && (r.ok ==> r.sent == all)
    decreases |s.window| - j
  {
    if j < |s.window| {
      var p := s.window[j];
      assert s.window[j..][1..] == s.window[j + 1..];
      if !Expired(p, now, timeout) {
        ResendFromSends(s, j + 1, now, timeout, sends);
      } else if p.retries < MAX_RETRIES && sends(j).Sent? {
        var t := Resend(s, j, sends(j).at);
        ResendFromSends(t, j + 1, now, timeout, sends);
        assert t.window[j + 1..] == s.window[j + 1..];
        assert CanResend(t.window, j + 1, now, timeout, sends) == CanResend(s.window, j, now, timeout, sends);
      }
    }
  }

  lemma {:induction false} SomeExpired(w: seq<InFlight>, now: real, timeout: int)
    ensures AnyExpired(w, now, timeout) <==> ExpiredPackets(w, now, timeout) != []
  {
    if w != [] {
      SomeExpired(w[1..], now, timeout);
      if AnyExpired(w, now, timeout) {
        var j :| 0 <= j < |w| && Expired(w[j], now, timeout);
        assert j > 0 ==> Expired(w[1..][j - 1], now, timeout);
      }
      if AnyExpired(w[1..], now, timeout) {
        var j :| 0 <= j < |w[1..]| && Expired(w[1..][j], now, timeout);
        assert Expired(w[j + 1], now, timeout);
      }
    }
  }

  /**
   * One scan: halves once exactly when something expired, resends exactly the expired packets
   * under the timeout from before the halving, and charges each halving to at least one
   * retransmission unless the poll fails.
   */
  lemma ScanExact(s: SenderState, now: real, abort: bool, sends: nat -> SendOutcome)
    requires !(abort && s.window != [])
    ensures var r := Scan(s, now, abort, sends);
            var all := ExpiredPackets(s.window, now, s.timeoutMs);
            && r.state == (if all != [] then Decrease(s) else s).(window := r.state.window)
            && (r.ok <==> CanResend(s.window, 0, now, s.timeoutMs, sends))
            && r.sent <= all && (r.ok ==> r.sent == all)
            && PartlyResent(r.state.window, s.window, 0, now, s.timeoutMs, sends)
            && (r.ok ==> FullyResent(r.state.window, s.window, 0, now, s.timeoutMs, sends))
  {
    SomeExpired(s.window, now, s.timeoutMs);
    var halved := if AnyExpired(s.window, now, s.timeoutMs) then Decrease(s) else s;
    ResendFromWindow(halved, 0, now, s.timeoutMs, sends);
    ResendFromSends(halved, 0, now, s.timeoutMs, sends);
    assert s.window[0..] == s.window;
  }

  lemma ScanGood(s: SenderState, next: nat, now: real, abort: bool, sends: nat -> SendOutcome)
    requires Good(s, next)
    ensures Good(Scan(s, now, abort, sends).state, next)
  {
    if !(abort && s.window != []) {
      ScanExact(s, now, abort, sends);
      var w := Scan(s, now, abort, sends).state.window;
      forall j | 0 <= j < |w|
        ensures w[j].seqNum == next - |w| + j && PacketOk(w[j]) && w[j].acked == s.window[j].acked
      {
        assert PacketOk(s.window[j]);
      }
    }
  }

  lemma PollGood(s: SenderState, next: nat, input: PollInput)
    requires Good(s, next)
    ensures Good(Poll(s, input).state, next)
  {
    DrainGood(s, next, input.arrivals);
    var d := Drain(s, input.arrivals);
    if d.ok {
      ScanGood(d.state, next, input.now, input.abortInScan, input.sends);
    }
  }

  // ----- what ends a poll

  /** An abort, or a bare NAK. */
  predicate Fatal(o: Observation) {
    o.AbortSeen? || (o.Arrived? && o.d.flags.nak && !o.d.flags.data && o.d.payload == [])
  }

  /** The receive loop fails exactly when it comes upon an abort or a NAK; a socket error ends it before. */
  lemma {:induction false} DrainFailsIff(s: SenderState, arrivals: seq<Observation>)
    ensures Drain(s, arrivals).ok <==>
              forall k :: 0 <= k < |arrivals| && Fatal(arrivals[k]) ==> exists j :: 0 <= j < k && arrivals[j].SocketError?
    decreases |arrivals|
  {
    if arrivals != [] && !Fatal(arrivals[0]) && !arrivals[0].SocketError? {
      var rest := arrivals[1..];
      DrainFailsIff(s, rest);
      if arrivals[0].Arrived? {
        DrainFailsIff(OnAck(s, arrivals[0].d.ackNum, arrivals[0].at), rest);
      }
      FatalLater(arrivals);
    }
  }

  /** An observation that neither fails the loop nor ends it can be dropped. */
  lemma FatalLater(arrivals: seq<Observation>)
    requires arrivals != [] && !Fatal(arrivals[0]) && !arrivals[0].SocketError?
    ensures var rest := arrivals[1..];
            (forall k :: 0 <= k < |arrivals| && Fatal(arrivals[k]) ==> exists j :: 0 <= j < k && arrivals[j].SocketError?)
            <==> (forall k :: 0 <= k < |rest| && Fatal(rest[k]) ==> exists j :: 0 <= j < k && rest[j].SocketError?)
  {
    var rest := arrivals[1..];
    if forall k :: 0 <= k < |arrivals| && Fatal(arrivals[k]) ==> exists j :: 0 <= j < k && arrivals[j].SocketError? {
      forall k | 0 <= k < |rest| && Fatal(rest[k]) ensures exists j :: 0 <= j < k && rest[j].SocketError? {
        var j :| 0 <= j < k + 1 && arrivals[j].SocketError? by { assert Fatal(arrivals[k + 1]); }
        assert rest[j - 1].SocketError?;
      }
    }
    if forall k :: 0 <= k < |rest| && Fatal(rest[k]) ==> exists j :: 0 <= j < k && rest[j].SocketError? {
      forall k | 0 <= k < |arrivals| && Fatal(arrivals[k]) ensures exists j :: 0 <= j < k && arrivals[j].SocketError? {
        var j :| 0 <= j < k - 1 && rest[j].SocketError? by { assert Fatal(rest[k - 1]); }
        assert arrivals[j + 1].SocketError?;
      }
    }
  }

  /**
   * A poll succeeds exactly when its receive loop met neither an abort nor a NAK, no abort was seen with
   * packets in flight, and every packet that was due, more than the timeout after its last transmission,
   * had a retry left and got out; it then sent exactly these. A poll that fails before its
   * retransmissions sends nothing.
   */
  lemma PollSucceedsIff(s: SenderState, input: PollInput)
    ensures var d := Drain(s, input.arrivals);
            var w, t := d.state.window, d.state.timeoutMs;
            && (Poll(s, input).ok <==>
                  && d.ok && !(input.abortInScan && w != [])
                  && forall i :: 0 <= i < |w| && !w[i].acked && input.now - w[i].sentTime >= (t + 1) as real ==>
                       w[i].retries < 10 && input.sends(i).Sent?)
            && (!d.ok || (input.abortInScan && w != []) ==> Poll(s, input) == PollResult(d.state, [], false))
            && (Poll(s, input).ok ==> Poll(s, input).sent == ExpiredPackets(w, input.now, t))
  {
    var d := Drain(s, input.arrivals);
    DrainSendsNothing(s, input.arrivals);
    if d.ok && !(input.abortInScan && d.state.window != []) {
      ScanExact(d.state, input.now, input.abortInScan, input.sends);
    }
  }

  /** What a poll sends are copies of packets already in flight. */
  lemma PollSendsOld(s: SenderState, next: nat, input: PollInput)
    requires Good(s, next)
    ensures forall p :: p in Poll(s, input).sent ==> p.seqNum < next
  {
    DrainGood(s, next, input.arrivals);
    var d := Drain(s, input.arrivals).state;
    if Drain(s, input.arrivals).ok && !(input.abortInScan && d.window != []) {
      ScanExact(d, input.now, input.abortInScan, input.sends);
      var all := ExpiredPackets(d.window, input.now, d.timeoutMs);
      ExpiredAreOld(d.window, next, input.now, d.timeoutMs);
      forall p | p in Poll(s, input).sent ensures p in all {
        var i :| 0 <= i < |Poll(s, input).sent| && Poll(s, input).sent[i] == p;
        assert all[i] == p;
      }
    }
  }

  lemma {:induction false} ExpiredAreOld(w: seq<InFlight>, next: nat, now: real, timeout: int)
    requires forall j :: 0 <= j < |w| ==> w[j].seqNum < next
    ensures forall p :: p in ExpiredPackets(w, now, timeout) ==> p.seqNum < next
  {
    if w != [] {
      ExpiredAreOld(w[1..], next, now, timeout);
    }
  }

  // ----- calls

  lemma {:induction false} PollUntilGood(s: SenderState, next: nat, polls: seq<PollInput>, flushing: bool)
    requires Good(s, next)
    ensures var r := PollUntil(s, polls, flushing);
            Good(r.state, next) &&
            (r.done == Some(true) ==> |r.state.window| < if flushing then 1 else EffectiveWindow(r.state))
    decreases |polls|
  {
    if |s.window| >= (if flushing then 1 else EffectiveWindow(s)) && polls != [] {
      PollGood(s, next, polls[0]);
      if Poll(s, polls[0]).ok {
        PollUntilGood(Poll(s, polls[0]).state, next, polls[1..], flushing);
      }
    }
  }

  lemma PushGood(s: SenderState, next: nat, data: Data, isFinal: bool, at: real)
    requires Good(s, next) && |s.window| < EffectiveWindow(s)
    ensures Good(Push(s, next, data, isFinal, at), next + 1)
  {
    var w := Push(s, next, data, isFinal, at).window;
    forall j | 0 <= j < |w|
      ensures w[j].seqNum == next + 1 - |w| + j && PacketOk(w[j])
    {
      assert j < |s.window| ==> PacketOk(s.window[j]);
    }
  }

  /** sendChunk with the next number keeps the window invariant, blocked or not, failed or not. */
  lemma SendChunkGood(s: SenderState, next: nat, data: Data, isFinal: bool, abort: bool,
                      polls: seq<PollInput>, send: SendOutcome, after: PollInput)
    requires Good(s, next)
    ensures var r := SendChunk(s, next, data, isFinal, abort, polls, send, after);
            Good(r.state, next) || Good(r.state, next + 1)
    ensures var r := SendChunk(s, next, data, isFinal, abort, polls, send, after);
            r.done == Some(true) ==> Good(r.state, next + 1)
  {
    if !abort && |data| <= Codec.MAX_PAYLOAD {
      PollUntilGood(s, next, polls, false);
      var room := PollUntil(s, polls, false);
      if room.done == Some(true) && send.Sent? {
        PushGood(room.state, next, data, isFinal, send.at);
        PollGood(Push(room.state, next, data, isFinal, send.at), next + 1, after);
      }
    }
  }

  /** Room for one more packet, told from the congestion window: an empty window always has it. */
  ghost predicate HasRoom(s: SenderState) {
    s.window == [] || (|s.window| < 10 && (|s.window| + 1) as real <= s.cwnd)
  }

  lemma {:induction false} PollUntilSendsOld(s: SenderState, next: nat, polls: seq<PollInput>, flushing: bool)
    requires Good(s, next)
    ensures forall p :: p in PollUntil(s, polls, flushing).sent ==> p.seqNum < next
    decreases |polls|
  {
    if |s.window| >= (if flushing then 1 else EffectiveWindow(s)) && polls != [] {
      PollGood(s, next, polls[0]);
      PollSendsOld(s, next, polls[0]);
      if Poll(s, polls[0]).ok {
        PollUntilSendsOld(Poll(s, polls[0]).state, next, polls[1..], flushing);
      }
    }
  }

  /** A wait is over exactly when there is room; it is still on only while every poll succeeded and there is none. */
  lemma {:induction false} WaitsForRoom(s: SenderState, next: nat, polls: seq<PollInput>)
    requires Good(s, next)
    ensures var r := PollUntil(s, polls, false);
            (r.done == Some(true) ==> HasRoom(r.state)) && (r.done == None ==> !HasRoom(r.state)) &&
            (HasRoom(s) ==> r == CallResult(s, [], Some(true)))
    decreases |polls|
  {
    if !HasRoom(s) && polls != [] {
      PollGood(s, next, polls[0]);
      if Poll(s, polls[0]).ok {
        WaitsForRoom(Poll(s, polls[0]).state, next, polls[1..]);
      }
    }
  }

  /**
   * A sendChunk that is neither aborted nor too long transmits its chunk exactly when it comes to room in
   * the congestion window and the send gets out: at once if there is room, and with as many packets in
   * flight as the window's whole part, or ten, not before a poll. Otherwise it sends nothing.
   */
  lemma TransmitsWithinWindow(s: SenderState, next: nat, data: Data, isFinal: bool, abort: bool,
                              polls: seq<PollInput>, send: SendOutcome, after: PollInput)
    requires Good(s, next)
    ensures var r := SendChunk(s, next, data, isFinal, abort, polls, send, after);
            var wait := PollUntil(s, polls, false);
            var admitted := !abort && |data| <= 1024;
            && (DataPacket(next, data, isFinal) in r.sent <==> admitted && wait.done == Some(true) && send.Sent?)
            && (DataPacket(next, data, isFinal) in r.sent ==> HasRoom(wait.state))
            && (r.done == Some(true) ==> DataPacket(next, data, isFinal) in r.sent)
            && (r.done == None ==> !HasRoom(r.state))
            && (admitted && HasRoom(s) && send.Sent? ==> r.sent != [] && r.sent[0] == DataPacket(next, data, isFinal))
            && (admitted && !HasRoom(s) && polls == [] ==> r == CallResult(s, [], None))
            && (!admitted ==> r == CallResult(s, [], Some(false)))
  {
    var packet := DataPacket(next, data, isFinal);
    if !abort && |data| <= 1024 {
      var wait := PollUntil(s, polls, false);
      WaitsForRoom(s, next, polls);
      PollUntilSendsOld(s, next, polls, false);
      assert packet !in wait.sent;
      if wait.done == Some(true) && send.Sent? {
        var r := SendChunk(s, next, data, isFinal, abort, polls, send, after);
        assert r.sent[|wait.sent|] == packet;
      }
    }
  }

  /** The packet that goes out is remembered with its send time, as sent once and not acknowledged. */
  lemma NewPacketRemembered(s: SenderState, next: nat, data: Data, isFinal: bool, at: real, after: PollInput)
    requires Good(s, next) && HasRoom(s) && |data| <= 1024 && after.arrivals == [] && after.now == at
    ensures var r := SendChunk(s, next, data, isFinal, false, [], Sent(at), after);
            |r.state.window| == |s.window| + 1 &&
            var p := r.state.window[|s.window|];
            p.sentTime == at && p.retries == 0 && !p.acked && !p.retransmitted &&
            PacketOf(p) == DataPacket(next, data, isFinal)
  {
    var pushed := Push(s, next, data, isFinal, at);
    PushGood(s, next, data, isFinal, at);
    if !after.abortInScan {
      ScanExact(pushed, at, false, after.sends);
      var w := Scan(pushed, at, false, after.sends).state.window;
      assert w[|s.window|] == pushed.window[|s.window|];
    }
  }

  /** sendChunk looks for acknowledgements before it returns: one that is already there empties the window. */
  lemma AcknowledgedOnTheSpot(s: SenderState, next: nat, data: Data, isFinal: bool, at: real, after: PollInput, now: real)
    requires Good(s, next) && s.window == [] && |data| <= 1024 && after.arrivals == [Arrived(Ack(next), now)]
    ensures var r := SendChunk(s, next, data, isFinal, false, [], Sent(at), after);
            r == CallResult(r.state, [DataPacket(next, data, isFinal)], Some(true)) && r.state.window == []
  {
    var pushed := Push(s, next, data, isFinal, at);
    assert after.arrivals[1..] == [];
    var heard := OnAck(pushed, next, now);
    OnAckWindow(pushed, next, now);
    assert Drain(pushed, after.arrivals) == PollResult(heard, [], true);
    assert pushed.window[0].seqNum == next && FindUnacked(pushed.window, next) == 0;
    assert heard.window == [];
  }

  /** Polling on more inputs is polling on the first part and, if still blocked, on the second. */
  lemma {:induction false} PollUntilResumes(s: SenderState, a: seq<PollInput>, b: seq<PollInput>, flushing: bool)
    ensures var x := PollUntil(s, a, flushing);
            var y := PollUntil(x.state, b, flushing);
            PollUntil(s, a + b, flushing) == if x.done.Some? then x else CallResult(y.state, x.sent + y.sent, y.done)
    decreases |a|
  {
    if a == [] {
      assert a + b == b;
    } else if |s.window| >= (if flushing then 1 else EffectiveWindow(s)) {
      assert (a + b)[1..] == a[1..] + b;
      var p := Poll(s, a[0]);
      if p.ok {
        PollUntilResumes(p.state, a[1..], b, flushing);
        var x := PollUntil(p.state, a[1..], flushing);
        Associative(p.sent, x.sent, PollUntil(x.state, b, flushing).sent);
      }
    }
  }

  // ----- bounded work

  /** Transmissions a packet may still cost, plus one for its acknowledgement. */
  function Budget(p: InFlight): int { if p.acked then 0 else MAX_RETRIES + 1 - p.retries }

  function Work(w: seq<InFlight>): int { if w == [] then 0 else Budget(w[0]) + Work(w[1..]) }

  lemma {:induction false} WorkPointwise(v: seq<InFlight>, w: seq<InFlight>)
    requires |v| == |w| && forall j :: 0 <= j < |w| ==> Budget(v[j]) <= Budget(w[j])
    ensures Work(v) <= Work(w)
    ensures (exists j :: 0 <= j < |w| && Budget(v[j]) < Budget(w[j])) ==> Work(v) < Work(w)
  {
    if w != [] {
      forall j | 0 <= j < |w[1..]| ensures Budget(v[1..][j]) <= Budget(w[1..][j]) {
        assert v[1..][j] == v[j + 1] && w[1..][j] == w[j + 1];
      }
      WorkPointwise(v[1..], w[1..]);
      if j :| 0 <= j < |w| && Budget(v[j]) < Budget(w[j]) {
        assert j > 0 ==> Budget(v[1..][j - 1]) < Budget(w[1..][j - 1]);
      }
    }
  }

  lemma {:induction false} WorkOfSlide(w: seq<InFlight>)
    ensures Work(Slide(w)) == Work(w)
  {
    if w != [] && w[0].acked {
      WorkOfSlide(w[1..]);
    }
  }

  /** An acknowledgement either leaves the window alone or uses up work. */
  lemma OnAckWork(s: SenderState, next: nat, ackNum: nat, now: real)
    requires Good(s, next)
    ensures var t := OnAck(s, ackNum, now); Work(t.window) < Work(s.window) || t == s
  {
    var m := Marked(s.window, ackNum);
    forall j | 0 <= j < |m| ensures Budget(m[j]) <= Budget(s.window[j]) {
      assert PacketOk(s.window[j]);
    }
    WorkPointwise(m, s.window);
    WorkOfSlide(m);
    var k := FindUnacked(s.window, ackNum);
    if k < |s.window| {
      assert PacketOk(s.window[k]);
      assert Budget(m[k]) < Budget(s.window[k]);
    } else {
      assert m == s.window && Slide(m) == m;
    }
  }

  lemma {:induction false} DrainWork(s: SenderState, next: nat, arrivals: seq<Observation>)
    requires Good(s, next)
    ensures var d := Drain(s, arrivals); Work(d.state.window) < Work(s.window) || d.state == s
    decreases |arrivals|
  {
    if arrivals != [] {
      match arrivals[0]
      case AbortSeen =>
      case SocketError =>
      case Rejected => DrainWork(s, next, arrivals[1..]);
      case Arrived(d, at) =>
        OnAckGood(s, next, d.ackNum, at);
        OnAckWork(s, next, d.ackNum, at);
        DrainWork(OnAck(s, d.ackNum, at), next, arrivals[1..]);
        DrainWork(s, next, arrivals[1..]);
    }
  }

  /**
   * The termination measure of flush: a poll that succeeds either changes nothing and sends
   * nothing, or uses up work.
   */
  lemma PollUsesWork(s: SenderState, next: nat, input: PollInput)
    requires Good(s, next) && Poll(s, input).ok
    ensures var r := Poll(s, input);
            Work(r.state.window) < Work(s.window) || (r.state == s && r.sent == [])
  {
    DrainGood(s, next, input.arrivals);
    DrainWork(s, next, input.arrivals);
    var d := Drain(s, input.arrivals).state;
    ScanExact(d, input.now, input.abortInScan, input.sends);
    var r := Poll(s, input);
    WorkPointwise(r.state.window, d.window);
    SomeExpired(d.window, input.now, d.timeoutMs);
    if AnyExpired(d.window, input.now, d.timeoutMs) {
      var j :| 0 <= j < |d.window| && Expired(d.window[j], input.now, d.timeoutMs);
      assert Budget(r.state.window[j]) < Budget(d.window[j]);
    } else {
      assert r.state.window == d.window;
    }
  }

  /** Polls of a blocked call that did something. */
  function EffectivePolls(s: SenderState, polls: seq<PollInput>, flushing: bool): nat
    decreases |polls|
  {
    if |s.window| < (if flushing then 1 else EffectiveWindow(s)) || polls == [] || !Poll(s, polls[0]).ok then 0
    else (if Poll(s, polls[0]).state == s then 0 else 1) + EffectivePolls(Poll(s, polls[0]).state, polls[1..], flushing)
  }

  lemma {:induction false} WorkBound(w: seq<InFlight>)
    requires forall j :: 0 <= j < |w| ==> PacketOk(w[j])
    ensures 0 <= Work(w) <= 11 * |w|
  {
    if w != [] {
      assert PacketOk(w[0]);
      forall j | 0 <= j < |w[1..]| ensures PacketOk(w[1..][j]) { assert w[1..][j] == w[j + 1]; }
      WorkBound(w[1..]);
    }
  }

  /** However long a call stays blocked, at most 110 of its polls do anything. */
  lemma {:induction false} BlockedCallBounded(s: SenderState, next: nat, polls: seq<PollInput>, flushing: bool)
    requires Good(s, next)
    ensures EffectivePolls(s, polls, flushing) <= Work(s.window) <= 110
    decreases |polls|
  {
    WorkBound(s.window);
    if |s.window| >= (if flushing then 1 else EffectiveWindow(s)) && polls != [] && Poll(s, polls[0]).ok {
      PollGood(s, next, polls[0]);
      PollUsesWork(s, next, polls[0]);
      BlockedCallBounded(Poll(s, polls[0]).state, next, polls[1..], flushing);
    }
  }

  // ----- a flush that hears nothing

  /** A poll that sees nothing, every retransmission getting out. */
  function SilentPoll(now: real): PollInput { PollInput([], now, false, _ => Sent(now)) }

  function SilentPolls(nows: seq<real>): seq<PollInput> {
    if nows == [] then [] else [SilentPoll(nows[0])] + SilentPolls(nows[1..])
  }

  /** More than any timeout has passed since every packet in flight was last sent. */
  ghost predicate Overdue(w: seq<InFlight>, now: real) {
    forall j :: 0 <= j < |w| && !w[j].acked ==> now >= w[j].sentTime + 2001.0
  }

  /** A silent poll fails at the retry limit of the front packet; until then it retransmits everything in flight. */
  lemma SilentPollResends(s: SenderState, next: nat, now: real)
    requires Good(s, next) && s.window != [] && Overdue(s.window, now)
    ensures var r := Poll(s, SilentPoll(now));
            r.ok ==> s.window[0].retries < MAX_RETRIES && |r.state.window| == |s.window| &&
                     r.state.window[0].retries == s.window[0].retries + 1 && Overdue(r.state.window, now + 2001.0)
  {
    var r, w := Poll(s, SilentPoll(now)), s.window;
    ScanExact(s, now, false, SilentPoll(now).sends);
    assert forall j :: 0 <= j < |w| && !w[j].acked ==> Expired(w[j], now, s.timeoutMs);
    if r.ok {
      assert Expired(w[0], now, s.timeoutMs) && PacketOk(w[0]);
      forall j | 0 <= j < |w| && !r.state.window[j].acked ensures r.state.window[j].sentTime == now {
        assert r.state.window[j] == Resent(w[j], now, s.timeoutMs, Sent(now));
      }
    }
  }

  /**
   * If every acknowledgement is lost, flush fails: eleven polls, each more than the longest timeout
   * after the one before, exhaust the retries of the front packet.
   */
  lemma {:induction false} SilentFlushFails(s: SenderState, next: nat, nows: seq<real>)
    requires Good(s, next) && s.window != [] && |nows| >= MAX_RETRIES + 1 - s.window[0].retries
    requires Overdue(s.window, nows[0]) && forall i :: 0 < i < |nows| ==> nows[i] >= nows[i - 1] + 2001.0
    ensures Flush(s, SilentPolls(nows)).done == Some(false)
    decreases |nows|
  {
    var r := Poll(s, SilentPoll(nows[0]));
    assert PacketOk(s.window[0]);
    SilentPollResends(s, next, nows[0]);
    assert SilentPolls(nows)[1..] == SilentPolls(nows[1..]);
    if r.ok {
      PollGood(s, next, SilentPoll(nows[0]));
      assert Overdue(r.state.window, nows[1]);
      SilentFlushFails(r.state, next, nows[1..]);
    }
  }

  // ----- back-off and the estimator

  function Pow2(k: nat): (r: nat)
    ensures r >= 1
  {
    if k == 0 then 1 else 2 * Pow2(k - 1)
  }

  function DecreaseTimes(s: SenderState, k: nat): SenderState {
    if k == 0 then s else Decrease(DecreaseTimes(s, k - 1))
  }

  /** Back-to-back decreases halve and double exactly, down to one and up to the cap (rule 5.5 of RFC 6298). */
  lemma {:induction false} BackOff(s: SenderState, k: nat)
    requires Healthy(s)
    ensures var t := DecreaseTimes(s, k);
            t.cwnd == Max(1.0, s.cwnd / (Pow2(k) as real)) && (k > 0 ==> t.cleanAcks == 0) &&
            t.window == s.window && t.estimatedRttMs == s.estimatedRttMs && t.devRttMs == s.devRttMs &&
            t.timeoutMs == (if s.timeoutMs * Pow2(k) < MAX_TIMEOUT_MS then s.timeoutMs * Pow2(k) else MAX_TIMEOUT_MS)
  {
    if k == 0 {
      assert s.cwnd / 1.0 == s.cwnd;
    } else {
      BackOff(s, k - 1);
      var p := Pow2(k - 1);
      HalvedTwice(s.cwnd, p);
      DoubledTwice(s.timeoutMs, p);
    }
  }

  lemma HalvedTwice(c: real, p: nat)
    requires p >= 1
    ensures c / (p as real) / 2.0 == c / ((2 * p) as real)
  {
    var x, q := c / (p as real), p as real;
    assert (2 * p) as real == 2.0 * q;
    assert c == x * q;
    assert x / 2.0 * (2.0 * q) == c;
  }

  lemma DoubledTwice(x: int, p: nat)
    requires x >= 0 && p >= 1
    ensures x * (2 * p) == 2 * (x * p) && x * p >= x
  {
  }

  function Estimate(s: SenderState, samples: seq<real>): SenderState
    decreases |samples|
  {
    if samples == [] then s else Estimate(UpdateRtt(s, samples[0]), samples[1..])
  }

  /**
   * The estimate stays inside any range that holds its start and the samples; the deviation
   * stays within the width of the range; the timeout stays within its limits.
   */
  lemma {:induction false} EstimatorBounded(s: SenderState, samples: seq<real>, low: real, high: real)
    requires low <= s.estimatedRttMs <= high && 0.0 <= s.devRttMs <= high - low
    requires MIN_TIMEOUT_MS <= s.timeoutMs <= MAX_TIMEOUT_MS
    requires forall i :: 0 <= i < |samples| ==> low <= samples[i] <= high
    ensures var t := Estimate(s, samples);
            low <= t.estimatedRttMs <= high && 0.0 <= t.devRttMs <= high - low &&
            MIN_TIMEOUT_MS <= t.timeoutMs <= MAX_TIMEOUT_MS
    decreases |samples|
  {
    if samples != [] {
      var u := UpdateRtt(s, samples[0]);
      assert low <= samples[0] <= high;
      EstimatorBounded(u, samples[1..], low, high);
    }
  }
}
