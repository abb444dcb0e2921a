/** RdtSender of the server: the deque and the estimator fields, updated in place by loops. */
module RdtSender {
  import opened Bytes
  import opened Datagrams
  import opened WindowedSender
  import Codec

  /** Polling from `start` comes to `sent` so far and polling on from `s` with the rest. */
  ghost predicate Ahead(start: SenderState, polls: seq<PollInput>, flushing: bool, sent: seq<Datagram>,
                        s: SenderState, rest: seq<PollInput>)
  {
    var more := PollUntil(s, rest, flushing);
    PollUntil(start, polls, flushing) == CallResult(more.state, sent + more.sent, more.done)
  }

  lemma AheadStep(start: SenderState, polls: seq<PollInput>, flushing: bool, sent: seq<Datagram>,
                  s: SenderState, rest: seq<PollInput>)
    requires Ahead(start, polls, flushing, sent, s, rest)
    requires |s.window| >= if flushing then 1 else EffectiveWindow(s)
    ensures if rest == [] then PollUntil(start, polls, flushing) == CallResult(s, sent, None)
            else
              var p := Poll(s, rest[0]);
              if p.ok then Ahead(start, polls, flushing, sent + p.sent, p.state, rest[1..])
              else PollUntil(start, polls, flushing) == CallResult(p.state, sent + p.sent, Some(false))
  {
    if rest == [] {
      assert sent + [] == sent;
    } else if Poll(s, rest[0]).ok {
      var p := Poll(s, rest[0]);
      Associative(sent, p.sent, PollUntil(p.state, rest[1..], flushing).sent);
    }
  }

  class RdtSender {
    var window: seq<InFlight>
    var cwnd: real
    var cleanAcks: nat
    var timeoutMs: int
    var estimatedRttMs: real
    var devRttMs: real
    /** Datagrams handed to sendto, in order. */
    var wire: seq<Datagram>

    function State(): SenderState
      reads this
    {
      SenderState(window, cwnd, cleanAcks, timeoutMs, estimatedRttMs, devRttMs)
    }

    constructor (initialTimeoutMs: int)
      ensures State() == Initial(initialTimeoutMs) && wire == []
    {
      window, wire := [], [];
      var timeout := Clamp(initialTimeoutMs, MIN_TIMEOUT_MS, MAX_TIMEOUT_MS);
      timeoutMs, estimatedRttMs, devRttMs := timeout, timeout as real, 0.0;
      cwnd, cleanAcks := 4.0, 0;
    }

    method UpdateRtt(sample: real)
      modifies `timeoutMs, `estimatedRttMs, `devRttMs
      ensures State() == WindowedSender.UpdateRtt(old(State()), sample)
    {
      var previous := estimatedRttMs;
      devRttMs := 0.75 * devRttMs + 0.25 * Distance(sample, previous);
      estimatedRttMs := 0.875 * estimatedRttMs + 0.125 * sample;
      timeoutMs := Clamp(Ceiling(estimatedRttMs + 4.0 * devRttMs), MIN_TIMEOUT_MS, MAX_TIMEOUT_MS);
    }

    method ApplyCongestionDecrease()
      modifies `cwnd, `cleanAcks, `timeoutMs
      ensures State() == Decrease(old(State()))
    {
      cwnd := Max(1.0, cwnd / 2.0);
      cleanAcks := 0;
      timeoutMs := Clamp(timeoutMs * 2, MIN_TIMEOUT_MS, MAX_TIMEOUT_MS);
    }

    /** The loop that finds the packet and marks it. */
    method MarkPacket(ackNum: nat, now: real)
      modifies this
      ensures var k := FindUnacked(old(window), ackNum);
              State() == if k < |old(window)| then MarkAcked(old(State()), k, now) else old(State())
      ensures wire == old(wire)
    {
      var k := 0;
      while k < |window| && !(window[k].seqNum == ackNum && !window[k].acked)
        invariant k <= |window|
        invariant forall j :: 0 <= j < k ==> !(window[j].seqNum == ackNum && !window[j].acked)
      {
        k := k + 1;
      }
      if k < |window| {
        assert FindUnacked(window, ackNum) == k;
        var p := window[k];
        window := window[k := p.(acked := true)];
        if !p.retransmitted {
          UpdateRtt(now - p.sentTime);
          cleanAcks := cleanAcks + 1;
          if cleanAcks >= EffectiveWindow(State()) {
            cwnd := cwnd + 1.0;
            cleanAcks := 0;
          }
        }
      }
    }

    /** The acknowledgement branch: mark the packet, then slide past acknowledged ones. */
    method HandleAck(ackNum: nat, now: real)
      modifies this
      ensures State() == OnAck(old(State()), ackNum, now) && wire == old(wire)
    {
      MarkPacket(ackNum, now);
      ghost var marked := State();
      while window != [] && window[0].acked
        invariant Slide(window) == Slide(marked.window)
        invariant State() == marked.(window := window) && wire == old(wire)
        decreases |window|
      {
        window := window[1..];
      }
    }

    /** The receive loop of a poll. */
    method DrainAcks(arrivals: seq<Observation>) returns (ok: bool)
      modifies this
      ensures State() == Drain(old(State()), arrivals).state && ok == Drain(old(State()), arrivals).ok
      ensures wire == old(wire)
    {
      var i := 0;
      while i < |arrivals|
        invariant i <= |arrivals| && wire == old(wire)
        invariant Drain(State(), arrivals[i..]) == Drain(old(State()), arrivals)
      {
        assert arrivals[i..][1..] == arrivals[i + 1..];
        match arrivals[i] {
          case AbortSeen => return false;
          case SocketError => return true;
          case Rejected =>
          case Arrived(d, at) =>
            if !d.flags.data && d.payload == [] {
              if d.flags.nak {
                return false;
              }
              if d.flags.ack {
                HandleAck(d.ackNum, at);
              }
            }
        }
        i := i + 1;
      }
      return true;
    }

    /** The retransmission loop of a poll. */
    method ResendExpired(now: real, timeout: int, sends: nat -> SendOutcome) returns (ok: bool)
      modifies `window, `wire
      ensures var r := ResendFrom(old(State()), 0, now, timeout, sends);
              State() == r.state && ok == r.ok && wire == old(wire) + r.sent
    {
      ghost var r := ResendFrom(State(), 0, now, timeout, sends);
      ghost var sent := [];
      var j := 0;
      while j < |window|
        invariant j <= |window| == |old(window)|
        invariant wire == old(wire) + sent
        invariant var rest := ResendFrom(State(), j, now, timeout, sends);
                  r == PollResult(rest.state, sent + rest.sent, rest.ok)
      {
        var p := window[j];
        if Expired(p, now, timeout) {
          if p.retries >= MAX_RETRIES {
            return false;
          }
          match sends(j) {
            case SendFailed => return false;
            case Sent(at) =>
              wire := wire + [PacketOf(p)];
              sent := sent + [PacketOf(p)];
              window := window[j := p.(retries := p.retries + 1, sentTime := at, retransmitted := true)];
          }
        }
        j := j + 1;
      }
      return true;
    }

    method PollAcksAndRetransmit(input: PollInput) returns (ok: bool)
      modifies this
      ensures var r := Poll(old(State()), input);
              State() == r.state && ok == r.ok && wire == old(wire) + r.sent
    {
      ok := DrainAcks(input.arrivals);
      if !ok {
        DrainSendsNothing(old(State()), input.arrivals);
        return;
      }
      var currentTimeout := timeoutMs;
      var congestion := false;
      for j := 0 to |window|
        invariant State() == Drain(old(State()), input.arrivals).state && wire == old(wire)
        invariant congestion <==> AnyExpired(window[..j], input.now, currentTimeout)
        invariant j > 0 ==> !input.abortInScan
      {
        if input.abortInScan {
          return false;
        }
        assert window[..j + 1][..j] == window[..j];
        if Expired(window[j], input.now, currentTimeout) {
          assert Expired(window[..j + 1][j], input.now, currentTimeout);
          congestion := true;
        } else if congestion {
          var i :| 0 <= i < j && Expired(window[..j][i], input.now, currentTimeout);
          assert Expired(window[..j + 1][i], input.now, currentTimeout);
        }
      }
      assert window[..|window|] == window;
      if congestion {
        ApplyCongestionDecrease();
      }
      ok := ResendExpired(input.now, currentTimeout, input.sends);
    }

    /** Blocks until there is room; None when the inputs run out first. */
    method AwaitRoom(polls: seq<PollInput>, flushing: bool) returns (done: Option<bool>)
      modifies this
      ensures var r := PollUntil(old(State()), polls, flushing);
              State() == r.state && done == r.done && wire == old(wire) + r.sent
    {
      ghost var start := State();
      ghost var sent := [];
      var i := 0;
      while |window| >= (if flushing then 1 else EffectiveWindow(State()))
        invariant i <= |polls| && wire == old(wire) + sent
        invariant Ahead(start, polls, flushing, sent, State(), polls[i..])
        decreases |polls| - i
      {
        AheadStep(start, polls, flushing, sent, State(), polls[i..]);
        if i == |polls| {
          return None;
        }
        ghost var s := State();
        assert polls[i..][1..] == polls[i + 1..];
        var ok := PollAcksAndRetransmit(polls[i]);
        sent := sent + Poll(s, polls[i]).sent;
        if !ok {
          return Some(false);
        }
        i := i + 1;
      }
      assert sent + [] == sent;
      return Some(true);
    }

    method SendChunk(seqNum: nat, data: Data, isFinal: bool, abort: bool, polls: seq<PollInput>,
                     send: SendOutcome, after: PollInput) returns (done: Option<bool>)
      modifies this
      ensures var r := WindowedSender.SendChunk(old(State()), seqNum, data, isFinal, abort, polls, send, after);
              State() == r.state && done == r.done && wire == old(wire) + r.sent
    {
      if abort || |data| > Codec.MAX_PAYLOAD {
        return Some(false);
      }
      done := AwaitRoom(polls, false);
      if done != Some(true) {
        return;
      }
      if send.SendFailed? {
        return Some(false);
      }
      wire := wire + [DataPacket(seqNum, data, isFinal)];
      window := window + [InFlight(seqNum, data, isFinal, send.at, false, false, 0)];
      var ok := PollAcksAndRetransmit(after);
      return Some(ok);
    }

    method Flush(polls: seq<PollInput>) returns (done: Option<bool>)
      modifies this
      ensures var r := WindowedSender.Flush(old(State()), polls);
              State() == r.state && done == r.done && wire == old(wire) + r.sent
    {
      done := AwaitRoom(polls, true);
    }
  }
}
