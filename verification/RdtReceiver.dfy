/** RdtReceiver of either side: its fields updated in place by the receive loop. */
module RdtReceiver {
  import opened Bytes
  import opened Datagrams
  import opened Readers
  import opened WindowedReceiver

  /** Listening from `start` comes to `acks` sent so far and listening to the rest from `s`. */
  ghost predicate Ahead(policy: AckPolicy, start: ReceiverState, turns: seq<Turn>, acks: seq<Datagram>,
                        s: ReceiverState, rest: seq<Turn>)
  {
    var more := Listen(policy, s, rest);
    Listen(policy, start, turns) == ReceiveResult(more.state, acks + more.acks, more.done)
  }

  lemma AheadStep(policy: AckPolicy, start: ReceiverState, turns: seq<Turn>, acks: seq<Datagram>,
                  s: ReceiverState, rest: seq<Turn>)
    requires Ahead(policy, start, turns, acks, s, rest) && rest != []
    ensures match rest[0]
            case GiveUp => Listen(policy, start, turns) == ReceiveResult(s, acks, Some(None))
            case Nothing => Ahead(policy, start, turns, acks, s, rest[1..])
            case Heard(d, ackOk) =>
              var a := Absorb(policy, s, d, ackOk);
              if a.done.Some? then Listen(policy, start, turns) == ReceiveResult(a.state, acks + a.acks, a.done)
              else Ahead(policy, start, turns, acks + a.acks, a.state, rest[1..])
  {
    match rest[0]
    case GiveUp => assert acks + [] == acks;
    case Nothing =>
    case Heard(d, ackOk) =>
      var a := Absorb(policy, s, d, ackOk);
      if a.done.None? {
        var later := Listen(policy, a.state, rest[1..]);
        assert acks + (a.acks + later.acks) == (acks + a.acks) + later.acks;
      }
  }

  /** The handshake from attempt `first` on comes to `sent` SYNs so far and the handshake from attempt `i` on. */
  ghost predicate ShakeAhead(r: ReceiverState, attempts: nat -> Attempt, first: nat, sent: nat, i: nat) {
    var rest := Shake(r, attempts, i);
    Shake(r, attempts, first) == ShakeResult(rest.state, sent + rest.syns, rest.ok)
  }

  lemma ShakeAheadStep(r: ReceiverState, attempts: nat -> Attempt, first: nat, sent: nat, i: nat)
    requires ShakeAhead(r, attempts, first, sent, i) && i < HANDSHAKE_MAX_RETRIES
    ensures var x := Shake(r, attempts, first);
            if attempts(i).Broken? then x == ShakeResult(r, sent, false)
            else if Answered(attempts(i)) then x == ShakeResult(KeepData(r, attempts(i).response.value), sent + 1, true)
            else ShakeAhead(r, attempts, first, sent + 1, i + 1)
  {
  }

  /** The receiver class of either side; `policy` is what distinguishes them. */
  class RdtReceiver {
    const policy: AckPolicy
    var expected: nat
    var buffer: map<nat, Held>
    var kept: Option<Datagram>
    var finalPending: bool
    var pendingFinal: nat
    /** Datagrams handed to sendto, in order. */
    var wire: seq<Datagram>

    function State(): ReceiverState
      reads this
    {
      ReceiverState(expected, buffer, kept, finalPending, pendingFinal)
    }

    constructor (policy: AckPolicy)
      ensures State() == FRESH && wire == [] && this.policy == policy
    {
      this.policy := policy;
      expected, buffer, kept, finalPending, pendingFinal, wire := 0, map[], None, false, 0, [];
    }

    /** signalClientReady and initiateActiveHandshake: up to ten SYNs until an answer. */
    method Handshake(attempts: nat -> Attempt) returns (ok: bool)
      modifies `kept, `wire
      ensures var x := Shake(old(State()), attempts, 0);
              State() == x.state && ok == x.ok && wire == old(wire) + Copies(x.syns, SYN)
    {
      ok := HandshakeFrom(attempts, 0);
    }

    /** One attempt: the handshake is over with a result, or goes on. */
    method TryOnce(a: Attempt) returns (over: Option<bool>)
      modifies `kept, `wire
      ensures over == if a.Broken? then Some(false) else if Answered(a) then Some(true) else None
      ensures State() == if Answered(a) then KeepData(old(State()), a.response.value) else old(State())
      ensures wire == if a.Broken? then old(wire) else old(wire) + [SYN]
    {
      match a {
        case Broken => return Some(false);
        case Attempted(response) =>
          wire := wire + [SYN];
          if response.Some? && Answers(response.value) {
            if response.value.flags.data {
              kept := response;
            }
            return Some(true);
          }
          return None;
      }
    }

    /** The handshake loop from an attempt on. */
    method HandshakeFrom(attempts: nat -> Attempt, first: nat) returns (ok: bool)
      requires first <= HANDSHAKE_MAX_RETRIES
      modifies `kept, `wire
      ensures var x := Shake(old(State()), attempts, first);
              State() == x.state && ok == x.ok && wire == old(wire) + Copies(x.syns, SYN)
    {
      ghost var start, wireBefore := State(), wire;
      ghost var sent := 0;
      for i := first to HANDSHAKE_MAX_RETRIES
        invariant State() == start && wire == wireBefore + Copies(sent, SYN)
        invariant ShakeAhead(start, attempts, first, sent, i)
      {
        ShakeAheadStep(start, attempts, first, sent, i);
        CopiesSnoc(wireBefore, sent, SYN);
        var over := TryOnce(attempts(i));
        if over.Some? {
          return over.value;
        }
        sent := sent + 1;
      }
      assert Shake(start, attempts, first) == ShakeResult(start, sent, false);
      return false;
    }

    /** One datagram through the loop body. */
    method Handle(d: Datagram, ackOk: bool) returns (done: Option<Option<Chunk>>)
      modifies `expected, `buffer, `finalPending, `pendingFinal, `wire
      ensures var a := Absorb(policy, old(State()), d, ackOk);
              State() == a.state && done == a.done && wire == old(wire) + a.acks
    {
      if !d.flags.data {
        return None;
      }
      if d.seqNum < expected {
        if finalPending && d.seqNum == pendingFinal {
          return None;
        }
        if ackOk {
          wire := wire + [Ack(d.seqNum)];
        } else if policy.FinalAfterCommit? {
          return Some(None);
        }
        return None;
      }
      if d.seqNum >= expected + RECEIVE_WINDOW {
        return None;
      }
      if policy.FinalAfterCommit? && d.flags.fin {
        if finalPending && pendingFinal != d.seqNum {
          return None;
        }
        finalPending := true;
        pendingFinal := d.seqNum;
      } else if ackOk {
        wire := wire + [Ack(d.seqNum)];
      } else if policy.FinalAfterCommit? {
        return Some(None);
      }
      if d.seqNum > expected {
        if d.seqNum !in buffer {
          buffer := buffer[d.seqNum := Held(d.payload, d.flags.fin)];
        }
        return None;
      }
      var c := Chunk(expected, d.payload, d.flags.fin);
      expected := expected + 1;
      return Some(Some(c));
    }

    method ReceiveNext(abort: bool, keptAckOk: bool, turns: seq<Turn>) returns (done: Option<Option<Chunk>>)
      modifies this
      ensures var r := Receive(policy, old(State()), abort, keptAckOk, turns);
              State() == r.state && done == r.done && wire == old(wire) + r.acks
    {
      if abort {
        return Some(None);
      }
      if expected in buffer {
        var h := buffer[expected];
        buffer := buffer - {expected};
        expected := expected + 1;
        return Some(Some(Chunk(expected - 1, h.data, h.isFinal)));
      }
      var script := turns;
      if kept.Some? {
        script := [Heard(kept.value, keptAckOk)] + turns;
        kept := None;
      }
      done := ListenLoop(script);
    }

    method ListenLoop(turns: seq<Turn>) returns (done: Option<Option<Chunk>>)
      modifies `expected, `buffer, `finalPending, `pendingFinal, `wire
      ensures var r := Listen(policy, old(State()), turns);
              State() == r.state && done == r.done && wire == old(wire) + r.acks
    {
      ghost var start := State();
      ghost var acks := [];
      var i := 0;
      while i < |turns|
        invariant i <= |turns| && wire == old(wire) + acks
        invariant Ahead(policy, start, turns, acks, State(), turns[i..])
      {
        ghost var s := State();
        AheadStep(policy, start, turns, acks, s, turns[i..]);
        assert turns[i..][1..] == turns[i + 1..];
        match turns[i] {
          case GiveUp => return Some(None);
          case Nothing =>
          case Heard(d, ackOk) =>
            acks := acks + Absorb(policy, s, d, ackOk).acks;
            done := Handle(d, ackOk);
            if done.Some? {
              return;
            }
        }
        i := i + 1;
      }
      return None;
    }

    /** confirmReceive of the client. */
    method ConfirmReceive(seqNum: nat, accepted: bool, sendOk: bool) returns (ok: bool)
      modifies `finalPending, `wire
      ensures var c := Confirm(old(State()), seqNum, accepted, sendOk);
              State() == c.state && ok == c.ok && wire == old(wire) + c.sent
    {
      var mine := finalPending && pendingFinal == seqNum;
      if !accepted {
        if mine {
          finalPending := false;
        }
        if sendOk {
          wire := wire + [Nak(seqNum)];
        }
        return false;
      }
      if !mine {
        return true;
      }
      finalPending := false;
      if sendOk {
        wire := wire + [Ack(seqNum)];
      }
      return sendOk;
    }
  }
}
