/** The client's stop-and-wait sender (client/src/rdt/RdtSender.cpp). */
module StopAndWait {
  import opened Bytes
  import opened Datagrams
  import Codec

  const MAX_RETRIES := 10

  /** One datagram out of the socket, noise that does not decode, a timeout or error, or an abort. */
  datatype Observation = Arrived(d: Datagram) | Rejected | TimedOut | AbortSeen

  /** One attempt: an abort before it, a send that may fail, and what the socket then shows. */
  datatype Attempt = Attempt(abort: bool, sendOk: bool, arrivals: seq<Observation>)

  predicate IsAckFor(d: Datagram, seqNum: nat) {
    d.flags.ack && !d.flags.data && d.payload == [] && d.ackNum == seqNum
  }

  /** The wait ends well: the acknowledgement comes before a timeout, an error or an abort. */
  predicate AckComes(arrivals: seq<Observation>, seqNum: nat) {
    arrivals != [] && !arrivals[0].TimedOut? && !arrivals[0].AbortSeen? &&
    ((arrivals[0].Arrived? && IsAckFor(arrivals[0].d, seqNum)) || AckComes(arrivals[1..], seqNum))
  }

  predicate Delivered(a: Attempt, seqNum: nat) { a.sendOk && AckComes(a.arrivals, seqNum) }

  /** From attempt `n` on, some attempt delivers within the limit and before any abort. */
  predicate Succeeds(attempts: nat -> Attempt, n: nat, seqNum: nat)
    decreases MAX_RETRIES - n
  {
    n < MAX_RETRIES && !attempts(n).abort && (Delivered(attempts(n), seqNum) || Succeeds(attempts, n + 1, seqNum))
  }

  /** Transmissions made from attempt `n` on. */
  function Transmissions(attempts: nat -> Attempt, n: nat, seqNum: nat): nat
    decreases MAX_RETRIES - n
  {
    if n >= MAX_RETRIES || attempts(n).abort then 0
    else (if attempts(n).sendOk then 1 else 0) +
         (if Delivered(attempts(n), seqNum) then 0 else Transmissions(attempts, n + 1, seqNum))
  }

  /**
   * The wait ends well exactly when a bare acknowledgement with this number comes before any timeout or
   * abort; noise and other datagrams do not matter.
   */
  lemma {:induction false} AckComesIff(arrivals: seq<Observation>, seqNum: nat)
    ensures AckComes(arrivals, seqNum) <==>
              exists k :: 0 <= k < |arrivals| && IsBareAck(arrivals[k], seqNum) &&
                          forall j :: 0 <= j < k ==> arrivals[j].Arrived? || arrivals[j].Rejected?
  {
    if arrivals != [] {
      AckComesIff(arrivals[1..], seqNum);
      if AckComes(arrivals, seqNum) && !IsBareAck(arrivals[0], seqNum) {
        var k :| 0 <= k < |arrivals[1..]| && IsBareAck(arrivals[1..][k], seqNum) &&
                 forall j :: 0 <= j < k ==> arrivals[1..][j].Arrived? || arrivals[1..][j].Rejected?;
        assert IsBareAck(arrivals[k + 1], seqNum);
        assert forall j :: 0 < j < k + 1 ==> arrivals[j] == arrivals[1..][j - 1];
      }
      if k :| 0 <= k < |arrivals| && IsBareAck(arrivals[k], seqNum) &&
              forall j :: 0 <= j < k ==> arrivals[j].Arrived? || arrivals[j].Rejected? {
        assert k > 0 ==> IsBareAck(arrivals[1..][k - 1], seqNum);
      }
    }
  }

  predicate IsBareAck(o: Observation, seqNum: nat) {
    o.Arrived? && o.d.ackNum == seqNum && o.d.payload == [] && o.d.flags.ack && !o.d.flags.data
  }

  /** Attempt `k` is made, gets out and is acknowledged in time. */
  predicate SucceedsAt(attempts: nat -> Attempt, n: nat, k: nat, seqNum: nat) {
    attempts(k).sendOk && AckComes(attempts(k).arrivals, seqNum) && forall j :: n <= j <= k ==> !attempts(j).abort
  }

  /**
   * sendChunk succeeds from attempt `n` on exactly when one of the attempts up to the tenth gets out and
   * is acknowledged in time, with no abort up to it.
   */
  lemma {:induction false} SucceedsIff(attempts: nat -> Attempt, n: nat, seqNum: nat)
    requires n <= MAX_RETRIES
    ensures Succeeds(attempts, n, seqNum) <==>
              exists k :: n <= k < 10 && SucceedsAt(attempts, n, k, seqNum)
    decreases MAX_RETRIES - n
  {
    if n < MAX_RETRIES {
      SucceedsIff(attempts, n + 1, seqNum);
      assert Delivered(attempts(n), seqNum) && !attempts(n).abort ==> SucceedsAt(attempts, n, n, seqNum);
      if k :| n <= k < 10 && SucceedsAt(attempts, n, k, seqNum) {
        assert !attempts(n).abort && (k > n ==> SucceedsAt(attempts, n + 1, k, seqNum));
      }
      var m := n + 1;
      if k :| m <= k < 10 && SucceedsAt(attempts, m, k, seqNum) {
        assert !attempts(n).abort ==> SucceedsAt(attempts, n, k, seqNum);
      }
    }
  }

  /** At most ten, and success takes at least one. */
  lemma {:induction false} TransmissionBounds(attempts: nat -> Attempt, n: nat, seqNum: nat)
    requires n <= MAX_RETRIES
    ensures Transmissions(attempts, n, seqNum) <= MAX_RETRIES - n
    ensures Succeeds(attempts, n, seqNum) ==> Transmissions(attempts, n, seqNum) > 0
    decreases MAX_RETRIES - n
  {
    if n < MAX_RETRIES {
      TransmissionBounds(attempts, n + 1, seqNum);
    }
  }

  class RdtSender {
    /** Datagrams handed to sendto, in order. */
    var wire: seq<Datagram>

    constructor ()
      ensures wire == []
    {
      wire := [];
    }

    /** waitForAck: stale acknowledgements and noise are skipped. */
    method WaitForAck(seqNum: nat, arrivals: seq<Observation>) returns (ok: bool)
      ensures ok == AckComes(arrivals, seqNum)
    {
      var i := 0;
      while i < |arrivals|
        invariant i <= |arrivals|
        invariant AckComes(arrivals[i..], seqNum) == AckComes(arrivals, seqNum)
      {
        assert arrivals[i..][1..] == arrivals[i + 1..];
        match arrivals[i] {
          case AbortSeen => return false;
          case TimedOut => return false;
          case Rejected =>
          case Arrived(d) =>
            if IsAckFor(d, seqNum) {
              return true;
            }
        }
        i := i + 1;
      }
      return false;
    }

    /** sendChunk: the retry loop transmits the same datagram until it is acknowledged. */
    method SendChunk(seqNum: nat, data: Data, isFinal: bool, abort: bool, attempts: nat -> Attempt)
      returns (ok: bool)
      modifies this
      ensures var admitted := !abort && |data| <= Codec.MAX_PAYLOAD;
              var count := if admitted then Transmissions(attempts, 0, seqNum) else 0;
              && (ok <==> admitted && Succeeds(attempts, 0, seqNum))
              && wire == old(wire) + Copies(count, DataPacket(seqNum, data, isFinal))
    {
      if abort || |data| > Codec.MAX_PAYLOAD {
        return false;
      }
      ok := Retry(seqNum, DataPacket(seqNum, data, isFinal), 0, attempts);
    }

    method Retry(seqNum: nat, packet: Datagram, first: nat, attempts: nat -> Attempt) returns (ok: bool)
      requires first <= MAX_RETRIES
      modifies this
      ensures ok == Succeeds(attempts, first, seqNum)
      ensures wire == old(wire) + Copies(Transmissions(attempts, first, seqNum), packet)
    {
      ghost var count := 0;
      for n := first to MAX_RETRIES
        invariant wire == old(wire) + Copies(count, packet)
        invariant Transmissions(attempts, first, seqNum) == count + Transmissions(attempts, n, seqNum)
        invariant Succeeds(attempts, first, seqNum) == Succeeds(attempts, n, seqNum)
      {
        if attempts(n).abort {
          return false;
        }
        if attempts(n).sendOk {
          CopiesSnoc(old(wire), count, packet);
          wire := wire + [packet];
          count := count + 1;
          ok := WaitForAck(seqNum, attempts(n).arrivals);
          if ok {
            return true;
          }
        }
      }
      return false;
    }
  }
}
