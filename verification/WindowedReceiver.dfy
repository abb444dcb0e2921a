/**
 * The windowed receivers as functions on their state. The server's acknowledges a packet when it
 * accepts it; the client's withholds the acknowledgement of the final packet until confirmReceive.
 */
module WindowedReceiver {
  import opened Bytes
  import opened Datagrams
  import opened Readers

  const HANDSHAKE_MAX_RETRIES := 10

  datatype AckPolicy = OnAcceptance | FinalAfterCommit

  datatype Held = Held(data: Data, isFinal: bool)

  /** `kept` is a DATA datagram that arrived during the handshake. */
  datatype ReceiverState = ReceiverState(expected: nat, buffer: map<nat, Held>, kept: Option<Datagram>,
                                         finalPending: bool, pendingFinal: nat)

  const FRESH := ReceiverState(0, map[], None, false, 0)

  /** What one datagram does: the next state, an acknowledgement to send, a chunk to hand out. */
  datatype Reaction = Reaction(state: ReceiverState, ack: Option<nat>, out: Option<Chunk>)

  /** The body of the receive loop for one decoded datagram from the pinned peer. */
  function React(policy: AckPolicy, r: ReceiverState, d: Datagram): Reaction {
    if !d.flags.data then Reaction(r, None, None)
    else if d.seqNum < r.expected then
      if r.finalPending && d.seqNum == r.pendingFinal then Reaction(r, None, None)
      else Reaction(r, Some(d.seqNum), None)
    else if d.seqNum >= r.expected + RECEIVE_WINDOW then Reaction(r, None, None)
    else
      var deferred := policy.FinalAfterCommit? && d.flags.fin;
      if deferred && r.finalPending && r.pendingFinal != d.seqNum then Reaction(r, None, None)
      else
        var s := if deferred then r.(finalPending := true, pendingFinal := d.seqNum) else r;
        var ack := if deferred then None else Some(d.seqNum);
        if d.seqNum > r.expected then
          Reaction(if d.seqNum in r.buffer then s
                   else s.(buffer := r.buffer[d.seqNum := Held(d.payload, d.flags.fin)]), ack, None)
        else
          Reaction(s.(expected := r.expected + 1), ack, Some(Chunk(r.expected, d.payload, d.flags.fin)))
  }

  /** The expected packet is already buffered: it is handed out without reading the socket. */
  function TakeBuffered(r: ReceiverState): (ReceiverState, Chunk)
    requires r.expected in r.buffer
  {
    var h := r.buffer[r.expected];
    (r.(expected := r.expected + 1, buffer := r.buffer - {r.expected}), Chunk(r.expected, h.data, h.isFinal))
  }

  // ----- receiveNext

  /** One turn of the loop: a datagram (and whether its acknowledgement can be sent), nothing, or the end. */
  datatype Turn = Heard(d: Datagram, ackOk: bool) | Nothing | GiveUp

  /** `done` is None while blocked, Some(None) for a false return, Some(Some(c)) for chunk c. */
  datatype ReceiveResult = ReceiveResult(state: ReceiverState, acks: seq<Datagram>, done: Option<Option<Chunk>>)

  /** A datagram is absorbed; an unsendable acknowledgement fails the client's call, with no change. */
  function Absorb(policy: AckPolicy, r: ReceiverState, d: Datagram, ackOk: bool): ReceiveResult {
    var x := React(policy, r, d);
    if x.ack.Some? && !ackOk && policy.FinalAfterCommit? then ReceiveResult(r, [], Some(None))
    else
      ReceiveResult(x.state, if x.ack.Some? && ackOk then [Ack(x.ack.value)] else [],
                    if x.out.Some? then Some(x.out) else None)
  }

  function Listen(policy: AckPolicy, r: ReceiverState, turns: seq<Turn>): ReceiveResult
    decreases |turns|
  {
    if turns == [] then ReceiveResult(r, [], None)
    else match turns[0]
      case GiveUp => ReceiveResult(r, [], Some(None))
      case Nothing => Listen(policy, r, turns[1..])
      case Heard(d, ackOk) =>
        var a := Absorb(policy, r, d, ackOk);
        if a.done.Some? then a
        else
          var rest := Listen(policy, a.state, turns[1..]);
          ReceiveResult(rest.state, a.acks + rest.acks, rest.done)
  }

  function Receive(policy: AckPolicy, r: ReceiverState, abort: bool, keptAckOk: bool, turns: seq<Turn>)
    : ReceiveResult
  {
    if abort then ReceiveResult(r, [], Some(None))
    else if r.expected in r.buffer then
      var (s, c) := TakeBuffered(r);
      ReceiveResult(s, [], Some(Some(c)))
    else if r.kept.Some? then Listen(policy, r.(kept := None), [Heard(r.kept.value, keptAckOk)] + turns)
    else Listen(policy, r, turns)
  }

  // ----- confirmReceive

  datatype ConfirmResult = ConfirmResult(state: ReceiverState, sent: seq<Datagram>, ok: bool)

  function Confirm(r: ReceiverState, seqNum: nat, accepted: bool, sendOk: bool): ConfirmResult {
    var mine := r.finalPending && r.pendingFinal == seqNum;
    var s := if mine then r.(finalPending := false) else r;
    if !accepted then ConfirmResult(s, if sendOk then [Nak(seqNum)] else [], false)
    else if !mine then ConfirmResult(s, [], true)
    else ConfirmResult(s, if sendOk then [Ack(seqNum)] else [], sendOk)
  }

  /**
   * confirmReceive for the packet that was noted: a saved transfer is acknowledged, and from then on so is
   * every later copy; one that was not saved is answered with a NAK and reported as failed. For any other
   * number nothing is acknowledged and the note stays.
   */
  lemma ConfirmSettles(r: ReceiverState, q: nat, sendOk: bool, copy: Datagram)
    requires r.finalPending && r.pendingFinal < r.expected
    requires copy.flags.data && copy.seqNum == r.pendingFinal
    ensures React(FinalAfterCommit, r, copy).ack == None
    ensures var yes, no := Confirm(r, q, true, sendOk), Confirm(r, q, false, sendOk);
            && no.sent == (if sendOk then [Nak(q)] else []) && !no.ok
            && (if q == r.pendingFinal then
                  yes.sent == (if sendOk then [Ack(q)] else []) && yes.ok == sendOk &&
                  React(FinalAfterCommit, yes.state, copy) == Reaction(yes.state, Some(q), None) &&
                  React(FinalAfterCommit, no.state, copy) == Reaction(no.state, Some(q), None)
                else yes == ConfirmResult(r, [], true) && no.state == r)
  {
  }

  // ----- handshake

  /** One attempt: abort or a failed SYN ends it; otherwise a response, or None for a timeout or noise. */
  datatype Attempt = Broken | Attempted(response: Option<Datagram>)

  /** The handshake is over: the peer acknowledged the SYN, or its first DATA overtook that. */
  predicate Answers(d: Datagram) {
    (d.flags.ack && !d.flags.data && d.payload == [] && d.ackNum == 0) || d.flags.data
  }

  function KeepData(r: ReceiverState, d: Datagram): ReceiverState
  {
    if d.flags.data then r.(kept := Some(d)) else r
  }

  predicate Answered(a: Attempt) { a.Attempted? && a.response.Some? && Answers(a.response.value) }

  datatype ShakeResult = ShakeResult(state: ReceiverState, syns: nat, ok: bool)

  /** The handshake from attempt `n` on: one SYN an attempt, until an answer, a failure or the limit. */
  function Shake(r: ReceiverState, attempts: nat -> Attempt, n: nat): ShakeResult
    decreases HANDSHAKE_MAX_RETRIES - n
  {
    if n >= HANDSHAKE_MAX_RETRIES || attempts(n).Broken? then ShakeResult(r, 0, false)
    else if Answered(attempts(n)) then ShakeResult(KeepData(r, attempts(n).response.value), 1, true)
    else
      var rest := Shake(r, attempts, n + 1);
      ShakeResult(rest.state, rest.syns + 1, rest.ok)
  }

  /**
   * The handshake succeeds exactly when some attempt within the limit is answered with none broken
   * before it; at most ten SYNs go out, and without success nothing is kept.
   */
  lemma {:induction false} ShakeSucceedsIff(r: ReceiverState, attempts: nat -> Attempt, n: nat)
    requires n <= HANDSHAKE_MAX_RETRIES
    ensures var x := Shake(r, attempts, n);
            && (x.ok <==> exists k :: n <= k < HANDSHAKE_MAX_RETRIES && Answered(attempts(k)) &&
                                      forall j :: n <= j < k ==> !attempts(j).Broken?)
            && x.syns <= HANDSHAKE_MAX_RETRIES - n && (x.ok ==> x.syns > 0) && (!x.ok ==> x.state == r)
    decreases HANDSHAKE_MAX_RETRIES - n
  {
    if n < HANDSHAKE_MAX_RETRIES && attempts(n).Attempted? && !Answered(attempts(n)) {
      ShakeSucceedsIff(r, attempts, n + 1);
      if k :| n <= k < HANDSHAKE_MAX_RETRIES && Answered(attempts(k)) && forall j :: n <= j < k ==> !attempts(j).Broken? {
        assert k != n;
      }
    }
  }

  /**
   * When the handshake stops at attempt `k`, ten being the limit: an answer there is worth k - n + 1 SYNs, and if it is DATA
   * it is kept; a broken attempt, or the limit, ends it after k - n SYNs with nothing kept.
   */
  lemma {:induction false} ShakeStopsAt(r: ReceiverState, attempts: nat -> Attempt, n: nat, k: nat)
    requires n <= k <= 10
    requires forall j :: n <= j < k ==> attempts(j).Attempted? && !Answered(attempts(j))
    requires k == 10 || attempts(k).Broken? || Answered(attempts(k))
    ensures var x := Shake(r, attempts, n);
            if k == 10 || attempts(k).Broken? then x == ShakeResult(r, k - n, false)
            else
              var d := attempts(k).response.value;
              x == ShakeResult(if d.flags.data then r.(kept := Some(d)) else r, k - n + 1, true)
    decreases k - n
  {
    if n < k {
      ShakeStopsAt(r, attempts, n + 1, k);
    }
  }

  /** Of what a peer sends, DATA and the acknowledgement of the SYN are answers; other controls are not. */
  lemma WhatAnswers(q: nat, data: Data, isFinal: bool)
    ensures Answers(DataPacket(q, data, isFinal)) && !Answers(SYN) && !Answers(Nak(q))
    ensures Answers(Ack(q)) <==> q == 0
  {
  }

  /**
   * DATA that overtook the acknowledgement of the SYN is not lost: it ends the handshake, and the next
   * receiveNext takes it before it reads the socket; an acknowledgement leaves nothing to take.
   */
  lemma HandshakeDataComesFirst(policy: AckPolicy, r: ReceiverState, attempts: nat -> Attempt, n: nat, k: nat,
                                keptAckOk: bool, turns: seq<Turn>)
    requires r.kept == None && r.expected !in r.buffer && n <= k < HANDSHAKE_MAX_RETRIES
    requires Answered(attempts(k)) && forall j :: n <= j < k ==> attempts(j).Attempted? && !Answered(attempts(j))
    ensures var d := attempts(k).response.value;
            Receive(policy, Shake(r, attempts, n).state, false, keptAckOk, turns) ==
            Listen(policy, r, if d.flags.data then [Heard(d, keptAckOk)] + turns else turns)
  {
    ShakeStopsAt(r, attempts, n, k);
    assert r.(kept := None) == r;
  }

  /** A call that is aborted at once changes nothing, not even what is buffered or kept. */
  lemma AbortedReceive(policy: AckPolicy, r: ReceiverState, keptAckOk: bool, turns: seq<Turn>)
    ensures Receive(policy, r, true, keptAckOk, turns) == ReceiveResult(r, [], Some(None))
  {
  }

  /**
   * The server's answer to a datagram: a copy of anything below the end of the window is acknowledged,
   * old or new; DATA beyond the window, or anything but DATA, gets no answer and changes nothing.
   */
  lemma AcknowledgedIff(r: ReceiverState, d: Datagram, ackOk: bool)
    requires !r.finalPending
    ensures var x := Absorb(OnAcceptance, r, d, ackOk);
            var counts := d.flags.data && d.seqNum < r.expected + 10;
            x.acks == (if counts && ackOk then [Ack(d.seqNum)] else []) &&
            (!counts ==> x.state == r && x.done == None)
  {
  }

  // ----- a call that blocks can be taken in parts

  /** Listening to more turns is listening to the first part and, if still blocked, to the second. */
  lemma {:induction false} ListenResumes(policy: AckPolicy, r: ReceiverState, a: seq<Turn>, b: seq<Turn>)
    ensures var x := Listen(policy, r, a);
            var y := Listen(policy, x.state, b);
            Listen(policy, r, a + b) == if x.done.Some? then x else ReceiveResult(y.state, x.acks + y.acks, y.done)
    decreases |a|
  {
    if a == [] {
      assert a + b == b;
    } else {
      assert (a + b)[1..] == a[1..] + b;
      match a[0]
      case GiveUp =>
      case Nothing => ListenResumes(policy, r, a[1..], b);
      case Heard(d, ackOk) =>
        var h := Absorb(policy, r, d, ackOk);
        if h.done.None? {
          ListenResumes(policy, h.state, a[1..], b);
          var x := Listen(policy, h.state, a[1..]);
          Associative(h.acks, x.acks, Listen(policy, x.state, b).acks);
        }
    }
  }
}
