/**
 * The server's windowed sender against the server's own windowed receiver, which acknowledges
 * every packet on acceptance, over the same kind of network; the receiver's caller may be slow.
 */
module Loopback {
  import opened Bytes
  import opened Datagrams
  import opened Readers
  import opened WindowedSender
  import opened SenderProofs
  import R = WindowedReceiver

  /** Pieces to send; `next` counts those passed to sendChunk; the nets hold everything ever sent. */
  datatype Link = Link(sender: SenderState, next: nat, receiver: R.ReceiverState, delivered: seq<Chunk>,
                       toReceiver: set<Datagram>, toSender: set<Datagram>)

  function Init(initialTimeoutMs: int): Link { Link(Initial(initialTimeoutMs), 0, R.FRESH, [], {}, {}) }

  datatype Action =
    | Pushes(at: real)
    | HearsAck(d: Datagram, now: real)
    | Halves
    | Resends(j: nat, at: real)
    | TakesBuffered
    | HearsData(d: Datagram, ackOk: bool)

  predicate Enabled(pieces: seq<Data>, s: Link, a: Action) {
    match a
    case Pushes(at) => s.next < |pieces| && |s.sender.window| < EffectiveWindow(s.sender)
    case HearsAck(d, now) => d in s.toSender
    case Halves => true
    case Resends(j, at) =>
      j < |s.sender.window| && !s.sender.window[j].acked && s.sender.window[j].retries < MAX_RETRIES
    case TakesBuffered => s.receiver.expected in s.receiver.buffer
    case HearsData(d, ackOk) => s.receiver.expected !in s.receiver.buffer && d in s.toReceiver
  }

  function Next(pieces: seq<Data>, s: Link, a: Action): Link
    requires Enabled(pieces, s, a)
  {
    match a
    case Pushes(at) =>
      var p := PiecePacket(pieces, s.next);
      s.(sender := Push(s.sender, s.next, p.payload, p.flags.fin, at), next := s.next + 1,
         toReceiver := s.toReceiver + {p})
    case HearsAck(d, now) => s.(sender := OnAck(s.sender, d.ackNum, now))
    case Halves => s.(sender := Decrease(s.sender))
    case Resends(j, at) =>
      s.(sender := Resend(s.sender, j, at), toReceiver := s.toReceiver + {PacketOf(s.sender.window[j])})
    case TakesBuffered =>
      var (r, chunk) := R.TakeBuffered(s.receiver);
      s.(receiver := r, delivered := s.delivered + [chunk])
    case HearsData(d, ackOk) =>
      var x := R.React(R.OnAcceptance, s.receiver, d);
      s.(receiver := x.state,
         delivered := if x.out.Some? then s.delivered + [x.out.value] else s.delivered,
         toSender := if x.ack.Some? && ackOk then s.toSender + {Ack(x.ack.value)} else s.toSender)
  }

  predicate Run(pieces: seq<Data>, s: Link, actions: seq<Action>, t: Link)
    decreases |actions|
  {
    if actions == [] then s == t
    else Enabled(pieces, s, actions[0]) && Run(pieces, Next(pieces, s, actions[0]), actions[1..], t)
  }

  // ----- the invariant

  ghost predicate Accepted(r: R.ReceiverState, q: nat) { q < r.expected || q in r.buffer }

  ghost predicate SenderInv(pieces: seq<Data>, s: Link) {
    Good(s.sender, s.next) && s.next <= |pieces| &&
    (forall j :: 0 <= j < |s.sender.window| ==>
       var p := s.sender.window[j]; p.seqNum < |pieces| && PacketOf(p) == PiecePacket(pieces, p.seqNum)) &&
    (forall d :: d in s.toReceiver ==> d.seqNum < s.next && d == PiecePacket(pieces, d.seqNum))
  }

  /** Acknowledged is delivered or buffered. */
  ghost predicate AckInv(s: Link) {
    (forall d :: d in s.toSender ==> d == Ack(d.ackNum) && Accepted(s.receiver, d.ackNum)) &&
    (forall q :: 0 <= q < s.next - |s.sender.window| ==> Accepted(s.receiver, q)) &&
    (forall j :: 0 <= j < |s.sender.window| && s.sender.window[j].acked ==> Accepted(s.receiver, s.sender.window[j].seqNum))
  }

  ghost predicate ReceiverInv(pieces: seq<Data>, s: Link) {
    var r := s.receiver;
    r.expected <= s.next <= |pieces| && !r.finalPending &&
    (forall q :: q in r.buffer ==>
       r.expected <= q < s.next && q < r.expected + RECEIVE_WINDOW &&
       (r.expected in r.buffer ==> q < r.expected + RECEIVE_WINDOW - 1) &&
       r.buffer[q] == R.Held(pieces[q], q == |pieces| - 1)) &&
    |s.delivered| == r.expected && forall i :: 0 <= i < r.expected ==> s.delivered[i] == PieceChunk(pieces, i)
  }

  ghost predicate Inv(pieces: seq<Data>, s: Link) { SenderInv(pieces, s) && AckInv(s) && ReceiverInv(pieces, s) }

  lemma PushKeeps(pieces: seq<Data>, s: Link, at: real)
    requires Inv(pieces, s) && Enabled(pieces, s, Pushes(at))
    ensures Inv(pieces, Next(pieces, s, Pushes(at)))
  {
    PushGood(s.sender, s.next, pieces[s.next], s.next == |pieces| - 1, at);
  }

  lemma MarkedAreAccepted(s: Link, ackNum: nat)
    requires AckInv(s) && Accepted(s.receiver, ackNum)
    ensures var m := Marked(s.sender.window, ackNum);
            forall j :: 0 <= j < |m| && m[j].acked ==> Accepted(s.receiver, m[j].seqNum)
  {
    var w, m := s.sender.window, Marked(s.sender.window, ackNum);
    forall j | 0 <= j < |m| && m[j].acked ensures Accepted(s.receiver, m[j].seqNum) {
      assert m[j] == w[j] || w[j].seqNum == ackNum;
    }
  }

  lemma AckKeepsSender(pieces: seq<Data>, s: Link, ackNum: nat, now: real)
    requires SenderInv(pieces, s)
    ensures SenderInv(pieces, s.(sender := OnAck(s.sender, ackNum, now)))
  {
    OnAckGood(s.sender, s.next, ackNum, now);
    OnAckWindow(s.sender, ackNum, now);
    var w, v := s.sender.window, OnAck(s.sender, ackNum, now).window;
    var m := Marked(w, ackNum);
    forall j | 0 <= j < |v| ensures v[j].seqNum < |pieces| && PacketOf(v[j]) == PiecePacket(pieces, v[j].seqNum) {
      assert v[j] == m[Slid(m) + j] && PacketOf(m[Slid(m) + j]) == PacketOf(w[Slid(m) + j]);
    }
  }

  lemma AckKeepsAccepted(s: Link, ackNum: nat, now: real)
    requires Good(s.sender, s.next) && AckInv(s) && Accepted(s.receiver, ackNum)
    ensures AckInv(s.(sender := OnAck(s.sender, ackNum, now)))
  {
    OnAckWindow(s.sender, ackNum, now);
    MarkedAreAccepted(s, ackNum);
    var w := s.sender.window;
    var m := Marked(w, ackNum);
    var k, base := Slid(m), s.next - |w|;
    var v := m[k..];
    forall q | 0 <= q < s.next - |v| ensures Accepted(s.receiver, q) {
      if q >= base {
        assert m[q - base].acked && m[q - base].seqNum == w[q - base].seqNum == q;
      }
    }
    forall j | 0 <= j < |v| && v[j].acked ensures Accepted(s.receiver, v[j].seqNum) {
      assert v[j] == m[k + j];
    }
  }

  lemma AckKeeps(pieces: seq<Data>, s: Link, d: Datagram, now: real)
    requires Inv(pieces, s) && Enabled(pieces, s, HearsAck(d, now))
    ensures Inv(pieces, Next(pieces, s, HearsAck(d, now)))
  {
    AckKeepsSender(pieces, s, d.ackNum, now);
    AckKeepsAccepted(s, d.ackNum, now);
  }

  lemma ResendKeeps(pieces: seq<Data>, s: Link, j: nat, at: real)
    requires Inv(pieces, s) && Enabled(pieces, s, Resends(j, at))
    ensures Inv(pieces, Next(pieces, s, Resends(j, at)))
  {
    var w, v := s.sender.window, Next(pieces, s, Resends(j, at)).sender.window;
    assert PacketOk(w[j]) && PacketOf(w[j]) == PiecePacket(pieces, w[j].seqNum);
    forall i | 0 <= i < |v| ensures PacketOk(v[i]) && v[i].seqNum == w[i].seqNum && PacketOf(v[i]) == PacketOf(w[i]) {
      assert PacketOk(w[i]);
    }
  }

  lemma DataKeeps(pieces: seq<Data>, s: Link, d: Datagram, ackOk: bool)
    requires Inv(pieces, s) && Enabled(pieces, s, HearsData(d, ackOk))
    ensures Inv(pieces, Next(pieces, s, HearsData(d, ackOk)))
  {
    var t := Next(pieces, s, HearsData(d, ackOk));
    assert d == PiecePacket(pieces, d.seqNum);
    ReactShape(s.receiver, d);
    assert forall q :: Accepted(s.receiver, q) ==> Accepted(t.receiver, q);
  }

  /** A packet is handed out, buffered or ignored; it is acknowledged only when it is accepted. */
  lemma ReactShape(r: R.ReceiverState, d: Datagram)
    requires d.flags.data && !r.finalPending
    ensures var x := R.React(R.OnAcceptance, r, d);
            (x.ack.Some? ==> x.ack.value == d.seqNum && Accepted(x.state, d.seqNum)) &&
            (if d.seqNum == r.expected
             then x.state == r.(expected := r.expected + 1) &&
                  x.out == Some(Chunk(r.expected, d.payload, d.flags.fin))
             else x.out == None &&
                  x.state == if r.expected < d.seqNum < r.expected + RECEIVE_WINDOW && d.seqNum !in r.buffer
                             then r.(buffer := r.buffer[d.seqNum := R.Held(d.payload, d.flags.fin)]) else r)
  {
  }

  lemma TakeKeeps(pieces: seq<Data>, s: Link)
    requires Inv(pieces, s) && Enabled(pieces, s, TakesBuffered)
    ensures Inv(pieces, Next(pieces, s, TakesBuffered))
  {
    assert forall q :: Accepted(s.receiver, q) ==> Accepted(Next(pieces, s, TakesBuffered).receiver, q);
  }

  lemma StepKeeps(pieces: seq<Data>, s: Link, a: Action)
    requires Inv(pieces, s) && Enabled(pieces, s, a)
    ensures Inv(pieces, Next(pieces, s, a))
  {
    match a
    case Pushes(at) => PushKeeps(pieces, s, at);
    case HearsAck(d, now) => AckKeeps(pieces, s, d, now);
    case Halves =>
    case Resends(j, at) => ResendKeeps(pieces, s, j, at);
    case TakesBuffered => TakeKeeps(pieces, s);
    case HearsData(d, ackOk) => DataKeeps(pieces, s, d, ackOk);
  }

  lemma {:induction false} RunKeeps(pieces: seq<Data>, s: Link, actions: seq<Action>, t: Link)
    requires Inv(pieces, s) && Run(pieces, s, actions, t)
    ensures Inv(pieces, t)
    decreases |actions|
  {
    if actions != [] {
      StepKeeps(pieces, s, actions[0]);
      RunKeeps(pieces, Next(pieces, s, actions[0]), actions[1..], t);
    }
  }

  // ----- theorems

  lemma {:induction false} IntervalSize(s: set<nat>, low: nat, size: nat)
    requires forall x :: x in s ==> low <= x < low + size
    ensures |s| <= size
    decreases size
  {
    if size > 0 {
      IntervalSize(s - {low + size - 1}, low, size - 1);
    } else {
      assert s == {};
    }
  }

  /** The out-of-order buffer stays inside the receive window and never holds more than nine packets. */
  lemma BufferBounded(pieces: seq<Data>, initialTimeoutMs: int, actions: seq<Action>, t: Link)
    requires Run(pieces, Init(initialTimeoutMs), actions, t)
    ensures |t.receiver.buffer| <= 9
    ensures forall q :: q in t.receiver.buffer ==> t.receiver.expected <= q < t.receiver.expected + 10
  {
    InitialGood(initialTimeoutMs);
    RunKeeps(pieces, Init(initialTimeoutMs), actions, t);
    var e := t.receiver.expected;
    IntervalSize(t.receiver.buffer.Keys, if e in t.receiver.buffer then e else e + 1, 9);
  }

  /**
   * Every copy that the receiver reads, old, expected or ahead, is acknowledged, and its piece is then
   * delivered or buffered: the sender never gets so far that the receiver must drop one.
   */
  lemma EveryCopyAcknowledged(pieces: seq<Data>, initialTimeoutMs: int, actions: seq<Action>, s: Link, d: Datagram)
    requires Run(pieces, Init(initialTimeoutMs), actions, s) && Enabled(pieces, s, HearsData(d, true))
    ensures var t := Next(pieces, s, HearsData(d, true)); Ack(d.seqNum) in t.toSender && Accepted(t.receiver, d.seqNum)
    ensures R.Absorb(R.OnAcceptance, s.receiver, d, true).acks == [Ack(d.seqNum)]
  {
    InitialGood(initialTimeoutMs);
    RunKeeps(pieces, Init(initialTimeoutMs), actions, s);
    assert !Accepted(s.receiver, s.receiver.expected);
    assert d.seqNum < s.receiver.expected + RECEIVE_WINDOW;
  }

  /** `n` chunks can be handed out without reading the socket, and these are they. */
  predicate Drainable(r: R.ReceiverState, n: nat)
    decreases n
  {
    n == 0 || (r.expected in r.buffer && Drainable(R.TakeBuffered(r).0, n - 1))
  }

  function Drained(r: R.ReceiverState, n: nat): seq<Chunk>
    requires Drainable(r, n)
    decreases n
  {
    if n == 0 then [] else [R.TakeBuffered(r).1] + Drained(R.TakeBuffered(r).0, n - 1)
  }

  lemma {:induction false} DrainBuffer(pieces: seq<Data>, r: R.ReceiverState, n: nat)
    requires r.expected + n == |pieces|
    requires forall q :: r.expected <= q < |pieces| ==> q in r.buffer && r.buffer[q] == R.Held(pieces[q], q == |pieces| - 1)
    ensures Drainable(r, n)
    ensures |Drained(r, n)| == n && forall i :: 0 <= i < n ==> Drained(r, n)[i] == PieceChunk(pieces, r.expected + i)
    decreases n
  {
    if n > 0 {
      var u := R.TakeBuffered(r).0;
      DrainBuffer(pieces, u, n - 1);
      forall i | 0 <= i < n ensures Drained(r, n)[i] == PieceChunk(pieces, r.expected + i) {
        assert i > 0 ==> Drained(r, n)[i] == Drained(u, n - 1)[i - 1];
      }
    }
  }

  /**
   * When flush succeeds (all pieces passed, window empty), the receiver can hand out every
   * remaining chunk without another datagram, and with them the transfer is complete.
   */
  lemma FlushedIsDelivered(pieces: seq<Data>, initialTimeoutMs: int, actions: seq<Action>, t: Link)
    requires Run(pieces, Init(initialTimeoutMs), actions, t)
    requires t.next == |pieces| && t.sender.window == []
    ensures t.receiver.expected <= |pieces|
    ensures var n := |pieces| - t.receiver.expected;
            Drainable(t.receiver, n) &&
            t.delivered + Drained(t.receiver, n) == Numbered(pieces)
  {
    InitialGood(initialTimeoutMs);
    RunKeeps(pieces, Init(initialTimeoutMs), actions, t);
    forall q | t.receiver.expected <= q < |pieces| ensures q in t.receiver.buffer {
      assert Accepted(t.receiver, q);
    }
    DrainBuffer(pieces, t.receiver, |pieces| - t.receiver.expected);
  }
}
