/** Safety of downloads: the invariant of the Retr system and what it says about every run. */
module RetrProofs {
  import opened Bytes
  import opened Datagrams
  import opened Readers
  import opened Writer
  import opened WindowedSender
  import opened SenderProofs
  import opened Retr
  import opened FilePipeline
  import R = WindowedReceiver
  import Ascii

  // ----- the invariant

  /** In-flight packets carry the pieces they are numbered for, and each has its count of tries. */
  ghost predicate ServerInv(c: Config, v: Server)
    requires Admissible(c)
  {
    Good(v.sender, v.next) && v.next <= |c.pieces| && |v.tries| == v.next &&
    (v.phase.AwaitingSyn? ==> v.next == 0) &&
    (forall i :: 0 <= i < |v.tries| ==> 1 <= v.tries[i] <= MAX_RETRIES + 1) &&
    PacketsInv(c, v.tries, v.sender.window)
  }

  ghost predicate PacketsInv(c: Config, tries: seq<nat>, w: seq<InFlight>)
    requires Admissible(c)
  {
    forall j :: 0 <= j < |w| ==> InFlightInv(c, tries, w[j])
  }

  ghost predicate InFlightInv(c: Config, tries: seq<nat>, p: InFlight)
    requires Admissible(c)
  {
    p.seqNum < |c.pieces| && p.seqNum < |tries| && PacketOf(p) == PiecePacket(c.pieces, p.seqNum) &&
    tries[p.seqNum] == p.retries + 1
  }

  /** The server only ever sends the SYN acknowledgement and pieces it has reached. */
  ghost predicate ToClientInv(c: Config, net: set<Datagram>, next: nat)
    requires Admissible(c)
  {
    next <= |c.pieces| &&
    forall d :: d in net ==> d == Ack(0) || (d.seqNum < next && d == PiecePacket(c.pieces, d.seqNum))
  }

  ghost predicate Accepted(r: R.ReceiverState, q: nat) { q < r.expected || q in r.buffer }

  /** An acknowledged piece is accepted; the last one is acknowledged only once the file is saved. */
  ghost predicate Justified(c: Config, k: Client, q: nat)
    requires Admissible(c)
  {
    q < |c.pieces| && Accepted(k.receiver, q) && (q == Last(c) ==> k.writer.committed)
  }

  ghost predicate ToServerInv(c: Config, net: set<Datagram>, k: Client)
    requires Admissible(c)
  {
    forall d :: d in net ==>
      d == SYN || (d == Nak(d.ackNum) && d.ackNum < |c.pieces|) || (d == Ack(d.ackNum) && Justified(c, k, d.ackNum))
  }

  /** Everything below the window, and every marked packet in it, was acknowledged by the client. */
  ghost predicate AckedInv(v: Server, net: set<Datagram>) {
    (forall q :: 0 <= q < v.next - |v.sender.window| ==> Ack(q) in net) &&
    (forall j :: 0 <= j < |v.sender.window| && v.sender.window[j].acked ==> Ack(v.sender.window[j].seqNum) in net) &&
    (v.phase.Succeeded? ==> v.sender.window == [])
  }

  /** Buffered pieces are the right ones, in the receive window, and not yet handed out. */
  ghost predicate ReceiverInv(c: Config, k: Client, next: nat, net: set<Datagram>)
    requires Admissible(c)
  {
    var r := k.receiver;
    r.expected <= next <= |c.pieces| &&
    (forall q :: q in r.buffer ==>
       r.expected <= q < next && q < r.expected + RECEIVE_WINDOW &&
       r.buffer[q] == R.Held(c.pieces[q], q == Last(c))) &&
    (r.kept.Some? ==> r.kept.value in net && r.kept.value.flags.data) &&
    (r.finalPending ==> r.pendingFinal == Last(c)) &&
    |k.delivered| == r.expected && (forall i :: 0 <= i < r.expected ==> k.delivered[i] == PieceChunk(c.pieces, i))
  }

  /** The writer and the program counter of receiveFile agree with what was handed out. */
  ghost predicate ProgramInv(c: Config, k: Client)
    requires Admissible(c)
  {
    var r, n := k.receiver, |k.delivered|;
    (!k.phase.Stopped? && Accepted(r, Last(c)) ==> r.finalPending) &&
    (k.writer.committed ==> n == |c.pieces| && k.writer.dest == Some(Translated(c.pieces, c.ascii))) &&
    (!k.writer.committed ==> k.writer.dest == c.oldDest) &&
    match k.phase
    case Handshaking => n < |c.pieces| && Filled(k.writer, k.delivered, c.ascii, c.oldDest, k.carry)
    case Receiving => n < |c.pieces| && Filled(k.writer, k.delivered, c.ascii, c.oldDest, k.carry)
    case Holding(chunk) =>
      n > 0 && chunk == k.delivered[n - 1] && Filled(k.writer, k.delivered[..n - 1], c.ascii, c.oldDest, k.carry)
    case Appended(q) =>
      n == |c.pieces| && q == Last(c) && Filled(k.writer, k.delivered, c.ascii, c.oldDest, k.carry)
    case Saved(q) => n == |c.pieces| && q == Last(c) && k.writer.committed
    case Stopped(ok) => ok ==> k.writer.committed
  }

  ghost predicate Inv(c: Config, s: System)
    requires Admissible(c)
  {
    ServerInv(c, s.server) && ToClientInv(c, s.toClient, s.server.next) && ToServerInv(c, s.toServer, s.client) &&
    AckedInv(s.server, s.toServer) && ReceiverInv(c, s.client, s.server.next, s.toClient) && ProgramInv(c, s.client)
  }

  lemma InitInv(c: Config)
    requires Admissible(c)
    ensures Inv(c, Init(c))
  {
    InitialGood(c.initialTimeoutMs);
    assert Payloads([]) == [];
  }

  // ----- frames

  /** Acceptance and commitment only grow, so acknowledgements stay justified. */
  lemma StillJustified(c: Config, net: set<Datagram>, k: Client, k': Client)
    requires Admissible(c) && ToServerInv(c, net, k)
    requires forall q :: Accepted(k.receiver, q) ==> Accepted(k'.receiver, q)
    requires k.writer.committed ==> k'.writer.committed
    ensures ToServerInv(c, net, k')
  {
  }

  // ----- server steps

  lemma PushKeepsServer(c: Config, s: System, at: real)
    requires Admissible(c) && ServerInv(c, s.server) && Enabled(c, s, ServerPushes(at))
    ensures ServerInv(c, PushPiece(c, s, at).server)
  {
    var v, n := s.server, s.server.next;
    var v' := PushPiece(c, s, at).server;
    PushGood(v.sender, n, c.pieces[n], n == Last(c), at);
    forall j | 0 <= j < |v'.sender.window| ensures InFlightInv(c, v'.tries, v'.sender.window[j]) {
      if j < |v.sender.window| {
        assert InFlightInv(c, v.tries, v.sender.window[j]);
      }
    }
  }

  lemma PushKeeps(c: Config, s: System, at: real)
    requires Admissible(c) && Inv(c, s) && Enabled(c, s, ServerPushes(at))
    ensures Inv(c, Next(c, s, ServerPushes(at)))
  {
    PushKeepsServer(c, s, at);
  }

  lemma AckKeepsPackets(c: Config, v: Server, ackNum: nat, now: real)
    requires Admissible(c) && ServerInv(c, v)
    ensures ServerInv(c, v.(sender := OnAck(v.sender, ackNum, now)))
  {
    OnAckGood(v.sender, v.next, ackNum, now);
    OnAckWindow(v.sender, ackNum, now);
    MarkedKeepsPackets(c, v.tries, v.sender.window, ackNum);
  }

  lemma MarkedKeepsPackets(c: Config, tries: seq<nat>, w: seq<InFlight>, ackNum: nat)
    requires Admissible(c) && PacketsInv(c, tries, w)
    ensures var m := Marked(w, ackNum); PacketsInv(c, tries, m[Slid(m)..])
  {
    var m := Marked(w, ackNum);
    forall j | 0 <= j < |m| ensures InFlightInv(c, tries, m[j]) {
      AckedPacketOk(c, tries, w[j]);
    }
    LaterPackets(c, tries, m, Slid(m));
  }

  lemma AckedPacketOk(c: Config, tries: seq<nat>, p: InFlight)
    requires Admissible(c)
    ensures InFlightInv(c, tries, p.(acked := true)) == InFlightInv(c, tries, p)
  {
  }

  lemma LaterPackets(c: Config, tries: seq<nat>, w: seq<InFlight>, k: nat)
    requires Admissible(c) && PacketsInv(c, tries, w) && k <= |w|
    ensures PacketsInv(c, tries, w[k..])
  {
  }

  lemma AckKeepsAcked(v: Server, net: set<Datagram>, ackNum: nat, now: real)
    requires Good(v.sender, v.next) && AckedInv(v, net) && Ack(ackNum) in net && !v.phase.Succeeded?
    ensures AckedInv(v.(sender := OnAck(v.sender, ackNum, now)), net)
  {
    OnAckWindow(v.sender, ackNum, now);
    MarkedAreAcked(v, net, ackNum);
    var m := Marked(v.sender.window, ackNum);
    var k := Slid(m);
    SlidAreAcked(v, net, m, k);
    var w := m[k..];
    forall j | 0 <= j < |w| && w[j].acked ensures Ack(w[j].seqNum) in net {
      assert w[j] == m[k + j];
    }
  }

  /** What lies below the window after sliding over `k` acknowledged packets. */
  lemma SlidAreAcked(v: Server, net: set<Datagram>, m: seq<InFlight>, k: nat)
    requires Good(v.sender, v.next) && AckedInv(v, net) && k <= |m| == |v.sender.window|
    requires forall j :: 0 <= j < |m| ==> m[j].seqNum == v.sender.window[j].seqNum
    requires forall j :: 0 <= j < k ==> m[j].acked
    requires forall j :: 0 <= j < |m| && m[j].acked ==> Ack(m[j].seqNum) in net
    ensures forall q :: 0 <= q < v.next - (|m| - k) ==> Ack(q) in net
  {
    var base := v.next - |m|;
    forall q | 0 <= q < base + k ensures Ack(q) in net {
      if q >= base {
        assert m[q - base].acked && v.sender.window[q - base].seqNum == q;
      }
    }
  }

  lemma MarkedAreAcked(v: Server, net: set<Datagram>, ackNum: nat)
    requires AckedInv(v, net) && Ack(ackNum) in net
    ensures var m := Marked(v.sender.window, ackNum);
            forall j :: 0 <= j < |m| && m[j].acked ==> Ack(m[j].seqNum) in net
  {
    var m := Marked(v.sender.window, ackNum);
    forall j | 0 <= j < |m| && m[j].acked ensures Ack(m[j].seqNum) in net {
      assert m[j] == v.sender.window[j] || v.sender.window[j].seqNum == ackNum;
    }
  }

  lemma HearReplyKeeps(c: Config, s: System, d: Datagram, now: real)
    requires Admissible(c) && Inv(c, s) && Enabled(c, s, ServerHears(d, now))
    ensures Inv(c, Next(c, s, ServerHears(d, now)))
  {
    if !d.flags.data && d.payload == [] && !d.flags.nak && d.flags.ack {
      assert d == Ack(d.ackNum);
      AckKeepsPackets(c, s.server, d.ackNum, now);
      AckKeepsAcked(s.server, s.toServer, d.ackNum, now);
    }
  }

  lemma ResendKeeps(c: Config, s: System, j: nat, at: real)
    requires Admissible(c) && Inv(c, s) && Enabled(c, s, ServerResends(j, at))
    ensures Inv(c, Next(c, s, ServerResends(j, at)))
  {
    var v := s.server;
    var v' := Next(c, s, ServerResends(j, at)).server;
    var w, w' := v.sender.window, v'.sender.window;
    assert InFlightInv(c, v.tries, w[j]) && PacketOk(w[j]);
    forall i | 0 <= i < |w'| ensures InFlightInv(c, v'.tries, w'[i]) && PacketOk(w'[i]) && w'[i].seqNum == w[i].seqNum {
      assert InFlightInv(c, v.tries, w[i]) && PacketOk(w[i]);
    }
    assert PacketOf(w[j]) == PiecePacket(c.pieces, w[j].seqNum);
  }

  // ----- client steps

  /**
   * Against this sender the out-of-window branch is unreachable: while the client reads its socket,
   * the window base is at most the expected number, so every piece ever sent is below its limit.
   */
  lemma NeverOutsideWindow(c: Config, s: System, d: Datagram)
    requires Admissible(c) && Inv(c, s) && Listening(s)
    requires d in s.toClient && d.flags.data
    ensures s.server.next - |s.server.sender.window| <= s.client.receiver.expected
    ensures d.seqNum < s.client.receiver.expected + RECEIVE_WINDOW
  {
    var e := s.client.receiver.expected;
    assert Ack(e) in s.toServer ==> Justified(c, s.client, Ack(e).ackNum);
  }

  /** What the client makes of a delivered copy: unaccepted pieces are accepted, all but the last acknowledged. */
  lemma EveryCopyCounts(c: Config, s: System, d: Datagram)
    requires Admissible(c) && Inv(c, s) && Listening(s) && Deliverable(s, d) && d.flags.data
    ensures var x := R.React(R.FinalAfterCommit, s.client.receiver.(kept := None), d);
            && Accepted(x.state, d.seqNum)
            && (d.seqNum != Last(c) <==> x.ack == Some(d.seqNum))
            && (d.seqNum == Last(c) <==> x.ack == None)
            && (x.out.Some? <==> d.seqNum == s.client.receiver.expected)
            && (x.out.Some? ==> x.out.value == PieceChunk(c.pieces, d.seqNum))
  {
    assert d in s.toClient;
    NeverOutsideWindow(c, s, d);
    assert d == PiecePacket(c.pieces, d.seqNum);
  }

  /**
   * How it is answered: a copy of the last piece is not acknowledged; any other is, and if that
   * acknowledgement cannot be sent receiveNext returns false with nothing changed.
   */
  lemma EveryCopyAnswered(c: Config, s: System, d: Datagram, ackOk: bool)
    requires Admissible(c) && Inv(c, s) && Listening(s) && Deliverable(s, d) && d.flags.data
    ensures var r := s.client.receiver.(kept := None);
            var x := R.Absorb(R.FinalAfterCommit, r, d, ackOk);
            if d.seqNum == Last(c) then x.acks == [] && x.done != Some(None) && Accepted(x.state, d.seqNum)
            else if ackOk then x.acks == [Ack(d.seqNum)] && x.done != Some(None) && Accepted(x.state, d.seqNum)
            else x == R.ReceiveResult(r, [], Some(None))
  {
    EveryCopyCounts(c, s, d);
  }

  /**
   * A client that refuses a chunk, for an abort, a failed write or a failed commit, can tell the server:
   * its NAK, once heard, ends the server's calls in failure.
   */
  lemma RefusalFailsServer(c: Config, s: System, a: Action, now: real)
    requires Admissible(c) && Enabled(c, s, a) && s.server.phase.Transmitting?
    requires a == ClientRejects(true) || (a.ClientAppends? && a.nakOk) || (a.ClientCommits? && a.nakOk)
    requires Next(c, s, a).client.phase.Stopped?
    ensures var t := Next(c, s, a);
            var q := if s.client.phase.Holding? then s.client.phase.chunk.seqNum else s.client.phase.seqNum;
            Nak(q) in t.toServer && t.client.phase == Stopped(false) &&
            Next(c, t, ServerHears(Nak(q), now)).server.phase.Failed?
  {
    var q := if s.client.phase.Holding? then s.client.phase.chunk.seqNum else s.client.phase.seqNum;
    assert R.Confirm(s.client.receiver, q, false, true).sent[0] == Nak(q);
  }

  /** A waiting server begins at a SYN, which it acknowledges, and at no other datagram. */
  lemma BeginsAtSyn(c: Config, s: System, q: nat, data: Data, isFinal: bool)
    requires Admissible(c) && s.server.phase.AwaitingSyn?
    ensures var t := HearSyn(s, SYN);
            t.server == s.server.(phase := Transmitting) && t.toClient == s.toClient + {Ack(0)} && t.toServer == s.toServer
    ensures HearSyn(s, Ack(q)) == HearSyn(s, Nak(q)) == HearSyn(s, DataPacket(q, data, isFinal)) == s
  {
  }

  lemma TakeKeepsClient(c: Config, k: Client, next: nat, net: set<Datagram>)
    requires Admissible(c) && ReceiverInv(c, k, next, net) && ProgramInv(c, k)
    requires k.phase.Receiving? && k.receiver.expected in k.receiver.buffer
    ensures var k' := HandOut(k, R.TakeBuffered(k.receiver).0, R.TakeBuffered(k.receiver).1);
            ReceiverInv(c, k', next, net) && ProgramInv(c, k') &&
            forall q :: Accepted(k.receiver, q) ==> Accepted(k'.receiver, q)
  {
    var k' := HandOut(k, R.TakeBuffered(k.receiver).0, R.TakeBuffered(k.receiver).1);
    assert k'.delivered[..|k'.delivered| - 1] == k.delivered;
  }

  lemma TakeBufferedKeeps(c: Config, s: System)
    requires Admissible(c) && Inv(c, s) && Enabled(c, s, ClientTakesBuffered)
    ensures Inv(c, Next(c, s, ClientTakesBuffered))
  {
    TakeKeepsClient(c, s.client, s.server.next, s.toClient);
    StillJustified(c, s.toServer, s.client, Next(c, s, ClientTakesBuffered).client);
  }

  /** Receiving the last piece is noted, so that it is not acknowledged yet. */
  function Noting(c: Config, r: R.ReceiverState, q: nat): R.ReceiverState
    requires Admissible(c)
  {
    if q == Last(c) then r.(finalPending := true, pendingFinal := q) else r
  }

  /** A delivered piece is a duplicate (or could not be acknowledged), or is buffered, or is handed out. */
  lemma AbsorbShape(c: Config, s: System, d: Datagram, ackOk: bool)
    requires Admissible(c) && Inv(c, s) && Listening(s) && Deliverable(s, d) && d.flags.data
    ensures d.seqNum < s.server.next && d == PiecePacket(c.pieces, d.seqNum)
    ensures var r := s.client.receiver.(kept := None);
            var x := R.Absorb(R.FinalAfterCommit, r, d, ackOk);
            || (x.state == r && (x.done == None || x.done == Some(None)))
            || (r.expected < d.seqNum < r.expected + RECEIVE_WINDOW && x.done == None &&
                x.state == Noting(c, r, d.seqNum).(buffer := r.buffer[d.seqNum := R.Held(d.payload, d.flags.fin)]))
            || (d.seqNum == r.expected && x.done == Some(Some(PieceChunk(c.pieces, d.seqNum))) &&
                x.state == Noting(c, r, d.seqNum).(expected := r.expected + 1))
  {
    NeverOutsideWindow(c, s, d) by { assert d in s.toClient; }
    assert d == PiecePacket(c.pieces, d.seqNum) by { assert d in s.toClient; }
  }

  /** A delivered piece keeps the client consistent, whether it is new, a duplicate or out of order. */
  lemma AbsorbKeepsClient(c: Config, s: System, d: Datagram, ackOk: bool)
    requires Admissible(c) && Inv(c, s) && Listening(s) && Deliverable(s, d) && d.flags.data
    ensures var k' := HearData(s, d, ackOk).client;
            ReceiverInv(c, k', s.server.next, s.toClient) && ProgramInv(c, k') &&
            (forall q :: Accepted(s.client.receiver, q) ==> Accepted(k'.receiver, q)) &&
            k'.writer == s.client.writer
  {
    var k, k', q := s.client, HearData(s, d, ackOk).client, d.seqNum;
    AbsorbShape(c, s, d, ackOk);
    if q == k.receiver.expected && |k'.delivered| > |k.delivered| {
      HandOutKeeps(c, k, k', s.server.next, s.toClient, q);
    } else if k'.receiver.buffer != k.receiver.buffer {
      BufferKeeps(c, k, k', s.server.next, s.toClient, q);
    }
  }

  lemma HandOutKeeps(c: Config, k: Client, k': Client, next: nat, net: set<Datagram>, q: nat)
    requires Admissible(c) && ReceiverInv(c, k, next, net) && ProgramInv(c, k)
    requires k.phase.Receiving? && q == k.receiver.expected < next && q !in k.receiver.buffer
    requires k' == HandOut(k, Noting(c, k.receiver.(kept := None), q).(expected := q + 1), PieceChunk(c.pieces, q))
    ensures ReceiverInv(c, k', next, net) && ProgramInv(c, k')
  {
    assert k'.delivered[..q] == k.delivered;
  }

  lemma BufferKeeps(c: Config, k: Client, k': Client, next: nat, net: set<Datagram>, q: nat)
    requires Admissible(c) && ReceiverInv(c, k, next, net) && ProgramInv(c, k)
    requires k.phase.Receiving? && k.receiver.expected < q < k.receiver.expected + RECEIVE_WINDOW && q < next
    requires k' == k.(receiver := Noting(c, k.receiver.(kept := None), q)
                                  .(buffer := k.receiver.buffer[q := R.Held(c.pieces[q], q == Last(c))]))
    ensures ReceiverInv(c, k', next, net) && ProgramInv(c, k')
  {
  }

  /** A client with the same server and network in front of it, whose acceptance and commitment only grew. */
  lemma ClientKeeps(c: Config, s: System, k: Client)
    requires Admissible(c) && Inv(c, s) && ReceiverInv(c, k, s.server.next, s.toClient) && ProgramInv(c, k)
    requires forall q :: Accepted(s.client.receiver, q) ==> Accepted(k.receiver, q)
    requires s.client.writer.committed ==> k.writer.committed
    ensures Inv(c, s.(client := k))
  {
    StillJustified(c, s.toServer, s.client, k);
  }

  /** Justified acknowledgements may be sent. */
  lemma AcksKeep(c: Config, s: System, acks: set<Datagram>)
    requires Admissible(c) && Inv(c, s)
    requires forall e :: e in acks ==> e == Ack(e.ackNum) && Justified(c, s.client, e.ackNum)
    ensures Inv(c, s.(toServer := s.toServer + acks))
  {
  }

  lemma HearDataKeeps(c: Config, s: System, d: Datagram, ackOk: bool)
    requires Admissible(c) && Inv(c, s) && Enabled(c, s, ClientHears(d, ackOk))
    ensures Inv(c, Next(c, s, ClientHears(d, ackOk)))
  {
    var k := HearData(s, d, ackOk).client;
    var x := R.Absorb(R.FinalAfterCommit, s.client.receiver.(kept := None), d, ackOk);
    if d.flags.data {
      AbsorbKeepsClient(c, s, d, ackOk);
      AbsorbAcks(c, s, d, ackOk);
    } else {
      assert x.acks == [] && k == s.client.(receiver := s.client.receiver.(kept := None));
    }
    ClientKeeps(c, s, k);
    AcksKeep(c, s.(client := k), set e | e in x.acks);
  }

  /** The acknowledgement sent for a piece, if any, is justified. */
  lemma AbsorbAcks(c: Config, s: System, d: Datagram, ackOk: bool)
    requires Admissible(c) && Inv(c, s) && Listening(s) && Deliverable(s, d) && d.flags.data
    ensures var x := R.Absorb(R.FinalAfterCommit, s.client.receiver.(kept := None), d, ackOk);
            forall e :: e in x.acks ==> e == Ack(d.seqNum) && Justified(c, HearData(s, d, ackOk).client, d.seqNum)
  {
    EveryCopyCounts(c, s, d);
    assert d.seqNum < |c.pieces| by { assert d in s.toClient; }
  }

  lemma RejectKeeps(c: Config, s: System, seqNum: nat, nakOk: bool)
    requires Admissible(c) && ServerInv(c, s.server) && ToClientInv(c, s.toClient, s.server.next)
    requires ToServerInv(c, s.toServer, s.client) && AckedInv(s.server, s.toServer)
    requires ReceiverInv(c, s.client, s.server.next, s.toClient)
    requires !s.client.writer.committed && s.client.writer.dest == c.oldDest && seqNum < |c.pieces|
    ensures Inv(c, Reject(s, seqNum, nakOk))
  {
    var s' := Reject(s, seqNum, nakOk);
    StillJustified(c, s.toServer, s.client, s'.client);
    forall e | e in s'.toServer && e !in s.toServer ensures e == Nak(seqNum) {
      assert e in R.Confirm(s.client.receiver, seqNum, false, nakOk).sent;
    }
  }

  /** The chunk in hand has been appended. */
  function WithAppended(c: Config, s: System, writeOk: bool): Client
    requires s.client.phase.Holding?
  {
    var chunk := s.client.phase.chunk;
    s.client.(writer := AppendStep(s.client.writer, chunk.seqNum, Translation(c, s, chunk.data), writeOk),
              carry := Ascii.CarryAfter(chunk.data, s.client.carry))
  }

  lemma AppendedKeeps(c: Config, s: System, writeOk: bool)
    requires Admissible(c) && ReceiverInv(c, s.client, s.server.next, s.toClient) && ProgramInv(c, s.client)
    requires s.client.phase.Holding? &&
             CanAppend(s.client.writer, s.client.phase.chunk.seqNum, Translation(c, s, s.client.phase.chunk.data), writeOk)
    ensures var chunk := s.client.phase.chunk;
            var k := WithAppended(c, s, writeOk).(phase := if chunk.isFinal then Appended(chunk.seqNum) else Receiving);
            ReceiverInv(c, k, s.server.next, s.toClient) && ProgramInv(c, k)
  {
    var k := s.client;
    var chunk, n := k.phase.chunk, |k.delivered|;
    assert chunk == PieceChunk(c.pieces, n - 1);
    FilledSnoc(k.writer, k.delivered[..n - 1], chunk, c.ascii, c.oldDest, k.carry, Translation(c, s, chunk.data), writeOk);
    assert k.delivered[..n - 1] + [chunk] == k.delivered;
  }

  lemma AppendKeeps(c: Config, s: System, writeOk: bool, nakOk: bool)
    requires Admissible(c) && Inv(c, s) && Enabled(c, s, ClientAppends(writeOk, nakOk))
    ensures Inv(c, Next(c, s, ClientAppends(writeOk, nakOk)))
  {
    var chunk := s.client.phase.chunk;
    var k := WithAppended(c, s, writeOk);
    assert chunk == PieceChunk(c.pieces, |s.client.delivered| - 1);
    StillJustified(c, s.toServer, s.client, k);
    if CanAppend(s.client.writer, chunk.seqNum, Translation(c, s, chunk.data), writeOk) {
      AppendedKeeps(c, s, writeOk);
      StillJustified(c, s.toServer, k, Next(c, s, ClientAppends(writeOk, nakOk)).client);
    } else {
      RejectKeeps(c, s.(client := k), chunk.seqNum, nakOk);
    }
  }

  lemma CommittedKeeps(c: Config, k: Client, next: nat, net: set<Datagram>, moveOk: bool)
    requires Admissible(c) && ReceiverInv(c, k, next, net) && ProgramInv(c, k)
    requires k.phase.Appended? && CanCommit(k.writer, moveOk)
    ensures var k' := k.(writer := CommitStep(k.writer, moveOk), phase := Saved(k.phase.seqNum));
            ReceiverInv(c, k', next, net) && ProgramInv(c, k')
  {
    assert Payloads(k.delivered) == c.pieces;
  }

  lemma CommitKeeps(c: Config, s: System, moveOk: bool, nakOk: bool)
    requires Admissible(c) && Inv(c, s) && Enabled(c, s, ClientCommits(moveOk, nakOk))
    ensures Inv(c, Next(c, s, ClientCommits(moveOk, nakOk)))
  {
    var k := s.client;
    var k1 := k.(writer := CommitStep(k.writer, moveOk));
    StillJustified(c, s.toServer, k, k1);
    if CanCommit(k.writer, moveOk) {
      CommittedKeeps(c, k, s.server.next, s.toClient, moveOk);
      StillJustified(c, s.toServer, k1, Next(c, s, ClientCommits(moveOk, nakOk)).client);
    } else {
      RejectKeeps(c, s.(client := k1), Last(c), nakOk);
    }
  }

  /** confirmReceive finds its acknowledgement pending, and sends it only now. */
  lemma ConfirmKeeps(c: Config, s: System, ackOk: bool)
    requires Admissible(c) && Inv(c, s) && Enabled(c, s, ClientConfirms(ackOk))
    ensures Inv(c, Next(c, s, ClientConfirms(ackOk)))
    ensures Ack(Last(c)) in Next(c, s, ClientConfirms(ackOk)).toServer <== ackOk
  {
    var s' := Next(c, s, ClientConfirms(ackOk));
    var x := R.Confirm(s.client.receiver, Last(c), true, ackOk);
    assert s.client.receiver.finalPending && s.client.receiver.pendingFinal == Last(c);
    StillJustified(c, s.toServer, s.client, s'.client);
    if ackOk {
      assert x.sent[0] == Ack(Last(c));
    }
    forall e | e in s'.toServer && e !in s.toServer ensures e == Ack(Last(c)) {
      assert e in x.sent;
    }
  }

  lemma ShakeKeeps(c: Config, s: System, a: Action)
    requires Admissible(c) && Inv(c, s) && Enabled(c, s, a)
    requires a.ServerHearsSyn? || a.ClientSendsSyn? || a.ClientShakes? || a.ClientGivesUp?
    ensures Inv(c, Next(c, s, a))
  {
    StillJustified(c, s.toServer, s.client, Next(c, s, a).client);
  }

  lemma ServerEndKeeps(c: Config, s: System, a: Action)
    requires Admissible(c) && Inv(c, s) && Enabled(c, s, a)
    requires a.ServerHalves? || a.ServerFlushes? || a.ServerRunsOut? || a.ServerGivesUp?
    ensures Inv(c, Next(c, s, a))
  {
    var v, v' := s.server, Next(c, s, a).server;
    assert v'.tries == v.tries && v'.sender.window == v.sender.window;
  }

  // ----- runs

  lemma StepKeeps(c: Config, s: System, a: Action)
    requires Admissible(c) && Inv(c, s) && Enabled(c, s, a)
    ensures Inv(c, Next(c, s, a))
  {
    match a
    case ServerPushes(at) => PushKeeps(c, s, at);
    case ServerHears(d, now) => HearReplyKeeps(c, s, d, now);
    case ServerResends(j, at) => ResendKeeps(c, s, j, at);
    case ClientTakesBuffered => TakeBufferedKeeps(c, s);
    case ClientHears(d, ackOk) => HearDataKeeps(c, s, d, ackOk);
    case ClientAppends(writeOk, nakOk) => AppendKeeps(c, s, writeOk, nakOk);
    case ClientCommits(moveOk, nakOk) => CommitKeeps(c, s, moveOk, nakOk);
    case ClientConfirms(ackOk) => ConfirmKeeps(c, s, ackOk);
    case ClientRejects(nakOk) =>
      RejectKeeps(c, s, if s.client.phase.Holding? then s.client.phase.chunk.seqNum else s.client.phase.seqNum, nakOk);
    case ServerHalves => ServerEndKeeps(c, s, a);
    case ServerFlushes => ServerEndKeeps(c, s, a);
    case ServerRunsOut(j) => ServerEndKeeps(c, s, a);
    case ServerGivesUp => ServerEndKeeps(c, s, a);
    case ServerHearsSyn(d) => ShakeKeeps(c, s, a);
    case ClientSendsSyn => ShakeKeeps(c, s, a);
    case ClientShakes(d) => ShakeKeeps(c, s, a);
    case ClientGivesUp => ShakeKeeps(c, s, a);
  }

  lemma {:induction false} RunKeeps(c: Config, s: System, actions: seq<Action>, t: System)
    requires Admissible(c) && Inv(c, s) && Run(c, s, actions, t)
    ensures Inv(c, t)
    decreases |actions|
  {
    if actions != [] {
      StepKeeps(c, s, actions[0]);
      RunKeeps(c, Next(c, s, actions[0]), actions[1..], t);
    }
  }
}
