/** Safety of uploads, over every run of the Upload system. */
module UploadProofs {
  import opened Bytes
  import opened Datagrams
  import opened Readers
  import opened Writer
  import opened Upload
  import opened FilePipeline
  import R = WindowedReceiver
  import W = StopAndWait
  import Ascii
  import Codec

  // ----- the invariant

  ghost predicate ClientInv(c: Config, k: Client) {
    k.current <= |c.pieces| && k.attempts <= W.MAX_RETRIES &&
    k.transmissions <= W.MAX_RETRIES * k.current + k.attempts &&
    (k.current == |c.pieces| ==> k.attempts == 0) && (k.phase.Succeeded? ==> k.current == |c.pieces|)
  }

  /** The client never sends beyond the outstanding chunk, and the server acknowledges only what it took. */
  ghost predicate NetInv(c: Config, s: System) {
    (forall d :: d in s.toServer ==>
       d == Ack(0) || (d.seqNum < |c.pieces| && d.seqNum <= s.client.current && d == PiecePacket(c.pieces, d.seqNum) &&
                       (d.seqNum == s.client.current ==> s.client.attempts > 0))) &&
    (forall d :: d in s.toClient ==> d == SYN || (d == Ack(d.ackNum) && d.ackNum < s.server.receiver.expected))
  }

  /** The out-of-order buffer is empty and the server is at the outstanding chunk or just past it. */
  ghost predicate ReceiverInv(c: Config, s: System) {
    var r := s.server.receiver;
    r.buffer == map[] && !r.finalPending && r.expected <= |c.pieces| &&
    s.client.current <= r.expected <= s.client.current + 1 && (r.expected > s.client.current ==> s.client.attempts > 0) &&
    (r.kept.Some? ==> r.kept.value in s.toServer && r.kept.value.flags.data) &&
    (r.kept.Some? || s.server.phase.Handshaking? ==> r.expected == 0) &&
    |s.server.delivered| == r.expected &&
    forall i :: 0 <= i < r.expected ==> s.server.delivered[i] == PieceChunk(c.pieces, i)
  }

  ghost predicate ProgramInv(c: Config, v: Server) {
    var n := |v.delivered|;
    (v.writer.committed ==> n == |c.pieces| && v.writer.dest == Some(Translated(c.pieces, c.ascii))) &&
    (!v.writer.committed ==> v.writer.dest == c.oldDest) &&
    match v.phase
    case Handshaking => n < |c.pieces| && Filled(v.writer, v.delivered, c.ascii, c.oldDest, v.carry)
    case Receiving => n < |c.pieces| && Filled(v.writer, v.delivered, c.ascii, c.oldDest, v.carry)
    case Holding(chunk) =>
      n > 0 && chunk == v.delivered[n - 1] && Filled(v.writer, v.delivered[..n - 1], c.ascii, c.oldDest, v.carry)
    case Appended => n == |c.pieces| && Filled(v.writer, v.delivered, c.ascii, c.oldDest, v.carry)
    case Stopped(ok) => ok <==> v.writer.committed
  }

  ghost predicate Inv(c: Config, s: System) {
    ClientInv(c, s.client) && NetInv(c, s) && ReceiverInv(c, s) && ProgramInv(c, s.server)
  }

  lemma InitInv(c: Config)
    requires Admissible(c)
    ensures Inv(c, Init(c))
  {
    assert Payloads([]) == [];
  }

  // ----- steps

  lemma ClientStepKeeps(c: Config, s: System, a: Action)
    requires Admissible(c) && Inv(c, s) && Enabled(c, s, a)
    requires a.ClientHearsSyn? || a.ClientTransmits? || a.ClientHears? || a.ClientFinishes? || a.ClientGivesUp?
    ensures Inv(c, Next(c, s, a))
  {
    if a.ClientHears? && W.IsAckFor(a.d, s.client.current) {
      assert a.d == Ack(a.d.ackNum) && a.d.ackNum < s.server.receiver.expected;
    }
  }

  /** A datagram the server reads is old or the expected one: it is never buffered. */
  lemma NeverAhead(c: Config, s: System, d: Datagram)
    requires Admissible(c) && Inv(c, s) && Deliverable(s, d) && d.flags.data
    ensures d.seqNum <= s.server.receiver.expected && d.seqNum < |c.pieces| && d == PiecePacket(c.pieces, d.seqNum)
  {
    assert d in s.toServer;
  }

  /** What the server makes of it: the expected piece is handed out, anything older changes nothing. */
  lemma AbsorbShape(c: Config, s: System, d: Datagram, ackOk: bool)
    requires Admissible(c) && Inv(c, s) && Listening(s) && Deliverable(s, d)
    ensures var r := s.server.receiver.(kept := None);
            var x := R.Absorb(R.OnAcceptance, r, d, ackOk);
            && (forall e :: e in x.acks ==> e == Ack(d.seqNum) && d.seqNum < x.state.expected)
            && (if d.flags.data && d.seqNum == r.expected
                then r.expected < |c.pieces| && x.state == r.(expected := r.expected + 1) &&
                     x.done == Some(Some(PieceChunk(c.pieces, r.expected)))
                else x.state == r && x.done == None)
  {
    if d.flags.data {
      NeverAhead(c, s, d);
    }
  }

  /** It is acknowledged, whether it is the first copy or a later one. */
  lemma CopyAcknowledged(c: Config, s: System, d: Datagram)
    requires Admissible(c) && Inv(c, s) && Listening(s) && Deliverable(s, d) && d.flags.data
    ensures R.Absorb(R.OnAcceptance, s.server.receiver.(kept := None), d, true).acks == [Ack(d.seqNum)]
    ensures Ack(d.seqNum) in Next(c, s, ServerHears(d, true)).toClient
  {
    NeverAhead(c, s, d);
    assert R.Absorb(R.OnAcceptance, s.server.receiver.(kept := None), d, true).acks[0] == Ack(d.seqNum);
  }

  lemma HandOutKeeps(c: Config, s: System, t: System)
    requires Admissible(c) && Inv(c, s) && s.server.phase.Receiving?
    requires var r := s.server.receiver.(kept := None);
             r.expected < |c.pieces| && r.expected <= s.client.current &&
             (r.expected == s.client.current ==> s.client.attempts > 0) &&
             t == s.(server := HandOut(s.server, r.(expected := r.expected + 1), PieceChunk(c.pieces, r.expected)))
    ensures Inv(c, t)
  {
    assert t.server.delivered[..|t.server.delivered| - 1] == s.server.delivered;
  }

  lemma AcksKeep(c: Config, s: System, acks: set<Datagram>)
    requires Inv(c, s) && forall e :: e in acks ==> e == Ack(e.ackNum) && e.ackNum < s.server.receiver.expected
    ensures Inv(c, s.(toClient := s.toClient + acks))
  {
  }

  lemma HearDataKeeps(c: Config, s: System, d: Datagram, ackOk: bool)
    requires Admissible(c) && Inv(c, s) && Enabled(c, s, ServerHears(d, ackOk))
    ensures Inv(c, Next(c, s, ServerHears(d, ackOk)))
  {
    var s' := Next(c, s, ServerHears(d, ackOk));
    var r := s.server.receiver.(kept := None);
    var t := s'.(toClient := s.toClient);
    AbsorbShape(c, s, d, ackOk);
    if d.flags.data && d.seqNum == r.expected {
      NeverAhead(c, s, d);
      assert d.seqNum <= s.client.current by { assert d in s.toServer; }
      HandOutKeeps(c, s, t);
    } else {
      assert t == s.(server := s.server.(receiver := r));
    }
    AcksKeep(c, t, set e | e in R.Absorb(R.OnAcceptance, r, d, ackOk).acks);
  }

  lemma AppendKeeps(c: Config, s: System, writeOk: bool)
    requires Admissible(c) && Inv(c, s) && Enabled(c, s, ServerAppends(writeOk))
    ensures Inv(c, Next(c, s, ServerAppends(writeOk)))
  {
    var v := s.server;
    var chunk, n := v.phase.chunk, |v.delivered|;
    var data := if c.ascii then Ascii.Normalize(chunk.data, v.carry) else chunk.data;
    if CanAppend(v.writer, chunk.seqNum, data, writeOk) {
      FilledSnoc(v.writer, v.delivered[..n - 1], chunk, c.ascii, c.oldDest, v.carry, data, writeOk);
      assert v.delivered[..n - 1] + [chunk] == v.delivered;
    }
  }

  lemma ServerEndKeeps(c: Config, s: System, a: Action)
    requires Admissible(c) && Inv(c, s) && Enabled(c, s, a)
    requires a.ServerSendsSyn? || a.ServerShakes? || a.ServerTakesBuffered? || a.ServerCommits? || a.ServerGivesUp?
    ensures Inv(c, Next(c, s, a))
  {
    if a.ServerCommits? {
      assert Payloads(s.server.delivered) == c.pieces;
    }
  }

  lemma StepKeeps(c: Config, s: System, a: Action)
    requires Admissible(c) && Inv(c, s) && Enabled(c, s, a)
    ensures Inv(c, Next(c, s, a))
  {
    match a
    case ServerHears(d, ackOk) => HearDataKeeps(c, s, d, ackOk);
    case ServerAppends(writeOk) => AppendKeeps(c, s, writeOk);
    case ServerSendsSyn => ServerEndKeeps(c, s, a);
    case ServerShakes(d) => ServerEndKeeps(c, s, a);
    case ServerTakesBuffered => ServerEndKeeps(c, s, a);
    case ServerCommits(moveOk) => ServerEndKeeps(c, s, a);
    case ServerGivesUp => ServerEndKeeps(c, s, a);
    case _ => ClientStepKeeps(c, s, a);
  }

  lemma {:induction false} RunKeeps(c: Config, s: System, actions: seq<Action>, t: System)
    requires Admissible(c) && Inv(c, s) && Run(c, s, actions, t)
    ensures Inv(c, t)
    decreases |actions|
  {
    if actions != [] {
      StepKeeps(c, s, actions[0]);
      RunKeeps(c, Next(c, s, actions[0]), actions[1..], t);
    }
  }

  /** A waiting client begins at a SYN, which it acknowledges, and at no other datagram. */
  lemma BeginsAtSyn(c: Config, s: System, q: nat, data: Data, isFinal: bool)
    requires s.client.phase.AwaitingSyn?
    ensures SYN in s.toClient ==>
              Next(c, s, ClientHearsSyn(SYN)) == s.(client := s.client.(phase := Sending), toServer := s.toServer + {Ack(0)})
    ensures Ack(q) in s.toClient ==> Next(c, s, ClientHearsSyn(Ack(q))) == s
    ensures Nak(q) in s.toClient ==> Next(c, s, ClientHearsSyn(Nak(q))) == s
    ensures DataPacket(q, data, isFinal) in s.toClient ==>
              Next(c, s, ClientHearsSyn(DataPacket(q, data, isFinal))) == s
  {
  }

  // ----- theorems

  /**
   * While chunk n is outstanding, the server has handed out exactly chunks 0..n-1 or 0..n, in
   * order, and buffers nothing; so each sendChunk that returned true delivered its chunk.
   */
  lemma UploadInStep(c: Config, actions: seq<Action>, t: System)
    requires Admissible(c) && Run(c, Init(c), actions, t)
    ensures t.server.receiver.buffer == map[]
    ensures t.client.current <= |t.server.delivered| <= t.client.current + 1
    ensures forall i :: 0 <= i < |t.server.delivered| ==> i < |c.pieces| && t.server.delivered[i] == PieceChunk(c.pieces, i)
    ensures t.client.phase.Succeeded? ==> Payloads(t.server.delivered) == c.pieces
  {
    InitInv(c);
    RunKeeps(c, Init(c), actions, t);
  }

  /**
   * In every run each copy of a chunk that the server reads is acknowledged, the first and any later
   * one: a client whose acknowledgement was lost gets another for its retransmission.
   */
  lemma EveryCopyAcknowledged(c: Config, actions: seq<Action>, s: System, d: Datagram)
    requires Admissible(c) && Run(c, Init(c), actions, s)
    requires Listening(s) && Deliverable(s, d) && d.flags.data
    ensures R.Absorb(R.OnAcceptance, s.server.receiver.(kept := None), d, true).acks == [Ack(d.seqNum)]
    ensures Ack(d.seqNum) in Next(c, s, ServerHears(d, true)).toClient
  {
    InitInv(c);
    RunKeeps(c, Init(c), actions, s);
    CopyAcknowledged(c, s, d);
  }

  /** At most ten transmissions per chunk. */
  lemma AtMostTenPerChunk(c: Config, actions: seq<Action>, t: System)
    requires Admissible(c) && Run(c, Init(c), actions, t)
    ensures t.client.transmissions <= 10 * |c.pieces|
  {
    InitInv(c);
    RunKeeps(c, Init(c), actions, t);
    assert t.client.current < |c.pieces| ==> 10 * (t.client.current + 1) <= 10 * |c.pieces|;
  }

  /** The server's receiveFile returns true exactly when the file was saved, whole; else the old file stays. */
  lemma UploadCopiesFile(c: Config, file: Data, actions: seq<Action>, t: System)
    requires Admissible(c) && c.pieces == Pieces(InType(file, c.ascii))
    requires Run(c, Init(c), actions, t)
    ensures t.server.writer.dest ==
            if t.server.phase == Stopped(true) then Some(InType(file, c.ascii)) else c.oldDest
  {
    InitInv(c);
    RunKeeps(c, Init(c), actions, t);
    PiecesTranslate(file, c.ascii);
  }

  /** Every datagram of every upload fits the wire format. */
  lemma EverythingSendable(c: Config, actions: seq<Action>, t: System, d: Datagram, windowSize: Codec.U16)
    requires Admissible(c) && Run(c, Init(c), actions, t)
    requires d in t.toClient || d in t.toServer
    ensures Sendable(d) && FromWire(ToWire(d, windowSize)) == Some(d)
  {
    InitInv(c);
    RunKeeps(c, Init(c), actions, t);
    assert Sendable(d) by {
      if d in t.toServer {
        assert d != Ack(0) ==> d == PiecePacket(c.pieces, d.seqNum);
      }
    }
    WireRoundTrip(d, windowSize);
  }
}
