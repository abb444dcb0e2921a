/** What holds of every download run. */
module RetrTheorems {
  import opened Bytes
  import opened Datagrams
  import opened Readers
  import opened Retr
  import opened RetrProofs
  import opened FilePipeline
  import Codec

  // ----- safety over whole runs

  /** receiveNext hands out a prefix of the numbered pieces, and at most the last is final. */
  lemma DeliveredInOrder(c: Config, actions: seq<Action>, t: System)
    requires Admissible(c) && Run(c, Init(c), actions, t)
    ensures t.client.delivered <= Numbered(c.pieces)
    ensures forall i :: 0 <= i < |t.client.delivered| ==>
      t.client.delivered[i].seqNum == i && (t.client.delivered[i].isFinal <==> i == |c.pieces| - 1)
  {
    InitInv(c);
    RunKeeps(c, Init(c), actions, t);
  }

  /** The final piece is acknowledged only when the client has saved the whole transfer. */
  lemma FinalAckMeansSaved(c: Config, actions: seq<Action>, t: System)
    requires Admissible(c) && Run(c, Init(c), actions, t)
    requires Ack(Last(c)) in t.toServer
    ensures t.client.writer.committed && t.client.writer.dest == Some(Translated(c.pieces, c.ascii))
  {
    InitInv(c);
    RunKeeps(c, Init(c), actions, t);
    assert Justified(c, t.client, Ack(Last(c)).ackNum);
  }

  /** If flush returns true on the server, the client has already saved the whole transfer. */
  lemma SuccessMeansSaved(c: Config, actions: seq<Action>, t: System)
    requires Admissible(c) && Run(c, Init(c), actions, t)
    requires t.server.phase.Succeeded?
    ensures t.client.writer.committed && t.client.writer.dest == Some(Translated(c.pieces, c.ascii))
  {
    InitInv(c);
    RunKeeps(c, Init(c), actions, t);
    SucceededSentAll(c, Init(c), actions, t);
    assert Ack(Last(c)) in t.toServer;
    FinalAckMeansSaved(c, actions, t);
  }

  lemma {:induction false} SucceededSentAll(c: Config, s: System, actions: seq<Action>, t: System)
    requires Admissible(c) && Run(c, s, actions, t)
    requires s.server.phase.Succeeded? ==> s.server.next == |c.pieces|
    ensures t.server.phase.Succeeded? ==> t.server.next == |c.pieces|
    decreases |actions|
  {
    if actions != [] {
      SucceededSentAll(c, Next(c, s, actions[0]), actions[1..], t);
    }
  }

  /**
   * A download of any file: the server's success means the client's destination holds the file
   * (in ASCII type, the file with normalised line ends); otherwise the destination is the old
   * one or the complete new one, never anything between.
   */
  lemma DownloadCopiesFile(c: Config, file: Data, actions: seq<Action>, t: System)
    requires Admissible(c) && c.pieces == Pieces(InType(file, c.ascii))
    requires Run(c, Init(c), actions, t)
    ensures t.server.phase.Succeeded? ==> t.client.writer.dest == Some(InType(file, c.ascii))
    ensures t.client.phase == Stopped(true) ==> t.client.writer.dest == Some(InType(file, c.ascii))
    ensures t.client.writer.dest == c.oldDest || t.client.writer.dest == Some(InType(file, c.ascii))
  {
    SavedOrUntouched(c, actions, t);
    PiecesTranslate(file, c.ascii);
    if t.server.phase.Succeeded? {
      SuccessMeansSaved(c, actions, t);
    }
  }

  lemma SavedOrUntouched(c: Config, actions: seq<Action>, t: System)
    requires Admissible(c) && Run(c, Init(c), actions, t)
    ensures t.client.phase == Stopped(true) ==> t.client.writer.committed
    ensures t.client.writer.dest ==
            if t.client.writer.committed then Some(Translated(c.pieces, c.ascii)) else c.oldDest
  {
    InitInv(c);
    RunKeeps(c, Init(c), actions, t);
  }

  /** The cut of any file short of 2^32 chunks is an admissible transfer. */
  lemma FilesAdmissible(file: Data, ascii: bool, passive: bool, timeout: int, oldDest: Option<Data>)
    requires |Pieces(InType(file, ascii))| < 0x1_0000_0000
    ensures Admissible(Config(Pieces(InType(file, ascii)), passive, ascii, timeout, oldDest))
  {
    PiecesShape(InType(file, ascii));
  }

  /**
   * Once the client's call has returned without saving (a timeout, an abort, a write or commit
   * failure, with its NAK delivered or lost), no continuation makes the server succeed.
   */
  lemma FailureIsNeverSuccess(c: Config, before: seq<Action>, s: System, after: seq<Action>, t: System)
    requires Admissible(c) && Run(c, Init(c), before, s) && Run(c, s, after, t)
    requires s.client.phase.Stopped? && !s.client.writer.committed
    ensures !t.server.phase.Succeeded? && t.client.writer.dest == c.oldDest
  {
    StoppedStays(c, s, after, t);
    RunAppend(c, Init(c), before, s, after, t);
    InitInv(c);
    RunKeeps(c, Init(c), before + after, t);
    if t.server.phase.Succeeded? {
      SuccessMeansSaved(c, before + after, t);
    }
  }

  lemma {:induction false} StoppedStays(c: Config, s: System, actions: seq<Action>, t: System)
    requires Admissible(c) && Run(c, s, actions, t) && s.client.phase.Stopped?
    ensures t.client == s.client
    decreases |actions|
  {
    if actions != [] {
      StoppedStays(c, Next(c, s, actions[0]), actions[1..], t);
    }
  }

  // ----- bounded work

  function Transmissions(actions: seq<Action>): nat {
    if actions == [] then 0
    else (if actions[0].ServerPushes? || actions[0].ServerResends? then 1 else 0) + Transmissions(actions[1..])
  }

  function Sum(xs: seq<nat>): nat { if xs == [] then 0 else Sum(xs[..|xs| - 1]) + xs[|xs| - 1] }

  lemma {:induction false} SumUpdate(xs: seq<nat>, i: nat, x: nat)
    requires i < |xs|
    ensures Sum(xs[i := x]) == Sum(xs) - xs[i] + x
  {
    var n := |xs| - 1;
    if i < n {
      assert xs[i := x][..n] == xs[..n][i := x];
      SumUpdate(xs[..n], i, x);
    } else {
      assert xs[i := x][..n] == xs[..n];
    }
  }

  lemma {:induction false} SumBound(xs: seq<nat>, bound: nat)
    requires forall i :: 0 <= i < |xs| ==> xs[i] <= bound
    ensures Sum(xs) <= bound * |xs|
  {
    if xs != [] {
      SumBound(xs[..|xs| - 1], bound);
    }
  }

  lemma StepCounted(c: Config, s: System, a: Action)
    requires Admissible(c) && ServerInv(c, s.server) && Enabled(c, s, a)
    ensures Sum(Next(c, s, a).server.tries) == Sum(s.server.tries) + Transmissions([a])
  {
    assert Transmissions([a]) == if a.ServerPushes? || a.ServerResends? then 1 else 0 by {
      assert [a][1..] == [];
    }
    if a.ServerPushes? {
      SumSnoc(s.server.tries, 1);
    } else if a.ServerResends? {
      var p := s.server.sender.window[a.j];
      assert InFlightInv(c, s.server.tries, p);
      SumUpdate(s.server.tries, p.seqNum, s.server.tries[p.seqNum] + 1);
    } else {
      assert Next(c, s, a).server.tries == s.server.tries;
    }
  }

  lemma SumSnoc(xs: seq<nat>, x: nat)
    ensures Sum(xs + [x]) == Sum(xs) + x
  {
    assert (xs + [x])[..|xs|] == xs;
  }

  lemma {:induction false} TransmissionsCounted(c: Config, s: System, actions: seq<Action>, t: System)
    requires Admissible(c) && Inv(c, s) && Run(c, s, actions, t)
    ensures Sum(t.server.tries) == Sum(s.server.tries) + Transmissions(actions)
    decreases |actions|
  {
    if actions != [] {
      StepKeeps(c, s, actions[0]);
      StepCounted(c, s, actions[0]);
      TransmissionsCounted(c, Next(c, s, actions[0]), actions[1..], t);
      assert [actions[0]][1..] == [];
    }
  }

  /** Any run transmits at most eleven datagrams per chunk. */
  lemma AtMostElevenPerChunk(c: Config, actions: seq<Action>, t: System)
    requires Admissible(c) && Run(c, Init(c), actions, t)
    ensures Transmissions(actions) <= 11 * |c.pieces|
  {
    InitInv(c);
    RunKeeps(c, Init(c), actions, t);
    TransmissionsCounted(c, Init(c), actions, t);
    SumBound(t.server.tries, 11);
  }

  // ----- the wire

  /** Every datagram of every run fits the wire format, so the codec carries it faithfully. */
  lemma EverythingSendable(c: Config, actions: seq<Action>, t: System, d: Datagram, windowSize: Codec.U16)
    requires Admissible(c) && Run(c, Init(c), actions, t)
    requires d in t.toClient || d in t.toServer
    ensures Sendable(d) && FromWire(ToWire(d, windowSize)) == Some(d)
  {
    InitInv(c);
    RunKeeps(c, Init(c), actions, t);
    assert Sendable(d) by {
      if d in t.toClient {
        assert d != Ack(0) ==> d == PiecePacket(c.pieces, d.seqNum);
      }
    }
    WireRoundTrip(d, windowSize);
  }
}
