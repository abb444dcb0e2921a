/** Runs of the Upload system that exist for every transfer: success, and success the server does not share. */
module UploadReachability {
  import opened Bytes
  import opened Datagrams
  import opened Readers
  import opened Writer
  import opened FilePipeline
  import opened Upload
  import opened UploadProofs
  import opened UploadRefinement
  import R = WindowedReceiver
  import W = StopAndWait

  /** Chunks 0..k-1 sent, appended and acknowledged; both sides ready for chunk k. */
  ghost predicate RoundDone(c: Config, s: System, k: nat) {
    Inv(c, s) && s.client.phase.Sending? && s.client.current == k && s.client.attempts == 0 &&
    s.server.receiver.expected == k && s.server.receiver.kept == None && !s.server.writer.committed &&
    (if k < |c.pieces| then s.server.phase.Receiving? else s.server.phase.Appended?)
  }

  lemma Extend(c: Config, s: System, actions: seq<Action>, t: System, a: Action)
    returns (longer: seq<Action>, u: System)
    requires Admissible(c) && Run(c, s, actions, t) && Inv(c, t) && Enabled(c, t, a)
    ensures Run(c, s, longer, u) && u == Next(c, t, a) && Inv(c, u)
  {
    u := Next(c, t, a);
    RunOne(c, t, a);
    RunAppend(c, s, actions, t, [a], u);
    StepKeeps(c, t, a);
    longer := actions + [a];
  }

  lemma StartRounds(c: Config) returns (actions: seq<Action>, s: System)
    requires Admissible(c)
    ensures Run(c, Init(c), actions, s) && RoundDone(c, s, 0)
  {
    InitInv(c);
    actions, s := [], Init(c);
    if c.active {
      actions, s := Extend(c, Init(c), actions, s, ServerSendsSyn);
      actions, s := Extend(c, Init(c), actions, s, ClientHearsSyn(SYN));
      actions, s := Extend(c, Init(c), actions, s, ServerShakes(Ack(0)));
    }
  }

  /** The chunk crosses: transmitted once, heard, acknowledged. */
  lemma Cross(c: Config, s: System, k: nat) returns (actions: seq<Action>, t: System)
    requires Admissible(c) && RoundDone(c, s, k) && k < |c.pieces|
    ensures Run(c, s, actions, t) && Inv(c, t) && Ack(k) in t.toClient
    ensures t.client == s.client.(attempts := 1, transmissions := s.client.transmissions + 1)
    ensures t.server.phase == Holding(PieceChunk(c.pieces, k)) && t.server.receiver.expected == k + 1
    ensures t.server.receiver.kept == None && t.server.writer == s.server.writer
    ensures t.server.delivered[..k] == s.server.delivered
  {
    actions, t := Extend(c, s, [], s, ClientTransmits(true));
    assert t.server == s.server;
    var d := PiecePacket(c.pieces, k);
    var x := R.Absorb(R.OnAcceptance, t.server.receiver.(kept := None), d, true);
    assert x.acks == [Ack(k)] && x.done == Some(Some(PieceChunk(c.pieces, k)));
    actions, t := Extend(c, s, actions, t, ServerHears(d, true));
    assert Ack(k) in x.acks;
    assert t.server.delivered[..k] == s.server.delivered;
  }

  /** An attempt that gets out, is heard and acknowledged by the server, and sees the acknowledgement. */
  function GoodAttempt(c: Config, k: nat): TimedAttempt
    requires k < |c.pieces|
  {
    TimedAttempt(false, true, [Sight([ServerHears(PiecePacket(c.pieces, k), true)], W.Arrived(Ack(k)))])
  }

  /**
   * One transmission that is heard, with an acknowledgement that gets out, makes sendChunk succeed from
   * any of its attempts on: the server is reading, whether or not it has accepted the chunk already.
   */
  lemma SendChunkCanSucceed(c: Config, s: System, attempts: nat -> TimedAttempt, n: nat)
    requires Admissible(c) && Inv(c, s)
    requires s.client.phase.Sending? && s.client.current < |c.pieces| && s.client.attempts == n < W.MAX_RETRIES
    requires Listening(s) && attempts(n) == GoodAttempt(c, s.client.current)
    ensures SendPossible(c, s, attempts, n) && W.Succeeds(Untimed(attempts), n, s.client.current)
  {
    var k, a, u := s.client.current, attempts(n), Transmit(c, s, true);
    var d := PiecePacket(c.pieces, k);
    var hear := ServerHears(d, true);
    StepKeeps(c, s, ClientTransmits(true));
    assert Deliverable(u, d) by {
      if s.server.receiver.kept.Some? {
        NeverAhead(c, s, s.server.receiver.kept.value);
      }
    }
    CopyAcknowledged(c, u, d);
    assert [hear][1..] == [];
    assert Perform(c, u, true, [hear]) == Next(c, u, hear);
    assert a.script[1..] == [];
    assert Seen(a.script)[0] == W.Arrived(Ack(k));
    assert W.Delivered(a.Plain(), k);
    assert Untimed(attempts)(n) == a.Plain();
  }

  /**
   * A lost acknowledgement costs only a retransmission: from any reachable state in which the server has
   * accepted the outstanding chunk and is reading again, and an attempt is left, sendChunk can still
   * return true, and the server has then handed out nothing more.
   */
  lemma RetransmissionSucceeds(c: Config, before: seq<Action>, s: System) returns (actions: seq<Action>, t: System)
    requires Admissible(c) && Run(c, Init(c), before, s)
    requires s.client.phase.Sending? && s.client.current < |c.pieces| && s.client.attempts < W.MAX_RETRIES
    requires Listening(s) && |s.server.delivered| == s.client.current + 1
    ensures Run(c, s, actions, t) && t.client.phase.Sending? && t.client.current == s.client.current + 1
    ensures t.client.transmissions == s.client.transmissions + 1 && t.server.delivered == s.server.delivered
  {
    var n, k := s.client.attempts, s.client.current;
    var attempts := (i: nat) => GoodAttempt(c, k);
    InitInv(c);
    RunKeeps(c, Init(c), before, s);
    SendChunkCanSucceed(c, s, attempts, n);
    assert Untimed(attempts)(n) == attempts(n).Plain();
    assert W.Delivered(attempts(n).Plain(), k);
    OldCopyHeard(c, s);
    actions, t := SendChunkIsRun(c, s, attempts, n);
  }

  /** The retransmission of an accepted chunk: the server hands out nothing more. */
  lemma OldCopyHeard(c: Config, s: System)
    requires Admissible(c) && Inv(c, s) && Enabled(c, s, ClientTransmits(true)) && Listening(s)
    requires |s.server.delivered| == s.client.current + 1
    ensures var u := Transmit(c, s, true);
            var v := AfterWait(c, u, GoodAttempt(c, s.client.current).script);
            v.server.delivered == s.server.delivered && v.client == u.client
  {
    var u, d := Transmit(c, s, true), PiecePacket(c.pieces, s.client.current);
    var hear := ServerHears(d, true);
    StepKeeps(c, s, ClientTransmits(true));
    assert [hear][1..] == [];
    assert Perform(c, u, true, [hear]) == Next(c, u, hear);
    AbsorbShape(c, u, d, true);
  }

  lemma Round(c: Config, s: System, k: nat) returns (actions: seq<Action>, t: System)
    requires Admissible(c) && RoundDone(c, s, k) && k < |c.pieces|
    ensures Run(c, s, actions, t) && RoundDone(c, t, k + 1)
  {
    actions, t := Cross(c, s, k);
    var held := t;
    actions, t := Extend(c, s, actions, t, ServerAppends(true));
    assert t.client == held.client && t.toClient == held.toClient;
    assert CanAppend(held.server.writer, k, [], true);
    assert !t.server.phase.Stopped?;
    actions, t := Extend(c, s, actions, t, ClientHears(Ack(k)));
  }

  lemma {:induction false} RoundsReachable(c: Config, k: nat) returns (actions: seq<Action>, s: System)
    requires Admissible(c) && k <= |c.pieces|
    ensures Run(c, Init(c), actions, s) && RoundDone(c, s, k)
    decreases k
  {
    if k == 0 {
      actions, s := StartRounds(c);
    } else {
      var a, u := RoundsReachable(c, k - 1);
      var b, t := Round(c, u, k - 1);
      RunAppend(c, Init(c), a, u, b, t);
      actions, s := a + b, t;
    }
  }

  /**
   * Every upload has a run in which the client's sendFromReader succeeds, and the file may then be
   * saved or not: the last acknowledgement comes before the commit, so only the server's final
   * reply tells the two apart.
   */
  lemma ClientSuccessLeavesBothOutcomes(c: Config, saved: bool) returns (actions: seq<Action>, t: System)
    requires Admissible(c)
    ensures Run(c, Init(c), actions, t) && t.client.phase.Succeeded? && t.server.phase == Stopped(saved)
    ensures t.server.writer.dest == if saved then Some(Translated(c.pieces, c.ascii)) else c.oldDest
  {
    actions, t := RoundsReachable(c, |c.pieces|);
    actions, t := Extend(c, Init(c), actions, t, ClientFinishes);
    actions, t := Extend(c, Init(c), actions, t, ServerCommits(saved));
  }

  // ----- what an upload whose calls all succeeded can still come to

  lemma {:induction false} StoppedStays(c: Config, s: System, actions: seq<Action>, t: System)
    requires Run(c, s, actions, t) && s.server.phase.Stopped?
    ensures t.server == s.server
    decreases |actions|
  {
    if actions != [] {
      StoppedStays(c, Next(c, s, actions[0]), actions[1..], t);
    }
  }

  /** Some continuation has the client's calls all succeed. */
  ghost predicate CanSucceed(c: Config, s: System) {
    exists actions, t :: Run(c, s, actions, t) && t.client.phase.Succeeded?
  }

  /** Every chunk is accepted, the last one unacknowledged: the server reads no more, so it stays that way. */
  ghost predicate Unanswered(c: Config, s: System)
    requires Admissible(c)
  {
    |s.server.delivered| == |c.pieces| && s.client.current == |c.pieces| - 1 && !s.client.phase.Succeeded? &&
    Ack(|c.pieces| - 1) !in s.toClient
  }

  lemma StepKeepsUnanswered(c: Config, s: System, a: Action)
    requires Admissible(c) && Inv(c, s) && Unanswered(c, s) && Enabled(c, s, a)
    ensures Unanswered(c, Next(c, s, a))
  {
    assert forall d :: d in s.toClient && W.IsAckFor(d, s.client.current) ==> d == Ack(d.ackNum);
  }

  lemma {:induction false} RunKeepsUnanswered(c: Config, s: System, actions: seq<Action>, t: System)
    requires Admissible(c) && Inv(c, s) && Unanswered(c, s) && Run(c, s, actions, t)
    ensures Unanswered(c, t)
    decreases |actions|
  {
    if actions != [] {
      StepKeeps(c, s, actions[0]);
      StepKeepsUnanswered(c, s, actions[0]);
      RunKeepsUnanswered(c, Next(c, s, actions[0]), actions[1..], t);
    }
  }

  /** The acknowledgement of the last chunk is there to be heard. */
  lemma FinishFromLastAck(c: Config, s: System) returns (actions: seq<Action>, t: System)
    requires Admissible(c) && Inv(c, s) && s.client.phase.Sending? && s.client.current == |c.pieces| - 1
    requires |s.server.delivered| == |c.pieces| && Ack(|c.pieces| - 1) in s.toClient
    ensures Run(c, s, actions, t) && t.client.phase.Succeeded?
  {
    actions, t := Extend(c, s, [], s, ClientHears(Ack(|c.pieces| - 1)));
    actions, t := Extend(c, s, actions, t, ClientFinishes);
  }

  /**
   * For the last chunk there is no second acknowledgement: once the server has accepted it, it reads no
   * more, and the client's calls can still all succeed exactly when the acknowledgement has been sent.
   */
  lemma LastAckDecides(c: Config, before: seq<Action>, s: System)
    requires Admissible(c) && Run(c, Init(c), before, s)
    requires s.client.phase.Sending? && s.client.current == |c.pieces| - 1 && |s.server.delivered| == |c.pieces|
    ensures CanSucceed(c, s) <==> Ack(|c.pieces| - 1) in s.toClient
  {
    InitInv(c);
    RunKeeps(c, Init(c), before, s);
    if Ack(|c.pieces| - 1) in s.toClient {
      var actions, t := FinishFromLastAck(c, s);
    } else if CanSucceed(c, s) {
      var actions, t :| Run(c, s, actions, t) && t.client.phase.Succeeded?;
      RunKeepsUnanswered(c, s, actions, t);
    }
  }

  /** Some continuation saves the file. */
  ghost predicate CanBeSaved(c: Config, s: System) {
    exists actions, t :: Run(c, s, actions, t) && t.server.writer.committed
  }

  /** With every chunk accepted, a server that has not stopped is about to append the last one, or has. */
  lemma SucceededIsAtEnd(c: Config, s: System)
    requires Admissible(c) && Inv(c, s) && s.client.phase.Succeeded?
    ensures s.server.phase.Appended? || s.server.phase.Stopped? ||
            (s.server.phase.Holding? && s.server.phase.chunk == PieceChunk(c.pieces, |c.pieces| - 1))
  {
  }

  /** It can then append and commit. */
  lemma SaveFromEnd(c: Config, s: System) returns (actions: seq<Action>, t: System)
    requires Admissible(c) && Inv(c, s) && s.client.phase.Succeeded? && !s.server.phase.Stopped?
    ensures Run(c, s, actions, t) && t.server.writer.committed
  {
    SucceededIsAtEnd(c, s);
    actions, t := [], s;
    if s.server.phase.Holding? {
      actions, t := Extend(c, s, actions, t, ServerAppends(true));
      assert CanAppend(s.server.writer, |c.pieces| - 1, [], true);
    }
    actions, t := Extend(c, s, actions, t, ServerCommits(true));
  }

  /**
   * When the client's calls have all succeeded, the file is saved or can still be saved exactly when
   * the server's receiveFile has not already returned false.
   */
  lemma SucceededSavedIff(c: Config, before: seq<Action>, s: System)
    requires Admissible(c) && Run(c, Init(c), before, s) && s.client.phase.Succeeded?
    ensures CanBeSaved(c, s) <==> s.server.phase != Stopped(false)
  {
    InitInv(c);
    RunKeeps(c, Init(c), before, s);
    if s.server.phase == Stopped(false) {
      if CanBeSaved(c, s) {
        var actions, t :| Run(c, s, actions, t) && t.server.writer.committed;
        StoppedStays(c, s, actions, t);
      }
    } else if s.server.phase.Stopped? {
      assert Run(c, s, [], s);
    } else {
      var actions, t := SaveFromEnd(c, s);
    }
  }
}
