/** Download runs that exist for every transfer, and when a saved download can still end in success. */
module RetrReachability {
  import opened Bytes
  import opened Datagrams
  import opened Readers
  import opened Writer
  import opened WindowedSender
  import opened SenderProofs
  import opened Retr
  import opened RetrProofs
  import opened RetrTheorems
  import opened RetrRefinement
  import opened FilePipeline
  import R = WindowedReceiver

  // ----- the run of a transfer in which every piece crosses at once

  /** The server never hears the acknowledgement of the last piece, and only its retry limit can stop it. */
  predicate LastAckUnheard(c: Config, actions: seq<Action>)
    requires Admissible(c)
  {
    forall i :: 0 <= i < |actions| ==> Harmless(c, actions[i])
  }

  predicate Harmless(c: Config, a: Action)
    requires Admissible(c)
  {
    !a.ServerGivesUp? && !(a.ServerHears? && a.d == Ack(Last(c)))
  }

  lemma Join(c: Config, s: System, a: seq<Action>, u: System, b: seq<Action>, t: System)
    requires Admissible(c) && Run(c, s, a, u) && Run(c, u, b, t) && LastAckUnheard(c, a) && LastAckUnheard(c, b)
    ensures Run(c, s, a + b, t) && LastAckUnheard(c, a + b)
  {
    RunAppend(c, s, a, u, b, t);
  }

  lemma Extend(c: Config, s: System, actions: seq<Action>, t: System, a: Action)
    returns (longer: seq<Action>, u: System)
    requires Admissible(c) && Run(c, s, actions, t) && LastAckUnheard(c, actions)
    requires Inv(c, t) && Enabled(c, t, a) && Harmless(c, a)
    ensures Run(c, s, longer, u) && LastAckUnheard(c, longer) && u == Next(c, t, a) && Inv(c, u)
  {
    u := Next(c, t, a);
    RunOne(c, t, a);
    Join(c, s, actions, t, [a], u);
    StepKeeps(c, t, a);
    longer := actions + [a];
  }

  /** Pieces 0..k-1 sent, delivered, appended and acknowledged; both sides ready for piece k. */
  ghost predicate RoundDone(c: Config, s: System, k: nat)
    requires Admissible(c)
  {
    Inv(c, s) && s.server.phase.Transmitting? && s.client.phase.Receiving? && s.server.next == k < |c.pieces| &&
    s.server.sender.window == [] && s.client.receiver.expected == k && s.client.receiver.buffer == map[] &&
    s.client.receiver.kept == None
  }

  lemma StartRounds(c: Config) returns (actions: seq<Action>, s: System)
    requires Admissible(c)
    ensures Run(c, Init(c), actions, s) && RoundDone(c, s, 0) && LastAckUnheard(c, actions)
  {
    InitInv(c);
    actions, s := [], Init(c);
    if c.passive {
      actions, s := Extend(c, Init(c), actions, s, ClientSendsSyn);
      actions, s := Extend(c, Init(c), actions, s, ServerHearsSyn(SYN));
      actions, s := Extend(c, Init(c), actions, s, ClientShakes(Ack(0)));
    }
  }

  /** Piece k has been transmitted once. */
  ghost predicate PieceSent(c: Config, s: System, k: nat)
    requires Admissible(c)
  {
    Inv(c, s) && s.server.phase.Transmitting? && k < |c.pieces| && s.server.next == k + 1 &&
    |s.server.sender.window| == 1
  }

  lemma CrossPush(c: Config, s: System, k: nat)
    requires Admissible(c) && RoundDone(c, s, k)
    ensures Enabled(c, s, ServerPushes(0.0))
    ensures var t := Next(c, s, ServerPushes(0.0));
            PieceSent(c, t, k) && t.client == s.client && PiecePacket(c.pieces, k) in t.toClient
  {
    StepKeeps(c, s, ServerPushes(0.0));
  }

  lemma CrossHear(c: Config, s: System, k: nat)
    requires Admissible(c) && PieceSent(c, s, k) && Listening(s) && PiecePacket(c.pieces, k) in s.toClient
    requires s.client.receiver.expected == k && s.client.receiver.buffer == map[] && s.client.receiver.kept == None
    ensures var hear := ClientHears(PiecePacket(c.pieces, k), true);
            Enabled(c, s, hear) &&
            var t := Next(c, s, hear);
            PieceSent(c, t, k) && t.client.phase == Holding(PieceChunk(c.pieces, k)) &&
            t.client.receiver.expected == k + 1 && t.client.receiver.buffer == map[] &&
            t.client.receiver.kept == None && (k != Last(c) ==> Ack(k) in t.toServer)
  {
    var hear := ClientHears(PiecePacket(c.pieces, k), true);
    StepKeeps(c, s, hear);
    var x := R.Absorb(R.FinalAfterCommit, s.client.receiver.(kept := None), PiecePacket(c.pieces, k), true);
    assert k != Last(c) ==> x.acks[0] == Ack(k);
  }

  lemma CrossAppend(c: Config, s: System, k: nat)
    requires Admissible(c) && PieceSent(c, s, k) && s.client.phase == Holding(PieceChunk(c.pieces, k))
    ensures var append := ClientAppends(true, true);
            var t := Next(c, s, append);
            PieceSent(c, t, k) && t.client.receiver == s.client.receiver && t.toServer == s.toServer &&
            t.client.phase == (if k == Last(c) then Appended(k) else Receiving)
  {
    StepKeeps(c, s, ClientAppends(true, true));
    var data := Translation(c, s, c.pieces[k]);
    assert CanAppend(s.client.writer, k, data, true);
  }

  /** Piece k crosses: pushed, heard, appended. */
  lemma Cross(c: Config, s: System, k: nat) returns (actions: seq<Action>, t: System)
    requires Admissible(c) && RoundDone(c, s, k)
    ensures Run(c, s, actions, t) && PieceSent(c, t, k) && LastAckUnheard(c, actions)
    ensures t.client.receiver.expected == k + 1 && t.client.receiver.buffer == map[] && t.client.receiver.kept == None
    ensures if k == Last(c) then t.client.phase == Appended(k)
            else t.client.phase == Receiving && Ack(k) in t.toServer
  {
    CrossPush(c, s, k);
    actions, t := Extend(c, s, [], s, ServerPushes(0.0));
    CrossHear(c, t, k);
    actions, t := Extend(c, s, actions, t, ClientHears(PiecePacket(c.pieces, k), true));
    CrossAppend(c, t, k);
    actions, t := Extend(c, s, actions, t, ClientAppends(true, true));
  }

  /** The only packet in flight is acknowledged. */
  lemma OnlyPacketAcked(s: SenderState, k: nat, now: real)
    requires Good(s, k + 1) && |s.window| == 1
    ensures OnAck(s, k, now).window == []
  {
    OnAckWindow(s, k, now);
    var m := Marked(s.window, k);
    assert s.window[0].seqNum == k;
    assert m[0].acked;
  }

  lemma HearOnlyAck(c: Config, s: System, k: nat)
    requires Admissible(c) && PieceSent(c, s, k) && Ack(k) in s.toServer
    ensures Next(c, s, ServerHears(Ack(k), 0.0)).server.sender.window == []
  {
    OnlyPacketAcked(s.server.sender, k, 0.0);
  }

  lemma {:induction false} RoundsReachable(c: Config, k: nat) returns (actions: seq<Action>, s: System)
    requires Admissible(c) && k < |c.pieces|
    ensures Run(c, Init(c), actions, s) && RoundDone(c, s, k) && LastAckUnheard(c, actions)
  {
    if k == 0 {
      actions, s := StartRounds(c);
    } else {
      var a, u := RoundsReachable(c, k - 1);
      var b, v := Round(c, u, k - 1);
      Join(c, Init(c), a, u, b, v);
      actions, s := a + b, v;
    }
  }

  /** A piece that is not the last crosses and its acknowledgement returns. */
  lemma Round(c: Config, s: System, k: nat) returns (actions: seq<Action>, t: System)
    requires Admissible(c) && RoundDone(c, s, k) && k < Last(c)
    ensures Run(c, s, actions, t) && RoundDone(c, t, k + 1) && LastAckUnheard(c, actions)
  {
    actions, t := Cross(c, s, k);
    HearOnlyAck(c, t, k);
    actions, t := Extend(c, s, actions, t, ServerHears(Ack(k), 0.0));
  }

  lemma SavedReachable(c: Config) returns (actions: seq<Action>, s: System)
    requires Admissible(c)
    ensures Run(c, Init(c), actions, s) && PieceSent(c, s, Last(c)) && s.client.phase == Stopped(true)
    ensures s.client.writer.committed && Ack(Last(c)) in s.toServer && LastAckUnheard(c, actions)
  {
    var a, u := RoundsReachable(c, Last(c));
    var b, v := Cross(c, u, Last(c));
    Join(c, Init(c), a, u, b, v);
    var d, t := SaveAndConfirm(c, v);
    Join(c, Init(c), a + b, v, d, t);
    actions, s := a + b + d, t;
  }

  /** With the last piece appended, the client can commit and confirm. */
  lemma SaveAndConfirm(c: Config, v: System) returns (actions: seq<Action>, s: System)
    requires Admissible(c) && Inv(c, v) && v.client.phase == Appended(Last(c))
    ensures Run(c, v, actions, s) && s.server == v.server && s.client.phase == Stopped(true)
    ensures s.client.writer.committed && Ack(Last(c)) in s.toServer && Inv(c, s) && LastAckUnheard(c, actions)
  {
    actions, s := Extend(c, v, [], v, ClientCommits(true, true));
    assert s.client.receiver.finalPending && s.client.receiver.pendingFinal == Last(c);
    actions, s := Extend(c, v, actions, s, ClientConfirms(true));
  }

  /** One poll in which the client commits and confirms before its acknowledgement is seen. */
  function CommitPoll(c: Config): PollScript
    requires Admissible(c)
  {
    PollScript([Sight([ClientCommits(true, true), ClientConfirms(true)], Arrived(Ack(Last(c)), 0.0))],
               0.0, false, _ => Sent(0.0))
  }

  /** flush may be called before the file is saved and return true, the client committing while it waits. */
  lemma FlushAcrossCommit(c: Config, s: System)
    requires Admissible(c) && PieceSent(c, s, Last(c)) && s.client.phase == Appended(Last(c))
    ensures !s.client.writer.committed
    ensures PollsPossible(c, Blind(s), s.server.sender, [CommitPoll(c)], true)
    ensures Flush(s.server.sender, Inputs([CommitPoll(c)])).done == Some(true)
  {
    var p := CommitPoll(c);
    CommitWhileWaiting(c, s);
    BlindPerform(c, s, p.script[0].meanwhile);
    assert p.script[1..] == [];
    assert Seen(p.script) == [Arrived(Ack(Last(c)), 0.0)];
    AckEmptiesWindow(s.server.sender, Last(c), p.Input());
    assert [p][1..] == [];
    assert Inputs([p]) == [p.Input()];
    OnePollFlushes(s.server.sender, p.Input());
  }

  lemma OnePollFlushes(x: SenderState, input: PollInput)
    requires Poll(x, input).ok && Poll(x, input).state.window == []
    ensures Flush(x, [input]).done == Some(true)
  {
    var y := Poll(x, input).state;
    assert PollUntil(y, [], true) == CallResult(y, [], Some(true));
    assert x.window != [] ==> PollUntil(x, [input], true).done == PollUntil(y, [input][1..], true).done;
    assert [input][1..] == [];
  }

  lemma CommitWhileWaiting(c: Config, s: System)
    requires Admissible(c) && Inv(c, s) && s.client.phase == Appended(Last(c))
    ensures !s.client.writer.committed
    ensures Ack(Last(c)) in Perform(c, s, false, [ClientCommits(true, true), ClientConfirms(true)]).toServer
  {
    var commit, confirm := ClientCommits(true, true), ClientConfirms(true);
    var u := Next(c, s, commit);
    StepKeeps(c, s, commit);
    assert u.client.receiver.finalPending && u.client.receiver.pendingFinal == Last(c);
    assert [commit, confirm][1..] == [confirm] && [confirm][1..] == [];
    assert Ack(Last(c)) in Next(c, u, confirm).toServer;
  }

  lemma AckEmptiesWindow(x: SenderState, k: nat, input: PollInput)
    requires Good(x, k + 1) && |x.window| == 1 && input.arrivals == [Arrived(Ack(k), 0.0)]
    ensures Poll(x, input).ok && Poll(x, input).state.window == []
  {
    OnlyPacketAcked(x, k, 0.0);
    var y := OnAck(x, k, 0.0);
    assert input.arrivals[1..] == [];
    assert Drain(x, input.arrivals) == Drain(y, []);
    assert !AnyExpired(y.window, input.now, y.timeoutMs);
  }

  // ----- what a saved download can still come to

  /**
   * Every accepted piece but the last has been acknowledged; the last has been acknowledged exactly
   * when the client's call returned true.
   */
  ghost predicate Answered(c: Config, s: System)
    requires Admissible(c)
  {
    (forall q :: 0 <= q < Last(c) && Accepted(s.client.receiver, q) ==> Ack(q) in s.toServer) &&
    (Ack(Last(c)) in s.toServer <==> s.client.phase == Stopped(true))
  }

  /** A piece that changes the receiver and is not the last is acknowledged; the last never is. */
  lemma AbsorbAnswers(c: Config, s: System, d: Datagram, ackOk: bool)
    requires Admissible(c) && Inv(c, s) && Listening(s) && Deliverable(s, d) && d.flags.data
    ensures var r := s.client.receiver.(kept := None);
            var x := R.Absorb(R.FinalAfterCommit, r, d, ackOk);
            && (forall e :: e in x.acks ==> e == Ack(d.seqNum) && d.seqNum != Last(c))
            && (d.seqNum != Last(c) && x.state != r ==> Ack(d.seqNum) in x.acks)
            && (x.done == Some(None) ==> x.state == r)
  {
    EveryCopyCounts(c, s, d);
  }

  lemma HearKeepsAnswered(c: Config, s: System, d: Datagram, ackOk: bool)
    requires Admissible(c) && Inv(c, s) && Answered(c, s) && Enabled(c, s, ClientHears(d, ackOk))
    ensures Answered(c, Next(c, s, ClientHears(d, ackOk)))
  {
    var t := Next(c, s, ClientHears(d, ackOk));
    var r := s.client.receiver.(kept := None);
    var x := R.Absorb(R.FinalAfterCommit, r, d, ackOk);
    if d.flags.data {
      AbsorbShape(c, s, d, ackOk);
      AbsorbAnswers(c, s, d, ackOk);
      forall q | 0 <= q < Last(c) && Accepted(t.client.receiver, q) ensures Ack(q) in t.toServer {
        if !Accepted(r, q) {
          assert q == d.seqNum && Ack(q) in x.acks;
        }
      }
    } else {
      assert t.toServer == s.toServer;
    }
  }

  lemma StepKeepsAnswered(c: Config, s: System, a: Action)
    requires Admissible(c) && Inv(c, s) && Answered(c, s) && Enabled(c, s, a)
    ensures Answered(c, Next(c, s, a))
  {
    if ByServer(a) {
      StepFrame(c, s, a);
    } else if a.ClientHears? {
      HearKeepsAnswered(c, s, a.d, a.ackOk);
    } else if a.ClientConfirms? {
      ConfirmKeepsAnswered(c, s, a.ackOk);
    }
  }

  lemma ConfirmKeepsAnswered(c: Config, s: System, ackOk: bool)
    requires Admissible(c) && Inv(c, s) && Answered(c, s) && Enabled(c, s, ClientConfirms(ackOk))
    ensures Answered(c, Next(c, s, ClientConfirms(ackOk)))
  {
    assert s.client.receiver.finalPending && s.client.receiver.pendingFinal == Last(c);
    var x := R.Confirm(s.client.receiver, Last(c), true, ackOk);
    assert x.sent == if ackOk then [Ack(Last(c))] else [];
  }

  lemma {:induction false} RunKeepsAnswered(c: Config, s: System, actions: seq<Action>, t: System)
    requires Admissible(c) && Inv(c, s) && Answered(c, s) && Run(c, s, actions, t)
    ensures Answered(c, t)
    decreases |actions|
  {
    if actions != [] {
      StepKeeps(c, s, actions[0]);
      StepKeepsAnswered(c, s, actions[0]);
      RunKeepsAnswered(c, Next(c, s, actions[0]), actions[1..], t);
    }
  }

  /** Hearing the acknowledgement of the front packet shortens the window. */
  lemma FrontAcked(s: SenderState, next: nat, now: real)
    requires Good(s, next) && s.window != []
    ensures |OnAck(s, s.window[0].seqNum, now).window| < |s.window|
  {
    OnAckWindow(s, s.window[0].seqNum, now);
    var m := Marked(s.window, s.window[0].seqNum);
    assert m[0].acked;
  }

  /** With everything sent and acknowledged, the server can hear its way to success. */
  lemma {:induction false} AcksFinish(c: Config, s: System) returns (actions: seq<Action>, t: System)
    requires Admissible(c) && Inv(c, s) && s.server.phase.Transmitting? && s.server.next == |c.pieces|
    requires forall q :: 0 <= q < |c.pieces| ==> Ack(q) in s.toServer
    ensures Run(c, s, actions, t) && t.server.phase.Succeeded? && t.client == s.client
    decreases |s.server.sender.window|
  {
    var w := s.server.sender.window;
    if w == [] {
      actions, t := [ServerFlushes], Next(c, s, ServerFlushes);
      RunOne(c, s, ServerFlushes);
    } else {
      var heard := ServerHears(Ack(w[0].seqNum), 0.0);
      var u := Next(c, s, heard);
      RunOne(c, s, heard);
      StepKeeps(c, s, heard);
      FrontAcked(s.server.sender, s.server.next, 0.0);
      var b;
      b, t := AcksFinish(c, u);
      RunAppend(c, s, [heard], u, b, t);
      actions := [heard] + b;
    }
  }

  /** The server can still end in success. */
  ghost predicate CanSucceed(c: Config, s: System)
    requires Admissible(c)
  {
    exists actions, t :: Run(c, s, actions, t) && t.server.phase.Succeeded?
  }

  /** Success needs a server that has neither failed nor is still waiting, and the last acknowledgement. */
  lemma {:induction false} SuccessNeeds(c: Config, s: System, actions: seq<Action>, t: System)
    requires Admissible(c) && Inv(c, s) && s.client.phase.Stopped? && s.client.writer.committed
    requires Run(c, s, actions, t) && t.server.phase.Succeeded?
    requires s.server.phase.Succeeded? ==> s.server.next == |c.pieces|
    ensures s.server.phase.Succeeded? || s.server.phase.Transmitting?
    ensures Ack(Last(c)) in s.toServer
    decreases |actions|
  {
    if actions == [] {
      assert Ack(Last(c)) in s.toServer;
    } else {
      StepKeeps(c, s, actions[0]);
      SuccessNeeds(c, Next(c, s, actions[0]), actions[1..], t);
    }
  }

  /**
   * When the client has saved the file and returned, the server can still report success exactly
   * when it has done so already, or is still transmitting and the client's call returned true.
   */
  lemma SavedSucceedsIff(c: Config, before: seq<Action>, s: System)
    requires Admissible(c) && Run(c, Init(c), before, s)
    requires s.client.phase.Stopped? && s.client.writer.committed
    ensures CanSucceed(c, s) <==>
            s.server.phase.Succeeded? || (s.server.phase.Transmitting? && s.client.phase == Stopped(true))
  {
    InitInv(c);
    RunKeeps(c, Init(c), before, s);
    RunKeepsAnswered(c, Init(c), before, s);
    SucceededSentAll(c, Init(c), before, s);
    if CanSucceed(c, s) {
      SuccessOnlyIf(c, s);
    }
    if s.server.phase.Succeeded? {
      assert Run(c, s, [], s);
    } else if s.server.phase.Transmitting? && s.client.phase == Stopped(true) {
      SuccessIf(c, s);
    }
  }

  lemma SuccessOnlyIf(c: Config, s: System)
    requires Admissible(c) && Inv(c, s) && Answered(c, s) && s.client.phase.Stopped? && s.client.writer.committed
    requires (s.server.phase.Succeeded? ==> s.server.next == |c.pieces|) && CanSucceed(c, s)
    ensures s.server.phase.Succeeded? || (s.server.phase.Transmitting? && s.client.phase == Stopped(true))
  {
    var actions, t :| Run(c, s, actions, t) && t.server.phase.Succeeded?;
    SuccessNeeds(c, s, actions, t);
  }

  lemma SuccessIf(c: Config, s: System)
    requires Admissible(c) && Inv(c, s) && Answered(c, s) && s.client.phase == Stopped(true) && s.client.writer.committed
    requires s.server.phase.Transmitting?
    ensures CanSucceed(c, s)
  {
    var actions, t := AcksFinish(c, s);
  }

  /** Every transfer has a run in which both sides report success. */
  lemma CompletionReachable(c: Config)
    requires Admissible(c)
    ensures exists actions, t ::
              Run(c, Init(c), actions, t) && t.server.phase.Succeeded? && t.client.phase == Stopped(true)
  {
    var a, s := SavedReachable(c);
    SavedSucceedsIff(c, a, s);
    var b, t :| Run(c, s, b, t) && t.server.phase.Succeeded?;
    StoppedStays(c, s, b, t);
    RunAppend(c, Init(c), a, s, b, t);
  }

  /** Retransmissions of the only packet in flight, up to the retry limit and past it. */
  lemma {:induction false} ResendUntilOut(c: Config, s: System) returns (actions: seq<Action>, t: System)
    requires Admissible(c) && PieceSent(c, s, Last(c))
    ensures Run(c, s, actions, t) && t.server.phase.Failed? && t.client == s.client
    ensures |t.server.tries| == |c.pieces| && t.server.tries[Last(c)] == MAX_RETRIES + 1
    ensures LastAckUnheard(c, actions)
    decreases MAX_RETRIES - s.server.sender.window[0].retries
  {
    var p := s.server.sender.window[0];
    assert InFlightInv(c, s.server.tries, p) && PacketOk(p) && p.seqNum == Last(c);
    if p.retries == MAX_RETRIES {
      actions, t := [ServerRunsOut(0)], Next(c, s, ServerRunsOut(0));
      RunOne(c, s, ServerRunsOut(0));
    } else {
      var a, u := Extend(c, s, [], s, ServerResends(0, 0.0));
      var b;
      b, t := ResendUntilOut(c, u);
      Join(c, s, a, u, b, t);
      actions := a + b;
    }
  }

  /**
   * The converse of SuccessMeansSaved fails for every transfer: the client saves the file and returns
   * true, its last acknowledgement is never heard, and the server fails after eleven transmissions of
   * the last piece, at its retry limit.
   */
  lemma SavedWithoutSuccess(c: Config) returns (actions: seq<Action>, t: System)
    requires Admissible(c)
    ensures Run(c, Init(c), actions, t) && LastAckUnheard(c, actions)
    ensures t.client.phase == Stopped(true) && t.client.writer.dest == Some(Translated(c.pieces, c.ascii))
    ensures t.server.phase.Failed? && |t.server.tries| == |c.pieces| && t.server.tries[Last(c)] == MAX_RETRIES + 1
  {
    var a, s := SavedReachable(c);
    var b, u := ResendUntilOut(c, s);
    Join(c, Init(c), a, s, b, u);
    actions, t := a + b, u;
    SavedOrUntouched(c, actions, t);
  }
}
