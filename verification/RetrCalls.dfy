/** A whole download as the server's calls: sendChunk for every piece and then flush, the client moving throughout. */
module RetrCalls {
  import opened Bytes
  import opened Datagrams
  import opened FilePipeline
  import opened WindowedSender
  import opened Retr
  import opened RetrRefinement
  import opened RetrProofs
  import opened RetrReachability
  import opened SenderProofs
  import RetrTheorems

  /** A call of sendChunk and the client's steps before it. */
  datatype TimedCall = TimedCall(between: seq<Action>, call: SendCall)

  /** Between two calls: the client's side, the sender's state and the number of the next piece. */
  datatype Point = Point(b: System, x: SenderState, n: nat)

  function PointOf(s: System): Point { Point(Blind(s), s.server.sender, s.server.next) }

  /** The call is possible and returns true. */
  ghost predicate Succeeds(c: Config, p: Point, first: TimedCall)
    requires Admissible(c)
  {
    p.n < |c.pieces| && SendPossible(c, Perform(c, p.b, false, first.between), p.x, p.n, first.call) &&
    SendResult(c, p.x, p.n, first.call).done == Some(true)
  }

  function AfterFirst(c: Config, p: Point, first: TimedCall): Point
    requires Admissible(c) && p.n < |c.pieces|
  {
    Point(AfterSend(c, Perform(c, p.b, false, first.between), p.x, p.n, first.call),
          SendResult(c, p.x, p.n, first.call).state, p.n + 1)
  }

  /** `points` are the points before, between and after the calls, which all succeed. */
  ghost predicate Chained(c: Config, points: seq<Point>, calls: seq<TimedCall>)
    requires Admissible(c)
  {
    |points| == |calls| + 1 &&
    forall i :: 0 <= i < |calls| ==> Succeeds(c, points[i], calls[i]) && points[i + 1] == AfterFirst(c, points[i], calls[i])
  }

  /** The flush at the end is possible and returns true. */
  ghost predicate FlushSucceeds(c: Config, p: Point, between: seq<Action>, polls: seq<PollScript>)
    requires Admissible(c)
  {
    p.n == |c.pieces| && PollsPossible(c, Perform(c, p.b, false, between), p.x, polls, true) &&
    Flush(p.x, Inputs(polls)).done == Some(true)
  }

  /** The client's side when the flush returns. */
  function AfterFlush(c: Config, p: Point, between: seq<Action>, polls: seq<PollScript>): System
    requires Admissible(c)
  {
    AfterPolls(c, Perform(c, p.b, false, between), p.x, polls, true)
  }

  /** The client's steps between calls are a run that the server does not notice. */
  lemma BetweenIsRun(c: Config, s: System, between: seq<Action>) returns (actions: seq<Action>, t: System)
    requires Admissible(c)
    ensures Run(c, s, actions, t) && t.server == s.server && Blind(t) == Perform(c, Blind(s), false, between)
  {
    actions := PerformIsRun(c, s, false, between);
    t := Perform(c, s, false, between);
    BlindPerform(c, s, between);
  }

  lemma FirstCallIsRun(c: Config, s: System, first: TimedCall) returns (actions: seq<Action>, t: System)
    requires Admissible(c) && s.server.phase.Transmitting? && Succeeds(c, PointOf(s), first)
    ensures Run(c, s, actions, t) && t.server.phase.Transmitting? && PointOf(t) == AfterFirst(c, PointOf(s), first)
  {
    var a, u := BetweenIsRun(c, s, first.between);
    var b;
    b, t := SendChunkIsRun(c, u, first.call);
    RunAppend(c, s, a, u, b, t);
    actions := a + b;
  }

  /** The first `m` of the calls are a run from point to point. */
  lemma {:induction false} CallsAreRun(c: Config, s: System, points: seq<Point>, calls: seq<TimedCall>, m: nat)
    returns (actions: seq<Action>, t: System)
    requires Admissible(c) && s.server.phase.Transmitting? && Chained(c, points, calls)
    requires m <= |calls| && points[0] == PointOf(s)
    ensures Run(c, s, actions, t) && t.server.phase.Transmitting? && PointOf(t) == points[m]
  {
    if m == 0 {
      actions, t := [], s;
    } else {
      var a, u := CallsAreRun(c, s, points, calls, m - 1);
      assert Succeeds(c, points[m - 1], calls[m - 1]) && points[m] == AfterFirst(c, points[m - 1], calls[m - 1]);
      var b;
      b, t := FirstCallIsRun(c, u, calls[m - 1]);
      RunAppend(c, s, a, u, b, t);
      actions := a + b;
    }
  }

  lemma LastCallIsRun(c: Config, s: System, between: seq<Action>, polls: seq<PollScript>)
    returns (actions: seq<Action>, t: System)
    requires Admissible(c) && s.server.phase.Transmitting? && FlushSucceeds(c, PointOf(s), between, polls)
    ensures Run(c, s, actions, t) && t.server.phase.Succeeded? && Blind(t) == AfterFlush(c, PointOf(s), between, polls)
  {
    var a, u := BetweenIsRun(c, s, between);
    var b;
    b, t := FlushIsRun(c, u, polls);
    RunAppend(c, s, a, u, b, t);
    actions := a + b;
  }

  /**
   * When flush returns true, the client that moved while it waited has saved the whole transfer,
   * whatever happened before.
   */
  lemma FlushTrueMeansSaved(c: Config, before: seq<Action>, s: System, polls: seq<PollScript>)
    requires Admissible(c) && Run(c, Init(c), before, s)
    requires s.server.phase.Transmitting? && s.server.next == |c.pieces|
    requires PollsPossible(c, Blind(s), s.server.sender, polls, true)
    requires Flush(s.server.sender, Inputs(polls)).done == Some(true)
    ensures var k := AfterPolls(c, Blind(s), s.server.sender, polls, true).client;
            k.writer.committed && k.writer.dest == Some(Translated(c.pieces, c.ascii))
  {
    var a, t := FlushIsRun(c, s, polls);
    RunAppend(c, Init(c), before, s, a, t);
    RetrTheorems.SuccessMeansSaved(c, before + a, t);
    assert Blind(t).client == t.client;
  }

  /**
   * When the server's remaining sendChunk calls and its flush all return true, the client that moved
   * before, between and during them has saved the whole transfer.
   */
  lemma AllTrueMeansSaved(c: Config, before: seq<Action>, s: System, points: seq<Point>, calls: seq<TimedCall>,
                          between: seq<Action>, polls: seq<PollScript>)
    requires Admissible(c) && Run(c, Init(c), before, s) && s.server.phase.Transmitting?
    requires Chained(c, points, calls) && points[0] == PointOf(s) && FlushSucceeds(c, points[|calls|], between, polls)
    ensures var k := AfterFlush(c, points[|calls|], between, polls).client;
            k.writer.committed && k.writer.dest == Some(Translated(c.pieces, c.ascii))
  {
    var a, u := CallsAreRun(c, s, points, calls, |calls|);
    var b, t := LastCallIsRun(c, u, between, polls);
    RunAppend(c, Init(c), before, s, a, u);
    RunAppend(c, Init(c), before + a, u, b, t);
    RetrTheorems.SuccessMeansSaved(c, before + a + b, t);
    assert Blind(t).client == t.client;
  }

  // ----- such calls exist for every transfer

  /** Piece `k` is sent at once, and heard and appended by the client while the call polls. */
  function GoodCall(c: Config, k: nat): SendCall
    requires Admissible(c) && k < |c.pieces|
  {
    var seen := if k < Last(c) then Arrived(Ack(k), 0.0) else Rejected;
    SendCall(false, [], Sent(0.0),
             PollScript([Sight([ClientHears(PiecePacket(c.pieces, k), true), ClientAppends(true, true)], seen)],
                        0.0, false, _ => Sent(0.0)))
  }

  /** The client hears and appends a piece that has just been sent. */
  lemma CrossSteps(c: Config, s: System, k: nat) returns (u: System, t: System)
    requires Admissible(c) && RoundDone(c, s, k)
    ensures Blind(u) == Sending(Blind(s), [PiecePacket(c.pieces, k)])
    ensures t == Perform(c, u, false, GoodCall(c, k).after.script[0].meanwhile)
    ensures t.client.receiver.expected == k + 1 && t.client.receiver.buffer == map[] && t.client.receiver.kept == None
    ensures t.client.phase == (if k == Last(c) then Appended(k) else Receiving) && (k < Last(c) ==> Ack(k) in t.toServer)
  {
    CrossPush(c, s, k);
    u := Next(c, s, ServerPushes(0.0));
    assert Blind(u) == Sending(Blind(s), [PiecePacket(c.pieces, k)]);
    t := HearThenAppend(c, u, k);
  }

  lemma HearThenAppend(c: Config, u: System, k: nat) returns (t: System)
    requires Admissible(c) && PieceSent(c, u, k) && Listening(u) && PiecePacket(c.pieces, k) in u.toClient
    requires u.client.receiver.expected == k && u.client.receiver.buffer == map[] && u.client.receiver.kept == None
    ensures t == Perform(c, u, false, [ClientHears(PiecePacket(c.pieces, k), true), ClientAppends(true, true)])
    ensures t.client.receiver.expected == k + 1 && t.client.receiver.buffer == map[] && t.client.receiver.kept == None
    ensures t.client.phase == (if k == Last(c) then Appended(k) else Receiving) && (k < Last(c) ==> Ack(k) in t.toServer)
  {
    var hear, append := ClientHears(PiecePacket(c.pieces, k), true), ClientAppends(true, true);
    CrossHear(c, u, k);
    var v := Next(c, u, hear);
    CrossAppend(c, v, k);
    t := Next(c, v, append);
    TwoSteps(c, u, hear, append);
  }

  lemma CrossMeanwhile(c: Config, s: System, k: nat) returns (t: System)
    requires Admissible(c) && RoundDone(c, s, k)
    ensures Possible(c, Sending(Blind(s), [PiecePacket(c.pieces, k)]), GoodCall(c, k).after.script)
    ensures Blind(t) == AfterScript(c, Sending(Blind(s), [PiecePacket(c.pieces, k)]), GoodCall(c, k).after.script)
    ensures t.client.receiver.expected == k + 1 && t.client.receiver.buffer == map[] && t.client.receiver.kept == None
    ensures t.client.phase == if k == Last(c) then Appended(k) else Receiving
  {
    var script := GoodCall(c, k).after.script;
    var u;
    u, t := CrossSteps(c, s, k);
    BlindPerform(c, u, script[0].meanwhile);
    assert script[1..] == [];
  }

  lemma TwoSteps(c: Config, s: System, a: Action, b: Action)
    requires Admissible(c) && !ByServer(a) && !ByServer(b) && Enabled(c, s, a) && Enabled(c, Next(c, s, a), b)
    ensures Perform(c, s, false, [a, b]) == Next(c, Next(c, s, a), b)
  {
    assert [a, b][1..] == [b] && [b][1..] == [];
    assert Perform(c, Next(c, s, a), false, [b]) == Next(c, Next(c, s, a), b);
  }

  /** The poll at the end of the call empties the window, or for the last piece leaves it. */
  lemma GoodPoll(c: Config, x: SenderState, k: nat)
    requires Admissible(c) && k < |c.pieces| && Good(x, k) && x.window == []
    ensures var r := SendResult(c, x, k, GoodCall(c, k));
            r.done == Some(true) && Good(r.state, k + 1) && |r.state.window| == if k == Last(c) then 1 else 0
    ensures Pushes(x, GoodCall(c, k))
  {
    var input, y := GoodCall(c, k).after.Input(), Push(x, k, c.pieces[k], k == Last(c), 0.0);
    assert PollUntil(x, [], false) == CallResult(x, [], Some(true));
    SeenOne(GoodCall(c, k).after.script);
    PushGood(x, k, c.pieces[k], k == Last(c), 0.0);
    PollGood(y, k + 1, input);
    if k < Last(c) {
      assert input.arrivals == [Arrived(Ack(k), 0.0)];
      AckEmptiesWindow(y, k, input);
    } else {
      assert input.arrivals == [Rejected];
      QuietPoll(y, input);
    }
  }

  lemma SeenOne(script: seq<Sight>)
    requires |script| == 1
    ensures Seen(script) == [script[0].seen]
  {
    assert script[1..] == [];
  }

  lemma QuietPoll(y: SenderState, input: PollInput)
    requires input.arrivals == [Rejected] && !input.abortInScan && y.timeoutMs >= MIN_TIMEOUT_MS
    requires forall j :: 0 <= j < |y.window| ==> y.window[j].sentTime == input.now
    ensures Poll(y, input).ok && |Poll(y, input).state.window| == |y.window|
  {
    assert input.arrivals[1..] == [];
    assert Drain(y, input.arrivals) == Drain(y, []);
    ScanExact(y, input.now, false, input.sends);
  }

  lemma RoundCall(c: Config, s: System, k: nat) returns (t: System)
    requires Admissible(c) && RoundDone(c, s, k)
    ensures SendPossible(c, Blind(s), s.server.sender, k, GoodCall(c, k))
    ensures SendResult(c, s.server.sender, k, GoodCall(c, k)).done == Some(true)
    ensures Blind(t) == AfterSend(c, Blind(s), s.server.sender, k, GoodCall(c, k))
    ensures t.server.sender == SendResult(c, s.server.sender, k, GoodCall(c, k)).state
    ensures t.server.next == k + 1
    ensures if k < Last(c) then RoundDone(c, t, k + 1) else PieceSent(c, t, k) && t.client.phase == Appended(k)
  {
    var call := GoodCall(c, k);
    GoodPoll(c, s.server.sender, k);
    var v := CrossMeanwhile(c, s, k);
    var a;
    a, t := SendChunkIsRun(c, s, call);
    RunKeeps(c, s, a, t);
    assert t.client == Blind(t).client && v.client == Blind(v).client;
  }

  /** Every transfer has calls that all return true. */
  lemma {:induction false} CallsExist(c: Config, s: System, k: nat) returns (points: seq<Point>, calls: seq<TimedCall>)
    requires Admissible(c) && RoundDone(c, s, k)
    ensures Chained(c, points, calls) && points[0] == PointOf(s) && |calls| == |c.pieces| - k
    ensures FlushSucceeds(c, points[|calls|], [], [CommitPoll(c)])
    decreases |c.pieces| - k
  {
    var first := TimedCall([], GoodCall(c, k));
    var t := RoundPoint(c, s, k);
    var ps, cs := [PointOf(t)], [];
    if k < Last(c) {
      ps, cs := CallsExist(c, t, k + 1);
    }
    ChainedCons(c, PointOf(s), first, ps, cs);
    points, calls := [PointOf(s)] + ps, [first] + cs;
  }

  lemma RoundPoint(c: Config, s: System, k: nat) returns (t: System)
    requires Admissible(c) && RoundDone(c, s, k)
    ensures Succeeds(c, PointOf(s), TimedCall([], GoodCall(c, k)))
    ensures PointOf(t) == AfterFirst(c, PointOf(s), TimedCall([], GoodCall(c, k)))
    ensures if k < Last(c) then RoundDone(c, t, k + 1) else FlushSucceeds(c, PointOf(t), [], [CommitPoll(c)])
  {
    t := RoundCall(c, s, k);
    if k == Last(c) {
      FlushAcrossCommit(c, t);
    }
  }

  lemma ChainedCons(c: Config, p: Point, first: TimedCall, points: seq<Point>, calls: seq<TimedCall>)
    requires Admissible(c) && Chained(c, points, calls) && Succeeds(c, p, first) && points[0] == AfterFirst(c, p, first)
    ensures Chained(c, [p] + points, [first] + calls)
  {
    var ps, cs := [p] + points, [first] + calls;
    forall i | 0 <= i < |cs| ensures Succeeds(c, ps[i], cs[i]) && ps[i + 1] == AfterFirst(c, ps[i], cs[i]) {
      if i > 0 {
        assert ps[i] == points[i - 1] && cs[i] == calls[i - 1] && ps[i + 1] == points[i];
      }
    }
  }

  /** From its first piece on, every transfer has a conversation in which every call of the server returns true. */
  lemma SuccessfulCallsExist(c: Config)
    returns (before: seq<Action>, s: System, points: seq<Point>, calls: seq<TimedCall>)
    requires Admissible(c)
    ensures Run(c, Init(c), before, s) && s.server.phase.Transmitting? && s.server.next == 0
    ensures Chained(c, points, calls) && points[0] == PointOf(s) && |calls| == |c.pieces|
    ensures FlushSucceeds(c, points[|calls|], [], [CommitPoll(c)])
  {
    before, s := StartRounds(c);
    points, calls := CallsExist(c, s, 0);
  }
}
