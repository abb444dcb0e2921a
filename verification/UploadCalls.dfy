/** A whole upload as the client's calls: sendChunk for every chunk, the server moving throughout. */
module UploadCalls {
  import opened Readers
  import opened Upload
  import opened UploadRefinement
  import UploadProofs
  import W = StopAndWait

  /** A call of sendChunk and the server's steps before it. */
  datatype TimedCall = TimedCall(between: seq<Action>, attempts: nat -> TimedAttempt)

  /** The calls for the next chunks are possible and all return true. */
  ghost predicate AllSucceed(c: Config, s: System, calls: seq<TimedCall>)
    requires s.client.current + |calls| <= |c.pieces|
    decreases |calls|
  {
    calls == [] ||
    var u, attempts := Perform(c, s, true, calls[0].between), calls[0].attempts;
    SendPossible(c, u, attempts, 0) && W.Succeeds(Untimed(attempts), 0, s.client.current) &&
    AfterCall(c, u, attempts, 0).client.current == s.client.current + 1 &&
    AllSucceed(c, AfterCall(c, u, attempts, 0), calls[1..])
  }

  /** The system after them. */
  function AfterAll(c: Config, s: System, calls: seq<TimedCall>): System
    requires s.client.current + |calls| <= |c.pieces|
    decreases |calls|
  {
    if calls == [] then s
    else
      var u := AfterCall(c, Perform(c, s, true, calls[0].between), calls[0].attempts, 0);
      if u.client.current == s.client.current + 1 then AfterAll(c, u, calls[1..]) else u
  }

  lemma {:induction false} CallsAreRun(c: Config, s: System, calls: seq<TimedCall>)
    returns (actions: seq<Action>, t: System)
    requires s.client.phase.Sending? && s.client.attempts == 0 && s.client.current + |calls| <= |c.pieces|
    requires AllSucceed(c, s, calls)
    ensures Run(c, s, actions, t) && t == AfterAll(c, s, calls) && t.client.current == s.client.current + |calls|
    decreases |calls|
  {
    if calls == [] {
      actions, t := [], s;
    } else {
      var a := PerformIsRun(c, s, true, calls[0].between);
      var u := Perform(c, s, true, calls[0].between);
      var b, v := SendChunkIsRun(c, u, calls[0].attempts, 0);
      RunAppend(c, s, a, u, b, v);
      var d;
      d, t := CallsAreRun(c, v, calls[1..]);
      RunAppend(c, s, a + b, v, d, t);
      actions := a + b + d;
    }
  }

  /**
   * When the next calls of sendChunk all return true, the server that moved before, between and during
   * them has handed out every chunk up to the last of them, in order, and buffers nothing.
   */
  lemma AllTrueMeansAccepted(c: Config, before: seq<Action>, s: System, calls: seq<TimedCall>)
    requires Admissible(c) && Run(c, Init(c), before, s)
    requires s.client.phase.Sending? && s.client.attempts == 0 && s.client.current + |calls| <= |c.pieces|
    requires AllSucceed(c, s, calls)
    ensures Accepted(c, AfterAll(c, s, calls).server, s.client.current + |calls|)
  {
    var a, t := CallsAreRun(c, s, calls);
    RunAppend(c, Init(c), before, s, a, t);
    InStep(c, before + a, t);
  }

  /** At least the first `n` chunks, and nothing else, have been handed out, in order; nothing is buffered. */
  ghost predicate Accepted(c: Config, v: Server, n: nat) {
    v.receiver.buffer == map[] && n <= |v.delivered| <= |c.pieces| &&
    forall i :: 0 <= i < |v.delivered| ==> v.delivered[i] == PieceChunk(c.pieces, i)
  }

  lemma InStep(c: Config, actions: seq<Action>, t: System)
    requires Admissible(c) && Run(c, Init(c), actions, t)
    ensures Accepted(c, t.server, t.client.current)
  {
    UploadProofs.UploadInStep(c, actions, t);
    var d := t.server.delivered;
    assert d != [] ==> d[|d| - 1].seqNum == |d| - 1;
  }
}
