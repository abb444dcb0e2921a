/**
 * The calls of the client's stop-and-wait sender are runs of the Upload system: waitForAck and
 * sendChunk. While a call waits the server goes on: each observation comes with the server's steps
 * that precede it, and a datagram can be observed once it is in the network reached then.
 */
module UploadRefinement {
  import opened Datagrams
  import opened Upload
  import W = StopAndWait

  /** The server's steps, and then what the client sees. */
  datatype Sight = Sight(meanwhile: seq<Action>, seen: W.Observation)

  function Seen(script: seq<Sight>): seq<W.Observation> {
    if script == [] then [] else [script[0].seen] + Seen(script[1..])
  }

  /** What ends waitForAck. */
  predicate Ends(seen: W.Observation, seqNum: nat) {
    seen.TimedOut? || seen.AbortSeen? || (seen.Arrived? && W.IsAckFor(seen.d, seqNum))
  }

  /** Every datagram seen is in the network by then. */
  ghost predicate WaitPossible(c: Config, s: System, script: seq<Sight>)
    decreases |script|
  {
    script == [] ||
    var u := Perform(c, s, true, script[0].meanwhile);
    (script[0].seen.Arrived? ==> script[0].seen.d in u.toClient) &&
    (Ends(script[0].seen, s.client.current) || WaitPossible(c, u, script[1..]))
  }

  /** The server's side when waitForAck returns. */
  function AfterWait(c: Config, s: System, script: seq<Sight>): (u: System)
    ensures u == s.(server := u.server, toClient := u.toClient)
    decreases |script|
  {
    if script == [] then s
    else
      var u := Perform(c, s, true, script[0].meanwhile);
      if Ends(script[0].seen, s.client.current) then u else AfterWait(c, u, script[1..])
  }

  /** The outstanding chunk is acknowledged. */
  function MovedOn(s: System): System { s.(client := s.client.(current := s.client.current + 1, attempts := 0)) }

  /** waitForAck is a run, the server moving while it waits. */
  lemma {:induction false} WaitIsRun(c: Config, s: System, script: seq<Sight>)
    returns (actions: seq<Action>, t: System)
    requires s.client.phase.Sending? && s.client.current < |c.pieces| && s.client.attempts > 0
    requires WaitPossible(c, s, script)
    ensures Run(c, s, actions, t)
    ensures var u := AfterWait(c, s, script); t == if W.AckComes(Seen(script), s.client.current) then MovedOn(u) else u
    decreases |script|
  {
    if script == [] {
      actions, t := [], s;
    } else {
      var seen := script[0].seen;
      var a := PerformIsRun(c, s, true, script[0].meanwhile);
      var u := Perform(c, s, true, script[0].meanwhile);
      assert Seen(script)[1..] == Seen(script[1..]);
      var b;
      if !Ends(seen, s.client.current) {
        b, t := WaitIsRun(c, u, script[1..]);
      } else if seen.Arrived? {
        b, t := [ClientHears(seen.d)], Next(c, u, ClientHears(seen.d));
        RunOne(c, u, ClientHears(seen.d));
      } else {
        b, t := [], u;
      }
      RunAppend(c, s, a, u, b, t);
      actions := a + b;
    }
  }

  /** One attempt of sendChunk: what it sees, with the server moving in between. */
  datatype TimedAttempt = TimedAttempt(abort: bool, sendOk: bool, script: seq<Sight>) {
    function Plain(): W.Attempt { W.Attempt(abort, sendOk, Seen(script)) }
  }

  function Untimed(attempts: nat -> TimedAttempt): nat -> W.Attempt { (n: nat) => attempts(n).Plain() }

  /** What sendChunk sees from attempt `n` on was sent by then. */
  ghost predicate SendPossible(c: Config, s: System, attempts: nat -> TimedAttempt, n: nat)
    requires s.client.current < |c.pieces|
    decreases W.MAX_RETRIES - n
  {
    n < W.MAX_RETRIES && !attempts(n).abort ==>
      var u := Transmit(c, s, attempts(n).sendOk);
      var v := if attempts(n).sendOk then AfterWait(c, u, attempts(n).script) else u;
      (attempts(n).sendOk ==> WaitPossible(c, u, attempts(n).script)) &&
      (!W.Delivered(attempts(n).Plain(), s.client.current) ==> SendPossible(c, v, attempts, n + 1))
  }

  /** One attempt is a run. */
  lemma AttemptIsRun(c: Config, s: System, a: TimedAttempt) returns (actions: seq<Action>, t: System)
    requires s.client.phase.Sending? && s.client.current < |c.pieces| && s.client.attempts < W.MAX_RETRIES
    requires a.sendOk ==> WaitPossible(c, Transmit(c, s, true), a.script)
    ensures Run(c, s, actions, t)
    ensures var u := Transmit(c, s, a.sendOk);
            var v := if a.sendOk then AfterWait(c, u, a.script) else u;
            t == if W.Delivered(a.Plain(), s.client.current) then MovedOn(v) else v
  {
    var send := ClientTransmits(a.sendOk);
    var u := Next(c, s, send);
    RunOne(c, s, send);
    actions, t := [send], u;
    if a.sendOk {
      var b;
      b, t := WaitIsRun(c, u, a.script);
      RunAppend(c, s, [send], u, b, t);
      actions := [send] + b;
    }
  }

  /** The system when sendChunk returns. */
  function AfterCall(c: Config, s: System, attempts: nat -> TimedAttempt, n: nat): System
    requires s.client.current < |c.pieces|
    decreases W.MAX_RETRIES - n
  {
    if n >= W.MAX_RETRIES || attempts(n).abort then s.(client := s.client.(phase := Failed))
    else
      var u := Transmit(c, s, attempts(n).sendOk);
      var v := if attempts(n).sendOk then AfterWait(c, u, attempts(n).script) else u;
      if W.Delivered(attempts(n).Plain(), s.client.current) then MovedOn(v) else AfterCall(c, v, attempts, n + 1)
  }

  /**
   * sendChunk from its attempt `n` on is a run, the server moving while it waits: the chunk is
   * acknowledged and the client moves on, or the client fails; only copies of the chunk are sent.
   */
  lemma {:induction false} SendChunkIsRun(c: Config, s: System, attempts: nat -> TimedAttempt, n: nat)
    returns (actions: seq<Action>, t: System)
    requires s.client.phase.Sending? && s.client.current < |c.pieces| && s.client.attempts == n <= W.MAX_RETRIES
    requires SendPossible(c, s, attempts, n)
    ensures var count := W.Transmissions(Untimed(attempts), n, s.client.current);
            && Run(c, s, actions, t) && t == AfterCall(c, s, attempts, n)
            && t.client.transmissions == s.client.transmissions + count
            && t.toServer == s.toServer + (if count > 0 then {PiecePacket(c.pieces, s.client.current)} else {})
    ensures if W.Succeeds(Untimed(attempts), n, s.client.current)
            then t.client.phase.Sending? && t.client.current == s.client.current + 1 && t.client.attempts == 0
            else t.client.phase.Failed?
    decreases W.MAX_RETRIES - n
  {
    assert Untimed(attempts)(n) == attempts(n).Plain();
    if n == W.MAX_RETRIES || attempts(n).abort {
      actions, t := [ClientGivesUp], Next(c, s, ClientGivesUp);
      RunOne(c, s, ClientGivesUp);
    } else {
      var a, u := AttemptIsRun(c, s, attempts(n));
      if W.Delivered(attempts(n).Plain(), s.client.current) {
        actions, t := a, u;
      } else {
        assert u.client == s.client.(attempts := n + 1, transmissions := u.client.transmissions);
        var b;
        b, t := SendChunkIsRun(c, u, attempts, n + 1);
        RunAppend(c, s, a, u, b, t);
        actions := a + b;
      }
    }
  }
}
