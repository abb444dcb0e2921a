/**
 * The calls of the server's sender are runs of the Retr system: a poll, sendChunk and flush. While a
 * call waits the client goes on: each observation comes with the client's steps that precede it, and
 * a datagram can be observed once it is in the network reached then. RdtSender computes exactly the
 * functions used here.
 */
module RetrRefinement {
  import opened Bytes
  import opened Datagrams
  import opened WindowedSender
  import opened Retr

  /** The client's steps, and then what the server sees. */
  datatype Sight = Sight(meanwhile: seq<Action>, seen: Observation)

  function Seen(script: seq<Sight>): seq<Observation> {
    if script == [] then [] else [script[0].seen] + Seen(script[1..])
  }

  const IDLE_SERVER := Server(Failed, Initial(0), 0, [])

  /** The system without the server's own state, which the client's steps do not depend on. */
  function Blind(s: System): System { s.(server := IDLE_SERVER) }

  lemma BlindStep(c: Config, s: System, a: Action)
    requires Admissible(c) && !ByServer(a)
    ensures Enabled(c, Blind(s), a) == Enabled(c, s, a)
    ensures Enabled(c, s, a) ==> Next(c, Blind(s), a) == Blind(Next(c, s, a))
  {
  }

  lemma {:induction false} BlindPerform(c: Config, s: System, actions: seq<Action>)
    requires Admissible(c)
    ensures Perform(c, Blind(s), false, actions) == Blind(Perform(c, s, false, actions))
    decreases |actions|
  {
    if actions != [] {
      if !ByServer(actions[0]) {
        BlindStep(c, s, actions[0]);
      }
      if !ByServer(actions[0]) && Enabled(c, s, actions[0]) {
        BlindPerform(c, Next(c, s, actions[0]), actions[1..]);
      } else {
        BlindPerform(c, s, actions[1..]);
      }
    }
  }

  /** Every datagram seen is in the network by then. */
  ghost predicate Possible(c: Config, b: System, script: seq<Sight>)
    requires Admissible(c)
    decreases |script|
  {
    script == [] ||
    var u := Perform(c, b, false, script[0].meanwhile);
    (script[0].seen.Arrived? ==> script[0].seen.d in u.toServer) && Possible(c, u, script[1..])
  }

  function AfterScript(c: Config, b: System, script: seq<Sight>): (u: System)
    requires Admissible(c)
    ensures u == b.(client := u.client, toServer := u.toServer)
    decreases |script|
  {
    if script == [] then b else AfterScript(c, Perform(c, b, false, script[0].meanwhile), script[1..])
  }

  /** `t` is reached from `s` by server activity, the client now being as in `b`. */
  ghost predicate ServerMoved(s: System, t: System, b: System, sender: SenderState, ok: bool) {
    Blind(t) == b && t.server.sender == sender && t.server.next == s.server.next &&
    t.server.phase == (if ok then Transmitting else Failed)
  }

  /** The client's steps of a script, the server doing nothing. */
  lemma {:induction false} ScriptIsRun(c: Config, s: System, script: seq<Sight>) returns (actions: seq<Action>, t: System)
    requires Admissible(c)
    ensures Run(c, s, actions, t) && t.server == s.server && Blind(t) == AfterScript(c, Blind(s), script)
    decreases |script|
  {
    if script == [] {
      actions, t := [], s;
    } else {
      var a := PerformIsRun(c, s, false, script[0].meanwhile);
      var u := Perform(c, s, false, script[0].meanwhile);
      BlindPerform(c, s, script[0].meanwhile);
      var b;
      b, t := ScriptIsRun(c, u, script[1..]);
      RunAppend(c, s, a, u, b, t);
      actions := a + b;
    }
  }

  lemma GiveUpIsRun(c: Config, s: System) returns (actions: seq<Action>, t: System)
    requires Admissible(c) && s.server.phase.Transmitting?
    ensures Run(c, s, actions, t) && ServerMoved(s, t, Blind(s), s.server.sender, false)
  {
    actions, t := [ServerGivesUp], Next(c, s, ServerGivesUp);
    RunOne(c, s, ServerGivesUp);
  }

  /** What one observation makes of the server. */
  lemma SightIsRun(c: Config, s: System, seen: Observation) returns (actions: seq<Action>, t: System)
    requires Admissible(c) && s.server.phase.Transmitting? && (seen.Arrived? ==> seen.d in s.toServer)
    ensures var r := Drain(s.server.sender, [seen]);
            Run(c, s, actions, t) && ServerMoved(s, t, Blind(s), r.state, r.ok)
  {
    assert [seen][1..] == [];
    if seen.AbortSeen? {
      actions, t := GiveUpIsRun(c, s);
    } else if seen.Arrived? {
      var hear := ServerHears(seen.d, seen.at);
      actions, t := [hear], Next(c, s, hear);
      RunOne(c, s, hear);
    } else {
      actions, t := [], s;
    }
  }

  /** The receive loop goes on after an observation unless it ends the loop. */
  lemma DrainCons(s: SenderState, seen: Observation, rest: seq<Observation>)
    ensures var first := Drain(s, [seen]);
            Drain(s, [seen] + rest) ==
            if first.ok && !seen.SocketError? then Drain(first.state, rest) else first
  {
    assert [seen][1..] == [] && ([seen] + rest)[1..] == rest;
  }

  lemma {:induction false} DrainIsRun(c: Config, s: System, script: seq<Sight>)
    returns (actions: seq<Action>, t: System)
    requires Admissible(c) && s.server.phase.Transmitting? && Possible(c, Blind(s), script)
    ensures var r := Drain(s.server.sender, Seen(script));
            Run(c, s, actions, t) && ServerMoved(s, t, AfterScript(c, Blind(s), script), r.state, r.ok)
    decreases |script|
  {
    if script == [] {
      actions, t := [], s;
    } else {
      var seen := script[0].seen;
      var a := PerformIsRun(c, s, false, script[0].meanwhile);
      var u := Perform(c, s, false, script[0].meanwhile);
      BlindPerform(c, s, script[0].meanwhile);
      var b, v := SightIsRun(c, u, seen);
      DrainCons(s.server.sender, seen, Seen(script[1..]));
      var d;
      if v.server.phase.Transmitting? && !seen.SocketError? {
        d, t := DrainIsRun(c, v, script[1..]);
      } else {
        d, t := ScriptIsRun(c, v, script[1..]);
      }
      RunAppend(c, s, a, u, b, v);
      RunAppend(c, s, a + b, v, d, t);
      actions := a + b + d;
    }
  }

  function Members(sent: seq<Datagram>): set<Datagram> { set d | d in sent }

  lemma MembersAppend(a: seq<Datagram>, b: seq<Datagram>)
    ensures Members(a + b) == Members(a) + Members(b)
  {
  }

  /** The network after more datagrams were sent to the client. */
  function Sending(b: System, sent: seq<Datagram>): System { b.(toClient := b.toClient + Members(sent)) }

  lemma {:induction false} ResendIsRun(c: Config, s: System, j: nat, now: real, timeout: int, sends: nat -> SendOutcome)
    returns (actions: seq<Action>, t: System)
    requires Admissible(c) && s.server.phase.Transmitting?
    ensures var r := ResendFrom(s.server.sender, j, now, timeout, sends);
            Run(c, s, actions, t) && ServerMoved(s, t, Sending(Blind(s), r.sent), r.state, r.ok)
    decreases |s.server.sender.window| - j
  {
    var w := s.server.sender.window;
    if j >= |w| {
      actions, t := [], s;
    } else if !Expired(w[j], now, timeout) {
      actions, t := ResendIsRun(c, s, j + 1, now, timeout, sends);
    } else if w[j].retries >= MAX_RETRIES {
      actions, t := [ServerRunsOut(j)], Next(c, s, ServerRunsOut(j));
      RunOne(c, s, ServerRunsOut(j));
    } else if sends(j).SendFailed? {
      actions, t := GiveUpIsRun(c, s);
    } else {
      var again := ServerResends(j, sends(j).at);
      var u := Next(c, s, again);
      RunOne(c, s, again);
      var b;
      b, t := ResendIsRun(c, u, j + 1, now, timeout, sends);
      RunAppend(c, s, [again], u, b, t);
      actions := [again] + b;
      var p := [PacketOf(w[j])];
      assert Blind(u) == Sending(Blind(s), p);
      MembersAppend(p, ResendFrom(u.server.sender, j + 1, now, timeout, sends).sent);
    }
  }

  lemma ScanIsRun(c: Config, s: System, now: real, abort: bool, sends: nat -> SendOutcome)
    returns (actions: seq<Action>, t: System)
    requires Admissible(c) && s.server.phase.Transmitting?
    ensures var r := Scan(s.server.sender, now, abort, sends);
            Run(c, s, actions, t) && ServerMoved(s, t, Sending(Blind(s), r.sent), r.state, r.ok)
  {
    var x := s.server.sender;
    if abort && x.window != [] {
      actions, t := GiveUpIsRun(c, s);
    } else if AnyExpired(x.window, now, x.timeoutMs) {
      var u := Next(c, s, ServerHalves);
      RunOne(c, s, ServerHalves);
      var b;
      b, t := ResendIsRun(c, u, 0, now, x.timeoutMs, sends);
      actions := [ServerHalves] + b;
      RunAppend(c, s, [ServerHalves], u, b, t);
    } else {
      actions, t := ResendIsRun(c, s, 0, now, x.timeoutMs, sends);
    }
  }

  /** One poll: what it sees, with the client moving in between, and its other inputs. */
  datatype PollScript = PollScript(script: seq<Sight>, now: real, abortInScan: bool, sends: nat -> SendOutcome) {
    function Input(): PollInput { PollInput(Seen(script), now, abortInScan, sends) }
  }

  /** The client's side after a poll of a sender in state `x`. */
  function AfterPoll(c: Config, b: System, x: SenderState, p: PollScript): System
    requires Admissible(c)
  {
    Sending(AfterScript(c, b, p.script), Poll(x, p.Input()).sent)
  }

  /** pollAcksAndRetransmit is a run, the client moving while it waits. */
  lemma PollIsRun(c: Config, s: System, p: PollScript) returns (actions: seq<Action>, t: System)
    requires Admissible(c) && s.server.phase.Transmitting? && Possible(c, Blind(s), p.script)
    ensures var r := Poll(s.server.sender, p.Input());
            Run(c, s, actions, t) && ServerMoved(s, t, AfterPoll(c, Blind(s), s.server.sender, p), r.state, r.ok) &&
            t.toClient == s.toClient + Members(r.sent)
  {
    var a, u := DrainIsRun(c, s, p.script);
    DrainSendsNothing(s.server.sender, Seen(p.script));
    if u.server.phase.Transmitting? {
      var b;
      b, t := ScanIsRun(c, u, p.now, p.abortInScan, p.sends);
      RunAppend(c, s, a, u, b, t);
      actions := a + b;
    } else {
      actions, t := a, u;
      assert Sending(Blind(u), []) == Blind(u);
    }
  }

  function Inputs(polls: seq<PollScript>): seq<PollInput> {
    if polls == [] then [] else [polls[0].Input()] + Inputs(polls[1..])
  }

  predicate Waiting(x: SenderState, flushing: bool) {
    |x.window| >= (if flushing then 1 else EffectiveWindow(x))
  }

  ghost predicate PollsPossible(c: Config, b: System, x: SenderState, polls: seq<PollScript>, flushing: bool)
    requires Admissible(c)
    decreases |polls|
  {
    !Waiting(x, flushing) || polls == [] ||
    (Possible(c, b, polls[0].script) &&
     (Poll(x, polls[0].Input()).ok ==>
        PollsPossible(c, AfterPoll(c, b, x, polls[0]), Poll(x, polls[0].Input()).state, polls[1..], flushing)))
  }

  function AfterPolls(c: Config, b: System, x: SenderState, polls: seq<PollScript>, flushing: bool): System
    requires Admissible(c)
    decreases |polls|
  {
    if !Waiting(x, flushing) || polls == [] then b
    else
      var r := Poll(x, polls[0].Input());
      var u := AfterPoll(c, b, x, polls[0]);
      if r.ok then AfterPolls(c, u, r.state, polls[1..], flushing) else u
  }

  lemma {:induction false} PollUntilIsRun(c: Config, s: System, polls: seq<PollScript>, flushing: bool)
    returns (actions: seq<Action>, t: System)
    requires Admissible(c) && s.server.phase.Transmitting?
    requires PollsPossible(c, Blind(s), s.server.sender, polls, flushing)
    ensures var r := PollUntil(s.server.sender, Inputs(polls), flushing);
            && Run(c, s, actions, t) && t.toClient == s.toClient + Members(r.sent)
            && ServerMoved(s, t, AfterPolls(c, Blind(s), s.server.sender, polls, flushing), r.state, r.done != Some(false))
    decreases |polls|
  {
    var x := s.server.sender;
    if !Waiting(x, flushing) || polls == [] {
      actions, t := [], s;
    } else {
      var a, u := PollIsRun(c, s, polls[0]);
      if Poll(x, polls[0].Input()).ok {
        var b;
        b, t := PollUntilIsRun(c, u, polls[1..], flushing);
        RunAppend(c, s, a, u, b, t);
        MembersAppend(Poll(x, polls[0].Input()).sent, PollUntil(u.server.sender, Inputs(polls[1..]), flushing).sent);
        actions := a + b;
      } else {
        actions, t := a, u;
      }
    }
  }

  /** One call of sendChunk: its polls while it waits for room, its transmission, and its poll at the end. */
  datatype SendCall = SendCall(abort: bool, polls: seq<PollScript>, send: SendOutcome, after: PollScript)

  /** What a call for piece `n` on a sender in state `x` computes. */
  function SendResult(c: Config, x: SenderState, n: nat, call: SendCall): CallResult
    requires Admissible(c) && n < |c.pieces|
  {
    SendChunk(x, n, c.pieces[n], n == Last(c), call.abort, Inputs(call.polls), call.send, call.after.Input())
  }

  /** The call gets to put its packet in the window. */
  predicate Pushes(x: SenderState, call: SendCall) {
    !call.abort && PollUntil(x, Inputs(call.polls), false).done == Some(true) && call.send.Sent?
  }

  /** What the call hears was sent by then. */
  ghost predicate SendPossible(c: Config, b: System, x: SenderState, n: nat, call: SendCall)
    requires Admissible(c) && n < |c.pieces|
  {
    call.abort ||
    (PollsPossible(c, b, x, call.polls, false) &&
     (Pushes(x, call) ==>
        Possible(c, Sending(AfterPolls(c, b, x, call.polls, false), [PiecePacket(c.pieces, n)]), call.after.script)))
  }

  /** The client's side after the transmission and the poll that follows it. */
  function AfterSendNow(c: Config, b: System, x: SenderState, n: nat, send: SendOutcome, after: PollScript): System
    requires Admissible(c) && n < |c.pieces|
  {
    match send
    case SendFailed => b
    case Sent(at) => AfterPoll(c, Sending(b, [PiecePacket(c.pieces, n)]), Push(x, n, c.pieces[n], n == Last(c), at), after)
  }

  /** The client's side after the call. */
  function AfterSend(c: Config, b: System, x: SenderState, n: nat, call: SendCall): System
    requires Admissible(c) && n < |c.pieces|
  {
    if call.abort then b
    else
      var room, u := PollUntil(x, Inputs(call.polls), false), AfterPolls(c, b, x, call.polls, false);
      if room.done == Some(true) then AfterSendNow(c, u, room.state, n, call.send, call.after) else u
  }

  /**
   * sendChunk for the next piece is a run, the client moving while it waits: on success the piece is
   * in flight, while blocked the server is still waiting for room, on failure it has given up.
   */
  lemma SendChunkIsRun(c: Config, s: System, call: SendCall) returns (actions: seq<Action>, t: System)
    requires Admissible(c) && s.server.phase.Transmitting? && s.server.next < |c.pieces|
    requires SendPossible(c, Blind(s), s.server.sender, s.server.next, call)
    ensures var x, n := s.server.sender, s.server.next;
            var r := SendResult(c, x, n, call);
            && Run(c, s, actions, t) && Blind(t) == AfterSend(c, Blind(s), x, n, call)
            && t.toClient == s.toClient + Members(r.sent) && t.server.sender == r.state
            && t.server.phase == (if r.done == Some(false) then Failed else Transmitting)
            && t.server.next == (if Pushes(x, call) then n + 1 else n) && (r.done == Some(true) ==> Pushes(x, call))
  {
    if call.abort {
      actions, t := GiveUpIsRun(c, s);
    } else {
      var a, u := PollUntilIsRun(c, s, call.polls, false);
      var room := PollUntil(s.server.sender, Inputs(call.polls), false);
      if room.done != Some(true) {
        actions, t := a, u;
      } else {
        RoomMeansRoom(s.server.sender, Inputs(call.polls), false);
        var b;
        b, t := SendNowIsRun(c, u, call.send, call.after);
        RunAppend(c, s, a, u, b, t);
        actions := a + b;
        var n := s.server.next;
        MembersAppend(room.sent, SendNow(room.state, n, c.pieces[n], n == Last(c), call.send, call.after.Input()).sent);
      }
    }
  }

  /** sendChunk from the transmission on. */
  lemma SendNowIsRun(c: Config, s: System, send: SendOutcome, after: PollScript) returns (actions: seq<Action>, t: System)
    requires Admissible(c) && s.server.phase.Transmitting? && s.server.next < |c.pieces|
    requires |s.server.sender.window| < EffectiveWindow(s.server.sender)
    requires send.Sent? ==> Possible(c, Sending(Blind(s), [PiecePacket(c.pieces, s.server.next)]), after.script)
    ensures var x, n := s.server.sender, s.server.next;
            var r := SendNow(x, n, c.pieces[n], n == Last(c), send, after.Input());
            && Run(c, s, actions, t) && Blind(t) == AfterSendNow(c, Blind(s), x, n, send, after)
            && t.toClient == s.toClient + Members(r.sent) && t.server.sender == r.state
            && t.server.phase == (if r.done == Some(false) then Failed else Transmitting)
            && t.server.next == (if send.Sent? then n + 1 else n)
  {
    if send.SendFailed? {
      actions, t := GiveUpIsRun(c, s);
    } else {
      var push := ServerPushes(send.at);
      var u := Next(c, s, push);
      RunOne(c, s, push);
      var p := [PiecePacket(c.pieces, s.server.next)];
      assert Blind(u) == Sending(Blind(s), p);
      var b;
      b, t := PollIsRun(c, u, after);
      RunAppend(c, s, [push], u, b, t);
      actions := [push] + b;
      MembersAppend(p, Poll(u.server.sender, after.Input()).sent);
    }
  }

  lemma {:induction false} RoomMeansRoom(s: SenderState, polls: seq<PollInput>, flushing: bool)
    ensures var r := PollUntil(s, polls, flushing); r.done == Some(true) ==> !Waiting(r.state, flushing)
    decreases |polls|
  {
    if Waiting(s, flushing) && polls != [] && Poll(s, polls[0]).ok {
      RoomMeansRoom(Poll(s, polls[0]).state, polls[1..], flushing);
    }
  }

  /**
   * flush after the last piece is a run, the client moving while it waits, and its true return is
   * the server's success.
   */
  lemma FlushIsRun(c: Config, s: System, polls: seq<PollScript>) returns (actions: seq<Action>, t: System)
    requires Admissible(c) && s.server.phase.Transmitting? && s.server.next == |c.pieces|
    requires PollsPossible(c, Blind(s), s.server.sender, polls, true)
    ensures var r := Flush(s.server.sender, Inputs(polls));
            && Run(c, s, actions, t) && Blind(t) == AfterPolls(c, Blind(s), s.server.sender, polls, true)
            && t.toClient == s.toClient + Members(r.sent) && t.server.sender == r.state && t.server.next == s.server.next
            && t.server.phase == (match r.done case None => Transmitting case Some(ok) => if ok then Succeeded else Failed)
  {
    var a, u := PollUntilIsRun(c, s, polls, true);
    if Flush(s.server.sender, Inputs(polls)).done == Some(true) {
      RoomMeansRoom(s.server.sender, Inputs(polls), true);
      t := Next(c, u, ServerFlushes);
      RunOne(c, u, ServerFlushes);
      actions := a + [ServerFlushes];
      RunAppend(c, s, a, u, [ServerFlushes], t);
    } else {
      actions, t := a, u;
    }
  }
}
