/**
 * The calls of the server's receiver are runs of the Upload system: receiveNext and the handshake.
 * While a call waits the client goes on: each turn comes with the client's steps that precede it,
 * and a datagram can be heard once it is in the network reached then.
 */
module UploadServerRefinement {
  import opened Bytes
  import opened Datagrams
  import opened Upload
  import R = WindowedReceiver

  /** The client's steps, and then the server's turn of the loop. */
  datatype TimedTurn = TimedTurn(meanwhile: seq<Action>, turn: R.Turn)

  function Turns(script: seq<TimedTurn>): seq<R.Turn> {
    if script == [] then [] else [script[0].turn] + Turns(script[1..])
  }

  /** Every datagram heard is in the network by then. */
  ghost predicate ListenPossible(c: Config, s: System, script: seq<TimedTurn>)
    decreases |script|
  {
    script == [] ||
    var u := Perform(c, s, false, script[0].meanwhile);
    match script[0].turn
    case GiveUp => true
    case Nothing => ListenPossible(c, u, script[1..])
    case Heard(d, ackOk) =>
      d in u.toServer &&
      (HearData(u, d, ackOk).server.phase.Receiving? ==> ListenPossible(c, HearData(u, d, ackOk), script[1..]))
  }

  /** `t` is `s` after receiveNext: still waiting, returned false, or holding a chunk. */
  ghost predicate ServerMoved(s: System, t: System, x: R.ReceiveResult) {
    t.toClient == s.toClient + (set d | d in x.acks) &&
    t.server.receiver == x.state && t.server.writer == s.server.writer && t.server.carry == s.server.carry &&
    match x.done
    case None => t.server.phase == Receiving && t.server.delivered == s.server.delivered
    case Some(None) => t.server.phase == Stopped(false) && t.server.delivered == s.server.delivered
    case Some(Some(chunk)) => t.server.phase == Holding(chunk) && t.server.delivered == s.server.delivered + [chunk]
  }

  lemma HeardIsRun(c: Config, s: System, d: Datagram, ackOk: bool) returns (actions: seq<Action>)
    requires Listening(s) && Deliverable(s, d)
    ensures Run(c, s, actions, HearData(s, d, ackOk))
    ensures ServerMoved(s, HearData(s, d, ackOk), R.Absorb(R.OnAcceptance, s.server.receiver.(kept := None), d, ackOk))
  {
    actions := [ServerHears(d, ackOk)];
    RunOne(c, s, ServerHears(d, ackOk));
  }

  /** A datagram that is not handed out leaves the server listening. */
  lemma StillListening(s: System, d: Datagram, ackOk: bool)
    requires Listening(s) && R.Absorb(R.OnAcceptance, s.server.receiver.(kept := None), d, ackOk).done == None
    ensures var t := HearData(s, d, ackOk); Listening(t) && t.server.receiver.kept == None
  {
  }

  lemma MovedTwice(s: System, u: System, t: System, x: R.ReceiveResult, y: R.ReceiveResult)
    requires ServerMoved(s, u, x) && ServerMoved(u, t, y) && x.done == None
    ensures ServerMoved(s, t, R.ReceiveResult(y.state, x.acks + y.acks, y.done))
  {
  }

  /** The system when the loop ends. */
  function AfterListen(c: Config, s: System, script: seq<TimedTurn>): System
    decreases |script|, 0
  {
    if script == [] then s
    else
      var u := Perform(c, s, false, script[0].meanwhile);
      match script[0].turn
      case GiveUp => u.(server := u.server.(phase := Stopped(false)))
      case Nothing => AfterListen(c, u, script[1..])
      case Heard(d, ackOk) => AfterHeard(c, u, d, ackOk, script[1..])
  }

  function AfterHeard(c: Config, s: System, d: Datagram, ackOk: bool, rest: seq<TimedTurn>): System
    decreases |rest|, 1
  {
    var u := HearData(s, d, ackOk);
    if u.server.phase.Receiving? then AfterListen(c, u, rest) else u
  }

  lemma {:induction false} ListenIsRun(c: Config, s: System, script: seq<TimedTurn>)
    returns (actions: seq<Action>, t: System)
    requires Listening(s) && s.server.receiver.kept == None && ListenPossible(c, s, script)
    ensures Run(c, s, actions, t) && t == AfterListen(c, s, script)
    ensures ServerMoved(s, t, R.Listen(R.OnAcceptance, s.server.receiver, Turns(script)))
    decreases |script|, 0
  {
    if script == [] {
      actions, t := [], s;
    } else {
      var a := PerformIsRun(c, s, false, script[0].meanwhile);
      var u := Perform(c, s, false, script[0].meanwhile);
      var b;
      match script[0].turn {
        case GiveUp =>
          b, t := [ServerGivesUp], Next(c, u, ServerGivesUp);
          RunOne(c, u, ServerGivesUp);
        case Nothing =>
          b, t := ListenIsRun(c, u, script[1..]);
        case Heard(d, ackOk) =>
          b, t := HeardThenListen(c, u, d, ackOk, script[1..]);
      }
      RunAppend(c, s, a, u, b, t);
      actions := a + b;
    }
  }

  /** One datagram, kept from the handshake or fresh, and then the rest of the loop. */
  lemma {:induction false} HeardThenListen(c: Config, s: System, d: Datagram, ackOk: bool, rest: seq<TimedTurn>)
    returns (actions: seq<Action>, t: System)
    requires Listening(s) && Deliverable(s, d)
    requires HearData(s, d, ackOk).server.phase.Receiving? ==> ListenPossible(c, HearData(s, d, ackOk), rest)
    ensures Run(c, s, actions, t) && t == AfterHeard(c, s, d, ackOk, rest)
    ensures ServerMoved(s, t, R.Listen(R.OnAcceptance, s.server.receiver.(kept := None), [R.Heard(d, ackOk)] + Turns(rest)))
    decreases |rest|, 1
  {
    var turns := [R.Heard(d, ackOk)] + Turns(rest);
    assert turns[1..] == Turns(rest);
    var x := R.Absorb(R.OnAcceptance, s.server.receiver.(kept := None), d, ackOk);
    var u := HearData(s, d, ackOk);
    var a := HeardIsRun(c, s, d, ackOk);
    if x.done.Some? {
      actions, t := a, u;
    } else {
      StillListening(s, d, ackOk);
      var b;
      b, t := ListenIsRun(c, u, rest);
      RunAppend(c, s, a, u, b, t);
      actions := a + b;
      MovedTwice(s, u, t, x, R.Listen(R.OnAcceptance, x.state, Turns(rest)));
    }
  }

  /** What receiveNext hears was sent by then; a datagram kept from the handshake comes first. */
  ghost predicate ReceivePossible(c: Config, s: System, abort: bool, keptAckOk: bool, script: seq<TimedTurn>)
  {
    !abort && Listening(s) ==>
      match s.server.receiver.kept
      case Some(d) =>
        HearData(s, d, keptAckOk).server.phase.Receiving? ==> ListenPossible(c, HearData(s, d, keptAckOk), script)
      case None => ListenPossible(c, s, script)
  }

  /** The system when receiveNext returns or is still blocked. */
  function AfterReceive(c: Config, s: System, abort: bool, keptAckOk: bool, script: seq<TimedTurn>): System
  {
    if abort then s.(server := s.server.(phase := Stopped(false)))
    else if s.server.receiver.expected in s.server.receiver.buffer then
      var (r, chunk) := R.TakeBuffered(s.server.receiver);
      s.(server := HandOut(s.server, r, chunk))
    else
      match s.server.receiver.kept
      case Some(d) => AfterHeard(c, s, d, keptAckOk, script)
      case None => AfterListen(c, s, script)
  }

  /** receiveNext of the server is a run, the client moving while it waits. */
  lemma ReceiveNextIsRun(c: Config, s: System, abort: bool, keptAckOk: bool, script: seq<TimedTurn>)
    returns (actions: seq<Action>, t: System)
    requires s.server.phase.Receiving? && ReceivePossible(c, s, abort, keptAckOk, script)
    ensures Run(c, s, actions, t) && t == AfterReceive(c, s, abort, keptAckOk, script)
    ensures ServerMoved(s, t, R.Receive(R.OnAcceptance, s.server.receiver, abort, keptAckOk, Turns(script)))
  {
    if abort {
      actions, t := [ServerGivesUp], Next(c, s, ServerGivesUp);
      RunOne(c, s, ServerGivesUp);
    } else if s.server.receiver.expected in s.server.receiver.buffer {
      actions, t := [ServerTakesBuffered], Next(c, s, ServerTakesBuffered);
      RunOne(c, s, ServerTakesBuffered);
    } else if s.server.receiver.kept.Some? {
      actions, t := HeardThenListen(c, s, s.server.receiver.kept.value, keptAckOk, script);
    } else {
      actions, t := ListenIsRun(c, s, script);
    }
  }

  // ----- the handshake

  /** One attempt: it breaks off, or a SYN goes out, the client moves, and a response may come. */
  datatype TimedAttempt = BreaksOff | Tries(meanwhile: seq<Action>, response: Option<Datagram>) {
    function Plain(): R.Attempt { if BreaksOff? then R.Broken else R.Attempted(response) }
  }

  function Untimed(attempts: nat -> TimedAttempt): nat -> R.Attempt { (n: nat) => attempts(n).Plain() }

  /** An answer is in the network by the time it is heard. */
  ghost predicate ShakePossible(c: Config, s: System, attempts: nat -> TimedAttempt, n: nat)
    decreases R.HANDSHAKE_MAX_RETRIES - n
  {
    n < R.HANDSHAKE_MAX_RETRIES && attempts(n).Tries? ==>
      var u := Perform(c, s.(toClient := s.toClient + {SYN}), false, attempts(n).meanwhile);
      if R.Answered(attempts(n).Plain()) then attempts(n).response.value in u.toServer
      else ShakePossible(c, u, attempts, n + 1)
  }

  /** The system when the handshake is over. */
  function AfterShake(c: Config, s: System, attempts: nat -> TimedAttempt, n: nat): System
    decreases R.HANDSHAKE_MAX_RETRIES - n
  {
    if n >= R.HANDSHAKE_MAX_RETRIES || attempts(n).BreaksOff? then s.(server := s.server.(phase := Stopped(false)))
    else
      var u := Perform(c, s.(toClient := s.toClient + {SYN}), false, attempts(n).meanwhile);
      if R.Answered(attempts(n).Plain())
      then u.(server := u.server.(phase := Receiving, receiver := R.KeepData(u.server.receiver, attempts(n).response.value)))
      else AfterShake(c, u, attempts, n + 1)
  }

  /** initiateActiveHandshake is a run, the client moving between its attempts. */
  lemma {:induction false} HandshakeIsRun(c: Config, s: System, attempts: nat -> TimedAttempt, n: nat)
    returns (actions: seq<Action>, t: System)
    requires s.server.phase.Handshaking? && n <= R.HANDSHAKE_MAX_RETRIES
    requires ShakePossible(c, s, attempts, n)
    ensures var x := R.Shake(s.server.receiver, Untimed(attempts), n);
            && Run(c, s, actions, t) && t == AfterShake(c, s, attempts, n)
            && t.toClient == s.toClient + (if x.syns > 0 then {SYN} else {})
            && t.server == s.server.(receiver := x.state, phase := if x.ok then Receiving else Stopped(false))
    decreases R.HANDSHAKE_MAX_RETRIES - n
  {
    if n == R.HANDSHAKE_MAX_RETRIES || attempts(n).BreaksOff? {
      actions, t := [ServerGivesUp], Next(c, s, ServerGivesUp);
      RunOne(c, s, ServerGivesUp);
    } else {
      var sent := Next(c, s, ServerSendsSyn);
      RunOne(c, s, ServerSendsSyn);
      var a := PerformIsRun(c, sent, false, attempts(n).meanwhile);
      var u := Perform(c, sent, false, attempts(n).meanwhile);
      RunAppend(c, s, [ServerSendsSyn], sent, a, u);
      var b;
      if R.Answered(attempts(n).Plain()) {
        var shake := ServerShakes(attempts(n).response.value);
        b, t := [shake], Next(c, u, shake);
        RunOne(c, u, shake);
      } else {
        b, t := HandshakeIsRun(c, u, attempts, n + 1);
      }
      RunAppend(c, s, [ServerSendsSyn] + a, u, b, t);
      actions := [ServerSendsSyn] + a + b;
    }
  }
}
