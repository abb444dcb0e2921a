/**
 * The calls of the client's receiver are runs of the Retr system: receiveNext, confirmReceive and the
 * handshake. While a call waits the server goes on: each turn comes with the server's steps that
 * precede it, and a datagram can be heard once it is in the network reached then. RdtReceiver
 * computes exactly the functions used here.
 */
module RetrClientRefinement {
  import opened Bytes
  import opened Datagrams
  import opened Retr
  import R = WindowedReceiver

  /** The server's steps, and then the client's turn of the loop. */
  datatype TimedTurn = TimedTurn(meanwhile: seq<Action>, turn: R.Turn)

  function Turns(script: seq<TimedTurn>): seq<R.Turn> {
    if script == [] then [] else [script[0].turn] + Turns(script[1..])
  }

  /** Every datagram heard is in the network by then. */
  ghost predicate ListenPossible(c: Config, s: System, script: seq<TimedTurn>)
    requires Admissible(c)
    decreases |script|
  {
    script == [] ||
    var u := Perform(c, s, true, script[0].meanwhile);
    match script[0].turn
    case GiveUp => true
    case Nothing => ListenPossible(c, u, script[1..])
    case Heard(d, ackOk) =>
      d in u.toClient &&
      (HearData(u, d, ackOk).client.phase.Receiving? ==> ListenPossible(c, HearData(u, d, ackOk), script[1..]))
  }

  /** `t` is `s` after receiveNext: still waiting, returned false, or holding a chunk. */
  ghost predicate ClientMoved(s: System, t: System, x: R.ReceiveResult) {
    t.toServer == s.toServer + (set d | d in x.acks) &&
    t.client.receiver == x.state && t.client.writer == s.client.writer && t.client.carry == s.client.carry &&
    match x.done
    case None => t.client.phase == Receiving && t.client.delivered == s.client.delivered
    case Some(None) => t.client.phase == Stopped(false) && t.client.delivered == s.client.delivered
    case Some(Some(chunk)) => t.client.phase == Holding(chunk) && t.client.delivered == s.client.delivered + [chunk]
  }

  lemma HeardIsRun(c: Config, s: System, d: Datagram, ackOk: bool) returns (actions: seq<Action>)
    requires Admissible(c) && Listening(s) && Deliverable(s, d)
    ensures Run(c, s, actions, HearData(s, d, ackOk))
    ensures ClientMoved(s, HearData(s, d, ackOk), R.Absorb(R.FinalAfterCommit, s.client.receiver.(kept := None), d, ackOk))
  {
    actions := [ClientHears(d, ackOk)];
    RunOne(c, s, ClientHears(d, ackOk));
  }

  /** A datagram that is not handed out leaves the client listening. */
  lemma StillListening(s: System, d: Datagram, ackOk: bool)
    requires Listening(s) && R.Absorb(R.FinalAfterCommit, s.client.receiver.(kept := None), d, ackOk).done == None
    ensures var t := HearData(s, d, ackOk); Listening(t) && t.client.receiver.kept == None
  {
  }

  lemma MovedOn(s: System, u: System, t: System, x: R.ReceiveResult, y: R.ReceiveResult)
    requires ClientMoved(s, u, x) && ClientMoved(u, t, y) && x.done == None
    ensures ClientMoved(s, t, R.ReceiveResult(y.state, x.acks + y.acks, y.done))
  {
  }

  /** The system when the loop ends. */
  function AfterListen(c: Config, s: System, script: seq<TimedTurn>): System
    requires Admissible(c)
    decreases |script|, 0
  {
    if script == [] then s
    else
      var u := Perform(c, s, true, script[0].meanwhile);
      match script[0].turn
      case GiveUp => u.(client := u.client.(phase := Stopped(false)))
      case Nothing => AfterListen(c, u, script[1..])
      case Heard(d, ackOk) => AfterHeard(c, u, d, ackOk, script[1..])
  }

  function AfterHeard(c: Config, s: System, d: Datagram, ackOk: bool, rest: seq<TimedTurn>): System
    requires Admissible(c)
    decreases |rest|, 1
  {
    var u := HearData(s, d, ackOk);
    if u.client.phase.Receiving? then AfterListen(c, u, rest) else u
  }

  lemma {:induction false} ListenIsRun(c: Config, s: System, script: seq<TimedTurn>)
    returns (actions: seq<Action>, t: System)
    requires Admissible(c) && Listening(s) && s.client.receiver.kept == None && ListenPossible(c, s, script)
    ensures Run(c, s, actions, t) && t == AfterListen(c, s, script)
    ensures ClientMoved(s, t, R.Listen(R.FinalAfterCommit, s.client.receiver, Turns(script)))
    decreases |script|, 0
  {
    if script == [] {
      actions, t := [], s;
    } else {
      var a := PerformIsRun(c, s, true, script[0].meanwhile);
      var u := Perform(c, s, true, script[0].meanwhile);
      var b;
      match script[0].turn {
        case GiveUp =>
          b, t := [ClientGivesUp], Next(c, u, ClientGivesUp);
          RunOne(c, u, ClientGivesUp);
        case Nothing =>
          b, t := ListenIsRun(c, u, script[1..]);
        case Heard(d, ackOk) =>
          b, t := HeardThenListen(c, u, d, ackOk, script[1..]);
      }
      RunAppend(c, s, a, u, b, t);
      actions := a + b;
    }
  }

  /** One datagram, kept from the handshake or fresh, and then the rest of the loop. */
  lemma {:induction false} HeardThenListen(c: Config, s: System, d: Datagram, ackOk: bool, rest: seq<TimedTurn>)
    returns (actions: seq<Action>, t: System)
    requires Admissible(c) && Listening(s) && Deliverable(s, d)
    requires HearData(s, d, ackOk).client.phase.Receiving? ==> ListenPossible(c, HearData(s, d, ackOk), rest)
    ensures Run(c, s, actions, t) && t == AfterHeard(c, s, d, ackOk, rest)
    ensures ClientMoved(s, t, R.Listen(R.FinalAfterCommit, s.client.receiver.(kept := None),
                                       [R.Heard(d, ackOk)] + Turns(rest)))
    decreases |rest|, 1
  {
    var turns := [R.Heard(d, ackOk)] + Turns(rest);
    assert turns[1..] == Turns(rest);
    var x := R.Absorb(R.FinalAfterCommit, s.client.receiver.(kept := None), d, ackOk);
    var u := HearData(s, d, ackOk);
    var a := HeardIsRun(c, s, d, ackOk);
    if x.done.Some? {
      actions, t := a, u;
    } else {
      StillListening(s, d, ackOk);
      var b;
      b, t := ListenIsRun(c, u, rest);
      RunAppend(c, s, a, u, b, t);
      actions := a + b;
      MovedOn(s, u, t, x, R.Listen(R.FinalAfterCommit, x.state, Turns(rest)));
    }
  }

  /** What receiveNext hears was sent by then; a datagram kept from the handshake comes first. */
  ghost predicate ReceivePossible(c: Config, s: System, abort: bool, keptAckOk: bool, script: seq<TimedTurn>)
    requires Admissible(c)
  {
    !abort && Listening(s) ==>
      match s.client.receiver.kept
      case Some(d) =>
        HearData(s, d, keptAckOk).client.phase.Receiving? ==> ListenPossible(c, HearData(s, d, keptAckOk), script)
      case None => ListenPossible(c, s, script)
  }

  /** The system when receiveNext returns or is still blocked. */
  function AfterReceive(c: Config, s: System, abort: bool, keptAckOk: bool, script: seq<TimedTurn>): System
    requires Admissible(c)
  {
    if abort then s.(client := s.client.(phase := Stopped(false)))
    else if s.client.receiver.expected in s.client.receiver.buffer then
      var (r, chunk) := R.TakeBuffered(s.client.receiver);
      s.(client := HandOut(s.client, r, chunk))
    else
      match s.client.receiver.kept
      case Some(d) => AfterHeard(c, s, d, keptAckOk, script)
      case None => AfterListen(c, s, script)
  }

  /** receiveNext of the client is a run, the server moving while it waits. */
  lemma ReceiveNextIsRun(c: Config, s: System, abort: bool, keptAckOk: bool, script: seq<TimedTurn>)
    returns (actions: seq<Action>, t: System)
    requires Admissible(c) && s.client.phase.Receiving? && ReceivePossible(c, s, abort, keptAckOk, script)
    ensures Run(c, s, actions, t) && t == AfterReceive(c, s, abort, keptAckOk, script)
    ensures ClientMoved(s, t, R.Receive(R.FinalAfterCommit, s.client.receiver, abort, keptAckOk, Turns(script)))
  {
    if abort {
      actions, t := [ClientGivesUp], Next(c, s, ClientGivesUp);
      RunOne(c, s, ClientGivesUp);
    } else if s.client.receiver.expected in s.client.receiver.buffer {
      actions, t := [ClientTakesBuffered], Next(c, s, ClientTakesBuffered);
      RunOne(c, s, ClientTakesBuffered);
    } else if s.client.receiver.kept.Some? {
      actions, t := HeardThenListen(c, s, s.client.receiver.kept.value, keptAckOk, script);
    } else {
      actions, t := ListenIsRun(c, s, script);
    }
  }

  /** confirmReceive after the commit, or for a chunk that is not wanted, is a step. */
  lemma ConfirmIsRun(c: Config, s: System, seqNum: nat, accepted: bool, sendOk: bool)
    returns (actions: seq<Action>, t: System)
    requires Admissible(c)
    requires if accepted then s.client.phase == Saved(seqNum)
             else s.client.phase == Appended(seqNum) || (s.client.phase.Holding? && s.client.phase.chunk.seqNum == seqNum)
    ensures var x := R.Confirm(s.client.receiver, seqNum, accepted, sendOk);
            && Run(c, s, actions, t)
            && t == s.(client := s.client.(receiver := x.state, phase := Stopped(x.ok)),
                       toServer := s.toServer + set d | d in x.sent)
  {
    var a := if accepted then ClientConfirms(sendOk) else ClientRejects(sendOk);
    actions, t := [a], Next(c, s, a);
    RunOne(c, s, a);
  }

  // ----- the handshake

  /** One attempt: it breaks off, or a SYN goes out, the server moves, and a response may come. */
  datatype TimedAttempt = BreaksOff | Tries(meanwhile: seq<Action>, response: Option<Datagram>) {
    function Plain(): R.Attempt { if BreaksOff? then R.Broken else R.Attempted(response) }
  }

  function Untimed(attempts: nat -> TimedAttempt): nat -> R.Attempt { (n: nat) => attempts(n).Plain() }

  /** An answer is in the network by the time it is heard. */
  ghost predicate ShakePossible(c: Config, s: System, attempts: nat -> TimedAttempt, n: nat)
    requires Admissible(c)
    decreases R.HANDSHAKE_MAX_RETRIES - n
  {
    n < R.HANDSHAKE_MAX_RETRIES && attempts(n).Tries? ==>
      var u := Perform(c, s.(toServer := s.toServer + {SYN}), true, attempts(n).meanwhile);
      if R.Answered(attempts(n).Plain()) then attempts(n).response.value in u.toClient
      else ShakePossible(c, u, attempts, n + 1)
  }

  /** The system when the handshake is over. */
  function AfterShake(c: Config, s: System, attempts: nat -> TimedAttempt, n: nat): System
    requires Admissible(c)
    decreases R.HANDSHAKE_MAX_RETRIES - n
  {
    if n >= R.HANDSHAKE_MAX_RETRIES || attempts(n).BreaksOff? then s.(client := s.client.(phase := Stopped(false)))
    else
      var u := Perform(c, s.(toServer := s.toServer + {SYN}), true, attempts(n).meanwhile);
      if R.Answered(attempts(n).Plain())
      then u.(client := u.client.(phase := Receiving, receiver := R.KeepData(u.client.receiver, attempts(n).response.value)))
      else AfterShake(c, u, attempts, n + 1)
  }

  /** signalClientReady is a run, the server moving between its attempts. */
  lemma {:induction false} HandshakeIsRun(c: Config, s: System, attempts: nat -> TimedAttempt, n: nat)
    returns (actions: seq<Action>, t: System)
    requires Admissible(c) && s.client.phase.Handshaking? && n <= R.HANDSHAKE_MAX_RETRIES
    requires ShakePossible(c, s, attempts, n)
    ensures var x := R.Shake(s.client.receiver, Untimed(attempts), n);
            && Run(c, s, actions, t) && t == AfterShake(c, s, attempts, n)
            && t.toServer == s.toServer + (if x.syns > 0 then {SYN} else {})
            && t.client == s.client.(receiver := x.state, phase := if x.ok then Receiving else Stopped(false))
    decreases R.HANDSHAKE_MAX_RETRIES - n
  {
    if n == R.HANDSHAKE_MAX_RETRIES || attempts(n).BreaksOff? {
      actions, t := [ClientGivesUp], Next(c, s, ClientGivesUp);
      RunOne(c, s, ClientGivesUp);
    } else {
      var sent := Next(c, s, ClientSendsSyn);
      RunOne(c, s, ClientSendsSyn);
      var a := PerformIsRun(c, sent, true, attempts(n).meanwhile);
      var u := Perform(c, sent, true, attempts(n).meanwhile);
      RunAppend(c, s, [ClientSendsSyn], sent, a, u);
      var b;
      if R.Answered(attempts(n).Plain()) {
        var shake := ClientShakes(attempts(n).response.value);
        b, t := [shake], Next(c, u, shake);
        RunOne(c, u, shake);
      } else {
        b, t := HandshakeIsRun(c, u, attempts, n + 1);
      }
      RunAppend(c, s, [ClientSendsSyn] + a, u, b, t);
      actions := [ClientSendsSyn] + a + b;
    }
  }
}
