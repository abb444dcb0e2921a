/**
 * A download (RETR) as a transition system: the server's sendFromReader over its windowed sender,
 * the client's receiveFile over its windowed receiver, and a network between them. The network is
 * the set of datagrams ever sent in each direction, so a datagram may be delivered late, out of
 * order, repeatedly or never; a damaged copy is one the decoder drops.
 */
module Retr {
  import opened Bytes
  import opened Datagrams
  import opened Readers
  import opened Writer
  import opened WindowedSender
  import R = WindowedReceiver
  import Ascii

  /** One transfer: its numbered pieces, the data-channel mode, the transfer type, the old destination. */
  datatype Config = Config(pieces: seq<Data>, passive: bool, ascii: bool, initialTimeoutMs: int,
                           oldDest: Option<Data>)

  /** Sequence numbers fit 32 bits and every piece fits a datagram. */
  predicate Admissible(c: Config) {
    0 < |c.pieces| < 0x1_0000_0000 && forall i :: 0 <= i < |c.pieces| ==> |c.pieces[i]| <= CHUNK_SIZE
  }

  function Last(c: Config): nat
    requires Admissible(c)
  {
    |c.pieces| - 1
  }

  datatype ServerPhase = AwaitingSyn | Transmitting | Succeeded | Failed

  /** `next` counts chunks passed to sendChunk; `tries` counts the transmissions of each. */
  datatype Server = Server(phase: ServerPhase, sender: SenderState, next: nat, tries: seq<nat>)

  /** receiveFile: waiting in receiveNext, holding a chunk, all appended, saved, or returned. */
  datatype ClientPhase =
    | Handshaking
    | Receiving
    | Holding(chunk: Chunk)
    | Appended(seqNum: nat)
    | Saved(seqNum: nat)
    | Stopped(ok: bool)

  /** `carry` is the translator's; `delivered` records what receiveNext returned. */
  datatype Client = Client(phase: ClientPhase, receiver: R.ReceiverState, writer: WriterState, carry: bool,
                           delivered: seq<Chunk>)

  datatype System = System(server: Server, client: Client, toClient: set<Datagram>, toServer: set<Datagram>)

  function Init(c: Config): System {
    System(Server(if c.passive then AwaitingSyn else Transmitting, Initial(c.initialTimeoutMs), 0, []),
           Client(if c.passive then Handshaking else Receiving, R.FRESH, Open(c.oldDest, true), false, []),
           {}, {})
  }

  /** `ServerRunsOut` is the retry limit; `ServerGivesUp` an abort, a failed send or a failed handshake. */
  datatype Action =
    | ServerHearsSyn(d: Datagram)
    | ServerPushes(at: real)
    | ServerHears(d: Datagram, now: real)
    | ServerHalves
    | ServerResends(j: nat, at: real)
    | ServerFlushes
    | ServerRunsOut(j: nat)
    | ServerGivesUp
    | ClientSendsSyn
    | ClientShakes(d: Datagram)
    | ClientTakesBuffered
    | ClientHears(d: Datagram, ackOk: bool)
    | ClientAppends(writeOk: bool, nakOk: bool)
    | ClientCommits(moveOk: bool, nakOk: bool)
    | ClientConfirms(ackOk: bool)
    | ClientRejects(nakOk: bool)
    | ClientGivesUp

  predicate Enabled(c: Config, s: System, a: Action)
    requires Admissible(c)
  {
    match a
    case ServerHearsSyn(d) => s.server.phase.AwaitingSyn? && d in s.toServer
    case ServerPushes(at) =>
      s.server.phase.Transmitting? && s.server.next < |c.pieces| &&
      |s.server.sender.window| < EffectiveWindow(s.server.sender)
    case ServerHears(d, now) => s.server.phase.Transmitting? && d in s.toServer
    case ServerHalves => s.server.phase.Transmitting?
    case ServerResends(j, at) =>
      s.server.phase.Transmitting? && j < |s.server.sender.window| &&
      !s.server.sender.window[j].acked && s.server.sender.window[j].retries < MAX_RETRIES
    case ServerFlushes =>
      s.server.phase.Transmitting? && s.server.next == |c.pieces| && s.server.sender.window == []
    case ServerRunsOut(j) =>
      s.server.phase.Transmitting? && j < |s.server.sender.window| &&
      !s.server.sender.window[j].acked && s.server.sender.window[j].retries >= MAX_RETRIES
    case ServerGivesUp => s.server.phase.AwaitingSyn? || s.server.phase.Transmitting?
    case ClientSendsSyn => s.client.phase.Handshaking?
    case ClientShakes(d) => s.client.phase.Handshaking? && d in s.toClient && R.Answers(d)
    case ClientTakesBuffered => s.client.phase.Receiving? && s.client.receiver.expected in s.client.receiver.buffer
    case ClientHears(d, ackOk) => Listening(s) && Deliverable(s, d)
    case ClientAppends(writeOk, nakOk) => s.client.phase.Holding?
    case ClientCommits(moveOk, nakOk) => s.client.phase.Appended?
    case ClientConfirms(ackOk) => s.client.phase.Saved?
    case ClientRejects(nakOk) => s.client.phase.Holding? || s.client.phase.Appended?
    case ClientGivesUp => s.client.phase.Handshaking? || s.client.phase.Receiving?
  }

  /** The client is reading its socket: nothing buffered can be handed out. */
  predicate Listening(s: System) {
    s.client.phase.Receiving? && s.client.receiver.expected !in s.client.receiver.buffer
  }

  /** A datagram kept from the handshake goes first; otherwise anything ever sent may arrive. */
  predicate Deliverable(s: System, d: Datagram) {
    match s.client.receiver.kept
    case Some(k) => d == k
    case None => d in s.toClient
  }

  function Next(c: Config, s: System, a: Action): System
    requires Admissible(c) && Enabled(c, s, a)
  {
    match a
    case ServerHearsSyn(d) => HearSyn(s, d)
    case ServerPushes(at) => PushPiece(c, s, at)
    case ServerHears(d, now) => HearReply(s, d, now)
    case ServerHalves => s.(server := s.server.(sender := Decrease(s.server.sender)))
    case ServerResends(j, at) => ResendPiece(s, j, at)
    case ServerFlushes => s.(server := s.server.(phase := Succeeded))
    case ServerRunsOut(j) => s.(server := s.server.(phase := Failed))
    case ServerGivesUp => s.(server := s.server.(phase := Failed))
    case ClientSendsSyn => s.(toServer := s.toServer + {SYN})
    case ClientShakes(d) => s.(client := s.client.(phase := Receiving, receiver := R.KeepData(s.client.receiver, d)))
    case ClientTakesBuffered =>
      var (r, chunk) := R.TakeBuffered(s.client.receiver);
      s.(client := HandOut(s.client, r, chunk))
    case ClientHears(d, ackOk) => HearData(s, d, ackOk)
    case ClientAppends(writeOk, nakOk) => AppendHeld(c, s, writeOk, nakOk)
    case ClientCommits(moveOk, nakOk) => CommitAll(s, moveOk, nakOk)
    case ClientConfirms(ackOk) => ConfirmSaved(s, ackOk)
    case ClientRejects(nakOk) =>
      Reject(s, if s.client.phase.Holding? then s.client.phase.chunk.seqNum else s.client.phase.seqNum, nakOk)
    case ClientGivesUp => s.(client := s.client.(phase := Stopped(false)))
  }

  predicate ByServer(a: Action) {
    a.ServerHearsSyn? || a.ServerPushes? || a.ServerHears? || a.ServerHalves? || a.ServerResends? ||
    a.ServerFlushes? || a.ServerRunsOut? || a.ServerGivesUp?
  }

  /** A step leaves the other side and what that side sent alone. */
  lemma StepFrame(c: Config, s: System, a: Action)
    requires Admissible(c) && Enabled(c, s, a)
    ensures var t := Next(c, s, a);
            s.toClient <= t.toClient && s.toServer <= t.toServer &&
            t == if ByServer(a) then s.(server := t.server, toClient := t.toClient)
                 else s.(client := t.client, toServer := t.toServer)
  {
  }

  // ----- server steps

  /** waitForClientReady: a SYN starts the transfer and is acknowledged; anything else is skipped. */
  function HearSyn(s: System, d: Datagram): System {
    if d.flags.syn && !d.flags.data && d.payload == [] then
      s.(server := s.server.(phase := Transmitting), toClient := s.toClient + {Ack(d.seqNum)})
    else s
  }

  /** sendChunk past its waiting loop: transmit the next piece and put it in the window. */
  function PushPiece(c: Config, s: System, at: real): System
    requires Admissible(c) && s.server.next < |c.pieces|
  {
    var n := s.server.next;
    var data, isFinal := c.pieces[n], n == Last(c);
    s.(server := s.server.(sender := Push(s.server.sender, n, data, isFinal, at), next := n + 1,
                           tries := s.server.tries + [1]),
       toClient := s.toClient + {DataPacket(n, data, isFinal)})
  }

  /** One datagram through the poll loop. */
  function HearReply(s: System, d: Datagram, now: real): System {
    if d.flags.data || d.payload != [] then s
    else if d.flags.nak then s.(server := s.server.(phase := Failed))
    else if !d.flags.ack then s
    else s.(server := s.server.(sender := OnAck(s.server.sender, d.ackNum, now)))
  }

  function ResendPiece(s: System, j: nat, at: real): System
    requires j < |s.server.sender.window|
  {
    var p := s.server.sender.window[j];
    s.(server := s.server.(sender := Resend(s.server.sender, j, at),
                           tries := if p.seqNum < |s.server.tries|
                                    then s.server.tries[p.seqNum := s.server.tries[p.seqNum] + 1]
                                    else s.server.tries),
       toClient := s.toClient + {PacketOf(p)})
  }

  // ----- client steps

  function HandOut(k: Client, r: R.ReceiverState, chunk: Chunk): Client {
    k.(phase := Holding(chunk), receiver := r, delivered := k.delivered + [chunk])
  }

  function HearData(s: System, d: Datagram, ackOk: bool): System {
    var x := R.Absorb(R.FinalAfterCommit, s.client.receiver.(kept := None), d, ackOk);
    s.(client := match x.done
                 case None => s.client.(receiver := x.state)
                 case Some(None) => s.client.(receiver := x.state, phase := Stopped(false))
                 case Some(Some(chunk)) => HandOut(s.client, x.state, chunk),
       toServer := s.toServer + set d | d in x.acks)
  }

  /** A chunk that is not wanted: a NAK that may or may not get out, then a false return. */
  function Reject(s: System, seqNum: nat, nakOk: bool): System {
    var x := R.Confirm(s.client.receiver, seqNum, false, nakOk);
    s.(client := s.client.(receiver := x.state, phase := Stopped(false)),
       toServer := s.toServer + set d | d in x.sent)
  }

  function Translation(c: Config, s: System, data: Data): Data {
    if c.ascii then Ascii.Normalize(data, s.client.carry) else data
  }

  function AppendHeld(c: Config, s: System, writeOk: bool, nakOk: bool): System
    requires s.client.phase.Holding?
  {
    var chunk := s.client.phase.chunk;
    var data := Translation(c, s, chunk.data);
    var s' := s.(client := s.client.(writer := AppendStep(s.client.writer, chunk.seqNum, data, writeOk),
                                     carry := Ascii.CarryAfter(chunk.data, s.client.carry)));
    if !CanAppend(s.client.writer, chunk.seqNum, data, writeOk) then Reject(s', chunk.seqNum, nakOk)
    else s'.(client := s'.client.(phase := if chunk.isFinal then Appended(chunk.seqNum) else Receiving))
  }

  function CommitAll(s: System, moveOk: bool, nakOk: bool): System
    requires s.client.phase.Appended?
  {
    var seqNum := s.client.phase.seqNum;
    var s' := s.(client := s.client.(writer := CommitStep(s.client.writer, moveOk)));
    if !CanCommit(s.client.writer, moveOk) then Reject(s', seqNum, nakOk)
    else s'.(client := s'.client.(phase := Saved(seqNum)))
  }

  function ConfirmSaved(s: System, ackOk: bool): System
    requires s.client.phase.Saved?
  {
    var x := R.Confirm(s.client.receiver, s.client.phase.seqNum, true, ackOk);
    s.(client := s.client.(receiver := x.state, phase := Stopped(x.ok)),
       toServer := s.toServer + set d | d in x.sent)
  }

  // ----- runs

  /** `actions` leads from `s` to `t`. */
  predicate Run(c: Config, s: System, actions: seq<Action>, t: System)
    requires Admissible(c)
    decreases |actions|
  {
    if actions == [] then s == t
    else Enabled(c, s, actions[0]) && Run(c, Next(c, s, actions[0]), actions[1..], t)
  }

  lemma {:induction false} RunAppend(c: Config, s: System, a: seq<Action>, t: System, b: seq<Action>, u: System)
    requires Admissible(c) && Run(c, s, a, t) && Run(c, t, b, u)
    ensures Run(c, s, a + b, u)
    decreases |a|
  {
    if a == [] {
      assert a + b == b;
    } else {
      RunAppend(c, Next(c, s, a[0]), a[1..], t, b, u);
      assert (a + b)[1..] == a[1..] + b;
    }
  }

  lemma RunOne(c: Config, s: System, a: Action)
    requires Admissible(c) && Enabled(c, s, a)
    ensures Run(c, s, [a], Next(c, s, a))
  {
    assert [a][1..] == [];
  }

  /** One side's steps in the given order; a step that is not possible, or not that side's, is skipped. */
  function Perform(c: Config, s: System, byServer: bool, actions: seq<Action>): (t: System)
    requires Admissible(c)
    ensures byServer ==> t == s.(server := t.server, toClient := t.toClient)
    ensures !byServer ==> t == s.(client := t.client, toServer := t.toServer)
    ensures s.toClient <= t.toClient && s.toServer <= t.toServer
    decreases |actions|
  {
    if actions == [] then s
    else if ByServer(actions[0]) == byServer && Enabled(c, s, actions[0]) then
      StepFrame(c, s, actions[0]);
      Perform(c, Next(c, s, actions[0]), byServer, actions[1..])
    else Perform(c, s, byServer, actions[1..])
  }

  lemma {:induction false} PerformIsRun(c: Config, s: System, byServer: bool, actions: seq<Action>)
    returns (done: seq<Action>)
    requires Admissible(c)
    ensures Run(c, s, done, Perform(c, s, byServer, actions))
    decreases |actions|
  {
    if actions == [] {
      done := [];
    } else if ByServer(actions[0]) == byServer && Enabled(c, s, actions[0]) {
      var u := Next(c, s, actions[0]);
      var rest := PerformIsRun(c, u, byServer, actions[1..]);
      RunOne(c, s, actions[0]);
      RunAppend(c, s, [actions[0]], u, rest, Perform(c, s, byServer, actions));
      done := [actions[0]] + rest;
    } else {
      done := PerformIsRun(c, s, byServer, actions[1..]);
    }
  }
}
