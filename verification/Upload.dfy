/**
 * An upload (STOR, STOU, APPE) as a transition system: the client's sendFromReader over its
 * stop-and-wait sender, the server's receiveFile over its windowed receiver, and the same kind of
 * network as for downloads.
 */
module Upload {
  import opened Bytes
  import opened Datagrams
  import opened Readers
  import opened Writer
  import R = WindowedReceiver
  import W = StopAndWait
  import Ascii

  /** `active` transfers begin with the server's SYN; passive ones with the client's first chunk. */
  datatype Config = Config(pieces: seq<Data>, active: bool, ascii: bool, oldDest: Option<Data>)

  predicate Admissible(c: Config) {
    0 < |c.pieces| < 0x1_0000_0000 && forall i :: 0 <= i < |c.pieces| ==> |c.pieces[i]| <= CHUNK_SIZE
  }

  datatype ClientPhase = AwaitingSyn | Sending | Succeeded | Failed

  /** `current` is the chunk whose sendChunk has not returned; `attempts` counts its attempts. */
  datatype Client = Client(phase: ClientPhase, current: nat, attempts: nat, transmissions: nat)

  datatype ServerPhase = Handshaking | Receiving | Holding(chunk: Chunk) | Appended | Stopped(ok: bool)

  datatype Server = Server(phase: ServerPhase, receiver: R.ReceiverState, writer: WriterState, carry: bool,
                           delivered: seq<Chunk>)

  datatype System = System(client: Client, server: Server, toServer: set<Datagram>, toClient: set<Datagram>)

  function Init(c: Config): System {
    System(Client(if c.active then AwaitingSyn else Sending, 0, 0, 0),
           Server(if c.active then Handshaking else Receiving, R.FRESH, Open(c.oldDest, true), false, []), {}, {})
  }

  datatype Action =
    | ClientHearsSyn(d: Datagram)
    | ClientTransmits(sendOk: bool)
    | ClientHears(d: Datagram)
    | ClientFinishes
    | ClientGivesUp
    | ServerSendsSyn
    | ServerShakes(d: Datagram)
    | ServerTakesBuffered
    | ServerHears(d: Datagram, ackOk: bool)
    | ServerAppends(writeOk: bool)
    | ServerCommits(moveOk: bool)
    | ServerGivesUp

  predicate Listening(s: System) {
    s.server.phase.Receiving? && s.server.receiver.expected !in s.server.receiver.buffer
  }

  predicate Deliverable(s: System, d: Datagram) {
    match s.server.receiver.kept
    case Some(k) => d == k
    case None => d in s.toServer
  }

  predicate Enabled(c: Config, s: System, a: Action) {
    match a
    case ClientHearsSyn(d) => s.client.phase.AwaitingSyn? && d in s.toClient
    case ClientTransmits(sendOk) =>
      s.client.phase.Sending? && s.client.current < |c.pieces| && s.client.attempts < W.MAX_RETRIES
    case ClientHears(d) =>
      s.client.phase.Sending? && s.client.current < |c.pieces| && s.client.attempts > 0 && d in s.toClient
    case ClientFinishes => s.client.phase.Sending? && s.client.current == |c.pieces|
    case ClientGivesUp => s.client.phase.AwaitingSyn? || s.client.phase.Sending?
    case ServerSendsSyn => s.server.phase.Handshaking?
    case ServerShakes(d) => s.server.phase.Handshaking? && d in s.toServer && R.Answers(d)
    case ServerTakesBuffered => s.server.phase.Receiving? && s.server.receiver.expected in s.server.receiver.buffer
    case ServerHears(d, ackOk) => Listening(s) && Deliverable(s, d)
    case ServerAppends(writeOk) => s.server.phase.Holding?
    case ServerCommits(moveOk) => s.server.phase.Appended?
    case ServerGivesUp => !s.server.phase.Stopped?
  }

  function Next(c: Config, s: System, a: Action): System
    requires Enabled(c, s, a)
  {
    match a
    case ClientHearsSyn(d) =>
      if d.flags.syn && !d.flags.data && d.payload == [] then
        s.(client := s.client.(phase := Sending), toServer := s.toServer + {Ack(d.seqNum)})
      else s
    case ClientTransmits(sendOk) =>
      Transmit(c, s, sendOk)
    case ClientHears(d) =>
      if W.IsAckFor(d, s.client.current) then s.(client := s.client.(current := s.client.current + 1, attempts := 0))
      else s
    case ClientFinishes => s.(client := s.client.(phase := Succeeded))
    case ClientGivesUp => s.(client := s.client.(phase := Failed))
    case ServerSendsSyn => s.(toClient := s.toClient + {SYN})
    case ServerShakes(d) => s.(server := s.server.(phase := Receiving, receiver := R.KeepData(s.server.receiver, d)))
    case ServerTakesBuffered =>
      var (r, chunk) := R.TakeBuffered(s.server.receiver);
      s.(server := HandOut(s.server, r, chunk))
    case ServerHears(d, ackOk) => HearData(s, d, ackOk)
    case ServerAppends(writeOk) => AppendHeld(c, s, writeOk)
    case ServerCommits(moveOk) =>
      s.(server := s.server.(writer := CommitStep(s.server.writer, moveOk),
                             phase := Stopped(CanCommit(s.server.writer, moveOk))))
    case ServerGivesUp => s.(server := s.server.(phase := Stopped(false)))
  }

  /** One attempt of sendChunk. */
  function Transmit(c: Config, s: System, sendOk: bool): System
    requires s.client.current < |c.pieces|
  {
    var k := s.client.(attempts := s.client.attempts + 1);
    if sendOk then s.(client := k.(transmissions := k.transmissions + 1),
                      toServer := s.toServer + {PiecePacket(c.pieces, s.client.current)})
    else s.(client := k)
  }

  function HandOut(v: Server, r: R.ReceiverState, chunk: Chunk): Server {
    v.(phase := Holding(chunk), receiver := r, delivered := v.delivered + [chunk])
  }

  function HearData(s: System, d: Datagram, ackOk: bool): System {
    var x := R.Absorb(R.OnAcceptance, s.server.receiver.(kept := None), d, ackOk);
    s.(server := match x.done
                 case None => s.server.(receiver := x.state)
                 case Some(None) => s.server.(receiver := x.state, phase := Stopped(false))
                 case Some(Some(chunk)) => HandOut(s.server, x.state, chunk),
       toClient := s.toClient + set d | d in x.acks)
  }

  function AppendHeld(c: Config, s: System, writeOk: bool): System
    requires s.server.phase.Holding?
  {
    var chunk := s.server.phase.chunk;
    var data := if c.ascii then Ascii.Normalize(chunk.data, s.server.carry) else chunk.data;
    var v := s.server.(writer := AppendStep(s.server.writer, chunk.seqNum, data, writeOk),
                       carry := Ascii.CarryAfter(chunk.data, s.server.carry));
    s.(server := v.(phase := if !CanAppend(s.server.writer, chunk.seqNum, data, writeOk) then Stopped(false)
                             else if chunk.isFinal then Appended else Receiving))
  }

  predicate Run(c: Config, s: System, actions: seq<Action>, t: System)
    decreases |actions|
  {
    if actions == [] then s == t
    else Enabled(c, s, actions[0]) && Run(c, Next(c, s, actions[0]), actions[1..], t)
  }

  lemma {:induction false} RunAppend(c: Config, s: System, a: seq<Action>, t: System, b: seq<Action>, u: System)
    requires Run(c, s, a, t) && Run(c, t, b, u)
    ensures Run(c, s, a + b, u)
    decreases |a|
  {
    if a == [] {
      assert a + b == b;
    } else {
      RunAppend(c, Next(c, s, a[0]), a[1..], t, b, u);
      assert (a + b)[1..] == a[1..] + b;
    }
  }

  lemma RunOne(c: Config, s: System, a: Action)
    requires Enabled(c, s, a)
    ensures Run(c, s, [a], Next(c, s, a))
  {
    assert [a][1..] == [];
  }

  // ----- one side's steps

  predicate ByServer(a: Action) {
    a.ServerSendsSyn? || a.ServerShakes? || a.ServerTakesBuffered? || a.ServerHears? || a.ServerAppends? ||
    a.ServerCommits? || a.ServerGivesUp?
  }

  /** A step leaves the other side and what that side sent alone. */
  lemma StepFrame(c: Config, s: System, a: Action)
    requires Enabled(c, s, a)
    ensures var t := Next(c, s, a);
            s.toClient <= t.toClient && s.toServer <= t.toServer &&
            t == if ByServer(a) then s.(server := t.server, toClient := t.toClient)
                 else s.(client := t.client, toServer := t.toServer)
  {
  }

  /** One side's steps in the given order; a step that is not possible, or not that side's, is skipped. */
  function Perform(c: Config, s: System, byServer: bool, actions: seq<Action>): (t: System)
    ensures byServer ==> t == s.(server := t.server, toClient := t.toClient)
    ensures !byServer ==> t == s.(client := t.client, toServer := t.toServer)
    ensures s.toClient <= t.toClient && s.toServer <= t.toServer
    decreases |actions|
  {
    if actions == [] then s
    else if ByServer(actions[0]) == byServer && Enabled(c, s, actions[0]) then
      StepFrame(c, s, actions[0]);
      Perform(c, Next(c, s, actions[0]), byServer, actions[1..])
    else Perform(c, s, byServer, actions[1..])
  }

  lemma {:induction false} PerformIsRun(c: Config, s: System, byServer: bool, actions: seq<Action>)
    returns (done: seq<Action>)
    ensures Run(c, s, done, Perform(c, s, byServer, actions))
    decreases |actions|
  {
    if actions == [] {
      done := [];
    } else if ByServer(actions[0]) == byServer && Enabled(c, s, actions[0]) {
      var u := Next(c, s, actions[0]);
      var rest := PerformIsRun(c, u, byServer, actions[1..]);
      RunOne(c, s, actions[0]);
      RunAppend(c, s, [actions[0]], u, rest, Perform(c, s, byServer, actions));
      done := [actions[0]] + rest;
    } else {
      done := PerformIsRun(c, s, byServer, actions[1..]);
    }
  }
}
