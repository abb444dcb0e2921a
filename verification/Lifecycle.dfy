/**
 * A control session of the server (server/src/control/CommandDispatcher.cpp) as a transition
 * system: the control thread executing commands and the transfer worker interleave at every access
 * to transferActive, abortRequested, the thread handle and the reply lock.
 */
module Lifecycle {
  import opened Bytes

  datatype UploadKind = Store | Unique | Append

  /** `payload` is what receiveFile would write; `path` identifies the destination. */
  datatype Job = Download | Upload(kind: UploadKind, path: nat, payload: Data)

  datatype Command = Pasv | Port | Transfer(job: Job) | BadPath | Abor | Other

  // ----- data endpoints

  datatype Owner = Pending | Transport | OwnedBy(worker: nat) | Nobody

  /** A data socket: who must close it, how often it was closed, how many transfers used it. */
  datatype Socket = Socket(owner: Owner, closes: nat, transfers: nat)

  datatype Mode = NoMode | Passive | Active

  // ----- the worker thread

  /** Where a worker is; it holds the reply lock from Finishing to Clearing. */
  datatype WorkerPc =
    | Working | Committing | Received | Appending | CleaningUp | Locking
    | Finishing | Replying | Clearing | Exiting | Terminated

  /**
   * `dataOk` is what became of the data phase: sendFile's result, or whether receiveFile came to its
   * commit; `before` is the destination when the worker started; `sawAbort` is finishTransfer's reading.
   */
  datatype Worker = Worker(job: Job, socket: nat, pc: WorkerPc, dataOk: bool, success: bool, sawAbort: bool,
                           before: Option<Data>, staging: Option<Data>)

  // ----- the control thread

  datatype ControlPc =
    | Idle
    | Dispatched(cmd: Command)
    | Handling(cmd: Command)
    | Resetting(job: Job, socket: nat)
    | Activating(job: Job, socket: nat)
    | Announcing(job: Job, socket: nat)
    | Spawning(job: Job, socket: nat)
    | Answering
    | AborAnswering
    | AborFlagging | AborJoining | AborClearing | AborReplying
    | ShutFlagging | ShutJoining | ShutClearing | Ended

  /**
   * The opening reply and the final ones. A worker's 226 or 426 records what the destination holds at
   * that moment; ABOR with no transfer in progress is answered with a 226 of its own.
   */
  datatype Event =
    | Opening
    | NoTransfer226
    | Complete226(worker: nat, contents: Option<Data>)
    | Failed426(worker: nat, contents: Option<Data>)
    | Aborted426(worker: nat)

  /** `abortFor` remembers which transfer the raised abort flag was meant for. */
  datatype Session = Session(control: ControlPc, active: bool, abort: bool, abortFor: Option<nat>,
                             handle: Option<nat>, lock: Option<nat>, mode: Mode, pending: Option<nat>,
                             sockets: seq<Socket>, workers: seq<Worker>, files: map<nat, Data>, log: seq<Event>)

  function Init(files: map<nat, Data>): Session {
    Session(Idle, false, false, None, None, None, NoMode, None, [], [], files, [])
  }

  function Lookup(files: map<nat, Data>, path: nat): Option<Data> {
    if path in files then Some(files[path]) else None
  }

  function Close(sockets: seq<Socket>, k: nat): (r: seq<Socket>)
    ensures |r| == |sockets|
  {
    if k < |sockets| then sockets[k := sockets[k].(owner := Nobody, closes := sockets[k].closes + 1)] else sockets
  }

  /** clearDataState */
  function ClearData(s: Session): Session {
    s.(sockets := if s.pending.Some? then Close(s.sockets, s.pending.value) else s.sockets,
       pending := None, mode := NoMode)
  }

  predicate IsUnique(job: Job) { job.Upload? && job.kind.Unique? }

  /** A reserved STOU file is removed when its transfer cannot start or fails. */
  function Unreserve(s: Session, job: Job): Session {
    if IsUnique(job) then s.(files := s.files - {job.path}) else s
  }

  /** What appendAtomically can do: `stream << rdbuf` fails when there is nothing to insert. */
  predicate CanAppendFile(dest: Option<Data>, payload: Data) {
    payload != [] && (dest.Some? ==> dest.value != [])
  }

  function Appended(dest: Option<Data>, payload: Data): Data {
    (if dest.Some? then dest.value else []) + payload
  }

  // ----- steps

  /** `ok` settles whatever the step cannot know: an open, a bind, a thread start, an I/O result. */
  datatype Action = Receive(cmd: Command) | Disconnect | Control(ok: bool) | Work(worker: nat, ok: bool)

  predicate Joinable(s: Session) {
    s.handle.Some? ==> s.handle.value < |s.workers| && s.workers[s.handle.value].pc.Terminated?
  }

  predicate ControlEnabled(s: Session) {
    match s.control
    case Idle => false
    case Ended => false
    case Dispatched(cmd) => !s.active ==> Joinable(s)
    case Handling(cmd) => cmd.Abor? && !s.active ==> Joinable(s)
    case Announcing(job, socket) => s.lock.None?
    case Answering => s.lock.None?
    case AborAnswering => s.lock.None?
    case AborReplying => s.lock.None?
    case AborJoining => Joinable(s)
    case ShutJoining => Joinable(s)
    case _ => true
  }

  predicate Enabled(s: Session, a: Action) {
    match a
    case Receive(cmd) => s.control.Idle?
    case Disconnect => s.control.Idle?
    case Control(ok) => ControlEnabled(s)
    case Work(w, ok) =>
      w < |s.workers| && !s.workers[w].pc.Terminated? && (s.workers[w].pc.Locking? ==> s.lock.None?)
  }

  function Next(s: Session, a: Action): Session
    requires Enabled(s, a)
  {
    match a
    case Receive(cmd) => s.(control := if s.active && !cmd.Abor? then Answering else Dispatched(cmd))
    case Disconnect => s.(control := ShutFlagging)
    case Control(ok) => ControlStep(s, ok)
    case Work(w, ok) => WorkerStep(s, w, ok)
  }

  function ControlStep(s: Session, ok: bool): Session
    requires ControlEnabled(s)
  {
    match s.control
    case Dispatched(cmd) => s.(handle := if s.active then s.handle else None, control := Handling(cmd))
    case Handling(cmd) => Handle(s, cmd, ok)
    case Resetting(job, k) => s.(abort := false, abortFor := None, control := Activating(job, k))
    case Activating(job, k) => s.(active := true, control := Announcing(job, k))
    case Announcing(job, k) => s.(log := s.log + [Opening], control := Spawning(job, k))
    case Spawning(job, k) => Spawn(s, job, k, ok)
    case Answering => s.(control := Idle)
    case AborAnswering => s.(log := s.log + [NoTransfer226], control := Idle)
    case AborFlagging => s.(abort := true, abortFor := Latest(s), control := AborJoining)
    case AborJoining => s.(handle := None, control := AborClearing)
    case AborClearing => ClearData(s).(active := false, control := AborReplying)
    case AborReplying =>
      s.(log := if s.workers == [] then s.log else s.log + [Aborted426(|s.workers| - 1)], control := Idle)
    case ShutFlagging => s.(abort := true, abortFor := Latest(s), control := ShutJoining)
    case ShutJoining => s.(handle := None, control := ShutClearing)
    case ShutClearing => ClearData(s).(active := false, control := Ended)
  }

  /** The transfer that the session started last. */
  function Latest(s: Session): Option<nat> { if s.workers == [] then None else Some(|s.workers| - 1) }

  /** The command handlers, after joinCompletedTransfer. */
  function Handle(s: Session, cmd: Command, ok: bool): Session {
    match cmd
    case Pasv =>
      var c := ClearData(s).(control := Idle);
      if ok then c.(sockets := c.sockets + [Socket(Pending, 0, 0)], pending := Some(|c.sockets|), mode := Passive)
      else c
    case Port => ClearData(s).(mode := if ok then Active else NoMode, control := Idle)
    case BadPath => ClearData(s).(control := Idle)
    case Other => s.(control := Idle)
    case Abor =>
      if s.active then s.(control := AborFlagging)
      else ClearData(s.(handle := None)).(control := AborAnswering)
    case Transfer(job) =>
      if IsUnique(job) && job.path in s.files then ClearData(s).(control := Idle)
      else Start(if IsUnique(job) then s.(files := s.files[job.path := []]) else s, job, ok)
  }

  /** startDownloadTransfer and startUploadTransfer up to the flags: take the endpoint, build the transport. */
  function Start(s: Session, job: Job, ok: bool): Session {
    if s.mode.NoMode? then Unreserve(s, job).(control := Answering)
    else
      var passive := s.mode.Passive? && s.pending.Some? && s.pending.value < |s.sockets|;
      var k := if passive then s.pending.value else |s.sockets|;
      var taken := if passive then s.sockets[k := s.sockets[k].(owner := Transport)]
                   else s.sockets + [Socket(Transport, 0, 0)];
      var t := s.(sockets := taken, pending := None, mode := NoMode);
      if ok then t.(control := Resetting(job, k))
      else Unreserve(t.(sockets := Close(taken, k)), job).(control := Answering)
  }

  function Spawn(s: Session, job: Job, k: nat, ok: bool): Session {
    if ok && k < |s.sockets| then
      var id := |s.workers|;
      var before := if job.Upload? then Lookup(s.files, job.path) else None;
      s.(workers := s.workers + [Worker(job, k, Working, false, false, false, before, None)], handle := Some(id),
         sockets := s.sockets[k := s.sockets[k].(owner := OwnedBy(id), transfers := s.sockets[k].transfers + 1)],
         control := Idle)
    else Unreserve(s.(active := false, sockets := Close(s.sockets, k)), job).(control := Answering)
  }

  function SetWorker(s: Session, w: nat, x: Worker): Session
    requires w < |s.workers|
  {
    s.(workers := s.workers[w := x])
  }

  function WorkerStep(s: Session, w: nat, ok: bool): Session
    requires w < |s.workers| && !s.workers[w].pc.Terminated?
  {
    var x := s.workers[w];
    match x.pc
    case Working => SetWorker(s, w, FinishReceiving(s, x, ok))
    case Committing => CommitReceived(s, w, ok)
    case Received =>
      SetWorker(s, w, x.(pc := if x.job.Upload? && x.job.kind.Append? && !s.abort then Appending else CleaningUp))
    case Appending => AppendReceived(s, w, ok)
    case CleaningUp =>
      SetWorker(if x.success then s else Unreserve(s, x.job), w, x.(staging := None, pc := Locking))
    case Locking => SetWorker(s.(lock := Some(w)), w, x.(pc := Finishing))
    case Finishing => SetWorker(s, w, x.(sawAbort := s.abort, pc := Replying))
    case Replying => SetWorker(s.(log := s.log + FinalReply(s, w)), w, x.(pc := Clearing))
    case Clearing => SetWorker(s.(active := false, lock := None), w, x.(pc := Exiting))
    case Exiting => SetWorker(s.(sockets := Close(s.sockets, x.socket)), w, x.(pc := Terminated))
  }

  /** The data phase; an upload checks the abort flag once more before it commits. */
  function FinishReceiving(s: Session, x: Worker, ok: bool): Worker {
    if x.job.Download? then x.(dataOk := ok, success := ok, pc := Locking)
    else if ok && !s.abort then x.(dataOk := ok, pc := Committing)
    else x.(dataOk := ok, success := false, pc := CleaningUp)
  }

  /** commit: the staging file of an append, the destination otherwise. */
  function CommitReceived(s: Session, w: nat, ok: bool): Session
    requires w < |s.workers|
  {
    var x := s.workers[w];
    if !ok || x.job.Download? then SetWorker(s, w, x.(success := false, pc := CleaningUp))
    else if x.job.kind.Append? then
      SetWorker(s, w, x.(success := true, staging := Some(x.job.payload), pc := Received))
    else
      SetWorker(s.(files := s.files[x.job.path := x.job.payload]), w, x.(success := true, pc := Received))
  }

  function AppendReceived(s: Session, w: nat, ok: bool): Session
    requires w < |s.workers|
  {
    var x := s.workers[w];
    if !ok || x.job.Download? || x.staging.None? then SetWorker(s, w, x.(success := false, pc := CleaningUp))
    else
      var dest := Lookup(s.files, x.job.path);
      if CanAppendFile(dest, x.staging.value) then
        SetWorker(s.(files := s.files[x.job.path := Appended(dest, x.staging.value)]), w, x.(pc := CleaningUp))
      else SetWorker(s, w, x.(success := false, pc := CleaningUp))
  }

  /** finishTransfer says nothing when it saw an abort. */
  function FinalReply(s: Session, w: nat): seq<Event>
    requires w < |s.workers|
  {
    var x := s.workers[w];
    var contents := if x.job.Upload? then Lookup(s.files, x.job.path) else None;
    if x.sawAbort then [] else if x.success then [Complete226(w, contents)] else [Failed426(w, contents)]
  }

  predicate Run(s: Session, actions: seq<Action>, t: Session)
    decreases |actions|
  {
    if actions == [] then s == t
    else Enabled(s, actions[0]) && Run(Next(s, actions[0]), actions[1..], t)
  }

  // ----- appendAtomically

  /**
   * appendAtomically over a fresh temporary: the old contents are streamed in, then the incoming
   * ones, and the result replaces the destination. The stream goes bad when it is given nothing.
   */
  method AppendAtomically(dest: Option<Data>, incoming: Data, tempOk: bool, readOk: bool, moveOk: bool)
    returns (ok: bool, result: Option<Data>)
    ensures ok <==> tempOk && readOk && moveOk && incoming != [] && dest != Some([])
    ensures ok ==> result.Some? &&
                   if dest.Some? then dest.value <= result.value && result.value[|dest.value|..] == incoming
                   else result.value == incoming
    ensures !ok ==> result == dest
    ensures ok ==> CanAppendFile(dest, incoming) && result == Some(Appended(dest, incoming))
  {
    result := dest;
    if !tempOk {
      return false, result;
    }
    var output := [];
    var good := true;
    if dest.Some? {
      output := dest.value;
      good := dest.value != [];
      if !readOk || !good {
        return false, result;
      }
    }
    output := output + incoming;
    good := incoming != [];
    if !readOk || !good || !moveOk {
      return false, result;
    }
    return true, Some(output);
  }
}
