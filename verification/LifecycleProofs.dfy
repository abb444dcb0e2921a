/** Safety of the control session under every interleaving of its two threads. */
module LifecycleProofs {
  import opened Bytes
  import opened Lifecycle

  // ----- invariants

  /** The worker has not yet cleared transferActive. */
  predicate Running(x: Worker) { !x.pc.Exiting? && !x.pc.Terminated? }

  /** Between taking the endpoint and handing it to a worker. */
  predicate Starting(pc: ControlPc) { pc.Resetting? || pc.Activating? || pc.Announcing? || pc.Spawning? }

  /** The control thread knows that no worker exists. */
  predicate Alone(pc: ControlPc) {
    Starting(pc) || pc.AborAnswering? || pc.AborClearing? || pc.AborReplying? || pc.ShutClearing? || pc.Ended? ||
    (pc.Handling? && !pc.cmd.Abor?)
  }

  /** Only the thread in the handle can be alive; transferActive tells exactly when it is at work. */
  ghost predicate Threads(s: Session) {
    (forall w :: 0 <= w < |s.workers| && !s.workers[w].pc.Terminated? ==> s.handle == Some(w)) &&
    (s.handle.Some? ==> s.handle.value == |s.workers| - 1) &&
    (s.active <==> (s.control.Announcing? || s.control.Spawning? ||
                    (s.handle.Some? && Running(s.workers[s.handle.value])))) &&
    (Alone(s.control) ==> s.handle.None?) &&
    (s.control.Dispatched? && !s.control.cmd.Abor? ==> !s.active) &&
    (s.control.AborFlagging? || s.control.AborJoining? ==> s.handle.Some?)
  }

  /** A raised abort flag that a worker can see was raised for that worker's transfer. */
  ghost predicate Aborts(s: Session) {
    (forall w :: 0 <= w < |s.workers| && !s.workers[w].pc.Terminated? && s.abort ==> s.abortFor == Some(w)) &&
    (s.control.Activating? || s.control.Announcing? || s.control.Spawning? ==> !s.abort)
  }

  predicate HoldsLock(pc: WorkerPc) { pc.Finishing? || pc.Replying? || pc.Clearing? }

  ghost predicate Locks(s: Session) {
    (s.lock.Some? ==> s.lock.value < |s.workers| && HoldsLock(s.workers[s.lock.value].pc)) &&
    (forall w :: 0 <= w < |s.workers| && HoldsLock(s.workers[w].pc) ==> s.lock == Some(w))
  }

  /** Each data socket has one owner until it is closed, once; each serves at most one transfer. */
  ghost predicate SocketOk(s: Session, k: nat)
    requires k < |s.sockets|
  {
    var x := s.sockets[k];
    x.closes == (if x.owner.Nobody? then 1 else 0) && x.transfers <= 1 &&
    (x.owner.Pending? <==> s.pending == Some(k)) &&
    (x.owner.Transport? <==> Starting(s.control) && s.control.socket == k) &&
    (x.owner.Pending? || x.owner.Transport? ==> x.transfers == 0) &&
    (x.owner.OwnedBy? ==> x.owner.worker < |s.workers| && s.workers[x.owner.worker].socket == k &&
                          !s.workers[x.owner.worker].pc.Terminated?)
  }

  ghost predicate Sockets(s: Session) {
    (s.mode.Passive? <==> s.pending.Some?) && (s.pending.Some? ==> s.pending.value < |s.sockets|) &&
    (Starting(s.control) ==> s.control.socket < |s.sockets|) &&
    (forall k :: 0 <= k < |s.sockets| ==> SocketOk(s, k)) &&
    (forall w :: 0 <= w < |s.workers| && !s.workers[w].pc.Terminated? ==>
       s.workers[w].socket < |s.sockets| && s.sockets[s.workers[w].socket].owner == OwnedBy(w))
  }

  /** What a successful upload leaves at its destination. */
  function Promised(x: Worker): Data
    requires x.job.Upload?
  {
    if x.job.kind.Append? then Appended(x.before, x.job.payload) else x.job.payload
  }

  /** An append that took effect had something to append, and to append it to. */
  predicate Appendable(x: Worker)
    requires x.job.Upload?
  {
    x.job.kind.Append? ==> CanAppendFile(x.before, x.job.payload)
  }

  ghost predicate Stored(s: Session, x: Worker)
    requires x.job.Upload?
  {
    Lookup(s.files, x.job.path) == Some(Promised(x))
  }

  /**
   * The destination of a live upload: untouched until the commit or append; afterwards `success`
   * means stored, except that an append skipped for an abort leaves `success` set and the flag up; and
   * a failure leaves the old contents, for STOU, once cleaned up, no file.
   */
  ghost predicate Outcome(s: Session, x: Worker)
    requires x.job.Upload?
  {
    var now := Lookup(s.files, x.job.path);
    match x.pc
    case Working => now == x.before
    case Committing => now == x.before
    case Received =>
      x.success && (if x.job.kind.Append? then now == x.before && x.staging == Some(x.job.payload) else Stored(s, x))
    case Appending => x.success && x.job.kind.Append? && now == x.before && x.staging == Some(x.job.payload)
    case Terminated => true
    case _ =>
      if x.success then (Stored(s, x) && Appendable(x)) || (x.job.kind.Append? && s.abort && now == x.before)
      else now == if x.job.kind.Unique? && !x.pc.CleaningUp? then None else x.before
  }

  ghost predicate Files(s: Session) {
    forall w :: 0 <= w < |s.workers| && s.workers[w].job.Upload? ==>
      Outcome(s, s.workers[w]) &&
      (s.workers[w].pc.Replying? && s.workers[w].success && !s.workers[w].sawAbort ==>
         Stored(s, s.workers[w]) && Appendable(s.workers[w]))
  }

  /** The final reply of worker `w`. */
  predicate IsReply(e: Event, w: nat) { (e.Failed426? || e.Complete226?) && e.worker == w }

  /** The worker of a transfer has sent its final reply. */
  ghost predicate Replied(log: seq<Event>, w: nat) {
    exists i :: 0 <= i < |log| && IsReply(log[i], w)
  }

  /** What a failed upload leaves at its destination. */
  function LeftBehind(x: Worker): Option<Data>
    requires x.job.Upload?
  {
    if x.job.kind.Unique? then None else x.before
  }

  ghost predicate EntryOk(s: Session, e: Event) {
    e.Complete226? ==>
      e.worker < |s.workers| && s.workers[e.worker].success &&
      (s.workers[e.worker].job.Upload? ==>
         e.contents == Some(Promised(s.workers[e.worker])) && Appendable(s.workers[e.worker]))
  }

  ghost predicate RefusalOk(s: Session, e: Event) {
    e.Failed426? ==>
      e.worker < |s.workers| && !s.workers[e.worker].success &&
      (s.workers[e.worker].job.Upload? ==> e.contents == LeftBehind(s.workers[e.worker]))
  }

  predicate PastReply(x: Worker) { x.pc.Clearing? || x.pc.Exiting? || x.pc.Terminated? }

  ghost predicate Log(s: Session) {
    (forall i :: 0 <= i < |s.log| ==> EntryOk(s, s.log[i]) && RefusalOk(s, s.log[i])) &&
    (forall w :: 0 <= w < |s.workers| ==>
       (Replied(s.log, w) <==> PastReply(s.workers[w]) && !s.workers[w].sawAbort)) &&
    (forall w: nat :: Replied(s.log, w) ==> w < |s.workers|) &&
    ReplyOnce(s.log)
  }

  /** No worker sends two final replies. */
  ghost predicate ReplyOnce(log: seq<Event>) {
    forall i, j, w: nat :: 0 <= i < j < |log| && IsReply(log[i], w) ==> !IsReply(log[j], w)
  }

  ghost predicate Inv(s: Session) {
    Threads(s) && Aborts(s) && Locks(s) && Sockets(s) && Files(s) && Log(s)
  }

  lemma InitInv(files: map<nat, Data>)
    ensures Inv(Init(files))
  {
  }

  // ----- what a worker step can change

  /** A worker step: the shared fields it leaves alone, and how its own position moves them. */
  ghost predicate WorkerMoved(s: Session, t: Session, w: nat) {
    w < |s.workers| == |t.workers| && !s.workers[w].pc.Terminated? &&
    t.control == s.control && t.handle == s.handle && t.abort == s.abort && t.abortFor == s.abortFor &&
    t.mode == s.mode && t.pending == s.pending &&
    (forall v :: 0 <= v < |s.workers| && v != w ==> t.workers[v] == s.workers[v]) &&
    var x, y := s.workers[w], t.workers[w];
    y.job == x.job && y.socket == x.socket && y.before == x.before &&
    t.active == (if x.pc.Clearing? then false else s.active) &&
    (x.pc.Clearing? ==> y.pc.Exiting? && t.lock == None) &&
    (x.pc.Locking? ==> y.pc.Finishing? && s.lock == None && t.lock == Some(w)) &&
    (!x.pc.Clearing? && !x.pc.Locking? ==> t.lock == s.lock && HoldsLock(y.pc) == HoldsLock(x.pc)) &&
    (if x.pc.Exiting? then y.pc.Terminated? && t.sockets == Close(s.sockets, x.socket)
     else !y.pc.Terminated? && t.sockets == s.sockets && (!x.pc.Clearing? ==> Running(y)))
  }

  /** A step of the data phase touches the worker's own record and the files. */
  lemma DataStepMoves(s: Session, t: Session, w: nat)
    requires w < |s.workers| == |t.workers| && t == SetWorker(s.(files := t.files), w, t.workers[w])
    requires var x, y := s.workers[w], t.workers[w];
             y == x.(pc := y.pc, dataOk := y.dataOk, success := y.success, staging := y.staging) &&
             Running(x) && Running(y) && !x.pc.Clearing? && !x.pc.Locking? && !HoldsLock(x.pc) && !HoldsLock(y.pc)
    ensures WorkerMoved(s, t, w)
  {
  }

  lemma WorkMoves(s: Session, w: nat, ok: bool)
    requires Enabled(s, Work(w, ok))
    ensures WorkerMoved(s, WorkerStep(s, w, ok), w)
  {
    var x, t := s.workers[w], WorkerStep(s, w, ok);
    if x.pc.Working? || x.pc.Committing? || x.pc.Received? || x.pc.Appending? || x.pc.CleaningUp? {
      DataStepShape(s, w, ok);
      DataStepMoves(s, t, w);
    } else {
      FinishStepMoves(s, w, ok);
    }
  }

  lemma DataStepShape(s: Session, w: nat, ok: bool)
    requires Enabled(s, Work(w, ok))
    requires var pc := s.workers[w].pc;
             pc.Working? || pc.Committing? || pc.Received? || pc.Appending? || pc.CleaningUp?
    ensures var t := WorkerStep(s, w, ok);
            var x := s.workers[w];
            |t.workers| == |s.workers| && t == SetWorker(s.(files := t.files), w, t.workers[w]) &&
            var y := t.workers[w];
            y == x.(pc := y.pc, dataOk := y.dataOk, success := y.success, staging := y.staging) &&
            !HoldsLock(y.pc) && Running(y)
  {
    match s.workers[w].pc
    case Working =>
    case Committing => CommitShape(s, w, ok);
    case Received =>
    case Appending => AppendShape(s, w, ok);
    case CleaningUp =>
  }

  lemma CommitShape(s: Session, w: nat, ok: bool)
    requires w < |s.workers|
    ensures var t := CommitReceived(s, w, ok);
            |t.workers| == |s.workers| && t == SetWorker(s.(files := t.files), w, t.workers[w]) &&
            var y := t.workers[w];
            y == s.workers[w].(pc := y.pc, success := y.success, staging := y.staging) &&
            (y.pc.CleaningUp? || y.pc.Received?)
  {
  }

  lemma AppendShape(s: Session, w: nat, ok: bool)
    requires w < |s.workers|
    ensures var t := AppendReceived(s, w, ok);
            |t.workers| == |s.workers| && t == SetWorker(s.(files := t.files), w, t.workers[w]) &&
            var y := t.workers[w];
            y == s.workers[w].(pc := y.pc, success := y.success, staging := y.staging) && y.pc.CleaningUp?
  {
  }

  lemma FinishStepMoves(s: Session, w: nat, ok: bool)
    requires Enabled(s, Work(w, ok))
    requires var pc := s.workers[w].pc; HoldsLock(pc) || pc.Locking? || pc.Exiting?
    ensures WorkerMoved(s, WorkerStep(s, w, ok), w)
  {
    match s.workers[w].pc
    case Locking =>
    case Finishing =>
    case Replying =>
    case Clearing =>
    case Exiting =>
  }

  lemma WorkKeepsThreads(s: Session, t: Session, w: nat)
    requires Threads(s) && Aborts(s) && Locks(s) && WorkerMoved(s, t, w)
    ensures Threads(t) && Aborts(t) && Locks(t)
  {
  }

  lemma WorkKeepsSockets(s: Session, t: Session, w: nat)
    requires Threads(s) && Sockets(s) && WorkerMoved(s, t, w)
    ensures Sockets(t)
  {
    var k := s.workers[w].socket;
    assert s.sockets[k].owner == OwnedBy(w) && SocketOk(s, k);
    forall j | 0 <= j < |t.sockets| ensures SocketOk(t, j) {
      assert SocketOk(s, j);
    }
  }

  // ----- control steps

  lemma ReceiveKeepsThreads(s: Session, a: Action)
    requires Threads(s) && Aborts(s) && Locks(s) && Enabled(s, a) && (a.Receive? || a.Disconnect?)
    ensures var t := Next(s, a); t == s.(control := t.control) && !Starting(t.control)
    ensures var t := Next(s, a); Threads(t) && Aborts(t) && Locks(t)
  {
  }

  /** The steps of a start leave the data endpoint alone. */
  lemma StartStepKeepsThreads(s: Session, ok: bool)
    requires Threads(s) && Aborts(s) && Locks(s) && ControlEnabled(s)
    requires s.control.Dispatched? || s.control.Resetting? || s.control.Activating? || s.control.Announcing? ||
             s.control.Answering? || s.control.AborAnswering?
    ensures var t := ControlStep(s, ok); Threads(t) && Aborts(t) && Locks(t)
  {
  }

  /** So do the flag, join and reply steps. */
  lemma FlagStepKeepsThreads(s: Session, ok: bool)
    requires Threads(s) && Aborts(s) && Locks(s) && ControlEnabled(s)
    requires s.control.AborFlagging? || s.control.AborJoining? || s.control.AborReplying? || s.control.ShutFlagging? ||
             s.control.ShutJoining?
    ensures var t := ControlStep(s, ok); Threads(t) && Aborts(t) && Locks(t)
  {
  }

  predicate Clears(pc: ControlPc) { pc.AborClearing? || pc.ShutClearing? }

  lemma ClearStepKeepsThreads(s: Session, ok: bool)
    requires Threads(s) && Aborts(s) && Locks(s) && Clears(s.control)
    ensures var t := ControlStep(s, ok); Threads(t) && Aborts(t) && Locks(t)
  {
  }

  lemma SpawnKeepsThreads(s: Session, ok: bool)
    requires Threads(s) && Aborts(s) && Locks(s) && s.control.Spawning?
    ensures var t := ControlStep(s, ok); Threads(t) && Aborts(t) && Locks(t)
  {
    var t := ControlStep(s, ok);
    assert forall w :: 0 <= w < |s.workers| ==> s.workers[w].pc.Terminated? && t.workers[w] == s.workers[w];
  }

  /** The handlers that start nothing. */
  lemma OtherHandlerShape(s: Session, ok: bool)
    requires s.control.Handling? && ControlEnabled(s) && !s.control.cmd.Transfer?
    ensures var t := ControlStep(s, ok);
            t == s.(control := t.control, handle := t.handle, sockets := t.sockets, pending := t.pending, mode := t.mode) &&
            !t.control.Resetting? &&
            (if s.control.cmd.Abor? then
               if s.active then t == s.(control := AborFlagging) else t.control.AborAnswering? && t.handle == None
             else t.handle == s.handle && t.control.Idle?)
  {
  }

  /** What a handler can do to the thread fields. */
  lemma HandlerShape(s: Session, ok: bool)
    requires s.control.Handling? && ControlEnabled(s)
    ensures var t := ControlStep(s, ok);
            t.workers == s.workers && t.active == s.active && t.abort == s.abort && t.abortFor == s.abortFor &&
            t.lock == s.lock && t.log == s.log &&
            (s.control.cmd.Abor? ==>
               t.files == s.files &&
               (if s.active then t == s.(control := AborFlagging) else t.control.AborAnswering? && t.handle == None)) &&
            (!s.control.cmd.Abor? ==>
               t.handle == s.handle && (t.control.Idle? || t.control.Answering? || t.control.Resetting?)) &&
            (t.files != s.files ==> s.control.cmd.Transfer? && t.control.Resetting?) &&
            (t.control.Resetting? ==>
               s.control.cmd == Transfer(t.control.job) &&
               t.files == if IsUnique(t.control.job) then s.files[t.control.job.path := []] else s.files)
  {
    if s.control.cmd.Transfer? {
      var job := s.control.cmd.job;
      TransferShape(s, job, ok);
    } else {
      OtherHandlerShape(s, ok);
    }
  }

  lemma TransferShape(s: Session, job: Job, ok: bool)
    requires s.control == Handling(Transfer(job))
    ensures var t := ControlStep(s, ok);
            t == s.(control := t.control, sockets := t.sockets, pending := t.pending, mode := t.mode, files := t.files) &&
            (t.control.Idle? || t.control.Answering? || (t.control.Resetting? && t.control.job == job)) &&
            t.files == if t.control.Resetting? && IsUnique(job) then s.files[job.path := []] else s.files
  {
    if !(IsUnique(job) && job.path in s.files) {
      StartShape(if IsUnique(job) then s.(files := s.files[job.path := []]) else s, job, ok);
      assert IsUnique(job) ==> s.files[job.path := []] - {job.path} == s.files;
    }
  }

  lemma StartShape(s: Session, job: Job, ok: bool)
    ensures var t := Start(s, job, ok);
            t == s.(control := t.control, sockets := t.sockets, pending := t.pending, mode := t.mode, files := t.files) &&
            (t.control.Answering? || (t.control.Resetting? && t.control.job == job)) &&
            t.files == if t.control.Answering? && IsUnique(job) then s.files - {job.path} else s.files
  {
  }

  /** A transfer whose worker cannot be started leaves no reserved file. */
  lemma UnstartedLeavesNothing(s: Session, ok: bool)
    requires s.control.Spawning? && ControlEnabled(s)
    ensures var t := ControlStep(s, ok);
            t.control.Idle? || (t.control.Answering? && t.workers == s.workers && !t.active &&
              t.files == if IsUnique(s.control.job) then s.files - {s.control.job.path} else s.files)
  {
  }

  lemma HandlerKeepsThreads(s: Session, ok: bool)
    requires Threads(s) && Aborts(s) && Locks(s) && s.control.Handling? && ControlEnabled(s)
    ensures var t := ControlStep(s, ok); Threads(t) && Aborts(t) && Locks(t)
  {
    HandlerShape(s, ok);
  }

  lemma ControlKeepsThreads(s: Session, ok: bool)
    requires Threads(s) && Aborts(s) && Locks(s) && ControlEnabled(s)
    ensures var t := ControlStep(s, ok); Threads(t) && Aborts(t) && Locks(t)
  {
    if s.control.Handling? {
      HandlerKeepsThreads(s, ok);
    } else if s.control.Spawning? {
      SpawnKeepsThreads(s, ok);
    } else if Clears(s.control) {
      ClearStepKeepsThreads(s, ok);
    } else if s.control.AborFlagging? || s.control.AborJoining? || s.control.AborReplying? ||
              s.control.ShutFlagging? || s.control.ShutJoining? {
      FlagStepKeepsThreads(s, ok);
    } else {
      StartStepKeepsThreads(s, ok);
    }
  }

  // ----- control steps: sockets

  /** Steps that leave the endpoint fields alone and do not enter or leave a start. */
  lemma SocketsFrame(s: Session, t: Session)
    requires Sockets(s) && t.sockets == s.sockets && t.workers == s.workers && t.mode == s.mode && t.pending == s.pending
    requires Starting(t.control) == Starting(s.control)
    requires Starting(s.control) ==> t.control.socket == s.control.socket
    ensures Sockets(t)
  {
    forall k | 0 <= k < |t.sockets| ensures SocketOk(t, k) { assert SocketOk(s, k); }
  }

  /** clearDataState closes the pending socket, if there is one. */
  lemma ClearKeepsSockets(s: Session, control: ControlPc)
    requires Sockets(s) && !Starting(s.control) && !Starting(control)
    ensures Sockets(ClearData(s).(control := control))
    ensures ClearData(s).pending == None && ClearData(s).mode == NoMode
  {
    var t := ClearData(s).(control := control);
    assert s.pending.Some? ==> SocketOk(s, s.pending.value);
    forall k | 0 <= k < |t.sockets| ensures SocketOk(t, k) { assert SocketOk(s, k); }
  }

  lemma PasvKeepsSockets(s: Session)
    requires Sockets(s) && s.control.Idle? && s.pending == None && s.mode == NoMode
    ensures Sockets(s.(sockets := s.sockets + [Socket(Pending, 0, 0)], pending := Some(|s.sockets|), mode := Passive))
  {
    var t := s.(sockets := s.sockets + [Socket(Pending, 0, 0)], pending := Some(|s.sockets|), mode := Passive);
    forall k | 0 <= k < |t.sockets| ensures SocketOk(t, k) {
      assert k < |s.sockets| ==> SocketOk(s, k);
    }
  }

  /** The starters take the pending socket, or open a fresh one, and give it up if the transport is bad. */
  lemma StartKeepsSockets(s: Session, job: Job, ok: bool)
    requires Sockets(s) && s.control.Handling?
    ensures Sockets(Start(s, job, ok))
  {
    var t := Start(s, job, ok);
    if !s.mode.NoMode? {
      assert s.pending.Some? ==> SocketOk(s, s.pending.value);
    }
    forall k | 0 <= k < |t.sockets| ensures SocketOk(t, k) {
      assert k < |s.sockets| ==> SocketOk(s, k);
    }
  }

  lemma SpawnKeepsSockets(s: Session, ok: bool)
    requires Threads(s) && Sockets(s) && s.control.Spawning?
    ensures Sockets(ControlStep(s, ok))
  {
    var t := ControlStep(s, ok);
    assert SocketOk(s, s.control.socket);
    forall k | 0 <= k < |t.sockets| ensures SocketOk(t, k) { assert SocketOk(s, k); }
  }

  lemma PortKeepsSockets(s: Session, ok: bool)
    requires Sockets(s) && s.pending == None
    ensures Sockets(s.(mode := if ok then Active else NoMode))
  {
    var t := s.(mode := if ok then Active else NoMode);
    forall k | 0 <= k < |t.sockets| ensures SocketOk(t, k) { assert SocketOk(s, k); }
  }

  lemma HandlerKeepsSockets(s: Session, ok: bool)
    requires Sockets(s) && s.control.Handling? && ControlEnabled(s)
    ensures Sockets(ControlStep(s, ok))
  {
    var t := ControlStep(s, ok);
    match s.control.cmd
    case Pasv =>
      ClearKeepsSockets(s, Idle);
      PasvKeepsSockets(ClearData(s).(control := Idle));
    case Port =>
      ClearKeepsSockets(s, Idle);
      PortKeepsSockets(ClearData(s).(control := Idle), ok);
    case BadPath => ClearKeepsSockets(s, Idle);
    case Other => SocketsFrame(s, t);
    case Abor =>
      if s.active {
        SocketsFrame(s, t);
      } else {
        SocketsFrame(s, s.(handle := None));
        ClearKeepsSockets(s.(handle := None), AborAnswering);
      }
    case Transfer(job) =>
      if IsUnique(job) && job.path in s.files {
        ClearKeepsSockets(s, Idle);
      } else {
        var u := if IsUnique(job) then s.(files := s.files[job.path := []]) else s;
        SocketsFrame(s, u);
        StartKeepsSockets(u, job, ok);
      }
  }

  lemma ControlKeepsSockets(s: Session, ok: bool)
    requires Threads(s) && Sockets(s) && ControlEnabled(s)
    ensures Sockets(ControlStep(s, ok))
  {
    if s.control.Handling? {
      HandlerKeepsSockets(s, ok);
    } else if s.control.Spawning? {
      SpawnKeepsSockets(s, ok);
    } else if Clears(s.control) {
      ClearKeepsSockets(s, ControlStep(s, ok).control);
      SocketsFrame(ClearData(s).(control := ControlStep(s, ok).control), ControlStep(s, ok));
    } else {
      SocketsFrame(s, ControlStep(s, ok));
    }
  }

  // ----- files and log

  /** With no worker alive there is no outcome to keep. */
  lemma NobodyAlive(s: Session)
    requires forall w :: 0 <= w < |s.workers| ==> s.workers[w].pc.Terminated?
    ensures Files(s)
  {
  }

  /** Raising the abort flag, or leaving it, disturbs no outcome. */
  lemma FlagKeepsFiles(s: Session, t: Session)
    requires Files(s) && t.files == s.files && t.workers == s.workers && (s.abort ==> t.abort)
    ensures Files(t)
  {
    forall w | 0 <= w < |t.workers| && t.workers[w].job.Upload? ensures Outcome(t, t.workers[w]) {
      FlagKeepsOutcome(s, t, s.workers[w]);
    }
  }

  lemma FlagKeepsOutcome(s: Session, t: Session, x: Worker)
    requires x.job.Upload? && Outcome(s, x) && t.files == s.files && (s.abort ==> t.abort)
    ensures Outcome(t, x)
  {
  }

  lemma SpawnKeepsFiles(s: Session, ok: bool)
    requires Threads(s) && s.control.Spawning?
    ensures Files(ControlStep(s, ok))
  {
  }

  /** What the remaining control steps leave alone. */
  lemma ControlShape(s: Session, ok: bool)
    requires ControlEnabled(s) && !s.control.Handling? && !s.control.Spawning?
    ensures var t := ControlStep(s, ok);
            t.files == s.files && t.workers == s.workers && (s.abort && !s.control.Resetting? ==> t.abort)
  {
  }

  lemma ControlKeepsFiles(s: Session, ok: bool)
    requires Threads(s) && Files(s) && ControlEnabled(s)
    ensures Files(ControlStep(s, ok))
  {
    var t := ControlStep(s, ok);
    if s.control.Spawning? {
      SpawnKeepsFiles(s, ok);
    } else if s.control.Handling? {
      HandlerShape(s, ok);
      if s.control.cmd.Abor? { FlagKeepsFiles(s, t); } else { NobodyAlive(t); }
    } else {
      ControlShape(s, ok);
      if s.control.Resetting? { NobodyAlive(t); } else { FlagKeepsFiles(s, t); }
    }
  }

  lemma {:induction false} RepliedExtends(log: seq<Event>, e: Event, w: nat)
    ensures Replied(log + [e], w) <==> Replied(log, w) || IsReply(e, w)
  {
    if Replied(log, w) {
      var i :| 0 <= i < |log| && IsReply(log[i], w);
      assert (log + [e])[i] == log[i];
    }
    assert (log + [e])[|log|] == e;
  }

  predicate Quiet(e: Event) { e.Opening? || e.NoTransfer226? || e.Aborted426? }

  /** The control thread adds no final reply of a worker and at most one worker, at its beginning. */
  ghost predicate LogQuiet(s: Session, t: Session) {
    s.workers <= t.workers && (forall w :: |s.workers| <= w < |t.workers| ==> !PastReply(t.workers[w])) &&
    (t.log == s.log || exists e: Event :: Quiet(e) && t.log == s.log + [e])
  }

  lemma ControlIsQuiet(s: Session, ok: bool)
    requires ControlEnabled(s)
    ensures LogQuiet(s, ControlStep(s, ok))
  {
    var t := ControlStep(s, ok);
    if s.control.Handling? {
      HandlerShape(s, ok);
    } else if s.control.Announcing? {
      assert t.log == s.log + [Opening];
    } else if s.control.AborAnswering? {
      assert t.log == s.log + [NoTransfer226];
    } else if s.control.AborReplying? {
      assert s.workers != [] ==> t.log == s.log + [Aborted426(|s.workers| - 1)];
    }
  }

  lemma QuietKeepsLog(s: Session, t: Session)
    requires Log(s) && LogQuiet(s, t)
    ensures Log(t)
  {
    forall w: nat ensures Replied(t.log, w) == Replied(s.log, w) {
      if t.log != s.log {
        var e: Event :| Quiet(e) && t.log == s.log + [e];
        RepliedExtends(s.log, e, w);
      }
    }
    forall i | 0 <= i < |t.log| ensures EntryOk(t, t.log[i]) && RefusalOk(t, t.log[i]) {
      assert i < |s.log| ==> EntryOk(s, s.log[i]) && RefusalOk(s, s.log[i]);
    }
  }

  lemma ReceiveKeeps(s: Session, a: Action)
    requires Inv(s) && Enabled(s, a) && (a.Receive? || a.Disconnect?)
    ensures Inv(Next(s, a))
  {
    var t := Next(s, a);
    ReceiveKeepsThreads(s, a);
    SocketsFrame(s, t);
    FlagKeepsFiles(s, t);
    QuietKeepsLog(s, t);
  }

  lemma ControlKeeps(s: Session, ok: bool)
    requires Inv(s) && ControlEnabled(s)
    ensures Inv(ControlStep(s, ok))
  {
    ControlKeepsThreads(s, ok);
    ControlKeepsSockets(s, ok);
    ControlKeepsFiles(s, ok);
    ControlIsQuiet(s, ok);
    QuietKeepsLog(s, ControlStep(s, ok));
  }

  // ----- worker steps: files and log

  lemma OthersTerminated(s: Session, w: nat)
    requires Threads(s) && w < |s.workers| && !s.workers[w].pc.Terminated?
    ensures forall v :: 0 <= v < |s.workers| && v != w ==> s.workers[v].pc.Terminated?
  {
  }

  /** finishTransfer's reading decides: with the flag down, success means stored. */
  lemma ReadingDecides(s: Session, w: nat, ok: bool)
    requires Enabled(s, Work(w, ok)) && s.workers[w].job.Upload? && Outcome(s, s.workers[w])
    ensures var t := WorkerStep(s, w, ok);
            w < |t.workers| && t.workers[w].job.Upload? &&
            (t.workers[w].pc.Replying? && t.workers[w].success && !t.workers[w].sawAbort ==>
               Stored(t, t.workers[w]) && Appendable(t.workers[w]))
  {
    var t := WorkerStep(s, w, ok);
    WorkMoves(s, w, ok);
    if !s.workers[w].pc.Finishing? {
      OnlyFinishingReads(s, w, ok);
    } else {
      assert t.workers[w] == s.workers[w].(sawAbort := s.abort, pc := Replying) && t.files == s.files;
    }
  }

  lemma OnlyFinishingReads(s: Session, w: nat, ok: bool)
    requires Enabled(s, Work(w, ok)) && !s.workers[w].pc.Finishing?
    ensures var t := WorkerStep(s, w, ok); w < |t.workers| && !t.workers[w].pc.Replying?
  {
    var pc := s.workers[w].pc;
    if InDataPhase(pc) || pc.CleaningUp? {
      DataStepShape(s, w, ok);
    }
  }

  lemma WorkKeepsFiles(s: Session, w: nat, ok: bool)
    requires Threads(s) && Files(s) && Enabled(s, Work(w, ok))
    ensures Files(WorkerStep(s, w, ok))
  {
    var t := WorkerStep(s, w, ok);
    WorkMoves(s, w, ok);
    OthersTerminated(s, w);
    if s.workers[w].job.Upload? {
      OutcomeStep(s, w, ok);
      ReadingDecides(s, w, ok);
    }
    FilesFrame(s, t, w);
  }

  lemma FilesFrame(s: Session, t: Session, w: nat)
    requires Files(s) && WorkerMoved(s, t, w)
    requires forall v :: 0 <= v < |s.workers| && v != w ==> s.workers[v].pc.Terminated?
    requires t.workers[w].job.Upload? ==>
      Outcome(t, t.workers[w]) &&
      (t.workers[w].pc.Replying? && t.workers[w].success && !t.workers[w].sawAbort ==>
         Stored(t, t.workers[w]) && Appendable(t.workers[w]))
    ensures Files(t)
  {
  }

  predicate InDataPhase(pc: WorkerPc) {
    pc.Working? || pc.Committing? || pc.Received? || pc.Appending?
  }

  lemma DataOutcome(s: Session, w: nat, ok: bool)
    requires Enabled(s, Work(w, ok)) && s.workers[w].job.Upload? && Outcome(s, s.workers[w])
    requires InDataPhase(s.workers[w].pc)
    ensures var t := WorkerStep(s, w, ok); w < |t.workers| && t.workers[w].job.Upload? && Outcome(t, t.workers[w])
  {
    match s.workers[w].pc
    case Committing => CommitOutcome(s, w, ok);
    case Appending => AppendOutcome(s, w, ok);
    case _ =>
  }

  lemma CommitOutcome(s: Session, w: nat, ok: bool)
    requires w < |s.workers| && s.workers[w].job.Upload? && s.workers[w].pc.Committing? && Outcome(s, s.workers[w])
    ensures var t := CommitReceived(s, w, ok); w < |t.workers| && t.workers[w].job.Upload? && Outcome(t, t.workers[w])
  {
  }

  lemma AppendOutcome(s: Session, w: nat, ok: bool)
    requires w < |s.workers| && s.workers[w].job.Upload? && s.workers[w].pc.Appending? && Outcome(s, s.workers[w])
    ensures var t := AppendReceived(s, w, ok); w < |t.workers| && t.workers[w].job.Upload? && Outcome(t, t.workers[w])
  {
  }

  lemma FinishOutcome(s: Session, w: nat, ok: bool)
    requires Enabled(s, Work(w, ok)) && s.workers[w].job.Upload? && Outcome(s, s.workers[w])
    requires !InDataPhase(s.workers[w].pc)
    ensures var t := WorkerStep(s, w, ok); w < |t.workers| && t.workers[w].job.Upload? && Outcome(t, t.workers[w])
  {
    if s.workers[w].pc.CleaningUp? {
      CleanUpOutcome(s, w, ok);
    } else {
      FinishKeepsFiles(s, w, ok);
      LateOutcome(s, WorkerStep(s, w, ok), s.workers[w], WorkerStep(s, w, ok).workers[w]);
    }
  }

  /** Past its clean-up a worker's outcome depends on the files and the flag alone. */
  lemma LateOutcome(s: Session, t: Session, x: Worker, y: Worker)
    requires x.job.Upload? && Outcome(s, x) && t.files == s.files && t.abort == s.abort
    requires y == x.(pc := y.pc, sawAbort := y.sawAbort)
    requires !InDataPhase(x.pc) && !x.pc.CleaningUp? && !x.pc.Terminated? && !InDataPhase(y.pc) && !y.pc.CleaningUp?
    ensures Outcome(t, y)
  {
  }

  lemma CleanUpOutcome(s: Session, w: nat, ok: bool)
    requires w < |s.workers| && s.workers[w].job.Upload? && s.workers[w].pc.CleaningUp? && Outcome(s, s.workers[w])
    ensures var t := WorkerStep(s, w, ok);
            |t.workers| == |s.workers| && t.workers[w] == s.workers[w].(staging := None, pc := Locking) && t.abort == s.abort &&
            t.files == (if s.workers[w].success || !s.workers[w].job.kind.Unique? then s.files
                        else s.files - {s.workers[w].job.path}) &&
            Outcome(t, t.workers[w])
  {
  }

  /** From the lock on the worker leaves the files alone. */
  lemma FinishKeepsFiles(s: Session, w: nat, ok: bool)
    requires Enabled(s, Work(w, ok)) && !InDataPhase(s.workers[w].pc) && !s.workers[w].pc.CleaningUp?
    ensures var t := WorkerStep(s, w, ok);
            t.files == s.files && t.abort == s.abort && w < |t.workers| &&
            var x, y := s.workers[w], t.workers[w];
            y == x.(pc := y.pc, sawAbort := y.sawAbort) && !InDataPhase(y.pc) && !y.pc.CleaningUp?
  {
    FinishWorker(s, w, ok);
    FinishFiles(s, w, ok);
  }

  lemma FinishFiles(s: Session, w: nat, ok: bool)
    requires Enabled(s, Work(w, ok)) && !InDataPhase(s.workers[w].pc) && !s.workers[w].pc.CleaningUp?
    ensures var t := WorkerStep(s, w, ok); t.files == s.files && t.abort == s.abort
  {
  }

  /** The one live upload keeps its outcome promise through each of its steps. */
  lemma OutcomeStep(s: Session, w: nat, ok: bool)
    requires Enabled(s, Work(w, ok)) && s.workers[w].job.Upload? && Outcome(s, s.workers[w])
    ensures var t := WorkerStep(s, w, ok); w < |t.workers| && t.workers[w].job.Upload? && Outcome(t, t.workers[w])
  {
    if InDataPhase(s.workers[w].pc) {
      DataOutcome(s, w, ok);
    } else {
      FinishOutcome(s, w, ok);
    }
  }

  /** Only the Replying step writes to the log. */
  lemma ReplyShape(s: Session, w: nat, ok: bool)
    requires Enabled(s, Work(w, ok))
    ensures var t := WorkerStep(s, w, ok);
            var x := s.workers[w];
            |t.workers| == |s.workers| && t.log == (if x.pc.Replying? then s.log + FinalReply(s, w) else s.log) &&
            var y := t.workers[w];
            (PastReply(y) <==> PastReply(x) || x.pc.Replying?) &&
            (PastReply(y) ==> y.sawAbort == x.sawAbort && y.success == x.success)
  {
    var pc := s.workers[w].pc;
    if InDataPhase(pc) || pc.CleaningUp? {
      DataStepShape(s, w, ok);
      assert WorkerStep(s, w, ok).log == s.log;
    } else {
      FinishReplyShape(s, w, ok);
    }
  }

  lemma FinishReplyShape(s: Session, w: nat, ok: bool)
    requires Enabled(s, Work(w, ok)) && !InDataPhase(s.workers[w].pc) && !s.workers[w].pc.CleaningUp?
    ensures var t := WorkerStep(s, w, ok);
            var x := s.workers[w];
            |t.workers| == |s.workers| && t.log == (if x.pc.Replying? then s.log + FinalReply(s, w) else s.log) &&
            var y := t.workers[w];
            (PastReply(y) <==> PastReply(x) || x.pc.Replying?) &&
            (PastReply(y) ==> y.sawAbort == x.sawAbort && y.success == x.success)
  {
    FinishLog(s, w, ok);
    FinishWorker(s, w, ok);
  }

  lemma FinishLog(s: Session, w: nat, ok: bool)
    requires Enabled(s, Work(w, ok)) && !InDataPhase(s.workers[w].pc) && !s.workers[w].pc.CleaningUp?
    ensures WorkerStep(s, w, ok).log == if s.workers[w].pc.Replying? then s.log + FinalReply(s, w) else s.log
  {
  }

  lemma FinishWorker(s: Session, w: nat, ok: bool)
    requires Enabled(s, Work(w, ok)) && !InDataPhase(s.workers[w].pc) && !s.workers[w].pc.CleaningUp?
    ensures var t, x := WorkerStep(s, w, ok), s.workers[w];
            t.workers == s.workers[w := x.(pc := AfterFinish(x.pc), sawAbort := if x.pc.Finishing? then s.abort else x.sawAbort)]
  {
    match s.workers[w].pc
    case Locking =>
    case Finishing =>
    case Replying =>
    case Clearing =>
    case Exiting =>
  }

  lemma WorkKeepsLog(s: Session, w: nat, ok: bool)
    requires Threads(s) && Files(s) && Log(s) && Enabled(s, Work(w, ok))
    ensures Log(WorkerStep(s, w, ok))
  {
    var t := WorkerStep(s, w, ok);
    var x := s.workers[w];
    WorkMoves(s, w, ok);
    ReplyShape(s, w, ok);
    if x.pc.Replying? && !x.sawAbort {
      var e := FinalReply(s, w)[0];
      assert t.log == s.log + [e];
      forall v: nat ensures Replied(t.log, v) <==> Replied(s.log, v) || v == w {
        RepliedExtends(s.log, e, v);
      }
    } else {
      assert t.log == s.log;
    }
    forall i | 0 <= i < |t.log| ensures EntryOk(t, t.log[i]) && RefusalOk(t, t.log[i]) {
      if i < |s.log| {
        assert EntryOk(s, s.log[i]) && RefusalOk(s, s.log[i]);
        assert s.log[i].Complete226? || s.log[i].Failed426? ==>
                 IsReply(s.log[i], s.log[i].worker) && Replied(s.log, s.log[i].worker);
      }
    }
  }

  lemma StepKeeps(s: Session, a: Action)
    requires Inv(s) && Enabled(s, a)
    ensures Inv(Next(s, a))
  {
    match a
    case Receive(cmd) => ReceiveKeeps(s, a);
    case Disconnect => ReceiveKeeps(s, a);
    case Control(ok) => ControlKeeps(s, ok);
    case Work(w, ok) =>
      WorkMoves(s, w, ok);
      WorkKeepsThreads(s, Next(s, a), w);
      WorkKeepsSockets(s, Next(s, a), w);
      WorkKeepsFiles(s, w, ok);
      WorkKeepsLog(s, w, ok);
  }

  lemma {:induction false} RunKeeps(s: Session, actions: seq<Action>, t: Session)
    requires Inv(s) && Run(s, actions, t)
    ensures Inv(t)
    decreases |actions|
  {
    if actions != [] {
      StepKeeps(s, actions[0]);
      RunKeeps(Next(s, actions[0]), actions[1..], t);
    }
  }

  // ----- theorems

  /**
   * Under every interleaving with ABOR, a 226 for an upload says that the destination held exactly
   * the payload at that moment; for APPE, the old contents followed by the payload.
   */
  lemma CompleteMeansStored(files: map<nat, Data>, actions: seq<Action>, t: Session, i: nat)
    requires Run(Init(files), actions, t)
    requires i < |t.log| && t.log[i].Complete226?
    ensures t.log[i].worker < |t.workers| && t.workers[t.log[i].worker].success
    ensures var x := t.workers[t.log[i].worker];
            x.job.Upload? ==>
              t.log[i].contents ==
              Some(if x.job.kind.Append? && x.before.Some? then x.before.value + x.job.payload else x.job.payload)
    ensures var x := t.workers[t.log[i].worker];
            x.job.Upload? && x.job.kind.Append? ==> x.job.payload != [] && x.before != Some([])
  {
    InitInv(files);
    RunKeeps(Init(files), actions, t);
    assert EntryOk(t, t.log[i]);
    var job := t.workers[t.log[i].worker].job;
    assert job.Upload? ==> [] + job.payload == job.payload;
  }

  /**
   * A 426 of a worker comes from a transfer that failed; for an upload the destination then held what it
   * held when the worker started, and for STOU there was no file.
   */
  lemma FailedMeansUnchanged(files: map<nat, Data>, actions: seq<Action>, t: Session, i: nat)
    requires Run(Init(files), actions, t)
    requires i < |t.log| && t.log[i].Failed426?
    ensures t.log[i].worker < |t.workers| && !t.workers[t.log[i].worker].success
    ensures var x := t.workers[t.log[i].worker];
            x.job.Upload? ==> t.log[i].contents == if x.job.kind.Unique? then None else x.before
  {
    InitInv(files);
    RunKeeps(Init(files), actions, t);
    assert RefusalOk(t, t.log[i]);
  }

  /** Success needs a data phase that went well, and for a download that is all it needs. */
  predicate DataOk(x: Worker) {
    if x.pc.Working? then !x.success
    else (x.success || x.pc.Committing? ==> x.dataOk) &&
         (x.job.Download? ==> (x.success <==> x.dataOk) && !InDataPhase(x.pc) && !x.pc.CleaningUp?)
  }

  ghost predicate DataDecides(s: Session) { forall w :: 0 <= w < |s.workers| ==> DataOk(s.workers[w]) }

  lemma DataStepKeepsOk(s: Session, w: nat, ok: bool)
    requires Enabled(s, Work(w, ok)) && DataOk(s.workers[w])
    requires InDataPhase(s.workers[w].pc) || s.workers[w].pc.CleaningUp?
    ensures var t := WorkerStep(s, w, ok); w < |t.workers| && DataOk(t.workers[w])
  {
    match s.workers[w].pc
    case Committing => CommitKeepsOk(s, w, ok);
    case Appending => AppendKeepsOk(s, w, ok);
    case _ =>
  }

  lemma CommitKeepsOk(s: Session, w: nat, ok: bool)
    requires w < |s.workers| && s.workers[w].pc.Committing? && DataOk(s.workers[w])
    ensures var t := CommitReceived(s, w, ok); w < |t.workers| && DataOk(t.workers[w])
  {
  }

  lemma AppendKeepsOk(s: Session, w: nat, ok: bool)
    requires w < |s.workers| && s.workers[w].pc.Appending? && DataOk(s.workers[w])
    ensures var t := AppendReceived(s, w, ok); w < |t.workers| && DataOk(t.workers[w])
  {
  }

  lemma WorkKeepsOk(s: Session, w: nat, ok: bool)
    requires Enabled(s, Work(w, ok)) && DataOk(s.workers[w])
    ensures var t := WorkerStep(s, w, ok); w < |t.workers| && DataOk(t.workers[w])
  {
    var pc := s.workers[w].pc;
    if InDataPhase(pc) || pc.CleaningUp? {
      DataStepKeepsOk(s, w, ok);
    } else {
      FinishKeepsFiles(s, w, ok);
    }
  }

  lemma StepKeepsData(s: Session, a: Action)
    requires DataDecides(s) && Enabled(s, a)
    ensures DataDecides(Next(s, a))
  {
    var t := Next(s, a);
    if a.Work? {
      WorkMoves(s, a.worker, a.ok);
      WorkKeepsOk(s, a.worker, a.ok);
    } else if a.Control? {
      if s.control.Handling? {
        HandlerShape(s, a.ok);
      } else if !s.control.Spawning? {
        ControlShape(s, a.ok);
      }
    }
    forall v | 0 <= v < |t.workers| ensures DataOk(t.workers[v]) {
      assert v < |s.workers| ==> DataOk(s.workers[v]);
    }
  }

  /** A commit or an append that is in trouble ends in failure, the files untouched. */
  lemma TroubleMeansFailure(s: Session, w: nat)
    requires Enabled(s, Work(w, false)) && (s.workers[w].pc.Committing? || s.workers[w].pc.Appending?)
    ensures var t := WorkerStep(s, w, false);
            w < |t.workers| && !t.workers[w].success && t.workers[w].pc.CleaningUp? && t.files == s.files
  {
  }

  lemma {:induction false} RunKeepsData(s: Session, actions: seq<Action>, t: Session)
    requires DataDecides(s) && Run(s, actions, t)
    ensures DataDecides(t)
    decreases |actions|
  {
    if actions != [] {
      StepKeepsData(s, actions[0]);
      RunKeepsData(Next(s, actions[0]), actions[1..], t);
    }
  }

  /**
   * Which final reply a worker sends, for a download as for an upload: once it is past its reply, there
   * is a 226 of its own exactly when the transfer succeeded and the abort flag was read down, a 426
   * exactly when it failed and the flag was read down, and otherwise neither; it never sends two. A
   * download has succeeded exactly when its data phase did, an upload only if it did.
   */
  lemma ReplyTellsOutcome(files: map<nat, Data>, actions: seq<Action>, t: Session, w: nat)
    requires Run(Init(files), actions, t)
    requires w < |t.workers|
    requires t.workers[w].pc.Clearing? || t.workers[w].pc.Exiting? || t.workers[w].pc.Terminated?
    ensures var x := t.workers[w];
            && ((exists i :: 0 <= i < |t.log| && t.log[i].Complete226? && t.log[i].worker == w) <==> x.success && !x.sawAbort)
            && ((exists i :: 0 <= i < |t.log| && t.log[i].Failed426? && t.log[i].worker == w) <==> !x.success && !x.sawAbort)
    ensures forall i, j :: 0 <= i < j < |t.log| && IsReply(t.log[i], w) ==> !IsReply(t.log[j], w)
    ensures var x := t.workers[w]; (x.success ==> x.dataOk) && (x.job.Download? ==> (x.success <==> x.dataOk))
  {
    InitInv(files);
    RunKeeps(Init(files), actions, t);
    RunKeepsData(Init(files), actions, t);
    forall i | 0 <= i < |t.log| && (t.log[i].Complete226? || t.log[i].Failed426?) && t.log[i].worker == w
      ensures !t.workers[w].sawAbort && (t.log[i].Complete226? <==> t.workers[w].success)
    {
      assert IsReply(t.log[i], w) && Replied(t.log, w) && EntryOk(t, t.log[i]) && RefusalOk(t, t.log[i]);
    }
    if !t.workers[w].sawAbort {
      var i :| 0 <= i < |t.log| && IsReply(t.log[i], w);
    }
  }

  /** The 226 of an ABOR that finds nothing to abort is sent with no worker alive. */
  lemma IdleAnswerMeansIdle(files: map<nat, Data>, actions: seq<Action>, t: Session)
    requires Run(Init(files), actions, t) && t.control.AborAnswering?
    ensures !t.active && forall w :: 0 <= w < |t.workers| ==> t.workers[w].pc.Terminated?
  {
    InitInv(files);
    RunKeeps(Init(files), actions, t);
  }

  /** A thread handle is assigned only when it is not joinable, and then no worker is alive. */
  lemma HandleNeverOverwritten(files: map<nat, Data>, actions: seq<Action>, t: Session)
    requires Run(Init(files), actions, t) && t.control.Spawning?
    ensures t.handle == None && forall w :: 0 <= w < |t.workers| ==> t.workers[w].pc.Terminated?
  {
    InitInv(files);
    RunKeeps(Init(files), actions, t);
  }

  /** The abort flag is never lowered while a worker is alive, and a worker sees only its own abort. */
  lemma AbortFlagIsOwn(files: map<nat, Data>, actions: seq<Action>, t: Session, a: Action, w: nat)
    requires Run(Init(files), actions, t) && Enabled(t, a)
    requires w < |t.workers| && !t.workers[w].pc.Terminated?
    ensures t.abort ==> t.abortFor == Some(w) && Next(t, a).abort
    ensures forall v :: 0 <= v < |t.workers| && !t.workers[v].pc.Terminated? ==> v == w
  {
    InitInv(files);
    RunKeeps(Init(files), actions, t);
    if a.Work? {
      WorkMoves(t, a.worker, a.ok);
    } else if a.Control? && t.control.Handling? {
      HandlerShape(t, a.ok);
    }
  }

  /** Passive mode is exactly having a pending data socket. */
  lemma PassiveMeansPending(files: map<nat, Data>, actions: seq<Action>, t: Session)
    requires Run(Init(files), actions, t)
    ensures t.mode.Passive? <==> t.pending.Some?
  {
    InitInv(files);
    RunKeeps(Init(files), actions, t);
  }

  /** Every data socket serves at most one transfer and is closed at most once; at the end, exactly once. */
  lemma SocketsClosedOnce(files: map<nat, Data>, actions: seq<Action>, t: Session, k: nat)
    requires Run(Init(files), actions, t) && k < |t.sockets|
    ensures t.sockets[k].transfers <= 1
    ensures t.sockets[k].closes == if t.sockets[k].owner.Nobody? then 1 else 0
    ensures t.control.Ended? ==> t.sockets[k].closes == 1
  {
    InitInv(files);
    RunKeeps(Init(files), actions, t);
    assert SocketOk(t, k);
    EndedHasNoPending(Init(files), actions, t);
  }

  lemma EndsWithoutPending(s: Session, a: Action)
    requires Enabled(s, a) && (s.control.Ended? ==> s.pending == None)
    ensures Next(s, a).control.Ended? ==> Next(s, a).pending == None
  {
    if a.Work? {
      WorkMoves(s, a.worker, a.ok);
    } else if a.Control? && s.control.Handling? {
      HandlerShape(s, a.ok);
    }
  }

  lemma {:induction false} EndedHasNoPending(s: Session, actions: seq<Action>, t: Session)
    requires Run(s, actions, t) && (s.control.Ended? ==> s.pending == None)
    requires Inv(s)
    ensures t.control.Ended? ==> t.pending == None
    decreases |actions|
  {
    if actions != [] {
      StepKeeps(s, actions[0]);
      EndsWithoutPending(s, actions[0]);
      EndedHasNoPending(Next(s, actions[0]), actions[1..], t);
    }
  }

  // ----- one endpoint, one transfer

  /** The step that handles a PASV or PORT. */
  predicate Prepares(s: Session, a: Action) {
    a.Control? && s.control.Handling? && (s.control.cmd.Pasv? || s.control.cmd.Port?)
  }

  /** How often a PASV or PORT is handled along the actions. */
  function Preparations(s: Session, actions: seq<Action>): nat
    decreases |actions|
  {
    if actions == [] || !Enabled(s, actions[0]) then 0
    else (if Prepares(s, actions[0]) then 1 else 0) + Preparations(Next(s, actions[0]), actions[1..])
  }

  /** Transfers that had a worker, one that is being started, and an endpoint agreed on for the next. */
  function Claims(s: Session): nat {
    |s.workers| + (if Starting(s.control) then 1 else 0) + (if s.mode.NoMode? then 0 else 1)
  }

  lemma TransferClaims(s: Session, ok: bool)
    requires s.control.Handling? && s.control.cmd.Transfer?
    ensures Claims(ControlStep(s, ok)) <= Claims(s)
  {
  }

  lemma StepClaims(s: Session, a: Action)
    requires Enabled(s, a)
    ensures Claims(Next(s, a)) <= Claims(s) + if Prepares(s, a) then 1 else 0
  {
    if a.Work? {
      WorkMoves(s, a.worker, a.ok);
    } else if a.Control? && s.control.Handling? && s.control.cmd.Transfer? {
      TransferClaims(s, a.ok);
    }
  }

  lemma {:induction false} RunClaims(s: Session, actions: seq<Action>, t: Session)
    requires Run(s, actions, t)
    ensures Claims(t) <= Claims(s) + Preparations(s, actions)
    decreases |actions|
  {
    if actions != [] {
      StepClaims(s, actions[0]);
      RunClaims(Next(s, actions[0]), actions[1..], t);
    }
  }

  /** Every transfer takes a PASV or PORT of its own: in no run are there more transfers than these. */
  lemma OneEndpointPerTransfer(files: map<nat, Data>, actions: seq<Action>, t: Session)
    requires Run(Init(files), actions, t)
    ensures |t.workers| + (if Starting(t.control) then 1 else 0) <= Preparations(Init(files), actions)
  {
    RunClaims(Init(files), actions, t);
  }

  // ----- an abort in time

  /** The abort flag is up before the upload committed, or before an append was carried out. */
  predicate InTime(s: Session, w: nat) {
    w < |s.workers| && s.abort && s.workers[w].job.Upload? &&
    (s.workers[w].pc.Working? ||
     (s.workers[w].job.kind.Append? && (s.workers[w].pc.Committing? || s.workers[w].pc.Received?)))
  }

  /** An upload whose abort was in time: the flag stays up and nothing is stored. */
  ghost predicate Unstored(s: Session, w: nat) {
    w < |s.workers| && s.workers[w].job.Upload? && !s.workers[w].pc.Terminated? && s.abort &&
    var x := s.workers[w];
    if InDataPhase(x.pc) then InTime(s, w) && Lookup(s.files, x.job.path) == x.before
    else
      (x.job.kind.Append? || !x.success) &&
      (x.pc.CleaningUp? || x.success ==> Lookup(s.files, x.job.path) == x.before) &&
      (!x.pc.CleaningUp? && !x.success ==> Lookup(s.files, x.job.path) == LeftBehind(x))
  }

  lemma WorkKeepsUnstored(s: Session, v: nat, ok: bool, w: nat)
    requires Inv(s) && Unstored(s, w) && Enabled(s, Work(v, ok)) && !WorkerStep(s, v, ok).workers[w].pc.Terminated?
    requires |WorkerStep(s, v, ok).workers| == |s.workers|
    ensures Unstored(WorkerStep(s, v, ok), w)
  {
    OthersTerminated(s, w);
    var pc := s.workers[w].pc;
    if InDataPhase(pc) {
      InTimeDataStep(s, w, ok);
    } else if pc.CleaningUp? {
      CleanUpOutcome(s, w, ok) by { assert Outcome(s, s.workers[w]); }
    } else {
      FinishKeepsFiles(s, w, ok);
    }
  }

  /** In time: the data phase comes to its end without storing anything. */
  lemma InTimeDataStep(s: Session, w: nat, ok: bool)
    requires InTime(s, w) && Lookup(s.files, s.workers[w].job.path) == s.workers[w].before
    ensures var t := WorkerStep(s, w, ok);
            |t.workers| == |s.workers| && t.files == s.files && t.abort &&
            var y := t.workers[w];
            y.job == s.workers[w].job && y.before == s.workers[w].before && (InTime(t, w) || y.pc.CleaningUp?) &&
            (y.job.kind.Append? || !y.success)
  {
    if s.workers[w].pc.Committing? {
      CommitShape(s, w, ok);
    }
  }

  lemma StepKeepsUnstored(s: Session, a: Action, w: nat)
    requires Inv(s) && Unstored(s, w) && Enabled(s, a)
    ensures w < |Next(s, a).workers| && (Next(s, a).workers[w].pc.Terminated? || Unstored(Next(s, a), w))
  {
    var t := Next(s, a);
    match a
    case Receive(cmd) =>
    case Disconnect =>
    case Control(ok) =>
      if s.control.Handling? {
        HandlerShape(s, ok);
      } else if !s.control.Spawning? {
        ControlShape(s, ok);
      }
    case Work(v, ok) =>
      WorkMoves(s, v, ok);
      if !t.workers[w].pc.Terminated? {
        WorkKeepsUnstored(s, v, ok, w);
      }
  }

  lemma TerminatedStays(s: Session, a: Action, w: nat)
    requires Inv(s) && Enabled(s, a) && w < |s.workers| && s.workers[w].pc.Terminated?
    ensures w < |Next(s, a).workers| && Next(s, a).workers[w].pc.Terminated?
  {
    if a.Work? {
      WorkMoves(s, a.worker, a.ok);
    } else if a.Control? && s.control.Handling? {
      HandlerShape(s, a.ok);
    }
  }

  lemma {:induction false} RunKeepsUnstored(s: Session, actions: seq<Action>, t: Session, w: nat)
    requires Inv(s) && w < |s.workers| && (s.workers[w].pc.Terminated? || Unstored(s, w)) && Run(s, actions, t)
    ensures w < |t.workers| && (t.workers[w].pc.Terminated? || Unstored(t, w))
    decreases |actions|
  {
    if actions != [] {
      StepKeeps(s, actions[0]);
      if s.workers[w].pc.Terminated? {
        TerminatedStays(s, actions[0], w);
      } else {
        StepKeepsUnstored(s, actions[0], w);
      }
      RunKeepsUnstored(Next(s, actions[0]), actions[1..], t, w);
    }
  }

  /**
   * An abort in time keeps the old file: if the flag is up while an upload is still receiving, or while an
   * append has not begun to combine, then as long as its worker lives, under every interleaving, the
   * destination holds what it held when the worker started, or no file for STOU once cleaned up.
   */
  lemma AbortInTimeStoresNothing(files: map<nat, Data>, before: seq<Action>, s: Session, w: nat,
                                 after: seq<Action>, t: Session)
    requires Run(Init(files), before, s) && InTime(s, w)
    requires Run(s, after, t) && w < |t.workers| && !t.workers[w].pc.Terminated?
    ensures var x := t.workers[w];
            t.abort && x.job.Upload? && (!x.job.kind.Append? && !x.pc.Working? ==> !x.success) &&
            (Lookup(t.files, x.job.path) == x.before || (x.job.kind.Unique? && Lookup(t.files, x.job.path) == None))
  {
    InitInv(files);
    RunKeeps(Init(files), before, s);
    assert Outcome(s, s.workers[w]);
    RunKeepsUnstored(s, after, t, w);
  }

  /** The session is being shut down, past raising the flag. */
  predicate ShuttingDown(pc: ControlPc) { pc.ShutJoining? || pc.ShutClearing? || pc.Ended? }

  lemma StepKeepsShutdown(s: Session, a: Action)
    requires Enabled(s, a) && (ShuttingDown(s.control) ==> s.abort)
    ensures ShuttingDown(Next(s, a).control) ==> Next(s, a).abort
  {
    if a.Work? {
      WorkMoves(s, a.worker, a.ok);
    } else if a.Control? && s.control.Handling? {
      HandlerShape(s, a.ok);
    }
  }

  lemma {:induction false} RunKeepsShutdown(s: Session, actions: seq<Action>, t: Session)
    requires Run(s, actions, t) && (ShuttingDown(s.control) ==> s.abort)
    ensures ShuttingDown(t.control) ==> t.abort
    decreases |actions|
  {
    if actions != [] {
      StepKeepsShutdown(s, actions[0]);
      RunKeepsShutdown(Next(s, actions[0]), actions[1..], t);
    }
  }

  /**
   * A shutdown aborts the transfer before it waits for it: while it joins the worker the flag is up, an
   * upload that is still receiving is aborted in time, and once the session has ended no worker is alive.
   */
  lemma ShutdownAborts(files: map<nat, Data>, actions: seq<Action>, t: Session)
    requires Run(Init(files), actions, t) && ShuttingDown(t.control)
    ensures t.abort
    ensures forall w :: 0 <= w < |t.workers| && t.workers[w].job.Upload? && t.workers[w].pc.Working? ==> InTime(t, w)
    ensures t.control.Ended? ==> !t.active && forall w :: 0 <= w < |t.workers| ==> t.workers[w].pc.Terminated?
  {
    InitInv(files);
    RunKeeps(Init(files), actions, t);
    RunKeepsShutdown(Init(files), actions, t);
  }

  // ----- ABOR and the final replies

  /** ABOR or a shutdown has raised the flag and has not yet cleared transferActive. */
  predicate Raised(pc: ControlPc) { pc.AborJoining? || pc.AborClearing? || pc.ShutJoining? || pc.ShutClearing? }

  /** While a transfer is active the flag is down until it is raised; the worker saw it up only if it is. */
  ghost predicate Flags(s: Session) {
    (s.active && !Raised(s.control) ==> !s.abort) &&
    (s.control.AborFlagging? ==> !s.abort) &&
    (s.handle.Some? && s.handle.value < |s.workers| && s.workers[s.handle.value].sawAbort ==> s.abort)
  }

  /** What a worker step does to the flag reading: only Finishing reads. */
  lemma ReadingShape(s: Session, w: nat, ok: bool)
    requires Enabled(s, Work(w, ok))
    ensures var t := WorkerStep(s, w, ok);
            w < |t.workers| &&
            t.workers[w].sawAbort == (if s.workers[w].pc.Finishing? then s.abort else s.workers[w].sawAbort) &&
            (Decided(t.workers[w].pc) <==> Decided(s.workers[w].pc) || s.workers[w].pc.Finishing?)
  {
    var pc := s.workers[w].pc;
    if InDataPhase(pc) || pc.CleaningUp? {
      DataReadingShape(s, w, ok);
    } else {
      FinishReadingShape(s, w, ok);
    }
  }

  lemma DataReadingShape(s: Session, w: nat, ok: bool)
    requires Enabled(s, Work(w, ok)) && (InDataPhase(s.workers[w].pc) || s.workers[w].pc.CleaningUp?)
    ensures var t := WorkerStep(s, w, ok);
            w < |t.workers| && t.workers[w].sawAbort == s.workers[w].sawAbort && !Decided(t.workers[w].pc)
  {
    DataStepShape(s, w, ok);
  }

  lemma FinishReadingShape(s: Session, w: nat, ok: bool)
    requires Enabled(s, Work(w, ok)) && !InDataPhase(s.workers[w].pc) && !s.workers[w].pc.CleaningUp?
    ensures var t := WorkerStep(s, w, ok);
            w < |t.workers| &&
            t.workers[w].sawAbort == (if s.workers[w].pc.Finishing? then s.abort else s.workers[w].sawAbort) &&
            (Decided(t.workers[w].pc) <==> Decided(s.workers[w].pc) || s.workers[w].pc.Finishing?)
  {
    FinishWorker(s, w, ok);
  }

  /** The worker is past finishTransfer's reading of the flag. */
  predicate Decided(pc: WorkerPc) { pc.Replying? || pc.Clearing? || pc.Exiting? || pc.Terminated? }

  lemma StepKeepsFlags(s: Session, a: Action)
    requires Inv(s) && Flags(s) && Enabled(s, a)
    ensures Flags(Next(s, a))
  {
    match a
    case Receive(cmd) =>
    case Disconnect =>
    case Control(ok) =>
      if s.control.Handling? {
        HandlerShape(s, ok);
      }
    case Work(w, ok) =>
      WorkMoves(s, w, ok);
      ReadingShape(s, w, ok);
  }

  lemma {:induction false} RunKeepsFlags(s: Session, actions: seq<Action>, t: Session)
    requires Inv(s) && Flags(s) && Run(s, actions, t)
    ensures Flags(t)
    decreases |actions|
  {
    if actions != [] {
      StepKeeps(s, actions[0]);
      StepKeepsFlags(s, actions[0]);
      RunKeepsFlags(Next(s, actions[0]), actions[1..], t);
    }
  }

  /** No new command arrives. */
  predicate Undisturbed(actions: seq<Action>) {
    forall i :: 0 <= i < |actions| ==> !actions[i].Receive? && !actions[i].Disconnect?
  }

  /** ABOR has raised the flag for worker `w`; `saw` says whether that worker will have seen it. */
  ghost predicate Aborting(s: Session, w: nat, saw: bool) {
    |s.workers| == w + 1 &&
    var x := s.workers[w];
    (s.control.AborJoining? || s.control.AborClearing? || s.control.AborReplying?) && s.abort &&
    (if Decided(x.pc) then x.sawAbort == saw else saw)
  }

  lemma StepKeepsAborting(s: Session, a: Action, w: nat, saw: bool)
    requires Inv(s) && Aborting(s, w, saw) && Enabled(s, a) && !a.Receive? && !a.Disconnect?
    ensures Aborting(Next(s, a), w, saw) || Next(s, a).control.Idle?
  {
    if a.Work? {
      WorkMoves(s, a.worker, a.ok);
      ReadingShape(s, a.worker, a.ok);
    }
  }

  lemma {:induction false} RunKeepsAborting(s: Session, actions: seq<Action>, t: Session, w: nat, saw: bool)
    requires Inv(s) && (Aborting(s, w, saw) || s.control.Idle?) && Run(s, actions, t) && Undisturbed(actions)
    ensures Aborting(t, w, saw) || t.control.Idle?
    decreases |actions|
  {
    if actions != [] {
      var a := actions[0];
      StepKeeps(s, a);
      if s.control.Idle? {
        WorkMoves(s, a.worker, a.ok);
      } else {
        StepKeepsAborting(s, a, w, saw);
      }
      RunKeepsAborting(Next(s, a), actions[1..], t, w, saw);
    }
  }

  /**
   * ABOR, about to raise the flag in `s`, will send its 426 from `t`. By then the transfer's worker
   * has sent a final reply of its own exactly when, as the flag went up, it was already past its
   * reading of the flag.
   */
  lemma SecondFinalReplyIff(files: map<nat, Data>, before: seq<Action>, s: Session, ok: bool,
                            after: seq<Action>, t: Session)
    requires Run(Init(files), before, s) && s.control.AborFlagging?
    requires Run(Next(s, Control(ok)), after, t) && Undisturbed(after) && t.control.AborReplying?
    ensures s.workers != [] && |t.workers| == |s.workers|
    ensures Replied(t.log, |t.workers| - 1) <==> Decided(s.workers[|s.workers| - 1].pc)
  {
    InitInv(files);
    RunKeeps(Init(files), before, s);
    RunKeepsFlags(Init(files), before, s);
    FlagGoesUp(s, ok);
    StepKeeps(s, Control(ok));
    AborSettles(Next(s, Control(ok)), after, t, |s.workers| - 1, !Decided(s.workers[|s.workers| - 1].pc));
  }

  lemma AborSettles(s: Session, actions: seq<Action>, t: Session, w: nat, saw: bool)
    requires Inv(s) && Aborting(s, w, saw) && Run(s, actions, t) && Undisturbed(actions) && t.control.AborReplying?
    ensures |t.workers| == w + 1 && (Replied(t.log, w) <==> !saw)
  {
    RunKeeps(s, actions, t);
    RunKeepsAborting(s, actions, t, w, saw);
    RepliedOrSaw(t, w, saw);
  }

  lemma FlagGoesUp(s: Session, ok: bool)
    requires Inv(s) && Flags(s) && s.control.AborFlagging?
    ensures s.workers != [] && Aborting(Next(s, Control(ok)), |s.workers| - 1, !Decided(s.workers[|s.workers| - 1].pc))
  {
  }

  lemma RepliedOrSaw(t: Session, w: nat, saw: bool)
    requires Inv(t) && Aborting(t, w, saw) && t.control.AborReplying?
    ensures Replied(t.log, w) <==> !saw
  {
  }

  // ----- reachability: every kind of upload can complete, and can then still be answered 426

  lemma {:induction false} RunSnoc(s: Session, actions: seq<Action>, t: Session, a: Action)
    requires Run(s, actions, t) && Enabled(t, a)
    ensures Run(s, actions + [a], Next(t, a))
    decreases |actions|
  {
    if actions == [] {
      assert ([a])[1..] == [];
    } else {
      RunSnoc(Next(s, actions[0]), actions[1..], t, a);
      assert (actions + [a])[1..] == actions[1..] + [a];
    }
  }

  /** An upload that nothing but I/O trouble or an abort can stop. */
  predicate Feasible(files: map<nat, Data>, job: Job) {
    job.Upload? && (job.kind.Unique? ==> job.path !in files) &&
    (job.kind.Append? ==> CanAppendFile(Lookup(files, job.path), job.payload))
  }

  /** The only transfer so far is at `pc` and doing well; the control thread is at `control`. */
  ghost predicate OnTrack(s: Session, job: Job, control: ControlPc, pc: WorkerPc) {
    s.control == control && |s.workers| == 1 && s.handle == Some(0) &&
    var x := s.workers[0];
    x.job == job && job.Upload? && x.pc == pc && !x.sawAbort && s.active == Running(x) && Appendable(x) &&
    (s.lock == if HoldsLock(pc) then Some(0) else None) && Outcome(s, x) &&
    (!pc.Working? && !pc.Committing? ==> x.success)
  }

  lemma Extend(s: Session, actions: seq<Action>, t: Session, a: Action) returns (longer: seq<Action>, u: Session)
    requires Run(s, actions, t) && Enabled(t, a)
    ensures Run(s, longer, u) && u == Next(t, a)
  {
    RunSnoc(s, actions, t, a);
    longer, u := actions + [a], Next(t, a);
  }

  /** The data endpoint agreed on, by PASV or by PORT. */
  function Prepared(files: map<nat, Data>, passive: bool): Session {
    if passive then Init(files).(mode := Passive, sockets := [Socket(Pending, 0, 0)], pending := Some(0))
    else Init(files).(mode := Active)
  }

  lemma ReachPrepared(files: map<nat, Data>, passive: bool) returns (actions: seq<Action>, s: Session)
    ensures Run(Init(files), actions, s) && s == Prepared(files, passive)
  {
    var s0 := Init(files);
    actions, s := Extend(s0, [], s0, Receive(if passive then Pasv else Port));
    actions, s := Extend(s0, actions, s, Control(true));
    actions, s := Extend(s0, actions, s, Control(true));
  }

  lemma ReachResetting(files: map<nat, Data>, job: Job, passive: bool) returns (actions: seq<Action>, s: Session)
    requires Feasible(files, job)
    ensures Run(Init(files), actions, s)
    ensures s.control == Resetting(job, 0) && s.workers == [] && |s.sockets| == 1 && s.lock == None
    ensures s.files == if job.kind.Unique? then files[job.path := []] else files
  {
    var s0, ready := Init(files), Prepared(files, passive);
    actions, s := ReachPrepared(files, passive);
    actions, s := Extend(s0, actions, s, Receive(Transfer(job)));
    assert s == ready.(control := Dispatched(Transfer(job)));
    actions, s := Extend(s0, actions, s, Control(true));
    assert s == ready.(control := Handling(Transfer(job)));
    actions, s := Extend(s0, actions, s, Control(true));
  }

  lemma ReachWorking(files: map<nat, Data>, job: Job, passive: bool) returns (actions: seq<Action>, s: Session)
    requires Feasible(files, job)
    ensures Run(Init(files), actions, s) && OnTrack(s, job, Idle, Working) && !s.abort
  {
    var s0 := Init(files);
    actions, s := ReachResetting(files, job, passive);
    var r := s;
    actions, s := Extend(s0, actions, s, Control(true));
    assert s == r.(abort := false, abortFor := None, control := Activating(job, 0));
    actions, s := Extend(s0, actions, s, Control(true));
    assert s.control == Announcing(job, 0) && s.active;
    actions, s := Extend(s0, actions, s, Control(true));
    assert s.control == Spawning(job, 0) && s.active && s.files == r.files;
    actions, s := Extend(s0, actions, s, Control(true));
  }

  function AfterData(job: Job, pc: WorkerPc): WorkerPc {
    match pc
    case Working => Committing
    case Committing => Received
    case Received => if job.Upload? && job.kind.Append? then Appending else CleaningUp
    case _ => CleaningUp
  }

  lemma DataOnTrack(s: Session, job: Job, pc: WorkerPc)
    requires OnTrack(s, job, Idle, pc) && !s.abort && InDataPhase(pc)
    ensures var t := Next(s, Work(0, true)); OnTrack(t, job, Idle, AfterData(job, pc)) && !t.abort
  {
    DataOutcome(s, 0, true);
  }

  function AfterFinish(pc: WorkerPc): WorkerPc {
    match pc
    case CleaningUp => Locking
    case Locking => Finishing
    case Finishing => Replying
    case Replying => Clearing
    case Clearing => Exiting
    case _ => Terminated
  }

  lemma FinishOnTrack(s: Session, job: Job, control: ControlPc, pc: WorkerPc)
    requires OnTrack(s, job, control, pc) && !InDataPhase(pc) && !pc.Terminated? && (pc.Finishing? ==> !s.abort)
    ensures var t := Next(s, Work(0, true));
            OnTrack(t, job, control, AfterFinish(pc)) && t.abort == s.abort && t.pending == s.pending &&
            t.log == s.log + (if pc.Replying? then [Complete226(0, Lookup(s.files, job.path))] else [])
  {
    FinishOutcome(s, 0, true);
  }

  /** The worker commits, appends, cleans up and reads an abort flag that is still down. */
  lemma ReachReplying(files: map<nat, Data>, job: Job, passive: bool) returns (actions: seq<Action>, s: Session)
    requires Feasible(files, job)
    ensures Run(Init(files), actions, s) && OnTrack(s, job, Idle, Replying) && !s.abort
  {
    var s0 := Init(files);
    actions, s := ReachWorking(files, job, passive);
    DataOnTrack(s, job, Working);
    actions, s := Extend(s0, actions, s, Work(0, true));
    DataOnTrack(s, job, Committing);
    actions, s := Extend(s0, actions, s, Work(0, true));
    DataOnTrack(s, job, Received);
    actions, s := Extend(s0, actions, s, Work(0, true));
    if job.kind.Append? {
      DataOnTrack(s, job, Appending);
      actions, s := Extend(s0, actions, s, Work(0, true));
    }
    FinishOnTrack(s, job, Idle, CleaningUp);
    actions, s := Extend(s0, actions, s, Work(0, true));
    FinishOnTrack(s, job, Idle, Locking);
    actions, s := Extend(s0, actions, s, Work(0, true));
    FinishOnTrack(s, job, Idle, Finishing);
    actions, s := Extend(s0, actions, s, Work(0, true));
  }

  lemma AborFlags(s0: Session, before: seq<Action>, s: Session) returns (actions: seq<Action>, t: Session)
    requires Run(s0, before, s) && s.control.Idle? && s.active && |s.workers| == 1
    ensures Run(s0, actions, t) && t == s.(control := AborJoining, abort := true, abortFor := Some(0))
  {
    actions, t := Extend(s0, before, s, Receive(Abor));
    assert t == s.(control := Dispatched(Abor));
    AborSteps(s);
    actions, t := Extend(s0, actions, t, Control(true));
    actions, t := Extend(s0, actions, t, Control(true));
    actions, t := Extend(s0, actions, t, Control(true));
  }

  lemma AborSteps(s: Session)
    requires s.active && |s.workers| == 1
    ensures var a, b, c := s.(control := Dispatched(Abor)), s.(control := Handling(Abor)), s.(control := AborFlagging);
            && ControlEnabled(a) && ControlStep(a, true) == b
            && ControlEnabled(b) && ControlStep(b, true) == c
            && ControlEnabled(c) && ControlStep(c, true) == s.(control := AborJoining, abort := true, abortFor := Some(0))
  {
  }

  /** ABOR finds the transfer active and raises the flag. */
  lemma AborRaises(s0: Session, before: seq<Action>, s: Session, job: Job) returns (actions: seq<Action>, t: Session)
    requires Run(s0, before, s) && OnTrack(s, job, Idle, Replying)
    ensures Run(s0, actions, t) && OnTrack(t, job, AborJoining, Replying)
  {
    actions, t := AborFlags(s0, before, s);
    FlagKeepsOutcome(s, t, s.workers[0]);
  }

  /** The worker, past its reading of the flag, still reports completion and ends. */
  lemma WorkerEnds(s0: Session, before: seq<Action>, s: Session, job: Job) returns (actions: seq<Action>, t: Session)
    requires Run(s0, before, s) && OnTrack(s, job, AborJoining, Replying)
    ensures Run(s0, actions, t) && OnTrack(t, job, AborJoining, Terminated)
    ensures t.log == s.log + [Complete226(0, Lookup(s.files, job.path))]
  {
    FinishOnTrack(s, job, AborJoining, Replying);
    actions, t := Extend(s0, before, s, Work(0, true));
    var log := t.log;
    FinishOnTrack(t, job, AborJoining, Clearing);
    actions, t := Extend(s0, actions, t, Work(0, true));
    assert t.log == log;
    FinishOnTrack(t, job, AborJoining, Exiting);
    actions, t := Extend(s0, actions, t, Work(0, true));
    assert t.log == log;
  }

  /** With the worker gone, ABOR joins it, clears and answers. */
  lemma AborAnswers(s0: Session, before: seq<Action>, s: Session) returns (actions: seq<Action>, t: Session)
    requires Run(s0, before, s) && s.control.AborJoining? && Joinable(s) && |s.workers| == 1 && s.lock == None
    ensures Run(s0, actions, t) && t.workers == s.workers && t.log == s.log + [Aborted426(0)]
  {
    actions, t := Extend(s0, before, s, Control(true));
    assert t == s.(handle := None, control := AborClearing);
    actions, t := AborClears(s0, actions, t);
    actions, t := Extend(s0, actions, t, Control(true));
  }

  lemma AborClears(s0: Session, before: seq<Action>, s: Session) returns (actions: seq<Action>, t: Session)
    requires Run(s0, before, s) && s.control.AborClearing?
    ensures Run(s0, actions, t) && t.control == AborReplying
    ensures t.workers == s.workers && t.log == s.log && t.lock == s.lock
  {
    actions, t := Extend(s0, before, s, Control(true));
  }

  /**
   * Every feasible upload, in either data-channel mode, has a run in which it is completed with 226, and
   * that same transfer is then also answered with 426: "exactly one final reply" fails for every kind of upload.
   */
  lemma CompletionThenAbortReachable(files: map<nat, Data>, job: Job, passive: bool)
    returns (actions: seq<Action>, t: Session, n: nat)
    requires Feasible(files, job)
    ensures Run(Init(files), actions, t) && |t.log| == n + 2 && |t.workers| == 1 && t.workers[0].job == job
    ensures t.log[n].Complete226? && t.log[n].worker == 0 && t.log[n + 1] == Aborted426(0)
  {
    var a, s := ReachReplying(files, job, passive);
    a, s := AborRaises(Init(files), a, s, job);
    n := |s.log|;
    a, s := WorkerEnds(Init(files), a, s, job);
    actions, t := AborAnswers(Init(files), a, s);
  }
}
