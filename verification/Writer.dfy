/** ChunkedFileWriter: bytes go to a temporary sibling that replaces the destination on commit. */
module Writer {
  import opened Bytes

  /**
   * `stream` is the open temporary's contents, None once it is closed; `good` is the stream's
   * error state; `dest` is the destination file.
   */
  datatype WriterState = WriterState(valid: bool, committed: bool, next: nat, stream: Option<Data>,
                                     good: bool, dest: Option<Data>)

  function Open(dest: Option<Data>, tempOk: bool): WriterState {
    WriterState(tempOk, false, 0, if tempOk then Some([]) else None, true, dest)
  }

  /** appendChunk succeeds: a valid, uncommitted writer, the expected number and no write error. */
  predicate CanAppend(w: WriterState, seqNum: nat, data: Data, writeOk: bool) {
    w.valid && !w.committed && seqNum == w.next && (data != [] ==> w.stream.Some? && w.good && writeOk)
  }

  function AppendStep(w: WriterState, seqNum: nat, data: Data, writeOk: bool): WriterState {
    if CanAppend(w, seqNum, data, writeOk) then
      w.(next := w.next + 1, stream := if data == [] then w.stream else Some(w.stream.value + data))
    else if w.valid && !w.committed && seqNum == w.next then w.(good := false)
    else w
  }

  predicate CanCommit(w: WriterState, moveOk: bool) {
    w.valid && !w.committed && w.good && w.stream.Some? && moveOk
  }

  /** commit: flush, close, then one atomic move over the destination; a bad stream is left open. */
  function CommitStep(w: WriterState, moveOk: bool): WriterState {
    if CanCommit(w, moveOk) then w.(valid := false, committed := true, stream := None, dest := w.stream)
    else if w.valid && !w.committed && w.good then w.(stream := None)
    else w
  }

  function AbortStep(w: WriterState): WriterState {
    if w.committed then w else w.(valid := false, stream := None)
  }

  /** Calls on a writer after which it may be asked to commit. */
  datatype Call = Append(seqNum: nat, data: Data, writeOk: bool) | Discard

  function CallStep(w: WriterState, call: Call): WriterState {
    match call
    case Append(seqNum, data, writeOk) => AppendStep(w, seqNum, data, writeOk)
    case Discard => AbortStep(w)
  }

  function AfterCalls(w: WriterState, calls: seq<Call>): WriterState
    decreases |calls|
  {
    if calls == [] then w else AfterCalls(CallStep(w, calls[0]), calls[1..])
  }

  /** An uncommitted writer that was aborted, or whose stream a failed write has spoilt. */
  predicate Spoilt(w: WriterState) { !w.committed && (!w.valid || !w.good) }

  /** Abort discards the temporary, and a failed write of the expected chunk spoils it; neither touches the destination. */
  lemma Spoils(w: WriterState, data: Data, writeOk: bool)
    requires !w.committed
    ensures Spoilt(AbortStep(w)) && AbortStep(w).stream == None && AbortStep(w).dest == w.dest
    ensures var v := AppendStep(w, w.next, data, writeOk);
            v.dest == w.dest && (w.valid && data != [] && !writeOk ==> Spoilt(v))
  {
  }

  /** A spoilt writer stays so: whatever is called on it, it never commits and the destination keeps its contents. */
  lemma {:induction false} SpoiltNeverCommits(w: WriterState, calls: seq<Call>, moveOk: bool)
    requires Spoilt(w)
    ensures var v := AfterCalls(w, calls);
            Spoilt(v) && v.dest == w.dest && !CanCommit(v, moveOk) && CommitStep(v, moveOk).dest == w.dest
    decreases |calls|
  {
    if calls != [] {
      SpoiltNeverCommits(CallStep(w, calls[0]), calls[1..], moveOk);
    }
  }

  class ChunkedFileWriter {
    var valid: bool
    var committed: bool
    var nextExpectedSequence: nat
    var stream: Option<Data>
    var good: bool
    var dest: Option<Data>

    function State(): WriterState
      reads this
    {
      WriterState(valid, committed, nextExpectedSequence, stream, good, dest)
    }

    constructor (destination: Option<Data>, tempOk: bool)
      ensures State() == Open(destination, tempOk)
    {
      valid, committed, nextExpectedSequence := tempOk, false, 0;
      stream, good, dest := if tempOk then Some([]) else None, true, destination;
    }

    method AppendChunk(seqNum: nat, data: Data, writeOk: bool) returns (ok: bool)
      modifies this
      ensures ok == CanAppend(old(State()), seqNum, data, writeOk)
      ensures State() == AppendStep(old(State()), seqNum, data, writeOk)
    {
      if !valid || committed || seqNum != nextExpectedSequence {
        return false;
      }
      if data != [] {
        if stream.None? || !good || !writeOk {
          good := false;
          return false;
        }
        stream := Some(stream.value + data);
      }
      nextExpectedSequence := nextExpectedSequence + 1;
      return true;
    }

    method Commit(moveOk: bool) returns (ok: bool)
      modifies this
      ensures ok == CanCommit(old(State()), moveOk)
      ensures State() == CommitStep(old(State()), moveOk)
    {
      if !valid || committed {
        return false;
      }
      if !good {
        return false;
      }
      var contents := stream;
      stream := None;
      if contents.None? || !moveOk {
        return false;
      }
      dest := contents;
      committed, valid := true, false;
      return true;
    }

    method Abort()
      modifies this
      ensures State() == AbortStep(old(State()))
      ensures dest == old(dest) && committed == old(committed) && (!committed ==> stream == None)
      ensures forall moveOk :: !CanCommit(State(), moveOk)
    {
      if !committed {
        stream := None;
        valid := false;
      }
    }
  }
}
