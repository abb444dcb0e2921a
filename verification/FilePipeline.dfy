/** sendFromReader and receiveFile: a file becomes numbered chunks and numbered chunks a file. */
module FilePipeline {
  import opened Bytes
  import opened Readers
  import opened Writer
  import Ascii

  // ----- meaning

  /**
   * A file in the transfer type: the bytes a reader delivers for it, and what a complete transfer
   * leaves at the destination.
   */
  function InType(file: Data, ascii: bool): Data {
    if ascii then Ascii.Normalize(file, false) else file
  }

  /** What the receiving side writes for payloads that arrive one after another. */
  function Translated(payloads: seq<Data>, ascii: bool): Data {
    if ascii then Ascii.TranslateAll(payloads, false) else Flatten(payloads)
  }

  /** A complete transfer: numbered from zero, and the last chunk alone is final. */
  predicate Complete(cs: seq<Chunk>) {
    cs != [] && forall i :: 0 <= i < |cs| ==> cs[i].seqNum == i && (cs[i].isFinal <==> i == |cs| - 1)
  }

  /** Copying: a complete prefix of what was sent is all of it, and translates to the file. */
  lemma FileCopied(file: Data, ascii: bool, cs: seq<Chunk>)
    requires cs <= Chunks(InType(file, ascii))
    requires Complete(cs)
    ensures cs == Chunks(InType(file, ascii))
    ensures Translated(Payloads(cs), ascii) == InType(file, ascii)
  {
    var wire := InType(file, ascii);
    var all := Chunks(wire);
    assert cs[|cs| - 1] == all[|cs| - 1];
    assert |cs| == |all| && cs == all;
    PiecesShape(wire);
    assert Payloads(cs) == Pieces(wire);
    PiecesTranslate(file, ascii);
  }

  /** The pieces of a file, translated, are the file that a transfer promises. */
  lemma PiecesTranslate(file: Data, ascii: bool)
    ensures Translated(Pieces(InType(file, ascii)), ascii) == InType(file, ascii)
  {
    var wire := InType(file, ascii);
    PiecesShape(wire);
    if ascii {
      FlattenOne(file);
      Ascii.StreamingEqualsOneShot([file], false);
      assert Flatten(Pieces(wire)) == Ascii.TranslateAll([file], false);
      Ascii.AsciiTransferMeaning([file], Pieces(wire));
    }
  }

  /** One more payload extends the translation by its own piece. */
  lemma {:induction false} TranslatedSnoc(payloads: seq<Data>, last: Data, ascii: bool)
    ensures Translated(payloads + [last], ascii) ==
            Translated(payloads, ascii) +
            (if ascii then Ascii.Normalize(last, Ascii.CarryAfter(Flatten(payloads), false)) else last)
  {
    FlattenSnoc(payloads, last);
    if ascii {
      Ascii.StreamingEqualsOneShot(payloads, false);
      Ascii.StreamingEqualsOneShot(payloads + [last], false);
      Ascii.NormalizeAppend(Flatten(payloads), last, false);
    }
  }

  // ----- sending

  /** A transport seen from the sending side: calls made, and an oracle for their results. */
  class SendLog {
    const accepts: nat -> bool
    const flushes: bool
    var calls: seq<Chunk>

    constructor (accepts: nat -> bool, flushes: bool)
      ensures calls == [] && this.accepts == accepts && this.flushes == flushes
    {
      this.accepts, this.flushes, calls := accepts, flushes, [];
    }

    method SendChunk(seqNum: nat, data: Data, isFinal: bool) returns (ok: bool)
      modifies this
      ensures calls == old(calls) + [Chunk(seqNum, data, isFinal)]
      ensures ok == accepts(|old(calls)|)
    {
      ok := accepts(|calls|);
      calls := calls + [Chunk(seqNum, data, isFinal)];
    }

    method Flush() returns (ok: bool)
      ensures ok == flushes
    {
      ok := flushes;
    }
  }

  /** The bytes after chunk `k`. */
  function After(data: Data, k: nat): Data
    requires k < |Cut(data)|
  {
    Flatten(Cut(data)[k + 1..])
  }

  /** What one chunk of lookahead shows: the next piece, or that chunk `k` is the last. */
  lemma {:induction false} Lookahead(data: Data, k: nat)
    requires k < |Cut(data)|
    ensures After(data, k) != [] <==> k + 1 < |Cut(data)|
    ensures k + 1 < |Cut(data)| ==> Cut(data)[k + 1] == Take(After(data, k)) && After(data, k + 1) == Drop(After(data, k))
    ensures After(data, 0) == Drop(data) && Cut(data)[0] == Take(data)
    decreases k
  {
    var tail := Drop(data);
    assert Cut(data)[1..] == Cut(tail);
    CutShape(tail);
    if k == 0 {
      if tail != [] {
        assert Cut(data)[2..] == Cut(tail)[1..] == Cut(Drop(tail));
        CutShape(Drop(tail));
      }
    } else {
      Lookahead(tail, k - 1);
      assert Cut(data)[k + 1..] == Cut(tail)[k..];
      assert k + 1 < |Cut(data)| ==> Cut(data)[k + 2..] == Cut(tail)[k + 1..];
    }
  }

  lemma ChunksExtend(data: Data, k: nat)
    requires k < |Cut(data)|
    ensures |Chunks(data)| == |Cut(data)|
    ensures Chunks(data)[..k + 1] == Chunks(data)[..k] + [Chunk(k, Cut(data)[k], k + 1 == |Cut(data)|)]
  {
    assert data != [] && Pieces(data) == Cut(data);
    var cs := Chunks(data);
    assert cs[k] == Chunk(k, Cut(data)[k], k + 1 == |Cut(data)|);
    SnocPrefix(cs, k);
  }

  lemma SnocPrefix(cs: seq<Chunk>, k: nat)
    requires k < |cs|
    ensures cs[..k + 1] == cs[..k] + [cs[k]]
  {
  }

  /** The abort flag was down at each of its first `n` readings. */
  ghost predicate DownFor(aborted: nat -> bool, n: nat) { forall i :: 0 <= i < n ==> !aborted(i) }

  /** An oracle that lets everything through. */
  ghost predicate Untroubled(reader: Source, transport: SendLog, aborted: nat -> bool) {
    reader.IsOpen() && transport.flushes && (forall i :: transport.accepts(i)) && (forall i :: !aborted(i))
  }

  /**
   * sendFromReader: one chunk of lookahead decides the final flag. Whatever the transport and
   * the abort flag do, the calls are a prefix of the numbered chunks; success means all of them.
   * Nothing is sent after a reading of the abort flag that was up, and success means that none was.
   */
  method SendFromReader(reader: Source, transport: SendLog, aborted: nat -> bool) returns (ok: bool)
    requires reader.Valid() && transport.calls == [] && transport !in reader.Footprint()
    modifies reader.Footprint(), transport
    ensures transport.calls <= Chunks(old(reader.Remaining()))
    ensures ok ==> reader.IsOpen() && transport.calls == Chunks(old(reader.Remaining())) && transport.flushes
    ensures transport.calls != [] ==> DownFor(aborted, |transport.calls| + 1)
    ensures ok ==> DownFor(aborted, |transport.calls| + if old(reader.Remaining()) == [] then 2 else 3)
    ensures Untroubled(reader, transport, aborted) ==> ok
  {
    ghost var data := reader.Remaining();
    if !reader.IsOpen() || aborted(0) {
      return false;
    }
    var more, current := reader.NextChunk();
    if more {
      Lookahead(data, 0);
      ok := SendPieces(reader, transport, aborted, current, data);
    } else {
      if aborted(1) {
        return false;
      }
      var sent := transport.SendChunk(0, [], true);
      if !sent || aborted(2) {
        return false;
      }
      ok := transport.Flush();
    }
  }

  /** The first `k` chunks were sent, each after readings of the abort flag that were all down. */
  ghost predicate SentSoFar(calls: seq<Chunk>, data: Data, k: nat, aborted: nat -> bool) {
    k <= |Chunks(data)| && calls == Chunks(data)[..k] && DownFor(aborted, k + 1)
  }

  lemma SentMeans(calls: seq<Chunk>, data: Data, k: nat, aborted: nat -> bool)
    requires SentSoFar(calls, data, k, aborted)
    ensures calls <= Chunks(data) && DownFor(aborted, |calls| + 1) && |calls| == k
    ensures k == |Chunks(data)| ==> calls == Chunks(data)
  {
  }

  lemma SentExtends(calls: seq<Chunk>, data: Data, k: nat, aborted: nat -> bool)
    requires SentSoFar(calls, data, k, aborted) && k < |Cut(data)| && !aborted(k + 1)
    ensures SentSoFar(calls + [Chunk(k, Cut(data)[k], k + 1 == |Cut(data)|)], data, k + 1, aborted)
  {
    ChunksExtend(data, k);
  }

  /** One round of the loop: look ahead, then send the current chunk unless the flag is up. */
  method SendOne(reader: Source, transport: SendLog, aborted: nat -> bool, seqNum: nat, current: Data, ghost data: Data)
    returns (sent: bool, hasNext: bool, next: Data)
    requires reader.Valid() && transport !in reader.Footprint()
    requires seqNum < |Cut(data)| && SentSoFar(transport.calls, data, seqNum, aborted)
    requires current == Cut(data)[seqNum] && reader.Remaining() == After(data, seqNum)
    modifies reader.Footprint(), transport
    ensures reader.Valid()
    ensures SentSoFar(transport.calls, data, seqNum + 1, aborted) ||
            (!sent && SentSoFar(transport.calls, data, seqNum, aborted))
    ensures !aborted(seqNum + 1) && (forall i :: transport.accepts(i)) ==> sent
    ensures hasNext <==> seqNum + 1 < |Cut(data)|
    ensures hasNext ==> next == Cut(data)[seqNum + 1] && reader.Remaining() == After(data, seqNum + 1)
  {
    Lookahead(data, seqNum);
    hasNext, next := reader.NextChunk();
    if aborted(seqNum + 1) {
      return false, hasNext, next;
    }
    SentExtends(transport.calls, data, seqNum, aborted);
    sent := transport.SendChunk(seqNum, current, !hasNext);
  }

  /** The loop of sendFromReader: all chunks of a file with at least one byte, or a failure. */
  method SendLoop(reader: Source, transport: SendLog, aborted: nat -> bool, first: Data, ghost data: Data)
    returns (sent: bool)
    requires reader.Valid() && transport.calls == [] && transport !in reader.Footprint()
    requires data != [] && first == Cut(data)[0] && reader.Remaining() == After(data, 0) && !aborted(0)
    modifies reader.Footprint(), transport
    ensures transport.calls <= Chunks(data) && DownFor(aborted, |transport.calls| + 1)
    ensures sent ==> transport.calls == Chunks(data)
    ensures (forall i :: transport.accepts(i)) && (forall i :: !aborted(i)) ==> sent
  {
    var current := first;
    var seqNum := 0;
    var hasNext := true;
    while hasNext
      invariant reader.Valid() && seqNum <= |Cut(data)| && SentSoFar(transport.calls, data, seqNum, aborted)
      invariant hasNext <==> seqNum < |Cut(data)|
      invariant hasNext ==> current == Cut(data)[seqNum] && reader.Remaining() == After(data, seqNum)
      decreases |Cut(data)| - seqNum
    {
      sent, hasNext, current := SendOne(reader, transport, aborted, seqNum, current, data);
      if !sent {
        SentMeans(transport.calls, data,
                  if SentSoFar(transport.calls, data, seqNum, aborted) then seqNum else seqNum + 1, aborted);
        return false;
      }
      seqNum := seqNum + 1;
    }
    SentMeans(transport.calls, data, seqNum, aborted);
    return true;
  }

  /** The end of sendFromReader after `n` chunks. */
  method FlushUnlessAborted(transport: SendLog, aborted: nat -> bool, n: nat) returns (ok: bool)
    requires DownFor(aborted, n + 1)
    ensures ok <==> transport.flushes && DownFor(aborted, n + 3)
  {
    if aborted(n + 1) {
      return false;
    }
    ok := transport.Flush();
    ok := ok && !aborted(n + 2);
  }

  /** sendFromReader from the first chunk on: the loop, and a flush with the flag down before and after it. */
  method SendPieces(reader: Source, transport: SendLog, aborted: nat -> bool, first: Data, ghost data: Data)
    returns (ok: bool)
    requires reader.Valid() && transport.calls == [] && transport !in reader.Footprint()
    requires data != [] && first == Cut(data)[0] && reader.Remaining() == After(data, 0) && !aborted(0)
    modifies reader.Footprint(), transport
    ensures transport.calls <= Chunks(data)
    ensures ok ==> transport.calls == Chunks(data) && transport.flushes
    ensures DownFor(aborted, |transport.calls| + 1) && (ok ==> DownFor(aborted, |transport.calls| + 3))
    ensures Untroubled(reader, transport, aborted) ==> ok
  {
    var sent := SendLoop(reader, transport, aborted, first, data);
    if !sent {
      return false;
    }
    ok := FlushUnlessAborted(transport, aborted, |transport.calls|);
  }

  // ----- receiving

  /** A transport seen from the receiving side: what receiveNext will return, and confirmations made. */
  class ReceiveLog {
    const incoming: seq<Chunk>
    const confirmOk: bool
    var at: nat
    var confirms: seq<(nat, bool)>

    constructor (incoming: seq<Chunk>, confirmOk: bool)
      ensures at == 0 && confirms == []
      ensures this.incoming == incoming && this.confirmOk == confirmOk
    {
      this.incoming, this.confirmOk, at, confirms := incoming, confirmOk, 0, [];
    }

    method ReceiveNext() returns (ok: bool, chunk: Chunk)
      requires at <= |incoming|
      modifies `at
      ensures ok == (old(at) < |incoming|)
      ensures if ok then chunk == incoming[old(at)] && at == old(at) + 1 else at == old(at)
    {
      if at < |incoming| {
        ok, chunk, at := true, incoming[at], at + 1;
      } else {
        ok, chunk := false, Chunk(0, [], false);
      }
    }

    method ConfirmReceive(seqNum: nat, accepted: bool) returns (ok: bool)
      modifies `confirms
      ensures confirms == old(confirms) + [(seqNum, accepted)]
      ensures ok == (accepted && confirmOk)
    {
      confirms := confirms + [(seqNum, accepted)];
      ok := accepted && confirmOk;
    }
  }

  /** The writer after the chunks `cs`, none of them final, were appended without trouble. */
  ghost predicate Filled(w: WriterState, cs: seq<Chunk>, ascii: bool, dest: Option<Data>, carry: bool) {
    w.valid && !w.committed && w.dest == dest && w.next == |cs| && w.good &&
    w.stream == Some(Translated(Payloads(cs), ascii)) &&
    (ascii ==> carry == Ascii.CarryAfter(Flatten(Payloads(cs)), false)) &&
    forall i :: 0 <= i < |cs| ==> cs[i].seqNum == i
  }

  /** Appending the translation of the next chunk keeps the writer filled. */
  lemma FilledSnoc(w: WriterState, cs: seq<Chunk>, c: Chunk, ascii: bool, dest: Option<Data>, carry: bool,
                   data: Data, writeOk: bool)
    requires Filled(w, cs, ascii, dest, carry)
    requires data == if ascii then Ascii.Normalize(c.data, carry) else c.data
    requires CanAppend(w, c.seqNum, data, writeOk)
    ensures Filled(AppendStep(w, c.seqNum, data, writeOk), cs + [c], ascii, dest,
                   Ascii.CarryAfter(c.data, carry))
  {
    assert Payloads(cs + [c]) == Payloads(cs) + [c.data];
    TranslatedSnoc(Payloads(cs), c.data, ascii);
    FlattenSnoc(Payloads(cs), c.data);
    if ascii {
      Ascii.NormalizeAppend(Flatten(Payloads(cs)), c.data, false);
    }
    assert data == [] ==> w.stream.value + data == w.stream.value;
  }

  /** A complete transfer arrives, no abort is seen and every write works. */
  ghost predicate Smooth(incoming: seq<Chunk>, aborted: nat -> bool, writeOk: nat -> bool) {
    Complete(incoming) && (forall i :: !aborted(i)) && forall i :: writeOk(i)
  }

  /** One received chunk is translated and appended. */
  method AppendReceived(writer: ChunkedFileWriter, translator: Ascii.AsciiTranslator, c: Chunk, ascii: bool,
                        writeOk: bool, ghost cs: seq<Chunk>, ghost dest: Option<Data>) returns (ok: bool)
    requires Filled(writer.State(), cs, ascii, dest, translator.decodeCarryCR)
    modifies writer, translator
    ensures ok ==> c.seqNum == |cs| && Filled(writer.State(), cs + [c], ascii, dest, translator.decodeCarryCR)
    ensures !ok ==> writer.dest == dest && !writer.committed
    ensures c.seqNum == |cs| && writeOk ==> ok
  {
    ghost var before, carry := writer.State(), translator.decodeCarryCR;
    var data := c.data;
    if ascii {
      data := translator.Decode(data);
    }
    ok := writer.AppendChunk(c.seqNum, data, writeOk);
    if ok {
      FilledSnoc(before, cs, c, ascii, dest, carry, data, writeOk);
    }
  }

  /**
   * The server's receiveFile: success means that the chunks consumed form a complete transfer and
   * that their translation replaced the destination; failure leaves the old destination. The flag is
   * read before each chunk, after it and before the commit: nothing is received or committed after a
   * reading that was up.
   */
  method ReceiveFile(writer: ChunkedFileWriter, transport: ReceiveLog, ascii: bool,
                     aborted: nat -> bool, writeOk: nat -> bool, moveOk: bool) returns (ok: bool)
    requires transport.at == 0
    requires exists tempOk :: writer.State() == Open(writer.dest, tempOk)
    modifies writer, transport
    ensures transport.at <= |transport.incoming|
    ensures ok ==> Complete(transport.incoming[..transport.at]) &&
                   writer.dest == Some(Translated(Payloads(transport.incoming[..transport.at]), ascii))
    ensures !ok ==> writer.dest == old(writer.dest)
    ensures transport.at > 0 ==> DownFor(aborted, 2 * transport.at - 1)
    ensures ok ==> DownFor(aborted, 2 * transport.at + 1)
    ensures old(writer.valid) && moveOk && Smooth(transport.incoming, aborted, writeOk) ==> ok
  {
    ghost var incoming, dest := transport.incoming, writer.dest;
    if !writer.valid {
      return false;
    }
    var translator := new Ascii.AsciiTranslator();
    var isFinal := false;
    assert incoming[..0] == [];
    while !isFinal
      invariant transport.at <= |incoming|
      invariant Filled(writer.State(), incoming[..transport.at], ascii, dest, translator.decodeCarryCR)
      invariant forall i :: 0 <= i < transport.at ==>
        incoming[i].isFinal == (isFinal && i == transport.at - 1)
      invariant isFinal ==> transport.at > 0
      invariant DownFor(aborted, 2 * transport.at)
      decreases |incoming| - transport.at, !isFinal
    {
      var at := transport.at;
      if aborted(2 * at) {
        return false;
      }
      assert Complete(incoming) ==> incoming[|incoming| - 1].isFinal;
      var got, c := transport.ReceiveNext();
      if !got || aborted(2 * at + 1) {
        return false;
      }
      var appended := AppendReceived(writer, translator, c, ascii, writeOk(transport.at), incoming[..at], dest);
      if !appended {
        return false;
      }
      assert incoming[..at] + [c] == incoming[..at + 1];
      isFinal := c.isFinal;
    }
    if aborted(2 * transport.at) {
      return false;
    }
    ok := writer.Commit(moveOk);
  }

  /** The end of the client's receiveFile: commit unless aborted, then confirm what came of it. */
  method CommitAndConfirm(writer: ChunkedFileWriter, transport: ReceiveLog, seqNum: nat, abort: bool, moveOk: bool)
    returns (ok: bool)
    modifies writer, transport`confirms
    ensures writer.State() == if abort then old(writer.State()) else CommitStep(old(writer.State()), moveOk)
    ensures var committed := !abort && CanCommit(old(writer.State()), moveOk);
            transport.confirms == old(transport.confirms) + [(seqNum, committed)] &&
            ok == (committed && transport.confirmOk)
  {
    var committed := false;
    if !abort {
      committed := writer.Commit(moveOk);
    }
    ok := transport.ConfirmReceive(seqNum, committed);
  }

  /** One round of the client's loop: a chunk received and appended, or a failure, confirmed if there was a chunk. */
  method ReceiveOne(writer: ChunkedFileWriter, translator: Ascii.AsciiTranslator, transport: ReceiveLog, ascii: bool,
                    abortBefore: bool, abortAfter: bool, writeOk: bool, ghost dest: Option<Data>)
    returns (got: Option<Chunk>)
    requires transport.at <= |transport.incoming| && transport.confirms == []
    requires Filled(writer.State(), transport.incoming[..transport.at], ascii, dest, translator.decodeCarryCR)
    modifies writer, translator, transport
    ensures old(transport.at) <= transport.at <= |transport.incoming|
    ensures got.Some? ==>
              && transport.at == old(transport.at) + 1 && got.value == transport.incoming[old(transport.at)]
              && Filled(writer.State(), transport.incoming[..transport.at], ascii, dest, translator.decodeCarryCR)
              && transport.confirms == []
    ensures got.None? ==> writer.dest == dest && !writer.committed
    ensures got.None? ==>
              transport.confirms == if transport.at == old(transport.at) then []
                                    else [(transport.incoming[old(transport.at)].seqNum, false)]
    ensures transport.at <= old(transport.at) + 1
    ensures abortBefore ==> got.None? && transport.at == old(transport.at)
    ensures abortAfter ==> got.None?
    ensures (!abortBefore && !abortAfter && writeOk && old(transport.at) < |transport.incoming| &&
             transport.incoming[old(transport.at)].seqNum == old(transport.at)) ==> got.Some?
  {
    ghost var incoming, at := transport.incoming, transport.at;
    if abortBefore {
      return None;
    }
    var received, c := transport.ReceiveNext();
    if !received {
      return None;
    }
    var appended := false;
    if !abortAfter {
      appended := AppendReceived(writer, translator, c, ascii, writeOk, incoming[..at], dest);
    }
    if !appended {
      var _ := transport.ConfirmReceive(c.seqNum, false);
      return None;
    }
    assert incoming[..at] + [c] == incoming[..at + 1];
    return Some(c);
  }

  /** The last chunk received was refused, and nothing else was confirmed. */
  ghost predicate Refused(transport: ReceiveLog)
    reads transport
  {
    0 < transport.at <= |transport.incoming| &&
    transport.confirms == [(transport.incoming[transport.at - 1].seqNum, false)]
  }

  /** The rounds up to the final chunk, or a failure in one of them. */
  method ReceiveChunks(writer: ChunkedFileWriter, translator: Ascii.AsciiTranslator, transport: ReceiveLog, ascii: bool,
                       aborted: nat -> bool, writeOk: nat -> bool, ghost dest: Option<Data>) returns (last: Option<Chunk>)
    requires transport.at == 0 && transport.confirms == []
    requires Filled(writer.State(), [], ascii, dest, translator.decodeCarryCR)
    modifies writer, translator, transport
    ensures transport.at <= |transport.incoming|
    ensures last.Some? ==>
              && transport.confirms == [] && DownFor(aborted, 2 * transport.at)
              && Complete(transport.incoming[..transport.at]) && last.value == transport.incoming[transport.at - 1]
              && Filled(writer.State(), transport.incoming[..transport.at], ascii, dest, translator.decodeCarryCR)
    ensures last.None? ==>
              && writer.dest == dest && !writer.committed && (transport.confirms == [] || Refused(transport))
              && (transport.at > 0 && transport.incoming[transport.at - 1].isFinal ==> Refused(transport))
    ensures transport.at > 0 ==> DownFor(aborted, 2 * transport.at - 1)
    ensures transport.at > 0 && aborted(2 * transport.at - 1) ==> last.None? && Refused(transport)
    ensures Smooth(transport.incoming, aborted, writeOk) ==> last.Some? && transport.at == |transport.incoming|
  {
    ghost var incoming := transport.incoming;
    assert incoming[..0] == [];
    while true
      invariant transport.at <= |incoming| && transport.confirms == []
      invariant Filled(writer.State(), incoming[..transport.at], ascii, dest, translator.decodeCarryCR)
      invariant forall i :: 0 <= i < transport.at ==> !incoming[i].isFinal
      invariant DownFor(aborted, 2 * transport.at)
      decreases |incoming| - transport.at
    {
      var n := transport.at;
      assert Complete(incoming) ==> n < |incoming| && incoming[n].seqNum == n by {
        assert Complete(incoming) ==> incoming[|incoming| - 1].isFinal;
      }
      last := ReceiveOne(writer, translator, transport, ascii, aborted(2 * n), aborted(2 * n + 1), writeOk(n), dest);
      if last.None? {
        return;
      }
      if last.value.isFinal {
        assert Complete(incoming[..n + 1]);
        return;
      }
    }
  }

  /**
   * The client's receiveFile: as on the server, but every outcome of a chunk is confirmed. Without a
   * commit the only confirmation is the refusal of the last chunk received, and an abort seen once that
   * chunk has arrived is answered by it.
   */
  method ReceiveFileConfirmed(writer: ChunkedFileWriter, transport: ReceiveLog, ascii: bool,
                              aborted: nat -> bool, writeOk: nat -> bool, moveOk: bool) returns (ok: bool)
    requires transport.at == 0 && transport.confirms == []
    requires exists tempOk :: writer.State() == Open(writer.dest, tempOk)
    modifies writer, transport
    ensures transport.at <= |transport.incoming|
    ensures writer.committed ==>
              Complete(transport.incoming[..transport.at]) &&
              writer.dest == Some(Translated(Payloads(transport.incoming[..transport.at]), ascii)) &&
              transport.confirms == [(transport.at - 1, true)]
    ensures !writer.committed ==>
              writer.dest == old(writer.dest) && (transport.confirms == [] || Refused(transport))
    ensures ok <==> writer.committed && transport.confirmOk
    ensures transport.at > 0 ==> DownFor(aborted, 2 * transport.at - 1)
    ensures writer.committed ==> DownFor(aborted, 2 * transport.at + 1)
    ensures transport.at > 0 && aborted(2 * transport.at - 1) ==> Refused(transport)
    ensures transport.at > 0 && transport.incoming[transport.at - 1].isFinal && !writer.committed ==> Refused(transport)
    ensures old(writer.valid) && moveOk && Smooth(transport.incoming, aborted, writeOk) ==>
              writer.committed && transport.at == |transport.incoming|
  {
    if !writer.valid {
      return false;
    }
    var translator := new Ascii.AsciiTranslator();
    var last := ReceiveChunks(writer, translator, transport, ascii, aborted, writeOk, writer.dest);
    if last.None? {
      return false;
    }
    ok := CommitAndConfirm(writer, transport, last.value.seqNum, aborted(2 * transport.at), moveOk);
  }
}
