/** The chunked readers: plain bytes, and CRLF-normalised text re-cut to full chunks. */
module Readers {
  import opened Bytes
  import Ascii

  const CHUNK_SIZE := 1024

  /** One numbered piece of a transfer, as sendChunk and receiveNext pass it. */
  datatype Chunk = Chunk(seqNum: nat, data: Data, isFinal: bool)

  function Take(data: Data): (r: Data) { if |data| <= CHUNK_SIZE then data else data[..CHUNK_SIZE] }

  function Drop(data: Data): (r: Data)
    ensures Take(data) + r == data
  {
    if |data| <= CHUNK_SIZE then [] else data[CHUNK_SIZE..]
  }

  /** Full chunks, then one remainder. */
  function Cut(data: Data): seq<Data>
    decreases |data|
  {
    if data == [] then [] else [Take(data)] + Cut(Drop(data))
  }

  /** The pieces of a transfer: an empty file is still one (empty) piece. */
  function Pieces(data: Data): (r: seq<Data>)
    ensures |r| > 0
  {
    if data == [] then [[]] else Cut(data)
  }

  /** Piece `i` as the transports number it; only the last is final. */
  function PieceChunk(pieces: seq<Data>, i: nat): Chunk
    requires i < |pieces|
  {
    Chunk(i, pieces[i], i == |pieces| - 1)
  }

  /** The pieces as chunks. */
  function Numbered(pieces: seq<Data>): (r: seq<Chunk>)
    ensures |r| == |pieces|
  {
    seq(|pieces|, i requires 0 <= i < |pieces| => PieceChunk(pieces, i))
  }

  /** What a transfer of `data` hands to the transport. */
  function Chunks(data: Data): (r: seq<Chunk>)
    ensures |r| == |Pieces(data)|
  {
    Numbered(Pieces(data))
  }

  function Payloads(cs: seq<Chunk>): (r: seq<Data>)
    ensures |r| == |cs|
  {
    seq(|cs|, i requires 0 <= i < |cs| => cs[i].data)
  }

  /** Cutting loses nothing, every piece fits a datagram and all but the last are full. */
  lemma {:induction false} CutShape(data: Data)
    ensures Flatten(Cut(data)) == data
    ensures forall i :: 0 <= i < |Cut(data)| ==> 1 <= |Cut(data)[i]| <= 1024
    ensures forall i :: 0 <= i < |Cut(data)| - 1 ==> |Cut(data)[i]| == 1024
    decreases |data|
  {
    if data != [] {
      CutShape(Drop(data));
      var c, d := Cut(data), Cut(Drop(data));
      assert c[1..] == d;
      forall i | 1 <= i < |c|
        ensures 1 <= |c[i]| <= CHUNK_SIZE && (i < |c| - 1 ==> |c[i]| == CHUNK_SIZE)
      {
        assert c[i] == d[i - 1];
      }
      assert |c| > 1 ==> Drop(data) != [];
    }
  }

  lemma PiecesShape(data: Data)
    ensures Flatten(Pieces(data)) == data
    ensures forall i :: 0 <= i < |Pieces(data)| ==> |Pieces(data)[i]| <= CHUNK_SIZE
    ensures Payloads(Chunks(data)) == Pieces(data)
  {
    CutShape(data);
    if data == [] {
      FlattenOne<Byte>([]);
    }
  }

  /** ChunkedFileReader: a stream position over the bytes of an opened file. */
  class ChunkedFileReader {
    const contents: Data
    const isOpen: bool
    var pos: nat

    ghost predicate Valid() reads this { pos <= |contents| }

    ghost function Remaining(): Data
      requires Valid()
      reads this
    {
      contents[pos..]
    }

    constructor (file: Option<Data>)
      ensures Valid() && isOpen == file.Some?
      ensures Remaining() == if file.Some? then file.value else []
    {
      isOpen := file.Some?;
      contents := if file.Some? then file.value else [];
      pos := 0;
    }

    method NextChunk() returns (more: bool, chunk: Data)
      requires Valid()
      modifies `pos
      ensures Valid()
      ensures more <==> old(Remaining()) != []
      ensures chunk == Take(old(Remaining())) && Remaining() == Drop(old(Remaining()))
    {
      var end := if pos + CHUNK_SIZE <= |contents| then pos + CHUNK_SIZE else |contents|;
      chunk := contents[pos..end];
      pos := end;
      more := |chunk| > 0;
    }
  }

  /** AsciiChunkedReader: translated bytes wait in pendingOutput until a chunk is full. */
  class AsciiChunkedReader {
    const reader: ChunkedFileReader
    const translator: Ascii.AsciiTranslator
    var pendingOutput: Data

    ghost predicate Valid() reads this, reader { reader.Valid() }

    /** The translated bytes not yet handed out. */
    ghost function Remaining(): Data
      requires Valid()
      reads this, reader, translator
    {
      pendingOutput + Ascii.Normalize(reader.Remaining(), translator.encodeCarryCR)
    }

    constructor (file: Option<Data>)
      ensures Valid() && reader.isOpen == file.Some?
      ensures fresh(reader) && fresh(translator)
      ensures Remaining() == if file.Some? then Ascii.Normalize(file.value, false) else []
    {
      reader := new ChunkedFileReader(file);
      translator := new Ascii.AsciiTranslator();
      pendingOutput := [];
    }

    /** One round of the loop: read a raw chunk, translate it, keep the result pending. */
    method Pull() returns (got: bool)
      requires Valid()
      modifies this, reader, translator
      ensures Valid() && Remaining() == old(Remaining())
      ensures got ==> |reader.Remaining()| < old(|reader.Remaining()|)
      ensures !got ==> reader.Remaining() == [] && pendingOutput == old(pendingOutput)
    {
      ghost var rest, carry := reader.Remaining(), translator.encodeCarryCR;
      var raw;
      got, raw := reader.NextChunk();
      if got {
        var translated := translator.Encode(raw);
        ghost var later := Ascii.Normalize(reader.Remaining(), translator.encodeCarryCR);
        assert rest == raw + reader.Remaining();
        Ascii.NormalizeAppend(raw, reader.Remaining(), carry);
        Associative(pendingOutput, translated, later);
        pendingOutput := pendingOutput + translated;
      }
    }

    method NextChunk() returns (more: bool, chunk: Data)
      requires Valid()
      modifies this, reader, translator
      ensures Valid()
      ensures more <==> old(Remaining()) != []
      ensures more ==> chunk == Take(old(Remaining()))
      ensures Remaining() == Drop(old(Remaining()))
    {
      var got := true;
      while |pendingOutput| < CHUNK_SIZE && got
        invariant Valid() && Remaining() == old(Remaining())
        invariant !got ==> reader.Remaining() == []
        decreases got, |reader.Remaining()|
      {
        got := Pull();
      }
      ghost var all := Remaining();
      if |pendingOutput| == 0 {
        return false, [];
      }
      TakeDropFront(pendingOutput, all[|pendingOutput|..]);
      chunk := Take(pendingOutput);
      pendingOutput := Drop(pendingOutput);
      more := true;
    }
  }

  /** A chunk cut from the front is the same whether the whole text or enough of it is there. */
  lemma TakeDropFront(front: Data, rest: Data)
    requires |front| >= CHUNK_SIZE || rest == []
    ensures Take(front + rest) == Take(front)
    ensures Drop(front + rest) == Drop(front) + rest
  {
    if rest == [] {
      assert front + rest == front;
      assert Drop(front) + rest == Drop(front);
    } else if |front| == CHUNK_SIZE {
      assert (front + rest)[CHUNK_SIZE..] == rest;
    } else {
      assert (front + rest)[CHUNK_SIZE..] == front[CHUNK_SIZE..] + rest;
    }
  }

  /** The two readers that the sendFromReader template is used with. */
  datatype Source = Plain(file: ChunkedFileReader) | Text(text: AsciiChunkedReader) {
    ghost function Footprint(): set<object> {
      match this
      case Plain(file) => {file}
      case Text(text) => {text, text.reader, text.translator}
    }

    ghost predicate Valid()
      reads Footprint()
    {
      match this
      case Plain(file) => file.Valid()
      case Text(text) => text.Valid()
    }

    ghost function Remaining(): Data
      requires Valid()
      reads Footprint()
    {
      match this
      case Plain(file) => file.Remaining()
      case Text(text) => text.Remaining()
    }

    predicate IsOpen() {
      match this
      case Plain(file) => file.isOpen
      case Text(text) => text.reader.isOpen
    }

    method NextChunk() returns (more: bool, chunk: Data)
      requires Valid()
      modifies Footprint()
      ensures Valid()
      ensures more <==> old(Remaining()) != []
      ensures more ==> chunk == Take(old(Remaining()))
      ensures Remaining() == Drop(old(Remaining()))
    {
      match this
      case Plain(file) => more, chunk := file.NextChunk();
      case Text(text) => more, chunk := text.NextChunk();
    }
  }
}
