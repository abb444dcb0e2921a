/** The streaming CRLF normaliser of AsciiTranslator.cpp (the server and client copies agree). */
module Ascii {
  import opened Bytes

  const CR: Byte := 13
  const LF: Byte := 10

  /** What one byte becomes. */
  function Emit(b: Byte, prevCR: bool): Data {
    if b == LF && !prevCR then [CR, LF] else [b]
  }

  /** One pass over `s`; `prevCR` says that the byte before `s` was a carriage return. */
  function Normalize(s: Data, prevCR: bool): Data {
    if s == [] then [] else Emit(s[0], prevCR) + Normalize(s[1..], s[0] == CR)
  }

  /** The carry left behind by a pass. */
  function CarryAfter(s: Data, prevCR: bool): bool {
    if s == [] then prevCR else s[|s| - 1] == CR
  }

  /** In bytes: a lone 10 becomes 13 10, a 10 after a 13 stays, and no other byte changes. */
  lemma ByteForByte(b: Byte)
    ensures Normalize([10], false) == [13, 10] && Normalize([13, 10], false) == [13, 10] && Normalize([10], true) == [10]
    ensures b != 10 ==> Normalize([b], false) == Normalize([b], true) == [b]
  {
    assert [13, 10][1..] == [10] && [10][1..] == [] && [b][1..] == [];
  }

  // ----- what normalisation means, stated without the normaliser

  /** Every line feed is preceded by a carriage return. */
  predicate NoBareLf(s: Data, prevCR: bool) {
    s != [] ==> (s[0] == LF ==> prevCR) && NoBareLf(s[1..], s[0] == CR)
  }

  /** The text with each carriage return that precedes a line feed dropped. */
  function DropCrBeforeLf(s: Data): Data {
    if s == [] then []
    else (if s[0] == CR && |s| > 1 && s[1] == LF then [] else [s[0]]) + DropCrBeforeLf(s[1..])
  }

  // First steps of the recursions on a text built at the front.

  lemma NoBareLfCons(b: Byte, rest: Data, prevCR: bool)
    ensures NoBareLf([b] + rest, prevCR) == ((b == LF ==> prevCR) && NoBareLf(rest, b == CR))
  {
    assert ([b] + rest)[1..] == rest;
  }

  lemma DropCons(b: Byte, rest: Data)
    ensures DropCrBeforeLf([b] + rest) ==
            (if b == CR && rest != [] && rest[0] == LF then [] else [b]) + DropCrBeforeLf(rest)
  {
    assert ([b] + rest)[1..] == rest;
  }

  lemma ExpandCons(b: Byte, rest: Data)
    ensures Expand([b] + rest) == (if b == LF then [CR, LF] else [b]) + Expand(rest)
  {
    assert ([b] + rest)[1..] == rest;
  }

  lemma {:induction false} NormalizeHasNoBareLf(s: Data, prevCR: bool)
    ensures NoBareLf(Normalize(s, prevCR), prevCR)
  {
    if s != [] {
      var rest := Normalize(s[1..], s[0] == CR);
      NormalizeHasNoBareLf(s[1..], s[0] == CR);
      NoBareLfCons(s[0], rest, prevCR || s[0] == LF);
      if s[0] == LF && !prevCR {
        assert [CR, LF] + rest == [CR] + ([LF] + rest);
        NoBareLfCons(CR, [LF] + rest, prevCR);
      }
    }
  }

  /** Normalisation keeps the text up to line endings, whatever the carry. */
  lemma {:induction false} NormalizeKeepsText(s: Data, prevCR: bool)
    ensures DropCrBeforeLf(Normalize(s, prevCR)) == DropCrBeforeLf(s)
  {
    if s != [] {
      var rest := Normalize(s[1..], s[0] == CR);
      NormalizeKeepsText(s[1..], s[0] == CR);
      DropCons(s[0], rest);
      if s[0] == LF && !prevCR {
        assert [CR, LF] + rest == [CR] + ([LF] + rest);
        DropCons(CR, [LF] + rest);
      } else if s[0] == CR && |s| > 1 {
        assert rest == Emit(s[1], true) + Normalize(s[1..][1..], s[1] == CR);
        assert rest[0] == s[1];
      }
    }
  }

  /** Each line feed expanded to carriage return and line feed. */
  function Expand(s: Data): Data {
    if s == [] then [] else (if s[0] == LF then [CR, LF] else [s[0]]) + Expand(s[1..])
  }

  /** Text without bare line feeds is determined by what is left after dropping the returns. */
  lemma {:induction false} DroppedDetermines(t: Data)
    requires NoBareLf(t, false)
    ensures Expand(DropCrBeforeLf(t)) == t
  {
    if t != [] {
      if t[0] == CR && |t| > 1 && t[1] == LF {
        var u := t[2..];
        assert t[1..] == [LF] + u && t == [CR, LF] + u;
        NoBareLfCons(LF, u, true);
        DropCons(LF, u);
        DroppedDetermines(u);
        assert DropCrBeforeLf(t) == [LF] + DropCrBeforeLf(u);
        ExpandCons(LF, DropCrBeforeLf(u));
      } else {
        var u := t[1..];
        assert u != [] ==> u[0] == t[1];
        DroppedDetermines(u);
        assert DropCrBeforeLf(t) == [t[0]] + DropCrBeforeLf(u);
        ExpandCons(t[0], DropCrBeforeLf(u));
      }
    }
  }

  /**
   * The normalised file is the one and only text that has no bare line feed and
   * agrees with the source once carriage returns before line feeds are dropped.
   */
  lemma NormalizeCharacterised(s: Data, t: Data)
    ensures t == Normalize(s, false) <==> NoBareLf(t, false) && DropCrBeforeLf(t) == DropCrBeforeLf(s)
  {
    var n := Normalize(s, false);
    NormalizeHasNoBareLf(s, false);
    NormalizeKeepsText(s, false);
    DroppedDetermines(n);
    if NoBareLf(t, false) && DropCrBeforeLf(t) == DropCrBeforeLf(s) {
      DroppedDetermines(t);
    }
  }

  // ----- streaming

  /** Translating in two pieces with the carry kept equals one pass. */
  lemma {:induction false} NormalizeAppend(a: Data, b: Data, prevCR: bool)
    ensures Normalize(a + b, prevCR) == Normalize(a, prevCR) + Normalize(b, CarryAfter(a, prevCR))
    ensures CarryAfter(a + b, prevCR) == CarryAfter(b, CarryAfter(a, prevCR))
  {
    CarryAppend(a, b, prevCR);
    if a == [] {
      assert a + b == b;
    } else {
      var head, rest := Emit(a[0], prevCR), a[1..];
      var carry := CarryAfter(a, prevCR);
      assert CarryAfter(rest, a[0] == CR) == carry;
      NormalizeAppend(rest, b, a[0] == CR);
      NormalizeCons(a + b, rest + b, prevCR) by { assert (a + b)[1..] == rest + b; }
      Associative(head, Normalize(rest, a[0] == CR), Normalize(b, carry));
    }
  }

  lemma CarryAppend(a: Data, b: Data, prevCR: bool)
    ensures CarryAfter(a + b, prevCR) == CarryAfter(b, CarryAfter(a, prevCR))
  {
    assert b == [] ==> a + b == a;
  }

  lemma NormalizeCons(s: Data, rest: Data, prevCR: bool)
    requires s != [] && s[1..] == rest
    ensures Normalize(s, prevCR) == Emit(s[0], prevCR) + Normalize(rest, s[0] == CR)
  {
  }

  /** Text with no bare line feed passes through unchanged. */
  lemma {:induction false} NormalizeFixed(s: Data, prevCR: bool)
    requires NoBareLf(s, prevCR)
    ensures Normalize(s, prevCR) == s
  {
    if s != [] {
      NormalizeFixed(s[1..], s[0] == CR);
      assert s == [s[0]] + s[1..];
    }
  }

  /** Decoding what was encoded adds nothing. */
  lemma DecodeAfterEncode(s: Data)
    ensures Normalize(Normalize(s, false), false) == Normalize(s, false)
  {
    NormalizeHasNoBareLf(s, false);
    NormalizeFixed(Normalize(s, false), false);
  }

  /** Pieces translated one after another with a kept carry. */
  function TranslateAll(pieces: seq<Data>, prevCR: bool): Data {
    if pieces == [] then []
    else Normalize(pieces[0], prevCR) + TranslateAll(pieces[1..], CarryAfter(pieces[0], prevCR))
  }

  /** Chunk boundaries do not matter. */
  lemma {:induction false} StreamingEqualsOneShot(pieces: seq<Data>, prevCR: bool)
    ensures TranslateAll(pieces, prevCR) == Normalize(Flatten(pieces), prevCR)
  {
    if pieces != [] {
      StreamingEqualsOneShot(pieces[1..], CarryAfter(pieces[0], prevCR));
      NormalizeAppend(pieces[0], Flatten(pieces[1..]), prevCR);
    }
  }

  /**
   * The meaning of an ASCII transfer: cut the source anyhow and encode the pieces, cut the
   * result anyhow again and decode; the outcome is one pass over the source.
   */
  lemma AsciiTransferMeaning(source: seq<Data>, wire: seq<Data>)
    requires Flatten(wire) == TranslateAll(source, false)
    ensures TranslateAll(wire, false) == Normalize(Flatten(source), false)
  {
    StreamingEqualsOneShot(source, false);
    StreamingEqualsOneShot(wire, false);
    DecodeAfterEncode(Flatten(source));
  }

  /** AsciiTranslator: one carry per direction survives between calls. */
  class AsciiTranslator {
    var encodeCarryCR: bool
    var decodeCarryCR: bool

    constructor ()
      ensures !encodeCarryCR && !decodeCarryCR
    {
      encodeCarryCR, decodeCarryCR := false, false;
    }

    method Encode(raw: Data) returns (out: Data)
      modifies `encodeCarryCR
      ensures out == Normalize(raw, old(encodeCarryCR))
      ensures encodeCarryCR == CarryAfter(raw, old(encodeCarryCR))
    {
      out, encodeCarryCR := NormalizeToCRLF(raw, encodeCarryCR);
    }

    method Decode(wire: Data) returns (out: Data)
      modifies `decodeCarryCR
      ensures out == Normalize(wire, old(decodeCarryCR))
      ensures decodeCarryCR == CarryAfter(wire, old(decodeCarryCR))
    {
      out, decodeCarryCR := NormalizeToCRLF(wire, decodeCarryCR);
    }
  }

  /** normalizeToCRLF: the byte loop, with the carry passed in and handed back. */
  method NormalizeToCRLF(input: Data, carryPrevCR: bool) returns (out: Data, carry: bool)
    ensures out == Normalize(input, carryPrevCR)
    ensures carry == CarryAfter(input, carryPrevCR)
  {
    out := [];
    var prevWasCR := carryPrevCR;
    for i := 0 to |input|
      invariant prevWasCR == CarryAfter(input[..i], carryPrevCR)
      invariant out == Normalize(input[..i], carryPrevCR)
    {
      var b := input[i];
      NormalizeAppend(input[..i], [b], carryPrevCR);
      assert input[..i] + [b] == input[..i + 1];
      assert Normalize([b], prevWasCR) == if b == LF && !prevWasCR then [CR, LF] else [b];
      if b == LF {
        if !prevWasCR {
          out := out + [CR];
        }
        out := out + [LF];
        prevWasCR := false;
      } else {
        out := out + [b];
        prevWasCR := b == CR;
      }
    }
    assert input[..|input|] == input;
    carry := prevWasCR;
  }
}
