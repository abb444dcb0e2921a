/** The 16-byte header and the validating decoder of shared/protocol/RdtHeader.cpp. */
module Codec {
  import opened Bytes
  import opened Checksum

  const HEADER_SIZE := 16
  const MAX_PAYLOAD := 1024

  const FLAG_SYN := 1
  const FLAG_ACK := 2
  const FLAG_FIN := 4
  const FLAG_DATA := 8
  const FLAG_NAK := 16

  type U16 = x: int | 0 <= x < 0x1_0000
  type U32 = x: int | 0 <= x < 0x1_0000_0000

  datatype Header = Header(seqNum: U32, ackNum: U32, flags: Byte, windowSize: U16,
                           payloadLen: U16, checksum: U16, reserved: Byte)

  /** The flag with value `mask`, a power of two, is set in a flag byte. */
  predicate HasFlag(flags: Byte, mask: nat)
    requires mask > 0
  {
    flags / mask % 2 == 1
  }

  // ----- network byte order

  function Put16(x: U16): Data { [x / 256, x % 256] }

  function Put32(x: U32): Data { Put16(x / 0x1_0000) + Put16(x % 0x1_0000) }

  function Get16(b: Data, at: nat): U16
    requires at + 2 <= |b|
  {
    var high: int, low: int := b[at], b[at + 1];
    high * 256 + low
  }

  function Get32(b: Data, at: nat): U32
    requires at + 4 <= |b|
  {
    Get16(b, at) * 0x1_0000 + Get16(b, at + 2)
  }

  function HeaderBytes(h: Header): (b: Data)
    ensures |b| == HEADER_SIZE
  {
    Put32(h.seqNum) + Put32(h.ackNum) + [h.flags] + Put16(h.windowSize) +
    Put16(h.payloadLen) + Put16(h.checksum) + [h.reserved]
  }

  function ParseHeader(b: Data): Header
    requires |b| >= HEADER_SIZE
  {
    Header(Get32(b, 0), Get32(b, 4), b[8], Get16(b, 9), Get16(b, 11), Get16(b, 13), b[15])
  }

  /** Two bytes in network order read as the number they were written for. */
  lemma Field16(b: Data, at: nat, x: U16)
    requires at + 2 <= |b| && b[at] == x / 256 && b[at + 1] == x % 256
    ensures Get16(b, at) == x
  {
  }

  lemma Field32(b: Data, at: nat, x: U32)
    requires at + 4 <= |b| && Put32(x) == b[at..at + 4]
    ensures Get32(b, at) == x
  {
    assert forall k :: 0 <= k < 4 ==> b[at + k] == Put32(x)[k];
    assert b[at] == Put32(x)[0] && b[at + 1] == Put32(x)[1] && b[at + 2] == Put32(x)[2] && b[at + 3] == Put32(x)[3];
    Field16(b, at, x / 0x1_0000);
    Field16(b, at + 2, x % 0x1_0000);
  }

  lemma HeaderRoundTrip(h: Header, payload: Data)
    ensures ParseHeader(HeaderBytes(h) + payload) == h
  {
    var b := HeaderBytes(h) + payload;
    assert b[0..4] == Put32(h.seqNum);
    assert b[4..8] == Put32(h.ackNum);
    Field32(b, 0, h.seqNum);
    Field32(b, 4, h.ackNum);
    assert b[8] == h.flags && b[15] == h.reserved;
    assert b[9] == h.windowSize / 256 && b[10] == h.windowSize % 256;
    assert b[11] == h.payloadLen / 256 && b[12] == h.payloadLen % 256;
    assert b[13] == h.checksum / 256 && b[14] == h.checksum % 256;
    Field16(b, 9, h.windowSize);
    Field16(b, 11, h.payloadLen);
    Field16(b, 13, h.checksum);
  }

  // ----- decoding

  /** A SYN or ACK without DATA is header-only. */
  predicate HeaderOnlyControl(flags: Byte) {
    (HasFlag(flags, FLAG_SYN) || HasFlag(flags, FLAG_ACK)) && !HasFlag(flags, FLAG_DATA)
  }

  /** The length and flag tests that come before the checksum test. */
  predicate WellShaped(b: Data) {
    HEADER_SIZE <= |b| <= HEADER_SIZE + MAX_PAYLOAD &&
    var h := ParseHeader(b);
    h.payloadLen <= MAX_PAYLOAD && |b| == HEADER_SIZE + h.payloadLen &&
    (HeaderOnlyControl(h.flags) ==> h.payloadLen == 0)
  }

  /** The datagram with its checksum field blanked. */
  function Blanked(b: Data): (r: Data)
    requires |b| >= HEADER_SIZE
    ensures |r| == |b|
  {
    b[13 := 0][14 := 0]
  }

  function Decode(b: Data): (r: Option<Header>) {
    if WellShaped(b) && ChecksumOf(Blanked(b)) == ParseHeader(b).checksum
    then Some(ParseHeader(b)) else None
  }

  /** The bytes both senders put on the wire for a header and payload. */
  function Wire(h: Header, payload: Data): (b: Data)
    ensures |b| == HEADER_SIZE + |payload|
  {
    var blank := h.(checksum := 0);
    HeaderBytes(h.(checksum := ChecksumOf(HeaderBytes(blank) + payload))) + payload
  }

  /** What the checksum field of a datagram should hold: the complement of the folded sum of the rest. */
  function ChecksumField(b: Data): nat
    requires |b| >= HEADER_SIZE
  {
    0xFFFF - Residue(WordSum(Blanked(b)) % 0x1_0000_0000)
  }

  /** The sixteen bytes of a built header, one by one. */
  lemma WireBytes(h: Header, payload: Data)
    ensures var b := Wire(h, payload);
            && b[..16] == [h.seqNum / 0x1_0000 / 256, h.seqNum / 0x1_0000 % 256, h.seqNum % 0x1_0000 / 256, h.seqNum % 0x1_0000 % 256,
                           h.ackNum / 0x1_0000 / 256, h.ackNum / 0x1_0000 % 256, h.ackNum % 0x1_0000 / 256, h.ackNum % 0x1_0000 % 256,
                           h.flags, h.windowSize / 256, h.windowSize % 256, h.payloadLen / 256, h.payloadLen % 256,
                           ChecksumField(b) / 256, ChecksumField(b) % 256, h.reserved]
            && b[16..] == payload
  {
    var blank := h.(checksum := 0);
    var full := h.(checksum := ChecksumOf(HeaderBytes(blank) + payload));
    BlankedHeader(full, payload);
    assert full.(checksum := 0) == blank;
    assert Wire(h, payload)[..16] == HeaderBytes(full);
  }

  lemma BlankedHeader(h: Header, payload: Data)
    ensures Blanked(HeaderBytes(h) + payload) == HeaderBytes(h.(checksum := 0)) + payload
  {
  }

  /** A built datagram decodes to its own header, exactly when its shape is admissible. */
  lemma DecodeWire(h: Header, payload: Data)
    ensures var r := Decode(Wire(h, payload));
            if h.payloadLen == |payload| <= MAX_PAYLOAD && (HeaderOnlyControl(h.flags) ==> payload == [])
            then r.Some? && r.value.(checksum := 0) == h.(checksum := 0)
            else r.None?
  {
    var blank := h.(checksum := 0);
    var full := h.(checksum := ChecksumOf(HeaderBytes(blank) + payload));
    HeaderRoundTrip(full, payload);
    BlankedHeader(full, payload);
    assert full.(checksum := 0) == blank;
  }

  // ----- corruption

  /** The sum that the checksum of a datagram covers. */
  function CoveredSum(b: Data): nat
    requires |b| >= HEADER_SIZE
  {
    WordSum(Blanked(b))
  }

  /**
   * A corrupted copy with an unchanged checksum field gets past the checksum test exactly
   * when its sum stays in the same class modulo 65535 and agrees on being zero.
   */
  lemma CorruptionUndetectedIff(good: Data, bad: Data)
    requires Decode(good).Some? && WellShaped(bad)
    requires bad[13..15] == good[13..15]
    ensures Decode(bad).Some? <==>
              CoveredSum(bad) % 65535 == CoveredSum(good) % 65535 &&
              (CoveredSum(bad) == 0 <==> CoveredSum(good) == 0)
  {
    NoOverflow(Blanked(good));
    NoOverflow(Blanked(bad));
    ResidueEqual(CoveredSum(bad), CoveredSum(good));
    assert Get16(bad, 13) == Get16(bad[13..15], 0) == Get16(good[13..15], 0) == Get16(good, 13);
  }

  /** Replacing any one byte of a valid datagram by any other value makes the decoder reject it. */
  lemma SingleByteCorruptionRejected(b: Data, i: nat, v: Byte)
    requires Decode(b).Some?
    requires i < |b| && v != b[i]
    ensures Decode(b[i := v]).None?
  {
    var bad := b[i := v];
    if WellShaped(bad) {
      if i == 13 || i == 14 {
        assert Blanked(bad) == Blanked(b);
        assert Get16(bad, 13) != Get16(b, 13);
      } else {
        assert Blanked(bad) == Blanked(b)[i := v];
        WordSumUpdate(Blanked(b), i, v);
        var shift := (v - b[i]) * (if i % 2 == 0 then 256 else 1);
        assert CoveredSum(bad) == CoveredSum(b) + shift;
        assert shift != 0 && -65535 < shift < 65535;
        assert CoveredSum(bad) % 65535 != CoveredSum(b) % 65535 by {
          NotCongruent(CoveredSum(b), shift);
        }
        CorruptionUndetectedIff(b, bad);
      }
    }
  }

  lemma NotCongruent(sum: int, shift: int)
    requires shift != 0 && -65535 < shift < 65535
    ensures (sum + shift) % 65535 != sum % 65535
  {
    var q, q' := sum / 65535, (sum + shift) / 65535;
    assert shift == (q' - q) * 65535 + ((sum + shift) % 65535 - sum % 65535);
  }

  /** One flipped bit: the bit with value `mask` of byte `i` is inverted. */
  function FlipBit(b: Data, i: nat, mask: nat): (r: Data)
    requires i < |b| && mask in {1, 2, 4, 8, 16, 32, 64, 128}
    ensures |r| == |b| && r[i] != b[i]
  {
    b[i := if HasFlag(b[i], mask) then b[i] - mask else b[i] + mask]
  }

  /** A flipped bit anywhere acts as a drop; the fault injector flips bit 1 of the first payload byte. */
  lemma FlippedBitRejected(b: Data, i: nat, mask: nat)
    requires Decode(b).Some?
    requires i < |b| && mask in {1, 2, 4, 8, 16, 32, 64, 128}
    ensures Decode(FlipBit(b, i, mask)).None?
  {
    SingleByteCorruptionRejected(b, i, FlipBit(b, i, mask)[i]);
  }

  // ----- the buffer code

  /** serializeHeader: writes the sixteen header bytes at their offsets. */
  method SerializeHeader(h: Header, buffer: array<Byte>)
    requires buffer.Length >= HEADER_SIZE
    modifies buffer
    ensures buffer[..HEADER_SIZE] == HeaderBytes(h)
    ensures buffer[HEADER_SIZE..] == old(buffer[HEADER_SIZE..])
  {
    Copy(Put32(h.seqNum), buffer, 0);
    Copy(Put32(h.ackNum), buffer, 4);
    buffer[8] := h.flags;
    Copy(Put16(h.windowSize), buffer, 9);
    Copy(Put16(h.payloadLen), buffer, 11);
    Copy(Put16(h.checksum), buffer, 13);
    buffer[15] := h.reserved;
    assert forall k :: HEADER_SIZE <= k < buffer.Length ==> buffer[k] == old(buffer[k]);
  }

  /** memcpy into a buffer at an offset. */
  method Copy(from: Data, buffer: array<Byte>, at: nat)
    requires at + |from| <= buffer.Length
    modifies buffer
    ensures forall k :: 0 <= k < |from| ==> buffer[at + k] == from[k]
    ensures forall k :: 0 <= k < buffer.Length && !(at <= k < at + |from|) ==> buffer[k] == old(buffer[k])
  {
    for k := 0 to |from|
      invariant forall j :: 0 <= j < k ==> buffer[at + j] == from[j]
      invariant forall j :: 0 <= j < buffer.Length && !(at <= j < at + k) ==> buffer[j] == old(buffer[j])
    {
      buffer[at + k] := from[k];
    }
  }

  /** The build sequence of the senders: checksum over a zeroed field, then the final header. */
  method BuildDatagram(h: Header, payload: Data) returns (wire: array<Byte>)
    ensures fresh(wire) && wire[..] == Wire(h, payload)
  {
    wire := new Byte[HEADER_SIZE + |payload|](_ => 0);
    SerializeHeader(h.(checksum := 0), wire);
    Copy(payload, wire, HEADER_SIZE);
    assert wire[..] == HeaderBytes(h.(checksum := 0)) + payload;
    var checksum := InternetChecksum(wire[..]);
    SerializeHeader(h.(checksum := checksum), wire);
    assert wire[..] == wire[..HEADER_SIZE] + wire[HEADER_SIZE..];
  }

  /** decodeValidatedDatagram: the caller's buffer is never written. */
  method DecodeValidatedDatagram(bytes: array?<Byte>, length: nat) returns (header: Option<Header>)
    requires bytes != null ==> length <= bytes.Length
    ensures header == if bytes == null then None else Decode(bytes[..length])
  {
    if bytes == null || length < HEADER_SIZE || length > HEADER_SIZE + MAX_PAYLOAD {
      return None;
    }
    var decoded := ParseHeader(bytes[..length]);
    if decoded.payloadLen > MAX_PAYLOAD || length != HEADER_SIZE + decoded.payloadLen {
      return None;
    }
    if HeaderOnlyControl(decoded.flags) && decoded.payloadLen != 0 {
      return None;
    }
    var scratch := new Byte[HEADER_SIZE + MAX_PAYLOAD](_ => 0);
    Copy(bytes[..length], scratch, 0);
    assert scratch[..length] == bytes[..length];
    scratch[13] := 0;
    scratch[14] := 0;
    assert scratch[..length] == Blanked(bytes[..length]);
    var computed := InternetChecksum(scratch[..length]);
    if computed != decoded.checksum {
      return None;
    }
    return Some(decoded);
  }
}
