/** Datagrams as the endpoints see them after decoding, and their tie to the wire format. */
module Datagrams {
  import opened Bytes
  import Codec

  /** Packets either side may have in flight, and a receiver takes. */
  const RECEIVE_WINDOW := 10

  datatype Flags = Flags(syn: bool, ack: bool, fin: bool, data: bool, nak: bool)

  datatype Datagram = Datagram(seqNum: nat, ackNum: nat, flags: Flags, payload: Data)

  function DataPacket(seqNum: nat, payload: Data, isFinal: bool): Datagram {
    Datagram(seqNum, 0, Flags(false, false, isFinal, true, false), payload)
  }

  /** The packet of piece `i` of a transfer; only the last carries FIN. */
  function PiecePacket(pieces: seq<Data>, i: nat): Datagram
    requires i < |pieces|
  {
    DataPacket(i, pieces[i], i == |pieces| - 1)
  }

  function Ack(seqNum: nat): Datagram { Datagram(0, seqNum, Flags(false, true, false, false, false), []) }

  function Nak(seqNum: nat): Datagram { Datagram(0, seqNum, Flags(false, false, false, false, true), []) }

  const SYN: Datagram := Datagram(0, 0, Flags(true, false, false, false, false), [])

  /** The same datagram `n` times. */
  function Copies(n: nat, d: Datagram): (r: seq<Datagram>)
    ensures |r| == n && forall i :: 0 <= i < n ==> r[i] == d
  {
    if n == 0 then [] else Copies(n - 1, d) + [d]
  }

  lemma CopiesSnoc(before: seq<Datagram>, n: nat, d: Datagram)
    ensures before + Copies(n + 1, d) == before + Copies(n, d) + [d]
  {
  }

  // ----- on the wire

  function FlagByte(f: Flags): Byte {
    (if f.syn then Codec.FLAG_SYN else 0) + (if f.ack then Codec.FLAG_ACK else 0) +
    (if f.fin then Codec.FLAG_FIN else 0) + (if f.data then Codec.FLAG_DATA else 0) +
    (if f.nak then Codec.FLAG_NAK else 0)
  }

  function FlagsOf(b: Byte): Flags {
    Flags(Codec.HasFlag(b, Codec.FLAG_SYN), Codec.HasFlag(b, Codec.FLAG_ACK), Codec.HasFlag(b, Codec.FLAG_FIN),
          Codec.HasFlag(b, Codec.FLAG_DATA), Codec.HasFlag(b, Codec.FLAG_NAK))
  }

  /** Numbers fit their fields, the payload fits a datagram, and SYN and ACK carry none. */
  predicate Sendable(d: Datagram) {
    d.seqNum < 0x1_0000_0000 && d.ackNum < 0x1_0000_0000 && |d.payload| <= Codec.MAX_PAYLOAD &&
    ((d.flags.syn || d.flags.ack) && !d.flags.data ==> d.payload == [])
  }

  function HeaderOf(d: Datagram, windowSize: Codec.U16): Codec.Header
    requires Sendable(d)
  {
    Codec.Header(d.seqNum, d.ackNum, FlagByte(d.flags), windowSize, |d.payload|, 0, 0)
  }

  /** Bytes of a datagram, as built by every sender in the program. */
  function ToWire(d: Datagram, windowSize: Codec.U16): Data
    requires Sendable(d)
  {
    Codec.Wire(HeaderOf(d, windowSize), d.payload)
  }

  /** A received buffer: None when the decoder rejects it. */
  function FromWire(b: Data): Option<Datagram> {
    match Codec.Decode(b)
    case None => None
    case Some(h) => Some(Datagram(h.seqNum, h.ackNum, FlagsOf(h.flags), b[Codec.HEADER_SIZE..]))
  }

  lemma FlagsRoundTrip(f: Flags)
    ensures FlagsOf(FlagByte(f)) == f
  {
  }

  /** Bytes `at` and `at + 1` as a number in network byte order. */
  function Big16(b: Data, at: nat): int
    requires at + 2 <= |b|
  {
    (b[at] as int) * 0x100 + b[at + 1]
  }

  /** Bytes `at` to `at + 3` as a number in network byte order. */
  function Big32(b: Data, at: nat): int
    requires at + 4 <= |b|
  {
    (b[at] as int) * 0x100_0000 + (b[at + 1] as int) * 0x1_0000 + Big16(b, at + 2)
  }

  /** The value of the flag byte: SYN 1, ACK 2, FIN 4, DATA 8, NAK 16. */
  function FlagValue(f: Flags): int {
    (if f.syn then 1 else 0) + (if f.ack then 2 else 0) + (if f.fin then 4 else 0) + (if f.data then 8 else 0) +
    (if f.nak then 16 else 0)
  }

  /**
   * Where the fields of a built datagram lie: sequence number, acknowledgement number, flags, window,
   * payload length, checksum, a zero byte, and the payload from byte 16 on; numbers in network order.
   */
  lemma WireLayout(d: Datagram, windowSize: Codec.U16)
    requires Sendable(d)
    ensures var b := ToWire(d, windowSize);
            && |b| == 16 + |d.payload| && b[16..] == d.payload
            && Big32(b, 0) == d.seqNum && Big32(b, 4) == d.ackNum && b[8] == FlagValue(d.flags)
            && Big16(b, 9) == windowSize && Big16(b, 11) == |d.payload|
            && Big16(b, 13) == Codec.ChecksumField(b) && b[15] == 0
  {
    var h, b := HeaderOf(d, windowSize), ToWire(d, windowSize);
    Codec.WireBytes(h, d.payload);
    assert b[..16] + b[16..] == b;
    WordsOf(d.seqNum);
    WordsOf(d.ackNum);
  }

  lemma WordsOf(x: Codec.U32)
    ensures var high, low := x / 0x1_0000, x % 0x1_0000;
            high / 256 * 0x100_0000 + high % 256 * 0x1_0000 + low / 256 * 0x100 + low % 256 == x
  {
  }

  /** The flag bytes in use: 12 for a last data packet, 8 for another, 2 for ACK, 16 for NAK, 1 for SYN. */
  lemma FlagsInUse(q: nat, payload: Data, isFinal: bool, windowSize: Codec.U16)
    requires Sendable(DataPacket(q, payload, isFinal))
    ensures ToWire(DataPacket(q, payload, isFinal), windowSize)[8] == (if isFinal then 12 else 8)
    ensures ToWire(Ack(q), windowSize)[8] == 2 && ToWire(Nak(q), windowSize)[8] == 16 && ToWire(SYN, windowSize)[8] == 1
  {
    WireLayout(DataPacket(q, payload, isFinal), windowSize);
    WireLayout(Ack(q), windowSize);
    WireLayout(Nak(q), windowSize);
    WireLayout(SYN, windowSize);
  }

  /** Sending a datagram and decoding it is the identity, whatever window it advertises. */
  lemma WireRoundTrip(d: Datagram, windowSize: Codec.U16)
    requires Sendable(d)
    ensures FromWire(ToWire(d, windowSize)) == Some(d)
  {
    FlagsRoundTrip(d.flags);
    Codec.DecodeWire(HeaderOf(d, windowSize), d.payload);
    assert ToWire(d, windowSize)[Codec.HEADER_SIZE..] == d.payload;
  }

  /**
   * A datagram built from any numbers, flags and payload is accepted, as itself, exactly when it is
   * sendable: a SYN or ACK that carries a payload without DATA, or a payload over 1024 bytes, is rejected.
   */
  lemma BuiltAcceptedIff(d: Datagram, windowSize: Codec.U16)
    requires d.seqNum < 0x1_0000_0000 && d.ackNum < 0x1_0000_0000 && |d.payload| < 0x1_0000
    ensures var h := Codec.Header(d.seqNum, d.ackNum, FlagByte(d.flags), windowSize, |d.payload|, 0, 0);
            FromWire(Codec.Wire(h, d.payload)) == if Sendable(d) then Some(d) else None
  {
    var h := Codec.Header(d.seqNum, d.ackNum, FlagByte(d.flags), windowSize, |d.payload|, 0, 0);
    FlagsRoundTrip(d.flags);
    Codec.DecodeWire(h, d.payload);
    assert Codec.Wire(h, d.payload)[Codec.HEADER_SIZE..] == d.payload;
  }

  /** A copy damaged in one byte is dropped, never mistaken for another datagram. */
  lemma DamagedCopyDropped(d: Datagram, windowSize: Codec.U16, i: nat, v: Byte)
    requires Sendable(d) && i < |ToWire(d, windowSize)| && v != ToWire(d, windowSize)[i]
    ensures FromWire(ToWire(d, windowSize)[i := v]) == None
  {
    WireRoundTrip(d, windowSize);
    Codec.SingleByteCorruptionRejected(ToWire(d, windowSize), i, v);
  }
}
