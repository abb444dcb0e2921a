/** The Internet checksum of shared/protocol/CheckSum.cpp (sections 1 and 2 of RFC 1071). */
module Checksum {
  import opened Bytes

  const WORD := 0x1_0000
  const ACCUMULATOR := 0x1_0000_0000

  /** Sum of the big-endian 16-bit words; an odd last byte is the high half of a word. */
  function WordSum(data: Data): nat {
    if |data| == 0 then 0
    else if |data| == 1 then data[0] * 256
    else data[0] * 256 + data[1] + WordSum(data[2..])
  }

  /**
   * What one's complement addition makes of a sum: the representative of its class
   * modulo 65535 in 1..65535, except that zero stays zero.
   */
  function Residue(sum: nat): (r: nat)
    ensures r < WORD
    ensures r % (WORD - 1) == sum % (WORD - 1)
    ensures r == 0 <==> sum == 0
  {
    if sum == 0 then 0 else (sum - 1) % (WORD - 1) + 1
  }

  function ChecksumOf(data: Data): (c: nat)
    ensures c < WORD
  {
    WORD - 1 - Residue(WordSum(data) % ACCUMULATOR)
  }

  /** Residues are equal exactly when the sums are congruent and agree on being zero. */
  lemma ResidueEqual(a: nat, b: nat)
    ensures Residue(a) == Residue(b) <==> (a % (WORD - 1) == b % (WORD - 1) && (a == 0 <==> b == 0))
  {
    if a % (WORD - 1) == b % (WORD - 1) && a > 0 && b > 0 {
      var r, s := Residue(a), Residue(b);
      assert r % (WORD - 1) == s % (WORD - 1) && 0 < r < WORD && 0 < s < WORD;
    }
  }

  lemma {:induction false} WordSumBound(data: Data)
    ensures WordSum(data) <= (|data| + 1) / 2 * (WORD - 1)
  {
    if |data| >= 2 {
      WordSumBound(data[2..]);
    }
  }

  /** A datagram is far too short to overflow the 32-bit accumulator. */
  lemma NoOverflow(data: Data)
    requires |data| <= 2 * WORD
    ensures WordSum(data) < ACCUMULATOR
    ensures ChecksumOf(data) == WORD - 1 - Residue(WordSum(data))
  {
    WordSumBound(data);
    var words := (|data| + 1) / 2;
    assert words <= WORD;
    assert words * (WORD - 1) <= WORD * (WORD - 1) < ACCUMULATOR;
    assert WordSum(data) % ACCUMULATOR == WordSum(data);
  }

  /** With `WordSumUpdate` this fixes every sum: zeros add up to zero. */
  lemma {:induction false} ZeroSum(n: nat)
    ensures WordSum(seq(n, i => 0)) == 0
  {
    if n >= 2 {
      ZeroSum(n - 2);
      assert seq<Byte>(n, i => 0)[2..] == seq<Byte>(n - 2, i => 0);
    }
  }

  /** Overwriting one byte moves the sum by the byte difference, scaled by its place in the word. */
  lemma {:induction false} WordSumUpdate(data: Data, i: nat, v: Byte)
    requires i < |data|
    ensures WordSum(data[i := v]) == WordSum(data) + (v - data[i]) * (if i % 2 == 0 then 256 else 1)
  {
    if i >= 2 {
      assert data[i := v][2..] == data[2..][i - 2 := v];
      WordSumUpdate(data[2..], i - 2, v);
    } else if |data| >= 2 {
      assert data[i := v][2..] == data[2..];
    }
  }

  /** One carry fold keeps the residue and makes the accumulator smaller. */
  lemma FoldStep(sum: nat)
    requires sum >= WORD
    ensures sum % WORD + sum / WORD < sum
    ensures Residue(sum % WORD + sum / WORD) == Residue(sum)
  {
    var q, r := sum / WORD, sum % WORD;
    assert sum == q * (WORD - 1) + (q + r);
    MultipleVanishes(q, q + r);
    ResidueEqual(q + r, sum);
  }

  lemma MultipleVanishes(q: nat, x: nat)
    ensures (q * (WORD - 1) + x) % (WORD - 1) == x % (WORD - 1)
  {
    var k := x / (WORD - 1);
    assert q * (WORD - 1) + x == (q + k) * (WORD - 1) + x % (WORD - 1);
  }

  /** A sum that fits sixteen bits is its own residue. */
  lemma SmallResidue(sum: nat)
    requires sum < WORD
    ensures Residue(sum) == sum
  {
  }

  lemma ModAdd(a: int, b: int)
    ensures (a % ACCUMULATOR + b) % ACCUMULATOR == (a + b) % ACCUMULATOR
  {
    var q := a / ACCUMULATOR;
    assert a + b == q * ACCUMULATOR + (a % ACCUMULATOR + b);
  }

  lemma SplitWord(data: Data, i: nat)
    requires i + 1 < |data|
    ensures WordSum(data[i..]) == data[i] * 256 + data[i + 1] + WordSum(data[i + 2..])
  {
    assert data[i..][2..] == data[i + 2..];
  }

  /** With the words before `i` summed, the rest of the sum leads to the checksum's sum. */
  ghost predicate Summing(data: Data, i: nat, sum: nat) {
    i <= |data| && (sum + WordSum(data[i..])) % ACCUMULATOR == WordSum(data) % ACCUMULATOR
  }

  lemma SummingStep(data: Data, i: nat, sum: nat)
    requires Summing(data, i, sum) && i + 1 < |data|
    ensures Summing(data, i + 2, (sum + (data[i] as int) * 256 + data[i + 1]) % ACCUMULATOR)
  {
    SplitWord(data, i);
    ModAdd(sum + (data[i] as int) * 256 + data[i + 1], WordSum(data[i + 2..]));
  }

  lemma SummingEnd(data: Data, i: nat, sum: nat)
    requires Summing(data, i, sum) && i % 2 == 0 && i + 1 >= |data| && sum < ACCUMULATOR
    ensures WordSum(data) % ACCUMULATOR ==
            if |data| % 2 != 0 then (sum + (data[|data| - 1] as int) * 256) % ACCUMULATOR else sum
  {
    LastWord(data, i);
    SmallMod(sum);
  }

  lemma LastWord(data: Data, i: nat)
    requires i <= |data| <= i + 1 && i % 2 == 0
    ensures WordSum(data[i..]) == if |data| % 2 != 0 then (data[|data| - 1] as int) * 256 else 0
  {
    assert |data| == i ==> |data| % 2 == 0;
    assert |data| == i + 1 ==> |data| % 2 == 1;
  }

  lemma SmallMod(sum: nat)
    requires sum < ACCUMULATOR
    ensures sum % ACCUMULATOR == sum
  {
  }

  /** The word loop, with its 32-bit accumulator. */
  method SumWords(data: Data) returns (sum: nat)
    ensures sum == WordSum(data) % ACCUMULATOR
  {
    sum := 0;
    var i := 0;
    assert data[0..] == data;
    while i + 1 < |data|
      invariant i <= |data| && i % 2 == 0 && sum < ACCUMULATOR
      invariant Summing(data, i, sum)
    {
      SummingStep(data, i, sum);
      var high: int, low: int := data[i], data[i + 1];
      sum := (sum + high * 256 + low) % ACCUMULATOR;
      i := i + 2;
    }
    SummingEnd(data, i, sum);
    if |data| % 2 != 0 {
      var last: int := data[|data| - 1];
      sum := (sum + last * 256) % ACCUMULATOR;
    }
  }

  /** internetChecksum: the word loop, then carries folded until the sum fits sixteen bits. */
  method InternetChecksum(data: Data) returns (checksum: nat)
    ensures checksum == ChecksumOf(data)
  {
    var sum: nat := SumWords(data);
    ghost var total := sum;
    while sum >= WORD
      invariant Residue(sum) == Residue(total)
    {
      FoldStep(sum);
      sum := sum % WORD + sum / WORD;
    }
    SmallResidue(sum);
    checksum := WORD - 1 - sum;
  }
}
