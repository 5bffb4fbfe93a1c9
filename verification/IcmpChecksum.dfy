/** The ICMP header and its checksum (RFC 792), against the one's-complement sum of section 1 of RFC 1071. */
module IcmpChecksum {

  type Byte = x: int | 0 <= x < 256
  type Word = x: int | 0 <= x < 0x1_0000

  const MAX := 0xFFFF
  const WIDTH := 0x1_0000_0000

  // ----- the reference: one's-complement addition with end-around carry --------------------------------------

  function OnesAdd(a: Word, b: Word): Word {
    if a + b > MAX then a + b - MAX else a + b
  }

  function OnesSum(ws: seq<Word>): Word {
    if ws == [] then 0 else OnesAdd(ws[0], OnesSum(ws[1..]))
  }

  /** The word with the given high and low bytes. */
  function Pair(hi: int, lo: int): int {
    hi * 256 + lo
  }

  /** The 16-bit words of a byte string, high byte first, an odd last byte padded with zero. */
  function Words(bytes: seq<Byte>): seq<Word> {
    if |bytes| == 0 then []
    else if |bytes| == 1 then [Pair(bytes[0], 0)]
    else [Pair(bytes[0], bytes[1])] + Words(bytes[2..])
  }

  function Sum(ws: seq<Word>): nat {
    if ws == [] then 0 else ws[0] + Sum(ws[1..])
  }

  /** A multiple of 65535 more is the same modulo 65535. */
  lemma AddMultiple(x: int, q: int)
    ensures (x + q * MAX) % MAX == x % MAX
  {}

  /** End-around carry adds modulo 65535, and only words that are all zero sum to zero. */
  lemma {:induction false} OnesSumIsSum(ws: seq<Word>)
    ensures OnesSum(ws) % MAX == Sum(ws) % MAX
    ensures OnesSum(ws) == 0 <==> Sum(ws) == 0
  {
    if ws == [] {
    } else {
      OnesSumIsSum(ws[1..]);
    }
  }

  /** A sum of words is all ones exactly when it is a positive multiple of 65535. */
  lemma AllOnes(ws: seq<Word>)
    ensures OnesSum(ws) == MAX <==> Sum(ws) > 0 && Sum(ws) % MAX == 0
  {
    OnesSumIsSum(ws);
  }

  // ----- the checksum as the program computes it -------------------------------------------------------------

  /** The two folds of a 32-bit sum, cut to 16 bits. */
  function Folded(sum: int): Word
    requires 0 <= sum < WIDTH
  {
    var once := sum / 0x1_0000 + sum % 0x1_0000;
    (once + once / 0x1_0000) % 0x1_0000
  }

  function Checksum(sum: int): Word
    requires 0 <= sum < WIDTH
  {
    MAX - Folded(sum)
  }

  /** Two folds are enough: they take multiples of 65535 off until 16 bits are left, and are zero only for
      zero. */
  lemma FoldedIsSum(sum: int) returns (q: int)
    requires 0 <= sum < WIDTH
    ensures Folded(sum) == sum - q * MAX
    ensures Folded(sum) == 0 <==> sum == 0
  {
    var hi, lo := sum / 0x1_0000, sum % 0x1_0000;
    var once := hi + lo;
    if once < 0x1_0000 {
      q := hi;
    } else {
      assert once / 0x1_0000 == 1;
      q := hi + 1;
    }
  }

  /** What wraps out of a 32-bit sum is lost modulo 65535. */
  lemma WrapLoses(total: nat)
    ensures total == total % WIDTH + total / WIDTH + total / WIDTH * 65537 * MAX
  {}

  /** The program's checksum, for words of any total: the receiver's sum of all words with the checksum is all
      ones exactly when the carries out of the 32-bit sum are a multiple of 65535, so whenever there are none. */
  lemma ChecksumVerifies(ws: seq<Word>)
    ensures OnesSum([Checksum(Sum(ws) % WIDTH)] + ws) == MAX <==> Sum(ws) / WIDTH % MAX == 0
  {
    var total, sum, k := Sum(ws), Sum(ws) % WIDTH, Sum(ws) / WIDTH;
    var c := Checksum(sum);
    var all := [c] + ws;
    assert all[1..] == ws;
    AllOnes(all);
    var q := FoldedIsSum(sum);
    WrapLoses(total);
    assert c + total == k + (1 + q + k * 65537) * MAX;
    AddMultiple(k, 1 + q + k * 65537);
  }

  lemma {:induction false} SumBound(ws: seq<Word>)
    ensures Sum(ws) <= |ws| * MAX
  {
    if ws == [] {
    } else {
      SumBound(ws[1..]);
    }
  }

  /** The word has this high byte and this low byte. */
  predicate HoldsBytes(word: int, high: int, low: int) {
    high == word / 256 && low == word % 256
  }

  /** Each word of a byte string holds two of its bytes, the first of them high. */
  lemma {:induction false} WordsAre(bytes: seq<Byte>)
    ensures |Words(bytes)| == (|bytes| + 1) / 2
    ensures forall k | 0 <= k < |Words(bytes)| ::
              HoldsBytes(Words(bytes)[k], bytes[2 * k], if 2 * k + 1 < |bytes| then bytes[2 * k + 1] else 0)
  {
    if |bytes| < 2 {
    } else {
      var rest := bytes[2..];
      WordsAre(rest);
      forall k | 0 < k < |Words(bytes)|
        ensures HoldsBytes(Words(bytes)[k], bytes[2 * k], if 2 * k + 1 < |bytes| then bytes[2 * k + 1] else 0)
      {
        assert Words(bytes)[k] == Words(rest)[k - 1];
        assert rest[2 * (k - 1)] == bytes[2 * k];
      }
    }
  }

  // ----- the header and compute_checksum ---------------------------------------------------------------------

  /** The header as words. */
  function HeaderWords(kind: Byte, code: Byte, checksum: Word, identifier: Word, sequence: Word): seq<Word> {
    [Pair(kind, code), checksum, identifier, sequence]
  }

  class IcmpHeader {
    const rep: array<Byte>

    constructor ()
      ensures fresh(rep) && rep.Length == 8 && forall i | 0 <= i < 8 :: rep[i] == 0
    {
      rep := new Byte[8](i => 0);
    }

    predicate Valid() {
      rep.Length == 8
    }

    function Decode(a: nat, b: nat): Word
      requires Valid() && a < 8 && b < 8
      reads rep
    {
      Pair(rep[a], rep[b])
    }

    method Encode(a: nat, b: nat, n: Word)
      requires Valid() && a < 8 && b < 8 && a != b
      modifies rep
      ensures HoldsBytes(n, rep[a], rep[b])
      ensures forall i | 0 <= i < 8 && i != a && i != b :: rep[i] == old(rep[i])
    {
      rep[a] := n / 256;
      rep[b] := n % 256;
    }

    function Kind(): Byte
      requires Valid()
      reads rep
    {
      rep[0]
    }

    function Code(): Byte
      requires Valid()
      reads rep
    {
      rep[1]
    }

    /** The header's four words, the checksum second. */
    function Contents(): (words: seq<Word>)
      requires Valid()
      reads rep
      ensures |words| == 4 && forall k | 0 <= k < 4 :: HoldsBytes(words[k], rep[2 * k], rep[2 * k + 1])
    {
      HeaderWords(Kind(), Code(), Decode(2, 3), Decode(4, 5), Decode(6, 7))
    }

    /** The words the checksum is over: those of the header without the checksum, and the body. */
    function Covered(body: seq<Byte>): seq<Word>
      requires Valid()
      reads rep
    {
      [Pair(Kind(), Code()), Decode(4, 5), Decode(6, 7)] + Words(body)
    }

    /** `compute_checksum`. The message then sums to all ones, as a receiver requires, exactly when the carries
        out of the 32-bit sum are a multiple of 65535. */
    method ComputeChecksum(body: seq<Byte>)
      requires Valid()
      modifies rep
      ensures Covered(body) == old(Covered(body)) && Kind() == old(Kind()) && Code() == old(Code())
      ensures Decode(4, 5) == old(Decode(4, 5)) && Decode(6, 7) == old(Decode(6, 7))
      ensures HoldsBytes(Checksum(Sum(Covered(body)) % WIDTH), rep[2], rep[3])
      ensures OnesSum(Contents() + Words(body)) == MAX <==> Sum(Covered(body)) / WIDTH % MAX == 0
    {
      var sum := AddBody(Pair(Kind(), Code()) + Decode(4, 5) + Decode(6, 7), body);
      HeaderSum(Pair(Kind(), Code()), Decode(4, 5), Decode(6, 7), Words(body));
      var checksum := Complement(sum);
      Encode(2, 3, checksum);
      ChecksumVerifies(Covered(body));
      ChecksumPlace(Pair(Kind(), Code()), Decode(2, 3), Decode(4, 5), Decode(6, 7), Words(body));
    }
  }

  /** Addition of 32-bit unsigned integers. */
  method Add32(a: nat, b: nat) returns (sum: nat, ghost carry: nat)
    ensures sum < WIDTH && sum + carry * WIDTH == a + b
  {
    sum := (a + b) % WIDTH;
    carry := (a + b) / WIDTH;
  }

  lemma CarriesOut(total: nat, sum: nat, carries: nat)
    requires sum < WIDTH && sum + carries * WIDTH == total
    ensures sum == total % WIDTH
  {}

  /** The summing loop: 32-bit additions that wrap. */
  method AddBody(header: nat, body: seq<Byte>) returns (sum: nat)
    requires header < WIDTH
    ensures sum == (header + Sum(Words(body))) % WIDTH
  {
    sum := header;
    var i := 0;
    ghost var carries := 0;
    assert body[0..] == body;
    while i < |body|
      invariant 0 <= i <= |body| && sum < WIDTH
      invariant sum + carries * WIDTH + Sum(Words(body[i..])) == header + Sum(Words(body))
    {
      WordsFrom(body, i);
      ghost var carry;
      sum, carry := Add32(sum, Pair(body[i], 0));
      carries := carries + carry;
      i := i + 1;
      if i < |body| {
        sum, carry := Add32(sum, body[i]);
        carries := carries + carry;
        i := i + 1;
      }
    }
    CarriesOut(header + Sum(Words(body)), sum, carries);
  }

  /** The folds and the complement. */
  method Complement(sum: nat) returns (checksum: Word)
    requires sum < WIDTH
    ensures checksum == Checksum(sum)
  {
    var folded := sum / 0x1_0000 + sum % 0x1_0000;
    folded := folded + folded / 0x1_0000;
    checksum := MAX - folded % 0x1_0000;
  }

  /** The word at position i, and the rest. */
  lemma WordsFrom(body: seq<Byte>, i: nat)
    requires i < |body|
    ensures Sum(Words(body[i..])) ==
            if i + 1 < |body| then Pair(body[i], body[i + 1]) + Sum(Words(body[i + 2..])) else Pair(body[i], 0)
    ensures i + 1 == |body| ==> Sum(Words(body[i + 1..])) == 0
  {
    var rest := body[i..];
    if i + 1 < |body| {
      assert rest[2..] == body[i + 2..];
      assert Words(rest)[1..] == Words(rest[2..]);
    } else {
      assert Words(rest)[1..] == [];
    }
  }

  lemma SumCons(w: Word, ws: seq<Word>)
    ensures Sum([w] + ws) == w + Sum(ws)
  {
    assert ([w] + ws)[1..] == ws;
  }

  lemma HeaderSum(a: Word, b: Word, c: Word, body: seq<Word>)
    ensures Sum([a, b, c] + body) == a + b + c + Sum(body)
  {
    SumCons(c, body);
    SumCons(b, [c] + body);
    SumCons(a, [b] + ([c] + body));
    assert [a, b, c] + body == [a] + ([b] + ([c] + body));
  }

  /** Where the checksum stands among the words does not matter. */
  lemma ChecksumPlace(a: Word, checksum: Word, b: Word, c: Word, body: seq<Word>)
    ensures OnesSum([a, checksum, b, c] + body) == MAX <==> OnesSum([checksum] + ([a, b, c] + body)) == MAX
  {
    AllOnes([a, checksum, b, c] + body);
    AllOnes([checksum] + ([a, b, c] + body));
    HeaderSum(a, b, c, body);
    SumCons(checksum, [a, b, c] + body);
    HeaderSum(checksum, b, c, body);
    SumCons(a, [checksum, b, c] + body);
    assert [a, checksum, b, c] + body == [a] + ([checksum, b, c] + body);
  }

  lemma NoCarry(total: nat)
    requires total < WIDTH
    ensures total / WIDTH % MAX == 0
  {}

  /** Bodies of up to 131068 bytes, twice as many as an IP packet can carry, never overflow the sum: whatever
      the header, the checksum makes the message verify. */
  lemma ShortBodyVerifies(a: Word, b: Word, c: Word, body: seq<Byte>)
    requires |body| <= 131068
    ensures var covered := [a, b, c] + Words(body);
            OnesSum([Checksum(Sum(covered) % WIDTH)] + covered) == MAX
  {
    var covered := [a, b, c] + Words(body);
    WordsAre(body);
    assert |covered| <= 65537;
    SumBound(covered);
    assert Sum(covered) <= 65537 * MAX;
    NoCarry(Sum(covered));
    ChecksumVerifies(covered);
  }

  /** A body of ones; an odd last byte counts as the high byte of a word. */
  lemma {:induction false} SumOfOnes(n: nat)
    ensures Sum(Words(seq(n, i => 255))) == n / 2 * MAX + n % 2 * 0xFF00
  {
    var bytes: seq<Byte> := seq(n, i => 255);
    if n >= 2 {
      var rest: seq<Byte> := seq(n - 2, i => 255);
      assert bytes[2..] == rest;
      SumOfOnes(n - 2);
      assert Words(bytes)[1..] == Words(bytes[2..]);
    } else if n == 1 {
      assert Words(bytes)[1..] == [];
    }
  }

  lemma OnesVerifyIff(n: nat)
    ensures var covered := [0, 0, 0] + Words(seq(n, i => 255));
            OnesSum([Checksum(Sum(covered) % WIDTH)] + covered) == MAX
            <==> (n / 2 * MAX + n % 2 * 0xFF00) / WIDTH % MAX == 0
  {
    var body: seq<Byte> := seq(n, i => 255);
    SumOfOnes(n);
    HeaderSum(0, 0, 0, Words(body));
    ChecksumVerifies([0, 0, 0] + Words(body));
  }

  /** Under a header of zeros, a body of ones verifies if it has 131074 bytes, and does not if it has one more: the
      sum then wraps for the first time. */
  lemma LongBodyFails()
    ensures var covered := [0, 0, 0] + Words(seq(131074, i => 255));
            OnesSum([Checksum(Sum(covered) % WIDTH)] + covered) == MAX
    ensures var covered := [0, 0, 0] + Words(seq(131075, i => 255));
            OnesSum([Checksum(Sum(covered) % WIDTH)] + covered) != MAX
  {
    OnesVerifyIff(131074);
    OnesVerifyIff(131075);
  }
}
