// The Internet checksum of RFC 1071 in the two forms the program has: folding until nothing is left to
// fold, and folding exactly twice.
module Checksum {
  import opened Bytes

  const WORD := 0x1_0000
  const DWORD := 0x1_0000_0000

  // The sum of the 16-bit words; an odd last byte is the high half of a word.
  function WordSum(b: seq<Byte>): nat {
    if b == [] then 0
    else if |b| == 1 then b[0] as int * 0x100
    else BigEndian16(b[0], b[1]) + WordSum(b[2..])
  }

  // Carries added back in until the sum is a word: the one's complement sum.
  function Fold(s: nat): (r: Uint16)
    decreases s
  {
    if s < WORD then s else Fold(s % WORD + s / WORD)
  }

  // Bytes whose sum cannot leave 32 bits: 65537 words.
  const SAFE_LENGTH := 2 * 0x1_0001

  function Complement(r: Uint16): Uint16 { 0xFFFF - r }

  // The checksum in words, which both implementations are to compute.
  function Internet(b: seq<Byte>): Uint16 {
    Complement(Fold(WordSum(b)))
  }

  // ---- Sums.

  lemma {:induction false} WordSumBound(b: seq<Byte>)
    ensures WordSum(b) <= (|b| + 1) / 2 * 0xFFFF
  {
    if |b| >= 2 {
      WordSumBound(b[2..]);
      assert (|b| + 1) / 2 == (|b[2..]| + 1) / 2 + 1;
    }
  }

  lemma {:induction false} WordSumConcat(a: seq<Byte>, b: seq<Byte>)
    requires |a| % 2 == 0
    ensures WordSum(a + b) == WordSum(a) + WordSum(b)
  {
    if a == [] {
      assert a + b == b;
    } else {
      WordSumConcat(a[2..], b);
      assert (a + b)[2..] == a[2..] + b;
    }
  }

  // Words of ones just fit 32 bits at the safe length, and no longer with one word more.
  lemma {:induction false} AllOnes(words: nat)
    ensures WordSum(seq(2 * words, i => 0xFF)) == words * 0xFFFF
    ensures 2 * words == SAFE_LENGTH ==> WordSum(seq(2 * words, i => 0xFF)) == DWORD - 1
    ensures 2 * words == SAFE_LENGTH + 2 ==> WordSum(seq(2 * words, i => 0xFF)) == DWORD + 0xFFFE
  {
    if words > 0 {
      AllOnes(words - 1);
      assert seq(2 * words, i => 0xFF)[2..] == seq(2 * (words - 1), i => 0xFF);
    }
  }

  // ---- Folding keeps the sum modulo 65535, and only zero folds to zero.

  lemma {:induction false} FoldMeaning(s: nat)
    ensures Fold(s) % 0xFFFF == s % 0xFFFF && (Fold(s) == 0 <==> s == 0)
    decreases s
  {
    if s >= WORD {
      var t := s % WORD + s / WORD;
      FoldMeaning(t);
      assert s == t + s / WORD * 0xFFFF;
      ModPlusMultiple(t, s / WORD, 0xFFFF);
    }
  }

  // With the checksum in its field, the whole sums to all ones: its own checksum is zero.
  lemma FoldsToOnes(s: nat)
    ensures Fold(s + Complement(Fold(s))) == 0xFFFF
  {
    FoldMeaning(s);
    var t := s + Complement(Fold(s));
    FoldMeaning(t);
    hide Fold;
    OnesAreZero(s, Fold(s));
  }

  // Adding the complement of anything congruent gives a multiple of 65535.
  lemma OnesAreZero(s: nat, r: Uint16)
    requires r % 0xFFFF == s % 0xFFFF
    ensures (s + Complement(r)) % 0xFFFF == 0
  {
    var q := s / 0xFFFF;
    assert s == q * 0xFFFF + s % 0xFFFF;
    if r == 0xFFFF {
      ModPlusMultiple(0, q, 0xFFFF);
    } else {
      assert s + Complement(r) == 0 + (q + 1) * 0xFFFF;
      ModPlusMultiple(0, q + 1, 0xFFFF);
    }
  }

  lemma OneWord(c: Uint16)
    ensures WordSum([High(c), Low(c)]) == c
  {}

  lemma ThreePieces(a: seq<Byte>, field: seq<Byte>, b: seq<Byte>)
    requires |a| % 2 == 0 && |field| == 2
    ensures WordSum(a + field + b) == WordSum(a) + WordSum(field) + WordSum(b)
  {
    hide WordSum;
    WordSumConcat(a + field, b);
    WordSumConcat(a, field);
  }

  // A checksum of the data with a zero field, put into that field, makes the data verify.
  lemma FieldVerifies(before: seq<Byte>, after: seq<Byte>)
    requires |before| % 2 == 0
    ensures var c := Internet(before + [0, 0] + after);
      Internet(before + [High(c), Low(c)] + after) == 0
  {
    hide WordSum, Fold;
    var c := Internet(before + [0, 0] + after);
    ThreePieces(before, [0, 0], after);
    ThreePieces(before, [High(c), Low(c)], after);
    OneWord(c);
    OneWord(0);
    FoldsToOnes(WordSum(before + [0, 0] + after));
  }

  // ---- The two implementations, on 32-bit sums that wrap.

  function Add(a: nat, b: nat): (r: nat)
    ensures r < DWORD && (a + b < DWORD ==> r == a + b)
  {
    (a + b) % DWORD
  }

  lemma NextWord(b: seq<Byte>, i: nat, n: nat)
    requires i + 2 <= n <= |b|
    ensures WordSum(b[i..n]) == BigEndian16(b[i], b[i + 1]) + WordSum(b[i + 2..n])
  {
    assert b[i..n][2..] == b[i + 2..n];
  }

  lemma LastByte(b: seq<Byte>, n: nat)
    requires n % 2 == 0 && (|b| == n || |b| == n + 1)
    ensures WordSum(b) == WordSum(b[..n]) + if |b| == n then 0 else b[n] as int * 0x100
  {
    assert b[..n] + b[n..] == b;
    WordSumConcat(b[..n], b[n..]);
  }

  // underlay/pcap.go: words from the front, then folding in a loop.
  method FoldingChecksum(input: seq<Byte>) returns (answer: Uint16)
    ensures |input| <= SAFE_LENGTH ==> answer == Internet(input)
  {
    hide Add, WordSum;
    var sum := AddWords(input);
    ghost var total := sum;
    while sum / WORD != 0
      invariant 0 <= sum < DWORD && Fold(sum) == Fold(total)
      decreases sum
    {
      sum := sum % WORD + sum / WORD;
    }
    answer := Complement(sum);
  }

  // checksum's first loop.
  method AddWords(input: seq<Byte>) returns (sum: nat)
    ensures sum < DWORD && (|input| <= SAFE_LENGTH ==> sum == WordSum(input))
  {
    hide Add;
    WordSumBound(input);
    var data := input;
    sum := 0;
    while |data| >= 2
      invariant |data| <= |input| && 0 <= sum < DWORD
      invariant |input| <= SAFE_LENGTH ==> sum + WordSum(data) == WordSum(input)
      decreases |data|
    {
      sum := Add(sum, BigEndian16(data[0], data[1]));
      data := data[2..];
    }
    if |data| == 1 { sum := Add(sum, data[0] as int * 0x100); }
  }

  // internal/zctcpip/tcpip.go: Sum takes the odd byte first, then the words.
  method Sum(b: seq<Byte>) returns (sum: nat)
    ensures sum < DWORD && (|b| <= SAFE_LENGTH ==> sum == WordSum(b))
  {
    hide Add, WordSum;
    sum := 0;
    var n := |b|;
    if n % 2 != 0 {
      n := n - 1;
      sum := Add(sum, b[n] as int * 0x100);
    }
    WordSumBound(b);
    LastByte(b, n);
    assert b[..n] == b[0..n];
    var i := 0;
    while i < n
      invariant 0 <= i <= n && (n - i) % 2 == 0 && sum < DWORD
      invariant |b| <= SAFE_LENGTH ==> sum + WordSum(b[i..n]) == WordSum(b)
    {
      NextWord(b, i, n);
      sum := Add(sum, BigEndian16(b[i], b[i + 1]));
      i := i + 2;
    }
    NoWords(b[i..n]);
  }

  lemma NoWords(b: seq<Byte>)
    requires b == []
    ensures WordSum(b) == 0
  {}

  // Two folds of a 32-bit sum; what is left of it above 16 bits is cut off.
  function TwoFolds(s: nat): Uint16
    requires s < DWORD
  {
    var t := s / WORD + s % WORD;
    (t + t / WORD) % WORD
  }

  // Two folds are always enough for 32 bits.
  lemma TwoFoldsSuffice(s: nat)
    requires s < DWORD
    ensures TwoFolds(s) == Fold(s)
  {
    var t := s / WORD + s % WORD;
    if t >= WORD { assert t % WORD + t / WORD == t - WORD + 1; }
  }

  // Checksum: the bytes of the complement, high one first.
  method TwoFoldChecksum(initial: nat, b: seq<Byte>) returns (answer: (Byte, Byte))
    requires initial < DWORD
    ensures |b| <= SAFE_LENGTH && initial + WordSum(b) < DWORD ==>
              answer == Bytes2(Complement(Fold(initial + WordSum(b))))
  {
    hide Fold, WordSum, Add;
    var s := Sum(b);
    var sum := Add(initial, s);
    TwoFoldsSuffice(sum);
    sum := sum / WORD + sum % WORD;
    sum := sum + sum / WORD;
    var inverted := Complement(sum % WORD);
    answer := Bytes2(inverted);
  }

  function Bytes2(n: Uint16): (Byte, Byte) { (High(n), Low(n)) }

  // Both forms agree on everything that is short enough for a 32-bit sum.
  method BothAgree(b: seq<Byte>) returns (looped: Uint16, twice: (Byte, Byte))
    requires |b| <= SAFE_LENGTH
    ensures twice == Bytes2(looped) && looped == Internet(b)
  {
    WordSumBound(b);
    looped := FoldingChecksum(b);
    twice := TwoFoldChecksum(0, b);
  }
}
