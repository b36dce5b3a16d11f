// The two Internet checksum implementations (section 1 of RFC 1071), and the
// IPv4 header checks built on them.
module Checksum {
  import opened Prelude

  const WORD := 0x1_0000
  const WIDE := 0x1_0000_0000

  // The sum of a buffer's 16-bit words, the last one padded with zero.
  function WordSum(b: seq<byte>): nat {
    if b == [] then 0
    else if |b| == 1 then BigEndian(b[0], 0)
    else BigEndian(b[0], b[1]) + WordSum(b[2..])
  }

  // The one's complement value of a sum: its residue modulo 65535, which is 65535 rather than 0 for
  // every sum but 0 itself.
  function Fold(sum: nat): uint16 {
    if sum == 0 then 0 else 1 + (sum - 1) % 0xFFFF
  }

  // What both implementations compute.
  function Complement(sum: nat): uint16 {
    0xFFFF - Fold(sum)
  }

  // ---- Arithmetic ----

  lemma FoldKeeps(sum: nat, high: nat)
    requires 0xFFFF * high < sum
    ensures Fold(sum - 0xFFFF * high) == Fold(sum)
  {
    var k, r := (sum - 1) / 0xFFFF, (sum - 1) % 0xFFFF;
    assert sum - 0xFFFF * high - 1 == 0xFFFF * (k - high) + r;
  }

  // Folding once: the high word is added to the low word.
  lemma FoldOnce(sum: nat)
    ensures sum / WORD + sum % WORD == sum - 0xFFFF * (sum / WORD)
    ensures Fold(sum / WORD + sum % WORD) == Fold(sum)
    ensures sum >= WORD ==> sum / WORD + sum % WORD < sum
  {
    if sum > 0 {
      FoldKeeps(sum, sum / WORD);
    }
  }

  lemma FoldOfWord(sum: nat)
    requires sum < WORD
    ensures Fold(sum) == sum
  {
  }

  // Two folds are enough for any 32-bit sum.
  lemma TwoFoldsSuffice(sum: uint32)
    ensures var once := sum / WORD + sum % WORD;
            (once + once / WORD) % WORD == Fold(sum)
  {
    var once := sum / WORD + sum % WORD;
    FoldOnce(sum);
    FoldOnce(once);
    FoldOfWord((once + once / WORD) % WORD);
  }

  // A sum and its complement fold to zero, in the one's complement sense.
  lemma ComplementCancels(sum: nat, field: uint16)
    ensures Fold(sum + Complement(sum)) == 0xFFFF
    ensures sum > 0 ==> (field == Complement(sum) <==> Fold(sum + field) == 0xFFFF && field != 0xFFFF)
  {
    if sum > 0 {
      var k, r := (sum - 1) / 0xFFFF, (sum - 1) % 0xFFFF;
      assert sum == 0xFFFF * k + r + 1;
      assert sum + Complement(sum) == 0xFFFF * (k + 1);
      FoldOfMultiple(k + 1);
      if Fold(sum + field) == 0xFFFF {
        var j := (sum + field - 1) / 0xFFFF;
        assert sum + field == 0xFFFF * (j + 1);
        assert field + r + 1 == 0xFFFF * (j + 1 - k);
      }
    }
  }

  lemma FoldOfMultiple(k: nat)
    requires k > 0
    ensures Fold(0xFFFF * k) == 0xFFFF
  {
    assert 0xFFFF * k - 1 == 0xFFFF * (k - 1) + 0xFFFE;
  }

  lemma {:induction false} WordSumIsBounded(b: seq<byte>)
    ensures WordSum(b) <= 0xFFFF * ((|b| + 1) / 2)
  {
    if |b| > 1 {
      WordSumIsBounded(b[2..]);
    }
  }

  lemma {:induction false} WordSumAppends(a: seq<byte>, b: seq<byte>)
    requires |a| % 2 == 0
    ensures WordSum(a + b) == WordSum(a) + WordSum(b)
  {
    if a == [] {
      assert a + b == b;
    } else {
      assert (a + b)[2..] == a[2..] + b;
      WordSumAppends(a[2..], b);
    }
  }

  // ---- The two implementations ----

  // Unsigned 32-bit arithmetic.
  function Wrap(n: nat): uint32 {
    n % WIDE
  }

  lemma WrapAdds(a: nat, b: nat)
    ensures Wrap(Wrap(a) + b) == Wrap(a + b)
  {
    var k, r := a / WIDE, a % WIDE;
    var j, q := (r + b) / WIDE, (r + b) % WIDE;
    assert a + b == WIDE * (k + j) + q;
  }

  lemma WrapKeeps(n: uint32)
    ensures Wrap(n) == n
  {
  }

  // What both compute: the complement of the sum a 32-bit accumulator holds.
  function ChecksumOf(b: seq<byte>): uint16 {
    Complement(Wrap(WordSum(b)))
  }

  // A buffer short enough for the accumulator.
  predicate Short(b: seq<byte>) {
    |b| <= 0x2_0002
  }

  lemma ShortDoesNotWrap(b: seq<byte>)
    requires Short(b)
    ensures ChecksumOf(b) == Complement(WordSum(b))
  {
    WordSumIsBounded(b);
    assert (|b| + 1) / 2 <= 0x1_0001;
    assert WordSum(b) <= 0xFFFF * 0x1_0001;
    WrapKeeps(WordSum(b));
    hide WordSum, Complement, Wrap;
  }

  lemma SumOfPair(b: seq<byte>, i: nat)
    requires i % 2 == 0 && i + 2 <= |b|
    ensures WordSum(b[..i + 2]) == WordSum(b[..i]) + BigEndian(b[i], b[i + 1])
  {
    var pair := [b[i], b[i + 1]];
    assert b[..i + 2] == b[..i] + pair;
    WordSumAppends(b[..i], pair);
    assert pair[2..] == [];
  }

  // The sum of the pairs and of the odd byte.
  lemma SumOfTail(b: seq<byte>)
    ensures |b| % 2 == 0 ==> b[..|b|] == b
    ensures |b| % 2 == 1 ==> WordSum(b) == WordSum(b[..|b| - 1]) + BigEndian(b[|b| - 1], 0)
    ensures WordSum(b[..0]) == 0
  {
    hide WordSum;
    if |b| % 2 == 1 {
      var n := |b| - 1;
      SumOfHead([b[n]]);
      assert b == b[..n] + [b[n]];
      WordSumAppends(b[..n], [b[n]]);
    }
    SumOfHead(b[..0]);
  }

  // The odd byte first, then pairs; a 32-bit accumulator.
  method Sum(b: seq<byte>) returns (sum: uint32)
    ensures sum == Wrap(WordSum(b))
  {
    hide WordSum, Wrap;
    SumOfTail(b);
    sum := 0;
    var n: nat := |b|;
    if n % 2 != 0 {
      n := n - 1;
      sum := BigEndian(b[n], 0);
    }
    ghost var tail := sum;
    ghost var half := n / 2;
    assert n == 2 * half;
    WrapKeeps(sum);
    var i: nat := 0;
    ghost var k: nat := 0;
    while i < n
      invariant i == 2 * k && k <= half
      invariant sum == Wrap(tail + WordSum(b[..i]))
    {
      SumOfPair(b, i);
      WrapAdds(tail + WordSum(b[..i]), BigEndian(b[i], b[i + 1]));
      k := k + 1;
      sum := Wrap(sum + BigEndian(b[i], b[i + 1]));
      i := i + 2;
    }
  }

  // Two folds, without a test.
  method FixedFolds(initial: uint32, b: seq<byte>) returns (answer: (byte, byte))
    ensures BigEndian(answer.0, answer.1) == Complement(Wrap(initial + WordSum(b)))
    ensures initial == 0 ==> BigEndian(answer.0, answer.1) == ChecksumOf(b)
  {
    var sum := Sum(b);
    WrapAdds(WordSum(b), initial);
    sum := Wrap(initial + sum);
    TwoFoldsSuffice(sum);
    sum := sum / WORD + sum % WORD;
    sum := sum + sum / WORD;
    var complement: uint16 := 0xFFFF - sum % WORD;
    answer := (complement / 0x100, complement % 0x100);
  }

  // Folds until nothing is left above the low word.
  method FoldLoop(b: seq<byte>) returns (r: uint16)
    ensures r == ChecksumOf(b)
  {
    hide WordSum, Wrap, Fold;
    var sum: uint32 := 0;
    var data := b;
    while |data| >= 2
      invariant Wrap(sum + WordSum(data)) == Wrap(WordSum(b))
    {
      SumOfHead(data);
      WrapAdds(sum + BigEndian(data[0], data[1]), WordSum(data[2..]));
      sum := Wrap(sum + BigEndian(data[0], data[1]));
      data := data[2..];
    }
    SumOfHead(data);
    WrapKeeps(sum);
    if |data| == 1 {
      sum := Wrap(sum + BigEndian(data[0], 0));
    }
    ghost var total := sum;
    while sum / WORD != 0
      invariant Fold(sum) == Fold(total)
      decreases sum
    {
      FoldOnce(sum);
      sum := sum % WORD + sum / WORD;
    }
    FoldOfWord(sum);
    r := 0xFFFF - sum;
  }

  lemma SumOfHead(b: seq<byte>)
    ensures |b| >= 2 ==> WordSum(b) == BigEndian(b[0], b[1]) + WordSum(b[2..])
    ensures |b| == 1 ==> WordSum(b) == BigEndian(b[0], 0)
    ensures |b| == 0 ==> WordSum(b) == 0
  {
  }

  // ---- A checksum in its field ----

  function WithField(b: seq<byte>, at: nat, field: uint16): seq<byte>
    requires at + 2 <= |b|
  {
    b[at := field / 0x100][at + 1 := field % 0x100]
  }

  function FieldAt(b: seq<byte>, at: nat): uint16
    requires at + 2 <= |b|
  {
    BigEndian(b[at], b[at + 1])
  }

  lemma FieldAddsUp(b: seq<byte>, at: nat, field: uint16)
    requires at % 2 == 0 && at + 2 <= |b|
    ensures WordSum(WithField(b, at, field)) == WordSum(b[..at]) + field + WordSum(b[at + 2..])
  {
    var middle := [field / 0x100, field % 0x100];
    var tail := middle + b[at + 2..];
    assert WithField(b, at, field) == b[..at] + tail;
    WordSumAppends(b[..at], tail);
    assert tail[2..] == b[at + 2..];
    assert WordSum(tail) == field + WordSum(b[at + 2..]);
  }

  lemma FieldIsThere(b: seq<byte>, at: nat, field: uint16)
    requires at + 2 <= |b|
    ensures FieldAt(WithField(b, at, field), at) == field && WithField(b, at, FieldAt(b, at)) == b
  {
  }

  lemma FieldTwice(b: seq<byte>, at: nat, other: uint16, field: uint16)
    requires at + 2 <= |b|
    ensures WithField(WithField(b, at, other), at, field) == WithField(b, at, field)
  {
  }

  // Storing the checksum of a buffer in its zeroed field makes the checksum of the whole zero.
  lemma StoredChecksumCancels(b: seq<byte>, at: nat)
    requires at % 2 == 0 && at + 2 <= |b| && Short(b)
    ensures ChecksumOf(WithField(b, at, ChecksumOf(WithField(b, at, 0)))) == 0
  {
    hide WordSum, Fold;
    var field := ChecksumOf(WithField(b, at, 0));
    FieldAddsUp(b, at, 0);
    FieldAddsUp(b, at, field);
    ShortDoesNotWrap(WithField(b, at, 0));
    ShortDoesNotWrap(WithField(b, at, field));
    ComplementCancels(WordSum(WithField(b, at, 0)), 0);
  }

  // ---- The IPv4 header ----

  const CHECKSUM_AT := 10

  datatype HeaderError = InvalidLength | InvalidIPVersion | InvalidChecksum

  function HeaderLen(p: seq<byte>): nat
    requires |p| > 0
  {
    p[0] % 0x10 * 4
  }

  // The checks before the checksum; the buffer's length is truncated to 16 bits.
  function LengthError(p: seq<byte>): Option<HeaderError> {
    if |p| < 20 then Some(InvalidLength)
    else if p[0] / 0x10 != 4 then Some(InvalidIPVersion)
    else if |p| % WORD < BigEndian(p[2], p[3]) || BigEndian(p[2], p[3]) < HeaderLen(p) then Some(InvalidLength)
    else None
  }

  lemma HeaderFits(p: seq<byte>)
    requires LengthError(p) == None
    ensures HeaderLen(p) <= |p| && HeaderLen(p) <= 60
  {
  }

  // The checksum the header should carry.
  function Expected(p: seq<byte>): uint16
    requires |p| >= 20 && HeaderLen(p) <= |p|
  {
    ChecksumOf(WithField(p, CHECKSUM_AT, 0)[..HeaderLen(p)])
  }

  function Verified(p: seq<byte>): Option<HeaderError> {
    if LengthError(p).Some? then LengthError(p)
    else if HeaderLen(p) > |p| || FieldAt(p, CHECKSUM_AT) != Expected(p) then Some(InvalidChecksum)
    else None
  }

  function Reset(p: seq<byte>): seq<byte>
    requires |p| >= 20 && HeaderLen(p) <= |p|
  {
    WithField(p, CHECKSUM_AT, Expected(p))
  }

  method SetChecksum(p: array<byte>, sum: (byte, byte))
    requires p.Length >= 20
    modifies p
    ensures p[..] == WithField(old(p[..]), CHECKSUM_AT, BigEndian(sum.0, sum.1))
  {
    p[CHECKSUM_AT] := sum.0;
    p[CHECKSUM_AT + 1] := sum.1;
  }

  // The header checksum over what is in the buffer now.
  method HeaderChecksum(p: array<byte>) returns (sum: (byte, byte))
    requires p.Length >= 20 && HeaderLen(p[..]) <= p.Length
    ensures BigEndian(sum.0, sum.1) == ChecksumOf(p[..HeaderLen(p[..])])
  {
    sum := FixedFolds(0, p[..p[0] % 0x10 * 4]);
  }

  method ResetChecksum(p: array<byte>)
    requires p.Length >= 20 && HeaderLen(p[..]) <= p.Length
    modifies p
    ensures p[..] == Reset(old(p[..]))
  {
    ghost var before := p[..];
    SetChecksum(p, (0, 0));
    assert p[..][..HeaderLen(before)] == p[..HeaderLen(before)];
    var sum := HeaderChecksum(p);
    SetChecksum(p, sum);
    FieldTwice(before, CHECKSUM_AT, 0, BigEndian(sum.0, sum.1));
  }

  // Verify zeroes the field, computes, and puts the field back as it was.
  method Verify(p: array<byte>) returns (err: Option<HeaderError>)
    modifies p
    ensures err == Verified(old(p[..])) && p[..] == old(p[..])
  {
    ghost var before := p[..];
    if p.Length < 20 {
      return Some(InvalidLength);
    }
    var stored := (p[CHECKSUM_AT], p[CHECKSUM_AT + 1]);
    if p[0] / 0x10 != 4 {
      return Some(InvalidIPVersion);
    }
    var packetLength := BigEndian(p[2], p[3]);
    if p.Length % WORD < packetLength || packetLength < p[0] % 0x10 * 4 {
      return Some(InvalidLength);
    }
    HeaderFits(before);
    SetChecksum(p, (0, 0));
    assert p[..][..HeaderLen(before)] == p[..HeaderLen(before)];
    var answer := HeaderChecksum(p);
    SameWord(answer, stored);
    err := if answer.0 != stored.0 || answer.1 != stored.1 then Some(InvalidChecksum) else None;
    SetChecksum(p, stored);
    FieldTwice(before, CHECKSUM_AT, 0, BigEndian(stored.0, stored.1));
    FieldIsThere(before, CHECKSUM_AT, 0);
  }

  lemma SameWord(a: (byte, byte), b: (byte, byte))
    ensures BigEndian(a.0, a.1) == BigEndian(b.0, b.1) <==> a == b
  {
  }

  // ResetChecksum makes every header with sound lengths pass Verify.
  lemma ResetVerifies(p: seq<byte>)
    requires LengthError(p) == None
    ensures HeaderLen(p) <= |p| && Verified(Reset(p)) == None
  {
    HeaderFits(p);
    FieldIsThere(p, CHECKSUM_AT, Expected(p));
    FieldTwice(p, CHECKSUM_AT, Expected(p), 0);
    hide ChecksumOf;
    assert Reset(p)[0] == p[0] && Reset(p)[2] == p[2] && Reset(p)[3] == p[3];
  }

  // The checksum over the whole header is zero, and the field does not hold the other form of zero.
  predicate WholeCancels(p: seq<byte>)
    requires |p| >= 20 && HeaderLen(p) <= |p|
  {
    ChecksumOf(p[..HeaderLen(p)]) == 0 && FieldAt(p, CHECKSUM_AT) != 0xFFFF
  }

  // What Verify accepts among the headers with sound lengths: where the header reaches over its own
  // checksum field, those whose whole checksum is zero and whose field is not 0xFFFF; where it is too
  // short for that, those whose field holds the checksum of the bytes before it.
  lemma VerifiedIffWholeCancels(p: seq<byte>)
    requires LengthError(p) == None
    ensures HeaderLen(p) <= |p|
    ensures HeaderLen(p) >= CHECKSUM_AT + 2 ==> (Verified(p) == None <==> WholeCancels(p))
    ensures HeaderLen(p) < CHECKSUM_AT + 2 ==>
              (Verified(p) == None <==> FieldAt(p, CHECKSUM_AT) == ChecksumOf(p[..HeaderLen(p)]))
  {
    HeaderFits(p);
    if HeaderLen(p) >= CHECKSUM_AT + 2 {
      LongHeaderCancels(p);
    } else {
      assert WithField(p, CHECKSUM_AT, 0)[..HeaderLen(p)] == p[..HeaderLen(p)];
    }
  }

  lemma LongHeaderCancels(p: seq<byte>)
    requires LengthError(p) == None && CHECKSUM_AT + 2 <= HeaderLen(p) <= |p|
    ensures Verified(p) == None <==> WholeCancels(p)
  {
    var field, header := FieldAt(p, CHECKSUM_AT), p[..HeaderLen(p)];
    var zeroed := WithField(header, CHECKSUM_AT, 0);
    HeaderFits(p);
    assert WithField(p, CHECKSUM_AT, 0)[..HeaderLen(p)] == zeroed;
    assert WordSum(zeroed) > 0 by {
      assert zeroed[0] == p[0] && WordSum(zeroed) == BigEndian(zeroed[0], zeroed[1]) + WordSum(zeroed[2..]);
    }
    hide WordSum, Fold;
    FieldIsThere(header, CHECKSUM_AT, field);
    FieldAddsUp(header, CHECKSUM_AT, field);
    FieldAddsUp(header, CHECKSUM_AT, 0);
    ShortDoesNotWrap(header);
    ShortDoesNotWrap(zeroed);
    ComplementCancels(WordSum(zeroed), field);
  }

  // The boundary is exact: acceptance means a zero checksum over the whole header, for all headers of a
  // length, if and only if the length covers the field.
  lemma OnlyLongHeadersCancel(n: nat)
    requires n % 4 == 0 && n <= 60
    ensures (forall p :: LengthError(p) == None && HeaderLen(p) == n ==>
               n <= |p| && (Verified(p) == None <==> WholeCancels(p))) <==> n >= CHECKSUM_AT + 2
  {
    if n >= CHECKSUM_AT + 2 {
      forall p | LengthError(p) == None && HeaderLen(p) == n
        ensures n <= |p| && (Verified(p) == None <==> WholeCancels(p))
      {
        VerifiedIffWholeCancels(p);
      }
    } else {
      var p := AcceptedShortHeader(n / 4);
      assert LengthError(p) == None && HeaderLen(p) == n;
      assert Verified(p) == None && !WholeCancels(p);
    }
  }

  // A packet whose header is too short for its field, accepted although its checksum is not zero.
  lemma AcceptedShortHeader(words: nat) returns (p: seq<byte>)
    requires words < 3
    ensures LengthError(p) == None && HeaderLen(p) == 4 * words <= |p|
    ensures Verified(p) == None && !WholeCancels(p)
  {
    var plain: seq<byte> := [0x40 + words, 0, 0, 20] + seq(16, i => 0);
    var header := plain[..4 * words];
    ShortHeaderSum(words, header);
    p := WithField(plain, CHECKSUM_AT, ChecksumOf(header));
    assert p[..4 * words] == header;
    FieldIsThere(plain, CHECKSUM_AT, ChecksumOf(header));
    VerifiedIffWholeCancels(p);
  }

  lemma ShortHeaderSum(words: nat, header: seq<byte>)
    requires words < 3 && header == ([0x40 + words, 0, 0, 20] + seq(16, i => 0))[..4 * words]
    ensures ChecksumOf(header) != 0
  {
    if words == 0 {
      assert WordSum(header) == 0;
    } else {
      var zeros: seq<byte> := seq(4 * words - 4, i => 0);
      assert header == [0x40 + words, 0, 0, 20] + zeros;
      HeadThenZeros(0x40 + words, 0, 0, 20, zeros);
    }
  }

  lemma HeadThenZeros(a: byte, b: byte, c: byte, d: byte, zeros: seq<byte>)
    requires forall i :: 0 <= i < |zeros| ==> zeros[i] == 0
    ensures WordSum([a, b, c, d] + zeros) == BigEndian(a, b) + BigEndian(c, d)
  {
    assert ([a, b, c, d] + zeros)[2..] == [c, d] + zeros && ([c, d] + zeros)[2..] == zeros;
    ZeroSum(zeros);
  }

  // Zero has two forms in one's complement: a header whose checksum is zero cancels with either in its
  // field, and Verify accepts only the one with clear bits.
  lemma ZeroHasTwoForms(p: seq<byte>)
    requires LengthError(p) == None && CHECKSUM_AT + 2 <= HeaderLen(p) <= |p| && Expected(p) == 0
    ensures Verified(WithField(p, CHECKSUM_AT, 0)) == None
    ensures var other := WithField(p, CHECKSUM_AT, 0xFFFF);
            && LengthError(other) == None && HeaderLen(other) == HeaderLen(p)
            && ChecksumOf(other[..HeaderLen(p)]) == 0 && Verified(other) == Some(InvalidChecksum)
  {
    hide WordSum, ChecksumOf;
    var other := WithField(p, CHECKSUM_AT, 0xFFFF);
    ResetVerifies(p);
    HeaderFits(p);
    assert other[0] == p[0] && other[2] == p[2] && other[3] == p[3];
    FieldIsThere(p, CHECKSUM_AT, 0xFFFF);
    FieldTwice(p, CHECKSUM_AT, 0xFFFF, 0);
    OtherZeroCancels(p);
  }

  lemma OtherZeroCancels(p: seq<byte>)
    requires LengthError(p) == None && CHECKSUM_AT + 2 <= HeaderLen(p) <= |p| && Expected(p) == 0
    ensures ChecksumOf(WithField(p, CHECKSUM_AT, 0xFFFF)[..HeaderLen(p)]) == 0
  {
    hide WordSum, Complement;
    var header := p[..HeaderLen(p)];
    var zero, other := WithField(header, CHECKSUM_AT, 0), WithField(header, CHECKSUM_AT, 0xFFFF);
    assert WithField(p, CHECKSUM_AT, 0xFFFF)[..HeaderLen(p)] == other;
    assert WithField(p, CHECKSUM_AT, 0)[..HeaderLen(p)] == zero;
    FieldAddsUp(header, CHECKSUM_AT, 0xFFFF);
    FieldAddsUp(header, CHECKSUM_AT, 0);
    ShortDoesNotWrap(zero);
    ShortDoesNotWrap(other);
    FoldOfZero(WordSum(zero));
  }

  lemma FoldOfZero(sum: nat)
    requires Complement(sum) == 0
    ensures Complement(sum + 0xFFFF) == 0
  {
    FoldKeeps(sum + 0xFFFF, 1);
  }

  // Such a header exists: its words add up to 0xFFFF.
  lemma RejectedForm()
    ensures exists p :: LengthError(p) == None && HeaderLen(p) == 20 && ChecksumOf(p[..20]) == 0
                        && FieldAt(p, CHECKSUM_AT) == 0xFFFF && Verified(p) == Some(InvalidChecksum)
  {
    var p := CancellingHeader();
    assert WithField(p, CHECKSUM_AT, 0)[..20] == p;
    assert Expected(p) == 0;
    ZeroHasTwoForms(p);
    FieldIsThere(p, CHECKSUM_AT, 0xFFFF);
  }

  lemma CancellingHeader() returns (p: seq<byte>)
    ensures |p| == 20 && LengthError(p) == None && HeaderLen(p) == 20
    ensures FieldAt(p, CHECKSUM_AT) == 0 && ChecksumOf(p) == 0
  {
    var tail: seq<byte> := seq(14, i => 0);
    p := [0x45, 0, 0, 20] + ([0xBA, 0xEB] + tail);
    WordSumAppends([0x45, 0, 0, 20], [0xBA, 0xEB] + tail);
    HeadThenZeros(0x45, 0, 0, 20, []);
    assert [0x45, 0, 0, 20] + [] == [0x45, 0, 0, 20];
    HeadThenZeros(0xBA, 0xEB, 0, 0, tail[2..]);
    assert [0xBA, 0xEB, 0, 0] + tail[2..] == [0xBA, 0xEB] + tail;
  }

  lemma {:induction false} ZeroSum(zeros: seq<byte>)
    requires forall i :: 0 <= i < |zeros| ==> zeros[i] == 0
    ensures WordSum(zeros) == 0
  {
    if |zeros| >= 2 {
      ZeroSum(zeros[2..]);
    }
  }

  // ---- What the checksum says about the bytes ----

  // The bytes read as one number, the first byte the highest.
  function Number(b: seq<byte>): nat {
    if b == [] then 0 else 256 * Number(b[..|b| - 1]) + b[|b| - 1]
  }

  // Padded with a zero byte to whole words.
  function Padded(b: seq<byte>): seq<byte> {
    if |b| % 2 == 0 then b else b + [0]
  }

  lemma NumberOfTwo(b: seq<byte>)
    requires |b| >= 2
    ensures Number(b) == 65536 * Number(b[..|b| - 2]) + 256 * (b[|b| - 2] as int) + b[|b| - 1]
  {
    var most := b[..|b| - 1];
    assert most[..|most| - 1] == b[..|b| - 2];
  }

  lemma {:induction false} SumIsResidue(b: seq<byte>)
    requires |b| % 2 == 0
    ensures WordSum(b) <= Number(b) && (Number(b) - WordSum(b)) % 65535 == 0
    ensures WordSum(b) == 0 <==> forall i :: 0 <= i < |b| ==> b[i] == 0
  {
    if b != [] {
      var n := |b| - 2;
      SumIsResidue(b[..n]);
      SumOfPair(b, n);
      NumberOfTwo(b);
      assert b[..n + 2] == b;
      hide WordSum, Number;
      OneWordMore(Number(b[..n]), WordSum(b[..n]), 256 * (b[n] as int) + b[n + 1]);
      assert forall i :: 0 <= i < n ==> b[i] == b[..n][i];
    }
  }

  lemma OneWordMore(number: nat, sum: nat, word: nat)
    requires sum <= number && (number - sum) % 65535 == 0
    ensures sum + word <= 65536 * number + word && (65536 * number + word - (sum + word)) % 65535 == 0
  {
    var k := (number - sum) / 65535;
    assert 65536 * number + word - (sum + word) == 65535 * (number + k);
  }

  lemma {:induction false} PaddingAddsNothing(b: seq<byte>)
    ensures WordSum(Padded(b)) == WordSum(b)
  {
    if |b| == 1 {
      assert (b + [0])[2..] == [];
    } else if |b| > 1 {
      PaddingAddsNothing(b[2..]);
      assert Padded(b)[2..] == Padded(b[2..]);
    }
  }

  // The checksum is the number that completes the bytes, read as one number, to a multiple of 65535; of the
  // two forms of zero it takes 65535 exactly for bytes that are all zero.
  lemma ChecksumIsComplement(b: seq<byte>)
    requires Short(b)
    ensures (Number(Padded(b)) + ChecksumOf(b)) % 65535 == 0
    ensures ChecksumOf(b) == 65535 <==> forall i :: 0 <= i < |b| ==> b[i] == 0
  {
    hide WordSum, ChecksumOf, Number, Complement, Padded;
    ShortDoesNotWrap(b);
    PaddingAddsNothing(b);
    PaddedShape(b);
    SumIsResidue(Padded(b));
    assert (forall i :: 0 <= i < |Padded(b)| ==> Padded(b)[i] == 0) <==> (forall i :: 0 <= i < |b| ==> b[i] == 0);
    ResidueOf(Number(Padded(b)), WordSum(b));
  }

  lemma PaddedShape(b: seq<byte>)
    ensures |Padded(b)| % 2 == 0 && |b| <= |Padded(b)|
    ensures forall i :: 0 <= i < |Padded(b)| ==> Padded(b)[i] == if i < |b| then b[i] else 0
  {
  }

  lemma ResidueOf(number: nat, sum: nat)
    requires sum <= number && (number - sum) % 65535 == 0
    ensures (number + Complement(sum)) % 65535 == 0
    ensures Complement(sum) == 65535 <==> sum == 0
  {
    var k := (number - sum) / 65535;
    assert number == sum + 65535 * k;
    if sum > 0 {
      var j := (sum - 1) / 65535;
      assert sum + Complement(sum) == 65535 * (j + 1);
      assert number + Complement(sum) == 65535 * (j + 1 + k);
    } else {
      assert number + Complement(sum) == 65535 * (k + 1);
    }
  }
}
