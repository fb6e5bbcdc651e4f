// How the bytes of a digest become the key of a ring: unsigned for MD5, signed for SHA-1.

module Digests {
  import opened Basics
  import HashRing

  newtype Byte = n: int | 0 <= n < 0x100

  newtype Word = n: int | 0 <= n < 0x1_0000_0000

  type Md5Digest = d: seq<Byte> | |d| == 16 witness seq(16, _ => 0)

  type Sha1Digest = d: seq<Word> | |d| == 5 witness seq(5, _ => 0)

  /** The value of digits in base 256, each of them any integer. */
  function Fold(digits: seq<int>): int {
    if digits == [] then 0 else Fold(digits[..|digits| - 1]) * 0x100 + digits[|digits| - 1]
  }

  lemma FoldNext(digits: seq<int>, k: nat)
    requires k < |digits|
    ensures Fold(digits[..k + 1]) == Fold(digits[..k]) * 0x100 + digits[k]
  {
    assert digits[..k + 1][..k] == digits[..k];
  }

  function Bytes(d: seq<Byte>): (r: seq<int>)
    ensures |r| == |d| && forall k :: 0 <= k < |d| ==> r[k] == d[k] as int
  {
    seq(|d|, k requires 0 <= k < |d| => d[k] as int)
  }

  function Md5Key(d: Md5Digest): int {
    Fold(Bytes(d))
  }

  /** `CalcHash` for MD5; None is an error return of the library, and the key is then 0. */
  method CalcHashMd5(digest: Option<Md5Digest>) returns (hash: int)
    ensures hash == if digest.Some? then Md5Key(digest.value) else 0
  {
    hash := 0;
    if digest.Some? {
      var digits := Bytes(digest.value);
      for index := 0 to 16
        invariant hash == Fold(digits[..index])
      {
        FoldNext(digits, index);
        hash := hash * 0x100;
        hash := hash + digits[index];
      }
      assert digits[..16] == digits;
    }
  }

  // ----- MD5: a bijection -----

  function Span(n: nat): (r: nat)
    ensures r >= 1
  {
    if n == 0 then 1 else Span(n - 1) * 0x100
  }

  /** The `n` base-256 digits of a number. */
  function Digits(v: nat, n: nat): (d: seq<Byte>)
    requires v < Span(n)
    ensures |d| == n
  {
    if n == 0 then [] else Digits(v / 0x100, n - 1) + [(v % 0x100) as Byte]
  }

  lemma {:induction false} FoldRange(d: seq<Byte>)
    ensures 0 <= Fold(Bytes(d)) < Span(|d|)
  {
    if d != [] {
      var front := d[..|d| - 1];
      assert Bytes(d)[..|d| - 1] == Bytes(front);
      FoldRange(front);
    }
  }

  lemma {:induction false} DigitsOfFold(d: seq<Byte>)
    ensures 0 <= Fold(Bytes(d)) < Span(|d|)
    ensures Digits(Fold(Bytes(d)), |d|) == d
  {
    FoldRange(d);
    if d != [] {
      var front, last := d[..|d| - 1], d[|d| - 1];
      assert Bytes(d)[..|d| - 1] == Bytes(front);
      DigitsOfFold(front);
      assert Fold(Bytes(d)) == Fold(Bytes(front)) * 0x100 + last as int;
    }
  }

  lemma {:induction false} FoldOfDigits(v: nat, n: nat)
    requires v < Span(n)
    ensures Fold(Bytes(Digits(v, n))) == v
  {
    if n > 0 {
      FoldOfDigits(v / 0x100, n - 1);
      assert Bytes(Digits(v, n))[..n - 1] == Bytes(Digits(v / 0x100, n - 1));
    }
  }

  lemma {:induction false} SpanIsPow2(n: nat)
    ensures Span(n) == HashRing.Pow2(8 * n)
  {
    if n > 0 {
      SpanIsPow2(n - 1);
      var m := 8 * (n - 1);
      assert HashRing.Pow2(m + 2) == 4 * HashRing.Pow2(m);
      assert HashRing.Pow2(m + 4) == 4 * HashRing.Pow2(m + 2);
      assert HashRing.Pow2(m + 6) == 4 * HashRing.Pow2(m + 4);
      assert HashRing.Pow2(m + 8) == 4 * HashRing.Pow2(m + 6);
    }
  }

  lemma Md5Range(d: Md5Digest, bits: nat)
    requires bits == 128
    ensures 0 <= Md5Key(d) < HashRing.Pow2(bits)
  {
    SpanIsPow2(16);
    FoldRange(d);
  }

  /** Each key from 0 to 2^128 - 1 is the key of exactly one MD5 digest. */
  lemma Md5IsBijection(d: Md5Digest, v: nat, bits: nat)
    requires bits == 128
    ensures 0 <= Md5Key(d) < HashRing.Pow2(bits)
    ensures v < HashRing.Pow2(bits) ==> exists e: Md5Digest :: Md5Key(e) == v
    ensures forall e: Md5Digest :: Md5Key(e) == Md5Key(d) ==> e == d
  {
    SpanIsPow2(16);
    DigitsOfFold(d);
    if v < HashRing.Pow2(bits) {
      FoldOfDigits(v, 16);
      var e: Md5Digest := Digits(v, 16);
      assert Md5Key(e) == v;
    }
    forall e: Md5Digest | Md5Key(e) == Md5Key(d) ensures e == d {
      DigitsOfFold(e);
    }
  }

  // ----- SHA-1 -----

  /** Byte `k` of a word, counted from the least significant one. */
  function ByteOf(w: Word, k: nat): (b: int)
    ensures 0 <= b < 0x100
  {
    if k == 0 then w as int % 0x100 else ByteOf(w / 0x100, k - 1)
  }

  /** A byte read as a C `char`, on the platforms where that is signed. */
  function Signed(b: int): (c: int)
    requires 0 <= b < 0x100
    ensures -0x80 <= c < 0x80
  {
    if b < 0x80 then b else b - 0x100
  }

  predicate AllSigned(s: seq<int>) {
    forall k :: 0 <= k < |s| ==> -0x80 <= s[k] < 0x80
  }

  /** The digest bytes from the most significant one of the first word on, each read as a `char`. A SHA-1
      digest has five words; nothing below depends on that. */
  function Sha1Chars(d: seq<Word>): (r: seq<int>)
    ensures |r| == 4 * |d| && AllSigned(r)
  {
    seq(4 * |d|, i requires 0 <= i < 4 * |d| => Signed(ByteOf(d[i / 4], 3 - i % 4)))
  }

  function Sha1Key(d: seq<Word>): int {
    Fold(Sha1Chars(d))
  }

  /** The words as the machine stores them, lowest byte first. */
  function LittleEndian(d: seq<Word>): (r: seq<int>)
    ensures |r| == 4 * |d|
  {
    seq(4 * |d|, i requires 0 <= i < 4 * |d| => Signed(ByteOf(d[i / 4], i % 4)))
  }

  /** Turning the bytes of word `i` round puts its most significant byte first. */
  lemma TurnedWord(d: seq<Word>, i: nat)
    requires i < |d|
    ensures var want, tmp := Sha1Chars(d), LittleEndian(d);
      want[i * 4] == tmp[i * 4 + 3] && want[i * 4 + 1] == tmp[i * 4 + 2] &&
      want[i * 4 + 2] == tmp[i * 4 + 1] && want[i * 4 + 3] == tmp[i * 4]
  {
  }

  /** The first loop: the bytes of each word turned round. */
  method TurnBytes(digest: Sha1Digest) returns (hash: array<int>)
    ensures fresh(hash) && hash.Length == 20
    ensures forall j :: 0 <= j < 20 ==> hash[j] == Sha1Chars(digest)[j]
  {
    hash := new int[20];
    var tmp := LittleEndian(digest);
    ghost var want := Sha1Chars(digest);
    for i := 0 to 5
      invariant forall j :: 0 <= j < i * 4 ==> hash[j] == want[j]
    {
      TurnedWord(digest, i);
      TurnWord(hash, tmp, i * 4, want);
    }
  }

  method TurnWord(hash: array<int>, tmp: seq<int>, n: nat, ghost want: seq<int>)
    requires hash.Length == |tmp| == |want| && n + 3 < |tmp| && forall j :: 0 <= j < n ==> hash[j] == want[j]
    requires want[n] == tmp[n + 3] && want[n + 1] == tmp[n + 2] && want[n + 2] == tmp[n + 1] && want[n + 3] == tmp[n]
    modifies hash
    ensures forall j :: 0 <= j < n + 4 ==> hash[j] == want[j]
  {
    hash[n] := tmp[n + 3];
    hash[n + 1] := tmp[n + 2];
    hash[n + 2] := tmp[n + 1];
    hash[n + 3] := tmp[n];
  }

  /** `CalcHash` for SHA-1. */
  method CalcHashSha1(digest: Sha1Digest) returns (rethash: int)
    ensures rethash == Sha1Key(digest)
  {
    var hash := TurnBytes(digest);
    rethash := 0;
    ghost var want := Sha1Chars(digest);
    for index := 0 to 20
      invariant forall j :: 0 <= j < 20 ==> hash[j] == want[j]
      invariant rethash == Fold(want[..index])
    {
      FoldNext(want, index);
      rethash := rethash * 0x100;
      rethash := rethash + hash[index];
    }
    assert want[..20] == want;
  }

  lemma LastDigit(a: int, b: int, x: int, y: int)
    requires a * 0x100 + x == b * 0x100 + y && -0x80 <= x < 0x80 && -0x80 <= y < 0x80
    ensures a == b && x == y
  {
  }

  lemma {:induction false} SignedFoldInjective(a: seq<int>, b: seq<int>)
    requires |a| == |b| && AllSigned(a) && AllSigned(b) && Fold(a) == Fold(b)
    ensures a == b
  {
    if a != [] {
      var n := |a| - 1;
      LastDigit(Fold(a[..n]), Fold(b[..n]), a[n], b[n]);
      SignedFoldInjective(a[..n], b[..n]);
      assert a == a[..n] + [a[n]] && b == b[..n] + [b[n]];
    }
  }

  lemma WordOfBytes(w: Word)
    ensures w as int == ((ByteOf(w, 3) * 0x100 + ByteOf(w, 2)) * 0x100 + ByteOf(w, 1)) * 0x100 + ByteOf(w, 0)
  {
    var v := w / 0x100;
    var u := v / 0x100;
    assert ByteOf(w, 1) == ByteOf(v, 0);
    assert ByteOf(w, 2) == ByteOf(v, 1) == ByteOf(u, 0);
    assert ByteOf(w, 3) == ByteOf(v, 2) == ByteOf(u, 1) == ByteOf(u / 0x100, 0);
  }

  /** Different SHA-1 digests have different keys. */
  lemma Sha1Injective(d: seq<Word>, e: seq<Word>)
    requires |d| == |e| && Sha1Key(d) == Sha1Key(e)
    ensures d == e
  {
    SignedFoldInjective(Sha1Chars(d), Sha1Chars(e));
    forall i | 0 <= i < |d| ensures d[i] == e[i] {
      WordOfBytes(d[i]);
      WordOfBytes(e[i]);
      forall k: nat | k < 4 ensures ByteOf(d[i], k) == ByteOf(e[i], k) {
        SameByte(d, e, i, k);
      }
    }
  }

  lemma SameByte(d: seq<Word>, e: seq<Word>, i: nat, k: nat)
    requires |d| == |e| && i < |d| && k < 4 && Sha1Chars(d) == Sha1Chars(e)
    ensures ByteOf(d[i], k) == ByteOf(e[i], k)
  {
    var j := i * 4 + (3 - k);
    assert Sha1Chars(d)[j] == Signed(ByteOf(d[i], k));
    assert Sha1Chars(e)[j] == Signed(ByteOf(e[i], k));
  }

  // ----- the keys of SHA-1 digests: an interval -----

  /** The number of `n` digits 1 in base 256. */
  function Ones(n: nat): nat {
    if n == 0 then 0 else Ones(n - 1) * 0x100 + 1
  }

  lemma {:induction false} SpanOfOnes(n: nat)
    ensures Span(n) == 0xff * Ones(n) + 1
  {
    if n > 0 {
      SpanOfOnes(n - 1);
    }
  }

  lemma {:induction false} SignedFoldRange(s: seq<int>)
    requires AllSigned(s)
    ensures -0x80 * Ones(|s|) <= Fold(s) <= 0x7f * Ones(|s|)
  {
    if s != [] {
      SignedFoldRange(s[..|s| - 1]);
    }
  }

  lemma {:induction false} SignedFoldSign(s: seq<int>)
    requires s != [] && AllSigned(s) && s[0] < 0
    ensures Fold(s) < 0
  {
    if |s| > 1 {
      SignedFoldSign(s[..|s| - 1]);
    } else {
      assert s[..0] == [];
    }
  }

  /** A number without its last signed digit. */
  function Front(v: int): (r: int)
    ensures r * 0x100 + Signed(v % 0x100) == v
  {
    (v - Signed(v % 0x100)) / 0x100
  }

  /** The `n` signed digits of a number. */
  function SignedDigits(v: int, n: nat): (s: seq<int>)
    requires -0x80 * Ones(n) <= v <= 0x7f * Ones(n)
    ensures |s| == n && AllSigned(s)
    decreases n
  {
    if n == 0 then [] else SignedDigits(Front(v), n - 1) + [Signed(v % 0x100)]
  }

  lemma {:induction false} FoldOfSignedDigits(v: int, n: nat)
    requires -0x80 * Ones(n) <= v <= 0x7f * Ones(n)
    ensures Fold(SignedDigits(v, n)) == v
    decreases n
  {
    if n > 0 {
      var front := SignedDigits(Front(v), n - 1);
      FoldOfSignedDigits(Front(v), n - 1);
      assert SignedDigits(v, n) == front + [Signed(v % 0x100)];
      assert SignedDigits(v, n)[..n - 1] == front;
    }
  }

  function Unsigned(c: int): (b: int)
    requires -0x80 <= c < 0x80
    ensures 0 <= b < 0x100 && Signed(b) == c
  {
    if c < 0 then c + 0x100 else c
  }

  /** The word with these bytes, the most significant one first. */
  function WordOf(a: int, b: int, c: int, d: int): (w: Word)
    requires 0 <= a < 0x100 && 0 <= b < 0x100 && 0 <= c < 0x100 && 0 <= d < 0x100
  {
    (((a * 0x100 + b) * 0x100 + c) * 0x100 + d) as Word
  }

  lemma BytesOfWord(a: int, b: int, c: int, d: int)
    requires 0 <= a < 0x100 && 0 <= b < 0x100 && 0 <= c < 0x100 && 0 <= d < 0x100
    ensures var w := WordOf(a, b, c, d);
      ByteOf(w, 3) == a && ByteOf(w, 2) == b && ByteOf(w, 1) == c && ByteOf(w, 0) == d
  {
    var w := WordOf(a, b, c, d);
    var v := w / 0x100;
    var u := v / 0x100;
    assert v as int == (a * 0x100 + b) * 0x100 + c;
    assert u as int == a * 0x100 + b;
    assert u / 0x100 == a as Word;
    assert ByteOf(w, 1) == ByteOf(v, 0);
    assert ByteOf(w, 2) == ByteOf(v, 1) == ByteOf(u, 0);
    assert ByteOf(w, 3) == ByteOf(v, 2) == ByteOf(u, 1) == ByteOf(u / 0x100, 0);
  }

  /** The digest with these characters. */
  function Sha1Of(s: seq<int>): (d: seq<Word>)
    requires |s| % 4 == 0 && AllSigned(s)
    ensures |d| == |s| / 4
  {
    seq(|s| / 4, i requires 0 <= i < |s| / 4 =>
      WordOf(Unsigned(s[i * 4]), Unsigned(s[i * 4 + 1]), Unsigned(s[i * 4 + 2]), Unsigned(s[i * 4 + 3])))
  }

  lemma CharsOfDigest(s: seq<int>)
    requires |s| % 4 == 0 && AllSigned(s)
    ensures Sha1Chars(Sha1Of(s)) == s
  {
    var d := Sha1Of(s);
    forall j | 0 <= j < |s| ensures Sha1Chars(d)[j] == s[j] {
      var i := j / 4;
      BytesOfWord(Unsigned(s[i * 4]), Unsigned(s[i * 4 + 1]), Unsigned(s[i * 4 + 2]), Unsigned(s[i * 4 + 3]));
      assert j == i * 4 + j % 4;
    }
  }

  lemma Sha1KeyRange(d: seq<Word>)
    ensures -0x80 * Ones(4 * |d|) <= Sha1Key(d) <= 0x7f * Ones(4 * |d|)
  {
    SignedFoldRange(Sha1Chars(d));
  }

  lemma DigestWithKey(v: int, n: nat) returns (d: seq<Word>)
    requires n % 4 == 0 && -0x80 * Ones(n) <= v <= 0x7f * Ones(n)
    ensures |d| == n / 4 && Sha1Key(d) == v
  {
    var s := SignedDigits(v, n);
    FoldOfSignedDigits(v, n);
    CharsOfDigest(s);
    d := Sha1Of(s);
  }

  lemma Sha1WithKey(v: int, words: nat) returns (d: seq<Word>)
    requires -0x80 * Ones(4 * words) <= v <= 0x7f * Ones(4 * words)
    ensures |d| == words && Sha1Key(d) == v
  {
    d := DigestWithKey(v, 4 * words);
  }

  /** The keys of the digests are exactly the numbers of an interval that ends in the middle of the ring. */
  lemma Sha1KeysAre(v: int, words: nat)
    ensures (exists d: seq<Word> :: |d| == words && Sha1Key(d) == v) <==>
      -0x80 * Ones(4 * words) <= v <= 0x7f * Ones(4 * words)
  {
    if d: seq<Word> :| |d| == words && Sha1Key(d) == v {
      Sha1KeyRange(d);
    }
    if -0x80 * Ones(4 * words) <= v <= 0x7f * Ones(4 * words) {
      var d := Sha1WithKey(v, words);
    }
  }

  lemma RingOfOnes(n: nat)
    ensures HashRing.Pow2(8 * n) - 1 == 0xff * Ones(n)
  {
    SpanIsPow2(n);
    SpanOfOnes(n);
  }

  /** In the ring of as many bits: nothing beyond the middle, and everything with its first bit set below zero. */
  lemma Sha1Range(d: seq<Word>)
    ensures var max := HashRing.Pow2(32 * |d|) - 1; -0x80 * max <= 0xff * Sha1Key(d) <= 0x7f * max
    ensures d != [] && d[0] >= 0x8000_0000 ==> Sha1Key(d) < 0
  {
    RingOfOnes(4 * |d|);
    Sha1KeyRange(d);
    if d != [] && d[0] >= 0x8000_0000 {
      Sha1Sign(d);
    }
  }

  lemma Sha1Sign(d: seq<Word>)
    requires d != [] && d[0] >= 0x8000_0000
    ensures Sha1Key(d) < 0
  {
    WordOfBytes(d[0]);
    assert Sha1Chars(d)[0] == Signed(ByteOf(d[0], 3));
    SignedFoldSign(Sha1Chars(d));
  }
}
