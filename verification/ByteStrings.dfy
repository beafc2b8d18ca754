/** Byte strings in the lexicographic order of the key-value store. */
module ByteStrings {
  import opened Types

  type Byte = x: int | 0 <= x < 256 witness 0
  type Bytes = seq<Byte>

  predicate Less(a: Bytes, b: Bytes) {
    if b == [] then false
    else if a == [] then true
    else a[0] < b[0] || (a[0] == b[0] && Less(a[1..], b[1..]))
  }

  predicate StartsWith(k: Bytes, p: Bytes) {
    |p| <= |k| && k[..|p|] == p
  }

  /** Proper extension of a prefix. */
  predicate Extends(k: Bytes, p: Bytes) {
    |p| < |k| && k[..|p|] == p
  }

  lemma {:induction false} LessIrreflexive(a: Bytes)
    ensures !Less(a, a)
  {
    if a != [] { LessIrreflexive(a[1..]); }
  }

  lemma {:induction false} LessTransitive(a: Bytes, b: Bytes, c: Bytes)
    requires Less(a, b) && Less(b, c)
    ensures Less(a, c)
  {
    if a != [] && b != [] && c != [] && a[0] == b[0] == c[0] {
      LessTransitive(a[1..], b[1..], c[1..]);
    }
  }

  lemma {:induction false} LessTotal(a: Bytes, b: Bytes)
    ensures a == b || Less(a, b) || Less(b, a)
  {
    if a != [] && b != [] {
      LessTotal(a[1..], b[1..]);
      if a[1..] == b[1..] && a[0] == b[0] {
        assert a == [a[0]] + a[1..] && b == [b[0]] + b[1..];
      }
    }
  }

  lemma {:induction false} PrefixLess(k: Bytes, p: Bytes)
    requires Extends(k, p)
    ensures Less(p, k)
  {
    if p != [] {
      assert k[0] == k[..|p|][0];
      assert k[1..][..|p| - 1] == k[..|p|][1..];
      PrefixLess(k[1..], p[1..]);
    }
  }

  /** The keys under a prefix are contiguous. */
  lemma {:induction false} PrefixInterval(a: Bytes, b: Bytes, c: Bytes, p: Bytes)
    requires StartsWith(a, p) && StartsWith(c, p) && Less(a, b) && Less(b, c)
    ensures StartsWith(b, p)
  {
    if p != [] {
      assert a[0] == a[..|p|][0] && c[0] == c[..|p|][0];
      assert a[1..][..|p| - 1] == a[..|p|][1..] == p[1..];
      assert c[1..][..|p| - 1] == c[..|p|][1..] == p[1..];
      PrefixInterval(a[1..], b[1..], c[1..], p[1..]);
      assert b[..|p|] == [b[0]] + b[1..][..|p| - 1];
    }
  }

  // ---------------------------------------------------------------- little-endian integers

  /** `to_le_bytes` on `width` bytes. */
  function ToLe(n: nat, width: nat): (r: Bytes)
    ensures |r| == width
  {
    if width == 0 then [] else [n % 256] + ToLe(n / 256, width - 1)
  }

  function FromLe(b: Bytes): nat {
    if b == [] then 0 else b[0] + 256 * FromLe(b[1..])
  }

  function Pow256(width: nat): (r: nat)
    ensures 0 < r
  {
    if width == 0 then 1 else 256 * Pow256(width - 1)
  }

  lemma U64IsEightBytes()
    ensures Pow256(8) == 0x1_0000_0000_0000_0000
  {
    assert Pow256(2) == 0x1_0000;
    assert Pow256(4) == 0x1_0000_0000;
    assert Pow256(6) == 0x1_0000_0000_0000;
  }

  /** Byte `k` is the digit of weight `256^k`: least significant first. */
  lemma {:induction false} LeDigit(n: nat, width: nat, k: nat)
    requires k < width
    ensures ToLe(n, width)[k] == n / Pow256(k) % 256
  {
    if k > 0 {
      LeDigit(n / 256, width - 1, k - 1);
      DivideTwice(n, Pow256(k - 1));
    }
  }

  lemma DivideTwice(n: nat, d: nat)
    requires 0 < d
    ensures n / 256 / d == n / (256 * d)
  {
    var q, r := n / 256, n % 256;
    var q', r' := q / d, q % d;
    assert n == 256 * (q' * d + r') + r == q' * (256 * d) + (256 * r' + r);
    assert 256 * r' + r < 256 * d;
    QuotientIs(n, 256 * d, q', 256 * r' + r);
  }

  /** An integer that fits its width is recovered from its bytes. */
  lemma {:induction false} LeRoundTrip(n: nat, width: nat)
    requires n < Pow256(width)
    ensures FromLe(ToLe(n, width)) == n
  {
    if width > 0 {
      LeRoundTrip(n / 256, width - 1);
      assert ToLe(n, width)[1..] == ToLe(n / 256, width - 1);
    }
  }
}
