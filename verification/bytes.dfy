/** Bytes, little-endian integers and in-place overwriting of a byte sequence. */
module Bytes {
  type byte = x: int | 0 <= x < 256

  const U64_MAX: nat := 0xFFFF_FFFF_FFFF_FFFF

  type u64 = x: int | 0 <= x <= U64_MAX

  function Pow256(k: nat): (r: nat)
    ensures r >= 1
  {
    if k == 0 then 1 else 256 * Pow256(k - 1)
  }

  /** The `k` low bytes of `n`, least significant first. */
  function Le(n: nat, k: nat): (b: seq<byte>)
    ensures |b| == k
  {
    if k == 0 then [] else [n % 256] + Le(n / 256, k - 1)
  }

  /** The integer that little-endian bytes `b` denote. */
  function Nat(b: seq<byte>): nat {
    if b == [] then 0 else b[0] + 256 * Nat(b[1..])
  }

  lemma {:induction false} NatOfLe(n: nat, k: nat)
    requires n < Pow256(k)
    ensures Nat(Le(n, k)) == n
  {
    if k > 0 {
      NatOfLe(n / 256, k - 1);
      assert Le(n, k)[1..] == Le(n / 256, k - 1);
    }
  }

  lemma {:induction false} LeOfNat(b: seq<byte>)
    ensures Nat(b) < Pow256(|b|)
    ensures Le(Nat(b), |b|) == b
  {
    if b != [] {
      LeOfNat(b[1..]);
      LowDigit(b[0], Nat(b[1..]));
      assert b == [b[0]] + b[1..];
    }
  }

  /** The byte at offset `i` is the digit of weight 256^i. */
  lemma {:induction false} LeAt(n: nat, k: nat, i: nat)
    requires i < k
    ensures Le(n, k)[i] == n / Pow256(i) % 256
  {
    if i > 0 {
      LeAt(n / 256, k - 1, i - 1);
      DivideTwice(n, Pow256(i - 1));
    }
  }

  lemma DivideTwice(n: nat, b: nat)
    requires b > 0
    ensures n / 256 / b == n / (256 * b)
  {
    var x := n / 256;
    var q, s := x / b, x % b;
    DivMod(x, b);
    Quotient(n, 256 * b, q, 256 * s + n % 256);
  }

  lemma DivMod(x: nat, b: nat)
    requires b > 0
    ensures x == b * (x / b) + x % b && x % b < b && 256 * (b * (x / b)) == 256 * b * (x / b)
  {
  }

  lemma Quotient(n: nat, d: nat, q: nat, low: int)
    requires d > 0 && n == d * q + low && 0 <= low < d
    ensures n / d == q
  {
    var e := n / d - q;
    assert n == d * (n / d) + n % d;
    assert d * e == low - n % d;
    WholeSteps(d, e);
  }

  lemma WholeSteps(d: nat, e: int)
    ensures e > 0 ==> d * e >= d
    ensures e < 0 ==> d * e + d <= 0
  {
    if e > 0 { assert d * (e - 1) >= 0; }
    if e < 0 { assert d * (-e - 1) >= 0; }
  }

  lemma LowDigit(d: byte, x: nat)
    ensures (d + 256 * x) % 256 == d && (d + 256 * x) / 256 == x
  {
  }

  lemma Widths()
    ensures Pow256(2) == 0x1_0000
    ensures Pow256(4) == 0x1_0000_0000
    ensures Pow256(8) == U64_MAX + 1
  {
    assert Pow256(1) == 256;
    assert Pow256(3) == 256 * Pow256(2);
    assert Pow256(5) == 256 * Pow256(4);
    assert Pow256(6) == 256 * Pow256(5);
    assert Pow256(7) == 256 * Pow256(6);
  }

  /** `m` with the bytes from `p` on overwritten by `b`. */
  function Splice(m: seq<byte>, p: nat, b: seq<byte>): (r: seq<byte>)
    requires p + |b| <= |m|
    ensures |r| == |m|
    ensures r[..p] == m[..p]
    ensures r[p..p + |b|] == b
    ensures r[p + |b|..] == m[p + |b|..]
  {
    m[..p] + b + m[p + |b|..]
  }

  lemma SpliceIndex(m: seq<byte>, p: nat, b: seq<byte>, i: nat)
    requires p + |b| <= |m| && i < |m|
    ensures Splice(m, p, b)[i] == if p <= i < p + |b| then b[i - p] else m[i]
  {
  }

  /** A range that the overwritten one does not meet is unchanged. */
  lemma SpliceElsewhere(m: seq<byte>, p: nat, b: seq<byte>, from: nat, to: nat)
    requires p + |b| <= |m|
    requires from <= to <= |m|
    requires to <= p || p + |b| <= from
    ensures Splice(m, p, b)[from..to] == m[from..to]
  {
    hide Splice;
    var r := Splice(m, p, b);
    if to <= p {
      SliceBefore(r, p, from, to);
      SliceBefore(m, p, from, to);
    } else {
      SliceBehind(r, p + |b|, from, to);
      SliceBehind(m, p + |b|, from, to);
    }
  }

  lemma SliceBefore(m: seq<byte>, p: nat, from: nat, to: nat)
    requires from <= to <= p <= |m|
    ensures m[from..to] == m[..p][from..to]
  {
  }

  lemma SliceBehind(m: seq<byte>, q: nat, from: nat, to: nat)
    requires q <= from <= to <= |m|
    ensures m[from..to] == m[q..][from - q..to - q]
  {
  }
}
