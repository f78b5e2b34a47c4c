/**
 * Fixed-width unsigned integers as bounded naturals, and the bit-field
 * arithmetic the decoder is written in.
 *
 * For an unsigned value `x`, Rust's `(x >> s) & (2^k - 1)` is
 * `(x / 2^s) % 2^k`; `x << s` on a value small enough not to lose bits is
 * `x * 2^s`; an OR of shifted fields that do not overlap is their sum. The
 * lemmas below take the powers of two as arguments `d`, `m`, so that their
 * users can pass literals.
 */
module Bits {

  type U8 = b: nat | b < 0x100
  type U16 = h: nat | h < 0x1_0000
  type U32 = w: nat | w < 0x1_0000_0000
  /** Rust's `i32`. */
  type I32 = x: int | -0x8000_0000 <= x < 0x8000_0000

  lemma {:induction false} MulAtLeast(k: int, d: int)
    requires k >= 1 && d > 0
    ensures k * d >= d
  {
    if k > 1 {
      MulAtLeast(k - 1, d);
      assert k * d == (k - 1) * d + d;
    }
  }

  /** Euclidean division has one quotient and one remainder. */
  lemma DivModUnique(a: int, d: int, q: int, r: int)
    requires 0 < d && 0 <= r < d && a == q * d + r
    ensures a / d == q && a % d == r
  {
    var q', r' := a / d, a % d;
    assert a == q' * d + r';
    assert (q - q') * d == r' - r by {
      assert (q - q') * d == q * d - q' * d;
    }
    if q > q' {
      MulAtLeast(q - q', d);
    } else if q < q' {
      MulAtLeast(q' - q, d);
    }
  }

  /**
   * A value laid out as `lo` below `d`, then `x` below `m`, then anything
   * above, gives back `x` as its field `(w / d) % m`.
   */
  lemma FieldOfSum(w: int, lo: int, x: int, hi: int, d: int, m: int)
    requires 0 <= lo < d && 0 <= x < m
    requires w == lo + d * (x + m * hi)
    ensures (w / d) % m == x
  {
    var a := x + m * hi;
    assert w == a * d + lo;
    DivModUnique(w, d, a, lo);
    DivModUnique(a, m, hi, x);
  }

  lemma PlaceBelow(lo: int, a: int, x: int, h: int, d: int, e: int, m: int, D: int)
    requires 0 <= lo < d && 0 <= a < e && D == d * e
    ensures lo + d * (a + e * (x + m * h)) == (lo + d * a) + D * (x + m * h)
    ensures lo + d * a < D
  {
    assert d * (a + e * (x + m * h)) == d * a + d * (e * (x + m * h));
    MulAtLeast(e - a, d);
    assert d * (e - a) == d * e - d * a;
  }

  /** `v` split at `e` and again at `e * m`. */
  lemma Decompose(v: int, e: int, m: int)
    requires 0 < e && 0 < m
    ensures v == v % e + e * ((v / e) % m + m * ((v / e) / m))
  {
    var q := v / e;
    assert v == v % e + e * q;
    assert q == q % m + m * (q / m);
  }

  /**
   * In `lo + d * v` with `lo` below `d`, the field `(w / D) % m` with
   * `D = d * e` is the field `(v / e) % m` of `v`.
   */
  lemma FieldOfShifted(w: int, lo: int, v: int, d: int, e: int, m: int, D: int)
    requires 0 <= lo < d && 0 <= v && 0 < e && 0 < m && D == d * e
    requires w == lo + d * v
    ensures (w / D) % m == (v / e) % m
  {
    var a: int, x: int, h: int := v % e, (v / e) % m, (v / e) / m;
    Decompose(v, e, m);
    PlaceBelow(lo, a, x, h, d, e, m, D);
    FieldOfSum(w, lo + d * a, x, h, D, m);
  }

  lemma RegroupLow(lo: int, f: int, h: int, s: int, d: int, m: int, r: int)
    ensures lo + d * (f + m * h) + (d * m * r) * s == lo + d * (f + m * (h + r * s))
  {
    assert d * (f + m * (h + r * s)) == d * f + d * (m * h) + d * (m * (r * s));
  }

  /**
   * A field lying below bit `M = d * m * r` is unaffected by clearing the
   * bits from `M` up.
   */
  lemma FieldOfLow(x: nat, d: nat, m: nat, r: nat, M: nat)
    requires 0 < d && 0 < m && 0 < r && M == d * m * r
    ensures ((x % M) / d) % m == (x / d) % m
  {
    MulAtLeast(d, m);
    MulAtLeast(d * m, r);
    var L, s := x % M, x / M;
    var lo, f, h := L % d, (L / d) % m, (L / d) / m;
    Decompose(L, d, m);
    assert x == L + M * s;
    RegroupLow(lo, f, h, s, d, m, r);
    FieldOfSum(L, lo, f, h, d, m);
    FieldOfSum(x, lo, f, h + r * s, d, m);
  }

  /** Two words that agree below bit `M = d * m * r` agree on a field lying there. */
  lemma FieldBelowAgrees(x: nat, y: nat, d: nat, m: nat, r: nat, M: nat)
    requires 0 < d && 0 < m && 0 < r && M == d * m * r
    requires x % M == y % M
    ensures (x / d) % m == (y / d) % m
  {
    FieldOfLow(x, d, m, r, M);
    FieldOfLow(y, d, m, r, M);
  }
}
