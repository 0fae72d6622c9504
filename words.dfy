/**
 * Fixed-width integers as they travel on the wire and sit in the AWG
 * registers, and the big-endian byte order every TCP reply and request of
 * the queue protocol uses.
 *
 * Masking a C or Python integer with `2^k - 1` keeps the same value as the
 * Euclidean remainder `x % 2^k` (two's complement for negative operands),
 * so masks are written as `%` throughout.
 */
module Words {
  type Byte = x: int | 0 <= x < 0x100
  type U16 = x: int | 0 <= x < 0x1_0000
  type Word = x: int | 0 <= x < 0x1_0000_0000

  const TwoTo32: nat := 0x1_0000_0000
  const TwoTo64: nat := 0x1_0000_0000_0000_0000

  function Pow256(n: nat): (r: nat)
    ensures r >= 1
  {
    if n == 0 then 1 else 256 * Pow256(n - 1)
  }

  /** The remainder and quotient of a division are determined by any exact decomposition. */
  lemma DivModUnique(x: int, d: int, q: int, m: int)
    requires d > 0 && 0 <= m < d && x == d * q + m
    ensures x % d == m && x / d == q
  {
    var k, r := x / d, x % d;
    assert d * (q - k) == r - m by {
      assert d * (q - k) == d * q - d * k;
    }
    if q - k >= 1 {
      assert d * (q - k) >= d by { MulAtLeast(d, q - k); }
    } else if q - k <= -1 {
      assert d * (k - q) >= d by { MulAtLeast(d, k - q); }
    }
  }

  /** A value below the modulus is its own remainder. */
  lemma ModSmall(x: int, d: int)
    requires 0 <= x < d
    ensures x % d == x
  {
    DivModUnique(x, d, 0, x);
  }

  lemma DivModParts(x: int, d: int)
    requires d > 0
    ensures x == d * (x / d) + x % d && 0 <= x % d < d
  {
  }

  lemma MulAtLeast(d: int, a: int)
    requires d > 0 && a >= 1
    ensures d * a >= d
  {
    assert d * a == d * (a - 1) + d;
    assert d * (a - 1) >= 0;
  }

  /** The n bytes, most significant first, that a store of `x` into an
    * n-byte big-endian field leaves (so `x` is taken modulo 256^n). */
  function ToBE(x: nat, n: nat): (r: seq<Byte>)
    ensures |r| == n
  {
    if n == 0 then [] else ToBE(x / 256, n - 1) + [x % 256]
  }

  /** The value of a big-endian byte string. */
  function FromBE(bs: seq<Byte>): (r: nat)
    ensures r < Pow256(|bs|)
  {
    if bs == [] then 0 else FromBE(bs[..|bs| - 1]) * 256 + bs[|bs| - 1]
  }

  /** Decoding what was encoded gives back the value, reduced to the field width. */
  lemma {:induction false} FromToBE(x: nat, n: nat)
    ensures FromBE(ToBE(x, n)) == x % Pow256(n)
  {
    if n > 0 {
      var bs := ToBE(x, n);
      assert bs[..n - 1] == ToBE(x / 256, n - 1);
      FromToBE(x / 256, n - 1);
      var p := Pow256(n - 1);
      var q := x / 256;
      var t, u := q / p, q % p;
      DivModParts(q, p);
      DivModParts(x, 256);
      assert 256 * q == (256 * p) * t + 256 * u by {
        assert 256 * (p * t) == (256 * p) * t;
      }
      DivModUnique(x, 256 * p, t, 256 * u + x % 256);
    }
  }

  /** Encoding a decoded byte string gives back the same bytes. */
  lemma {:induction false} ToFromBE(bs: seq<Byte>)
    ensures ToBE(FromBE(bs), |bs|) == bs
  {
    if bs != [] {
      var n := |bs|;
      var init := bs[..n - 1];
      var v := FromBE(bs);
      DivModUnique(v, 256, FromBE(init), bs[n - 1]);
      ToFromBE(init);
      assert bs == init + [bs[n - 1]];
    }
  }

  /** A value that fits its field round-trips exactly. */
  lemma RoundTripFits(x: nat, n: nat)
    requires x < Pow256(n)
    ensures FromBE(ToBE(x, n)) == x
  {
    FromToBE(x, n);
  }

  /** Byte k (from the most significant) of the big-endian encoding is the
    * value shifted right by 8*(n-1-k) bits and masked to 8 bits. */
  lemma {:induction false} ToBEAt(x: nat, n: nat, k: nat)
    requires k < n
    ensures ToBE(x, n)[k] == (x / Pow256(n - 1 - k)) % 256
  {
    if k < n - 1 {
      ToBEAt(x / 256, n - 1, k);
      DivDiv(x, 256, Pow256(n - 2 - k));
    }
  }

  lemma DivDiv(x: nat, a: nat, b: nat)
    requires a > 0 && b > 0
    ensures x / a / b == x / (a * b)
  {
    var q := x / a;
    var t, u := q / b, q % b;
    assert x == a * q + x % a;
    assert q == b * t + u;
    assert a * q == (a * b) * t + a * u by {
      assert a * (b * t) == (a * b) * t;
    }
    assert a * u + x % a < a * b by {
      assert a * u <= a * (b - 1) by { MulMono(a, u, b - 1); }
      assert a * (b - 1) == a * b - a;
    }
    DivModUnique(x, a * b, t, a * u + x % a);
  }

  lemma MulMono(d: nat, a: int, b: int)
    requires a <= b
    ensures d * a <= d * b
  {
    assert d * b - d * a == d * (b - a);
  }

  lemma ToBEAppend(a: nat, b: nat, m: nat, n: nat)
    requires a < Pow256(m) && b < Pow256(n)
    ensures FromBE(ToBE(a, m) + ToBE(b, n)) == a * Pow256(n) + b
  {
    FromBEConcat(ToBE(a, m), ToBE(b, n));
    RoundTripFits(a, m);
    RoundTripFits(b, n);
  }

  /** The value of a concatenation shifts the front part left by the length of the back. */
  lemma {:induction false} FromBEConcat(xs: seq<Byte>, ys: seq<Byte>)
    ensures FromBE(xs + ys) == FromBE(xs) * Pow256(|ys|) + FromBE(ys)
  {
    if ys != [] {
      var zs := xs + ys;
      var init := ys[..|ys| - 1];
      assert zs[..|zs| - 1] == xs + init;
      assert zs[|zs| - 1] == ys[|ys| - 1];
      FromBEConcat(xs, init);
      var f, g, y := FromBE(xs), FromBE(init), ys[|ys| - 1];
      var p := Pow256(|init|);
      assert Pow256(|ys|) == 256 * p;
      var h := FromBE(xs + init);
      assert FromBE(zs) == h * 256 + y;
      assert FromBE(ys) == g * 256 + y;
      ShiftDistrib(f, p, g, y);
    } else {
      assert xs + ys == xs;
    }
  }

  lemma ShiftDistrib(f: int, p: int, g: int, y: int)
    ensures (f * p + g) * 256 + y == f * (256 * p) + (g * 256 + y)
  {
  }

  lemma Pow256Widths()
    ensures Pow256(1) == 0x100 && Pow256(2) == 0x1_0000 && Pow256(4) == TwoTo32 && Pow256(8) == TwoTo64
  {
  }

  /** A big-endian u16 field. */
  function U16Of(bs: seq<Byte>): (r: U16)
    requires |bs| == 2
  {
    Pow256Widths();
    FromBE(bs)
  }

  /** A big-endian u32 field. */
  function U32Of(bs: seq<Byte>): (r: Word)
    requires |bs| == 4
  {
    Pow256Widths();
    FromBE(bs)
  }
}
