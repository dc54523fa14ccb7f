/** 64-bit floating-point numbers, as far as JSON numbers need them (src/api/grpc/mod.rs:128). */
module Floats {
  const MANTISSA: nat := 0x20_0000_0000_0000 // 2^53

  function Pow2(k: nat): (p: nat)
    ensures p > 0
  {
    if k == 0 then 1 else 2 * Pow2(k - 1)
  }

  lemma {:induction false} Pow2Sum(j: nat, k: nat)
    ensures Pow2(j + k) == Pow2(j) * Pow2(k)
  {
    if j > 0 {
      Pow2Sum(j - 1, k);
      assert Pow2(j) * Pow2(k) == 2 * (Pow2(j - 1) * Pow2(k));
    }
  }

  // ---------- which numbers are floats ----------

  predicate IsScaled(n: nat, m: nat, k: nat) {
    m <= MANTISSA && n == m * Pow2(k)
  }

  /** A natural number with at most 53 significant bits. */
  ghost predicate Representable(n: nat) {
    exists m: nat, k: nat :: IsScaled(n, m, k)
  }

  function Abs(f: real): real {
    if f < 0.0 then 0.0 - f else f
  }

  predicate IsFloat(f: real, m: nat, k: nat) {
    m < MANTISSA && ((k <= 971 && Abs(f) == (m * Pow2(k)) as real)
        || (k <= 1074 && Abs(f) * Pow2(k) as real == m as real))
  }

  /** The finite values of section 3.4 of IEEE 754: 53 bits of mantissa, scaled by 2^-1074 up to 2^971. */
  ghost predicate IsF64(f: real) {
    exists m: nat, k: nat :: IsFloat(f, m, k)
  }

  type F64 = f: real | IsF64(f) witness (assert IsFloat(0.0, 0, 0); 0.0)

  // ---------- rounding ----------

  /** The least exponent, from `k` on, that leaves `n` a mantissa of 53 bits. */
  function Exponent(n: nat, k: nat): (e: nat)
    ensures e >= k && n < MANTISSA * Pow2(e) && (e > k ==> n >= MANTISSA * Pow2(e - 1))
    decreases n - MANTISSA * Pow2(k)
  {
    if n < MANTISSA * Pow2(k) then k else Exponent(n, k + 1)
  }

  /** The quotient `n / unit`, rounded to nearest, ties to even. */
  function Quotient(n: nat, unit: nat): nat
    requires unit > 0
  {
    var q, r := n / unit, n % unit;
    if 2 * r < unit || (2 * r == unit && q % 2 == 0) then q else q + 1
  }

  /** `n` rounded to the nearest 64-bit float, ties to even. */
  function RoundNat(n: nat): nat {
    var unit := Pow2(Exponent(n, 0));
    Quotient(n, unit) * unit
  }

  function Distance(a: nat, b: nat): nat {
    if a < b then b - a else a - b
  }

  lemma ProductGrows(a: nat, b: nat, unit: nat)
    ensures a >= b ==> a * unit >= b * unit
    ensures a > b ==> a * unit >= b * unit + unit
  {
    if a > b {
      assert a * unit == (a - b) * unit + b * unit;
      assert (a - b) * unit == (a - b - 1) * unit + unit;
    }
  }

  /** The rounded quotient times the unit, without the division. */
  lemma QuotientProduct(n: nat, unit: nat) returns (q: nat, r: nat)
    requires unit > 0
    ensures n == q * unit + r && r < unit
    ensures var down := 2 * r < unit || (2 * r == unit && q % 2 == 0);
            Quotient(n, unit) == (if down then q else q + 1)
                && Quotient(n, unit) * unit == if down then q * unit else q * unit + unit
  {
    q, r := n / unit, n % unit;
    assert (q + 1) * unit == q * unit + unit;
  }

  lemma OnGrid(q: nat, t: nat, unit: nat)
    ensures t == q ==> t * unit == q * unit
    ensures t < q ==> t * unit + unit <= q * unit
    ensures t > q ==> t * unit >= q * unit + unit
  {
    ProductGrows(q, t, unit);
    ProductGrows(t, q, unit);
  }

  /** Between the grid points `p` and `p + unit`, the nearer one is at least as near as any grid point. */
  lemma NearestOnGrid(p: nat, r: nat, unit: nat, x: nat, even: bool)
    requires r < unit && (x <= p || x >= p + unit)
    ensures var nearest := if 2 * r < unit || (2 * r == unit && even) then p else p + unit;
            && Distance(nearest, p + r) <= Distance(x, p + r)
            && (Distance(nearest, p + r) == Distance(x, p + r) && x != nearest ==> 2 * r == unit)
  {
  }

  /** No multiple of the unit is nearer than the rounded quotient, and one as near means that the quotient is even. */
  lemma QuotientIsNearest(n: nat, unit: nat, t: nat)
    requires unit > 0
    ensures Distance(Quotient(n, unit) * unit, n) <= Distance(t * unit, n)
    ensures Distance(Quotient(n, unit) * unit, n) == Distance(t * unit, n) && t * unit != Quotient(n, unit) * unit ==>
              Quotient(n, unit) % 2 == 0
  {
    var q, r := QuotientProduct(n, unit);
    OnGrid(q, t, unit);
    NearestOnGrid(q * unit, r, unit, t * unit, q % 2 == 0);
  }

  lemma QuotientBounds(n: nat, unit: nat, low: nat, high: nat)
    requires unit > 0 && low * unit <= n < high * unit
    ensures low <= Quotient(n, unit) <= high
  {
    var q, r := n / unit, n % unit;
    assert n == q * unit + r;
    ProductGrows(q, high, unit);
    ProductGrows(low, q, unit);
  }

  /** A representable number is a multiple of the unit, or lies at or below the least number that has this unit. */
  lemma RepresentableAround(g: nat, e: nat) returns (t: nat)
    requires Representable(g)
    ensures g == t * Pow2(e) || (e > 0 && g <= MANTISSA * Pow2(e - 1))
  {
    var m: nat, k: nat :| IsScaled(g, m, k);
    t := 0;
    if k >= e {
      Pow2Sum(k - e, e);
      t := m * Pow2(k - e);
      assert m * (Pow2(k - e) * Pow2(e)) == t * Pow2(e);
    } else {
      Pow2Sum(e - 1 - k, k);
      ProductGrows(Pow2(e - 1 - k), 1, Pow2(k));
      ProductGrows(MANTISSA, m, Pow2(k));
      assert MANTISSA * Pow2(k) <= MANTISSA * Pow2(e - 1);
    }
  }

  lemma RoundedForm(n: nat) returns (m: nat, k: nat)
    ensures k == Exponent(n, 0) && m == Quotient(n, Pow2(k)) && IsScaled(RoundNat(n), m, k)
    ensures k > 0 ==> MANTISSA <= 2 * m
  {
    k := Exponent(n, 0);
    m := Quotient(n, Pow2(k));
    var low := if k > 0 then MANTISSA / 2 else 0;
    if k > 0 {
      assert low * Pow2(k) == MANTISSA * Pow2(k - 1);
    }
    QuotientBounds(n, Pow2(k), low, MANTISSA);
  }

  /** An integer becomes a representable number than which no other is nearer, and if another one is as near, the
      mantissa is even (with all 53 bits in use unless the number is small). */
  lemma RoundNatIsNearest(n: nat, g: nat) returns (m: nat, k: nat)
    requires Representable(g)
    ensures IsScaled(RoundNat(n), m, k) && (k > 0 ==> MANTISSA <= 2 * m)
    ensures Distance(RoundNat(n), n) <= Distance(g, n)
    ensures Distance(RoundNat(n), n) == Distance(g, n) && g != RoundNat(n) ==> m % 2 == 0
  {
    m, k := RoundedForm(n);
    var t := RepresentableAround(g, k);
    if g == t * Pow2(k) {
      QuotientIsNearest(n, Pow2(k), t);
    } else {
      var least := MANTISSA / 2;
      assert least * Pow2(k) == MANTISSA * Pow2(k - 1);
      QuotientIsNearest(n, Pow2(k), least);
    }
  }

  /** Rounding keeps exactly the representable numbers. */
  lemma RoundNatKeeps(n: nat)
    ensures RoundNat(n) == n <==> Representable(n)
  {
    var m, k := RoundedForm(n);
    if Representable(n) {
      var _, _ := RoundNatIsNearest(n, n);
    }
  }

  // ---------- integers as floats ----------

  lemma {:induction false} Pow2Grows(j: nat, k: nat)
    requires j <= k
    ensures Pow2(j) <= Pow2(k)
  {
    if j < k {
      Pow2Grows(j, k - 1);
    }
  }

  /** An integer of at most 65 bits is rounded to a finite float, whatever its sign. */
  lemma RoundNatIsFloat(n: nat)
    requires n <= MANTISSA * 0x1000
    ensures IsF64(RoundNat(n) as real) && IsF64(0.0 - RoundNat(n) as real)
  {
    var m, k := RoundedForm(n);
    var f := RoundNat(n) as real;
    assert Pow2(4) == 16 && Pow2(8) == 16 * 16 && Pow2(12) == 0x1000;
    if k > 13 {
      Pow2Grows(13, k - 1);
    }
    if m < MANTISSA {
      assert IsFloat(f, m, k) && IsFloat(0.0 - f, m, k);
    } else {
      assert (MANTISSA / 2) * Pow2(k + 1) == MANTISSA * Pow2(k);
      assert IsFloat(f, MANTISSA / 2, k + 1) && IsFloat(0.0 - f, MANTISSA / 2, k + 1);
    }
  }

  /** A float that is an integer is a representable one. */
  lemma WholeFloatIsRepresentable(f: real, n: nat)
    requires IsF64(f) && Abs(f) == n as real
    ensures Representable(n)
  {
    var m: nat, k: nat :| IsFloat(f, m, k);
    if Abs(f) == (m * Pow2(k)) as real {
      assert IsScaled(n, m, k);
    } else {
      assert (n * Pow2(k)) as real == m as real;
      ProductGrows(Pow2(k), 1, n);
      assert IsScaled(n, n, 0);
    }
  }

  /** A float that is not an integer lies below 2^53. */
  lemma FractionIsSmall(f: real)
    requires IsF64(f) && Abs(f).Floor as real != Abs(f)
    ensures Abs(f) < MANTISSA as real
  {
    var m: nat, k: nat :| IsFloat(f, m, k);
    assert Abs(f) != (m * Pow2(k)) as real;
    assert Abs(f) * 1.0 <= Abs(f) * Pow2(k) as real;
  }
}
