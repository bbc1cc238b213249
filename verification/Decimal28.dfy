/** Decimal arithmetic in Python's default context: 28 significant digits, half to even. */
module Decimal28 {

  const LIMIT: int := 10_000_000_000_000_000_000_000_000_000

  function Abs(n: int): nat { if n < 0 then -n else n }

  /** The number of digits of `m` beyond 28. */
  function Excess(m: nat): nat {
    if m < LIMIT then 0 else 1 + Excess(m / 10)
  }

  function Pow10(k: nat): (p: nat)
    ensures p > 0
  {
    if k == 0 then 1 else 10 * Pow10(k - 1)
  }

  /** `m` rounded to a multiple of `unit`, ties to the even multiple. */
  function RoundTo(m: nat, unit: nat): int
    requires unit > 0
  {
    var q, r := m / unit, m % unit;
    if 2 * r > unit || (2 * r == unit && q % 2 == 1) then (q + 1) * unit else q * unit
  }

  function Round28(n: int): int {
    var m := RoundTo(Abs(n), Pow10(Excess(Abs(n))));
    if n < 0 then 0 - m else m
  }

  /** All digits beyond the first 28 are zero. */
  predicate Fits28(n: int) {
    Abs(n) % Pow10(Excess(Abs(n))) == 0
  }

  lemma RoundToExact(m: nat, unit: nat)
    requires unit > 0
    ensures RoundTo(m, unit) == m <==> m % unit == 0
  {
    var q, r := m / unit, m % unit;
    assert m == q * unit + r;
    assert (q + 1) * unit == q * unit + unit;
  }

  /** Rounding changes nothing exactly for the numbers that fit. */
  lemma {:induction false} RoundExactly(n: int)
    ensures Round28(n) == n <==> Fits28(n)
  {
    RoundToExact(Abs(n), Pow10(Excess(Abs(n))));
  }

  lemma SmallFits(n: int)
    requires -LIMIT < n < LIMIT
    ensures Fits28(n)
  {
    assert Pow10(Excess(Abs(n))) == 1;
  }

  /** `k` units are nearest to `m`, and an even number of them if another multiple is as near. */
  ghost predicate Nearest(m: nat, unit: nat, k: nat) {
    2 * Abs(k * unit - m) <= unit && (2 * Abs(k * unit - m) == unit ==> k % 2 == 0)
  }

  lemma {:induction false} NearestBelow(m: nat, unit: nat, q: nat, r: nat)
    requires m == q * unit + r && (2 * r < unit || (2 * r == unit && q % 2 == 0))
    ensures Nearest(m, unit, q)
  {
  }

  lemma {:induction false} NearestAbove(m: nat, unit: nat, q: nat, r: nat)
    requires m == q * unit + r && r < unit && (2 * r > unit || (2 * r == unit && q % 2 == 1))
    ensures Nearest(m, unit, q + 1)
  {
    assert (q + 1) * unit == q * unit + unit;
  }

  /** The result is the nearest multiple of the unit, and the even one of two equally near ones. */
  lemma {:induction false} RoundToNearest(m: nat, unit: nat)
    requires unit > 0
    ensures exists k: nat :: RoundTo(m, unit) == k * unit && Nearest(m, unit, k)
  {
    var q, r := m / unit, m % unit;
    assert m == q * unit + r;
    if 2 * r > unit || (2 * r == unit && q % 2 == 1) {
      NearestAbove(m, unit, q, r);
    } else {
      NearestBelow(m, unit, q, r);
    }
  }

  /** Without its excess digits a number has at most 28 digits, and with one of them it has more. */
  lemma {:induction false} ExcessIsExact(m: nat)
    ensures m < LIMIT * Pow10(Excess(m))
    ensures Excess(m) > 0 ==> LIMIT * Pow10(Excess(m) - 1) <= m
  {
    if m >= LIMIT {
      ExcessIsExact(m / 10);
      var e := Excess(m / 10);
      assert LIMIT * Pow10(e + 1) == 10 * (LIMIT * Pow10(e));
      assert m < 10 * (m / 10 + 1);
      if e > 0 {
        assert LIMIT * Pow10(e) == 10 * (LIMIT * Pow10(e - 1));
      } else {
        assert Pow10(0) == 1;
      }
    }
  }
}
