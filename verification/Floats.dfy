/** Powers of two, and which integers have a finite double (IEEE 754, binary64). */
module Floats {
  function TwoTo(e: nat): nat {
    if e == 0 then 1 else 2 * TwoTo(e - 1)
  }

  /** The first integer that rounds to no finite double: half a unit behind the largest one. */
  function FloatEnd(): int {
    (TwoTo(54) - 1) * TwoTo(970)
  }

  /** Converting the integer to a float does not overflow. */
  predicate Fits(n: int) {
    -FloatEnd() < n < FloatEnd()
  }

  /** The exponent from which on powers of two have no float. */
  const MAX_EXPONENT := 1024

  lemma {:induction false} PowersMultiply(a: nat, b: nat)
    ensures TwoTo(a + b) == TwoTo(a) * TwoTo(b)
  {
    if a > 0 {
      PowersMultiply(a - 1, b);
      Regrouped(TwoTo(a - 1), TwoTo(b));
    }
  }

  lemma Regrouped(x: nat, y: nat)
    ensures 2 * (x * y) == (2 * x) * y
  {
  }

  lemma {:induction false} PowersGrow(d: nat, e: nat)
    requires d <= e
    ensures 1 <= TwoTo(d) <= TwoTo(e)
  {
    if d < e {
      PowersGrow(d, e - 1);
    } else if d > 0 {
      PowersGrow(d - 1, e - 1);
    }
  }

  lemma ProductsGrow(x: nat, y: nat, z: nat)
    requires x < y && z > 0
    ensures x * z < y * z
  {
  }

  lemma SmallPowers()
    ensures TwoTo(54) == 2 * TwoTo(53) && TwoTo(53) > 1
  {
    PowersGrow(1, 53);
  }

  /** A power of two has a float exactly below the exponent 1024. */
  lemma PowerFitsIff(exponent: nat)
    ensures Fits(TwoTo(exponent)) <==> exponent < MAX_EXPONENT
    ensures Fits(0 - (TwoTo(exponent) as int)) <==> exponent < MAX_EXPONENT
  {
    hide TwoTo;
    PowersMultiply(54, 970);
    PowersMultiply(53, 970);
    PowersGrow(0, 970);
    PowersGrow(0, exponent);
    SmallPowers();
    if exponent < MAX_EXPONENT {
      PowersGrow(exponent, 1023);
      ProductsGrow(TwoTo(53), TwoTo(54) - 1, TwoTo(970));
    } else {
      PowersGrow(1024, exponent);
      ProductsGrow(TwoTo(54) - 1, TwoTo(54), TwoTo(970));
    }
  }

  /** Half a step behind the largest double, which is 53 ones at the last exponent; nearer integers round to it. */
  lemma FloatEndIsHalfStepBehind()
    ensures FloatEnd() == (TwoTo(53) - 1) * TwoTo(971) + TwoTo(970)
  {
    hide TwoTo;
    Doubled(53);
    Doubled(970);
    HalfStep(TwoTo(53), TwoTo(970));
  }

  lemma Doubled(e: nat)
    ensures TwoTo(e + 1) == 2 * TwoTo(e)
  {
  }

  lemma HalfStep(x: int, y: int)
    ensures (2 * x - 1) * y == (x - 1) * (2 * y) + y
  {
  }

  // ---- doubles ----

  /** The smallest positive double is 2 to the minus 1074. */
  const UNIT_EXPONENT := 1074

  /** The product; the proofs need little more of it than that it is monotone. */
  function Times(x: real, y: real): real {
    x * y
  }

  /** A non-negative finite double: 53 bits at some exponent, below 2 to the 1024. */
  ghost predicate IsFloat(x: real) {
    && 0.0 <= x < TwoTo(MAX_EXPONENT) as real
    && exists m: nat, e: nat :: IsScaled(x, m, e)
  }

  predicate IsScaled(x: real, m: nat, e: nat) {
    m < TwoTo(53) && Times(x, TwoTo(UNIT_EXPONENT) as real) == (m * TwoTo(e)) as real
  }

  /** The product of a double and a power of two is a double, unless it passes all of them. */
  lemma PowerProductIsExact(x: real, k: nat)
    requires IsFloat(x)
    ensures var product := Times(x, TwoTo(k) as real);
      0.0 <= product && (IsFloat(product) <==> product < TwoTo(MAX_EXPONENT) as real)
  {
    hide TwoTo, Times, IsScaled;
    var m: nat, e: nat :| IsScaled(x, m, e);
    ScaledByPower(x, m, e, k);
    PowersGrow(0, k);
    TimesUnit(x);
    Scaled(x, 0.0, TwoTo(k) as real);
  }

  lemma ScaledByPower(x: real, m: nat, e: nat, k: nat)
    requires IsScaled(x, m, e)
    ensures IsScaled(Times(x, TwoTo(k) as real), m, e + k)
  {
    hide TwoTo;
    PowersMultiply(e, k);
    var (u, p, q) := (TwoTo(UNIT_EXPONENT) as real, TwoTo(e), TwoTo(k));
    Reordered(x, q as real, u);
    WholeProduct(m * p, q);
    Associated(m, p, q);
  }

  lemma Reordered(x: real, y: real, z: real)
    ensures Times(Times(x, y), z) == Times(Times(x, z), y)
  {
  }

  lemma WholeProduct(x: nat, y: nat)
    ensures Times(x as real, y as real) == (x * y) as real
  {
  }

  lemma Associated(x: nat, y: nat, z: nat)
    ensures (x * y) * z == x * (y * z)
  {
  }

  lemma Scaled(x: real, low: real, high: real)
    requires x >= 0.0 && low <= high
    ensures Times(x, low) <= Times(x, high)
  {
  }

  lemma Widened(x: real, y: real, factor: real)
    requires x <= y && factor >= 0.0
    ensures Times(x, factor) <= Times(y, factor)
  {
  }

  lemma TimesUnit(x: real)
    ensures Times(x, 0.0) == 0.0 && Times(x, 1.0) == x && Times(0.0, x) == 0.0
  {
  }
}
