/** Real arithmetic by its laws: named products and quotients, so that proofs need no nonlinear search. */
module Reals {

  function Abs(x: real): real {
    if x < 0.0 then -x else x
  }

  function MaxReal(x: real, y: real): real {
    if x < y then y else x
  }

  function MinReal(x: real, y: real): real {
    if x < y then x else y
  }

  function Times(x: real, y: real): real {
    x * y
  }

  function Square(x: real): real {
    Times(x, x)
  }

  function Over(x: real, d: real): real
    requires d != 0.0
  {
    x / d
  }

  lemma TimesGrows(k: real, x: real, y: real)
    requires k >= 0.0 && x <= y
    ensures Times(k, x) <= Times(k, y) && Times(x, k) <= Times(y, k)
  {
  }

  lemma TimesGrowsStrictly(k: real, x: real, y: real)
    requires k > 0.0 && x < y
    ensures Times(k, x) < Times(k, y)
  {
  }

  lemma TimesIsPositive(x: real, y: real)
    requires x > 0.0 && y > 0.0
    ensures Times(x, y) > 0.0
  {
  }

  lemma TimesNegated(x: real, y: real)
    ensures Times(x, -y) == -Times(x, y) && Times(-x, y) == -Times(x, y) && Times(-x, -y) == Times(x, y)
  {
  }

  lemma TimesZero(x: real)
    ensures Times(x, 0.0) == 0.0 && Times(0.0, x) == 0.0 && Times(1.0, x) == x && Times(x, 1.0) == x
  {
  }

  lemma TimesAssociates(x: real, y: real, z: real)
    ensures Times(Times(x, y), z) == Times(x, Times(y, z)) && Times(x, y) == Times(y, x)
  {
  }

  lemma TimesDistributes(k: real, x: real, y: real)
    ensures Times(k, x + y) == Times(k, x) + Times(k, y) && Times(k, x - y) == Times(k, x) - Times(k, y)
    ensures Times(x + y, k) == Times(x, k) + Times(y, k) && Times(x - y, k) == Times(x, k) - Times(y, k)
  {
  }

  lemma SquareIsZero(k: real)
    ensures Square(k) >= 0.0 && (Square(k) == 0.0 <==> k == 0.0)
  {
    hide Times;
    TimesZero(k);
    TimesNegated(k, k);
    if k > 0.0 {
      TimesIsPositive(k, k);
    } else if k < 0.0 {
      TimesIsPositive(-k, -k);
    }
  }

  lemma OverItself(d: real)
    requires d != 0.0
    ensures Over(d, d) == 1.0 && Over(0.0, d) == 0.0
  {
  }

  lemma OverUndoes(x: real, d: real)
    requires d != 0.0
    ensures Times(Over(x, d), d) == x
  {
  }

  lemma OverScales(k: real, x: real, d: real)
    requires d != 0.0
    ensures Over(Times(k, x), d) == Times(k, Over(x, d))
  {
  }

  lemma OverIsPositive(x: real, d: real)
    requires x > 0.0 && d > 0.0
    ensures Over(x, d) > 0.0
  {
  }

  /** `Times(|x|, y)` is the magnitude of `Times(x, y)`. */
  lemma Magnitude(x: real, y: real)
    requires y >= 0.0
    ensures Times(Abs(x), y) >= 0.0 && (Times(Abs(x), y) == Times(x, y) || Times(Abs(x), y) == -Times(x, y))
  {
    hide Times;
    TimesZero(y);
    TimesNegated(x, y);
    TimesGrows(y, 0.0, Abs(x));
  }

  /** A scaled magnitude. */
  lemma ScaledAbs(r: real, x: real)
    requires r >= 0.0
    ensures Abs(Times(r, x)) == Times(r, Abs(x))
  {
    hide Times;
    TimesZero(r);
    TimesNegated(r, x);
    TimesGrows(r, 0.0, Abs(x));
  }

  /** A product whose second factor is bounded. */
  lemma ProductWithin(x: real, y: real, limit: real)
    requires -limit <= y <= limit
    ensures -Times(Abs(x), limit) <= Times(x, y) <= Times(Abs(x), limit)
  {
    hide Times;
    TimesNegated(x, y);
    TimesNegated(Abs(x), limit);
    TimesGrows(Abs(x), y, limit);
    TimesGrows(Abs(x), -limit, y);
    TimesNegated(Abs(x), y);
    if x < 0.0 { assert Times(x, y) == -Times(Abs(x), y); }
  }

  /** Comparison is unchanged by a positive factor. */
  lemma WithinScaled(k: real, x: real, limit: real)
    requires k > 0.0
    ensures -limit <= x <= limit <==> -Times(k, limit) <= Times(k, x) <= Times(k, limit)
  {
    hide Times;
    TimesNegated(k, limit);
    OrderScales(k, -limit, x);
    OrderScales(k, x, limit);
  }

  lemma OrderScales(k: real, x: real, y: real)
    requires k > 0.0
    ensures Times(k, x) <= Times(k, y) <==> x <= y
  {
    hide Times;
    if x <= y { TimesGrows(k, x, y); } else { TimesGrowsStrictly(k, y, x); }
  }
}
