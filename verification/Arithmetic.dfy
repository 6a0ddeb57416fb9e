/** Real arithmetic shared by the models.  Products and quotients of two variables
    are named, so that proofs can hide them. */
module Arithmetic {

  function Abs(x: real): real { if x < 0.0 then -x else x }
  function Min(a: real, b: real): real { if b < a then b else a }
  function Max(a: real, b: real): real { if b > a then b else a }
  function MaxInt(a: int, b: int): int { if b > a then b else a }

  function Times(x: real, y: real): real { x * y }

  function Ratio(x: real, y: real): real
    requires y != 0.0
  {
    x / y
  }

  lemma TimesAdds(c: real, x: real, y: real)
    ensures Times(c, x + y) == Times(c, x) + Times(c, y)
    ensures Times(x + y, c) == Times(x, c) + Times(y, c)
  {
  }

  lemma TimesSign(x: real, c: real)
    requires c > 0.0
    ensures x > 0.0 <==> Times(x, c) > 0.0
    ensures x < 0.0 <==> Times(x, c) < 0.0
    ensures Times(c, x) == Times(x, c)
  {
  }

  /** Multiplying by a positive factor keeps the order. */
  lemma TimesOrder(a: real, b: real, c: real)
    requires c > 0.0
    ensures a <= b <==> Times(a, c) <= Times(b, c)
    ensures a < b <==> Times(a, c) < Times(b, c)
  {
    TimesSign(b - a, c);
    assert Times(b - a, c) == Times(b, c) - Times(a, c);
    hide Times;
  }

  lemma RatioTimes(x: real, y: real)
    requires y != 0.0
    ensures Times(Ratio(x, y), y) == x
  {
  }

  /** A product grows in size with its factor. */
  lemma TimesWithin(x: real, e: real, s: real)
    requires 0.0 <= e <= s
    ensures Abs(Times(x, e)) <= Abs(Times(x, s))
    ensures x >= 0.0 ==> 0.0 <= Times(x, e) <= Times(x, s)
    ensures x <= 0.0 ==> Times(x, s) <= Times(x, e) <= 0.0
  {
    TimesNegates(x, e);
    TimesNegates(e, x);
    TimesNegates(s, x);
    TimesNegates(-x, e);
    hide Times;
    if x > 0.0 {
      TimesOrder(0.0, e, x);
      TimesOrder(e, s, x);
    } else if x < 0.0 {
      TimesOrder(0.0, e, -x);
      TimesOrder(e, s, -x);
    }
  }

  lemma TimesNegates(x: real, y: real)
    ensures Times(-x, y) == -Times(x, y) == Times(x, -y)
    ensures Times(x, y) == Times(y, x) && Times(0.0, x) == 0.0 && Times(1.0, x) == x
  {
  }
}
