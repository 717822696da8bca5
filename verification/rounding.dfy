/** Decimal rounding: the nearest whole unit, ties to the even neighbour. */
module Rounding {

  function Round(x: real): (n: int)
    ensures -0.5 <= n as real - x <= 0.5
  {
    var below := x.Floor;
    var part := x - below as real;
    if part < 0.5 then below
    else if part > 0.5 then below + 1
    else if below % 2 == 0 then below
    else below + 1
  }

  /** A tie goes to the even neighbour, which is what tells this rounding from others. */
  lemma {:induction false} TiesGoToEven(k: int)
    ensures Round(k as real + 0.5) % 2 == 0
  {
    assert (k as real + 0.5).Floor == k;
  }

  lemma {:induction false} WholeIsFixed(n: int)
    ensures Round(n as real) == n
  {
  }

  lemma {:induction false} RoundIsMonotone(x: real, y: real)
    requires x <= y
    ensures Round(x) <= Round(y)
  {
    if x < y {
      assert Round(x) as real - Round(y) as real < 1.0;
    }
  }

  /** Rounding does not care for the sign. */
  lemma {:induction false} RoundIsOdd(x: real)
    ensures Round(-x) == -Round(x)
  {
    var f := x.Floor;
    if x == f as real {
      WholeIsFixed(f);
      WholeIsFixed(-f);
    } else {
      assert (-x).Floor == -f - 1;
    }
  }
}
