/** Python's `round(x, n)` on exact values: to the nearest multiple, ties to the even one. */
module Rounding {

  /** The nearest integer, ties to even. */
  function Nearest(y: real): int {
    var below := y.Floor;
    var rest := y - below as real;
    if rest < 0.5 || (rest == 0.5 && below % 2 == 0) then below else below + 1
  }

  function Times(x: real, factor: real): real {
    x * factor
  }

  /** So many whole units. */
  function Units(y: real, unit: real): real
    requires unit > 0.0
  {
    Nearest(y) as real / unit
  }

  /** `round(x, n)` where scale is ten to the n. */
  function RoundTo(x: real, scale: int): real
    requires scale > 0
  {
    var unit := scale as real;
    Units(Times(x, unit), unit)
  }

  /** The two integers that y lies between. */
  lemma Neighbours(y: real)
    ensures y.Floor as real <= y < (y.Floor + 1) as real
    ensures Nearest(y) == y.Floor || Nearest(y) == y.Floor + 1
  {
  }

  lemma NextIsEven(n: int)
    ensures n % 2 == 0 || (n + 1) % 2 == 0
  {
  }

  /** No integer is nearer to y, and of two equally near ones it is the even one. */
  lemma NearestIsNearest(y: real, n: int)
    ensures -0.5 <= Nearest(y) as real - y <= 0.5
    ensures n as real - y == 0.5 || n as real - y == -0.5 ==> Nearest(y) % 2 == 0
    ensures -0.5 < n as real - y < 0.5 ==> Nearest(y) == n
  {
    var below := y.Floor;
    Neighbours(y);
    NextIsEven(below);
    if n < below {
      assert n as real <= below as real - 1.0;
    } else if n > below + 1 {
      assert n as real >= below as real + 2.0;
    } else {
      assert n == below || n == below + 1;
    }
  }

  lemma NearestIsMonotone(y: real, z: real)
    requires y <= z
    ensures Nearest(y) <= Nearest(z)
  {
  }

  lemma Unscale(x: real, scale: real)
    requires scale > 0.0
    ensures x / scale * scale == x
  {
  }

  /** Rounding moves a value by at most half a unit of the last digit kept. */
  lemma RoundIsNear(x: real, scale: int)
    requires scale > 0
    ensures RoundTo(x, scale) * scale as real == Nearest(x * scale as real) as real
    ensures -0.5 <= RoundTo(x, scale) * scale as real - x * scale as real <= 0.5
  {
    hide Nearest;
    var y := x * scale as real;
    NearestIsNearest(y, 0);
    Unscale(Nearest(y) as real, scale as real);
  }

  lemma ScaleKeepsOrder(x: real, y: real, scale: real)
    requires scale > 0.0
    ensures x <= y <==> x * scale <= y * scale
    ensures x <= y <==> x / scale <= y / scale
    ensures x / scale * scale == x == x * scale / scale
  {
    var d := y - x;
    assert d * scale == y * scale - x * scale;
    assert (d >= 0.0) == (d * scale >= 0.0);
    assert x / scale * scale == x && y / scale * scale == y && d / scale * scale == d;
    assert d / scale == y / scale - x / scale;
    assert (d >= 0.0) == (d / scale >= 0.0);
  }

  lemma TimesIsMonotone(x: real, y: real, factor: real)
    requires factor > 0.0 && x <= y
    ensures Times(x, factor) <= Times(y, factor)
  {
    ScaleKeepsOrder(x, y, factor);
  }

  lemma UnitsAreMonotone(y: real, z: real, unit: real)
    requires unit > 0.0 && y <= z
    ensures Units(y, unit) <= Units(z, unit)
  {
    hide Nearest;
    NearestIsMonotone(y, z);
    ScaleKeepsOrder(Nearest(y) as real, Nearest(z) as real, unit);
  }

  lemma RoundIsMonotone(x: real, y: real, scale: int)
    requires scale > 0 && x <= y
    ensures RoundTo(x, scale) <= RoundTo(y, scale)
  {
    hide Units, Times;
    var unit := scale as real;
    TimesIsMonotone(x, y, unit);
    UnitsAreMonotone(Times(x, unit), Times(y, unit), unit);
  }
}
