/** `max` and `min` of two integers, and comparisons of real products and quotients. */
module Numbers {

  function Max(a: int, b: int): int {
    if a < b then b else a
  }

  function Min(a: int, b: int): int {
    if a < b then a else b
  }

  lemma Scale(x: real, y: real, z: real)
    requires z > 0.0
    ensures x > y <==> x * z > y * z
  {
    assert x * z - y * z == (x - y) * z;
  }

  lemma CrossMultiply(a: real, b: real, c: real, d: real)
    requires b > 0.0 && d > 0.0
    ensures a / b > c / d <==> a * d > c * b
  {
    var x, y := a / b, c / d;
    assert x * b == a && y * d == c;
    assert a * d == (x * b) * d == x * (b * d);
    assert c * b == (y * d) * b == y * (b * d);
    Scale(x, y, b * d);
  }
}
