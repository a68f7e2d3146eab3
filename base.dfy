/** Small shared definitions: an optional value and the JavaScript number
    operations the demo relies on, written out over unbounded reals. */
module Wrappers {
  datatype Option<+T> = None | Some(value: T)
}

module Numbers {
  /** Rounding toward zero, unlike `.Floor`: the truncated quotient that
      JavaScript's `%` is defined by. */
  function Trunc(a: real): (n: int)
    ensures a >= 0.0 ==> n == a.Floor
    ensures a < 0.0 ==> a <= n as real < a + 1.0
    ensures (n as real) * a >= 0.0
    ensures -1.0 < a - n as real < 1.0
  {
    if a >= 0.0 then
      var n := a.Floor;
      MulNonneg(n as real, a);
      n
    else
      var n := -((-a).Floor);
      MulNonneg(-(n as real), -a);
      n
  }

  /** The product of two nonnegative reals is nonnegative. */
  lemma MulNonneg(x: real, y: real)
    requires x >= 0.0 && y >= 0.0
    ensures x * y >= 0.0
  {
    if y > 0.0 { MulMono(0.0, x, y); }
  }

  /** JavaScript's `%` on numbers: the sign follows the dividend. */
  function JsRem(a: real, b: real): (r: real)
    requires b > 0.0
    ensures a >= 0.0 ==> 0.0 <= r < b
    ensures a == (Trunc(a / b) as real) * b + r
  {
    var q := Trunc(a / b);
    var r := a - (q as real) * b;
    assert a >= 0.0 ==> 0.0 <= r < b by {
      if a >= 0.0 {
        var f := a / b;
        assert f * b == a;
        assert f >= 0.0 by { if f < 0.0 { MulMono(f, 0.0, b); } }
        assert q == f.Floor;
        assert q as real <= f < q as real + 1.0;
        MulMono(q as real, f, b);
        var q1 := q as real + 1.0;
        MulMono(f, q1, b);
        assert f * b < q1 * b;
        assert q1 * b == (q as real) * b + b;
        assert (q as real) * b <= a;
        calc {
          a;
        ==
          f * b;
        <
          q1 * b;
        ==
          (q as real) * b + b;
        }
      }
    }
    r
  }

  lemma MulMono(x: real, y: real, b: real)
    requires x <= y && b > 0.0
    ensures x * b <= y * b
    ensures x < y ==> x * b < y * b
  {
  }

  /** Squaring is strictly monotone on the nonnegative reals. */
  lemma SquareGap(a: real, b: real)
    requires 0.0 <= a <= b
    ensures a * a <= b * b
    ensures a < b ==> a * a < b * b
  {
    assert b * b - a * a == (b - a) * (b + a);
    if a < b {
      MulMono(0.0, b - a, b + a);
    }
  }

  /** `x` raised to the natural power `k`. */
  function Pow(x: real, k: nat): (r: real)
    ensures 0.0 <= x <= 1.0 ==> 0.0 <= r <= 1.0
  {
    if k == 0 then 1.0 else
      var p := Pow(x, k - 1);
      assert 0.0 <= x <= 1.0 ==> 0.0 <= x * p <= 1.0 by {
        if 0.0 <= x <= 1.0 { assert x * p <= 1.0 * p; }
      }
      x * p
  }
}
