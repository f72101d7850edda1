/** `pick(min, max)`: an integer drawn from the shared generator and scaled
    into a closed range (financial.js:41). The product `(max-min)*rng()` is
    taken over exact reals. */
module Sampler {
  import opened Mulberry32

  /** `Math.round`: the nearest integer, halves rounded up. */
  function Round(x: real): (r: int)
    ensures r as real - 0.5 <= x < r as real + 0.5
  {
    (x + 0.5).Floor
  }

  /** `round(min + (max-min)*v)` for a draw `v` in [0, 1). The source does
      not guard against `min > max`; the result then lies between the two
      bounds all the same. */
  function Scale(min: int, max: int, v: real): (r: int)
    requires 0.0 <= v < 1.0
    ensures min <= max ==> min <= r <= max
    ensures max < min ==> max <= r <= min
  {
    var d := (max - min) as real;
    ScaledDraw(d, v);
    Round(min as real + d * v)
  }

  /** The integer `pick(min, max)` returns when the draw has numerator `n`. */
  function PickValue(min: int, max: int, n: Numerator): (r: int)
    ensures min <= max ==> min <= r <= max
    ensures max < min ==> max <= r <= min
  {
    Scale(min, max, Value(n))
  }

  /** A span scaled by a draw in [0, 1) stays between 0 and the span. */
  lemma ScaledDraw(d: real, v: real)
    requires 0.0 <= v < 1.0
    ensures 0.0 <= d ==> 0.0 <= d * v <= d
    ensures d <= 0.0 ==> d <= d * v <= 0.0
  {
    if 0.0 <= d {
      assert d * v <= d * 1.0;
    } else {
      assert d * 1.0 <= d * v;
    }
  }

  /** Both ends of the range are reachable: the smallest numerator gives
      `min`, and the largest gives `max` whenever the range is at most
      2^31 wide (every range the dashboard uses). */
  lemma PickReachesBounds(min: int, max: int)
    requires min <= max <= min + 0x8000_0000
    ensures PickValue(min, max, 0) == min
    ensures PickValue(min, max, 0xFFFF_FFFF) == max
  {
    var d := (max - min) as real;
    assert Value(0xFFFF_FFFF) == 1.0 - 1.0 / Denominator;
    assert min as real + d * Value(0xFFFF_FFFF) == max as real - d / Denominator;
  }

  /** The module-level `pick`: the next draw of the shared generator,
      scaled. */
  method Pick(g: Generator, min: int, max: int) returns (r: int)
    requires g.Valid()
    modifies g
    ensures g.Valid() && g.count == old(g.count) + 1
    ensures r == PickValue(min, max, Draw(g.seed, old(g.count)))
  {
    var n := g.Next();
    r := PickValue(min, max, n);
  }
}
