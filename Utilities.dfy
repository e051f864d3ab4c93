/** The arithmetic helpers of the viewer: `normalize` and `interpolateColor`
    (index.js, region "Utilities functions"). */
module Utilities {

  /** `normalize(val, max, min)`: where `val` sits in the interval from `min`
      to `max`, as a fraction. Note the argument order (value, max, min). */
  function Normalize(val: real, max: real, min: real): (t: real)
    requires max != min
    ensures val == min ==> t == 0.0
    ensures val == max ==> t == 1.0
    ensures min < max ==> (t >= 0.0 <==> val >= min)
  {
    DivideFacts(val - min, max - min);
    (val - min) / (max - min)
  }

  /** The inverse map of `Normalize`: from a fraction back to a value. */
  function Denormalize(t: real, max: real, min: real): real
  {
    min + t * (max - min)
  }

  /** Linear mix of `a` towards `b` by the fraction `t`. */
  function Mix(a: real, b: real, t: real): real
  {
    a + (b - a) * t
  }

  /** `v` lies between `a` and `b`, in whichever order they come. */
  predicate Between(a: real, b: real, v: real)
  {
    (a <= v <= b) || (b <= v <= a)
  }

  lemma NormalizeRoundTrip(val: real, max: real, min: real)
    requires max != min
    ensures Denormalize(Normalize(val, max, min), max, min) == val
  {
    var d := max - min;
    calc {
      Denormalize(Normalize(val, max, min), max, min);
      min + ((val - min) / d) * d;
      { assert ((val - min) / d) * d == val - min; }
      val;
    }
  }

  lemma DenormalizeRoundTrip(t: real, max: real, min: real)
    requires max != min
    ensures Normalize(Denormalize(t, max, min), max, min) == t
  {
    var d := max - min;
    assert Denormalize(t, max, min) - min == t * d;
    assert (t * d) / d == t;
  }

  /** A value inside [min, max] normalizes into [0, 1], and order is kept. */
  lemma NormalizeInUnit(val: real, max: real, min: real)
    requires min < max && min <= val <= max
    ensures 0.0 <= Normalize(val, max, min) <= 1.0
  {
    var d := max - min;
    assert 0.0 <= val - min <= d;
    DivideBelow(val - min, d);
  }

  lemma NormalizeMonotone(a: real, b: real, max: real, min: real)
    requires min < max && a <= b
    ensures Normalize(a, max, min) <= Normalize(b, max, min)
  {
    var d := max - min;
    assert Normalize(b, max, min) - Normalize(a, max, min) == (b - a) / d;
    DivideBelow(0.0, d);
    assert (b - a) / d >= 0.0 by { DivideNonNegative(b - a, d); }
  }

  lemma DivideBelow(n: real, d: real)
    requires 0.0 <= n <= d && 0.0 < d
    ensures 0.0 <= n / d <= 1.0
  {
    DivideNonNegative(n, d);
    assert n / d * d == n;
  }

  lemma DivideFacts(n: real, d: real)
    requires d != 0.0
    ensures n == d ==> n / d == 1.0
    ensures 0.0 < d ==> (n / d >= 0.0 <==> n >= 0.0)
  {
    assert n / d * d == n;
    if 0.0 < d && n < 0.0 {
      DivideNonNegative(-n, d);
      assert (-n) / d == -(n / d);
    } else if 0.0 < d {
      DivideNonNegative(n, d);
    }
  }

  lemma DivideNonNegative(n: real, d: real)
    requires 0.0 <= n && 0.0 < d
    ensures 0.0 <= n / d
  {
  }

  /** A mix with a fraction in [0, 1] stays between its two ends; the ends
      are reached at fractions 0 and 1. */
  lemma MixBetween(a: real, b: real, t: real)
    requires 0.0 <= t <= 1.0
    ensures Between(a, b, Mix(a, b, t))
    ensures t == 0.0 ==> Mix(a, b, t) == a
    ensures t == 1.0 ==> Mix(a, b, t) == b
  {
    var k := b - a;
    assert Mix(a, b, t) == a + k * t;
    if a <= b {
      ScaleBelow(k, t);
    } else {
      ScaleBelow(-k, t);
      assert k * t == -((-k) * t);
    }
  }

  lemma ScaleBelow(k: real, t: real)
    requires 0.0 <= k && 0.0 <= t <= 1.0
    ensures 0.0 <= k * t <= k
  {
    assert k - k * t == k * (1.0 - t);
    assert 0.0 <= k * (1.0 - t);
  }

  datatype Color = Color(r: real, g: real, b: real)

  /** `interpolateColor(c1, c2, val)`: each channel mixed from `c1` towards
      `c2` by `val`. */
  function InterpolateColor(c1: Color, c2: Color, val: real): (c: Color)
    ensures val == 0.0 ==> c == c1
    ensures val == 1.0 ==> c == c2
  {
    Color(Mix(c1.r, c2.r, val), Mix(c1.g, c2.g, val), Mix(c1.b, c2.b, val))
  }

  /** For a fraction in [0, 1], every channel of the interpolated colour lies
      between the two channels it was mixed from. */
  lemma InterpolateColorBetween(c1: Color, c2: Color, val: real)
    requires 0.0 <= val <= 1.0
    ensures var c := InterpolateColor(c1, c2, val);
      Between(c1.r, c2.r, c.r) && Between(c1.g, c2.g, c.g) && Between(c1.b, c2.b, c.b)
  {
    MixBetween(c1.r, c2.r, val);
    MixBetween(c1.g, c2.g, val);
    MixBetween(c1.b, c2.b, val);
  }
}
