/**
  The parts of the game engine's math library that the telemetry link relies on,
  over mathematical reals: Mathf.Clamp, Mathf.Clamp01, Mathf.InverseLerp,
  Mathf.Lerp, Mathf.Max, Mathf.RoundToInt (round half to even), the C# cast of an
  int to a byte, and the Vector3 value type with the operations the filters use.
*/
module EngineMath {

  /** A byte as the C# `byte` type holds it. */
  type Byte = b: int | 0 <= b < 256

  /** The C# unchecked cast `(byte)i`: keep the low eight bits. */
  function ByteOf(i: int): (b: Byte)
    ensures 0 <= i < 256 ==> b == i
    ensures (b - i) % 256 == 0
  {
    i % 256
  }

  /** Mathf.Max(a, b). */
  function Max(a: real, b: real): (r: real)
    ensures r >= a && r >= b
    ensures r == a || r == b
  {
    if a >= b then a else b
  }

  /** Mathf.Max(a, b) on ints. */
  function MaxInt(a: int, b: int): (r: int)
    ensures r >= a && r >= b
    ensures r == a || r == b
  {
    if a >= b then a else b
  }

  /** Mathf.Clamp(value, min, max): the lower bound is tested first. */
  function Clamp(value: real, min: real, max: real): (r: real)
    ensures min <= max ==> min <= r <= max
    ensures min <= value <= max ==> r == value
  {
    if value < min then min else if value > max then max else value
  }

  /** Mathf.Clamp(value, min, max) on ints. */
  function ClampInt(value: int, min: int, max: int): (r: int)
    ensures min <= max ==> min <= r <= max
    ensures min <= value <= max ==> r == value
  {
    if value < min then min else if value > max then max else value
  }

  /** Mathf.Clamp01. */
  function Clamp01(value: real): (r: real)
    ensures 0.0 <= r <= 1.0
  {
    Clamp(value, 0.0, 1.0)
  }

  /** Mathf.InverseLerp: 0 when the two ends coincide. */
  function InverseLerp(a: real, b: real, value: real): (t: real)
    ensures 0.0 <= t <= 1.0
    ensures a == b ==> t == 0.0
  {
    if a != b then Clamp01((value - a) / (b - a)) else 0.0
  }

  /** Mathf.Lerp: the parameter is clamped to [0, 1] first. */
  function Lerp(a: real, b: real, t: real): (r: real)
    ensures a <= b ==> a <= r <= b
  {
    var c := Clamp01(t);
    if a <= b then
      ProductBounds(b - a, c);
      a + (b - a) * c
    else
      a + (b - a) * c
  }

  /** A non-negative length scaled by a fraction in [0, 1] stays within [0, length]. */
  lemma ProductBounds(k: real, c: real)
    requires 0.0 <= k && 0.0 <= c <= 1.0
    ensures 0.0 <= k * c <= k
  {
    assert k - k * c == k * (1.0 - c);
    assert k * (1.0 - c) >= 0.0;
  }

  /** A product of two non-negative reals is non-negative. */
  lemma ProductNonNegative(x: real, y: real)
    requires 0.0 <= x && 0.0 <= y
    ensures 0.0 <= x * y
  {
  }

  /** Mathf.RoundToInt: the nearest integer, ties to the even neighbour. */
  function RoundToInt(x: real): (n: int)
    ensures -0.5 <= x - n as real <= 0.5
    ensures (x - n as real == 0.5 || x - n as real == -0.5) ==> n % 2 == 0
  {
    var f := x.Floor;
    var frac := x - f as real;
    if frac < 0.5 then f
    else if frac > 0.5 then f + 1
    else if f % 2 == 0 then f
    else f + 1
  }

  /** Rounding leaves an integer where it is. */
  lemma RoundToIntOfInt(k: int)
    ensures RoundToInt(k as real) == k
  {
    assert (k as real).Floor == k;
  }

  /** Rounding never reverses the order of two values. */
  lemma {:induction false} RoundToIntMonotone(x: real, y: real)
    requires x <= y
    ensures RoundToInt(x) <= RoundToInt(y)
  {
    var fx, fy := x.Floor, y.Floor;
    assert fx <= fy;
    if fx < fy {
      assert RoundToInt(x) <= fx + 1 <= fy <= RoundToInt(y);
    } else {
      assert x - fx as real <= y - fy as real;
    }
  }

  /** A value between two integers rounds to a value between them. */
  lemma RoundToIntBetween(x: real, lo: int, hi: int)
    requires lo as real <= x <= hi as real
    ensures lo <= RoundToInt(x) <= hi
  {
    RoundToIntOfInt(lo);
    RoundToIntOfInt(hi);
    RoundToIntMonotone(lo as real, x);
    RoundToIntMonotone(x, hi as real);
  }

  /** Clamp never reverses the order of two values. */
  lemma ClampMonotone(x: real, y: real, min: real, max: real)
    requires x <= y
    requires min <= max
    ensures Clamp(x, min, max) <= Clamp(y, min, max)
  {
  }

  /** InverseLerp is non-decreasing in its value when a < b. */
  lemma InverseLerpMonotone(a: real, b: real, x: real, y: real)
    requires x <= y
    requires a < b
    ensures InverseLerp(a, b, x) <= InverseLerp(a, b, y)
  {
    assert (x - a) / (b - a) <= (y - a) / (b - a) by {
      assert (y - a) / (b - a) - (x - a) / (b - a) == (y - x) / (b - a);
    }
  }

  /** A 3D vector of the engine (Vector3), over reals. */
  datatype Vec3 = Vec3(x: real, y: real, z: real)

  const Zero3 := Vec3(0.0, 0.0, 0.0)
  const Up3 := Vec3(0.0, 1.0, 0.0)

  /** A 2D vector of the engine (Vector2), over reals. */
  datatype Vec2 = Vec2(u: real, v: real)

  const Zero2 := Vec2(0.0, 0.0)

  function Add(a: Vec3, b: Vec3): Vec3 {
    Vec3(a.x + b.x, a.y + b.y, a.z + b.z)
  }

  function Sub(a: Vec3, b: Vec3): Vec3 {
    Vec3(a.x - b.x, a.y - b.y, a.z - b.z)
  }

  function Scale(k: real, a: Vec3): Vec3 {
    Vec3(k * a.x, k * a.y, k * a.z)
  }
}
