/**
  The exponential smoother used by the telemetry link (OneDollarFilter): a
  first-order low-pass filter `filtered := filtered + strength * (input - filtered)`
  whose first sample after construction or Reset passes through unchanged. The
  stored value is a 3D vector; the scalar overload works on its x component only
  and shares the initialised flag with the vector overload.
*/
module OneDollar {
  import opened EngineMath

  const MinStrength: real := 0.01
  const MaxStrength: real := 1.0
  const DefaultStrength: real := 0.1

  /** One smoothing step on a scalar channel. */
  function Smooth(previous: real, input: real, alpha: real): real {
    previous + alpha * (input - previous)
  }

  /** One smoothing step on all three channels of a vector. */
  function SmoothVec(previous: Vec3, input: Vec3, alpha: real): (r: Vec3)
    ensures r == Add(previous, Scale(alpha, Sub(input, previous)))
  {
    Vec3(Smooth(previous.x, input.x, alpha), Smooth(previous.y, input.y, alpha), Smooth(previous.z, input.z, alpha))
  }

  /** What Filter(Vector3) returns: the input itself on the first sample, one smoothing step after that. */
  function FilteredVec(initialized: bool, previous: Vec3, input: Vec3, alpha: real): Vec3 {
    if initialized then SmoothVec(previous, input, alpha) else input
  }

  /** What Filter(float) returns: the input itself on the first sample, one smoothing step of x after that. */
  function FilteredScalar(initialized: bool, previous: real, input: real, alpha: real): real {
    if initialized then Smooth(previous, input, alpha) else input
  }

  /** A fraction in [0, 1] of a signed step keeps its sign and is no longer than the step. */
  lemma ScaledStep(alpha: real, d: real)
    requires 0.0 <= alpha <= 1.0
    ensures 0.0 <= d ==> 0.0 <= alpha * d <= d
    ensures d <= 0.0 ==> d <= alpha * d <= 0.0
  {
    if 0.0 <= d {
      assert d - alpha * d == (1.0 - alpha) * d;
    } else {
      assert alpha * d - d == (1.0 - alpha) * -d;
    }
  }

  /** Smoothing upwards towards a larger input stays between the two. */
  lemma SmoothUp(previous: real, input: real, alpha: real)
    requires 0.0 < alpha <= 1.0 && previous <= input
    ensures previous <= Smooth(previous, input, alpha) <= input
  {
    ScaledStep(alpha, input - previous);
    assert 0.0 <= alpha * (input - previous) <= input - previous;
  }

  /** Smoothing downwards towards a smaller input stays between the two. */
  lemma SmoothDown(previous: real, input: real, alpha: real)
    requires 0.0 < alpha <= 1.0 && input <= previous
    ensures input <= Smooth(previous, input, alpha) <= previous
  {
    ScaledStep(alpha, input - previous);
    assert input - previous <= alpha * (input - previous) <= 0.0;
  }

  /** With a strength in (0, 1] the new value lies between the old value and the input: no overshoot. */
  lemma SmoothBetween(previous: real, input: real, alpha: real)
    requires 0.0 < alpha <= 1.0
    ensures previous <= input ==> previous <= Smooth(previous, input, alpha) <= input
    ensures input <= previous ==> input <= Smooth(previous, input, alpha) <= previous
  {
    if previous <= input {
      SmoothUp(previous, input, alpha);
    }
    if input <= previous {
      SmoothDown(previous, input, alpha);
    }
  }

  /** With strength 1 the filter follows its input exactly. */
  lemma SmoothFullStrength(previous: real, input: real)
    ensures Smooth(previous, input, 1.0) == input
  {
  }

  /** The distance to the input shrinks by the factor (1 - strength) on every step. */
  lemma SmoothContracts(previous: real, input: real, alpha: real)
    ensures input - Smooth(previous, input, alpha) == (1.0 - alpha) * (input - previous)
  {
  }

  /** `Power(b, n)` is b raised to n. */
  function Power(b: real, n: nat): real {
    if n == 0 then 1.0 else b * Power(b, n - 1)
  }

  /** The value after feeding the same input `n` more times. */
  function SmoothRepeated(previous: real, input: real, alpha: real, n: nat): real
    decreases n
  {
    if n == 0 then previous else SmoothRepeated(Smooth(previous, input, alpha), input, alpha, n - 1)
  }

  /** A distance scaled by p after one already scaled by b is scaled by b * p in all. */
  lemma ScaleTwice(x: real, y: real, p: real, b: real, d: real)
    requires x == p * y && y == b * d
    ensures x == (b * p) * d
  {
  }

  /** Feeding a constant input n times leaves (1 - strength)^n of the initial distance. */
  lemma {:induction false} SmoothRepeatedDistance(previous: real, input: real, alpha: real, n: nat)
    decreases n
    ensures input - SmoothRepeated(previous, input, alpha, n) == Power(1.0 - alpha, n) * (input - previous)
  {
    if n > 0 {
      var next := Smooth(previous, input, alpha);
      assert SmoothRepeated(previous, input, alpha, n) == SmoothRepeated(next, input, alpha, n - 1);
      SmoothRepeatedDistance(next, input, alpha, n - 1);
      SmoothContracts(previous, input, alpha);
      ScaleTwice(input - SmoothRepeated(next, input, alpha, n - 1), input - next,
                 Power(1.0 - alpha, n - 1), 1.0 - alpha, input - previous);
    }
  }

  /**
    Feeding a constant input approaches it monotonically and never overshoots:
    each further step lies between the current value and the input.
  */
  lemma {:induction false} SmoothRepeatedApproaches(previous: real, input: real, alpha: real, n: nat)
    decreases n
    requires 0.0 < alpha <= 1.0
    ensures previous <= input ==>
      previous <= SmoothRepeated(previous, input, alpha, n) <= SmoothRepeated(previous, input, alpha, n + 1) <= input
    ensures input <= previous ==>
      input <= SmoothRepeated(previous, input, alpha, n + 1) <= SmoothRepeated(previous, input, alpha, n) <= previous
  {
    var next := Smooth(previous, input, alpha);
    SmoothBetween(previous, input, alpha);
    if n > 0 {
      SmoothRepeatedApproaches(next, input, alpha, n - 1);
    }
  }

  class OneDollarFilter {
    var filterStrength: real
    var filteredValue: Vec3
    var isInitialized: bool

    ghost predicate Valid()
      reads this
    {
      MinStrength <= filterStrength <= MaxStrength
    }

    /** The constructor keeps the strength in [0.01, 1.0]; the state starts zeroed and uninitialised. */
    constructor (strength: real)
      ensures Valid()
      ensures filterStrength == Clamp(strength, MinStrength, MaxStrength)
      ensures filteredValue == Zero3 && !isInitialized
    {
      filterStrength := Clamp(strength, MinStrength, MaxStrength);
      filteredValue := Zero3;
      isInitialized := false;
    }

    method SetFilterStrength(strength: real)
      modifies this`filterStrength
      ensures Valid()
      ensures filterStrength == Clamp(strength, MinStrength, MaxStrength)
    {
      filterStrength := Clamp(strength, MinStrength, MaxStrength);
    }

    function GetFilterStrength(): (s: real)
      reads this
      requires Valid()
      ensures MinStrength <= s <= MaxStrength
      ensures s == filterStrength
    {
      filterStrength
    }

    function GetCurrentValue(): Vec3
      reads this
    {
      filteredValue
    }

    /** Filter(Vector3): the first sample passes through; later ones are smoothed towards the input. */
    method Filter(input: Vec3) returns (r: Vec3)
      modifies this`filteredValue, this`isInitialized
      ensures isInitialized
      ensures r == FilteredVec(old(isInitialized), old(filteredValue), input, filterStrength)
      ensures filteredValue == r
    {
      if !isInitialized {
        filteredValue := input;
        isInitialized := true;
        return filteredValue;
      }
      filteredValue := Add(filteredValue, Scale(filterStrength, Sub(input, filteredValue)));
      r := filteredValue;
    }

    /** Filter(float): the same rule on the x component only; y and z are left as they were. */
    method FilterScalar(input: real) returns (r: real)
      modifies this`filteredValue, this`isInitialized
      ensures isInitialized
      ensures r == FilteredScalar(old(isInitialized), old(filteredValue.x), input, filterStrength)
      ensures filteredValue == old(filteredValue).(x := r)
    {
      if !isInitialized {
        filteredValue := filteredValue.(x := input);
        isInitialized := true;
        return filteredValue.x;
      }
      filteredValue := filteredValue.(x := filteredValue.x + filterStrength * (input - filteredValue.x));
      r := filteredValue.x;
    }

    /** Reset clears the initialised flag and zeroes the stored value. */
    method Reset()
      modifies this`filteredValue, this`isInitialized
      ensures !isInitialized && filteredValue == Zero3
    {
      isInitialized := false;
      filteredValue := Zero3;
    }
  }

  /** A fresh filter passes its first sample through and then smooths the second one. */
  method FirstSamplePassesThrough(strength: real, a: real, b: real) returns (first: real, second: real)
    ensures first == a
    ensures second == Smooth(a, b, Clamp(strength, MinStrength, MaxStrength))
  {
    var f := new OneDollarFilter(strength);
    first := f.FilterScalar(a);
    second := f.FilterScalar(b);
  }
}
