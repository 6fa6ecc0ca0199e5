// The two C++ numeric conversions the game relies on, stated over exact reals:
// the `(int)` cast of a float (truncation toward zero) and `std::round`
// (halfway cases away from zero).
module Numeric {

  /** `(int)r` in C++: drops the fractional part, rounding toward zero. */
  function Trunc(r: real): (n: int)
    ensures 0.0 <= r ==> n as real <= r < n as real + 1.0
    ensures r < 0.0 ==> n as real - 1.0 < r <= n as real
    ensures 0.0 <= r ==> 0 <= n
  {
    if r >= 0.0 then r.Floor else -((-r).Floor)
  }

  /** `std::round(r)`: the nearest integer, halfway cases away from zero. */
  function RoundHalfAway(r: real): (n: int)
    ensures n as real - 0.5 <= r <= n as real + 0.5
    ensures 0.0 <= r ==> r < n as real + 0.5
    ensures r < 0.0 ==> n as real - 0.5 < r
  {
    if r >= 0.0 then (r + 0.5).Floor else -((-r + 0.5).Floor)
  }

  function Abs(r: real): real { if r < 0.0 then -r else r }

  function Min(a: int, b: int): int { if a < b then a else b }

  function Max(a: int, b: int): int { if a < b then b else a }

  /** The total of a run of frame times. */
  function Sum(dts: seq<real>): real {
    if dts == [] then 0.0 else dts[0] + Sum(dts[1..])
  }

  predicate AllNonNegative(dts: seq<real>) {
    forall i :: 0 <= i < |dts| ==> dts[i] >= 0.0
  }

  lemma {:induction false} SumNonNegative(dts: seq<real>)
    requires AllNonNegative(dts)
    ensures Sum(dts) >= 0.0
  {
    if dts != [] {
      assert dts[0] >= 0.0;
      SumNonNegative(dts[1..]);
    }
  }
}
