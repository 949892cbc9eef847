/**
  Cents.  money() is Python's round to two digits: to the nearest cent, ties to the even one
  (scripts/mosaic_murmurs_paper_engine.py:198-199).  Amounts, prices and thresholds are in cents.
 */
module Money {
  function Round(x: real): int {
    var f := x.Floor;
    var d := x - f as real;
    if d < 0.5 || (d == 0.5 && f % 2 == 0) then f else f + 1
  }

  lemma RoundNear(x: real)
    ensures -0.5 <= Round(x) as real - x <= 0.5
  {}

  lemma RoundOfInt(n: int)
    ensures Round(n as real) == n
  {}

  lemma RoundMonotone(x: real, y: real)
    requires x <= y
    ensures Round(x) <= Round(y)
  {}

  /** An integer plus a rounded amount differs from the exact amount by at most half a cent, and a
      difference below one and a half cents between integers is at most one. */
  lemma IntegerDrift(drift: int, bound: real)
    requires -bound <= drift as real <= bound && bound < 2.0
    ensures -1 <= drift <= 1
  {}

  function Max(a: int, b: int): int { if a < b then b else a }
  function Min(a: int, b: int): int { if a < b then a else b }
  function MaxReal(a: real, b: real): real { if a < b then b else a }
  function MinReal(a: real, b: real): real { if a < b then a else b }
  function AbsReal(x: real): real { if x < 0.0 then -x else x }

  function Sum(s: seq<int>): int {
    if s == [] then 0 else s[0] + Sum(s[1..])
  }

  lemma {:induction false} SumAppend(a: seq<int>, b: seq<int>)
    ensures Sum(a + b) == Sum(a) + Sum(b)
  {
    if a == [] {
      assert a + b == b;
    } else {
      assert (a + b)[1..] == a[1..] + b;
      SumAppend(a[1..], b);
    }
  }
}
