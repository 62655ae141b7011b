/** The statistics box of both graphs: `sum(values) / len(values)`, `min`, `max` and the
    start-to-end growth percentage, over exact reals. */
module Statistics {

  function Sum(s: seq<real>): real
  {
    if s == [] then 0.0 else Sum(s[..|s| - 1]) + s[|s| - 1]
  }

  /** Python's `min(values)`. */
  function Minimum(s: seq<real>): (m: real)
    requires |s| > 0
    ensures m in s
    ensures forall i :: 0 <= i < |s| ==> m <= s[i]
  {
    if |s| == 1 then s[0]
    else
      var m := Minimum(s[..|s| - 1]);
      assert forall i :: 0 <= i < |s| - 1 ==> s[..|s| - 1][i] == s[i];
      if s[|s| - 1] < m then s[|s| - 1] else m
  }

  /** Python's `max(values)`. */
  function Maximum(s: seq<real>): (m: real)
    requires |s| > 0
    ensures m in s
    ensures forall i :: 0 <= i < |s| ==> s[i] <= m
  {
    if |s| == 1 then s[0]
    else
      var m := Maximum(s[..|s| - 1]);
      assert forall i :: 0 <= i < |s| - 1 ==> s[..|s| - 1][i] == s[i];
      if s[|s| - 1] > m then s[|s| - 1] else m
  }

  /** `((last - first) / first) * 100 if first != 0 else 0`. */
  function Growth(first: real, last: real): (g: real)
    ensures first == 0.0 ==> g == 0.0
    ensures first != 0.0 ==> g * first == (last - first) * 100.0
    ensures first > 0.0 ==> (g >= 0.0 <==> last >= first)
  {
    if first != 0.0 then (last - first) / first * 100.0 else 0.0
  }

  datatype Summary = Summary(count: nat, average: real, minimum: real, maximum: real, growth: real)

  /** A sum of values that all lie in [lo, hi] lies between |s|*lo and |s|*hi. */
  lemma {:induction false} SumBounds(s: seq<real>, lo: real, hi: real)
    requires forall i :: 0 <= i < |s| ==> lo <= s[i] <= hi
    ensures |s| as real * lo <= Sum(s) <= |s| as real * hi
  {
    if s != [] {
      var init := s[..|s| - 1];
      assert forall i :: 0 <= i < |init| ==> init[i] == s[i];
      SumBounds(init, lo, hi);
      assert |s| as real * lo == |init| as real * lo + lo;
      assert |s| as real * hi == |init| as real * hi + hi;
    }
  }

  lemma MeanBetween(total: real, n: real, lo: real, hi: real)
    requires n > 0.0 && n * lo <= total <= n * hi
    ensures lo <= total / n <= hi && total / n * n == total
  {
  }

  function Summarise(values: seq<real>): (r: Summary)
    requires |values| > 0
    ensures r.count == |values|
    ensures r.minimum in values && r.maximum in values
    ensures forall i :: 0 <= i < |values| ==> r.minimum <= values[i] <= r.maximum
    ensures r.minimum <= r.average <= r.maximum
    ensures r.average == Sum(values) / |values| as real
    ensures r.growth == Growth(values[0], values[|values| - 1])
  {
    var n := |values| as real;
    var lo := Minimum(values);
    var hi := Maximum(values);
    SumBounds(values, lo, hi);
    var avg := Sum(values) / n;
    MeanBetween(Sum(values), n, lo, hi);
    Summary(|values|, avg, lo, hi, Growth(values[0], values[|values| - 1]))
  }
}
