// The weighted sum that every function of the diet program accumulates:
// the objective over the cost column and each constraint over one nutrient
// column, all of the form  total := total + amounts[i] * coeffs[i].

module LinearSums {

  /** Sum of amounts[i] * coeffs[i] for i < |amounts|, folded from the left
      exactly as the source's loops accumulate it. Coefficients beyond
      |amounts| are never read. */
  function WeightedSum(amounts: seq<real>, coeffs: seq<real>): real
    requires |amounts| <= |coeffs|
    decreases |amounts|
  {
    if |amounts| == 0 then 0.0
    else
      var n := |amounts| - 1;
      WeightedSum(amounts[..n], coeffs) + amounts[n] * coeffs[n]
  }

  /** The accumulation loop shared by `objective` and every `constraint_*`
      function: start from 0.0, add amounts[i] * coeffs[i] for each i. */
  method Accumulate(amounts: seq<real>, coeffs: seq<real>) returns (total: real)
    requires |amounts| <= |coeffs|
    ensures total == WeightedSum(amounts, coeffs)
  {
    total := 0.0;
    var i := 0;
    while i < |amounts|
      invariant 0 <= i <= |amounts|
      invariant total == WeightedSum(amounts[..i], coeffs)
    {
      assert amounts[..i + 1][..i] == amounts[..i];
      total := total + amounts[i] * coeffs[i];
      i := i + 1;
    }
    assert amounts[..i] == amounts;
  }

  predicate AllZero(amounts: seq<real>)
  {
    forall i :: 0 <= i < |amounts| ==> amounts[i] == 0.0
  }

  predicate AllNonNegative(s: seq<real>)
  {
    forall i :: 0 <= i < |s| ==> s[i] >= 0.0
  }

  /** No amount of any food costs (or contributes) nothing at all. */
  lemma {:induction false} WeightedSumOfZeros(amounts: seq<real>, coeffs: seq<real>)
    requires |amounts| <= |coeffs|
    requires AllZero(amounts)
    ensures WeightedSum(amounts, coeffs) == 0.0
  {
    if |amounts| > 0 {
      WeightedSumOfZeros(amounts[..|amounts| - 1], coeffs);
    }
  }

  /** Amounts inside the bounds (0, None) and non-negative per-amount values
      give a non-negative total. */
  lemma {:induction false} WeightedSumNonNegative(amounts: seq<real>, coeffs: seq<real>)
    requires |amounts| <= |coeffs|
    requires AllNonNegative(amounts) && AllNonNegative(coeffs)
    ensures WeightedSum(amounts, coeffs) >= 0.0
  {
    if |amounts| > 0 {
      var n := |amounts| - 1;
      WeightedSumNonNegative(amounts[..n], coeffs);
      assert amounts[n] * coeffs[n] >= 0.0;
    }
  }

  /** Only the first |amounts| coefficients matter: two coefficient lists
      that agree there give the same total. */
  lemma {:induction false} WeightedSumReadsPrefix(amounts: seq<real>, c1: seq<real>, c2: seq<real>)
    requires |amounts| <= |c1| && |amounts| <= |c2|
    requires c1[..|amounts|] == c2[..|amounts|]
    ensures WeightedSum(amounts, c1) == WeightedSum(amounts, c2)
  {
    if |amounts| > 0 {
      var n := |amounts| - 1;
      assert c1[..n] == c1[..|amounts|][..n] && c2[..n] == c2[..|amounts|][..n];
      assert c1[n] == c1[..|amounts|][n] && c2[n] == c2[..|amounts|][n];
      WeightedSumReadsPrefix(amounts[..n], c1, c2);
    }
  }

  function Combine(s: real, a: seq<real>, t: real, b: seq<real>): (r: seq<real>)
    requires |a| == |b|
    ensures |r| == |a|
  {
    seq(|a|, i requires 0 <= i < |a| => s * a[i] + t * b[i])
  }

  /** The weighted sum is linear in the amounts, which is why the diet
      problem is a linear program. */
  lemma {:induction false} WeightedSumLinear(s: real, a: seq<real>, t: real, b: seq<real>, coeffs: seq<real>)
    requires |a| == |b| <= |coeffs|
    ensures WeightedSum(Combine(s, a, t, b), coeffs)
            == s * WeightedSum(a, coeffs) + t * WeightedSum(b, coeffs)
  {
    if |a| > 0 {
      var n := |a| - 1;
      var whole, front := Combine(s, a, t, b), Combine(s, a[..n], t, b[..n]);
      assert forall i :: 0 <= i < n ==> whole[..n][i] == front[i];
      assert whole[..n] == front;
      WeightedSumLinear(s, a[..n], t, b[..n], coeffs);
      Regroup(s, t, WeightedSum(a[..n], coeffs), WeightedSum(b[..n], coeffs), a[n], b[n], coeffs[n]);
    }
  }

  /** The arithmetic of one step of WeightedSumLinear. */
  lemma Regroup(s: real, t: real, p: real, q: real, x: real, y: real, c: real)
    ensures s * p + t * q + (s * x + t * y) * c == s * (p + x * c) + t * (q + y * c)
  {
  }
}
