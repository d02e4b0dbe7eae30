module Statistics {

  function Sum(xs: seq<real>): real {
    if xs == [] then 0.0 else Sum(xs[..|xs| - 1]) + xs[|xs| - 1]
  }

  function Mean(xs: seq<real>): real
    requires xs != []
  {
    Sum(xs) / |xs| as real
  }

  // The last n elements, or all when there are fewer.
  function Trailing(xs: seq<real>, n: nat): seq<real> {
    if |xs| > n then xs[|xs| - n..] else xs
  }

  /** Sums add over parts, and a one-element sum is the element. */
  lemma {:induction false} SumOfParts(xs: seq<real>, ys: seq<real>)
    ensures Sum(xs + ys) == Sum(xs) + Sum(ys)
    ensures |ys| == 1 ==> Sum(ys) == ys[0]
  {
    if ys == [] {
      assert xs + ys == xs;
    } else {
      assert (xs + ys)[..|xs + ys| - 1] == xs + ys[..|ys| - 1];
      SumOfParts(xs, ys[..|ys| - 1]);
      if |ys| == 1 { assert ys[..0] == []; }
    }
  }

  lemma Quotient(a: real, n: real, q: real)
    requires n > 0.0
    ensures a == n * q <==> q == a / n
  {
  }

  /** Deviations from the mean cancel, and from nothing else. */
  lemma DeviationsCancel(xs: seq<real>, centre: real)
    requires xs != []
    ensures Sum(seq(|xs|, i requires 0 <= i < |xs| => xs[i] - centre)) == Sum(xs) - |xs| as real * centre
    ensures Sum(seq(|xs|, i requires 0 <= i < |xs| => xs[i] - centre)) == 0.0 <==> centre == Mean(xs)
  {
    ShiftedSum(xs, centre);
    Quotient(Sum(xs), |xs| as real, centre);
    hide Sum;
  }

  lemma {:induction false} ShiftedSum(xs: seq<real>, centre: real)
    ensures Sum(seq(|xs|, i requires 0 <= i < |xs| => xs[i] - centre)) == Sum(xs) - |xs| as real * centre
  {
    if xs != [] {
      var init := xs[..|xs| - 1];
      var all := seq(|xs|, i requires 0 <= i < |xs| => xs[i] - centre);
      assert all[..|xs| - 1] == seq(|init|, i requires 0 <= i < |init| => init[i] - centre);
      ShiftedSum(init, centre);
    }
  }

  lemma TrailingIsSuffix(xs: seq<real>, n: nat)
    ensures |Trailing(xs, n)| == if |xs| < n then |xs| else n
    ensures xs == xs[..|xs| - |Trailing(xs, n)|] + Trailing(xs, n)
  {
  }
}
