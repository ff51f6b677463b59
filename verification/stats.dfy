/** Exact real-number versions of the aggregations the scripts apply to model
    outputs: the unweighted ensemble mean, normalisation of a weight list,
    and the weighted sum of predictions against normalised weights. */
module Stats {

  function Sum(xs: seq<real>): real
  {
    if |xs| == 0 then 0.0 else xs[0] + Sum(xs[1..])
  }

  function Min(xs: seq<real>): (m: real)
    requires |xs| > 0
    ensures m in xs
    ensures forall i :: 0 <= i < |xs| ==> m <= xs[i]
  {
    if |xs| == 1 then xs[0]
    else
      var rest := Min(xs[1..]);
      if xs[0] <= rest then xs[0] else rest
  }

  function Max(xs: seq<real>): (m: real)
    requires |xs| > 0
    ensures m in xs
    ensures forall i :: 0 <= i < |xs| ==> xs[i] <= m
  {
    if |xs| == 1 then xs[0]
    else
      var rest := Max(xs[1..]);
      if xs[0] >= rest then xs[0] else rest
  }

  /** A sum of values that all lie in [lo, hi] lies in [n * lo, n * hi]. */
  lemma {:induction false} SumBounds(xs: seq<real>, lo: real, hi: real)
    requires forall i :: 0 <= i < |xs| ==> lo <= xs[i] <= hi
    ensures lo * (|xs| as real) <= Sum(xs) <= hi * (|xs| as real)
  {
    if |xs| > 0 {
      assert forall i :: 0 <= i < |xs[1..]| ==> xs[1..][i] == xs[i + 1];
      SumBounds(xs[1..], lo, hi);
      assert (|xs| as real) == (|xs[1..]| as real) + 1.0;
    }
  }

  /** Dividing bounds on n * x by the positive n. */
  lemma DivideBounds(s: real, n: real, lo: real, hi: real)
    requires n > 0.0
    requires lo * n <= s <= hi * n
    ensures lo <= s / n <= hi
  {
    assert (s / n) * n == s;
  }

  lemma DivideThenMultiply(s: real, n: real)
    requires n != 0.0
    ensures (s / n) * n == s
  {
  }

  lemma DivideBySelf(t: real)
    requires t != 0.0
    ensures t / t == 1.0
  {
  }

  /** Dividing by a positive k keeps weights positive and ordered. */
  lemma {:induction false} ScalePositive(ws: seq<real>, k: real)
    requires k > 0.0 && AllPositive(ws)
    ensures AllPositive(Scale(ws, k))
    ensures forall i, j :: 0 <= i < |ws| && 0 <= j < |ws| && ws[i] <= ws[j] ==>
              Scale(ws, k)[i] <= Scale(ws, k)[j]
  {
    var nw := Scale(ws, k);
    forall i | 0 <= i < |ws|
      ensures nw[i] > 0.0
    {
      assert nw[i] == ws[i] / k;
    }
    forall i, j | 0 <= i < |ws| && 0 <= j < |ws| && ws[i] <= ws[j]
      ensures nw[i] <= nw[j]
    {
      assert nw[i] == ws[i] / k && nw[j] == ws[j] / k;
      assert (nw[j] - nw[i]) * k == ws[j] - ws[i];
      NonNegativeFactor(nw[j] - nw[i], k);
    }
  }

  /** A product with a positive factor is non-negative only if the other
      factor is. */
  lemma NonNegativeFactor(x: real, k: real)
    requires k > 0.0 && x * k >= 0.0
    ensures x >= 0.0
  {
    assert (x * k) / k == x;
  }

  /** The arithmetic mean (numpy's `mean` over a non-empty list): the value
      that, taken once per entry, gives the same total; it always lies
      between the smallest and the largest value averaged. */
  function Mean(xs: seq<real>): (m: real)
    requires |xs| > 0
    ensures Sum(Uniform(|xs|, m)) == Sum(xs)
    ensures Min(xs) <= m <= Max(xs)
  {
    AverageBounds(xs, Min(xs), Max(xs));
    UniformTotal(Sum(xs), |xs|);
    Sum(xs) / (|xs| as real)
  }

  /** n copies of the weight w: every ensemble member counted alike. */
  function Uniform(n: nat, w: real): (u: seq<real>)
    ensures |u| == n
    ensures forall i :: 0 <= i < n ==> u[i] == w
  {
    seq(n, _ => w)
  }

  lemma {:induction false} SumUniform(n: nat, w: real)
    ensures Sum(Uniform(n, w)) == (n as real) * w
  {
    if n > 0 {
      assert Uniform(n, w)[1..] == Uniform(n - 1, w);
      SumUniform(n - 1, w);
    }
  }

  /** n copies of s / n add up to s. */
  lemma UniformTotal(s: real, n: nat)
    requires n > 0
    ensures Sum(Uniform(n, s / (n as real))) == s
  {
    SumUniform(n, s / (n as real));
    DivideThenMultiply(s, n as real);
  }

  /** Two values whose n copies add up to the same total are equal. */
  lemma UniformTotalIsUnique(a: real, b: real, n: nat)
    requires n > 0 && Sum(Uniform(n, a)) == Sum(Uniform(n, b))
    ensures a == b
  {
    SumUniform(n, a);
    SumUniform(n, b);
    CancelFactor(a, b, n as real, (n as real) * a);
  }

  lemma {:induction false} DotUniform(xs: seq<real>, w: real)
    ensures Dot(xs, Uniform(|xs|, w)) == w * Sum(xs)
  {
    if |xs| > 0 {
      assert Uniform(|xs|, w)[1..] == Uniform(|xs[1..]|, w);
      DotUniform(xs[1..], w);
      Distribute(w, xs[0], Sum(xs[1..]));
    }
  }

  /** Two factors whose products with the same nonzero k agree are equal. */
  lemma CancelFactor(a: real, b: real, k: real, d: real)
    requires k != 0.0 && a * k == d && b * k == d
    ensures a == b
  {
    assert a == d / k;
  }

  /** A weighted mean under unit weights, taken once per entry, gives the
      total of the entries. */
  lemma UnitWeightedTotal(r: real, xs: seq<real>)
    requires WeightedMeanOf(r, xs, Uniform(|xs|, 1.0))
    ensures Sum(Uniform(|xs|, r)) == Sum(xs)
  {
    SumUniform(|xs|, 1.0);
    DotUniform(xs, 1.0);
    SumUniform(|xs|, r);
  }

  /** The ensemble mean is the weighted blend in which every member carries
      the same weight. */
  lemma MeanIsUniformBlend(xs: seq<real>)
    requires |xs| > 0
    ensures Mean(xs) == WeightedBlend(xs, Uniform(|xs|, 1.0))
  {
    var r := WeightedBlend(xs, Uniform(|xs|, 1.0));
    UnitWeightedTotal(r, xs);
    UniformTotalIsUnique(Mean(xs), r, |xs|);
  }

  /** The average of values in [lo, hi] lies in [lo, hi]. */
  lemma {:induction false} AverageBounds(xs: seq<real>, lo: real, hi: real)
    requires |xs| > 0
    requires forall i :: 0 <= i < |xs| ==> lo <= xs[i] <= hi
    ensures lo <= Sum(xs) / (|xs| as real) <= hi
  {
    SumBounds(xs, lo, hi);
    DivideBounds(Sum(xs), |xs| as real, lo, hi);
  }

  predicate AllPositive(ws: seq<real>)
  {
    forall i :: 0 <= i < |ws| ==> ws[i] > 0.0
  }

  predicate AllNonNegative(ws: seq<real>)
  {
    forall i :: 0 <= i < |ws| ==> ws[i] >= 0.0
  }

  lemma {:induction false} PositiveSum(ws: seq<real>)
    requires |ws| > 0 && AllPositive(ws)
    ensures Sum(ws) > 0.0
  {
    if |ws| > 1 {
      assert forall i :: 0 <= i < |ws[1..]| ==> ws[1..][i] == ws[i + 1];
      PositiveSum(ws[1..]);
    }
  }

  /** Every entry divided by k. */
  function Scale(ws: seq<real>, k: real): (r: seq<real>)
    requires k != 0.0
    ensures |r| == |ws|
    ensures forall i :: 0 <= i < |ws| ==> r[i] * k == ws[i]
  {
    seq(|ws|, i requires 0 <= i < |ws| => ws[i] / k)
  }

  lemma {:induction false} SumScale(ws: seq<real>, k: real)
    requires k != 0.0
    ensures Sum(Scale(ws, k)) == Sum(ws) / k
  {
    if |ws| > 0 {
      SumScale(ws[1..], k);
      assert Scale(ws, k)[1..] == Scale(ws[1..], k);
    }
  }

  /** Dividing positive weights by their total gives positive, ordered
      weights that sum to one. */
  lemma {:induction false} ScaleByTotal(ws: seq<real>)
    requires |ws| > 0 && AllPositive(ws)
    ensures Sum(ws) > 0.0
    ensures AllPositive(Scale(ws, Sum(ws)))
    ensures Sum(Scale(ws, Sum(ws))) == 1.0
    ensures forall i, j :: 0 <= i < |ws| && 0 <= j < |ws| && ws[i] <= ws[j] ==>
              Scale(ws, Sum(ws))[i] <= Scale(ws, Sum(ws))[j]
  {
    var total := Sum(ws);
    PositiveSum(ws);
    SumScale(ws, total);
    ScalePositive(ws, total);
    DivideBySelf(total);
  }

  /** Every entry of nw times the total of ws is the matching entry of ws:
      nw is ws divided by its total. */
  predicate ProportionalTo(nw: seq<real>, ws: seq<real>)
    requires |nw| == |ws|
  {
    forall i :: 0 <= i < |ws| ==> nw[i] * Sum(ws) == ws[i]
  }

  /** Each weight divided by the total, as `[w / total for w in weights]`. The
      result is proportional to the weights, positive, sums to one, and keeps
      their order. */
  function Normalize(ws: seq<real>): (nw: seq<real>)
    requires |ws| > 0 && AllPositive(ws)
    ensures |nw| == |ws|
    ensures AllPositive(nw)
    ensures Sum(nw) == 1.0
    ensures ProportionalTo(nw, ws)
    ensures forall i, j :: 0 <= i < |ws| && 0 <= j < |ws| && ws[i] <= ws[j] ==> nw[i] <= nw[j]
  {
    ScaleByTotal(ws);
    Scale(ws, Sum(ws))
  }

  /** `sum(p * w for p, w in zip(ps, ws))`. */
  function Dot(ps: seq<real>, ws: seq<real>): real
    requires |ps| == |ws|
  {
    if |ps| == 0 then 0.0 else ps[0] * ws[0] + Dot(ps[1..], ws[1..])
  }

  /** One non-negatively weighted term of values in [lo, hi]. */
  lemma TermBounds(p: real, w: real, lo: real, hi: real)
    requires w >= 0.0 && lo <= p <= hi
    ensures lo * w <= p * w <= hi * w
  {
    assert (p - lo) * w >= 0.0;
    assert (hi - p) * w >= 0.0;
  }

  /** With non-negative weights, a weighted sum of values in [lo, hi] lies in
      [lo * total weight, hi * total weight]. */
  lemma {:induction false} DotBounds(ps: seq<real>, ws: seq<real>, lo: real, hi: real)
    requires |ps| == |ws|
    requires AllNonNegative(ws)
    requires forall i :: 0 <= i < |ps| ==> lo <= ps[i] <= hi
    ensures lo * Sum(ws) <= Dot(ps, ws) <= hi * Sum(ws)
  {
    if |ps| > 0 {
      var ps', ws' := ps[1..], ws[1..];
      assert forall i :: 0 <= i < |ps'| ==> ps'[i] == ps[i + 1];
      assert forall i :: 0 <= i < |ws'| ==> ws'[i] == ws[i + 1];
      DotBounds(ps', ws', lo, hi);
      TermBounds(ps[0], ws[0], lo, hi);
      var d, t := Dot(ps', ws'), Sum(ws');
      assert lo * t <= d <= hi * t;
      assert lo * ws[0] <= ps[0] * ws[0] <= hi * ws[0];
      assert Dot(ps, ws) == ps[0] * ws[0] + d;
      assert Sum(ws) == ws[0] + t;
      CombineBounds(lo, hi, ws[0], t, ps[0] * ws[0], d);
    }
  }

  /** Bounds on two weighted parts add up to bounds on their sum. */
  lemma CombineBounds(lo: real, hi: real, w: real, t: real, a: real, b: real)
    requires lo * w <= a <= hi * w
    requires lo * t <= b <= hi * t
    ensures lo * (w + t) <= a + b <= hi * (w + t)
  {
    Distribute(lo, w, t);
    Distribute(hi, w, t);
  }

  lemma Distribute(k: real, a: real, b: real)
    ensures k * (a + b) == k * a + k * b
  {
  }

  /** Weights proportional to ws with factor 1/k give k times less weighted sum. */
  lemma {:induction false} DotProportional(ps: seq<real>, nw: seq<real>, ws: seq<real>, k: real)
    requires |ps| == |nw| == |ws|
    requires forall i :: 0 <= i < |ws| ==> nw[i] * k == ws[i]
    ensures Dot(ps, nw) * k == Dot(ps, ws)
  {
    if |ps| > 0 {
      assert forall i :: 0 <= i < |ws[1..]| ==> nw[1..][i] * k == ws[1..][i] by {
        forall i | 0 <= i < |ws[1..]|
          ensures nw[1..][i] * k == ws[1..][i]
        {
          assert nw[1..][i] == nw[i + 1] && ws[1..][i] == ws[i + 1];
        }
      }
      DotProportional(ps[1..], nw[1..], ws[1..], k);
      var d, e := Dot(ps[1..], nw[1..]), Dot(ps[1..], ws[1..]);
      assert Dot(ps, nw) == ps[0] * nw[0] + d;
      assert Dot(ps, ws) == ps[0] * ws[0] + e;
      assert (ps[0] * nw[0]) * k == ps[0] * (nw[0] * k);
      Distribute(k, ps[0] * nw[0], d);
    }
  }

  /** r is the weighted mean of ps under ws: r times the total weight is the
      weighted sum. */
  predicate WeightedMeanOf(r: real, ps: seq<real>, ws: seq<real>)
    requires |ps| == |ws|
  {
    r * Sum(ws) == Dot(ps, ws)
  }

  /** The normalised weighted blend the multi-model scripts compute: the
      weighted sum of the predictions divided by the total weight, a convex
      combination that lies between their extremes. */
  function WeightedBlend(ps: seq<real>, ws: seq<real>): (r: real)
    requires |ps| == |ws| > 0
    requires AllPositive(ws)
    ensures WeightedMeanOf(r, ps, ws)
    ensures Min(ps) <= r <= Max(ps)
  {
    BlendValue(ps, ws);
    BlendBounds(ps, ws, Min(ps), Max(ps));
    Dot(ps, Normalize(ws))
  }

  /** Weighting by the normalised weights divides the weighted sum by the total. */
  lemma {:induction false} BlendValue(ps: seq<real>, ws: seq<real>)
    requires |ps| == |ws| > 0
    requires AllPositive(ws)
    ensures WeightedMeanOf(Dot(ps, Normalize(ws)), ps, ws)
  {
    DotProportional(ps, Normalize(ws), ws, Sum(ws));
  }

  /** A blend under normalised weights of values in [lo, hi] lies in [lo, hi]. */
  lemma {:induction false} BlendBounds(ps: seq<real>, ws: seq<real>, lo: real, hi: real)
    requires |ps| == |ws| > 0
    requires AllPositive(ws)
    requires forall i :: 0 <= i < |ps| ==> lo <= ps[i] <= hi
    ensures lo <= Dot(ps, Normalize(ws)) <= hi
  {
    var nw := Normalize(ws);
    DotBounds(ps, nw, lo, hi);
    assert Sum(nw) == 1.0;
  }
}
