/** scripts/calculate_multi_model.py: a scalar feature list whose category
    indicators are computed independently of one another, one random forest
    per trip-length bucket (short, medium, long), inverse-error ensemble
    weights, and a prediction that blends every loaded forest with the
    bucket's own forest weighted 0.7 and the others 0.15, falling back to a
    linear formula when no forest is loaded. */
module MultiModel {
  import opened Common
  import opened Stats
  import opened Partition
  import opened Transform
  import opened CalculateFast

  /** A bucket with fewer cases than this is skipped and gets no forest. */
  const MIN_BUCKET: nat := 10

  const PRIMARY_SHARE: real := 0.7
  const SECONDARY_SHARE: real := 0.15

  /** The `1e-6` added to every error before it is inverted. */
  const MSE_EPSILON: real := 0.000001

  // ---------------------------------------------------------------------
  // Features

  function Indicator(b: bool): (n: int)
    ensures n == 0 || n == 1
    ensures n == 1 <==> b
  {
    if b then 1 else 0
  }

  /** `fast_feature_engineering` as a named row. The numeric fields are the
      same guarded computations as calculate_fast.py's; the five category
      indicators are each decided on their own, and `cat_balanced` is set
      exactly when the other four are all clear. */
  function MultiRow(c: Case): (f: FeatureRow)
    ensures var s := ScalarFeatures(c);
            f.(catBalanced := s.catBalanced, catLongHaul := s.catLongHaul,
               catLowEfficiency := s.catLowEfficiency,
               catQuickTripHighMiles := s.catQuickTripHighMiles,
               catSweetSpotEfficiency := s.catSweetSpotEfficiency) == s
    ensures f.catLongHaul == 1 <==> c.days >= 8
    ensures f.catLowEfficiency == 1 <==> f.milesPerDay < 50.0
  {
    var s := ScalarFeatures(c);
    var mpd := s.milesPerDay;
    var quick := Indicator(QuickHighMiles(c.days, mpd));
    var long := Indicator(c.days >= 8);
    var low := Indicator(mpd < 50.0);
    var sweet := Indicator(InSweetSpot(mpd));
    s.(catBalanced := Indicator(quick + long + low + sweet == 0),
       catLongHaul := long, catLowEfficiency := low,
       catQuickTripHighMiles := quick, catSweetSpotEfficiency := sweet)
  }

  /** The returned array, in the same column order as calculate_fast.py. */
  function MultiFeatures(c: Case): (v: seq<real>)
    ensures |v| == 19
    ensures v[0] == c.days as real && v[1] == c.miles && v[2] == c.receipts
    ensures DecodeVector(v) == MultiRow(c)
  {
    VectorRoundTrip(MultiRow(c));
    FeatureVector(MultiRow(c))
  }

  lemma FlagTotalOfFive(a: int, b: int, c: int, d: int, e: int)
    ensures FlagTotal([a, b, c, d, e]) == a + b + c + d + e
  {
    assert FlagTotal([e]) == e by { assert [e][1..] == []; }
    assert FlagTotal([d, e]) == d + e by { assert [d, e][1..] == [e]; }
    assert FlagTotal([c, d, e]) == c + d + e by { assert [c, d, e][1..] == [d, e]; }
    assert FlagTotal([b, c, d, e]) == b + c + d + e by { assert [b, c, d, e][1..] == [c, d, e]; }
    assert [a, b, c, d, e][1..] == [b, c, d, e];
  }

  /** The independent indicators: every one is a bit, `cat_balanced` is set
      exactly when the other four are clear (so at least one is always set),
      each of the four is its own test, and `cat_sweet` always equals
      `efficiency_bonus_range`. */
  lemma IndependentFlags(c: Case)
    ensures var f := MultiRow(c);
            AllBits(CategoryFlags(f))
            && (f.catBalanced == 1 <==>
                  f.catLongHaul == 0 && f.catLowEfficiency == 0
                  && f.catQuickTripHighMiles == 0 && f.catSweetSpotEfficiency == 0)
            && FlagTotal(CategoryFlags(f)) >= 1
            && (f.catQuickTripHighMiles == 1 <==> QuickHighMiles(c.days, f.milesPerDay))
            && (f.catLongHaul == 1 <==> c.days >= 8)
            && (f.catLowEfficiency == 1 <==> f.milesPerDay < 50.0)
            && f.catSweetSpotEfficiency == f.efficiencyBonusRange
  {
    var f := MultiRow(c);
    FlagTotalOfFive(f.catBalanced, f.catLongHaul, f.catLowEfficiency,
                    f.catQuickTripHighMiles, f.catSweetSpotEfficiency);
  }

  /** The label the first-match chain would pick always has its indicator set
      here too: the independent flags cover the one-hot ones. */
  lemma ChainLabelIsFlagged(c: Case)
    ensures var f := MultiRow(c);
            var hot := OneHot(TripCategory(c.days, f.milesPerDay));
            forall i :: 0 <= i < 5 ==> hot[i] <= CategoryFlags(f)[i]
  {
  }

  /** The flags are not exclusive: eight days at 200 miles a day is both a
      long haul and in the sweet spot. */
  lemma FlagsOverlap()
    ensures MultiRow(Case(8, 1600.0, 0.0)).catLongHaul == 1
    ensures MultiRow(Case(8, 1600.0, 0.0)).catSweetSpotEfficiency == 1
    ensures FlagTotal(CategoryFlags(MultiRow(Case(8, 1600.0, 0.0)))) == 2
  {
    var f := MultiRow(Case(8, 1600.0, 0.0));
    FlagTotalOfFive(f.catBalanced, f.catLongHaul, f.catLowEfficiency,
                    f.catQuickTripHighMiles, f.catSweetSpotEfficiency);
  }

  /** The independent row equals calculate_fast.py's one-hot row exactly when
      a single indicator is set. */
  lemma MatchesScalarIffExclusive(c: Case)
    ensures MultiRow(c) == ScalarFeatures(c) <==> FlagTotal(CategoryFlags(MultiRow(c))) == 1
  {
    var f := MultiRow(c);
    var s := ScalarFeatures(c);
    FlagTotalOfFive(f.catBalanced, f.catLongHaul, f.catLowEfficiency,
                    f.catQuickTripHighMiles, f.catSweetSpotEfficiency);
    FlagTotalOfFive(s.catBalanced, s.catLongHaul, s.catLowEfficiency,
                    s.catQuickTripHighMiles, s.catSweetSpotEfficiency);
    assert CategoryFlags(s) == OneHot(TripCategory(c.days, s.milesPerDay));
  }

  // ---------------------------------------------------------------------
  // Buckets and training

  datatype TripLength = Short | Medium | Long

  /** `get_trip_category(days)`: total, and each day count has one bucket. */
  function TripLengthOf(days: int): (t: TripLength)
    ensures t == Short <==> days <= 3
    ensures t == Medium <==> 4 <= days <= 6
    ensures t == Long <==> days >= 7
  {
    if days <= 3 then Short
    else if days <= 6 then Medium
    else Long
  }

  predicate InShortBucket(x: Labeled)
  {
    TripLengthOf(x.input.days) == Short
  }

  predicate InMediumBucket(x: Labeled)
  {
    TripLengthOf(x.input.days) == Medium
  }

  predicate InLongBucket(x: Labeled)
  {
    TripLengthOf(x.input.days) == Long
  }

  /** The corpus cases of one bucket, in corpus order. */
  function Bucket(data: seq<Labeled>, t: TripLength): seq<Labeled>
  {
    match t
    case Short => Filter(data, InShortBucket)
    case Medium => Filter(data, InMediumBucket)
    case Long => Filter(data, InLongBucket)
  }

  /** Three predicates of which exactly one holds on every element split a
      list into three filters that together hold it exactly. */
  lemma FilterSplit3<T>(xs: seq<T>, p: T -> bool, q: T -> bool, r: T -> bool)
    requires forall x :: (p(x) && !q(x) && !r(x)) || (!p(x) && q(x) && !r(x)) || (!p(x) && !q(x) && r(x))
    ensures multiset(Filter(xs, p)) + multiset(Filter(xs, q)) + multiset(Filter(xs, r)) == multiset(xs)
  {
    var all := multiset(Filter(xs, p)) + multiset(Filter(xs, q)) + multiset(Filter(xs, r));
    forall x
      ensures all[x] == multiset(xs)[x]
    {
      FilterMultiplicity(xs, p, x);
      FilterMultiplicity(xs, q, x);
      FilterMultiplicity(xs, r, x);
    }
  }

  /** An element is in a filter exactly when it is in the list and passes. */
  lemma FilterMembers<T>(xs: seq<T>, p: T -> bool)
    ensures forall x :: x in Filter(xs, p) <==> x in xs && p(x)
  {
    forall x | x in Filter(xs, p)
      ensures x in xs && p(x)
    {
      var i :| 0 <= i < |Filter(xs, p)| && Filter(xs, p)[i] == x;
    }
    forall x | x in xs && p(x)
      ensures x in Filter(xs, p)
    {
      var i :| 0 <= i < |xs| && xs[i] == x;
    }
  }

  /** A case is in a bucket exactly when it is a corpus case that
      `get_trip_category` sends there. */
  lemma BucketMembers(data: seq<Labeled>, t: TripLength)
    ensures forall x :: x in Bucket(data, t) <==> x in data && TripLengthOf(x.input.days) == t
  {
    match t
    case Short => FilterMembers(data, InShortBucket);
    case Medium => FilterMembers(data, InMediumBucket);
    case Long => FilterMembers(data, InLongBucket);
  }

  /** The buckets partition the corpus: together they hold every case
      exactly as often as the corpus does. */
  lemma BucketsPartition(data: seq<Labeled>)
    ensures multiset(Bucket(data, Short)) + multiset(Bucket(data, Medium)) + multiset(Bucket(data, Long))
            == multiset(data)
  {
    forall x: Labeled
      ensures (InShortBucket(x) && !InMediumBucket(x) && !InLongBucket(x))
              || (!InShortBucket(x) && InMediumBucket(x) && !InLongBucket(x))
              || (!InShortBucket(x) && !InMediumBucket(x) && InLongBucket(x))
    {
    }
    FilterSplit3(data, InShortBucket, InMediumBucket, InLongBucket);
  }

  /** The bucket sizes add up to the corpus size. */
  lemma BucketSizes(data: seq<Labeled>)
    ensures |Bucket(data, Short)| + |Bucket(data, Medium)| + |Bucket(data, Long)| == |data|
  {
    BucketsPartition(data);
    assert |multiset(Bucket(data, Short))| + |multiset(Bucket(data, Medium))|
           + |multiset(Bucket(data, Long))| == |multiset(data)|;
  }

  /** One `(features, expected)` pair. */
  datatype Sample = Sample(x: seq<real>, y: real)

  function Samples(data: seq<Labeled>): (ss: seq<Sample>)
    ensures |ss| == |data|
    ensures forall i :: 0 <= i < |data| ==> ss[i] == Sample(MultiFeatures(data[i].input), data[i].expected)
  {
    seq(|data|, i requires 0 <= i < |data| => Sample(MultiFeatures(data[i].input), data[i].expected))
  }

  lemma AppendSample(s: seq<Labeled>, x: Labeled)
    ensures Samples(s + [x]) == Samples(s) + [Sample(MultiFeatures(x.input), x.expected)]
  {
    assert forall i :: 0 <= i < |s| ==> (s + [x])[i] == s[i];
  }

  /** One more corpus case extends its own bucket by its sample. */
  lemma BucketGrows(data: seq<Labeled>, i: int, t: TripLength)
    requires 0 <= i < |data| && TripLengthOf(data[i].input.days) == t
    ensures Samples(Bucket(data[..i + 1], t))
            == Samples(Bucket(data[..i], t)) + [Sample(MultiFeatures(data[i].input), data[i].expected)]
  {
    AppendSample(Bucket(data[..i], t), data[i]);
    match t
    case Short => FilterStep(data, i, InShortBucket);
    case Medium => FilterStep(data, i, InMediumBucket);
    case Long => FilterStep(data, i, InLongBucket);
  }

  /** ... and leaves every other bucket as it was. */
  lemma BucketKeeps(data: seq<Labeled>, i: int, t: TripLength)
    requires 0 <= i < |data| && TripLengthOf(data[i].input.days) != t
    ensures Samples(Bucket(data[..i + 1], t)) == Samples(Bucket(data[..i], t))
  {
    match t
    case Short => FilterStep(data, i, InShortBucket);
    case Medium => FilterStep(data, i, InMediumBucket);
    case Long => FilterStep(data, i, InLongBucket);
  }

  /** The loop of `train_multi_models`: every case's features and label are
      appended, in corpus order, to the list of its own bucket. */
  method BucketCases(data: seq<Labeled>) returns (short: seq<Sample>, medium: seq<Sample>, long: seq<Sample>)
    ensures short == Samples(Bucket(data, Short))
    ensures medium == Samples(Bucket(data, Medium))
    ensures long == Samples(Bucket(data, Long))
    ensures |short| + |medium| + |long| == |data|
  {
    short, medium, long := [], [], [];
    var i := 0;
    while i < |data|
      invariant 0 <= i <= |data|
      invariant short == Samples(Bucket(data[..i], Short))
      invariant medium == Samples(Bucket(data[..i], Medium))
      invariant long == Samples(Bucket(data[..i], Long))
    {
      var days := data[i].input.days;
      var sample := Sample(MultiFeatures(data[i].input), data[i].expected);
      if days <= 3 {
        BucketGrows(data, i, Short);
        BucketKeeps(data, i, Medium);
        BucketKeeps(data, i, Long);
        short := short + [sample];
      } else if days <= 6 {
        BucketKeeps(data, i, Short);
        BucketGrows(data, i, Medium);
        BucketKeeps(data, i, Long);
        medium := medium + [sample];
      } else {
        BucketKeeps(data, i, Short);
        BucketKeeps(data, i, Medium);
        BucketGrows(data, i, Long);
        long := long + [sample];
      }
      i := i + 1;
    }
    assert data[..|data|] == data;
    BucketSizes(data);
  }

  /** `np.array([d[0] for d in dataset])` */
  function Inputs(ss: seq<Sample>): (xs: seq<seq<real>>)
    ensures |xs| == |ss| && forall i :: 0 <= i < |ss| ==> xs[i] == ss[i].x
  {
    seq(|ss|, i requires 0 <= i < |ss| => ss[i].x)
  }

  /** `np.array([d[1] for d in dataset])` */
  function Labels(ss: seq<Sample>): (ys: seq<real>)
    ensures |ys| == |ss| && forall i :: 0 <= i < |ss| ==> ys[i] == ss[i].y
  {
    seq(|ss|, i requires 0 <= i < |ss| => ss[i].y)
  }

  /** The three optional forests, one per bucket. */
  datatype MultiModels = MultiModels(
    short: Option<VectorRegressor>, medium: Option<VectorRegressor>, long: Option<VectorRegressor>)

  function ModelFor(m: MultiModels, t: TripLength): Option<VectorRegressor>
  {
    match t
    case Short => m.short
    case Medium => m.medium
    case Long => m.long
  }

  /** The forest for one bucket's samples, or none when it is too small. */
  function TrainBucket(ss: seq<Sample>, fit: VectorFit): (m: Option<VectorRegressor>)
    ensures m.Some? <==> |ss| >= MIN_BUCKET
    ensures m.Some? ==> m.value == fit(Inputs(ss), Labels(ss), Forest(20, 8, 2, 42))
  {
    if |ss| < MIN_BUCKET then None
    else Some(fit(Inputs(ss), Labels(ss), Forest(20, 8, 2, 42)))
  }

  /** `train_multi_models`: a 20-tree forest (depth 8, leaf 2, seed 42) for
      every bucket with at least MIN_BUCKET cases, trained on exactly that
      bucket's samples; smaller buckets get no model. */
  method TrainMulti(data: seq<Labeled>, fit: VectorFit) returns (m: MultiModels)
    ensures forall t :: ModelFor(m, t).Some? <==> |Bucket(data, t)| >= MIN_BUCKET
    ensures forall t :: ModelFor(m, t).Some? ==>
              ModelFor(m, t).value ==
                fit(Inputs(Samples(Bucket(data, t))), Labels(Samples(Bucket(data, t))), Forest(20, 8, 2, 42))
  {
    var short, medium, long := BucketCases(data);
    m := MultiModels(TrainBucket(short, fit), TrainBucket(medium, fit), TrainBucket(long, fit));
    forall t
      ensures ModelFor(m, t) == TrainBucket(Samples(Bucket(data, t)), fit)
    {
      match t
      case Short =>
      case Medium =>
      case Long =>
    }
  }

  // ---------------------------------------------------------------------
  // Inverse-error weights

  /** `(pred - actual) ** 2`, entry by entry. */
  function SquaredErrors(pred: seq<real>, actual: seq<real>): (se: seq<real>)
    requires |pred| == |actual|
    ensures |se| == |pred| && AllNonNegative(se)
    ensures forall i :: 0 <= i < |pred| ==> se[i] == (pred[i] - actual[i]) * (pred[i] - actual[i])
  {
    seq(|pred|, i requires 0 <= i < |pred| => (pred[i] - actual[i]) * (pred[i] - actual[i]))
  }

  lemma {:induction false} SumNonNegative(xs: seq<real>)
    requires AllNonNegative(xs)
    ensures Sum(xs) >= 0.0
  {
    if |xs| > 0 {
      assert forall i :: 0 <= i < |xs[1..]| ==> xs[1..][i] == xs[i + 1];
      SumNonNegative(xs[1..]);
    }
  }

  /** `np.mean((pred - actual) ** 2)`: one copy per entry adds up to the total
      squared error, and it is never negative. */
  function Mse(pred: seq<real>, actual: seq<real>): (e: real)
    requires |pred| == |actual| > 0
    ensures Sum(Uniform(|pred|, e)) == Sum(SquaredErrors(pred, actual))
    ensures e >= 0.0
  {
    SumNonNegative(SquaredErrors(pred, actual));
    UniformTotal(Sum(SquaredErrors(pred, actual)), |pred|);
    Sum(SquaredErrors(pred, actual)) / (|pred| as real)
  }

  function Errors(predictionsList: seq<seq<real>>, actual: seq<real>): (es: seq<real>)
    requires |actual| > 0
    requires forall i :: 0 <= i < |predictionsList| ==> |predictionsList[i]| == |actual|
    ensures |es| == |predictionsList| && AllNonNegative(es)
    ensures forall i :: 0 <= i < |es| ==> es[i] == Mse(predictionsList[i], actual)
  {
    seq(|predictionsList|, i requires 0 <= i < |predictionsList| => Mse(predictionsList[i], actual))
  }

  function InverseErrors(errors: seq<real>): (inv: seq<real>)
    requires AllNonNegative(errors)
    ensures |inv| == |errors| && AllPositive(inv)
    ensures forall i :: 0 <= i < |errors| ==> inv[i] * (errors[i] + MSE_EPSILON) == 1.0
  {
    seq(|errors|, i requires 0 <= i < |errors| => 1.0 / (errors[i] + MSE_EPSILON))
  }

  /** A larger error never gets a larger inverse. */
  lemma InverseReversesOrder(errors: seq<real>)
    requires AllNonNegative(errors)
    ensures forall i, j :: 0 <= i < |errors| && 0 <= j < |errors| && errors[i] <= errors[j] ==>
              InverseErrors(errors)[j] <= InverseErrors(errors)[i]
  {
    var inv := InverseErrors(errors);
    forall i, j | 0 <= i < |errors| && 0 <= j < |errors| && errors[i] <= errors[j]
      ensures inv[j] <= inv[i]
    {
      var a, b := errors[i] + MSE_EPSILON, errors[j] + MSE_EPSILON;
      assert inv[i] * a == 1.0 && inv[j] * b == 1.0;
      assert inv[j] > 0.0 && a > 0.0 && a <= b;
      assert inv[j] * (b - a) >= 0.0;
      assert (inv[i] - inv[j]) * a >= 0.0;
    }
  }

  /** Every weight times its error plus the epsilon gives the same product:
      each model's weight is inversely proportional to that error. */
  predicate Balanced(ws: seq<real>, errors: seq<real>)
    requires |ws| == |errors|
  {
    forall i, j :: 0 <= i < |ws| && 0 <= j < |ws| ==>
      ws[i] * (errors[i] + MSE_EPSILON) == ws[j] * (errors[j] + MSE_EPSILON)
  }

  /** w * k == v and v * a == 1 make w * a * k one. */
  lemma Reciprocal(w: real, v: real, a: real, k: real)
    requires w * k == v && v * a == 1.0
    ensures (w * a) * k == 1.0
  {
    assert (w * a) * k == (w * k) * a;
  }

  /** Two weights that are their inverses divided by the same total give the
      same weight-times-error product. */
  lemma BalancedPair(wi: real, vi: real, ai: real, wj: real, vj: real, aj: real, k: real)
    requires wi * k == vi && vi * ai == 1.0
    requires wj * k == vj && vj * aj == 1.0
    ensures wi * ai == wj * aj
  {
    Reciprocal(wi, vi, ai, k);
    Reciprocal(wj, vj, aj, k);
    assert k != 0.0;
    assert wi * ai == 1.0 / k;
    assert wj * aj == 1.0 / k;
  }

  /** One pair of normalised inverse errors is balanced. */
  lemma InversePairBalance(errors: seq<real>, ws: seq<real>, i: int, j: int)
    requires AllNonNegative(errors)
    requires |ws| == |errors| && ProportionalTo(ws, InverseErrors(errors))
    requires 0 <= i < |ws| && 0 <= j < |ws|
    ensures ws[i] * (errors[i] + MSE_EPSILON) == ws[j] * (errors[j] + MSE_EPSILON)
  {
    var inv := InverseErrors(errors);
    var k := Sum(inv);
    assert ws[i] * k == inv[i] && ws[j] * k == inv[j];
    BalancedPair(ws[i], inv[i], errors[i] + MSE_EPSILON,
                 ws[j], inv[j], errors[j] + MSE_EPSILON, k);
  }

  /** Dividing the inverse errors by their total balances them. */
  lemma InverseWeightsBalance(errors: seq<real>, ws: seq<real>)
    requires AllNonNegative(errors)
    requires |ws| == |errors| && ProportionalTo(ws, InverseErrors(errors))
    ensures Balanced(ws, errors)
  {
    forall i, j | 0 <= i < |ws| && 0 <= j < |ws|
      ensures ws[i] * (errors[i] + MSE_EPSILON) == ws[j] * (errors[j] + MSE_EPSILON)
    {
      InversePairBalance(errors, ws, i, j);
    }
  }

  /** `calculate_ensemble_weights`: [1.0] for an empty list; otherwise each
      model's inverse error (`1 / (mse + 1e-6)`) divided by the total of the
      inverses. So the weights are positive, sum to one and are proportional
      to the inverse errors: a weight times its model's error plus the
      epsilon is the same for every model, and a model with no larger error
      never gets a smaller weight. */
  function EnsembleWeights(predictionsList: seq<seq<real>>, actual: seq<real>): (ws: seq<real>)
    requires |predictionsList| > 0 ==> |actual| > 0
    requires forall i :: 0 <= i < |predictionsList| ==> |predictionsList[i]| == |actual|
    ensures |predictionsList| == 0 ==> ws == [1.0]
    ensures |predictionsList| > 0 ==> |ws| == |predictionsList| && AllPositive(ws) && Sum(ws) == 1.0
    ensures |predictionsList| > 0 ==>
              |ws| == |predictionsList| && ProportionalTo(ws, InverseErrors(Errors(predictionsList, actual)))
    ensures |predictionsList| > 0 ==>
              |ws| == |predictionsList| && Balanced(ws, Errors(predictionsList, actual))
    ensures |predictionsList| > 0 ==>
              forall i, j :: (0 <= i < |ws| && 0 <= j < |ws|
                && Mse(predictionsList[i], actual) <= Mse(predictionsList[j], actual)) ==> ws[j] <= ws[i]
  {
    if |predictionsList| == 0 then [1.0]
    else
      var errors := Errors(predictionsList, actual);
      InverseReversesOrder(errors);
      InverseWeightsBalance(errors, Normalize(InverseErrors(errors)));
      Normalize(InverseErrors(errors))
  }

  // ---------------------------------------------------------------------
  // Prediction

  /** One model's place in the blend: its bucket, the model and its weight. */
  datatype Vote = Vote(bucket: TripLength, model: VectorRegressor, weight: real)

  /** The secondary entry for bucket b: present when b is loaded and is not
      the case's own bucket. */
  function Secondary(m: MultiModels, t: TripLength, b: TripLength): (vs: seq<Vote>)
    ensures |vs| <= 1
    ensures |vs| == 1 <==> b != t && ModelFor(m, b).Some?
    ensures |vs| == 1 ==> vs[0] == Vote(b, ModelFor(m, b).value, SECONDARY_SHARE)
  {
    if b != t && ModelFor(m, b).Some? then [Vote(b, ModelFor(m, b).value, SECONDARY_SHARE)] else []
  }

  function Buckets(vs: seq<Vote>): (bs: seq<TripLength>)
    ensures |bs| == |vs| && forall i :: 0 <= i < |vs| ==> bs[i] == vs[i].bucket
  {
    seq(|vs|, i requires 0 <= i < |vs| => vs[i].bucket)
  }

  lemma BucketsAppend(a: seq<Vote>, b: seq<Vote>)
    ensures Buckets(a + b) == Buckets(a) + Buckets(b)
  {
  }

  /** The case's own bucket, present when it is loaded. */
  function Own(m: MultiModels, t: TripLength): (vs: seq<Vote>)
    ensures |vs| <= 1
    ensures |vs| == 1 <==> ModelFor(m, t).Some?
    ensures |vs| == 1 ==> vs[0] == Vote(t, ModelFor(m, t).value, PRIMARY_SHARE)
  {
    if ModelFor(m, t).Some? then [Vote(t, ModelFor(m, t).value, PRIMARY_SHARE)] else []
  }

  /** The predictions and weights of `predict_multi_model`, in order: the
      case's own bucket first with PRIMARY_SHARE when it is loaded, then
      every other loaded bucket in short, medium, long order with
      SECONDARY_SHARE. */
  function Votes(m: MultiModels, t: TripLength): (vs: seq<Vote>)
    ensures forall i :: 0 <= i < |vs| ==> ModelFor(m, vs[i].bucket) == Some(vs[i].model)
    ensures forall i :: 0 <= i < |vs| ==>
              vs[i].weight == (if vs[i].bucket == t then PRIMARY_SHARE else SECONDARY_SHARE)
    ensures ModelFor(m, t).Some? ==> |vs| > 0 && vs[0].bucket == t
    ensures |vs| == 0 <==> m == MultiModels(None, None, None)
  {
    Own(m, t) + Secondary(m, t, Short) + Secondary(m, t, Medium) + Secondary(m, t, Long)
  }

  /** How often bucket b appears in a list of at most one vote. */
  lemma CountInSingle(vs: seq<Vote>, b: TripLength)
    requires |vs| <= 1
    ensures multiset(Buckets(vs))[b] == (if |vs| == 1 && vs[0].bucket == b then 1 else 0)
  {
    if |vs| == 1 {
      assert Buckets(vs) == [vs[0].bucket];
    } else {
      assert Buckets(vs) == [];
    }
  }

  /** Every loaded model contributes exactly once and no other model does. */
  lemma VotesCoverLoaded(m: MultiModels, t: TripLength)
    ensures forall b :: multiset(Buckets(Votes(m, t)))[b] == (if ModelFor(m, b).Some? then 1 else 0)
  {
    var own, s, md, l := Own(m, t), Secondary(m, t, Short), Secondary(m, t, Medium), Secondary(m, t, Long);
    BucketsAppend(own, s);
    BucketsAppend(own + s, md);
    BucketsAppend(own + s + md, l);
    var bs := Buckets(Votes(m, t));
    assert bs == Buckets(own) + Buckets(s) + Buckets(md) + Buckets(l);
    var total := multiset(Buckets(own)) + multiset(Buckets(s)) + multiset(Buckets(md)) + multiset(Buckets(l));
    assert multiset(bs) == total;
    forall b
      ensures total[b] == (if ModelFor(m, b).Some? then 1 else 0)
    {
      CountInSingle(own, b);
      CountInSingle(s, b);
      CountInSingle(md, b);
      CountInSingle(l, b);
    }
  }

  function Predictions(vs: seq<Vote>, v: seq<real>): (ps: seq<real>)
    ensures |ps| == |vs| && forall i :: 0 <= i < |vs| ==> ps[i] == vs[i].model(v)
  {
    seq(|vs|, i requires 0 <= i < |vs| => vs[i].model(v))
  }

  function Weights(vs: seq<Vote>): (ws: seq<real>)
    ensures |ws| == |vs| && forall i :: 0 <= i < |vs| ==> ws[i] == vs[i].weight
  {
    seq(|vs|, i requires 0 <= i < |vs| => vs[i].weight)
  }

  /** `predict_multi_model`: with at least one forest loaded, the normalised
      weighted blend of every loaded forest's prediction: the result times
      the total weight is the weighted sum of the predictions, and it lies
      between the smallest and the largest of them; with none,
      `days * 100 + miles * 0.6 + receipts * 0.8`. */
  function PredictMulti(c: Case, m: MultiModels): (r: real)
    ensures var vs := Votes(m, TripLengthOf(c.days));
            |vs| > 0 ==>
              var ps := Predictions(vs, MultiFeatures(c));
              WeightedMeanOf(r, ps, Weights(vs)) && Min(ps) <= r <= Max(ps)
    ensures m == MultiModels(None, None, None) ==>
              r == (c.days as real) * 100.0 + c.miles * 0.6 + c.receipts * 0.8
  {
    var vs := Votes(m, TripLengthOf(c.days));
    if |vs| > 0 then
      WeightedBlend(Predictions(vs, MultiFeatures(c)), Weights(vs))
    else
      (c.days as real) * 100.0 + c.miles * 0.6 + c.receipts * 0.8
  }

  /** With every forest loaded the normalised weights are 0.7, 0.15, 0.15,
      the case's own bucket first. */
  lemma AllLoadedShares(m: MultiModels, t: TripLength)
    requires m.short.Some? && m.medium.Some? && m.long.Some?
    ensures |Votes(m, t)| == 3 && Votes(m, t)[0].bucket == t
    ensures Normalize(Weights(Votes(m, t))) == [0.7, 0.15, 0.15]
  {
    var vs := Votes(m, t);
    var rest := Secondary(m, t, Short) + Secondary(m, t, Medium) + Secondary(m, t, Long);
    assert vs == Own(m, t) + rest;
    assert |rest| == 2 && rest[0].weight == SECONDARY_SHARE && rest[1].weight == SECONDARY_SHARE;
    var ws := Weights(vs);
    assert ws == [0.7, 0.15, 0.15];
    assert Sum([0.15]) == 0.15 by { assert [0.15][1..] == []; }
    assert Sum([0.15, 0.15]) == 0.3 by { assert [0.15, 0.15][1..] == [0.15]; }
    assert ws[1..] == [0.15, 0.15];
    assert Sum(ws) == 1.0;
    var nw := Normalize(ws);
    assert nw[0] * 1.0 == ws[0] && nw[1] * 1.0 == ws[1] && nw[2] * 1.0 == ws[2];
  }

  /** When the case's own forest is loaded it never gets a smaller normalised
      weight than any other contributor. */
  lemma PrimaryOutweighs(m: MultiModels, t: TripLength)
    requires ModelFor(m, t).Some?
    ensures var ws := Weights(Votes(m, t));
            forall i :: 0 <= i < |ws| ==> Normalize(ws)[i] <= Normalize(ws)[0]
  {
  }

  /** With the case's own forest and exactly one other loaded, the result is
      0.7 of the own forest's prediction plus 0.15 of the other's, divided by
      the total weight 0.85. */
  lemma OwnAndOneOther(c: Case, m: MultiModels, b: TripLength)
    requires ModelFor(m, TripLengthOf(c.days)).Some?
    requires b != TripLengthOf(c.days) && ModelFor(m, b).Some?
    requires forall u :: u != b && u != TripLengthOf(c.days) ==> ModelFor(m, u).None?
    ensures var v := MultiFeatures(c);
            var p, q := ModelFor(m, TripLengthOf(c.days)).value(v), ModelFor(m, b).value(v);
            PredictMulti(c, m) * 0.85 == 0.7 * p + 0.15 * q
  {
    var t := TripLengthOf(c.days);
    var v := MultiFeatures(c);
    var vs := Votes(m, t);
    var other := Vote(b, ModelFor(m, b).value, SECONDARY_SHARE);
    assert Secondary(m, t, Short) + Secondary(m, t, Medium) + Secondary(m, t, Long) == [other] by {
      match b
      case Short =>
        assert Secondary(m, t, Medium) == [] && Secondary(m, t, Long) == [];
      case Medium =>
        assert Secondary(m, t, Short) == [] && Secondary(m, t, Long) == [];
      case Long =>
        assert Secondary(m, t, Short) == [] && Secondary(m, t, Medium) == [];
    }
    assert vs == [Vote(t, ModelFor(m, t).value, PRIMARY_SHARE), other];
    var ps, ws := Predictions(vs, v), Weights(vs);
    assert ps == [ModelFor(m, t).value(v), ModelFor(m, b).value(v)];
    assert ws == [0.7, 0.15];
    assert Sum(ws) == 0.85 by { assert ws[1..] == [0.15] && [0.15][1..] == []; }
    var p, q := ps[0], ps[1];
    assert Dot([q], [0.15]) == q * 0.15 by { assert [q][1..] == [] && [0.15][1..] == []; }
    assert Dot(ps, ws) == p * 0.7 + q * 0.15 by { assert ps[1..] == [q] && ws[1..] == [0.15]; }
    assert WeightedMeanOf(PredictMulti(c, m), ps, ws);
  }

  /** With exactly one forest loaded the blend returns that forest's
      prediction, whichever bucket the case falls in. */
  lemma SingleModelAnswers(c: Case, m: MultiModels, b: TripLength)
    requires ModelFor(m, b).Some?
    requires forall t :: t != b ==> ModelFor(m, t).None?
    ensures PredictMulti(c, m) == ModelFor(m, b).value(MultiFeatures(c))
  {
    var vs := Votes(m, TripLengthOf(c.days));
    VotesCoverLoaded(m, TripLengthOf(c.days));
    assert multiset(Buckets(vs)) == multiset{b};
    assert |vs| == 1;
    var ps := Predictions(vs, MultiFeatures(c));
    assert ps[0] == ModelFor(m, b).value(MultiFeatures(c)) by {
      assert Buckets(vs)[0] in multiset(Buckets(vs));
    }
    assert Min(ps) == ps[0] && Max(ps) == ps[0];
  }
}
