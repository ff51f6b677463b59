/** scripts/calculate_fast.py: a scalar feature builder that returns a plain
    19-entry list, one tree per group trained on those lists, and a
    prediction that routes by the receipt threshold. */
module CalculateFast {
  import opened Common
  import opened Stats
  import opened Partition
  import opened Transform

  /** A fitted model that reads a positional feature list. */
  type VectorRegressor = seq<real> -> real

  type VectorFit = (seq<seq<real>>, seq<real>, Hyper) -> VectorRegressor

  /** `x / days if days > 0 else 0` */
  function GuardedRatio(x: real, days: int): (r: real)
    ensures days > 0 ==> r * (days as real) == x
    ensures days <= 0 ==> r == 0.0
  {
    if days > 0 then x / (days as real) else 0.0
  }

  /** The bands written with `min` and `max`: the same values calculate.py's
      `clip` calls produce, for every mileage. */
  function ScalarTiers(miles: real): (t: Tiers)
    ensures t == MileageTiers(miles)
  {
    Tiers(
      MinOf(miles, 100.0),
      MaxOf(0.0, MinOf(miles - 100.0, 400.0)),
      MaxOf(0.0, miles - 500.0))
  }

  /** `simple_feature_engineering` as a named row. Total: a non-positive day
      count gives zero ratios instead of a division by zero. */
  function ScalarFeatures(c: Case): (f: FeatureRow)
    ensures f.days == c.days && f.miles == c.miles && f.receipts == c.receipts
    ensures c.days > 0 ==> f.milesPerDay * (c.days as real) == c.miles
    ensures c.days > 0 ==> f.receiptsPerDay * (c.days as real) == c.receipts
    ensures c.days <= 0 ==> f.milesPerDay == 0.0 && f.receiptsPerDay == 0.0
    ensures f.fourDayBonus == FourDayBonus(c.days)
    ensures f.receiptMultiplier == ReceiptMultiplier(c.days)
    ensures f.adjustedReceipts == AdjustedReceipts(c.receipts)
    ensures f.multipliedReceipts == f.adjustedReceipts * f.receiptMultiplier
    ensures Tiers(f.tier1, f.tier2, f.tier3) == MileageTiers(c.miles)
    ensures f.efficiencyBonusRange == EfficiencyFlag(f.milesPerDay)
    ensures f.daysXMiles == (c.days as real) * c.miles
    ensures CategoryFlags(f) == OneHot(TripCategory(c.days, f.milesPerDay))
    ensures CategoryOfFlags(CategoryFlags(f)) == Some(TripCategory(c.days, f.milesPerDay))
  {
    var mpd := GuardedRatio(c.miles, c.days);
    var cat := TripCategory(c.days, mpd);
    OneHotRoundTrip(cat);
    MakeRow(c.days, c.miles, c.receipts, mpd, GuardedRatio(c.receipts, c.days),
            ReceiptMultiplier(c.days), AdjustedReceipts(c.receipts),
            ScalarTiers(c.miles), cat)
  }

  /** With a non-positive day count no trip is quick or sweet-spot: the ratio
      guard makes every such case low-efficiency. */
  lemma NonPositiveDaysAreLowEfficiency(c: Case)
    requires c.days <= 0
    ensures TripCategory(c.days, ScalarFeatures(c).milesPerDay) == LowEfficiency
    ensures ScalarFeatures(c).receiptMultiplier == 1.0
  {
  }

  /** For every non-negative day count whose ratios are finite, the scalar
      builder and calculate.py's frame transform produce the same row. */
  lemma ScalarMatchesRowWise(c: Case)
    requires c.days >= 0 && FiniteRatios(c)
    ensures ScalarFeatures(c) == RowFeatures(c)
  {
  }

  /** A negative day count parts the two: the frame divides by it, the
      scalar guard reads 0. */
  lemma ScalarDiffersOnNegativeDays()
    ensures RowFeatures(Case(-1, 100.0, 0.0)).milesPerDay == -100.0
    ensures ScalarFeatures(Case(-1, 100.0, 0.0)).milesPerDay == 0.0
  {
  }

  /** The returned list, in the order of `simple_feature_engineering`. */
  function FeatureVector(f: FeatureRow): (v: seq<real>)
    ensures |v| == 19
    ensures v[..3] == [f.days as real, f.miles, f.receipts]
  {
    [f.days as real, f.miles, f.receipts, f.milesPerDay, f.receiptsPerDay,
     f.fourDayBonus as real, f.receiptMultiplier, f.adjustedReceipts, f.multipliedReceipts,
     f.tier1, f.tier2, f.tier3, f.efficiencyBonusRange as real, f.daysXMiles,
     f.catBalanced as real, f.catLongHaul as real, f.catLowEfficiency as real,
     f.catQuickTripHighMiles as real, f.catSweetSpotEfficiency as real]
  }

  /** Reads the named row back from a 19-entry list. */
  function DecodeVector(v: seq<real>): FeatureRow
    requires |v| == 19
  {
    FeatureRow(
      v[0].Floor, v[1], v[2], v[3], v[4], v[5].Floor, v[6], v[7], v[8],
      v[9], v[10], v[11], v[12].Floor, v[13],
      v[14].Floor, v[15].Floor, v[16].Floor, v[17].Floor, v[18].Floor)
  }

  /** The list is a lossless fixed-order encoding: every named field sits at
      its own position and can be read back. */
  lemma VectorRoundTrip(f: FeatureRow)
    ensures DecodeVector(FeatureVector(f)) == f
  {
  }

  lemma SumOfFive(a: real, b: real, c: real, d: real, e: real)
    ensures Sum([a, b, c, d, e]) == a + b + c + d + e
  {
    assert Sum([e]) == e by { assert [e][1..] == []; }
    assert Sum([d, e]) == d + e by { assert [d, e][1..] == [e]; }
    assert Sum([c, d, e]) == c + d + e by { assert [c, d, e][1..] == [d, e]; }
    assert Sum([b, c, d, e]) == b + c + d + e by { assert [b, c, d, e][1..] == [c, d, e]; }
    assert [a, b, c, d, e][1..] == [b, c, d, e];
  }

  /** Five indicator columns that total one still total one as reals. */
  lemma FlagsAsReals(flags: seq<int>)
    requires |flags| == 5 && FlagTotal(flags) == 1
    ensures flags[0] as real + flags[1] as real + flags[2] as real + flags[3] as real
            + flags[4] as real == 1.0
  {
    var s1, s2, s3, s4 := flags[1..], flags[2..], flags[3..], flags[4..];
    assert s4[1..] == [];
    assert s3[1..] == s4 && s2[1..] == s3 && s1[1..] == s2 && flags[1..] == s1;
    assert FlagTotal(s4) == flags[4];
    assert FlagTotal(s3) == flags[3] + flags[4];
    assert FlagTotal(s2) == flags[2] + flags[3] + flags[4];
    assert FlagTotal(s1) == flags[1] + flags[2] + flags[3] + flags[4];
  }

  /** The five trailing entries of the list are the row's indicator columns:
      each 0 or 1 and, for a one-hot row, summing to one. */
  lemma EncodedCategories(f: FeatureRow)
    requires AllBits(CategoryFlags(f)) && FlagTotal(CategoryFlags(f)) == 1
    ensures forall i :: 14 <= i < 19 ==> FeatureVector(f)[i] == 0.0 || FeatureVector(f)[i] == 1.0
    ensures Sum(FeatureVector(f)[14..]) == 1.0
  {
    var flags := CategoryFlags(f);
    var v := FeatureVector(f);
    assert forall i :: 14 <= i < 19 ==> v[i] == flags[i - 14] as real;
    assert v[14..] == [flags[0] as real, flags[1] as real, flags[2] as real,
                       flags[3] as real, flags[4] as real];
    SumOfFive(flags[0] as real, flags[1] as real, flags[2] as real, flags[3] as real, flags[4] as real);
    FlagsAsReals(flags);
  }

  /** `simple_feature_engineering(days, miles, receipts)`: 19 entries, the
      raw inputs first, and exactly one of the five trailing category
      indicators set, the one the first-match chain picks. */
  function SimpleFeatureEngineering(c: Case): (v: seq<real>)
    ensures |v| == 19
    ensures v[0] == c.days as real && v[1] == c.miles && v[2] == c.receipts
    ensures forall i :: 14 <= i < 19 ==> v[i] == 0.0 || v[i] == 1.0
    ensures Sum(v[14..]) == 1.0
    ensures DecodeVector(v) == ScalarFeatures(c)
  {
    var f := ScalarFeatures(c);
    EncodedCategories(f);
    VectorRoundTrip(f);
    FeatureVector(f)
  }

  /** The feature lists of a subset, in order. */
  function Vectors(data: seq<Labeled>): (xs: seq<seq<real>>)
    ensures |xs| == |data|
    ensures forall i :: 0 <= i < |data| ==> xs[i] == SimpleFeatureEngineering(data[i].input)
  {
    seq(|data|, i requires 0 <= i < |data| => SimpleFeatureEngineering(data[i].input))
  }

  lemma AppendCase(s: seq<Labeled>, x: Labeled)
    ensures Vectors(s + [x]) == Vectors(s) + [SimpleFeatureEngineering(x.input)]
    ensures Targets(s + [x]) == Targets(s) + [x.expected]
  {
    assert forall i :: 0 <= i < |s| ==> (s + [x])[i] == s[i];
  }

  lemma FilterStep(data: seq<Labeled>, i: int, p: Labeled -> bool)
    requires 0 <= i < |data|
    ensures Filter(data[..i + 1], p) == Filter(data[..i], p) + (if p(data[i]) then [data[i]] else [])
  {
    assert data[..i + 1][..i] == data[..i];
  }

  /** One more corpus case extends exactly one group's lists. */
  lemma SplitStep(data: seq<Labeled>, i: int)
    requires 0 <= i < |data|
    ensures var x, pre, post := data[i], data[..i], data[..i + 1];
            if x.input.receipts > OUTLIER_THRESHOLD then
              Vectors(OutlierCases(post)) == Vectors(OutlierCases(pre)) + [SimpleFeatureEngineering(x.input)]
              && Targets(OutlierCases(post)) == Targets(OutlierCases(pre)) + [x.expected]
              && MainCases(post) == MainCases(pre)
            else
              Vectors(MainCases(post)) == Vectors(MainCases(pre)) + [SimpleFeatureEngineering(x.input)]
              && Targets(MainCases(post)) == Targets(MainCases(pre)) + [x.expected]
              && OutlierCases(post) == OutlierCases(pre)
  {
    FilterStep(data, i, InMainGroup);
    FilterStep(data, i, InOutlierGroup);
    AppendCase(OutlierCases(data[..i]), data[i]);
    AppendCase(MainCases(data[..i]), data[i]);
  }

  /** The loop of `train_fast_model`: features for every case, appended to
      the outlier lists exactly when receipts exceed the threshold and to
      the main lists otherwise, in corpus order. */
  method SplitTrainingSet(data: seq<Labeled>)
    returns (mainX: seq<seq<real>>, mainY: seq<real>, outlierX: seq<seq<real>>, outlierY: seq<real>)
    ensures mainX == Vectors(MainCases(data)) && mainY == Targets(MainCases(data))
    ensures outlierX == Vectors(OutlierCases(data)) && outlierY == Targets(OutlierCases(data))
    ensures |mainX| + |outlierX| == |data|
  {
    mainX, mainY, outlierX, outlierY := [], [], [], [];
    var i := 0;
    while i < |data|
      invariant 0 <= i <= |data|
      invariant mainX == Vectors(MainCases(data[..i])) && mainY == Targets(MainCases(data[..i]))
      invariant outlierX == Vectors(OutlierCases(data[..i]))
      invariant outlierY == Targets(OutlierCases(data[..i]))
    {
      var x := data[i];
      var features := SimpleFeatureEngineering(x.input);
      SplitStep(data, i);
      if x.input.receipts > OUTLIER_THRESHOLD {
        outlierX := outlierX + [features];
        outlierY := outlierY + [x.expected];
      } else {
        mainX := mainX + [features];
        mainY := mainY + [x.expected];
      }
      i := i + 1;
    }
    assert data[..|data|] == data;
    PrimarySplitIsPartition(data);
    assert |multiset(MainCases(data))| + |multiset(OutlierCases(data))| == |multiset(data)|;
  }

  datatype FastModels = FastModels(main: VectorRegressor, outlier: VectorRegressor)

  /** `train_fast_model`: a depth-8, leaf-5 tree on the main lists and a
      depth-6, leaf-3 tree on the outlier lists, both with seed 42. */
  method TrainFastModel(data: seq<Labeled>, fit: VectorFit) returns (m: FastModels)
    ensures m.main == fit(Vectors(MainCases(data)), Targets(MainCases(data)), Tree(8, 5, 42))
    ensures m.outlier == fit(Vectors(OutlierCases(data)), Targets(OutlierCases(data)), Tree(6, 3, 42))
  {
    var mainX, mainY, outlierX, outlierY := SplitTrainingSet(data);
    m := FastModels(fit(mainX, mainY, Tree(8, 5, 42)), fit(outlierX, outlierY, Tree(6, 3, 42)));
  }

  /** `predict_fast`: the outlier tree answers exactly when receipts exceed
      the threshold, the same test that placed training cases. */
  function PredictFast(c: Case, m: FastModels): (r: real)
    ensures c.receipts > OUTLIER_THRESHOLD ==> r == m.outlier(SimpleFeatureEngineering(c))
    ensures c.receipts <= OUTLIER_THRESHOLD ==> r == m.main(SimpleFeatureEngineering(c))
  {
    if PrimaryGroup(c) == OutlierGroup then m.outlier(SimpleFeatureEngineering(c))
    else m.main(SimpleFeatureEngineering(c))
  }
}
