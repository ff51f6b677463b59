/** calculate_ultra_fast.py: the column-wise feature transformation built on
    `np.select`, `np.where` and `np.clip`, and the batch predictor that
    splits a whole frame by the outlier mask, averages each group's ensemble
    and writes the means back into their rows. */
module UltraFast {
  import opened Common
  import opened Stats
  import opened Partition
  import opened Transform

  /** Index of the first true condition, or |conds| when none holds. */
  function FirstTrue(conds: seq<bool>): (k: nat)
    ensures k <= |conds|
    ensures forall j :: 0 <= j < k ==> !conds[j]
    ensures k < |conds| ==> conds[k]
  {
    if |conds| == 0 then 0
    else if conds[0] then 0
    else 1 + FirstTrue(conds[1..])
  }

  /** `np.select(conds, choices, default)` for one row: the choice paired with
      the first condition that holds, else the default. */
  function Select<T>(conds: seq<bool>, choices: seq<T>, default: T): (r: T)
    requires |conds| == |choices|
    ensures FirstTrue(conds) < |conds| ==> r == choices[FirstTrue(conds)]
    ensures FirstTrue(conds) == |conds| ==> r == default
  {
    if |conds| == 0 then default
    else if conds[0] then choices[0]
    else Select(conds[1..], choices[1..], default)
  }

  /** The receipt multiplier as a three-way `np.select` with default 1.0. */
  function SelectMultiplier(days: int): real
  {
    Select([days == 1, days == 5, days >= 8], [-0.5, 1.04, 0.02], 1.0)
  }

  /** The `np.select` multiplier agrees with the if-chain for every day count. */
  lemma SelectMultiplierMatchesChain(days: int)
    ensures SelectMultiplier(days) == ReceiptMultiplier(days)
  {
    var conds := [days == 1, days == 5, days >= 8];
    var choices := [-0.5, 1.04, 0.02];
    var k := FirstTrue(conds);
    assert conds[0] == (days == 1) && conds[1] == (days == 5) && conds[2] == (days >= 8);
    assert choices[0] == -0.5 && choices[1] == 1.04 && choices[2] == 0.02;
    assert SelectMultiplier(days) == Select(conds, choices, 1.0);
    if days == 1 {
      assert k == 0;
    } else if days == 5 {
      assert !conds[0];
      assert k == 1;
    } else if days >= 8 {
      assert k == 2;
    } else {
      assert k == 3;
    }
  }

  /** The trip label as a four-way `np.select` with default 'balanced'. */
  function SelectCategory(days: int, milesPerDay: real): Category
  {
    Select(
      [QuickHighMiles(days, milesPerDay), days >= 8, milesPerDay < 50.0, InSweetSpot(milesPerDay)],
      [QuickTripHighMiles, LongHaul, LowEfficiency, SweetSpotEfficiency],
      Balanced)
  }

  /** The `np.select` label equals the row-wise first-match chain everywhere. */
  lemma SelectCategoryMatchesChain(days: int, milesPerDay: real)
    ensures SelectCategory(days, milesPerDay) == TripCategory(days, milesPerDay)
  {
    var c0, c1, c2, c3 := QuickHighMiles(days, milesPerDay), days >= 8, milesPerDay < 50.0,
                          InSweetSpot(milesPerDay);
    var conds := [c0, c1, c2, c3];
    var choices := [QuickTripHighMiles, LongHaul, LowEfficiency, SweetSpotEfficiency];
    var k := FirstTrue(conds);
    assert conds[0] == c0 && conds[1] == c1 && conds[2] == c2 && conds[3] == c3;
    assert choices[0] == QuickTripHighMiles && choices[1] == LongHaul;
    assert choices[2] == LowEfficiency && choices[3] == SweetSpotEfficiency;
    assert SelectCategory(days, milesPerDay) == Select(conds, choices, Balanced);
    if c0 {
      assert k == 0;
    } else if c1 {
      assert !conds[0];
      assert k == 1;
    } else if c2 {
      assert !conds[0] && !conds[1];
      assert k == 2;
    } else if c3 {
      assert !conds[0] && !conds[1] && !conds[2];
      assert k == 3;
    } else {
      assert k == 4;
    }
  }

  /** The bands with `np.clip`: the first band is clipped below at 0 too,
      unlike calculate.py, so the bands agree only for miles >= 0. */
  function ClippedTiers(miles: real): (t: Tiers)
    ensures 0.0 <= t.t1 <= 100.0 && 0.0 <= t.t2 <= 400.0 && t.t3 >= 0.0
    ensures miles >= 0.0 ==> t == MileageTiers(miles)
    ensures miles >= 0.0 ==> t.t1 + t.t2 + t.t3 == miles
    ensures miles < 0.0 ==> t == Tiers(0.0, 0.0, 0.0)
  {
    Tiers(
      Clip(miles, 0.0, 100.0),
      Clip(miles - 100.0, 0.0, 400.0),
      MaxOf(miles - 500.0, 0.0))
  }

  /** Vectorised `feature_engineering`, row by row, on a case whose ratios
      are finite. */
  function VectorisedFeatures(c: Case): FeatureRow
    requires FiniteRatios(c)
  {
    var mpd := PerDay(c.miles, c.days);
    MakeRow(c.days, c.miles, c.receipts, mpd, PerDay(c.receipts, c.days),
            SelectMultiplier(c.days), AdjustedReceipts(c.receipts),
            ClippedTiers(c.miles), SelectCategory(c.days, mpd))
  }

  /** For every mileage of at least zero the vectorised transform yields
      exactly the row calculate.py computes. */
  lemma VectorisedMatchesRowWise(c: Case)
    requires FiniteRatios(c) && c.miles >= 0.0
    ensures VectorisedFeatures(c) == RowFeatures(c)
  {
    var mpd := PerDay(c.miles, c.days);
    SelectMultiplierMatchesChain(c.days);
    SelectCategoryMatchesChain(c.days, mpd);
  }

  /** Below zero miles the copies part: the clipped first band reads 0 where
      calculate.py keeps the negative mileage. */
  lemma VectorisedDiffersOnNegativeMiles()
    ensures VectorisedFeatures(Case(1, -10.0, 0.0)).tier1 == 0.0
    ensures RowFeatures(Case(1, -10.0, 0.0)).tier1 == -10.0
  {
  }

  /** Every case of the batch has finite ratios. */
  predicate AllValid(cases: seq<Case>)
  {
    forall i :: 0 <= i < |cases| ==> FiniteRatios(cases[i])
  }

  /** The whole frame transformed at once. */
  function BatchFeatures(cases: seq<Case>): (rows: seq<FeatureRow>)
    requires AllValid(cases)
    ensures |rows| == |cases|
    ensures forall i :: 0 <= i < |cases| ==> rows[i] == VectorisedFeatures(cases[i])
  {
    seq(|cases|, i requires 0 <= i < |cases| => VectorisedFeatures(cases[i]))
  }

  /** `df['total_receipts_amount'] > OUTLIER_THRESHOLD` over the batch. */
  function OutlierMask(cases: seq<Case>): (mask: seq<bool>)
    ensures |mask| == |cases|
    ensures forall i :: 0 <= i < |cases| ==> (mask[i] <==> PrimaryGroup(cases[i]) == OutlierGroup)
  {
    seq(|cases|, i requires 0 <= i < |cases| => cases[i].receipts > OUTLIER_THRESHOLD)
  }

  /** Row-wise mean over a group's ensemble, `np.mean(preds, axis=1)`. */
  function GroupMeans(models: seq<Regressor>, rows: seq<FeatureRow>): (ms: seq<real>)
    requires |models| > 0
    ensures |ms| == |rows|
    ensures forall k :: 0 <= k < |rows| ==> ms[k] == Mean(Outputs(models, rows[k]))
  {
    seq(|rows|, k requires 0 <= k < |rows| => Mean(Outputs(models, rows[k])))
  }

  /** `predictions[mask == flag] = values`: the values are written, in order,
      into the rows the mask selects; every other row keeps its value. */
  method Scatter(target: seq<real>, mask: seq<bool>, flag: bool, values: seq<real>)
    returns (out: seq<real>)
    requires |target| == |mask|
    requires |values| == Count(mask, flag)
    ensures |out| == |target|
    ensures forall j :: 0 <= j < |mask| && mask[j] == flag ==>
              Rank(mask, j, flag) < |values| && out[j] == values[Rank(mask, j, flag)]
    ensures forall j :: 0 <= j < |mask| && mask[j] != flag ==> out[j] == target[j]
  {
    out := target;
    var k := 0;
    var i := 0;
    assert mask[..0] == [];
    while i < |mask|
      invariant 0 <= i <= |mask|
      invariant |out| == |target|
      invariant k == Rank(mask, i, flag)
      invariant forall j :: 0 <= j < i && mask[j] == flag ==>
                  Rank(mask, j, flag) < |values| && out[j] == values[Rank(mask, j, flag)]
      invariant forall j :: 0 <= j < |mask| && (i <= j || mask[j] != flag) ==> out[j] == target[j]
    {
      RankStep(mask, i, flag);
      if mask[i] == flag {
        out := out[i := values[k]];
        k := k + 1;
      }
      i := i + 1;
    }
  }

  /** The ensemble `single_predict` uses for a case. */
  function Chosen(c: Case, mainModels: seq<Regressor>, outlierModels: seq<Regressor>): seq<Regressor>
  {
    if PrimaryGroup(c) == OutlierGroup then outlierModels else mainModels
  }

  /** `single_predict`: fails when the routed ensemble is empty, then when
      the row holds an infinite ratio the models refuse, otherwise the mean
      of the ensemble's members on the case's row: one copy of the answer
      per member adds up to the members' outputs. */
  function SinglePredict(c: Case, mainModels: seq<Regressor>, outlierModels: seq<Regressor>)
    : (r: Result<real>)
    ensures r == Err(ModelsNotFound) <==> |Chosen(c, mainModels, outlierModels)| == 0
    ensures r == Err(NonFiniteInput) <==> |Chosen(c, mainModels, outlierModels)| > 0 && !FiniteRatios(c)
    ensures r.Err? <==> |Chosen(c, mainModels, outlierModels)| == 0 || !FiniteRatios(c)
    ensures r.Ok? ==> FiniteRatios(c)
    ensures FiniteRatios(c) && r.Ok? ==>
      var ps := Outputs(Chosen(c, mainModels, outlierModels), VectorisedFeatures(c));
      Sum(Uniform(|ps|, r.value)) == Sum(ps) && Min(ps) <= r.value <= Max(ps)
  {
    var models := Chosen(c, mainModels, outlierModels);
    if |models| == 0 then Err(ModelsNotFound)
    else if !FiniteRatios(c) then Err(NonFiniteInput)
    else Ok(Mean(Outputs(models, VectorisedFeatures(c))))
  }

  /** `batch_predict`: fails unless both ensembles hold a model; then when the
      batch is empty, since a frame built from no records has none of the
      input columns to select; then when any row of the frame holds an
      infinite ratio. Otherwise one prediction per case, in input order, and
      each equals what `single_predict` returns for that case alone. */
  method BatchPredict(cases: seq<Case>, mainModels: seq<Regressor>, outlierModels: seq<Regressor>)
    returns (r: Result<seq<real>>)
    ensures r == Err(ModelsNotFound) <==> |mainModels| == 0 || |outlierModels| == 0
    ensures r == Err(MissingColumns) <==> |mainModels| > 0 && |outlierModels| > 0 && |cases| == 0
    ensures r.Err? <==> |mainModels| == 0 || |outlierModels| == 0 || |cases| == 0 || !AllValid(cases)
    ensures r.Ok? ==> |r.value| == |cases|
    ensures r.Ok? ==> forall i :: 0 <= i < |cases| ==>
              SinglePredict(cases[i], mainModels, outlierModels) == Ok(r.value[i])
  {
    if |mainModels| == 0 || |outlierModels| == 0 {
      return Err(ModelsNotFound);
    }
    if |cases| == 0 {
      return Err(MissingColumns);
    }
    if !AllValid(cases) {
      return Err(NonFiniteInput);
    }
    var features := BatchFeatures(cases);
    var mask := OutlierMask(cases);
    var mainRows := Pick(features, mask, false);
    var outlierRows := Pick(features, mask, true);
    var predictions := seq(|cases|, _ => 0.0);
    var afterMain := predictions;
    if |mainRows| > 0 {
      afterMain := Scatter(predictions, mask, false, GroupMeans(mainModels, mainRows));
    }
    var afterOutlier := afterMain;
    if |outlierRows| > 0 {
      afterOutlier := Scatter(afterMain, mask, true, GroupMeans(outlierModels, outlierRows));
    }
    forall i | 0 <= i < |cases|
      ensures SinglePredict(cases[i], mainModels, outlierModels) == Ok(afterOutlier[i])
    {
      var flag := mask[i];
      PickAt(features, mask, flag, i);
      var k := Rank(mask, i, flag);
      if flag {
        assert outlierRows[k] == VectorisedFeatures(cases[i]);
        assert afterOutlier[i] == GroupMeans(outlierModels, outlierRows)[k];
      } else {
        assert mainRows[k] == VectorisedFeatures(cases[i]);
        assert afterMain[i] == GroupMeans(mainModels, mainRows)[k];
        assert afterOutlier[i] == afterMain[i];
      }
    }
    predictions := afterOutlier;
    return Ok(predictions);
  }
}
