/** The feature transformation of calculate.py (`feature_engineering`), which
    calculate_advanced_multi.py repeats line for line. Each derived field has
    its own function; `RowFeatures` assembles one feature row per case. The
    other scripts' copies live in their own modules and are proved to agree
    with these definitions. */
module Transform {
  import opened Common

  /** The five trip labels, first match wins in `get_trip_category`. */
  datatype Category =
    | QuickTripHighMiles
    | LongHaul
    | LowEfficiency
    | SweetSpotEfficiency
    | Balanced

  /** One engineered row. The five `cat*` fields are the one-hot columns
      (`pd.get_dummies(..., prefix='cat')`, alphabetical by label). */
  datatype FeatureRow = FeatureRow(
    days: int, miles: real, receipts: real,
    milesPerDay: real, receiptsPerDay: real,
    fourDayBonus: int, receiptMultiplier: real,
    adjustedReceipts: real, multipliedReceipts: real,
    tier1: real, tier2: real, tier3: real,
    efficiencyBonusRange: int, daysXMiles: real,
    catBalanced: int, catLongHaul: int, catLowEfficiency: int,
    catQuickTripHighMiles: int, catSweetSpotEfficiency: int)

  /** A fitted model that reads a frame row by column name. */
  type Regressor = FeatureRow -> real

  /** Each model's output on one row, in ensemble order. */
  function Outputs(models: seq<Regressor>, f: FeatureRow): (ps: seq<real>)
    ensures |ps| == |models|
    ensures forall i :: 0 <= i < |models| ==> ps[i] == models[i](f)
  {
    seq(|models|, i requires 0 <= i < |models| => models[i](f))
  }

  /** `x / trip_duration_days` followed by `fillna(0)`, where the quotient is
      finite: a true quotient for a nonzero day count, and 0 for 0 / 0. */
  function PerDay(x: real, days: int): (r: real)
    requires days != 0 || x == 0.0
    ensures r * (days as real) == x
    ensures days == 0 ==> r == 0.0
  {
    if days == 0 then 0.0 else x / (days as real)
  }

  /** `(trip_duration_days == 4) * 150` */
  function FourDayBonus(days: int): (b: int)
    ensures b == 150 <==> days == 4
    ensures b == 0 <==> days != 4
  {
    if days == 4 then 150 else 0
  }

  /** `get_receipt_multiplier`: a factor that depends on the day count only. */
  function ReceiptMultiplier(days: int): (m: real)
    ensures days == 1 ==> m == -0.5
    ensures days == 5 ==> m == 1.04
    ensures days >= 8 ==> m == 0.02
    ensures days != 1 && days != 5 && days < 8 ==> m == 1.0
  {
    if days == 1 then -0.5
    else if days == 5 then 1.04
    else if days >= 8 then 0.02
    else 1.0
  }

  /** The receipt cap: totals above RECEIPT_CAP count only a quarter. */
  function AdjustedReceipts(receipts: real): (a: real)
    ensures receipts > RECEIPT_CAP ==> a == receipts * CAP_FACTOR
    ensures receipts <= RECEIPT_CAP ==> a == receipts
    ensures receipts >= 0.0 ==> 0.0 <= a <= receipts
  {
    if receipts > RECEIPT_CAP then receipts * CAP_FACTOR else receipts
  }

  /** pandas `Series.clip(lower=lo, upper=hi)` on one value. */
  function Clip(x: real, lo: real, hi: real): (r: real)
    requires lo <= hi
    ensures lo <= r <= hi
    ensures lo <= x <= hi ==> r == x
    ensures x < lo ==> r == lo
    ensures x > hi ==> r == hi
  {
    if x < lo then lo else if x > hi then hi else x
  }

  datatype Tiers = Tiers(t1: real, t2: real, t3: real)

  /** The three mileage bands of calculate.py: the first 100 miles (clipped
      from above only), the next 400, and the rest. */
  function MileageTiers(miles: real): (t: Tiers)
    ensures t.t1 + t.t2 + t.t3 == miles
    ensures t.t1 <= 100.0 && 0.0 <= t.t2 <= 400.0 && t.t3 >= 0.0
    ensures miles >= 0.0 ==> t.t1 >= 0.0
    ensures t.t2 > 0.0 ==> t.t1 == 100.0
    ensures t.t3 > 0.0 ==> t.t2 == 400.0
  {
    Tiers(
      MinOf(miles, 100.0),
      Clip(miles - 100.0, 0.0, 400.0),
      MaxOf(miles - 500.0, 0.0))
  }

  /** The 180 to 220 miles-per-day band, both ends included. */
  predicate InSweetSpot(milesPerDay: real)
  {
    180.0 <= milesPerDay <= 220.0
  }

  /** `efficiency_bonus_range` */
  function EfficiencyFlag(milesPerDay: real): (f: int)
    ensures f == 0 || f == 1
    ensures f == 1 <==> InSweetSpot(milesPerDay)
  {
    if InSweetSpot(milesPerDay) then 1 else 0
  }

  predicate QuickHighMiles(days: int, milesPerDay: real)
  {
    days <= 2 && milesPerDay > 150.0
  }

  /** `get_trip_category`: the first rule that matches decides the label. */
  function TripCategory(days: int, milesPerDay: real): (c: Category)
    ensures c == QuickTripHighMiles <==> QuickHighMiles(days, milesPerDay)
    ensures c == LongHaul <==> !QuickHighMiles(days, milesPerDay) && days >= 8
    ensures c == LowEfficiency <==>
      !QuickHighMiles(days, milesPerDay) && days < 8 && milesPerDay < 50.0
    ensures c == SweetSpotEfficiency <==>
      !QuickHighMiles(days, milesPerDay) && days < 8 && milesPerDay >= 50.0
      && InSweetSpot(milesPerDay)
    ensures c == Balanced <==>
      !QuickHighMiles(days, milesPerDay) && days < 8 && milesPerDay >= 50.0
      && !InSweetSpot(milesPerDay)
  {
    if QuickHighMiles(days, milesPerDay) then QuickTripHighMiles
    else if days >= 8 then LongHaul
    else if milesPerDay < 50.0 then LowEfficiency
    else if InSweetSpot(milesPerDay) then SweetSpotEfficiency
    else Balanced
  }

  /** Sum of a list of indicator values. */
  function FlagTotal(flags: seq<int>): int
  {
    if |flags| == 0 then 0 else flags[0] + FlagTotal(flags[1..])
  }

  predicate AllBits(flags: seq<int>)
  {
    forall i :: 0 <= i < |flags| ==> flags[i] == 0 || flags[i] == 1
  }

  /** The one-hot columns in `get_dummies` order: balanced, long_haul,
      low_efficiency, quick_trip_high_miles, sweet_spot_efficiency. */
  function OneHot(c: Category): (flags: seq<int>)
    ensures |flags| == 5 && AllBits(flags) && FlagTotal(flags) == 1
  {
    match c
    case Balanced => [1, 0, 0, 0, 0]
    case LongHaul => [0, 1, 0, 0, 0]
    case LowEfficiency => [0, 0, 1, 0, 0]
    case QuickTripHighMiles => [0, 0, 0, 1, 0]
    case SweetSpotEfficiency => [0, 0, 0, 0, 1]
  }

  /** Reads a label back from its indicator columns; None when the columns
      are not one of the five one-hot patterns. */
  function CategoryOfFlags(flags: seq<int>): (c: Option<Category>)
    ensures c.Some? ==> OneHot(c.value) == flags
  {
    if flags == [1, 0, 0, 0, 0] then Some(Balanced)
    else if flags == [0, 1, 0, 0, 0] then Some(LongHaul)
    else if flags == [0, 0, 1, 0, 0] then Some(LowEfficiency)
    else if flags == [0, 0, 0, 1, 0] then Some(QuickTripHighMiles)
    else if flags == [0, 0, 0, 0, 1] then Some(SweetSpotEfficiency)
    else None
  }

  /** The encoding loses nothing: every label is read back from its columns. */
  lemma OneHotRoundTrip(c: Category)
    ensures CategoryOfFlags(OneHot(c)) == Some(c)
  {
  }

  /** The indicator columns of a row, in `get_dummies` order. */
  function CategoryFlags(f: FeatureRow): seq<int>
  {
    [f.catBalanced, f.catLongHaul, f.catLowEfficiency,
     f.catQuickTripHighMiles, f.catSweetSpotEfficiency]
  }

  /** A row whose fields are the given values and whose category columns are
      the one-hot encoding of `cat`. Every transform assembles its row here. */
  function MakeRow(days: int, miles: real, receipts: real,
                   milesPerDay: real, receiptsPerDay: real,
                   multiplier: real, adjusted: real, tiers: Tiers, cat: Category): (f: FeatureRow)
    ensures CategoryFlags(f) == OneHot(cat)
  {
    var flags := OneHot(cat);
    FeatureRow(
      days, miles, receipts, milesPerDay, receiptsPerDay,
      FourDayBonus(days), multiplier, adjusted, adjusted * multiplier,
      tiers.t1, tiers.t2, tiers.t3,
      EfficiencyFlag(milesPerDay), (days as real) * miles,
      flags[0], flags[1], flags[2], flags[3], flags[4])
  }

  /** calculate.py `feature_engineering` for one case whose ratios are
      finite (any nonzero day count, or zero days with nothing to divide). */
  function RowFeatures(c: Case): (f: FeatureRow)
    requires FiniteRatios(c)
    ensures f.days == c.days && f.miles == c.miles && f.receipts == c.receipts
    ensures f.milesPerDay * (c.days as real) == c.miles
    ensures f.receiptsPerDay * (c.days as real) == c.receipts
    ensures c.days == 0 ==> f.milesPerDay == 0.0 && f.receiptsPerDay == 0.0
    ensures f.fourDayBonus == FourDayBonus(c.days)
    ensures f.receiptMultiplier == ReceiptMultiplier(c.days)
    ensures f.adjustedReceipts == AdjustedReceipts(c.receipts)
    ensures f.multipliedReceipts == f.adjustedReceipts * f.receiptMultiplier
    ensures Tiers(f.tier1, f.tier2, f.tier3) == MileageTiers(c.miles)
    ensures f.efficiencyBonusRange == EfficiencyFlag(f.milesPerDay)
    ensures CategoryOfFlags(CategoryFlags(f)) == Some(TripCategory(c.days, f.milesPerDay))
    ensures f.daysXMiles == (c.days as real) * c.miles
  {
    var mpd := PerDay(c.miles, c.days);
    var cat := TripCategory(c.days, mpd);
    OneHotRoundTrip(cat);
    MakeRow(c.days, c.miles, c.receipts, mpd, PerDay(c.receipts, c.days),
            ReceiptMultiplier(c.days), AdjustedReceipts(c.receipts),
            MileageTiers(c.miles), cat)
  }

  /** Exactly one category column is set in every row. */
  lemma RowCategoryIsExclusive(c: Case)
    requires FiniteRatios(c)
    ensures AllBits(CategoryFlags(RowFeatures(c)))
    ensures FlagTotal(CategoryFlags(RowFeatures(c))) == 1
  {
    var f := RowFeatures(c);
    var cat := TripCategory(c.days, f.milesPerDay);
    assert CategoryFlags(f) == OneHot(cat);
  }

  /** A row labelled sweet spot always carries the efficiency flag, while the
      flag alone does not make the label: a short fast trip keeps its
      quick-trip label inside the band. */
  lemma SweetSpotImpliesEfficiencyFlag(c: Case)
    requires FiniteRatios(c)
    ensures TripCategory(c.days, RowFeatures(c).milesPerDay) == SweetSpotEfficiency
            ==> RowFeatures(c).efficiencyBonusRange == 1
    ensures RowFeatures(Case(1, 200.0, 0.0)).efficiencyBonusRange == 1
    ensures TripCategory(1, RowFeatures(Case(1, 200.0, 0.0)).milesPerDay) == QuickTripHighMiles
  {
  }

  /** Five days, no miles, no receipts: a low-efficiency trip with the 1.04
      multiplier and nothing else set. */
  lemma FiveDayIdleScenario()
    ensures RowFeatures(Case(5, 0.0, 0.0)) ==
      FeatureRow(5, 0.0, 0.0, 0.0, 0.0, 0, 1.04, 0.0, 0.0, 0.0, 0.0, 0.0, 0, 0.0,
                 0, 0, 1, 0, 0)
  {
  }

  /** One day, 800 miles, 100 in receipts: the -0.5 penalty, the bands
      100/400/300 and the quick-trip label. */
  lemma OneDayLongDriveScenario()
    ensures RowFeatures(Case(1, 800.0, 100.0)) ==
      FeatureRow(1, 800.0, 100.0, 800.0, 100.0, 0, -0.5, 100.0, -50.0,
                 100.0, 400.0, 300.0, 0, 800.0, 0, 0, 0, 1, 0)
  {
  }

  /** Zero days, no miles, no receipts: 0 / 0 becomes 0, so both ratios are
      0, the multiplier is the default 1.0 and the trip is low-efficiency. */
  lemma ZeroDayIdleScenario()
    ensures RowFeatures(Case(0, 0.0, 0.0)) ==
      FeatureRow(0, 0.0, 0.0, 0.0, 0.0, 0, 1.0, 0.0, 0.0, 0.0, 0.0, 0.0, 0, 0.0,
                 0, 0, 1, 0, 0)
  {
  }

  /** A receipt total of 2500 is cut to 625 whatever the (nonzero) day count. */
  lemma ReceiptCapScenario(days: int)
    requires days != 0
    ensures RowFeatures(Case(days, 0.0, 2500.0)).adjustedReceipts == 625.0
  {
  }
}
