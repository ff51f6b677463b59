/** scripts/calculate_advanced_multi.py: the single-tree main/outlier pair of
    calculate.py plus two optional specialists for very short and very long
    trips, trained on their own slices of the whole corpus and blended into
    the primary prediction with weights 0.8 and 0.2. The feature
    transformation is calculate.py's, line for line, so this module reuses
    `RowFeatures`. */
module AdvancedMulti {
  import opened Common
  import opened Stats
  import opened Partition
  import opened Transform
  import opened Calculate

  /** A specialist is trained only on a slice holding at least this many cases. */
  const SPECIALIST_MIN_CASES: nat := 20

  const PRIMARY_WEIGHT: real := 0.8
  const SPECIALIST_WEIGHT: real := 0.2

  predicate IsShortTrip(x: Labeled)
  {
    x.input.days <= 2
  }

  predicate IsLongTrip(x: Labeled)
  {
    x.input.days >= 8
  }

  /** `df[df['trip_duration_days'] <= 2]`, taken from the whole corpus. */
  function ShortCases(data: seq<Labeled>): seq<Labeled>
  {
    Filter(data, IsShortTrip)
  }

  /** `df[df['trip_duration_days'] >= 8]`, taken from the whole corpus. */
  function LongCases(data: seq<Labeled>): seq<Labeled>
  {
    Filter(data, IsLongTrip)
  }

  /** The specialist slices never share a case, each holds exactly the corpus
      cases of its length class, and the receipt amount plays no part: a
      short or long trip lands in its slice whichever primary group it
      belongs to. */
  lemma SpecialistSlices(data: seq<Labeled>)
    ensures forall x :: !(x in ShortCases(data) && x in LongCases(data))
    ensures forall x :: x in ShortCases(data) ==> x in data && x.input.days <= 2
    ensures forall x :: x in LongCases(data) ==> x in data && x.input.days >= 8
    ensures forall x :: x in data ==> (x in ShortCases(data) <==> x.input.days <= 2)
    ensures forall x :: x in data ==> (x in LongCases(data) <==> x.input.days >= 8)
    ensures forall x :: x in data && x.input.days <= 2 ==>
              x in ShortCases(data) && (x in MainCases(data) || x in OutlierCases(data))
  {
    PrimarySplitIsPartition(data);
    forall x | x in ShortCases(data)
      ensures x in data && x.input.days <= 2
    {
      var i :| 0 <= i < |ShortCases(data)| && ShortCases(data)[i] == x;
    }
    forall x | x in LongCases(data)
      ensures x in data && x.input.days >= 8
    {
      var i :| 0 <= i < |LongCases(data)| && LongCases(data)[i] == x;
    }
    forall x | x in data
      ensures x in ShortCases(data) <==> x.input.days <= 2
      ensures x in LongCases(data) <==> x.input.days >= 8
    {
      var i :| 0 <= i < |data| && data[i] == x;
    }
  }

  /** Every slice of a corpus whose cases all have finite ratios inherits that. */
  lemma SlicesAreValid(data: seq<Labeled>)
    requires ValidCorpus(data)
    ensures ValidCorpus(ShortCases(data)) && ValidCorpus(LongCases(data))
    ensures ValidCorpus(MainCases(data)) && ValidCorpus(OutlierCases(data))
  {
    SubsetsAreValid(data);
    var s := ShortCases(data);
    var l := LongCases(data);
    assert forall i :: 0 <= i < |s| ==> s[i] in data;
    assert forall i :: 0 <= i < |l| ==> l[i] in data;
  }

  datatype AdvancedModels = AdvancedModels(
    main: Regressor, outlier: Regressor,
    short: Option<Regressor>, long: Option<Regressor>)

  /** A specialist, or none when its slice is too small. */
  function TrainSpecialist(slice: seq<Labeled>, fit: FrameFit): (m: Option<Regressor>)
    requires ValidCorpus(slice)
    ensures m.Some? <==> |slice| >= SPECIALIST_MIN_CASES
    ensures m.Some? ==> m.value == fit(FeatureMatrix(slice), Targets(slice), Tree(10, 2, 42))
  {
    if |slice| >= SPECIALIST_MIN_CASES then Some(fit(FeatureMatrix(slice), Targets(slice), Tree(10, 2, 42)))
    else None
  }

  /** `train_advanced_multi_models`: the main tree (depth 12, leaf 3) on cases
      at or under the threshold, the outlier tree (depth 8, leaf 2) on cases
      above it, and a depth-10, leaf-2 specialist for each length slice that
      reaches SPECIALIST_MIN_CASES. */
  function TrainAdvanced(data: seq<Labeled>, fit: FrameFit): (m: AdvancedModels)
    requires ValidCorpus(data)
    ensures ValidCorpus(MainCases(data)) && ValidCorpus(OutlierCases(data))
    ensures ValidCorpus(ShortCases(data)) && ValidCorpus(LongCases(data))
    ensures m.main == fit(FeatureMatrix(MainCases(data)), Targets(MainCases(data)), Tree(12, 3, 42))
    ensures m.outlier == fit(FeatureMatrix(OutlierCases(data)), Targets(OutlierCases(data)), Tree(8, 2, 42))
    ensures m.short.Some? <==> |ShortCases(data)| >= SPECIALIST_MIN_CASES
    ensures m.long.Some? <==> |LongCases(data)| >= SPECIALIST_MIN_CASES
    ensures m.short.Some? ==>
              m.short.value == fit(FeatureMatrix(ShortCases(data)), Targets(ShortCases(data)), Tree(10, 2, 42))
    ensures m.long.Some? ==>
              m.long.value == fit(FeatureMatrix(LongCases(data)), Targets(LongCases(data)), Tree(10, 2, 42))
  {
    SlicesAreValid(data);
    var main := MainCases(data);
    var outlier := OutlierCases(data);
    AdvancedModels(
      fit(FeatureMatrix(main), Targets(main), Tree(12, 3, 42)),
      fit(FeatureMatrix(outlier), Targets(outlier), Tree(8, 2, 42)),
      TrainSpecialist(ShortCases(data), fit),
      TrainSpecialist(LongCases(data), fit))
  }

  /** The primary tree the routing rule picks. */
  function PrimaryModel(c: Case, m: AdvancedModels): Regressor
  {
    if PrimaryGroup(c) == OutlierGroup then m.outlier else m.main
  }

  /** The `if days <= 2 ... elif days >= 8 ...` choice: at most one
      specialist joins, the short one only for trips of at most two days,
      the long one only for trips of at least eight, and only when loaded. */
  function Specialist(days: int, m: AdvancedModels): (s: Option<Regressor>)
    ensures s.Some? ==> (days <= 2 && s == m.short) || (days >= 8 && s == m.long)
    ensures s.None? <==> (days <= 2 && m.short.None?) || (days >= 8 && m.long.None?) || 2 < days < 8
  {
    if days <= 2 && m.short.Some? then m.short
    else if days >= 8 && m.long.Some? then m.long
    else None
  }

  /** Normalising `[0.8, 0.2]` leaves it unchanged: the weights already total one. */
  lemma BlendWeightsAreNormal()
    ensures Sum([PRIMARY_WEIGHT, SPECIALIST_WEIGHT]) == 1.0
    ensures Normalize([PRIMARY_WEIGHT, SPECIALIST_WEIGHT]) == [PRIMARY_WEIGHT, SPECIALIST_WEIGHT]
  {
    var ws := [PRIMARY_WEIGHT, SPECIALIST_WEIGHT];
    assert Sum([SPECIALIST_WEIGHT]) == 0.2 by { assert [SPECIALIST_WEIGHT][1..] == []; }
    assert ws[1..] == [SPECIALIST_WEIGHT];
    var nw := Normalize(ws);
    assert nw[0] * 1.0 == ws[0] && nw[1] * 1.0 == ws[1];
  }

  /** The two-model blend is 0.8 of the primary plus 0.2 of the specialist. */
  lemma TwoModelBlend(p: real, s: real)
    ensures WeightedBlend([p, s], [PRIMARY_WEIGHT, SPECIALIST_WEIGHT]) == 0.8 * p + 0.2 * s
  {
    BlendWeightsAreNormal();
    var ps, ws := [p, s], [PRIMARY_WEIGHT, SPECIALIST_WEIGHT];
    assert Dot([s], [SPECIALIST_WEIGHT]) == s * 0.2 by {
      assert [s][1..] == [] && [SPECIALIST_WEIGHT][1..] == [];
    }
    assert ps[1..] == [s] && ws[1..] == [SPECIALIST_WEIGHT];
  }

  /** `predict_advanced_multi` as it is meant to work: the primary tree's
      prediction alone when no specialist joins; otherwise the normalised
      0.8/0.2 blend of primary and specialist, which lies between the two.
      A case with an infinite ratio is refused. */
  function PredictAdvanced(c: Case, m: AdvancedModels): (r: Result<real>)
    ensures r.Err? <==> !FiniteRatios(c)
    ensures r.Err? ==> r.error == NonFiniteInput
    ensures FiniteRatios(c) && Specialist(c.days, m).None? ==>
              r == Ok(PrimaryModel(c, m)(RowFeatures(c)))
    ensures FiniteRatios(c) && Specialist(c.days, m).Some? ==>
              var f := RowFeatures(c);
              var p, s := PrimaryModel(c, m)(f), Specialist(c.days, m).value(f);
              r == Ok(0.8 * p + 0.2 * s) && MinOf(p, s) <= r.value <= MaxOf(p, s)
  {
    if !FiniteRatios(c) then Err(NonFiniteInput)
    else
      var f := RowFeatures(c);
      var primary := PrimaryModel(c, m)(f);
      var spec := Specialist(c.days, m);
      if spec.Some? then
        var specialist := spec.value(f);
        TwoModelBlend(primary, specialist);
        Ok(WeightedBlend([primary, specialist], [PRIMARY_WEIGHT, SPECIALIST_WEIGHT]))
      else Ok(primary)
  }

  // ---------------------------------------------------------------------
  // Column sets as the program trains them

  /** The label `get_trip_category` gives a case. */
  function CaseCategory(c: Case): Category
    requires FiniteRatios(c)
  {
    TripCategory(c.days, PerDay(c.miles, c.days))
  }

  /** cols holds exactly the labels that occur in the frame. */
  predicate LabelsOf(cols: set<Category>, frame: seq<Labeled>)
    requires ValidCorpus(frame)
  {
    && (forall i :: 0 <= i < |frame| ==> CaseCategory(frame[i].input) in cols)
    && (forall k :: k in cols ==> exists i :: 0 <= i < |frame| && CaseCategory(frame[i].input) == k)
  }

  /** The `cat_*` columns `pd.get_dummies` creates for a training frame: one
      per label that occurs in it, and none for the others. Every other
      column is the same in every frame. */
  function DummyColumns(data: seq<Labeled>): (cols: set<Category>)
    requires ValidCorpus(data)
    ensures LabelsOf(cols, data)
  {
    set i | 0 <= i < |data| :: CaseCategory(data[i].input)
  }

  /** The feature names each fitted tree keeps (`feature_names_in_`). */
  datatype ModelColumns = ModelColumns(
    main: set<Category>, outlier: set<Category>, short: set<Category>, long: set<Category>)

  /** The column sets `train_advanced_multi_models` leaves in its four trees:
      each tree knows exactly the labels of its own training slice, so the
      long specialist knows at most the long-haul column and the short one
      never the long-haul or the sweet-spot column. */
  function TrainedColumns(data: seq<Labeled>): (cols: ModelColumns)
    requires ValidCorpus(data)
    ensures ValidCorpus(MainCases(data)) && ValidCorpus(OutlierCases(data))
    ensures ValidCorpus(ShortCases(data)) && ValidCorpus(LongCases(data))
    ensures LabelsOf(cols.main, MainCases(data)) && LabelsOf(cols.outlier, OutlierCases(data))
    ensures LabelsOf(cols.short, ShortCases(data)) && LabelsOf(cols.long, LongCases(data))
    ensures cols.long <= {LongHaul}
    ensures LongHaul !in cols.short && SweetSpotEfficiency !in cols.short
  {
    SlicesAreValid(data);
    LongColumnsAreLongHaul(data);
    ShortColumnsAreNarrow(data);
    ModelColumns(DummyColumns(MainCases(data)), DummyColumns(OutlierCases(data)),
                 DummyColumns(ShortCases(data)), DummyColumns(LongCases(data)))
  }

  /** The columns of the primary tree the routing rule picks. */
  function PrimaryColumns(c: Case, cols: ModelColumns): set<Category>
  {
    if PrimaryGroup(c) == OutlierGroup then cols.outlier else cols.main
  }

  /** The columns of the specialist that joins, following `Specialist`. */
  function SpecialistColumns(days: int, m: AdvancedModels, cols: ModelColumns): (s: Option<set<Category>>)
    ensures s.Some? <==> Specialist(days, m).Some?
    ensures s.Some? ==> (days <= 2 && s.value == cols.short) || (days >= 8 && s.value == cols.long)
  {
    if days <= 2 && m.short.Some? then Some(cols.short)
    else if days >= 8 && m.long.Some? then Some(cols.long)
    else None
  }

  /** The frame is reindexed to the primary tree's columns and then handed to
      the specialist too, which refuses it unless it was fitted on exactly
      those columns. */
  predicate SpecialistRefusesFrame(c: Case, m: AdvancedModels, cols: ModelColumns)
  {
    var s := SpecialistColumns(c.days, m, cols);
    s.Some? && s.value != PrimaryColumns(c, cols)
  }

  /** `predict_advanced_multi` as written: the specialist is given the
      primary's reindexed frame, and a feature-name mismatch raises the error
      the program reports as invalid input. Where no specialist joins, or its
      columns match, the result is the intended one. */
  function PredictAdvancedAsWritten(c: Case, m: AdvancedModels, cols: ModelColumns): (r: Result<real>)
    ensures r.Err? <==> !FiniteRatios(c) || SpecialistRefusesFrame(c, m, cols)
    ensures FiniteRatios(c) && SpecialistRefusesFrame(c, m, cols) ==> r == Err(FeatureMismatch)
    ensures r.Ok? ==> r == PredictAdvanced(c, m)
  {
    if !FiniteRatios(c) then Err(NonFiniteInput)
    else if SpecialistRefusesFrame(c, m, cols) then Err(FeatureMismatch)
    else PredictAdvanced(c, m)
  }

  /** Every case of the long slice is labelled long haul (a quick trip needs
      at most two days), so the long specialist knows one `cat_*` column. */
  lemma LongColumnsAreLongHaul(data: seq<Labeled>)
    requires ValidCorpus(data)
    ensures ValidCorpus(LongCases(data))
    ensures DummyColumns(LongCases(data)) <= {LongHaul}
  {
    SlicesAreValid(data);
    var l := LongCases(data);
    forall k | k in DummyColumns(l)
      ensures k == LongHaul
    {
      var i :| 0 <= i < |l| && CaseCategory(l[i].input) == k;
      assert IsLongTrip(l[i]);
    }
  }

  /** No case of the short slice is labelled long haul or sweet spot: at most
      two days, and 180 miles per day already make a quick trip. */
  lemma ShortColumnsAreNarrow(data: seq<Labeled>)
    requires ValidCorpus(data)
    ensures ValidCorpus(ShortCases(data))
    ensures LongHaul !in DummyColumns(ShortCases(data))
    ensures SweetSpotEfficiency !in DummyColumns(ShortCases(data))
  {
    SlicesAreValid(data);
    var s := ShortCases(data);
    forall k | k in DummyColumns(s)
      ensures k != LongHaul && k != SweetSpotEfficiency
    {
      var i :| 0 <= i < |s| && CaseCategory(s[i].input) == k;
      assert IsShortTrip(s[i]);
    }
  }

  /** A corpus case lands in the training frame of the primary tree the
      routing rule picks for it, so its label is one of that tree's columns. */
  lemma PrimaryColumnsHold(data: seq<Labeled>, y: Labeled)
    requires ValidCorpus(data) && y in data
    ensures FiniteRatios(y.input)
    ensures CaseCategory(y.input) in PrimaryColumns(y.input, TrainedColumns(data))
  {
    var j :| 0 <= j < |data| && data[j] == y;
    PrimarySplitIsPartition(data);
    var cols := TrainedColumns(data);
    if PrimaryGroup(y.input) == OutlierGroup {
      var o := OutlierCases(data);
      assert y in o;
      var i :| 0 <= i < |o| && o[i] == y;
    } else {
      var mc := MainCases(data);
      assert y in mc;
      var i :| 0 <= i < |mc| && mc[i] == y;
    }
  }

  /** The long specialist refuses every trip of eight days or more once the
      primary tree for the case saw any label besides long haul: with the
      program's own training, such a prediction always ends in the error. */
  lemma LongSpecialistRefusesPrimaryFrame(data: seq<Labeled>, fit: FrameFit, c: Case, y: Labeled)
    requires ValidCorpus(data)
    requires |LongCases(data)| >= SPECIALIST_MIN_CASES
    requires FiniteRatios(c) && c.days >= 8
    requires y in data && PrimaryGroup(y.input) == PrimaryGroup(c)
    requires FiniteRatios(y.input) && CaseCategory(y.input) != LongHaul
    ensures PredictAdvancedAsWritten(c, TrainAdvanced(data, fit), TrainedColumns(data)) == Err(FeatureMismatch)
  {
    var m, cols := TrainAdvanced(data, fit), TrainedColumns(data);
    LongColumnsAreLongHaul(data);
    PrimaryColumnsHold(data, y);
    assert PrimaryColumns(c, cols) == PrimaryColumns(y.input, cols);
    assert SpecialistColumns(c.days, m, cols) == Some(cols.long);
  }

  /** The short specialist likewise refuses every trip of at most two days
      once the primary tree for the case saw a long-haul or sweet-spot case. */
  lemma ShortSpecialistRefusesPrimaryFrame(data: seq<Labeled>, fit: FrameFit, c: Case, y: Labeled)
    requires ValidCorpus(data)
    requires |ShortCases(data)| >= SPECIALIST_MIN_CASES
    requires FiniteRatios(c) && c.days <= 2
    requires y in data && PrimaryGroup(y.input) == PrimaryGroup(c)
    requires FiniteRatios(y.input)
    requires CaseCategory(y.input) == LongHaul || CaseCategory(y.input) == SweetSpotEfficiency
    ensures PredictAdvancedAsWritten(c, TrainAdvanced(data, fit), TrainedColumns(data)) == Err(FeatureMismatch)
  {
    var m, cols := TrainAdvanced(data, fit), TrainedColumns(data);
    ShortColumnsAreNarrow(data);
    PrimaryColumnsHold(data, y);
    assert PrimaryColumns(c, cols) == PrimaryColumns(y.input, cols);
    assert SpecialistColumns(c.days, m, cols) == Some(cols.short);
  }

  /** A specialist that joins a prediction was trained on the slice of the
      case's own length class, and a corpus case of that class is in it. */
  lemma SpecialistMatchesTraining(data: seq<Labeled>, fit: FrameFit, x: Labeled)
    requires ValidCorpus(data)
    requires x in data
    ensures var m := TrainAdvanced(data, fit);
            var s := Specialist(x.input.days, m);
            s.Some? ==>
              (x in ShortCases(data)
               && s.value == fit(FeatureMatrix(ShortCases(data)), Targets(ShortCases(data)), Tree(10, 2, 42)))
              || (x in LongCases(data)
               && s.value == fit(FeatureMatrix(LongCases(data)), Targets(LongCases(data)), Tree(10, 2, 42)))
  {
    SpecialistSlices(data);
  }
}
