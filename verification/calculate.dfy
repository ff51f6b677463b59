/** calculate.py: five decision trees per group (one per random seed), trained
    on the main and outlier halves of the corpus, and a prediction that
    averages the ensemble the routing rule selects. The learning library is
    the parameter `fit`; a stored ensemble pair stands for the model files. */
module Calculate {
  import opened Common
  import opened Stats
  import opened Partition
  import opened Transform

  const ENSEMBLE_SIZE: nat := 5
  const RANDOM_SEEDS: seq<int> := [42, 123, 456, 789, 999]

  /** Trains one model from a feature matrix, its targets and hyperparameters. */
  type FrameFit = (seq<FeatureRow>, seq<real>, Hyper) -> Regressor

  datatype Ensembles = Ensembles(main: seq<Regressor>, outlier: seq<Regressor>)

  predicate FullEnsembles(e: Ensembles)
  {
    |e.main| == ENSEMBLE_SIZE && |e.outlier| == ENSEMBLE_SIZE
  }

  /** `feature_engineering` applied to every case of a training subset. */
  function FeatureMatrix(data: seq<Labeled>): (x: seq<FeatureRow>)
    requires ValidCorpus(data)
    ensures |x| == |data|
    ensures forall i :: 0 <= i < |data| ==> x[i] == RowFeatures(data[i].input)
  {
    seq(|data|, i requires 0 <= i < |data| => RowFeatures(data[i].input))
  }

  lemma SubsetsAreValid(data: seq<Labeled>)
    requires ValidCorpus(data)
    ensures ValidCorpus(MainCases(data)) && ValidCorpus(OutlierCases(data))
  {
    PrimarySplitIsPartition(data);
    var m := MainCases(data);
    var o := OutlierCases(data);
    assert forall i :: 0 <= i < |m| ==> m[i] in data;
    assert forall i :: 0 <= i < |o| ==> o[i] in data;
  }

  /** One tree per seed, with the given depth and leaf size. */
  function TrainEnsemble(x: seq<FeatureRow>, y: seq<real>, maxDepth: nat, minLeaf: nat,
                         fit: FrameFit): (models: seq<Regressor>)
    ensures |models| == |RANDOM_SEEDS|
    ensures forall i :: 0 <= i < |RANDOM_SEEDS| ==>
              models[i] == fit(x, y, Tree(maxDepth, minLeaf, RANDOM_SEEDS[i]))
  {
    seq(|RANDOM_SEEDS|, i requires 0 <= i < |RANDOM_SEEDS| =>
        fit(x, y, Tree(maxDepth, minLeaf, RANDOM_SEEDS[i])))
  }

  /** `train_model`: the main ensemble (depth 12, leaf 3) learns only cases
      at or under the outlier threshold, the outlier ensemble (depth 8,
      leaf 2) only cases above it; each holds ENSEMBLE_SIZE trees. */
  function TrainModel(data: seq<Labeled>, fit: FrameFit): (e: Ensembles)
    requires ValidCorpus(data)
    ensures FullEnsembles(e)
    ensures ValidCorpus(MainCases(data)) && ValidCorpus(OutlierCases(data))
    ensures forall i :: 0 <= i < ENSEMBLE_SIZE ==>
              e.main[i] == fit(FeatureMatrix(MainCases(data)), Targets(MainCases(data)),
                               Tree(12, 3, RANDOM_SEEDS[i]))
    ensures forall i :: 0 <= i < ENSEMBLE_SIZE ==>
              e.outlier[i] == fit(FeatureMatrix(OutlierCases(data)), Targets(OutlierCases(data)),
                                  Tree(8, 2, RANDOM_SEEDS[i]))
  {
    SubsetsAreValid(data);
    var main := MainCases(data);
    var outlier := OutlierCases(data);
    Ensembles(
      TrainEnsemble(FeatureMatrix(main), Targets(main), 12, 3, fit),
      TrainEnsemble(FeatureMatrix(outlier), Targets(outlier), 8, 2, fit))
  }

  /** The ensemble the routing rule picks for a case. */
  function Selected(c: Case, e: Ensembles): seq<Regressor>
  {
    if PrimaryGroup(c) == OutlierGroup then e.outlier else e.main
  }

  /** The models in use: the stored pair when every model file exists,
      otherwise a fresh training run over the corpus. */
  function LoadOrTrain(stored: Option<Ensembles>, data: seq<Labeled>, fit: FrameFit): (e: Ensembles)
    requires ValidCorpus(data)
    requires stored.Some? ==> FullEnsembles(stored.value)
    ensures FullEnsembles(e)
    ensures stored.Some? ==> e == stored.value
    ensures stored.None? ==> e == TrainModel(data, fit)
  {
    if stored.Some? then stored.value else TrainModel(data, fit)
  }

  /** `predict`: the unweighted mean of the selected ensemble's outputs on
      the engineered row (five copies of the answer add up to the five
      outputs), so it lies between the smallest and the largest member's
      prediction. A case with an infinite ratio is refused: the
      learning library raises on it and the program reports invalid input. */
  function Predict(c: Case, stored: Option<Ensembles>, data: seq<Labeled>, fit: FrameFit): (r: Result<real>)
    requires ValidCorpus(data)
    requires stored.Some? ==> FullEnsembles(stored.value)
    ensures r.Err? <==> !FiniteRatios(c)
    ensures r.Err? ==> r.error == NonFiniteInput
    ensures FiniteRatios(c) ==>
              var e := LoadOrTrain(stored, data, fit);
              var ps := Outputs(Selected(c, e), RowFeatures(c));
              |ps| == ENSEMBLE_SIZE && r.Ok? &&
              Sum(Uniform(ENSEMBLE_SIZE, r.value)) == Sum(ps) &&
              Min(ps) <= r.value <= Max(ps)
  {
    if !FiniteRatios(c) then Err(NonFiniteInput)
    else
      var e := LoadOrTrain(stored, data, fit);
      Ok(Mean(Outputs(Selected(c, e), RowFeatures(c))))
  }

  /** Serving follows the training split: a corpus case is predicted by the
      ensemble that was trained on the subset holding it. */
  lemma ServingMatchesTraining(data: seq<Labeled>, x: Labeled, e: Ensembles)
    requires ValidCorpus(data)
    requires x in data
    ensures x in OutlierCases(data) ==> Selected(x.input, e) == e.outlier
    ensures x in MainCases(data) ==> Selected(x.input, e) == e.main
    ensures x in OutlierCases(data) || x in MainCases(data)
    ensures !(x in OutlierCases(data) && x in MainCases(data))
  {
    PrimarySplitIsPartition(data);
  }

  /** When every member agrees, the ensemble returns that common value. */
  lemma UnanimousEnsemble(c: Case, e: Ensembles, v: real)
    requires FiniteRatios(c)
    requires |Selected(c, e)| > 0
    requires forall i :: 0 <= i < |Selected(c, e)| ==> Selected(c, e)[i](RowFeatures(c)) == v
    ensures Mean(Outputs(Selected(c, e), RowFeatures(c))) == v
  {
    var ps := Outputs(Selected(c, e), RowFeatures(c));
    assert forall i :: 0 <= i < |ps| ==> ps[i] == v;
    assert Min(ps) == v by {
      var k :| 0 <= k < |ps| && ps[k] == Min(ps);
    }
    assert Max(ps) == v by {
      var k :| 0 <= k < |ps| && ps[k] == Max(ps);
    }
  }
}
