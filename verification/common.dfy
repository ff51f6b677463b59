/** Shared vocabulary of the reimbursement estimator: the raw case, a labelled
    training example, the routing constants every script repeats, and the
    error and hyperparameter records the scripts pass around. */
module Common {

  datatype Option<+T> = None | Some(value: T)

  /** The failures the pipeline reports instead of an amount: a required
      ensemble has no loaded model; a feature row holds an infinite ratio,
      which the learning library refuses; a model is handed a frame whose
      columns are not the ones it was fitted on; a batch file with no cases
      gives a frame without the input columns, so selecting them fails. */
  datatype PipelineError = ModelsNotFound | NonFiniteInput | FeatureMismatch | MissingColumns

  datatype Result<+T> = Ok(value: T) | Err(error: PipelineError)

  /** One case to estimate: whole trip days, miles travelled, receipt total. */
  datatype Case = Case(days: int, miles: real, receipts: real)

  /** A case from the labelled corpus together with its expected amount. */
  datatype Labeled = Labeled(input: Case, expected: real)

  /** Receipt totals strictly above this go to the outlier model. */
  const OUTLIER_THRESHOLD: real := 1400.0

  /** Receipt totals strictly above this are cut to a quarter. */
  const RECEIPT_CAP: real := 2000.0

  const CAP_FACTOR: real := 0.25

  /** The pandas transforms divide by the day count without a guard and then
      replace NaN by 0: with zero days, 0 / 0 becomes 0, but a nonzero miles
      or receipts value becomes an infinite ratio. Negative day counts divide
      normally. */
  predicate FiniteRatios(c: Case)
  {
    c.days != 0 || (c.miles == 0.0 && c.receipts == 0.0)
  }

  /** A corpus the pandas transforms turn into a finite training frame. */
  predicate ValidCorpus(data: seq<Labeled>)
  {
    forall i :: 0 <= i < |data| ==> FiniteRatios(data[i].input)
  }

  /** Hyperparameters handed to the learning library: a single decision tree
      or a random forest. */
  datatype Hyper =
    | Tree(maxDepth: nat, minSamplesLeaf: nat, seed: int)
    | Forest(estimators: nat, maxDepth: nat, minSamplesLeaf: nat, seed: int)

  function MinOf(a: real, b: real): real
  {
    if a <= b then a else b
  }

  function MaxOf(a: real, b: real): real
  {
    if a >= b then a else b
  }
}
