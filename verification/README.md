# Reimbursement estimator core, in Dafny

The repository estimates a legacy travel-reimbursement amount from three numbers: trip days, miles travelled and the receipt total. It learns the amount from a labelled corpus with decision trees and random forests. Five scripts repeat the same deterministic pipeline around those learned models:

1. a **feature transformation** that turns `(days, miles, receipts)` into derived fields:
   - per-day ratios;
   - a four-day bonus;
   - a day-dependent receipt multiplier;
   - a cap on receipts above 2000;
   - three mileage bands;
   - a 180–220 miles-per-day efficiency flag;
   - a first-match trip category, one-hot encoded;
   - a `days * miles` interaction term;
2. **routing and partitioning**:
   - cases whose receipts exceed 1400 go to an "outlier" model and the rest to a "main" model, both when the corpus is split for training and when a case is predicted;
   - trip length picks short/medium/long forests or short/long specialists;
3. **blending**:
   - the mean over an ensemble;
   - normalised 0.8/0.2 and 0.7/0.15 weightings;
   - inverse-error weights;
   - a linear fallback.

The project models that pipeline with exact `real` arithmetic. A learned model is an uninterpreted function value:
- `Regressor = FeatureRow -> real` for the pandas scripts, which match columns by name;
- `VectorRegressor = seq<real> -> real` for the list-based scripts.

Training is a function parameter `fit(X, y, hyperparameters)`. Each training or prediction function therefore states exactly which rows, targets and hyperparameters reach the learner, and which model answers which case.

Modules:
- **Common**: cases, labelled cases, the routing constants, `Option`/`Result`, hyperparameters.
- **Stats**: `Sum`, `Min`, `Max`, `Mean`, weight normalisation and the weighted blend, with the convexity lemmas.
- **Partition**:
  - the receipts rule;
  - order-preserving filtering, with its multiset partition lemma;
  - boolean-mask selection (`Pick`), with the rank lemma that places a selected row in the selection.
- **Transform**: calculate.py's `feature_engineering`. calculate_advanced_multi.py repeats it line for line, so it is modelled once.
- **Calculate**: the five-seed tree ensembles of calculate.py.
- **UltraFast**: calculate_ultra_fast.py, covering `np.select`, `np.clip`, the batch split by outlier mask and the mask write-back.
- **CalculateFast**: scripts/calculate_fast.py, covering the guarded scalar builder and the 19-entry list.
- **AdvancedMulti**: scripts/calculate_advanced_multi.py, covering the specialists and the 0.8/0.2 blend.
- **MultiModel**: scripts/calculate_multi_model.py, covering the independent indicators, length buckets, inverse-error weights, the 0.7/0.15 blend and the fallback.

Some consequences of the code, stated plainly:
- calculate.py's third mileage band for 800 miles is 300 (800 − 500). See `Transform.OneDayLongDriveScenario`.
- Only calculate_ultra_fast.py clamps the first band below at 0. calculate.py and the scalar builders clip it from above only, so the copies agree only for miles ≥ 0. See `UltraFast.VectorisedDiffersOnNegativeMiles`.
- 5 days with 0 miles is labelled low_efficiency, because 0 miles per day is below 50. See `Transform.FiveDayIdleScenario`.
- The pandas transforms accept zero days when miles and receipts are 0 too: 0 / 0 is NaN, which `fillna(0)` turns into 0. See `Transform.ZeroDayIdleScenario`.
- The pandas transforms divide by a negative day count, while the scalar builders' `days > 0` guard gives 0 ratios. See `CalculateFast.ScalarDiffersOnNegativeDays`.

## Model

| member | source | states |
|---|---|---|
| Transform.PerDay | calculate.py:25-29 | a per-day ratio times the day count gives the amount back, and 0 / 0 reads 0; defined exactly where the quotient is finite |
| Transform.FourDayBonus | calculate.py:32 | 150 exactly for four-day trips, 0 for every other day count |
| Transform.ReceiptMultiplier | calculate.py:35-42 | -0.5 for one day, 1.04 for five, 0.02 for eight or more, 1.0 otherwise |
| Transform.AdjustedReceipts | calculate.py:47-50 | receipts above 2000 count a quarter, others count in full; for non-negative receipts the result lies in [0, receipts] |
| Transform.Clip | calculate.py:55-57 | pandas `clip` returns a value inside the bounds: the value itself when it is inside, the lower bound when it is below, the upper bound when it is above |
| Transform.MileageTiers | calculate.py:55-57 | the three bands sum to the mileage; band 2 lies in [0, 400] and band 3 is ≥ 0; band 1 is ≤ 100, and ≥ 0 for non-negative miles; a band is used only once the band before it is full |
| Transform.EfficiencyFlag | calculate.py:60 | a 0/1 flag that is 1 exactly for 180 to 220 miles per day, both ends included |
| Transform.TripCategory | calculate.py:63-74 | each of the five labels is characterised by an if-and-only-if that spells out the first-match priority (quick, long haul, low efficiency, sweet spot, balanced) |
| Transform.OneHot | calculate.py:79 | every label's indicator columns are five bits with exactly one set |
| Transform.OneHotRoundTrip | calculate.py:79 | the label can be read back from its indicator columns |
| Transform.MakeRow | calculate.py:79-82 | an assembled row's indicator columns are the one-hot encoding of its label |
| Transform.RowFeatures | calculate.py:19-87 | the per-row transform, for every case whose ratios are finite: <br>• ratios times days give back miles and receipts, and both are 0 for zero days <br>• the four-day bonus, multiplier, receipt cap, mileage bands and efficiency flag are those of their own rules above <br>• multiplied = adjusted × multiplier <br>• the indicator columns decode to the chain's label <br>• the interaction term is days × miles |
| Transform.RowCategoryIsExclusive | calculate.py:63-79 | in every row exactly one indicator column is set |
| Transform.SweetSpotImpliesEfficiencyFlag | calculate.py:60-73 | a sweet-spot row always has the efficiency flag; the flag alone does not make the label (1 day at 200 miles is a quick trip) |
| Transform.FiveDayIdleScenario | calculate.py:25-82 | the full row for 5 days, 0 miles, 0 receipts, labelled low efficiency |
| Transform.OneDayLongDriveScenario | calculate.py:25-82 | the full row for 1 day, 800 miles, 100 receipts: bands 100/400/300, multiplier -0.5, quick-trip label |
| Transform.ZeroDayIdleScenario | calculate.py:25-82 | the full row for 0 days, 0 miles, 0 receipts: zero ratios, multiplier 1.0, labelled low efficiency |
| Transform.ReceiptCapScenario | calculate.py:47-50 | 2500 in receipts is cut to 625 for every nonzero day count |
| Partition.PrimaryGroup | calculate.py:107-108 | the outlier group exactly when receipts exceed 1400; the main group exactly when they do not |
| Partition.Filter | calculate.py:107-108 | the elements that pass, each one from the list, with every passing element of the list present |
| Partition.FilterMultiplicity | calculate.py:107-108 | a filter holds every passing value exactly as often as the list does, and no failing value |
| Partition.FilterPrefix | calculate.py:107-108 | filtering a prefix gives a prefix of the filter, so passing elements keep their relative order |
| Partition.FilterSplit | calculate.py:107-108 | filtering by a predicate and by its negation yields two parts whose multisets add up to the list's |
| Partition.PrimarySplitIsPartition | calculate.py:107-108 | main and outlier subsets: <br>• together hold every corpus case exactly as often as the corpus does <br>• a subset member has receipts on its side of 1400 <br>• a corpus case is in a subset exactly when the routing rule names that subset |
| Partition.CountPrefix | calculate_ultra_fast.py:122-124 | a prefix of the mask never has more matching entries than the whole mask |
| Partition.RankStep | calculate_ultra_fast.py:122-124 | the number of matching entries before a position grows by one exactly at a matching entry |
| Partition.Pick | calculate_ultra_fast.py:123-124 | mask selection returns as many rows as the mask has matching entries |
| Partition.PickAt | calculate_ultra_fast.py:123-124 | a selected row sits in the selection at the position given by the number of matching entries before it |
| Stats.Min | calculate.py:179 | the smallest value is in the list and is at most every entry |
| Stats.Max | calculate.py:179 | the largest value is in the list and is at least every entry |
| Stats.SumBounds | calculate.py:179 | n values in [lo, hi] sum to between n·lo and n·hi |
| Stats.Mean | calculate.py:179 | the mean of a non-empty list, taken once per entry, adds up to the list's total (mean × count = sum); it lies between the minimum and maximum |
| Stats.MeanIsUniformBlend | calculate.py:179 | the ensemble mean is the normalised weighted blend in which every member weighs the same |
| Stats.Normalize | scripts/calculate_multi_model.py:231-232 | the normalised weights: <br>• keep their count <br>• are positive <br>• sum to one <br>• each times the raw total gives its raw weight back <br>• keep the order of the raw weights |
| Stats.DotBounds | scripts/calculate_multi_model.py:234 | a non-negatively weighted sum of values in [lo, hi] lies between lo and hi times the total weight |
| Stats.DotProportional | scripts/calculate_multi_model.py:231-234 | weights k times smaller give a weighted sum k times smaller |
| Stats.BlendValue | scripts/calculate_multi_model.py:231-234 | the weighted sum under the normalised weights, times the raw total, is the weighted sum under the raw weights |
| Stats.WeightedBlend | scripts/calculate_multi_model.py:229-234 | the normalised weighted blend times the total weight is the weighted sum of the predictions, and it lies between the smallest and the largest prediction |
| Calculate.FeatureMatrix | calculate.py:110-111 | one engineered row per training case, in order, each the per-row transform of that case |
| Calculate.TrainModel | calculate.py:106-134 | five main trees (depth 12, leaf 3) fitted on exactly the ≤ 1400 cases; five outlier trees (depth 8, leaf 2) fitted on exactly the > 1400 cases; seeds 42, 123, 456, 789, 999 |
| Calculate.LoadOrTrain | calculate.py:143-147 | the stored ensembles when all are present, otherwise a fresh training run; always five per group |
| Calculate.Predict | calculate.py:143-194 | an error exactly for a case with an infinite ratio (zero days, nonzero miles or receipts); otherwise the mean of the five outputs of the ensemble the routing rule picks: five copies of the prediction add up to those outputs, so it lies between the smallest and the largest |
| Calculate.ServingMatchesTraining | calculate.py:150-153 | a corpus case is served by the ensemble trained on the subset that holds it, and sits in exactly one subset |
| Calculate.UnanimousEnsemble | calculate.py:179 | when every member of the chosen ensemble agrees, the mean is that value |
| UltraFast.FirstTrue | calculate_ultra_fast.py:40 | the position of the first true condition, or the count when none holds |
| UltraFast.Select | calculate_ultra_fast.py:40 | `np.select` returns the choice paired with the first true condition, else the default |
| UltraFast.SelectMultiplierMatchesChain | calculate_ultra_fast.py:34-40 | the `np.select` multiplier equals calculate.py's if-chain for every day count |
| UltraFast.SelectCategoryMatchesChain | calculate_ultra_fast.py:61-68 | the `np.select` label equals calculate.py's first-match chain for every input |
| UltraFast.ClippedTiers | calculate_ultra_fast.py:51-53 | band 1 in [0, 100], band 2 in [0, 400], band 3 ≥ 0; equal to calculate.py's bands and summing to the miles when miles ≥ 0; all zero below 0 |
| UltraFast.VectorisedMatchesRowWise | calculate_ultra_fast.py:21-76 | for finite ratios and miles ≥ 0 the vectorised row equals calculate.py's row |
| UltraFast.VectorisedDiffersOnNegativeMiles | calculate_ultra_fast.py:51 | at -10 miles band 1 is 0 here and -10 in calculate.py |
| UltraFast.OutlierMask | calculate_ultra_fast.py:122 | one entry per case, set exactly when the routing rule sends the case to the outlier group |
| UltraFast.GroupMeans | calculate_ultra_fast.py:138-142 | one value per selected row, each the mean of the group's ensemble outputs on that row |
| UltraFast.Scatter | calculate_ultra_fast.py:142 | masked assignment puts the k-th value into the k-th selected slot and leaves every other slot unchanged |
| UltraFast.SinglePredict | calculate_ultra_fast.py:161-212 | "models not found" exactly when the routed ensemble is empty; otherwise an error exactly for an infinite ratio; otherwise the mean of that ensemble's outputs: one copy of the value per member adds up to their total, and it lies between the extreme outputs |
| UltraFast.BatchPredict | calculate_ultra_fast.py:94-159 | "models not found" exactly when either ensemble is empty; otherwise a missing-columns error exactly for an empty batch; otherwise an error exactly when some case has an infinite ratio; otherwise one value per case, in input order, each equal to the single-case prediction for that case |
| CalculateFast.GuardedRatio | scripts/calculate_fast.py:18-19 | for positive days the ratio times days gives x back; otherwise it is 0 |
| CalculateFast.ScalarTiers | scripts/calculate_fast.py:39-41 | the `min`/`max` bands equal calculate.py's clipped bands for every mileage |
| CalculateFast.ScalarFeatures | scripts/calculate_fast.py:13-64 | the scalar row for any day count: <br>• guarded ratios, 0 when days ≤ 0 <br>• the four-day bonus, multiplier, receipt cap, mileage bands and efficiency flag of calculate.py's rules <br>• multiplied = adjusted × multiplier <br>• indicators one-hot for the chain's label <br>• the interaction term is days × miles |
| CalculateFast.NonPositiveDaysAreLowEfficiency | scripts/calculate_fast.py:18-55 | with days ≤ 0 the guard makes every trip low efficiency with multiplier 1.0 |
| CalculateFast.ScalarMatchesRowWise | scripts/calculate_fast.py:13-73 | for days ≥ 0 with finite ratios the scalar row equals calculate.py's row |
| CalculateFast.ScalarDiffersOnNegativeDays | scripts/calculate_fast.py:18-19 | at -1 day and 100 miles the scalar ratio is 0 while calculate.py's is -100 |
| CalculateFast.FeatureVector | scripts/calculate_fast.py:67-73 | 19 entries, beginning days, miles, receipts |
| CalculateFast.VectorRoundTrip | scripts/calculate_fast.py:67-73 | every named field can be read back from its position in the list |
| CalculateFast.FlagsAsReals | scripts/calculate_fast.py:71-72 | five indicators that total one still total one once written as list entries |
| CalculateFast.EncodedCategories | scripts/calculate_fast.py:47-61 | the five trailing entries are each 0 or 1 and sum to 1 |
| CalculateFast.SimpleFeatureEngineering | scripts/calculate_fast.py:13-73 | the list: <br>• has 19 entries <br>• starts with the inputs <br>• has exactly one trailing indicator set <br>• decodes to the scalar row |
| CalculateFast.SplitStep | scripts/calculate_fast.py:98-103 | each further case extends exactly one group's feature and label lists |
| CalculateFast.SplitTrainingSet | scripts/calculate_fast.py:89-103 | the loop's lists are the features and labels of exactly the main and outlier subsets, in corpus order, together as long as the corpus |
| CalculateFast.TrainFastModel | scripts/calculate_fast.py:106-112 | the main tree (depth 8, leaf 5) is fitted on the main lists and the outlier tree (depth 6, leaf 3) on the outlier lists, seed 42 |
| CalculateFast.PredictFast | scripts/calculate_fast.py:135-141 | the outlier tree answers exactly when receipts exceed 1400, the main tree otherwise |
| AdvancedMulti.SpecialistSlices | scripts/calculate_advanced_multi.py:125-134 | the two slices: <br>• share no case <br>• each holds exactly the corpus cases with days ≤ 2 or days ≥ 8, whatever their receipts <br>• a short case is also in a primary subset |
| AdvancedMulti.TrainSpecialist | scripts/calculate_advanced_multi.py:126-129 | a depth-10, leaf-2 tree exists exactly when the slice has at least 20 cases |
| AdvancedMulti.TrainAdvanced | scripts/calculate_advanced_multi.py:99-140 | main tree (12, 3) on the ≤ 1400 cases, outlier tree (8, 2) on the > 1400 cases, and each specialist present exactly when its slice reaches 20 cases and fitted on that slice |
| AdvancedMulti.Specialist | scripts/calculate_advanced_multi.py:193-203 | at most one specialist: short only for days ≤ 2, long only for days ≥ 8, each only when loaded; none exactly when that model is missing or days are 3 to 7 |
| AdvancedMulti.BlendWeightsAreNormal | scripts/calculate_advanced_multi.py:190-208 | the weights 0.8 and 0.2 sum to one, so normalising leaves them unchanged |
| AdvancedMulti.TwoModelBlend | scripts/calculate_advanced_multi.py:206-209 | the two-model blend is 0.8 × primary + 0.2 × specialist |
| AdvancedMulti.PredictAdvanced | scripts/calculate_advanced_multi.py:177-211 | an error exactly for an infinite ratio; otherwise, without a specialist, the primary prediction itself; with one, 0.8 × primary + 0.2 × specialist, between the two |
| AdvancedMulti.DummyColumns | scripts/calculate_advanced_multi.py:75 | a training frame has a `cat_*` column for every label that occurs in it and for no other |
| AdvancedMulti.TrainedColumns | scripts/calculate_advanced_multi.py:99-140 | each of the four trees knows exactly the labels of its own training slice (main, outlier, short, long); so the long specialist knows at most `cat_long_haul`, and the short one neither `cat_long_haul` nor `cat_sweet_spot_efficiency` |
| AdvancedMulti.SpecialistColumns | scripts/calculate_advanced_multi.py:193-203 | the columns of the specialist that joins, present exactly when a specialist joins |
| AdvancedMulti.PredictAdvancedAsWritten | scripts/calculate_advanced_multi.py:184-226 | an error exactly when the case has an infinite ratio or the joining specialist was fitted on other columns than the primary tree; otherwise the same value as `PredictAdvanced` |
| AdvancedMulti.LongColumnsAreLongHaul | scripts/calculate_advanced_multi.py:134-138 | every case of the long slice is labelled long haul, so the long specialist has at most that one `cat_*` column |
| AdvancedMulti.ShortColumnsAreNarrow | scripts/calculate_advanced_multi.py:125-129 | no case of the short slice is labelled long haul or sweet spot |
| AdvancedMulti.PrimaryColumnsHold | scripts/calculate_advanced_multi.py:99-104 | a corpus case's label is a column of the primary tree the routing rule picks for it |
| AdvancedMulti.LongSpecialistRefusesPrimaryFrame | scripts/calculate_advanced_multi.py:184-201 | with a trained long specialist, a trip of 8 or more days fails once its primary tree saw a label other than long haul |
| AdvancedMulti.ShortSpecialistRefusesPrimaryFrame | scripts/calculate_advanced_multi.py:184-195 | with a trained short specialist, a trip of at most 2 days fails once its primary tree saw a long-haul or sweet-spot case |
| AdvancedMulti.SpecialistMatchesTraining | scripts/calculate_advanced_multi.py:193-203 | a specialist that joins a corpus case's prediction was fitted on the slice holding that case |
| MultiModel.MultiRow | scripts/calculate_multi_model.py:20-68 | apart from the five indicators, every column equals calculate_fast.py's row for the same case; long haul is set exactly for 8 days or more, low efficiency exactly below 50 miles per day |
| MultiModel.MultiFeatures | scripts/calculate_multi_model.py:63-68 | 19 entries, beginning days, miles, receipts, decoding to the independent-flag row |
| MultiModel.IndependentFlags | scripts/calculate_multi_model.py:51-58 | the independent indicators: <br>• all bits <br>• balanced exactly when the other four are clear, so at least one is set <br>• each of the four is its own test <br>• `cat_sweet` equals the efficiency flag |
| MultiModel.ChainLabelIsFlagged | scripts/calculate_multi_model.py:54-58 | the label the first-match chain picks is always flagged here too |
| MultiModel.FlagsOverlap | scripts/calculate_multi_model.py:54-58 | 8 days at 200 miles per day sets both long and sweet, two flags at once |
| MultiModel.MatchesScalarIffExclusive | scripts/calculate_multi_model.py:54-58 | the row equals calculate_fast.py's row exactly when a single indicator is set |
| MultiModel.TripLengthOf | scripts/calculate_multi_model.py:70-79 | short exactly for days ≤ 3, medium exactly for 4 to 6, long exactly for ≥ 7 |
| MultiModel.FilterSplit3 | scripts/calculate_multi_model.py:104-109 | three mutually exclusive, exhaustive filters together hold the list exactly |
| MultiModel.BucketMembers | scripts/calculate_multi_model.py:104-109 | a case is in a bucket exactly when it is a corpus case that `get_trip_category` sends there |
| MultiModel.BucketsPartition | scripts/calculate_multi_model.py:104-109 | the three buckets together hold every corpus case exactly as often as the corpus does |
| MultiModel.BucketSizes | scripts/calculate_multi_model.py:104-109 | the three bucket sizes add up to the corpus size |
| MultiModel.BucketGrows | scripts/calculate_multi_model.py:104-109 | one more corpus case appends its sample to its own bucket's list |
| MultiModel.BucketKeeps | scripts/calculate_multi_model.py:104-109 | one more corpus case leaves every other bucket's list unchanged |
| MultiModel.BucketCases | scripts/calculate_multi_model.py:95-109 | the loop's three lists are the samples of exactly each bucket, in corpus order, together as long as the corpus |
| MultiModel.TrainBucket | scripts/calculate_multi_model.py:122-138 | a forest (20 trees, depth 8, leaf 2, seed 42) exactly when the bucket has at least 10 samples, fitted on those samples |
| MultiModel.TrainMulti | scripts/calculate_multi_model.py:121-138 | each bucket has a forest exactly when it holds at least 10 cases, fitted on that bucket's features and labels |
| MultiModel.SquaredErrors | scripts/calculate_multi_model.py:163 | one squared difference per position, never negative |
| MultiModel.Mse | scripts/calculate_multi_model.py:163 | the mean squared error, taken once per position, adds up to the total squared error; it is never negative |
| MultiModel.InverseErrors | scripts/calculate_multi_model.py:167 | every inverse is positive and times (error + 1e-6) gives one |
| MultiModel.InverseReversesOrder | scripts/calculate_multi_model.py:167 | a larger error never gets a larger inverse |
| MultiModel.InverseWeightsBalance | scripts/calculate_multi_model.py:167-170 | weights proportional to the inverse errors make weight × (error + 1e-6) the same for every model |
| MultiModel.EnsembleWeights | scripts/calculate_multi_model.py:154-171 | [1.0] for no models; otherwise one positive weight per model, summing to one, each weight times the total of the inverse errors equal to its model's inverse error, weight × (MSE + 1e-6) the same for every model, and a model with no larger error never getting a smaller weight |
| MultiModel.Secondary | scripts/calculate_multi_model.py:222-226 | another bucket contributes one 0.15 entry exactly when it is loaded and is not the case's own |
| MultiModel.Own | scripts/calculate_multi_model.py:216-219 | the case's own bucket contributes one 0.7 entry exactly when it is loaded |
| MultiModel.Votes | scripts/calculate_multi_model.py:212-226 | every contribution comes from a loaded model, weighted 0.7 for the case's own bucket and 0.15 otherwise; the own bucket comes first when loaded; no contribution exactly when nothing is loaded |
| MultiModel.VotesCoverLoaded | scripts/calculate_multi_model.py:215-226 | every loaded bucket contributes exactly once and an unloaded one never |
| MultiModel.PredictMulti | scripts/calculate_multi_model.py:200-239 | with a model loaded, the result times the total vote weight is the vote-weighted sum of the loaded forests' predictions, and lies between the smallest and largest of them; with none, days·100 + miles·0.6 + receipts·0.8 |
| MultiModel.AllLoadedShares | scripts/calculate_multi_model.py:216-232 | with all three loaded the normalised weights are 0.7, 0.15, 0.15, own bucket first |
| MultiModel.PrimaryOutweighs | scripts/calculate_multi_model.py:216-232 | a loaded own-bucket forest never gets a smaller normalised weight than any other contributor |
| MultiModel.OwnAndOneOther | scripts/calculate_multi_model.py:212-234 | with the own forest and exactly one other loaded, 0.85 × the result = 0.7 × own prediction + 0.15 × other prediction |
| MultiModel.SingleModelAnswers | scripts/calculate_multi_model.py:229-234 | with exactly one forest loaded the prediction is that forest's output, whatever the case's bucket |

## Left out

- Learning: the regressors' `fit` and `predict` are library code. Fitted models are opaque function values and `fit` is a parameter, so nothing is claimed about what a tree or forest computes.
- Persistence and process control are not modelled. This covers:
  - joblib files and `os.path.exists` checks;
  - reading the JSON corpus and `sys.argv` parsing;
  - printing with two decimals and `sys.exit`;
  - the module-level model caches.
- Persistence is replaced by values:
  - stored models are an `Option` (`Calculate.LoadOrTrain`) or plain parameters (`UltraFast.BatchPredict`, `CalculateFast.PredictFast`, `AdvancedMulti.PredictAdvanced`, `MultiModel.PredictMulti`);
  - "exit with an error" is an `Err` result: `ModelsNotFound`, `NonFiniteInput`, `FeatureMismatch` or `MissingColumns`.
- Files shared between scripts are not modelled. scripts/calculate_fast.py and scripts/calculate_advanced_multi.py write the same main and outlier model file names, so either can load the other's models.
- Floating point: all arithmetic is over exact reals. Statements such as "weights sum to one" hold exactly here and only up to rounding in the scripts.
- Non-finite inputs: NaN and infinite miles or receipts are not modelled. A zero day count with nonzero miles or receipts gives an infinite ratio. The model does not compute that infinity; it returns `Err(NonFiniteInput)`, because the learning library refuses infinite input. calculate.py, calculate_ultra_fast.py's single mode and calculate_advanced_multi.py report that as invalid input. calculate_ultra_fast.py's batch mode does not catch it and stops. An empty batch file likewise stops that mode: `pd.json_normalize([])` has none of the three input columns, so selecting them raises; the model returns `Err(MissingColumns)`.
- Calculate.TrainModel: requires every corpus case to have finite ratios. A corpus case with zero days and nonzero miles or receipts makes `fit` raise, and that is not modelled. The same requirement holds for `Calculate.Predict`'s corpus and for `AdvancedMulti.TrainAdvanced`.
- `reindex(columns=..., fill_value=0)` for the tree the frame was reindexed to is modelled as the full named row. The opaque model reads that row. Reindexing drops a column the tree was not fitted on, and fills a fitted column that the case's frame lacks with 0. Which columns each tree was fitted on is modelled only by `AdvancedMulti.TrainedColumns`, where it changes the outcome (see Findings).
- Calculate.TrainModel: also passes empty subsets to `fit` unchanged. The learning library raises an error on an empty training set, and that error is not modelled. The same holds for `CalculateFast.TrainFastModel` and the main and outlier trees of `AdvancedMulti.TrainAdvanced`.
- MultiModel.EnsembleWeights: requires a non-empty `actual` list whenever prediction lists are given. numpy's mean over an empty array is NaN, and NaN is not modelled.
- MultiModel.TrainMulti: does not model the per-bucket training predictions or the constant weights `[0.4, 0.35, 0.25]` it saves. `load_models` reads those weights back, but `predict_multi_model` never uses them, and nothing calls `calculate_ensemble_weights`.
- scripts/analyze.py, analyze2.py, scripts/analyze3.py and scripts/quick_test.py are exploratory printing and subprocess comparison scripts, so they are not part of this model.

## Findings

| source | as written | input that shows it | evidently intended | confidence | as-written member | corrected member |
|---|---|---|---|---|---|---|
| scripts/calculate_advanced_multi.py:184-201 | The frame reindexed to the primary tree's columns is also handed to the specialist. The specialist was fitted on its own slice, whose `cat_*` columns are narrower: the long slice has only `cat_long_haul`, and the short slice never has `cat_long_haul` or `cat_sweet_spot_efficiency`. | A trip of 8 days or more, with a trained long specialist, when the primary tree's training subset holds any case not labelled long haul. The long specialist rejects the frame, and the program reports invalid input instead of an amount (`AdvancedMulti.LongSpecialistRefusesPrimaryFrame`; the short specialist likewise, `AdvancedMulti.ShortSpecialistRefusesPrimaryFrame`). | Each specialist reads the case with its own columns, so it joins the 0.8/0.2 blend. | not executed; relies on scikit-learn refusing a frame whose feature names differ from those seen in fit | AdvancedMulti.PredictAdvancedAsWritten | AdvancedMulti.PredictAdvanced |
