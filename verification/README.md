# Nairobi livability model: labelling, splitting and cross-validation core

This project models the decision and partitioning logic of `app.js`, an Earth
Engine script. The script builds a synthetic "livability" label for each pixel
from vegetation (NDVI) and built-up (NDBI) indices plus a small random jitter.
It samples labelled pixels and splits them 70/30 on a per-sample random key. It
trains classifiers on six bands (`NDVI, LST_C, NDBI, Slope, Pop_Density,
Noise`), scores them with a confusion matrix, and runs a 5-fold
cross-validation. Finally it predicts over the whole region with the jitter
band fixed at zero.

All numbers are Dafny `real`s, that is, exact rationals. Classifiers are opaque:
a trained model is a function `FeatureVector -> Label`, and a training algorithm
is a function from a sample sequence to such a model.

Modules, one file each:

- `Options` (`options.dfy`): `Option`. It marks an undefined result, such as a
  masked pixel or an accuracy over no samples.
- `Seqs` (`seqs.dfy`): an order-preserving `Filter`, the shape of every
  collection filter, with its multiset facts, and the union of a sequence of
  bags.
- `Features` (`features.dfy`): the feature vector and its band order. Also the
  training vector, which is the filled layers plus the jitter, and the
  prediction vector, which is the same layers plus a zero band.
- `ProxyLabel` (`proxy_label.dfy`): the three-way label rule and the jitter
  range.
- `Samples` (`samples.dfy`): the sample record, key filters (`lt`, `gte`,
  `neq`) and the train/test split.
- `Evaluation` (`evaluation.dfy`): the confusion matrix as a fold over
  (actual, predicted) pairs, the accuracy (trace / total), and scoring a model
  on a sample set.
- `CrossValidation` (`cross_validation.dfy`): fold ranges `[i/k, (i+1)/k)`,
  the training fold as written and as intended, and the map from fold index to fold accuracy.
- `Prediction` (`prediction.dfy`): per-pixel prediction, clipped to the county boundary.

## Model

| member | source | states |
|---|---|---|
| Features.Values | app.js:171 | a feature vector lists exactly as many values as there are band names, and position b holds the band named by entry b of the classifier input list |
| Features.FromValues | app.js:171 | reading a six-value band list back gives a vector whose band list is that list |
| Features.ValuesRoundTrip | app.js:171 | a feature vector is determined by its band list |
| Features.TrainingVector | app.js:135 | a training vector is the five input layers (masked values filled with 0, as the stack at line 109 does), in stacking order, followed by the pixel's jitter |
| Features.PredictionVector | app.js:248-250 | a prediction vector is the same five filled layers in the same order, followed by a constant 0 |
| Features.ZeroNoise | app.js:249-250 | zeroing the jitter sets the band at the jitter position, which is the one named `Noise`, to 0 and leaves every other band unchanged |
| Features.PredictionMatchesTraining | app.js:246-250 | for any jitter, a pixel's prediction vector is its training vector with the jitter zeroed: same arity, same order, every non-jitter band equal, jitter 0 |
| ProxyLabel.NoiseFromUniform | app.js:121 | a uniform draw in [0, 1) scaled by 0.05 lies in [0, 0.05), and only a zero draw gives zero jitter |
| ProxyLabel.ClassOf | app.js:124-129 | every proxy label is 1, 2 or 3, whatever NDVI, NDBI and jitter are |
| ProxyLabel.LabelPixel | app.js:124-129 | a pixel has no label exactly when it is outside the county boundary or its NDVI or NDBI is masked; otherwise the label is the rule applied to the values in its training vector |
| ProxyLabel.ShortCircuitOrder | app.js:125-127 | label 3 exactly when NDVI > 0.5 and NDBI < 0.3, independent of the jitter; label 2 exactly when that fails and NDVI > 0.3 + jitter and NDBI < 0.4 + jitter; label 1 exactly when both fail |
| ProxyLabel.LabelMonotone | app.js:125-127 | under the same jitter, higher NDVI never lowers the label and higher NDBI never raises it |
| ProxyLabel.NoiseOnlyMattersNearBoundary | app.js:121-129 | with jitter in [0, 0.05), the label differs from the zero-jitter label only when NDVI is in (0.3, 0.35) or NDBI is in [0.4, 0.45) |
| ProxyLabel.NdviBoundaryIsTight | app.js:126 | every NDVI in (0.3, 0.35) has some NDBI and some jitter in range that change the label |
| ProxyLabel.NdbiBoundaryIsTight | app.js:126 | every NDBI in [0.4, 0.45) has some NDVI and some jitter in range that change the label |
| ProxyLabel.ToyRaster | app.js:125-127 | with zero jitter, NDVI [0.6, 0.35, 0.1, 0.4] and NDBI [0.2, 0.35, 0.5, 0.2] label to [3, 2, 1, 2] |
| Samples.MakeSample | app.js:121-135 | a pixel yields a sample exactly when it has a label under the jitter scaled from its uniform draw; the sample carries the pixel's training vector with that jitter, which lies in [0, 0.05) for a draw in [0, 1), and its split key |
| Samples.SampleLabelFromFeatures | app.js:124-135 | a sample's label is the proxy rule applied to the NDVI, NDBI and jitter bands of its own feature vector |
| Samples.TrainSet | app.js:163 | the training half holds exactly the input samples whose key is below 0.7, and no more samples than the input |
| Samples.TestSet | app.js:164 | the test half holds exactly the input samples whose key is at least 0.7, and no more samples than the input |
| Samples.SplitIsExact | app.js:162-164 | training keys are below 0.7 and test keys are not; no sample is in both; together the halves hold every sample as often as the input does; their sizes sum to the input size |
| Samples.TestSetEmpty | app.js:164 | the test set is empty exactly when every key is below 0.7 |
| Seqs.Filter | app.js:163-164 | a filter keeps exactly the input elements that pass, and never more elements than the input |
| Seqs.FilterSplit | app.js:163-164 | two complementary filters split a sequence exactly, in contents with multiplicity and in length |
| Evaluation.ErrorMatrix | app.js:195-196 | each cell (actual a, predicted p) counts the outcomes whose pair is (a, p) |
| Evaluation.Accuracy | app.js:198-199 | accuracy is undefined exactly when the matrix is empty; otherwise it lies in [0, 1]; it is 1 exactly when all counts are on the diagonal and 0 exactly when none are |
| Evaluation.ErrorMatrixTotals | app.js:195-198 | the matrix total is the number of outcomes and its trace is the number of correct predictions |
| Evaluation.AccuracyOfOutcomes | app.js:195-199 | accuracy is undefined exactly on an empty run, otherwise it equals correct predictions / outcomes; it is 1 exactly when every prediction equals the actual label |
| Evaluation.CorrectlyPredicted | app.js:192-196 | the correctly predicted samples are exactly the test samples whose label the model predicts from their own features |
| Evaluation.Outcomes | app.js:192-193 | classifying a sample set gives one (actual, predicted) pair per sample, in order, and its correct pairs are as many as the correctly predicted samples |
| Evaluation.NoneCorrect | app.js:192-199 | no sample is predicted correctly exactly when every prediction differs from its sample's label |
| Evaluation.Evaluate | app.js:192-199 | scoring a model is undefined exactly on an empty test set; otherwise it is the share of test samples predicted correctly, in [0, 1], 1 exactly when every test label is predicted and 0 exactly when none is |
| Evaluation.HoldOutAccuracy | app.js:173-199 | hold-out accuracy of a model trained on the keys below 0.7 is undefined exactly when no key reaches 0.7, otherwise in [0, 1] |
| CrossValidation.FoldOfIsTheFold | app.js:307-308 | a key lies in fold i's range [i/k, (i+1)/k) exactly when i is the floor of key * k |
| CrossValidation.ExactlyOneFold | app.js:306-308 | for k >= 1, every key in [0, 1) lies in exactly one fold range, and that fold's index is in 0 .. k-1 |
| CrossValidation.ValidationFold | app.js:307-308 | fold i's validation set is exactly the input samples whose key lies in [i/k, (i+1)/k) |
| CrossValidation.TrainingFoldAsWritten | app.js:309 | the training fold as written holds every input sample, the validation fold's included |
| CrossValidation.AsWrittenTrainingOverlaps | app.js:309 | the training filter as written removes nothing: it returns the whole input, so every validation sample is also trained on |
| CrossValidation.AsWrittenCounterexample | app.js:309 | one sample with key 0.1: fold 0 of 5 both validates on it and trains on it as written |
| CrossValidation.TrainingFold | app.js:309 | the intended training fold is exactly the input samples whose key is outside fold i's range |
| CrossValidation.TrainingFoldPartitions | app.js:306-311 | a fold's training and validation sets share no sample; together they hold every sample as often as the input does; their sizes sum to the input size |
| CrossValidation.FoldsDisjoint | app.js:306-308 | two different folds share no sample |
| CrossValidation.FoldsCover | app.js:306-308 | with keys in [0, 1), the union of the k validation folds, counted with multiplicity, is the input, and each sample is in some fold |
| CrossValidation.FoldAccuracy | app.js:309-313 | a fold's accuracy is undefined exactly when its validation set is empty, otherwise in [0, 1] |
| CrossValidation.CrossValidate | app.js:305-317 | exactly k accuracies, entry i is fold i's accuracy of a fresh model trained on fold i's complement, and entry i is undefined exactly when fold i is empty |
| Prediction.Predict | app.js:248-253 | a pixel's predicted label is the classifier applied to the pixel's training vector with the jitter zeroed, whatever jitter that vector carried |
| Prediction.PredictRaster | app.js:248-254 | the prediction raster has one entry per pixel; entry i is undefined exactly when pixel i is outside the county boundary, and otherwise is the prediction for pixel i |
| Prediction.PredictDependsOnlyOnLayers | app.js:248-253 | the predicted label reads only a pixel's five layers: two pixels with the same layer values get the same label, whatever their region flags |
| Prediction.PredictionIsPixelLocal | app.js:253-254 | two pixels with the same region flag and layer values get the same entry, at any index of either raster |

## Left out

- Asset loading and region selection (app.js:81-106) are remote raster services. A pixel's five layers are inputs, and `None` marks a masked value. Clipping to the county boundary is kept only as a per-pixel `inRegion` flag: the label raster (app.js:129) and the prediction rasters (app.js:249, 253) have no value outside it. The model does not tie the flag to the layers' own masks.
- The Kelvin-to-Celsius conversion (app.js:94) and the terrain slope and hillshade (app.js:97-99) are left out. They are floating-point raster arithmetic with no contract of interest. `LST_C` and `Slope` are taken as inputs.
- Random number generation is left out. The jitter comes from `ee.Image.random` seeded with the wall clock (app.js:121), and the split key comes from `randomColumn` (app.js:162). The uniform draw and the key are inputs. Because the seed is the wall clock, the label surface is not reproducible from one run to the next. Both are inputs, so the model does not depend on how they are seeded.
- Stratified sampling (app.js:139-146) and the chart sample (app.js:342-350) are library sampling whose allocation is not visible. `MakeSample` only relates a drawn pixel to its sample. Sample locations are not modelled.
- Random Forest and CART training (app.js:173-183, 310-311) are opaque. A training algorithm is a function parameter, and the tree counts (100 and 50) are not represented. The library's failure on an empty or single-class training set is not modelled: the trainer parameter is total.
- Feature importance (app.js:226-228) is an opaque library output and is left out.
- Floating point is left out. Thresholds such as `0.3 + Noise` and fold bounds such as `(i+1)/k` are exact rationals here, not doubles. Rounding at the boundaries is not modelled.
- The confusion matrix is 3x3 over labels 1..3. The library sizes the matrix by the largest label plus one, which adds an all-zero row and column 0. That changes neither the trace nor the total.
- The `toByte` cast (app.js:129) is the identity on labels 1..3.
- A classifier's output is typed as a label 1..3, so a model that predicts outside that range cannot be expressed.
- The UI, legends, charts, map layers and Drive export (app.js:17-71, 201-240, 256-295, 319-414) are left out.

## Findings

| source | as written | input that shows it | evidently intended | confidence | as-written member | corrected member |
|---|---|---|---|---|---|---|
| app.js:309 | the training fold is `ee.Filter.neq('random', fold)`, which compares each numeric key with the fold collection itself; a number never equals a collection, so every sample passes | one sample with key 0.1 and k = 5: fold 0 validates on that sample and also trains on it | train on the samples whose key is outside `[i/k, (i+1)/k)`, so that training and validation are disjoint and together cover the input | medium: this assumes the library compares a number with a collection as "not equal"; not executed | CrossValidation.TrainingFoldAsWritten (shown by CrossValidation.AsWrittenTrainingOverlaps and CrossValidation.AsWrittenCounterexample) | CrossValidation.TrainingFold (proved by CrossValidation.TrainingFoldPartitions; used by CrossValidation.CrossValidate) |
