# Perceptron demo: a Dafny model

This project models the learning core of a small perceptron demo written in
Python with numpy. The core has three parts:

- **Points** (`point.py`): an n-dimensional point with a label, the margin
  measure `find_d`, the sign classifier `theta` and its destructive form
  `classify`.
- **Benchmark generation** (`benchmark.py`): draw a random hyperplane
  `w_star`, rejection-sample random points whose margin against it exceeds
  `gamma` until there are `n` of them, then label each point with `w_star`.
- **Training** (`perceptron.py`): start from random weights and make passes
  over the data set. In each pass, classify every point in index order and
  correct the weight array in place. Stop after a pass that leaves the
  weights exactly equal to a copy taken before it.

Numbers are exact reals. A weight vector holds the bias at index 0 and one
coefficient per coordinate after it. The random draws are parameters: every
draw is a real in [0, 1).

Modules:

- `Wrappers` holds `Option`, the "no value" result.
- `Vectors` holds the dot product, the componentwise shift that a training
  step applies, and their algebra.
- `Geometry` models `point.py`. `Point` is a class whose `ell` field
  `Classify` overwrites in place. `FindD` and `Theta` are functions of the
  coordinates.
- `Benchmark` models `benchmark.py`. `Generate` is imperative: a sampling
  loop that appends `Point` objects, then a labelling pass that classifies
  each one in place.
  - The sampling loop is specified by the function `Accepted`: the accepted
    candidates of the stream, in draw order.
  - The labelling pass (`LabelAll`) is specified by `Theta`: each point's
    label becomes its classification by `w_star`.
  - `scale` defaults to 1, as in the source.
- `Training` models `perceptron.py`.
  - `Step`, `Epoch` and `Train` update an `array<real>` in place.
  - Each is proved against a function on sequences:
    - `StepOf`: one point;
    - `EpochOf`: one pass in index order;
    - `Settle`: the whole loop, including the exact-equality stop.
  - `Perceptron` is the whole procedure.

Training's update rule is `w -= c * (ell + y) * [1, x]`. It changes nothing
for a misclassified point and moves the weights for a correctly classified
one. The comment next to it says the opposite. Every training member
therefore takes an `UpdateRule`:

- `AsWritten` is the code: correction `ell + y`.
- `Intended` is the rule the comment describes: correction `y - ell`, the
  textbook perceptron step.

The properties are proved for each rule (see Findings).

The source loops have no bound. The model replaces each with a bounded loop
and reports how it ended:

- Rejection sampling reads a finite stream of candidate draws. `sampled`
  says whether `n` candidates passed before the stream ran out.
- Training takes at most `maxEpochs` passes. `converged` says whether the
  loop stopped on its own.

## Model

| member | source | states |
|---|---|---|
| Geometry.StoredLabel | point.py:29 | The constructor's filter as written stores -1 exactly when given -1; every other argument, including 1, is stored as 0. |
| Geometry.IntendedLabel | point.py:21-29 | The filter the documentation describes keeps -1, 0 and 1 and maps every other argument to 0: it keeps its argument exactly when that is -1, 0 or 1, and its result is always one of those. |
| Geometry.StoredLabelDropsPositive | point.py:29 | The filter as written turns 1 into 0. The documented filter keeps 1. The two agree on every argument except 1. |
| Geometry.Point.constructor | point.py:21-30 | A new point holds the given coordinates and the label the filter as written lets through (0 by default). |
| Geometry.FindD | point.py:32-41 | The margin measure is never negative. Times the dimension len(w) - 1, it equals the absolute score abs(x . w[1..] + w[0]). |
| Geometry.Theta | point.py:44-55 | There is no value exactly when len(x) + 1 != len(w). Otherwise the result is 1 or -1, and it is 1 exactly when the score is strictly positive, so a zero score gives -1. |
| Geometry.Classify | point.py:58-71 | The result equals theta. On a dimension mismatch the label is untouched. Otherwise the label becomes the classification. Only the label can change. |
| Geometry.MarginedLabelSeparates | benchmark.py:38 | A point whose margin exceeds a non-negative gamma is classified, and its label times its score exceeds gamma times the dimension. |
| Benchmark.ScaledInBox | benchmark.py:32 | Each scaled draw (2r - 1) * scale, for r in [0, 1) and scale > 0, lies in [-scale, scale). |
| Benchmark.AcceptedMembers | benchmark.py:36-38 | A vector is among the accepted points exactly when it was drawn, matches w_star's dimension and has margin above gamma. Rejected candidates never appear. |
| Benchmark.AcceptedPrefix | benchmark.py:36-38 | Accepting from the first k draws gives a prefix of what the whole stream accepts, so the loop keeps the accepted points in draw order. |
| Benchmark.AcceptedInBox | benchmark.py:37-38 | Accepted points inherit the box bound of the candidates, the matching dimension and the margin above gamma. |
| Benchmark.SamplePoints | benchmark.py:35-38 | The rejection loop keeps exactly the accepted candidates among those drawn, never more than max(n, 0). It stops early only when the stream is used up. Each kept point is a new, unlabelled object. |
| Benchmark.LabelAll | benchmark.py:41 | After the labelling pass every point's label is theta of it against the hyperplane. The coordinates are unchanged. |
| Benchmark.Generate | benchmark.py:19-43 | w_star is the scaled draws (scale defaults to 1). When `sampled`, the result is the first max(n, 0) accepted candidates in draw order, each labelled by w_star. `sampled` holds exactly when the stream has at least n acceptable candidates. Every point has i coordinates and a margin above gamma. For scale > 0, w_star and the points lie in [-scale, scale). |
| Vectors.ShiftedAt | perceptron.py:50-51 | Component k of a shifted vector is v[k] - t * x[k]. |
| Vectors.ShiftedByZero | perceptron.py:49-51 | A shift by zero leaves the vector as it was. |
| Vectors.DotShift | perceptron.py:50-51 | Shifting v by -t * x changes its dot product with x by exactly -t * (x . x). |
| Training.Step | perceptron.py:47-51 | The weight array after one step equals StepOf of the weights before it: the output is computed first, then the bias and every coefficient are corrected. |
| Training.StepOfComponents | perceptron.py:50-51 | A step subtracts c times the correction from the bias, and that times x[k] from coefficient k + 1. The correction is taken at the output before the step. |
| Training.QuietSteps | perceptron.py:49-51 | With labels of -1 or 1, the correction as written is zero exactly on misclassified points, and the intended correction exactly on correctly classified ones. |
| Training.QuietStepIsFixed | perceptron.py:49-51 | A step whose correction is zero changes nothing. |
| Training.AsWrittenMisclassifiedStepIsFixed | perceptron.py:49-51 | Under the rule as written, a step on a misclassified point leaves the weights unchanged. |
| Training.IntendedCorrectStepIsFixed | perceptron.py:49 | Under the intended rule, a step on a correctly classified point leaves the weights unchanged. |
| Training.ScoreAfterStep | perceptron.py:50-51 | A step of size t lowers the stepped point's score by exactly t * (1 + x . x). |
| Training.AsWrittenCorrectStepPushesAway | perceptron.py:50-51 | Under the rule as written, a correctly classified point with c > 0 moves the bias by -2 * c * ell, which is nonzero. Its signed score ell * score strictly drops, so the point is pushed toward the wrong side. |
| Training.IntendedMisclassifiedStepPullsToward | perceptron.py:49-51 | Under the intended rule, a misclassified point with c > 0 moves the bias by 2 * c * ell. Its signed score strictly grows. |
| Training.ZeroScoreExample | perceptron.py:47-51 | Take w = [0, 0, 0], x = [1, 1], ell = 1 and c = 0.1. The output is -1, the rule as written leaves w unchanged, and the intended rule gives [0.2, 0.2, 0.2]. |
| Training.Epoch | perceptron.py:45-51 | One pass leaves the weight array equal to EpochOf of its previous value: steps on the points in index order 0 .. len(d) - 1. |
| Training.QuietPassIsFixed | perceptron.py:45-51 | A pass from point j on changes nothing when every remaining step is quiet at the current weights. |
| Training.QuietEpochIsFixed | perceptron.py:45-51 | A pass in which every step is quiet at the starting weights changes nothing. |
| Training.AllMisclassifiedEpochIsFixed | perceptron.py:45-51 | Under the rule as written, a pass starting from weights that misclassify every point changes nothing. |
| Training.AllCorrectEpochIsFixed | perceptron.py:45-51 | Under the intended rule, a pass starting from weights that classify every point correctly changes nothing. |
| Training.Train | perceptron.py:40-61 | The weights, the pass count and the stop flag equal Settle of the starting weights. Settle makes passes until one leaves the weights exactly equal to the copy taken before it, or the bound is reached. The data set is only read. |
| Training.SettleIterates | perceptron.py:40-61 | Training ends with the starting weights after `epochs` passes, and epochs <= bound. When it stopped on its own, the final weights are a fixed point of a pass; otherwise the bound was used up and the last pass made (if any) changed the weights. |
| Training.SettleStopsAtFirstFixedPoint | perceptron.py:40-61 | Training stops at the first fixed point: every pass before the last one changed the weights. |
| Training.IterateStep | perceptron.py:40-61 | The weights after e + 1 passes are one more pass applied to the weights after e passes. |
| Training.IterateFixed | perceptron.py:40-61 | Once the weights are a fixed point of a pass, any number of further passes leaves them as they are. |
| Training.SettleStopsAtFixedIterate | perceptron.py:40-61 | If the weights after e passes are a fixed point of a pass and the bound allows one more pass, training stops on its own within e + 1 passes, ending with those weights. |
| Training.AsWrittenAllMisclassifiedStopsThere | perceptron.py:40-61 | Under the rule as written, if the weights at the start of some pass misclassify every point, training stops on its own after at most that pass, with those weights. |
| Training.IntendedAllCorrectStopsThere | perceptron.py:40-61 | Under the intended rule, if the weights at the start of some pass classify every point correctly, training stops on its own after at most that pass, with those weights. |
| Training.AsWrittenAllMisclassifiedStopsAtOnce | perceptron.py:40-61 | Under the rule as written, weights that misclassify every point end training after one pass, unchanged. |
| Training.IntendedAllCorrectStopsAtOnce | perceptron.py:40-61 | Under the intended rule, weights that classify every point correctly end training after one pass, unchanged. |
| Training.Perceptron | perceptron.py:17-63 | Generates the data set and starts from the i + 1 initial draws. The data set is what Generate promises: w_star is the scaled draws, every candidate has w_star's dimension, `sampled` holds exactly when the stream has at least n acceptable candidates, and the points are the accepted candidates in draw order (the first max(n, 0) when sampled), each with i coordinates and margin above gamma. When sampling succeeds, the result is Settle of the initial weights over the data set. Otherwise there is no training and the weights are the initial draws. When it converges, the final weights are a fixed point of a pass. |

## Left out

- `visualize.py` and `example.py` are not part of this model. They hold the plotting and a driver script.
- The plotting calls inside the training loop (perceptron.py:54-58), the module-level call (perceptron.py:68) and the `epoch_plot` and `pause` parameters of `perceptron` (perceptron.py:17), which only steer the plotting, are left out. As written, these calls go to `Visualize.plot`, which visualize.py does not define (it has `plot_2d`, `plot_parallel_weights`, `plot_parallel` and `plot_3d`). So the source raises AttributeError at the end of the first pass, or on the first point when `epoch_plot` is False. Unless the data set is empty and `epoch_plot` is False, it never reaches the exact-equality stop. The model treats the calls as no-ops and describes the loop they would leave running.
- Seeding the random generator from the clock (perceptron.py:31) is left out. numpy's random state is replaced by the draw sequences passed in (`wDraws`, `pointDraws`, `initDraws`).
- Floating-point rounding is not modelled. All arithmetic is exact `real`.
- Geometry.FindD: requires matching dimensions and len(w) >= 2. The source does not check either: numpy raises on a length mismatch, and len(w) = 1 divides by zero. Both are left out as preconditions rather than error results.
- Benchmark.Generate: the source draws candidates for ever, until n pass. The model reads a finite stream and reports through `sampled` whether it held enough. Generation for dimension i = 0 is excluded (i >= 1), because find_d then divides by zero.
- Training.Train: the source loops until a pass changes nothing. The model stops after at most `maxEpochs` passes and reports through `converged` whether it stopped on its own. Nothing is claimed about convergence, because the source promises none.
- Geometry.Point.constructor: models the filter as written. The only constructor call in the core (benchmark.py:37) passes no label, and both filters store 0 for it.

## Findings

| source | as written | input that shows it | evidently intended | confidence | as-written member | corrected member |
|---|---|---|---|---|---|---|
| point.py:29 | `0 if not (ell == -1 or ell == -1) else ell` tests -1 twice | `Point(x, 1)` stores label 0 | keep -1 and 1 (the documentation says the label must be -1 or 1) and map anything else to 0 | not executed | Geometry.StoredLabelDropsPositive | Geometry.IntendedLabel |
| perceptron.py:50-51 | correction `c * (ell + y)`, zero exactly on misclassified points | c = 0.1, w = [0, 0, 0], x = [1, 1], ell = 1: y = -1, so w stays put although the point is misclassified | the comment at perceptron.py:49 says a correct output changes nothing: correction `c * (y - ell)` | not executed | Training.ZeroScoreExample | Training.IntendedMisclassifiedStepPullsToward |

For the update rule, both halves are modelled in full. `UpdateRule.AsWritten` is the code and `UpdateRule.Intended` is the correction. Every training member and lemma is stated for the rule it is given, so the corrected training loop is `Training.Perceptron` with `Intended`. Training.AsWrittenCorrectStepPushesAway shows the bug's consequence: a correctly classified point is pushed toward the wrong side. Training.IntendedCorrectStepIsFixed and Training.IntendedAllCorrectStopsAtOnce state the intended behaviour.
