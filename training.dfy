/**
  The perceptron training loop. A weight vector `w` (bias at index 0) is
  updated in place, one data point at a time and in index order; before each
  pass (epoch) it is copied, and training stops after the first pass that
  leaves it exactly equal to that copy.

  The step subtracts c * t from the bias and c * t * x[k] from coefficient k + 1,
  where the correction t is computed from the point's label `ell` and the current
  classification y. As written the correction is ell + y (`UpdateRule.AsWritten`);
  the accompanying comment says a correct classification should change nothing,
  which is the rule with correction y - ell (`UpdateRule.Intended`). Both rules
  are modelled and every operation here takes the rule as a parameter.

  Training has no bound on the number of passes; the model takes one (`maxEpochs`)
  and reports whether the loop stopped on its own (`converged`).
 */
module Training {
  import opened Wrappers
  import opened Geometry
  import opened Vectors
  import Benchmark

  datatype UpdateRule = AsWritten | Intended

  /** A data point as the training loop reads it. */
  datatype Sample = Sample(x: seq<real>, ell: int)

  /** The correction factor of one step, from the label `ell` and the output `y`. */
  function Correction(rule: UpdateRule, ell: int, y: int): int
  {
    match rule
    case AsWritten => ell + y
    case Intended => y - ell
  }

  /** Every sample matches a weight vector of `len` components. */
  predicate Fits(s: seq<Sample>, len: nat)
  {
    forall j :: 0 <= j < |s| ==> |s[j].x| + 1 == len
  }

  /** Every label is -1 or 1, as the generator leaves them. */
  predicate Labelled(s: seq<Sample>)
  {
    forall j :: 0 <= j < |s| ==> s[j].ell == -1 || s[j].ell == 1
  }

  /** The samples a data set of points presents to training, in order. */
  function Samples(d: seq<Point>): (s: seq<Sample>)
    reads set p | p in d
    ensures |s| == |d|
    ensures forall j :: 0 <= j < |d| ==> s[j] == Sample(d[j].x, d[j].ell)
  {
    if d == [] then [] else [Sample(d[0].x, d[0].ell)] + Samples(d[1..])
  }

  /** The classification of `s` by `w`; defined because the dimensions match. */
  function Output(s: Sample, w: seq<real>): (y: int)
    requires |s.x| + 1 == |w|
    ensures Theta(s.x, w) == Some(y)
  {
    Theta(s.x, w).value
  }

  /** The point with a constant 1 in front, the input that the bias weighs. */
  function Augmented(x: seq<real>): (a: seq<real>)
    ensures |a| == |x| + 1
  {
    [1.0] + x
  }

  /** How far one step on `s` moves the weights: c times the correction, at the current output. */
  function StepSize(w: seq<real>, s: Sample, c: real, rule: UpdateRule): real
    requires |s.x| + 1 == |w|
  {
    c * Correction(rule, s.ell, Output(s, w)) as real
  }

  /**
    The weight vector after one step on sample `s`: the bias drops by the step
    size t and coefficient k + 1 by t * x[k].
   */
  function StepOf(w: seq<real>, s: Sample, c: real, rule: UpdateRule): (r: seq<real>)
    requires |s.x| + 1 == |w|
    ensures |r| == |w|
  {
    Shifted(w, Augmented(s.x), StepSize(w, s, c, rule))
  }

  /** The weight vector after steps on s[j], s[j + 1], ..., in index order. */
  function PassFrom(w: seq<real>, s: seq<Sample>, j: nat, c: real, rule: UpdateRule): (r: seq<real>)
    requires Fits(s, |w|) && j <= |s|
    ensures |r| == |w|
    decreases |s| - j
  {
    if j == |s| then w else PassFrom(StepOf(w, s[j], c, rule), s, j + 1, c, rule)
  }

  /** The weight vector after one pass over `s`, visiting the samples in index order. */
  function EpochOf(w: seq<real>, s: seq<Sample>, c: real, rule: UpdateRule): (r: seq<real>)
    requires Fits(s, |w|)
    ensures |r| == |w|
  {
    PassFrom(w, s, 0, c, rule)
  }

  /** The weight vector after `e` passes over `s`. */
  function Iterate(w: seq<real>, s: seq<Sample>, c: real, rule: UpdateRule, e: nat): (r: seq<real>)
    requires Fits(s, |w|)
    ensures |r| == |w|
    decreases e
  {
    if e == 0 then w else Iterate(EpochOf(w, s, c, rule), s, c, rule, e - 1)
  }

  /** What training ends with: the weights, the number of passes made, and whether the last pass changed nothing. */
  datatype Outcome = Outcome(w: seq<real>, epochs: nat, converged: bool)

  /**
    The training loop as a function of the starting weights: make passes until
    one leaves the weights exactly as it found them, or `fuel` passes are made.
   */
  function Settle(w: seq<real>, s: seq<Sample>, c: real, rule: UpdateRule, fuel: nat): (r: Outcome)
    requires Fits(s, |w|)
    ensures |r.w| == |w|
    decreases fuel
  {
    if fuel == 0 then Outcome(w, 0, false)
    else
      var next := EpochOf(w, s, c, rule);
      if next == w then Outcome(w, 1, true)
      else
        var r := Settle(next, s, c, rule, fuel - 1);
        Outcome(r.w, r.epochs + 1, r.converged)
  }

  /** A step on `s` at `w` changes nothing because its correction is zero. */
  predicate Quiet(w: seq<real>, s: Sample, rule: UpdateRule)
    requires |s.x| + 1 == |w|
  {
    Correction(rule, s.ell, Output(s, w)) == 0
  }

  /**
    One step on `p`: classify `p` with the current weights, then subtract the
    scaled correction from the bias and from each coefficient.
   */
  method Step(w: array<real>, p: Point, c: real, rule: UpdateRule)
    requires |p.x| + 1 == w.Length
    modifies w
    ensures w[..] == StepOf(old(w[..]), Sample(p.x, p.ell), c, rule)
  {
    var y := Theta(p.x, w[..]).value;
    var t := c * Correction(rule, p.ell, y) as real;
    ghost var w0, a := w[..], Augmented(p.x);
    ghost var expected := StepOf(w0, Sample(p.x, p.ell), c, rule);
    assert t == StepSize(w0, Sample(p.x, p.ell), c, rule);
    assert expected == Shifted(w0, a, t);
    ShiftedAt(w0, a, t, 0);
    w[0] := w[0] - t;
    var k := 0;
    while k < |p.x|
      invariant 0 <= k <= |p.x|
      invariant forall m :: 0 <= m <= k ==> w[m] == expected[m]
      invariant forall m :: k < m < w.Length ==> w[m] == w0[m]
    {
      ShiftedAt(w0, a, t, k + 1);
      w[k + 1] := w[k + 1] - t * p.x[k];
      k := k + 1;
    }
    assert w[..] == expected;
  }

  /** One pass over the data set, in index order. */
  method Epoch(w: array<real>, d: seq<Point>, c: real, rule: UpdateRule)
    requires forall j :: 0 <= j < |d| ==> |d[j].x| + 1 == w.Length
    modifies w
    ensures w[..] == EpochOf(old(w[..]), Samples(d), c, rule)
  {
    ghost var s := Samples(d);
    ghost var w0 := w[..];
    var j := 0;
    while j < |d|
      invariant 0 <= j <= |d| && Fits(s, w.Length)
      invariant PassFrom(w[..], s, j, c, rule) == EpochOf(w0, s, c, rule)
    {
      ghost var before := w[..];
      assert s[j] == Sample(d[j].x, d[j].ell);
      Step(w, d[j], c, rule);
      assert w[..] == StepOf(before, s[j], c, rule);
      j := j + 1;
    }
  }

  /**
    The training loop with at most `maxEpochs` passes: before each pass the
    weights are copied, and the loop stops after a pass that leaves them equal
    to the copy. The data set is only read.
   */
  method Train(w: array<real>, d: seq<Point>, c: real, rule: UpdateRule, maxEpochs: nat)
    returns (converged: bool, epochs: nat)
    requires forall j :: 0 <= j < |d| ==> |d[j].x| + 1 == w.Length
    modifies w
    ensures Fits(Samples(d), w.Length)
    ensures Outcome(w[..], epochs, converged) == Settle(old(w[..]), Samples(d), c, rule, maxEpochs)
  {
    ghost var s := Samples(d);
    ghost var w0 := w[..];
    epochs := 0;
    var isMisclassified := true;
    while isMisclassified && epochs < maxEpochs
      invariant epochs <= maxEpochs
      invariant isMisclassified ==>
        var r := Settle(w[..], s, c, rule, maxEpochs - epochs);
        Settle(w0, s, c, rule, maxEpochs) == Outcome(r.w, r.epochs + epochs, r.converged)
      invariant !isMisclassified ==> Settle(w0, s, c, rule, maxEpochs) == Outcome(w[..], epochs, true)
    {
      // Remember the weights before the pass.
      var wEpoch := w[..];
      Epoch(w, d, c, rule);
      assert Samples(d) == s;
      epochs := epochs + 1;
      // Exact, component-by-component comparison with the copy.
      isMisclassified := !(wEpoch == w[..]);
    }
    converged := !isMisclassified;
  }

  /**
    Training ends with `epochs` passes applied to the starting weights, never
    more than `fuel`. When it converged, the last pass left the weights as they
    were, so they are a fixed point of a pass; otherwise all `fuel` passes were
    made and the last of them changed the weights.
   */
  lemma {:induction false} SettleIterates(w: seq<real>, s: seq<Sample>, c: real, rule: UpdateRule, fuel: nat)
    requires Fits(s, |w|)
    ensures Settle(w, s, c, rule, fuel).epochs <= fuel
    ensures Settle(w, s, c, rule, fuel).w == Iterate(w, s, c, rule, Settle(w, s, c, rule, fuel).epochs)
    ensures Settle(w, s, c, rule, fuel).converged ==>
      Settle(w, s, c, rule, fuel).epochs >= 1 &&
      EpochOf(Settle(w, s, c, rule, fuel).w, s, c, rule) == Settle(w, s, c, rule, fuel).w
    ensures !Settle(w, s, c, rule, fuel).converged ==> Settle(w, s, c, rule, fuel).epochs == fuel
    ensures !Settle(w, s, c, rule, fuel).converged && Settle(w, s, c, rule, fuel).epochs >= 1 ==>
      var before := Iterate(w, s, c, rule, Settle(w, s, c, rule, fuel).epochs - 1);
      EpochOf(before, s, c, rule) != before
    decreases fuel
  {
    if fuel > 0 && EpochOf(w, s, c, rule) != w {
      SettleIterates(EpochOf(w, s, c, rule), s, c, rule, fuel - 1);
    }
  }

  /** Training stops at the first fixed point: every pass before the last one changed the weights. */
  lemma {:induction false} SettleStopsAtFirstFixedPoint(w: seq<real>, s: seq<Sample>, c: real, rule: UpdateRule, fuel: nat, e: nat)
    requires Fits(s, |w|)
    requires e + 1 < Settle(w, s, c, rule, fuel).epochs
    ensures Iterate(w, s, c, rule, e + 1) != Iterate(w, s, c, rule, e)
    decreases fuel
  {
    var next := EpochOf(w, s, c, rule);
    if e > 0 {
      SettleStopsAtFirstFixedPoint(next, s, c, rule, fuel - 1, e - 1);
    }
  }

  /** The weights after e + 1 passes are one more pass applied to the weights after e passes. */
  lemma {:induction false} IterateStep(w: seq<real>, s: seq<Sample>, c: real, rule: UpdateRule, e: nat)
    requires Fits(s, |w|)
    ensures Iterate(w, s, c, rule, e + 1) == EpochOf(Iterate(w, s, c, rule, e), s, c, rule)
    decreases e
  {
    if e > 0 {
      IterateStep(EpochOf(w, s, c, rule), s, c, rule, e - 1);
    }
  }

  /** Passes from a fixed point of a pass change nothing, however many are made. */
  lemma {:induction false} IterateFixed(w: seq<real>, s: seq<Sample>, c: real, rule: UpdateRule, e: nat)
    requires Fits(s, |w|) && EpochOf(w, s, c, rule) == w
    ensures Iterate(w, s, c, rule, e) == w
    decreases e
  {
    if e > 0 {
      IterateFixed(w, s, c, rule, e - 1);
    }
  }

  /**
    When the weights at the start of pass e + 1 (after e passes) are a fixed
    point of a pass and the bound allows that pass, training stops on its own
    within e + 1 passes, ending with those weights.
   */
  lemma {:induction false} SettleStopsAtFixedIterate(w: seq<real>, s: seq<Sample>, c: real, rule: UpdateRule, fuel: nat, e: nat)
    requires Fits(s, |w|) && e < fuel
    requires EpochOf(Iterate(w, s, c, rule, e), s, c, rule) == Iterate(w, s, c, rule, e)
    ensures Settle(w, s, c, rule, fuel).converged
    ensures Settle(w, s, c, rule, fuel).epochs <= e + 1
    ensures Settle(w, s, c, rule, fuel).w == Iterate(w, s, c, rule, e)
    decreases e
  {
    var next := EpochOf(w, s, c, rule);
    if next == w {
      IterateFixed(w, s, c, rule, e);
    } else {
      assert e > 0;
      SettleStopsAtFixedIterate(next, s, c, rule, fuel - 1, e - 1);
    }
  }

  /**
    Under the rule as written, when the weights at the start of some pass
    misclassify every point, that pass is the last: training stops on its own
    with those weights.
   */
  lemma AsWrittenAllMisclassifiedStopsThere(w: seq<real>, s: seq<Sample>, c: real, fuel: nat, e: nat)
    requires Fits(s, |w|) && Labelled(s) && e < fuel
    requires forall j :: 0 <= j < |s| ==> Output(s[j], Iterate(w, s, c, AsWritten, e)) != s[j].ell
    ensures Settle(w, s, c, AsWritten, fuel).converged
    ensures Settle(w, s, c, AsWritten, fuel).epochs <= e + 1
    ensures Settle(w, s, c, AsWritten, fuel).w == Iterate(w, s, c, AsWritten, e)
  {
    AllMisclassifiedEpochIsFixed(Iterate(w, s, c, AsWritten, e), s, c);
    SettleStopsAtFixedIterate(w, s, c, AsWritten, fuel, e);
  }

  /**
    Under the intended rule, when the weights at the start of some pass
    classify every point correctly, that pass is the last.
   */
  lemma IntendedAllCorrectStopsThere(w: seq<real>, s: seq<Sample>, c: real, fuel: nat, e: nat)
    requires Fits(s, |w|) && e < fuel
    requires forall j :: 0 <= j < |s| ==> Output(s[j], Iterate(w, s, c, Intended, e)) == s[j].ell
    ensures Settle(w, s, c, Intended, fuel).converged
    ensures Settle(w, s, c, Intended, fuel).epochs <= e + 1
    ensures Settle(w, s, c, Intended, fuel).w == Iterate(w, s, c, Intended, e)
  {
    AllCorrectEpochIsFixed(Iterate(w, s, c, Intended, e), s, c);
    SettleStopsAtFixedIterate(w, s, c, Intended, fuel, e);
  }

  /**
    Under the rule as written, starting from weights that misclassify every
    point, training stops after the first pass with the weights unchanged.
   */
  lemma AsWrittenAllMisclassifiedStopsAtOnce(w: seq<real>, s: seq<Sample>, c: real, fuel: nat)
    requires Fits(s, |w|) && Labelled(s) && fuel >= 1
    requires forall j :: 0 <= j < |s| ==> Output(s[j], w) != s[j].ell
    ensures Settle(w, s, c, AsWritten, fuel) == Outcome(w, 1, true)
  {
    AllMisclassifiedEpochIsFixed(w, s, c);
  }

  /** Under the intended rule, starting from weights that classify every point correctly, training stops after the first pass. */
  lemma IntendedAllCorrectStopsAtOnce(w: seq<real>, s: seq<Sample>, c: real, fuel: nat)
    requires Fits(s, |w|) && fuel >= 1
    requires forall j :: 0 <= j < |s| ==> Output(s[j], w) == s[j].ell
    ensures Settle(w, s, c, Intended, fuel) == Outcome(w, 1, true)
  {
    AllCorrectEpochIsFixed(w, s, c);
  }

  /** A pass in which every step is quiet at the starting weights changes nothing. */
  lemma QuietEpochIsFixed(w: seq<real>, s: seq<Sample>, c: real, rule: UpdateRule)
    requires Fits(s, |w|)
    requires forall j :: 0 <= j < |s| ==> Quiet(w, s[j], rule)
    ensures EpochOf(w, s, c, rule) == w
  {
    QuietPassIsFixed(w, s, 0, c, rule);
  }

  /** A quiet step changes nothing. */
  lemma QuietStepIsFixed(w: seq<real>, s: Sample, c: real, rule: UpdateRule)
    requires |s.x| + 1 == |w| && Quiet(w, s, rule)
    ensures StepOf(w, s, c, rule) == w
  {
    ShiftedByZero(w, Augmented(s.x));
  }

  /**
    One step subtracts the step size t from the bias and t * x[k] from
    coefficient k + 1, where t is c times the correction at the output before
    the step.
   */
  lemma StepOfComponents(w: seq<real>, s: Sample, c: real, rule: UpdateRule)
    requires |s.x| + 1 == |w|
    ensures StepOf(w, s, c, rule)[0] == w[0] - c * Correction(rule, s.ell, Output(s, w)) as real
    ensures forall k :: 0 <= k < |s.x| ==>
      StepOf(w, s, c, rule)[k + 1] == w[k + 1] - c * Correction(rule, s.ell, Output(s, w)) as real * s.x[k]
  {
    var a, t := Augmented(s.x), StepSize(w, s, c, rule);
    ShiftedAt(w, a, t, 0);
    forall k | 0 <= k < |s.x|
      ensures StepOf(w, s, c, rule)[k + 1] == w[k + 1] - t * s.x[k]
    {
      ShiftedAt(w, a, t, k + 1);
    }
  }

  /** Under the rule as written, a step on a misclassified point changes nothing. */
  lemma AsWrittenMisclassifiedStepIsFixed(w: seq<real>, s: Sample, c: real)
    requires |s.x| + 1 == |w| && (s.ell == -1 || s.ell == 1)
    requires Output(s, w) != s.ell
    ensures StepOf(w, s, c, AsWritten) == w
  {
    QuietSteps(w, s);
    QuietStepIsFixed(w, s, c, AsWritten);
  }

  /** Under the intended rule, a step on a correctly classified point changes nothing. */
  lemma IntendedCorrectStepIsFixed(w: seq<real>, s: Sample, c: real)
    requires |s.x| + 1 == |w|
    requires Output(s, w) == s.ell
    ensures StepOf(w, s, c, Intended) == w
  {
    QuietStepIsFixed(w, s, c, Intended);
  }

  lemma {:induction false} QuietPassIsFixed(w: seq<real>, s: seq<Sample>, j: nat, c: real, rule: UpdateRule)
    requires Fits(s, |w|) && j <= |s|
    requires forall k :: j <= k < |s| ==> Quiet(w, s[k], rule)
    ensures PassFrom(w, s, j, c, rule) == w
    decreases |s| - j
  {
    if j < |s| {
      QuietStepIsFixed(w, s[j], c, rule);
      QuietPassIsFixed(w, s, j + 1, c, rule);
    }
  }

  /**
    Under the rule as written a step on a misclassified point is quiet, so a
    pass in which the starting weights misclassify every point changes nothing
    and training stops after it.
   */
  lemma AllMisclassifiedEpochIsFixed(w: seq<real>, s: seq<Sample>, c: real)
    requires Fits(s, |w|) && Labelled(s)
    requires forall j :: 0 <= j < |s| ==> Output(s[j], w) != s[j].ell
    ensures EpochOf(w, s, c, AsWritten) == w
  {
    QuietEpochIsFixed(w, s, c, AsWritten);
  }

  /** Under the intended rule a pass in which the starting weights classify every point correctly changes nothing. */
  lemma AllCorrectEpochIsFixed(w: seq<real>, s: seq<Sample>, c: real)
    requires Fits(s, |w|)
    requires forall j :: 0 <= j < |s| ==> Output(s[j], w) == s[j].ell
    ensures EpochOf(w, s, c, Intended) == w
  {
    QuietEpochIsFixed(w, s, c, Intended);
  }

  /** Which steps are quiet: under the rule as written exactly the misclassified points, under the intended rule exactly the correct ones. */
  lemma QuietSteps(w: seq<real>, s: Sample)
    requires |s.x| + 1 == |w| && (s.ell == -1 || s.ell == 1)
    ensures Quiet(w, s, AsWritten) <==> Output(s, w) != s.ell
    ensures Quiet(w, s, Intended) <==> Output(s, w) == s.ell
  {
  }

  /** The score is the dot product of the augmented point with the whole weight vector. */
  lemma ScoreIsAugmentedDot(x: seq<real>, w: seq<real>)
    requires |x| + 1 == |w|
    ensures Score(x, w) == Dot(Augmented(x), w)
    ensures Dot(Augmented(x), Augmented(x)) == 1.0 + Dot(x, x)
  {
    assert Augmented(x)[1..] == x;
  }

  /** A step with step size t lowers the score of the stepped point by t * (1 + x . x). */
  lemma ScoreAfterStep(w: seq<real>, s: Sample, c: real, rule: UpdateRule)
    requires |s.x| + 1 == |w|
    ensures Score(s.x, StepOf(w, s, c, rule)) == Score(s.x, w) - StepSize(w, s, c, rule) * (1.0 + Dot(s.x, s.x))
  {
    var t := StepSize(w, s, c, rule);
    var a := Augmented(s.x);
    ScoreIsAugmentedDot(s.x, w);
    ScoreIsAugmentedDot(s.x, StepOf(w, s, c, rule));
    DotShift(a, w, t);
  }

  /**
    Under the rule as written a correctly classified point is pushed away from
    its own side: the bias moves by -2 * c * ell and the point's signed score
    ell * score strictly drops for c > 0.
   */
  lemma AsWrittenCorrectStepPushesAway(w: seq<real>, s: Sample, c: real)
    requires |s.x| + 1 == |w| && (s.ell == -1 || s.ell == 1)
    requires Output(s, w) == s.ell && c > 0.0
    ensures StepOf(w, s, c, AsWritten)[0] == w[0] - 2.0 * c * s.ell as real != w[0]
    ensures s.ell as real * Score(s.x, StepOf(w, s, c, AsWritten)) < s.ell as real * Score(s.x, w)
  {
    var l := s.ell as real;
    var t := StepSize(w, s, c, AsWritten);
    assert t == 2.0 * c * l;
    ShiftedAt(w, Augmented(s.x), t, 0);
    ScoreAfterStep(w, s, c, AsWritten);
    DotSelfNonNegative(s.x);
    var m := 2.0 * c * (1.0 + Dot(s.x, s.x));
    PositiveProduct(2.0 * c, 1.0 + Dot(s.x, s.x));
    SignedMove(l, -m, Score(s.x, w), Score(s.x, StepOf(w, s, c, AsWritten)));
  }

  /**
    Under the intended rule a misclassified point is pulled towards its own
    side: the bias moves by 2 * c * ell and ell * score strictly grows for c > 0.
   */
  lemma IntendedMisclassifiedStepPullsToward(w: seq<real>, s: Sample, c: real)
    requires |s.x| + 1 == |w| && (s.ell == -1 || s.ell == 1)
    requires Output(s, w) != s.ell && c > 0.0
    ensures StepOf(w, s, c, Intended)[0] == w[0] + 2.0 * c * s.ell as real
    ensures s.ell as real * Score(s.x, StepOf(w, s, c, Intended)) > s.ell as real * Score(s.x, w)
  {
    var l := s.ell as real;
    var t := StepSize(w, s, c, Intended);
    assert Output(s, w) == -s.ell;
    assert t == -2.0 * c * l;
    ShiftedAt(w, Augmented(s.x), t, 0);
    ScoreAfterStep(w, s, c, Intended);
    DotSelfNonNegative(s.x);
    var m := 2.0 * c * (1.0 + Dot(s.x, s.x));
    PositiveProduct(2.0 * c, 1.0 + Dot(s.x, s.x));
    SignedMove(l, m, Score(s.x, w), Score(s.x, StepOf(w, s, c, Intended)));
  }

  lemma PositiveProduct(a: real, b: real)
    requires a > 0.0 && b > 0.0
    ensures a * b > 0.0
  {
  }

  /** Moving a score by l * delta moves the signed score l * score by delta, for a label l of -1 or 1. */
  lemma SignedMove(l: real, delta: real, before: real, after: real)
    requires l == 1.0 || l == -1.0
    requires after == before - (l * (-delta))
    ensures l * after == l * before + delta
  {
  }

  /**
    A point on the hyperplane with label 1 is classified -1, so the rule as
    written leaves the weights alone while the intended rule corrects them.
   */
  lemma ZeroScoreExample()
    ensures Output(Sample([1.0, 1.0], 1), [0.0, 0.0, 0.0]) == -1
    ensures StepOf([0.0, 0.0, 0.0], Sample([1.0, 1.0], 1), 0.1, AsWritten) == [0.0, 0.0, 0.0]
    ensures StepOf([0.0, 0.0, 0.0], Sample([1.0, 1.0], 1), 0.1, Intended) == [0.2, 0.2, 0.2]
  {
    var s := Sample([1.0, 1.0], 1);
    var w := [0.0, 0.0, 0.0];
    var a := Augmented(s.x);
    assert Score(s.x, w) == 0.0;
    assert StepSize(w, s, 0.1, AsWritten) == 0.0;
    assert StepSize(w, s, 0.1, Intended) == -0.2;
    ShiftedByZero(w, a);
    ShiftedAt(w, a, -0.2, 0);
    ShiftedAt(w, a, -0.2, 1);
    ShiftedAt(w, a, -0.2, 2);
  }

  /**
    The whole procedure: generate the data set, start from the weights
    `initDraws` (i + 1 draws in [0, 1)), and train. When the draw stream runs
    out before the data set is complete (`!sampled`), no training happens.
   */
  method Perceptron(c: real, n: int, gamma: real, i: nat, rule: UpdateRule,
                    wDraws: seq<real>, pointDraws: seq<seq<real>>, initDraws: seq<real>, maxEpochs: nat,
                    scale: real := 1.0)
    returns (d: seq<Point>, wStar: seq<real>, w: array<real>, sampled: bool, converged: bool, epochs: nat)
    requires i >= 1
    requires |wDraws| == i + 1
    requires forall k :: 0 <= k < |pointDraws| ==> |pointDraws[k]| == i
    requires |initDraws| == i + 1 && Benchmark.Unit(initDraws)
    ensures fresh(w) && w.Length == i + 1
    ensures wStar == Benchmark.Scaled(wDraws, scale)
    ensures Benchmark.Matches(Benchmark.Candidates(pointDraws, scale), wStar)
    ensures sampled <==> n <= |Benchmark.Accepted(Benchmark.Candidates(pointDraws, scale), wStar, gamma)|
    ensures sampled ==> |d| == (if n <= 0 then 0 else n)
    ensures !sampled ==> |d| == |Benchmark.Accepted(Benchmark.Candidates(pointDraws, scale), wStar, gamma)|
    ensures forall j :: 0 <= j < |d| ==>
      d[j].x == Benchmark.Accepted(Benchmark.Candidates(pointDraws, scale), wStar, gamma)[j]
    ensures forall j :: 0 <= j < |d| ==> |d[j].x| == i && FindD(d[j].x, wStar) > gamma
    ensures sampled ==> forall j :: 0 <= j < |d| ==> Theta(d[j].x, wStar) == Some(d[j].ell)
    ensures Fits(Samples(d), i + 1)
    ensures !sampled ==> !converged && epochs == 0 && w[..] == initDraws
    ensures sampled ==> Outcome(w[..], epochs, converged) == Settle(initDraws, Samples(d), c, rule, maxEpochs)
    ensures converged ==> EpochOf(w[..], Samples(d), c, rule) == w[..]
  {
    d, wStar, sampled := Benchmark.Generate(n, gamma, i, wDraws, pointDraws, scale);
    w := new real[i + 1](k requires 0 <= k < i + 1 => initDraws[k]);
    assert w[..] == initDraws;
    converged, epochs := false, 0;
    if sampled {
      converged, epochs := Train(w, d, c, rule, maxEpochs);
      SettleIterates(initDraws, Samples(d), c, rule, maxEpochs);
    }
  }
}
