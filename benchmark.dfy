/**
  Training-data generation: draw a ground-truth hyperplane `wStar`, keep the
  random candidate points whose margin against it exceeds `gamma` until there
  are `n` of them, then label every kept point with `wStar`.

  The random source is an input: `wDraws` are the i + 1 draws for `wStar` and
  `pointDraws` is the stream of i-element draw vectors for the candidates, all
  in [0, 1). A finite stream can run out before `n` points pass; the source
  would go on drawing for ever, and the model reports it through `sampled`.
 */
module Benchmark {
  import opened Wrappers
  import opened Geometry

  /** Every draw is in [0, 1). */
  predicate Unit(draws: seq<real>)
  {
    forall k :: 0 <= k < |draws| ==> 0.0 <= draws[k] < 1.0
  }

  /** Every component is in [-scale, scale). */
  predicate InBox(v: seq<real>, scale: real)
  {
    forall k :: 0 <= k < |v| ==> -scale <= v[k] < scale
  }

  /** Maps each draw r to (2r - 1) * scale. */
  function Scaled(draws: seq<real>, scale: real): (v: seq<real>)
    ensures |v| == |draws|
  {
    seq(|draws|, k requires 0 <= k < |draws| => (2.0 * draws[k] - 1.0) * scale)
  }

  /** The candidate points made from the draw stream, in draw order. */
  function Candidates(pointDraws: seq<seq<real>>, scale: real): (cs: seq<seq<real>>)
    ensures |cs| == |pointDraws|
    ensures forall k :: 0 <= k < |cs| ==> cs[k] == Scaled(pointDraws[k], scale)
  {
    seq(|pointDraws|, k requires 0 <= k < |pointDraws| => Scaled(pointDraws[k], scale))
  }

  /** Every candidate has one coordinate fewer than `wStar` has components. */
  predicate Matches(cands: seq<seq<real>>, wStar: seq<real>)
  {
    forall k :: 0 <= k < |cands| ==> |cands[k]| + 1 == |wStar|
  }

  /** The candidates whose margin against `wStar` exceeds `gamma`, in draw order. */
  function Accepted(cands: seq<seq<real>>, wStar: seq<real>, gamma: real): seq<seq<real>>
    requires |wStar| >= 2 && Matches(cands, wStar)
  {
    if cands == [] then []
    else
      var last := cands[|cands| - 1];
      var kept := Accepted(cands[..|cands| - 1], wStar, gamma);
      if FindD(last, wStar) > gamma then kept + [last] else kept
  }

  /** A scaled draw vector lies in [-scale, scale) componentwise. */
  lemma ScaledInBox(draws: seq<real>, scale: real)
    requires Unit(draws) && scale > 0.0
    ensures InBox(Scaled(draws, scale), scale)
  {
    var v := Scaled(draws, scale);
    forall k | 0 <= k < |v|
      ensures -scale <= v[k] < scale
    {
      var u := 2.0 * draws[k] - 1.0;
      assert -1.0 <= u < 1.0;
      assert v[k] == u * scale;
      assert (u + 1.0) * scale >= 0.0;
      assert (1.0 - u) * scale > 0.0;
    }
  }

  /** A candidate is accepted exactly when it was drawn and passes the margin test. */
  lemma {:induction false} AcceptedMembers(cands: seq<seq<real>>, wStar: seq<real>, gamma: real, x: seq<real>)
    requires |wStar| >= 2 && Matches(cands, wStar)
    ensures x in Accepted(cands, wStar, gamma) <==> x in cands && |x| + 1 == |wStar| && FindD(x, wStar) > gamma
  {
    if cands != [] {
      var init := cands[..|cands| - 1];
      AcceptedMembers(init, wStar, gamma, x);
      assert cands == init + [cands[|cands| - 1]];
    }
  }

  /** Accepting from a prefix of the stream yields a prefix of what the whole stream accepts. */
  lemma {:induction false} AcceptedPrefix(cands: seq<seq<real>>, wStar: seq<real>, gamma: real, k: nat)
    requires |wStar| >= 2 && Matches(cands, wStar) && k <= |cands|
    ensures Accepted(cands[..k], wStar, gamma) <= Accepted(cands, wStar, gamma)
    decreases |cands| - k
  {
    if k < |cands| {
      var init := cands[..|cands| - 1];
      assert init[..k] == cands[..k];
      AcceptedPrefix(init, wStar, gamma, k);
    } else {
      assert cands[..k] == cands;
    }
  }

  /** Every accepted point lies in the box when every candidate does. */
  lemma AcceptedInBox(cands: seq<seq<real>>, wStar: seq<real>, gamma: real, scale: real)
    requires |wStar| >= 2 && Matches(cands, wStar)
    requires forall k :: 0 <= k < |cands| ==> InBox(cands[k], scale)
    ensures forall x :: x in Accepted(cands, wStar, gamma) ==>
      InBox(x, scale) && |x| + 1 == |wStar| && FindD(x, wStar) > gamma
  {
    forall x | x in Accepted(cands, wStar, gamma)
      ensures InBox(x, scale) && |x| + 1 == |wStar| && FindD(x, wStar) > gamma
    {
      AcceptedMembers(cands, wStar, gamma, x);
    }
  }

  /** What Generate's results inherit from the draws: margins and boxes. */
  lemma AcceptedEvidence(cands: seq<seq<real>>, wStar: seq<real>, gamma: real, scale: real,
                         pointDraws: seq<seq<real>>, wDraws: seq<real>)
    requires |wStar| >= 2 && Matches(cands, wStar)
    requires cands == Candidates(pointDraws, scale) && wStar == Scaled(wDraws, scale)
    ensures forall x :: x in Accepted(cands, wStar, gamma) ==> |x| + 1 == |wStar| && FindD(x, wStar) > gamma
    ensures scale > 0.0 && Unit(wDraws) ==> InBox(wStar, scale)
    ensures scale > 0.0 && (forall k :: 0 <= k < |pointDraws| ==> Unit(pointDraws[k])) ==>
      forall x :: x in Accepted(cands, wStar, gamma) ==> InBox(x, scale)
  {
    forall x | x in Accepted(cands, wStar, gamma)
      ensures |x| + 1 == |wStar| && FindD(x, wStar) > gamma
    {
      AcceptedMembers(cands, wStar, gamma, x);
    }
    if scale > 0.0 && Unit(wDraws) {
      ScaledInBox(wDraws, scale);
    }
    if scale > 0.0 && (forall k :: 0 <= k < |pointDraws| ==> Unit(pointDraws[k])) {
      forall k | 0 <= k < |cands|
        ensures InBox(cands[k], scale)
      {
        ScaledInBox(pointDraws[k], scale);
      }
      AcceptedInBox(cands, wStar, gamma, scale);
    }
  }

  /**
    Rejection sampling: turns the candidates of the stream into points one at
    a time and keeps those whose margin exceeds `gamma`, stopping once `n` are
    kept or the stream is used up. `k` is how many candidates were drawn; the
    kept points are exactly the accepted ones among them, still unlabelled.
   */
  method SamplePoints(n: int, gamma: real, wStar: seq<real>, scale: real, pointDraws: seq<seq<real>>)
    returns (d: seq<Point>, k: nat)
    requires |wStar| >= 2
    requires forall m :: 0 <= m < |pointDraws| ==> |pointDraws[m]| + 1 == |wStar|
    ensures k <= |pointDraws|
    ensures |d| <= (if n <= 0 then 0 else n)
    ensures |d| < n ==> k == |pointDraws|
    ensures |d| == |Accepted(Candidates(pointDraws, scale)[..k], wStar, gamma)|
    ensures forall j :: 0 <= j < |d| ==>
      d[j].x == Accepted(Candidates(pointDraws, scale)[..k], wStar, gamma)[j] && d[j].ell == 0 && fresh(d[j])
    ensures forall j, m :: 0 <= j < m < |d| ==> d[j] != d[m]
  {
    ghost var cands := Candidates(pointDraws, scale);
    d, k := [], 0;
    while |d| < n && k < |pointDraws|
      invariant 0 <= k <= |pointDraws|
      invariant |d| <= (if n <= 0 then 0 else n)
      invariant |d| == |Accepted(cands[..k], wStar, gamma)|
      invariant forall j :: 0 <= j < |d| ==>
        d[j].x == Accepted(cands[..k], wStar, gamma)[j] && d[j].ell == 0 && fresh(d[j])
      invariant forall j, m :: 0 <= j < m < |d| ==> d[j] != d[m]
    {
      var p := new Point(Scaled(pointDraws[k], scale));
      assert cands[..k + 1][..k] == cands[..k];
      if FindD(p.x, wStar) > gamma {
        d := d + [p];
      }
      k := k + 1;
    }
  }

  /** Classifies every point of `d` by `w` in place; the coordinates stay as they are. */
  method LabelAll(d: seq<Point>, w: seq<real>)
    requires forall j :: 0 <= j < |d| ==> |d[j].x| + 1 == |w|
    modifies set p | p in d
    ensures forall j :: 0 <= j < |d| ==> d[j].x == old(d[j].x) && Theta(d[j].x, w) == Some(d[j].ell)
  {
    var j := 0;
    while j < |d|
      invariant 0 <= j <= |d|
      invariant forall m :: 0 <= m < |d| ==> d[m].x == old(d[m].x)
      invariant forall m :: 0 <= m < j ==> Theta(d[m].x, w) == Some(d[m].ell)
    {
      var _ := Classify(d[j], w);
      j := j + 1;
    }
  }

  /**
    Generates the data set `d` and the hyperplane `wStar`. When `sampled`, the
    stream held at least `n` acceptable candidates and `d` is the first
    max(n, 0) of them, in draw order, each labelled by `wStar`. Otherwise the
    stream ran out: `d` holds every accepted candidate, still unlabelled.
   */
  method Generate(n: int, gamma: real, i: nat, wDraws: seq<real>, pointDraws: seq<seq<real>>, scale: real := 1.0)
    returns (d: seq<Point>, wStar: seq<real>, sampled: bool)
    requires i >= 1
    requires |wDraws| == i + 1
    requires forall k :: 0 <= k < |pointDraws| ==> |pointDraws[k]| == i
    ensures wStar == Scaled(wDraws, scale)
    ensures Matches(Candidates(pointDraws, scale), wStar)
    ensures sampled <==> n <= |Accepted(Candidates(pointDraws, scale), wStar, gamma)|
    ensures sampled ==> |d| == (if n <= 0 then 0 else n)
    ensures !sampled ==> |d| == |Accepted(Candidates(pointDraws, scale), wStar, gamma)|
    ensures forall j :: 0 <= j < |d| ==> d[j].x == Accepted(Candidates(pointDraws, scale), wStar, gamma)[j]
    ensures sampled ==> forall j :: 0 <= j < |d| ==> Theta(d[j].x, wStar) == Some(d[j].ell)
    ensures !sampled ==> forall j :: 0 <= j < |d| ==> d[j].ell == 0
    ensures forall j :: 0 <= j < |d| ==> |d[j].x| == i && FindD(d[j].x, wStar) > gamma
    ensures scale > 0.0 && Unit(wDraws) ==> InBox(wStar, scale)
    ensures scale > 0.0 && (forall k :: 0 <= k < |pointDraws| ==> Unit(pointDraws[k])) ==>
      forall j :: 0 <= j < |d| ==> InBox(d[j].x, scale)
    ensures forall j :: 0 <= j < |d| ==> fresh(d[j])
    ensures forall j, m :: 0 <= j < m < |d| ==> d[j] != d[m]
  {
    wStar := Scaled(wDraws, scale);
    ghost var cands := Candidates(pointDraws, scale);
    var k;
    d, k := SamplePoints(n, gamma, wStar, scale, pointDraws);
    AcceptedPrefix(cands, wStar, gamma, k);
    AcceptedEvidence(cands, wStar, gamma, scale, pointDraws, wDraws);
    sampled := |d| >= n;
    if !sampled {
      assert cands[..k] == cands;
      return;
    }
    LabelAll(d, wStar);
  }
}
