/**
  An n-dimensional point with a classification label, and the two geometric
  primitives on it: the distance to a hyperplane and the sign classifier.

  A hyperplane (weight vector) `w` has the bias at index 0 and one coefficient
  per coordinate at indices 1..; a point `x` matches `w` when |x| + 1 == |w|.
  Numbers are exact reals.
 */
module Geometry {
  import opened Wrappers
  import opened Vectors

  /** The affine score of `x` against `w`: bias plus the dot product of the coefficients with `x`. */
  function Score(x: seq<real>, w: seq<real>): real
    requires |x| + 1 == |w|
  {
    Dot(x, w[1..]) + w[0]
  }

  function Abs(r: real): real
  {
    if r < 0.0 then -r else r
  }

  /**
    The margin measure of the point `x` against `w`: |score| divided by the
    dimension |w| - 1. Nothing checks the dimensions: a mismatch makes the dot
    product fail and |w| == 1 divides by zero, so both are excluded here.
   */
  function FindD(x: seq<real>, w: seq<real>): (r: real)
    requires |x| + 1 == |w| && |w| >= 2
    ensures r >= 0.0
    ensures r * (|w| - 1) as real == Abs(Score(x, w))
  {
    Abs(Score(x, w)) / (|w| - 1) as real
  }

  /**
    The non-destructive sign classifier: no value on a dimension mismatch,
    otherwise 1 for a strictly positive score and -1 for every other score,
    so a point on the hyperplane is labelled -1.
   */
  function Theta(x: seq<real>, w: seq<real>): (r: Option<int>)
    ensures r.None? <==> |x| + 1 != |w|
    ensures r.Some? ==> (r.value == 1 || r.value == -1)
    ensures r.Some? ==> (r.value == 1 <==> Score(x, w) > 0.0)
  {
    if |x| + 1 != |w| then None
    else if Score(x, w) > 0.0 then Some(1)
    else Some(-1)
  }

  /** The label a point stores when constructed with `ell`, exactly as the constructor's filter is written. */
  function StoredLabel(ell: int): (r: int)
    ensures r == -1 <==> ell == -1
    ensures r == -1 || r == 0
  {
    if !(ell == -1 || ell == -1) then 0 else ell
  }

  /** The filter the constructor's documentation asks for: -1 and 1 are kept, anything else becomes 0. */
  function IntendedLabel(ell: int): (r: int)
    ensures r == ell <==> (ell == -1 || ell == 0 || ell == 1)
    ensures r == -1 || r == 0 || r == 1
    ensures !(ell == -1 || ell == 1) ==> r == 0
  {
    if !(ell == -1 || ell == 1) then 0 else ell
  }

  /** The filter as written drops the positive label; the intended one keeps it. */
  lemma StoredLabelDropsPositive()
    ensures StoredLabel(1) == 0
    ensures IntendedLabel(1) == 1
    ensures forall ell :: StoredLabel(ell) == IntendedLabel(ell) <==> ell != 1
  {
  }

  class Point {
    /** Coordinates; set once by the constructor. */
    var x: seq<real>
    /** Classification label; 0 means "not classified yet". */
    var ell: int

    constructor (x: seq<real>, ell: int := 0)
      ensures this.x == x
      ensures this.ell == StoredLabel(ell)
    {
      this.ell := StoredLabel(ell);
      this.x := x;
    }
  }

  /**
    The destructive classifier: on a dimension mismatch it returns no value and
    leaves `p` alone; otherwise it overwrites `p.ell` with the classification and
    returns it. The coordinates never change.
   */
  method Classify(p: Point, w: seq<real>) returns (r: Option<int>)
    modifies p`ell
    ensures r == Theta(p.x, w)
    ensures r.None? ==> p.ell == old(p.ell)
    ensures r.Some? ==> p.ell == r.value
  {
    if !(|p.x| + 1 == |w|) {
      return None;
    }
    p.ell := Theta(p.x, w).value;
    r := Some(p.ell);
  }

  /**
    A point whose margin against `w` exceeds a non-negative `gamma` is strictly
    on the side its classification names, by more than gamma times the dimension.
   */
  lemma MarginedLabelSeparates(x: seq<real>, w: seq<real>, gamma: real)
    requires |x| + 1 == |w| && |w| >= 2
    requires gamma >= 0.0 && FindD(x, w) > gamma
    ensures Theta(x, w).Some?
    ensures Theta(x, w).value as real * Score(x, w) > gamma * (|w| - 1) as real
  {
    var m := (|w| - 1) as real;
    var d := FindD(x, w);
    assert d * m > gamma * m by {
      assert m >= 1.0;
      assert (d - gamma) * m > 0.0;
    }
    if Score(x, w) > 0.0 {
      assert Theta(x, w).value == 1;
    } else {
      assert Theta(x, w).value == -1;
    }
  }
}
