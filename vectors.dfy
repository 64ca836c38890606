/** Vectors of reals: the dot product and the componentwise shift that a training step applies. */
module Vectors {

  /** Dot product of two equally long vectors. */
  function Dot(a: seq<real>, b: seq<real>): real
    requires |a| == |b|
    decreases |a|
  {
    if |a| == 0 then 0.0 else a[0] * b[0] + Dot(a[1..], b[1..])
  }

  /** Each component of `v` moved by -t times the matching component of `x`. */
  function Shifted(v: seq<real>, x: seq<real>, t: real): (u: seq<real>)
    requires |v| == |x|
    ensures |u| == |v|
    decreases |v|
  {
    if |v| == 0 then [] else [v[0] - t * x[0]] + Shifted(v[1..], x[1..], t)
  }

  lemma {:induction false} ShiftedAt(v: seq<real>, x: seq<real>, t: real, k: nat)
    requires |v| == |x| && k < |v|
    ensures Shifted(v, x, t)[k] == v[k] - t * x[k]
    decreases k
  {
    if k > 0 {
      ShiftedAt(v[1..], x[1..], t, k - 1);
    }
  }

  /** A shift by zero changes nothing. */
  lemma {:induction false} ShiftedByZero(v: seq<real>, x: seq<real>)
    requires |v| == |x|
    ensures Shifted(v, x, 0.0) == v
    decreases |v|
  {
    if |v| > 0 {
      ShiftedByZero(v[1..], x[1..]);
      assert v == [v[0]] + v[1..];
    }
  }

  /** The sum of squares is never negative. */
  lemma {:induction false} DotSelfNonNegative(x: seq<real>)
    ensures Dot(x, x) >= 0.0
    decreases |x|
  {
    if |x| > 0 {
      DotSelfNonNegative(x[1..]);
      assert x[0] * x[0] >= 0.0;
    }
  }

  /** The scalar algebra of one level of DotShift's induction: a = x[0], b = v[0], and rest, sq, tail the dot products of the tails. */
  lemma ShiftAlgebra(a: real, b: real, t: real, head: real, rest: real, sq: real, tail: real, xu: real, xv: real, xx: real)
    requires head == b - t * a && tail == rest - t * sq
    requires xu == a * head + tail && xv == a * b + rest && xx == a * a + sq
    ensures xu == xv - t * xx
  {
    assert a * (b - t * a) == a * b - t * (a * a);
    assert t * (a * a + sq) == t * (a * a) + t * sq;
  }

  /** Dropping the head of a shifted vector shifts the tail. */
  lemma ShiftedTail(v: seq<real>, x: seq<real>, t: real)
    requires |v| == |x| > 0
    ensures Shifted(v, x, t)[1..] == Shifted(v[1..], x[1..], t)
  {
  }

  /** The dot product split into the head product and the dot product of the tails. */
  lemma DotUnfold(x: seq<real>, u: seq<real>)
    requires |u| == |x| > 0
    ensures Dot(x, u) == x[0] * u[0] + Dot(x[1..], u[1..])
  {
  }

  /**
    The three dot products of DotShift's inductive step, split into head and
    tail, with the induction hypothesis for the tails. Returning them as plain
    reals lets ShiftAlgebra do the arithmetic away from the sequence terms.
   */
  lemma ShiftParts(x: seq<real>, v: seq<real>, t: real)
    returns (a: real, b: real, head: real, rest: real, sq: real, tail: real, xu: real, xv: real, xx: real)
    requires |x| == |v| > 0
    requires Dot(x[1..], Shifted(v[1..], x[1..], t)) == Dot(x[1..], v[1..]) - t * Dot(x[1..], x[1..])
    ensures head == b - t * a && tail == rest - t * sq
    ensures xu == a * head + tail && xv == a * b + rest && xx == a * a + sq
    ensures xu == Dot(x, Shifted(v, x, t)) && xv == Dot(x, v) && xx == Dot(x, x)
  {
    var u := Shifted(v, x, t);
    ShiftedTail(v, x, t);
    ShiftedAt(v, x, t, 0);
    DotUnfold(x, u);
    DotUnfold(x, v);
    DotUnfold(x, x);
    a, b, head, rest, sq, tail := x[0], v[0], u[0], Dot(x[1..], v[1..]), Dot(x[1..], x[1..]), Dot(x[1..], u[1..]);
    xu, xv, xx := Dot(x, u), Dot(x, v), Dot(x, x);
  }

  /** Moving `v` by -t * x changes its dot product with `x` by -t * (x . x). */
  lemma {:induction false} DotShift(x: seq<real>, v: seq<real>, t: real)
    requires |x| == |v|
    ensures Dot(x, Shifted(v, x, t)) == Dot(x, v) - t * Dot(x, x)
    decreases |x|
  {
    if |x| > 0 {
      DotShift(x[1..], v[1..], t);
      var a, b, head, rest, sq, tail, xu, xv, xx := ShiftParts(x, v, t);
      ShiftAlgebra(a, b, t, head, rest, sq, tail, xu, xv, xx);
      assert Dot(x, Shifted(v, x, t)) == Dot(x, v) - t * Dot(x, x);
    } else {
      assert Dot(x, x) == 0.0;
    }
  }
}
