/** Python floats as the optimisation scripts use them, and Python's built-in
    `max` over a list of them. Only NaN and finite values occur: a failed run is
    reported with NaN, every other score is a finite real. */
module Scores {

  /** A Python float: NaN, or a finite real number. */
  datatype Score = NaN | Num(v: real)

  /** Python's `a > b` on floats: false whenever either side is NaN. */
  predicate Gt(a: Score, b: Score)
  {
    a.Num? && b.Num? && a.v > b.v
  }

  /** Python's unary minus: NaN stays NaN. */
  function Neg(a: Score): (r: Score)
    ensures r.NaN? <==> a.NaN?
    ensures a.Num? ==> r.v == -a.v
  {
    match a
    case NaN => NaN
    case Num(x) => Num(-x)
  }

  /** Python's `a - b` with a NaN-or-finite `a` and an integer `b`. */
  function Sub(a: Score, b: int): (r: Score)
    ensures r.NaN? <==> a.NaN?
    ensures a.Num? ==> r.v == a.v - b as real
  {
    match a
    case NaN => NaN
    case Num(x) => Num(x - b as real)
  }

  /** Negation is its own inverse and reverses `>`: a score `-cost` is
      greater exactly when the cost is lower, and NaN compares on neither side. */
  lemma NegReversesOrder(a: Score, b: Score)
    ensures Neg(Neg(a)) == a
    ensures Gt(Neg(a), Neg(b)) <==> Gt(b, a)
  {
  }

  /** Subtracting the same integer bound from both sides keeps `>`, so the
      score that was greatest still is after the bound is taken off. */
  lemma SubKeepsOrder(a: Score, b: Score, k: int)
    ensures Gt(Sub(a, k), Sub(b, k)) <==> Gt(a, b)
    ensures Sub(a, k).Num? ==> Sub(a, k).v + k as real == a.v
  {
  }

  /** Python's built-in `max(xs)`: it starts from the first element and moves
      to a later element only when that element compares `>` the current one. */
  function PyMax(xs: seq<Score>): Score
    requires |xs| > 0
  {
    if |xs| == 1 then xs[0]
    else
      var m := PyMax(xs[..|xs| - 1]);
      if Gt(xs[|xs| - 1], m) then xs[|xs| - 1] else m
  }

  /** The position `max` ends on: the same left-to-right scan, keeping an index. */
  function PyArgMax(xs: seq<Score>): (k: nat)
    requires |xs| > 0
    ensures k < |xs|
  {
    if |xs| == 1 then 0
    else
      var k := PyArgMax(xs[..|xs| - 1]);
      if Gt(xs[|xs| - 1], xs[k]) then |xs| - 1 else k
  }

  /** An independent description of the position the scan ends on: a NaN in
      front is never left; nothing after the position compares greater than it;
      everything before it is NaN or strictly smaller. */
  ghost predicate IsPyArgMax(xs: seq<Score>, k: nat)
  {
    && k < |xs|
    && (xs[0].NaN? ==> k == 0)
    && (forall j :: k < j < |xs| ==> !Gt(xs[j], xs[k]))
    && (forall j :: 0 <= j < k ==> xs[j].NaN? || Gt(xs[k], xs[j]))
  }

  /** No element is NaN. */
  ghost predicate NoNaN(xs: seq<Score>)
  {
    forall j :: 0 <= j < |xs| ==> xs[j].Num?
  }

  /** The scan ends on a position that the description above characterises. */
  lemma {:induction false} PyArgMaxSpec(xs: seq<Score>)
    requires |xs| > 0
    ensures IsPyArgMax(xs, PyArgMax(xs))
  {
    if |xs| > 1 {
      var init := xs[..|xs| - 1];
      PyArgMaxSpec(init);
      var k := PyArgMax(init);
      assert forall j :: 0 <= j < |init| ==> init[j] == xs[j];
      if Gt(xs[|xs| - 1], xs[k]) {
        var n := |xs| - 1;
        assert xs[0].Num? by {
          if xs[0].NaN? { assert k == 0; }
        }
        forall j | 0 <= j < n
          ensures xs[j].NaN? || Gt(xs[n], xs[j])
        {
          if j < k {
            assert init[j].NaN? || Gt(init[k], init[j]);
          } else if j > k {
            assert !Gt(init[j], init[k]);
          }
        }
      }
    }
  }

  /** The description determines the position: at most one index satisfies it. */
  lemma IsPyArgMaxUnique(xs: seq<Score>, k1: nat, k2: nat)
    requires IsPyArgMax(xs, k1) && IsPyArgMax(xs, k2)
    ensures k1 == k2
  {
    PyArgMaxOrder(xs, k1, k2);
    PyArgMaxOrder(xs, k2, k1);
  }

  /** One half of the uniqueness argument, stated as an implication so that it
      holds whichever way the two positions are ordered. */
  lemma PyArgMaxOrder(xs: seq<Score>, k1: nat, k2: nat)
    requires IsPyArgMax(xs, k1) && IsPyArgMax(xs, k2)
    ensures k1 < k2 ==> xs[k1].NaN? && (k1 == 0 || xs[0].NaN? || Gt(xs[k1], xs[0]))
  {
  }

  /** `max` returns the element at the position the scan ends on. */
  lemma {:induction false} PyMaxAtArgMax(xs: seq<Score>)
    requires |xs| > 0
    ensures PyMax(xs) == xs[PyArgMax(xs)]
  {
    if |xs| > 1 {
      var init := xs[..|xs| - 1];
      PyMaxAtArgMax(init);
      assert init[PyArgMax(init)] == xs[PyArgMax(init)];
    }
  }

  /** A NaN in front poisons `max`: the result is NaN exactly when the first
      element is NaN (a later NaN is skipped, since nothing compares `>` NaN
      and NaN compares `>` nothing). */
  lemma PyMaxNaN(xs: seq<Score>)
    requires |xs| > 0
    ensures PyMax(xs).NaN? <==> xs[0].NaN?
    ensures xs[0].NaN? ==> PyArgMax(xs) == 0
  {
    PyArgMaxSpec(xs);
    PyMaxAtArgMax(xs);
    var k := PyArgMax(xs);
    if k > 0 { assert xs[0].NaN? || Gt(xs[k], xs[0]); }
  }

  /** Without NaN, `max` is the earliest greatest element. */
  lemma PyArgMaxNoNaN(xs: seq<Score>)
    requires |xs| > 0 && NoNaN(xs)
    ensures forall j :: 0 <= j < |xs| ==> xs[j].v <= xs[PyArgMax(xs)].v
    ensures forall j :: 0 <= j < PyArgMax(xs) ==> xs[j].v < xs[PyArgMax(xs)].v
  {
    PyArgMaxSpec(xs);
    var k := PyArgMax(xs);
    forall j | 0 <= j < |xs| ensures xs[j].v <= xs[k].v {
      if j > k { assert !Gt(xs[j], xs[k]); }
    }
  }

  /** With a finite first element, `max` is a finite element that is at least
      every finite element: the NaN entries after the first are ignored. */
  lemma PyMaxIgnoresLaterNaN(xs: seq<Score>)
    requires |xs| > 0 && xs[0].Num?
    ensures PyMax(xs).Num?
    ensures forall j :: 0 <= j < |xs| && xs[j].Num? ==> xs[j].v <= PyMax(xs).v
  {
    PyArgMaxSpec(xs);
    PyMaxAtArgMax(xs);
    PyMaxNaN(xs);
    var k := PyArgMax(xs);
    forall j | 0 <= j < |xs| && xs[j].Num? ensures xs[j].v <= xs[k].v {
      if j > k { assert !Gt(xs[j], xs[k]); }
      else if j < k { assert xs[j].NaN? || Gt(xs[k], xs[j]); }
    }
  }
}
