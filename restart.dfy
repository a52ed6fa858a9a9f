/** Best-of-K restart selection, the loop every script runs over the dicts its
    workers gathered: keep result 0, and move to result `j` only when
    `max(scores_j) > max_score` under Python's float comparison. */
module Restart {
  import opened Scores
  import opened OptDicts
  import opened Harness

  /** `client.gather(client.map(opt_fn, range(n)))`: the results of `opt_fn` on
      `0 .. n-1`, each with its own randomness, or the first exception. */
  function Gather(optFn: (int, Seed) -> Outcome<OptDict>, seeds: seq<Seed>): (r: Outcome<seq<OptDict>>)
    ensures r.Ok? ==> |r.value| == |seeds|
    ensures r.Ok? <==> forall j :: 0 <= j < |seeds| ==> optFn(j, seeds[j]).Ok?
    ensures r.Ok? ==> forall j :: 0 <= j < |seeds| ==> r.value[j] == optFn(j, seeds[j]).value
  {
    if |seeds| == 0 then Ok([])
    else
      var init := Gather(optFn, seeds[..|seeds| - 1]);
      var last := optFn(|seeds| - 1, seeds[|seeds| - 1]);
      if init.Raised? || last.Raised? then Raised
      else Ok(init.value + [last.value])
  }

  /** Every gathered dict has a trajectory. */
  ghost predicate AllTrajectories(dicts: seq<OptDict>)
  {
    forall j :: 0 <= j < |dicts| ==> HasTrajectory(dicts[j])
  }

  /** The dicts `optimize_inequality`'s `opt_fn` returns: it reports
      `max(scores)` before returning, so whatever the workers gather can be
      reduced. */
  lemma GatheredHaveTrajectories(ansatz: Ansatz, postmap: Matrices.IntMatrix, inequality: Inequality,
                                 fixedIds: seq<nat>, fixedSettings: seq<real>,
                                 wrapper: Wrapper, kwargs: Kwargs, seeds: seq<Seed>)
    requires Gather((p: int, seed: Seed) => OptFn(ansatz, postmap, inequality, fixedIds, fixedSettings,
                                                  wrapper, kwargs, seed), seeds).Ok?
    ensures AllTrajectories(Gather((p: int, seed: Seed) => OptFn(ansatz, postmap, inequality, fixedIds,
                                                                 fixedSettings, wrapper, kwargs, seed), seeds).value)
  {
  }

  /** `max(d["scores"])` for every gathered dict, in order. */
  function Maxima(dicts: seq<OptDict>): (m: seq<Score>)
    requires AllTrajectories(dicts)
    ensures |m| == |dicts|
    ensures forall j :: 0 <= j < |dicts| ==> m[j] == TrajectoryMax(dicts[j])
  {
    seq(|dicts|, j requires 0 <= j < |dicts| => TrajectoryMax(dicts[j]))
  }

  /** The index the loop ends on. */
  function Selected(dicts: seq<OptDict>): (k: nat)
    requires |dicts| > 0 && AllTrajectories(dicts)
    ensures k < |dicts|
  {
    PyArgMax(Maxima(dicts))
  }

  /** The reduction loop: `max_opt_dict` ends as the selected dict and
      `max_score` as its trajectory maximum, which is `max` over all the
      trajectory maxima. */
  method BestOfK(dicts: seq<OptDict>) returns (maxOptDict: OptDict, maxScore: Score)
    requires |dicts| > 0 && AllTrajectories(dicts)
    ensures maxOptDict == dicts[Selected(dicts)]
    ensures HasTrajectory(maxOptDict) && maxScore == TrajectoryMax(maxOptDict)
    ensures maxScore == PyMax(Maxima(dicts))
  {
    ghost var m := Maxima(dicts);
    maxOptDict := dicts[0];
    maxScore := TrajectoryMax(maxOptDict);
    ghost var k := 0;
    assert m[..1] == [m[0]];
    for j := 1 to |dicts|
      invariant k == PyArgMax(m[..j]) && maxOptDict == dicts[k]
      invariant maxScore == m[k] == PyMax(m[..j])
    {
      assert m[..j + 1][..j] == m[..j];
      PyMaxAtArgMax(m[..j]);
      if Gt(TrajectoryMax(dicts[j]), maxScore) {
        maxScore := TrajectoryMax(dicts[j]);
        maxOptDict := dicts[j];
        k := j;
      }
    }
    assert m[..|dicts|] == m;
  }

  /** The reduction loop followed by `max_opt_dict["postmap1"] = ...` and
      `max_opt_dict["postmap2"] = ...`: the selected dict gains the two
      postmaps and nothing else, and `max_score` is still its trajectory
      maximum. */
  method BestOfKTagged(dicts: seq<OptDict>, postmap1: Matrices.IntMatrix, postmap2: Matrices.IntMatrix)
    returns (maxOptDict: OptDict, maxScore: Score)
    requires |dicts| > 0 && AllTrajectories(dicts)
    ensures maxOptDict == Tagged(dicts[Selected(dicts)], postmap1, postmap2)
    ensures maxOptDict.Keys == dicts[Selected(dicts)].Keys + {"postmap1", "postmap2"}
    ensures HasTrajectory(maxOptDict) && maxScore == TrajectoryMax(maxOptDict) == PyMax(Maxima(dicts))
  {
    maxOptDict, maxScore := BestOfK(dicts);
    maxOptDict := Tagged(maxOptDict, postmap1, postmap2);
  }

  /** The selected dict is described without the loop: a NaN-scored result 0
      is kept; no later result scores strictly higher; every earlier result
      is NaN or strictly lower. Without NaN it is the earliest dict with the
      greatest trajectory maximum. */
  lemma SelectedSpec(dicts: seq<OptDict>)
    requires |dicts| > 0 && AllTrajectories(dicts)
    ensures var k := Selected(dicts);
      && (TrajectoryMax(dicts[0]).NaN? ==> k == 0)
      && (forall j :: k < j < |dicts| ==> !Gt(TrajectoryMax(dicts[j]), TrajectoryMax(dicts[k])))
      && (forall j :: 0 <= j < k ==>
            TrajectoryMax(dicts[j]).NaN? || Gt(TrajectoryMax(dicts[k]), TrajectoryMax(dicts[j])))
    ensures NoNaN(Maxima(dicts)) ==>
      var k := Selected(dicts);
      && (forall j :: 0 <= j < |dicts| ==> TrajectoryMax(dicts[j]).v <= TrajectoryMax(dicts[k]).v)
      && (forall j :: 0 <= j < k ==> TrajectoryMax(dicts[j]).v < TrajectoryMax(dicts[k]).v)
  {
    var m := Maxima(dicts);
    PyArgMaxSpec(m);
    if NoNaN(m) {
      PyArgMaxNoNaN(m);
    }
  }

  /** With one worker the loop body never runs and result 0 is kept. */
  lemma SingleWorker(dicts: seq<OptDict>)
    requires |dicts| == 1 && AllTrajectories(dicts)
    ensures Selected(dicts) == 0
  {
  }

  /** With two workers, result 1 is chosen exactly when its trajectory
      maximum is strictly greater; ties and NaN keep result 0. */
  lemma TwoWorkers(dicts: seq<OptDict>)
    requires |dicts| == 2 && AllTrajectories(dicts)
    ensures Selected(dicts) == 1 <==> Gt(TrajectoryMax(dicts[1]), TrajectoryMax(dicts[0]))
  {
    assert Maxima(dicts)[..1] == [TrajectoryMax(dicts[0])];
  }

  /** A NaN-scored result 0, such as the sentinel of a failed run, is never
      replaced, whatever the other workers found. */
  lemma NaNFirstKept(dicts: seq<OptDict>)
    requires |dicts| > 0 && AllTrajectories(dicts)
    requires TrajectoryMax(dicts[0]).NaN?
    ensures Selected(dicts) == 0
  {
    PyMaxNaN(Maxima(dicts));
  }

  /** The loop of the butterfly script whose update reads the list of another
      loop, a name not bound in that file: the first strictly better result
      raises `NameError`. */
  method BestOfKUnboundName(dicts: seq<OptDict>) returns (r: Outcome<OptDict>)
    requires |dicts| > 0 && AllTrajectories(dicts)
    ensures r.Raised? <==> Selected(dicts) != 0
    ensures r.Ok? ==> r.value == dicts[0]
  {
    ghost var m := Maxima(dicts);
    var maxOptDict := dicts[0];
    var maxScore := TrajectoryMax(maxOptDict);
    assert m[..1] == [m[0]];
    for j := 1 to |dicts|
      invariant PyArgMax(m[..j]) == 0 && maxScore == m[0]
    {
      assert m[..j + 1][..j] == m[..j];
      if Gt(TrajectoryMax(dicts[j]), maxScore) {
        NoReturnToFront(m, j + 1);
        assert m[..|dicts|] == m;
        return Raised;
      }
    }
    assert m[..|dicts|] == m;
    r := Ok(maxOptDict);
  }

  /** Once the scan has left position 0 it does not come back. */
  lemma {:induction false} NoReturnToFront(m: seq<Score>, n: nat)
    requires 1 < n <= |m| && PyArgMax(m[..n]) != 0
    ensures PyArgMax(m) != 0
    decreases |m| - n
  {
    if n < |m| {
      assert m[..n + 1][..n] == m[..n];
      NoReturnToFront(m, n + 1);
    } else {
      assert m[..n] == m;
    }
  }
}
