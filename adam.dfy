/** `adam_gradient_descent`, the optimiser loop two of the network scripts
    carry in-repo (python/interference2_33_33_network_violations.py and its copy
    in python/min_butterfly_33_33_network_violations.py). The cost function, the
    Adam update and the wall clock are parameters: only the bookkeeping of the
    loop is modelled. */
module AdamDescent {
  import opened Scores
  import opened OptDicts

  /** `cost(*settings)`: the negated score of the settings, or an exception. */
  type Cost = Settings -> Outcome<Score>

  /** What `opt.step(cost, *settings, grad_fn=grad_fn)` hands back: a list of
      setting arrays, a single bare array, or an exception. */
  datatype StepResult = ListStep(settings: Settings) | ArrayStep(values: seq<real>) | StepRaised

  /** The Adam update. Adam keeps moment estimates between calls, so the update
      is a function of every setting visited so far (the last one is current). */
  type Step = seq<Settings> -> StepResult

  /** `time.time() - start` measured around the update of iteration `i`. */
  type Clock = nat -> real

  /** The interface string under which the loop runs. */
  const Autograd := "autograd"

  /** The settings after an update: a bare array is wrapped in a one-element
      list, so the settings stay a list. */
  function NextSettings(r: StepResult): (s: Outcome<Settings>)
    ensures r.ListStep? ==> s == Ok(r.settings)
    ensures r.ArrayStep? ==> s == Ok([r.values])
    ensures r.StepRaised? <==> s.Raised?
  {
    match r
    case ListStep(s) => Ok(s)
    case ArrayStep(a) => Ok([a])
    case StepRaised => Raised
  }

  /** Iteration `i` is sampled when `i % sample_width == 0`. Python's `%` and
      Dafny's disagree on the sign of a remainder for a negative width, but
      agree on when it is zero, which is all this test looks at. */
  predicate Sampled(i: int, w: int)
    requires w != 0
  {
    i % w == 0
  }

  /** The sampled iterations among `0 .. n-1`, in increasing order. */
  function SampledIndices(n: nat, w: int): (s: seq<int>)
    requires w != 0
  {
    if n == 0 then []
    else SampledIndices(n - 1, w) + (if Sampled(n - 1, w) then [n - 1] else [])
  }

  /** The local variables of the loop after some iterations. */
  datatype Trace = Trace(
    settings: Settings,
    scores: seq<Score>,
    samples: seq<int>,
    stepTimes: seq<real>,
    history: seq<Settings>,
    elapsed: real)

  /** One pass of the loop body, iteration `i`: sample the score of the current
      settings when `i` is sampled, take an optimiser step, record the step
      time when sampled, and append the new settings to the history. */
  function Iterate(cost: Cost, step: Step, clock: Clock, w: int, t: Trace, i: nat): Outcome<Trace>
  {
    if w == 0 then Raised  // `i % 0` raises ZeroDivisionError
    else if Sampled(i, w) && cost(t.settings).Raised? then Raised
    else
      var next := NextSettings(step(t.history));
      if next.Raised? then Raised
      else
        var sampled := Sampled(i, w);
        Ok(Trace(
          next.value,
          t.scores + (if sampled then [Neg(cost(t.settings).value)] else []),
          t.samples + (if sampled then [i] else []),
          t.stepTimes + (if sampled then [clock(i)] else []),
          t.history + [next.value],
          clock(i)))
  }

  /** The loop state before the first iteration. */
  function Start(init: Settings): Trace
  {
    Trace(init, [], [], [], [init], 0.0)
  }

  /** The loop state after the first `k` iterations, or the exception one of
      them raised. */
  function Run(cost: Cost, step: Step, clock: Clock, w: int, init: Settings, k: nat): Outcome<Trace>
  {
    if k == 0 then Ok(Start(init))
    else
      var prev := Run(cost, step, clock, w, init, k - 1);
      if prev.Raised? then Raised else Iterate(cost, step, clock, w, prev.value, k - 1)
  }

  /** `range(num_steps)` is empty for a negative count. */
  function StepCount(numSteps: int): nat
  {
    if numSteps < 0 then 0 else numSteps
  }

  /** The whole call: the interface check, the loop, the final score and the
      eight-key result dict. */
  function AdamSpec(cost: Cost, step: Step, clock: Clock, startStamp: string, init: Settings,
                    numSteps: int, stepSize: real, w: int, interface: string): Outcome<OptDict>
  {
    if interface != Autograd then Raised  // "tf" fails to import, anything else is a ValueError
    else
      var run := Run(cost, step, clock, w, init, StepCount(numSteps));
      if run.Raised? then Raised
      else
        var t := run.value;
        var last := cost(t.settings);
        if last.Raised? then Raised
        else
          var optScore := Neg(last.value);
          Ok(ResultDict(startStamp, optScore, t.settings, t.scores + [optScore],
                        t.samples + [numSteps], t.history, t.stepTimes + [t.elapsed], stepSize))
  }

  /** The dict `adam_gradient_descent` returns. */
  function ResultDict(stamp: string, optScore: Score, optSettings: Settings, scores: seq<Score>,
                      samples: seq<int>, history: seq<Settings>, stepTimes: seq<real>,
                      stepSize: real): (d: OptDict)
    ensures d.Keys == ResultKeys
  {
    map[
      "datetime" := Text(stamp),
      "opt_score" := Float(optScore),
      "opt_settings" := Setting(optSettings),
      "scores" := Floats(scores),
      "samples" := Ints(samples),
      "settings_history" := SettingsList(history),
      "step_times" := Reals(stepTimes),
      "step_size" := Real(stepSize)
    ]
  }

  /** Once an iteration raises, the loop has raised for every later count. */
  lemma {:induction false} RunStaysRaised(cost: Cost, step: Step, clock: Clock, w: int, init: Settings, k: nat, m: nat)
    requires k <= m && Run(cost, step, clock, w, init, k).Raised?
    ensures Run(cost, step, clock, w, init, m).Raised?
  {
    if k < m {
      RunStaysRaised(cost, step, clock, w, init, k, m - 1);
    }
  }

  /** The loop of `adam_gradient_descent`, with the same early exits. */
  method AdamGradientDescent(cost: Cost, initSettings: Settings, numSteps: int, stepSize: real,
                             sampleWidth: int, interface: string,
                             step: Step, clock: Clock, startStamp: string)
    returns (r: Outcome<OptDict>)
    ensures r == AdamSpec(cost, step, clock, startStamp, initSettings, numSteps, stepSize, sampleWidth, interface)
  {
    if interface != Autograd {
      return Raised;
    }
    var settings := initSettings;
    var scores: seq<Score> := [];
    var samples: seq<int> := [];
    var stepTimes: seq<real> := [];
    var history := [initSettings];
    var elapsed := 0.0;
    var n := StepCount(numSteps);
    for i := 0 to n
      invariant Run(cost, step, clock, sampleWidth, initSettings, i)
                == Ok(Trace(settings, scores, samples, stepTimes, history, elapsed))
    {
      ghost var before := Trace(settings, scores, samples, stepTimes, history, elapsed);
      if sampleWidth == 0 {
        RunStaysRaised(cost, step, clock, sampleWidth, initSettings, i + 1, n);
        return Raised;
      }
      var sampled := Sampled(i, sampleWidth);
      if sampled {
        var c := cost(settings);
        if c.Raised? {
          RunStaysRaised(cost, step, clock, sampleWidth, initSettings, i + 1, n);
          return Raised;
        }
        scores := scores + [Neg(c.value)];
        samples := samples + [i];
      }
      var next := NextSettings(step(history));
      if next.Raised? {
        RunStaysRaised(cost, step, clock, sampleWidth, initSettings, i + 1, n);
        return Raised;
      }
      settings := next.value;
      elapsed := clock(i);
      if sampled {
        stepTimes := stepTimes + [elapsed];
      }
      history := history + [settings];
      assert sampled == Sampled(i, sampleWidth);
      assert next == NextSettings(step(before.history));
      if !sampled {
        assert before.scores + [] == scores && before.samples + [] == samples;
        assert before.stepTimes + [] == stepTimes;
      }
      assert Iterate(cost, step, clock, sampleWidth, before, i)
          == Ok(Trace(settings, scores, samples, stepTimes, history, elapsed));
      assert Run(cost, step, clock, sampleWidth, initSettings, i + 1)
          == Iterate(cost, step, clock, sampleWidth, before, i);
    }
    var c := cost(settings);
    if c.Raised? {
      return Raised;
    }
    var optScore := Neg(c.value);
    stepTimes := stepTimes + [elapsed];
    scores := scores + [optScore];
    samples := samples + [numSteps];
    r := Ok(ResultDict(startStamp, optScore, settings, scores, samples, history, stepTimes, stepSize));
  }

  // ---------------------------------------------------------------------
  // What the loop records

  /** An index is sampled exactly when it lies in `0 .. n-1` and is a multiple
      of the width; the list is strictly increasing. */
  lemma {:induction false} SampledIndicesSpec(n: nat, w: int)
    requires w != 0
    ensures forall i :: i in SampledIndices(n, w) <==> 0 <= i < n && Sampled(i, w)
    ensures forall a, b :: 0 <= a < b < |SampledIndices(n, w)| ==> SampledIndices(n, w)[a] < SampledIndices(n, w)[b]
  {
    if n > 0 {
      SampledIndicesSpec(n - 1, w);
      var prev := SampledIndices(n - 1, w);
      var s := SampledIndices(n, w);
      forall a | 0 <= a < |prev| ensures s[a] == prev[a] && prev[a] < n - 1 {
        assert prev[a] in prev;
      }
    }
  }

  /** With a positive width `w`, `ceil(n / w)` of the first `n` iterations are
      sampled. */
  lemma {:induction false} SampledCount(n: nat, w: int)
    requires w > 0
    ensures |SampledIndices(n, w)| == (n + w - 1) / w
  {
    if n > 0 {
      SampledCount(n - 1, w);
      CeilStep(n - 1, w);
    }
  }

  /** Going from `m` to `m + 1` iterations adds one to `ceil(m / w)` exactly
      when iteration `m` is sampled. */
  lemma CeilStep(m: nat, w: int)
    requires w > 0
    ensures (m + w) / w == (m + w - 1) / w + (if Sampled(m, w) then 1 else 0)
  {
    var q, r := DivMod(m, w);
    if r == 0 {
      DivUnique(m + w - 1, w, q, w - 1);
      DivUnique(m + w, w, q + 1, 0);
    } else {
      DivUnique(m + w - 1, w, q + 1, r - 1);
      DivUnique(m + w, w, q + 1, r);
    }
  }

  /** Quotient and remainder of `m` by `w`; the remainder is zero exactly when
      `m` is sampled. */
  lemma DivMod(m: nat, w: int) returns (q: int, r: int)
    requires w > 0
    ensures m == q * w + r && 0 <= r < w
    ensures r == 0 <==> Sampled(m, w)
  {
    q, r := m / w, m % w;
  }

  /** Euclidean division is determined by quotient and remainder. */
  lemma DivUnique(x: int, w: int, q: int, r: int)
    requires w > 0 && 0 <= r < w && x == q * w + r
    ensures x / w == q
  {
    var q1, r1 := x / w, x % w;
    assert x == q1 * w + r1;
    if q1 < q {
      MulLe(q1 + 1, q, w);
    } else if q < q1 {
      MulLe(q + 1, q1, w);
    }
  }

  /** Multiplying by a positive number keeps order, and distributes over `+ 1`. */
  lemma MulLe(a: int, b: int, w: int)
    requires a <= b && w > 0
    ensures a * w <= b * w && (a - 1) * w == a * w - w
  {
  }

  /** What holds of the loop state after `k` iterations that did not raise. */
  ghost predicate Recorded(cost: Cost, step: Step, clock: Clock, w: int, init: Settings, k: nat, t: Trace)
    requires w != 0
  {
    && |t.history| == k + 1
    && t.history[0] == init
    && t.settings == t.history[k]
    && t.samples == SampledIndices(k, w)
    && |t.scores| == |t.samples| == |t.stepTimes|
    && (forall j :: 0 <= j < |t.samples| ==>
          0 <= t.samples[j] < k
          && cost(t.history[t.samples[j]]).Ok?
          && t.scores[j] == Neg(cost(t.history[t.samples[j]]).value)
          && t.stepTimes[j] == clock(t.samples[j]))
    && (forall i :: 1 <= i <= k ==> NextSettings(step(t.history[..i])) == Ok(t.history[i]))
    && (k > 0 ==> t.elapsed == clock(k - 1))
    && (k == 0 ==> t.elapsed == 0.0)
  }

  /** One iteration extends the settings history by what the step returned. */
  lemma StepHistory(cost: Cost, step: Step, clock: Clock, w: int, init: Settings, k: nat, p: Trace, t: Trace)
    requires w != 0 && Recorded(cost, step, clock, w, init, k, p)
    requires Iterate(cost, step, clock, w, p, k) == Ok(t)
    ensures |t.history| == k + 2 && t.history[0] == init && t.settings == t.history[k + 1]
    ensures t.history[..k + 1] == p.history
    ensures forall i :: 1 <= i <= k + 1 ==> NextSettings(step(t.history[..i])) == Ok(t.history[i])
  {
    assert t.history == p.history + [t.settings];
    assert t.history[..k + 1] == p.history;
    forall i | 1 <= i <= k + 1
      ensures NextSettings(step(t.history[..i])) == Ok(t.history[i])
    {
      if i < k + 1 {
        assert t.history[..i] == p.history[..i];
      }
    }
  }

  /** One iteration records a score and a step time exactly when it is sampled. */
  lemma StepSamples(cost: Cost, step: Step, clock: Clock, w: int, init: Settings, k: nat, p: Trace, t: Trace)
    requires w != 0 && Recorded(cost, step, clock, w, init, k, p)
    requires Iterate(cost, step, clock, w, p, k) == Ok(t)
    requires |t.history| == k + 2 && t.history[..k + 1] == p.history
    ensures t.samples == SampledIndices(k + 1, w)
    ensures |t.scores| == |t.samples| == |t.stepTimes|
    ensures forall j :: 0 <= j < |t.samples| ==>
          0 <= t.samples[j] < k + 1
          && cost(t.history[t.samples[j]]).Ok?
          && t.scores[j] == Neg(cost(t.history[t.samples[j]]).value)
          && t.stepTimes[j] == clock(t.samples[j])
  {
    forall j | 0 <= j < |t.samples|
      ensures 0 <= t.samples[j] < k + 1
          && cost(t.history[t.samples[j]]).Ok?
          && t.scores[j] == Neg(cost(t.history[t.samples[j]]).value)
          && t.stepTimes[j] == clock(t.samples[j])
    {
      if j < |p.samples| {
        assert t.history[p.samples[j]] == t.history[..k + 1][p.samples[j]];
      } else {
        assert t.history[k] == t.history[..k + 1][k];
      }
    }
  }

  /** One iteration takes `Recorded` after `k` iterations to `Recorded` after `k + 1`. */
  lemma StepRecorded(cost: Cost, step: Step, clock: Clock, w: int, init: Settings, k: nat, p: Trace, t: Trace)
    requires w != 0 && Recorded(cost, step, clock, w, init, k, p)
    requires Iterate(cost, step, clock, w, p, k) == Ok(t)
    ensures Recorded(cost, step, clock, w, init, k + 1, t)
  {
    StepHistory(cost, step, clock, w, init, k, p, t);
    StepSamples(cost, step, clock, w, init, k, p, t);
  }

  /** A run of `k + 1` iterations that returns normally is a run of `k`
      iterations followed by one more. */
  lemma RunStep(cost: Cost, step: Step, clock: Clock, w: int, init: Settings, k: nat)
    requires Run(cost, step, clock, w, init, k + 1).Ok?
    ensures Run(cost, step, clock, w, init, k).Ok?
    ensures Iterate(cost, step, clock, w, Run(cost, step, clock, w, init, k).value, k) == Run(cost, step, clock, w, init, k + 1)
  {
  }

  /** The loop keeps `Recorded` from one iteration to the next. */
  lemma {:induction false} RunRecorded(cost: Cost, step: Step, clock: Clock, w: int, init: Settings, k: nat)
    requires w != 0 && Run(cost, step, clock, w, init, k).Ok?
    ensures Recorded(cost, step, clock, w, init, k, Run(cost, step, clock, w, init, k).value)
  {
    if k > 0 {
      RunStep(cost, step, clock, w, init, k - 1);
      RunRecorded(cost, step, clock, w, init, k - 1);
      StepRecorded(cost, step, clock, w, init, k - 1, Run(cost, step, clock, w, init, k - 1).value,
                   Run(cost, step, clock, w, init, k).value);
    }
  }

  /** A run that returns normally yields the eight-key dict whose `samples` are
      the sampled iterations followed by `num_steps`; `scores`, `samples` and
      `step_times` have equal length, one more than the number of sampled
      iterations; the history starts at the initial settings, has one entry
      per step plus one, and ends at `opt_settings`. */
  lemma AdamResult(cost: Cost, step: Step, clock: Clock, stamp: string, init: Settings,
                   numSteps: int, stepSize: real, w: int, interface: string)
    requires AdamSpec(cost, step, clock, stamp, init, numSteps, stepSize, w, interface).Ok?
    ensures w != 0 || numSteps <= 0
    ensures var d := AdamSpec(cost, step, clock, stamp, init, numSteps, stepSize, w, interface).value;
      var n := StepCount(numSteps);
      && d.Keys == ResultKeys
      && d["samples"].Ints? && d["scores"].Floats? && d["step_times"].Reals?
      && d["settings_history"].SettingsList? && d["opt_settings"].Setting? && d["opt_score"].Float?
      && (w != 0 ==> d["samples"].ns == SampledIndices(n, w) + [numSteps])
      && (w == 0 ==> d["samples"].ns == [numSteps])
      && |d["scores"].fs| == |d["samples"].ns| == |d["step_times"].rs|
      && |d["settings_history"].ss| == n + 1
      && d["settings_history"].ss[0] == init
      && d["settings_history"].ss[n] == d["opt_settings"].s
      && d["scores"].fs[|d["scores"].fs| - 1] == d["opt_score"].f
      && cost(d["opt_settings"].s).Ok?
      && d["opt_score"].f == Neg(cost(d["opt_settings"].s).value)
      && d["step_size"] == Real(stepSize)
  {
    var n := StepCount(numSteps);
    if w != 0 {
      RunRecorded(cost, step, clock, w, init, n);
    }
  }

  /** Every sampled score but the last is the negated cost of the settings the
      sampled iteration started from, and the sampled step time is that
      iteration's; every history entry after the first is what the optimiser
      step returned, a bare array wrapped in a list. */
  lemma AdamTrajectory(cost: Cost, step: Step, clock: Clock, stamp: string, init: Settings,
                       numSteps: int, stepSize: real, w: int, interface: string)
    requires AdamSpec(cost, step, clock, stamp, init, numSteps, stepSize, w, interface).Ok?
    requires w != 0
    ensures var d := AdamSpec(cost, step, clock, stamp, init, numSteps, stepSize, w, interface).value;
      var n := StepCount(numSteps);
      var samples := d["samples"].ns;
      var history := d["settings_history"].ss;
      && |samples| == |d["scores"].fs| == |d["step_times"].rs|
      && |history| == n + 1
      && (forall j :: 0 <= j < |samples| - 1 ==>
            0 <= samples[j] < n
            && cost(history[samples[j]]).Ok?
            && d["scores"].fs[j] == Neg(cost(history[samples[j]]).value)
            && d["step_times"].rs[j] == clock(samples[j]))
      && (forall i :: 1 <= i <= n ==> NextSettings(step(history[..i])) == Ok(history[i]))
  {
    RunRecorded(cost, step, clock, w, init, StepCount(numSteps));
  }

  /** The error paths: an interface other than "autograd" raises before any
      step, and so does a zero sample width once there is a step to take. */
  lemma AdamRaises(cost: Cost, step: Step, clock: Clock, stamp: string, init: Settings,
                   numSteps: int, stepSize: real, w: int, interface: string)
    requires interface != Autograd || (w == 0 && numSteps > 0)
    ensures AdamSpec(cost, step, clock, stamp, init, numSteps, stepSize, w, interface).Raised?
  {
    if interface == Autograd {
      assert Run(cost, step, clock, w, init, 1).Raised?;
      RunStaysRaised(cost, step, clock, w, init, 1, numSteps);
    }
  }
}
