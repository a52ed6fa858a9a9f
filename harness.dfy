/** The fail-safe optimisation harness every script carries: the
    `_gradient_descent_wrapper` that turns any exception into the sentinel
    dict, and the `optimize_inequality` closure factory whose `opt_fn` draws
    fresh settings and runs one wrapped optimisation. The quantum network
    library (ansatz construction, random settings, the cost of an inequality,
    its own gradient descent) is foreign code and enters as parameters. */
module Harness {
  import opened Scores
  import opened Matrices
  import opened OptDicts
  import opened AdamDescent

  // ---------------------------------------------------------------------
  // Keyword arguments

  /** A keyword-argument value as the scripts pass them. */
  datatype Arg = IntArg(i: int) | RealArg(r: real) | BoolArg(b: bool) | StrArg(s: string) | FnArg

  /** `**gradient_kwargs`. */
  type Kwargs = map<string, Arg>

  /** `qnetvo.gradient_descent(cost, settings, **kwargs)`: a foreign call. */
  type Descent = (Cost, Settings, Kwargs) -> Outcome<OptDict>

  // ---------------------------------------------------------------------
  // The wrappers

  /** `try: ... except Exception: opt_dict = {...}`: the dict the call
      returned, or the sentinel when it raised. */
  function Catch(r: Outcome<OptDict>): (d: OptDict)
    ensures r.Ok? ==> d == r.value
    ensures r.Raised? ==> IsSentinel(d)
  {
    SentinelShape();
    if r.Ok? then r.value else Sentinel
  }

  /** The wrapper most scripts carry: the library's descent with the caller's
      keyword arguments, inside the `try`. */
  function PlainWrapper(descent: Descent, cost: Cost, settings: Settings, kwargs: Kwargs): (d: OptDict)
  {
    Catch(descent(cost, settings, kwargs))
  }

  /** The wrapper of the shared module: it always adds `optimizer="adam"`. A
      caller that already passes `optimizer` makes the call itself a
      `TypeError`, which the `try` catches too. */
  function AdamFlagWrapper(descent: Descent, cost: Cost, settings: Settings, kwargs: Kwargs): (d: OptDict)
  {
    Catch(if "optimizer" in kwargs then Raised
          else descent(cost, settings, kwargs["optimizer" := StrArg("adam")]))
  }

  /** The keyword parameters `adam_gradient_descent` accepts. */
  const AdamParams: set<string> :=
    {"num_steps", "step_size", "sample_width", "grad_fn", "verbose", "interface"}

  /** An integer keyword (a Python `bool` is an `int`), or its default. */
  function IntParam(kwargs: Kwargs, key: string, default: int): (v: Outcome<int>)
    ensures key !in kwargs ==> v == Ok(default)
    ensures key in kwargs && kwargs[key].IntArg? ==> v == Ok(kwargs[key].i)
  {
    if key !in kwargs then Ok(default)
    else match kwargs[key]
      case IntArg(i) => Ok(i)
      case BoolArg(b) => Ok(if b then 1 else 0)
      case _ => Raised
  }

  /** A numeric keyword as a float, or its default: an int or a bool (0 or 1)
      multiplies a float in each optimiser step as its value does. */
  function RealParam(kwargs: Kwargs, key: string, default: real): (v: Outcome<real>)
    ensures key !in kwargs ==> v == Ok(default)
    ensures key in kwargs && kwargs[key].RealArg? ==> v == Ok(kwargs[key].r)
    ensures key in kwargs && kwargs[key].IntArg? ==> v == Ok(kwargs[key].i as real)
    ensures key in kwargs && kwargs[key].BoolArg? ==> v == Ok(if kwargs[key].b then 1.0 else 0.0)
    ensures v.Raised? <==> key in kwargs && (kwargs[key].StrArg? || kwargs[key].FnArg?)
  {
    if key !in kwargs then Ok(default)
    else match kwargs[key]
      case RealArg(r) => Ok(r)
      case IntArg(i) => Ok(i as real)
      case BoolArg(b) => Ok(if b then 1.0 else 0.0)
      case _ => Raised
  }

  /** `sample_width`, or its default. Only `i % sample_width == 0` reads it,
      and for an integer `i` a float with an integral value samples exactly
      the iterations its integer does (and `0.0` raises as `0` does); a bool
      is the integer 0 or 1. */
  function WidthParam(kwargs: Kwargs, default: int): (v: Outcome<int>)
    ensures "sample_width" !in kwargs ==> v == Ok(default)
    ensures "sample_width" in kwargs && kwargs["sample_width"].IntArg? ==> v == Ok(kwargs["sample_width"].i)
    ensures "sample_width" in kwargs && kwargs["sample_width"].RealArg? ==>
              (v.Ok? <==> kwargs["sample_width"].r.Floor as real == kwargs["sample_width"].r) &&
              (v.Ok? ==> v.value as real == kwargs["sample_width"].r)
    ensures "sample_width" in kwargs && (kwargs["sample_width"].StrArg? || kwargs["sample_width"].FnArg?) ==> v.Raised?
  {
    if "sample_width" !in kwargs then Ok(default)
    else match kwargs["sample_width"]
      case IntArg(i) => Ok(i)
      case BoolArg(b) => Ok(if b then 1 else 0)
      case RealArg(r) => if r.Floor as real == r then Ok(r.Floor) else Raised
      case _ => Raised
  }

  /** A string keyword, or its default; anything else cannot be the
      interface name and ends in an exception. */
  function StrParam(kwargs: Kwargs, key: string, default: string): (v: Outcome<string>)
    ensures key !in kwargs ==> v == Ok(default)
    ensures key in kwargs && kwargs[key].StrArg? ==> v == Ok(kwargs[key].s)
  {
    if key !in kwargs then Ok(default)
    else match kwargs[key]
      case StrArg(s) => Ok(s)
      case _ => Raised
  }

  /** `adam_gradient_descent(cost, settings, **kwargs)` with its defaults
      (`num_steps=150`, `step_size=0.1`, `sample_width=25`,
      `interface="autograd"`). An unexpected keyword is a `TypeError`. The
      Adam optimiser `adam(step_size)` is foreign and enters as a parameter. */
  function AdamCall(adam: real -> Step, clock: Clock, stamp: string,
                    cost: Cost, settings: Settings, kwargs: Kwargs): Outcome<OptDict>
  {
    if !(kwargs.Keys <= AdamParams) then Raised
    else
      var numSteps := IntParam(kwargs, "num_steps", 150);
      var stepSize := RealParam(kwargs, "step_size", 0.1);
      var width := WidthParam(kwargs, 25);
      var interface := StrParam(kwargs, "interface", Autograd);
      if numSteps.Raised? || stepSize.Raised? || width.Raised? || interface.Raised? then Raised
      else AdamSpec(cost, adam(stepSize.value), clock, stamp, settings,
                    numSteps.value, stepSize.value, width.value, interface.value)
  }

  /** With no keywords the loop runs with the defaults of the signature. */
  lemma AdamCallDefaults(adam: real -> Step, clock: Clock, stamp: string, cost: Cost, settings: Settings)
    ensures AdamCall(adam, clock, stamp, cost, settings, map[])
         == AdamSpec(cost, adam(0.1), clock, stamp, settings, 150, 0.1, 25, Autograd)
  {
  }

  /** Each given keyword replaces its default (a float `sample_width` with an
      integral value as that integer), and `verbose` is accepted and ignored. */
  lemma AdamCallKeywords(adam: real -> Step, clock: Clock, stamp: string, cost: Cost, settings: Settings,
                         n: int, s: real, w: int, f: string)
    ensures AdamCall(adam, clock, stamp, cost, settings,
                     map["num_steps" := IntArg(n), "step_size" := RealArg(s),
                         "sample_width" := RealArg(w as real), "interface" := StrArg(f),
                         "verbose" := BoolArg(true)])
         == AdamSpec(cost, adam(s), clock, stamp, settings, n, s, w, f)
  {
    var kwargs := map["num_steps" := IntArg(n), "step_size" := RealArg(s),
                      "sample_width" := RealArg(w as real), "interface" := StrArg(f),
                      "verbose" := BoolArg(true)];
    assert kwargs.Keys == {"num_steps", "step_size", "sample_width", "interface", "verbose"};
    assert kwargs["num_steps"] == IntArg(n) && kwargs["step_size"] == RealArg(s);
    assert kwargs["sample_width"] == RealArg(w as real) && kwargs["interface"] == StrArg(f);
  }

  /** A keyword outside the signature is a `TypeError`. */
  lemma AdamCallUnknownKeyword(adam: real -> Step, clock: Clock, stamp: string, cost: Cost, settings: Settings,
                               key: string, arg: Arg)
    requires key !in AdamParams
    ensures AdamCall(adam, clock, stamp, cost, settings, map[key := arg]).Raised?
  {
  }

  /** The wrapper of the two scripts that carry their own Adam loop. */
  function LocalAdamWrapper(adam: real -> Step, clock: Clock, stamp: string,
                            cost: Cost, settings: Settings, kwargs: Kwargs): (d: OptDict)
  {
    Catch(AdamCall(adam, clock, stamp, cost, settings, kwargs))
  }

  /** The three wrappers as the values `opt_fn` calls. */
  function Plain(descent: Descent): Wrapper
  {
    (c: Cost, s: Settings, kw: Kwargs) => PlainWrapper(descent, c, s, kw)
  }

  function AdamFlag(descent: Descent): Wrapper
  {
    (c: Cost, s: Settings, kw: Kwargs) => AdamFlagWrapper(descent, c, s, kw)
  }

  function LocalAdam(adam: real -> Step, clock: Clock, stamp: string): Wrapper
  {
    (c: Cost, s: Settings, kw: Kwargs) => LocalAdamWrapper(adam, clock, stamp, c, s, kw)
  }

  /** The wrapper never raises, and its dict is either what the call returned
      or the five-key sentinel; in both cases `scores` is non-empty when the
      call's own dicts have a trajectory. */
  lemma PlainWrapperResult(descent: Descent, cost: Cost, settings: Settings, kwargs: Kwargs)
    ensures var r := descent(cost, settings, kwargs);
      var d := PlainWrapper(descent, cost, settings, kwargs);
      && (r.Ok? ==> d == r.value)
      && (r.Raised? ==> IsSentinel(d) && HasTrajectory(d) && TrajectoryMax(d) == NaN)
      && (r.Ok? && HasTrajectory(r.value) ==> HasTrajectory(d))
  {
    SentinelShape();
  }

  /** The shared wrapper is the plain wrapper called with `optimizer="adam"`
      added; a caller's own `optimizer` keyword yields the sentinel. */
  lemma AdamFlagIsPlainWithFlag(descent: Descent, cost: Cost, settings: Settings, kwargs: Kwargs)
    ensures "optimizer" !in kwargs ==>
      AdamFlagWrapper(descent, cost, settings, kwargs)
        == PlainWrapper(descent, cost, settings, kwargs["optimizer" := StrArg("adam")])
    ensures "optimizer" in kwargs ==>
      IsSentinel(AdamFlagWrapper(descent, cost, settings, kwargs))
    ensures "optimizer" !in kwargs ==>
      (kwargs["optimizer" := StrArg("adam")])["optimizer"] == StrArg("adam")
      && forall k :: k in kwargs ==> (kwargs["optimizer" := StrArg("adam")])[k] == kwargs[k]
  {
  }

  /** With the in-repo Adam loop the wrapper's dict always has a trajectory:
      it is either the eight-key result of a run or the five-key sentinel. */
  lemma LocalAdamWrapperResult(adam: real -> Step, clock: Clock, stamp: string,
                               cost: Cost, settings: Settings, kwargs: Kwargs)
    ensures var d := LocalAdamWrapper(adam, clock, stamp, cost, settings, kwargs);
      && HasTrajectory(d)
      && (IsSentinel(d) || d.Keys == ResultKeys)
      && (AdamCall(adam, clock, stamp, cost, settings, kwargs).Raised? ==> IsSentinel(d))
  {
    SentinelShape();
    var r := AdamCall(adam, clock, stamp, cost, settings, kwargs);
    if r.Ok? {
      var numSteps := IntParam(kwargs, "num_steps", 150).value;
      var stepSize := RealParam(kwargs, "step_size", 0.1).value;
      var width := WidthParam(kwargs, 25).value;
      var interface := StrParam(kwargs, "interface", Autograd).value;
      AdamResult(cost, adam(stepSize), clock, stamp, settings, numSteps, stepSize, width, interface);
    }
  }

  /** The error paths of the local loop end in the sentinel: an unexpected
      keyword, an interface other than "autograd", or a zero sample width with
      steps to take. */
  lemma LocalAdamWrapperErrors(adam: real -> Step, clock: Clock, stamp: string,
                               cost: Cost, settings: Settings, kwargs: Kwargs)
    requires
      || !(kwargs.Keys <= AdamParams)
      || ("interface" in kwargs && kwargs["interface"] != StrArg(Autograd))
      || ("sample_width" in kwargs && kwargs["sample_width"] in {IntArg(0), RealArg(0.0)}
          && "num_steps" in kwargs && kwargs["num_steps"].IntArg? && kwargs["num_steps"].i > 0)
    ensures IsSentinel(LocalAdamWrapper(adam, clock, stamp, cost, settings, kwargs))
  {
    var r := AdamCall(adam, clock, stamp, cost, settings, kwargs);
    if kwargs.Keys <= AdamParams {
      var numSteps := IntParam(kwargs, "num_steps", 150);
      var stepSize := RealParam(kwargs, "step_size", 0.1);
      var width := WidthParam(kwargs, 25);
      var interface := StrParam(kwargs, "interface", Autograd);
      if !(numSteps.Raised? || stepSize.Raised? || width.Raised? || interface.Raised?) {
        AdamRaises(cost, adam(stepSize.value), clock, stamp, settings,
                   numSteps.value, stepSize.value, width.value, interface.value);
      }
    }
  }

  // ---------------------------------------------------------------------
  // The closure factory

  /** A linear inequality `(gamma, G)`: the classical bound and the game matrix. */
  datatype Inequality = Inequality(bound: int, game: IntMatrix)

  /** The randomness one `opt_fn` call draws its settings from. */
  type Seed = nat

  /** `np.pi`, the double nearest to pi, written out exactly. */
  const Pi: real := 3.141592653589793115997963468544185161590576171875

  /** What the scripts use of a `qnetvo.NetworkAnsatz`: random settings
      holding the given ids at the given values, random scenario settings, and
      `linear_probs_cost_fn(ansatz, game, postmap)`. Each is library code and
      may raise; `opt_fn` calls them outside the wrapper's `try`. */
  datatype Ansatz = Ansatz(
    draw: (seq<nat>, seq<real>, Seed) -> Outcome<Settings>,
    scenario: Seed -> Outcome<Settings>,
    costOf: (IntMatrix, IntMatrix) -> Outcome<Cost>)

  /** One of the wrappers above, as `opt_fn` calls it. */
  type Wrapper = (Cost, Settings, Kwargs) -> OptDict

  /** `print(max(opt_dict["scores"]))`: it raises unless `scores` is a
      non-empty list; the dict is returned unchanged. */
  function ReportMax(d: OptDict): (r: Outcome<OptDict>)
    ensures r.Ok? <==> HasTrajectory(d)
    ensures r.Ok? ==> r.value == d
  {
    if HasTrajectory(d) then Ok(d) else Raised
  }

  /** `print(opt_dict["opt_score"] - inequality[0])`: it raises unless the dict
      holds a float `opt_score`; the dict is returned unchanged. */
  function ReportOptScore(d: OptDict): (r: Outcome<OptDict>)
    ensures r.Ok? <==> "opt_score" in d && d["opt_score"].Float?
    ensures r.Ok? ==> r.value == d
  {
    if "opt_score" in d && d["opt_score"].Float? then Ok(d) else Raised
  }

  /** The body of `opt_fn`: draw settings, build the cost of the inequality
      under the postmap, run the wrapper, report the best trajectory score.
      The draw and the cost builder run outside the wrapper's `try`, so their
      exceptions leave `opt_fn`. */
  function OptFn(ansatz: Ansatz, postmap: IntMatrix, inequality: Inequality,
                 fixedIds: seq<nat>, fixedSettings: seq<real>,
                 wrapper: Wrapper, kwargs: Kwargs, seed: Seed): (r: Outcome<OptDict>)
    ensures var settings := ansatz.draw(fixedIds, fixedSettings, seed);
      var cost := ansatz.costOf(inequality.game, postmap);
      (settings.Raised? || cost.Raised? ==> r.Raised?)
      && (settings.Ok? && cost.Ok? ==>
            var d := wrapper(cost.value, settings.value, kwargs);
            (r.Ok? <==> HasTrajectory(d)) && (r.Ok? ==> r.value == d))
  {
    var settings := ansatz.draw(fixedIds, fixedSettings, seed);
    var cost := ansatz.costOf(inequality.game, postmap);
    if settings.Raised? || cost.Raised? then Raised
    else ReportMax(wrapper(cost.value, settings.value, kwargs))
  }

  /** `optimize_inequality(nodes, postmap, inequality, fixed_setting_ids,
      fixed_settings, **gradient_kwargs)`: the ansatz is built once from the
      nodes (an exception there leaves `optimize_inequality` itself), and the
      returned `opt_fn` ignores its argument. */
  function OptimizeInequality<N, P(!new)>(build: N -> Outcome<Ansatz>, nodes: N, postmap: IntMatrix,
                                    inequality: Inequality, fixedIds: seq<nat>, fixedSettings: seq<real>,
                                    wrapper: Wrapper, kwargs: Kwargs): (r: Outcome<(P, Seed) -> Outcome<OptDict>>)
    ensures r.Ok? <==> build(nodes).Ok?
    ensures r.Ok? ==> forall p1: P, p2: P, seed :: r.value(p1, seed) == r.value(p2, seed)
    ensures r.Ok? ==> forall p: P, seed :: (r.value(p, seed)
      == OptFn(build(nodes).value, postmap, inequality, fixedIds, fixedSettings, wrapper, kwargs, seed))
  {
    var ansatz := build(nodes);
    if ansatz.Raised? then Raised
    else Ok((p: P, seed: Seed) => OptFn(ansatz.value, postmap, inequality, fixedIds, fixedSettings, wrapper, kwargs, seed))
  }

  /** The settings the two-layer `opt_fn` starts from: drawn with no fixed
      values, or as scenario settings. */
  function TwoLayerSettings(ansatz: Ansatz, scenario: bool, seed: Seed): Outcome<Settings>
  {
    if scenario then ansatz.scenario(seed) else ansatz.draw([], [], seed)
  }

  /** The two-layer `opt_fn` of the broadcast and bisender scripts: settings
      drawn with no fixed values (or as scenario settings), and `opt_score`
      reported instead of the trajectory maximum. The draw and the cost
      builder run outside the wrapper's `try`. */
  function TwoLayerOptFn(ansatz: Ansatz, scenario: bool, postmap: IntMatrix, inequality: Inequality,
                         wrapper: Wrapper, kwargs: Kwargs, seed: Seed): (r: Outcome<OptDict>)
    ensures var settings := TwoLayerSettings(ansatz, scenario, seed);
      var cost := ansatz.costOf(inequality.game, postmap);
      (settings.Raised? || cost.Raised? ==> r.Raised?)
      && (settings.Ok? && cost.Ok? ==>
            var d := wrapper(cost.value, settings.value, kwargs);
            (r.Ok? <==> "opt_score" in d && d["opt_score"].Float?) && (r.Ok? ==> r.value == d))
  {
    var settings := TwoLayerSettings(ansatz, scenario, seed);
    var cost := ansatz.costOf(inequality.game, postmap);
    if settings.Raised? || cost.Raised? then Raised
    else ReportOptScore(wrapper(cost.value, settings.value, kwargs))
  }

  /** `optimize_inequality(prep_nodes, meas_nodes, postmap, inequality,
      **gradient_kwargs)`: a two-layer ansatz built once (an exception there
      leaves `optimize_inequality` itself); `opt_fn` ignores its argument. */
  function OptimizeTwoLayer<N, P(!new)>(build: (N, N) -> Outcome<Ansatz>, prepNodes: N, measNodes: N, scenario: bool,
                                  postmap: IntMatrix, inequality: Inequality,
                                  wrapper: Wrapper, kwargs: Kwargs): (r: Outcome<(P, Seed) -> Outcome<OptDict>>)
    ensures r.Ok? <==> build(prepNodes, measNodes).Ok?
    ensures r.Ok? ==> forall p1: P, p2: P, seed :: r.value(p1, seed) == r.value(p2, seed)
    ensures r.Ok? ==> forall p: P, seed :: (r.value(p, seed)
      == TwoLayerOptFn(build(prepNodes, measNodes).value, scenario, postmap, inequality, wrapper, kwargs, seed))
  {
    var ansatz := build(prepNodes, measNodes);
    if ansatz.Raised? then Raised
    else Ok((p: P, seed: Seed) => TwoLayerOptFn(ansatz.value, scenario, postmap, inequality, wrapper, kwargs, seed))
  }

  /** A library descent whose returned dicts always carry a trajectory. */
  ghost predicate KeepsTrajectory(descent: Descent)
  {
    forall c, s, kw :: descent(c, s, kw).Ok? ==> HasTrajectory(descent(c, s, kw).value)
  }

  /** With a descent whose dicts carry a trajectory, `opt_fn` raises exactly
      when the settings draw or the cost builder does, whichever wrapper the
      script uses; otherwise it returns the wrapper's dict, and a failed
      optimisation surfaces as the sentinel, whose best score is NaN. */
  lemma OptFnRaisesOnlyOutsideTry(descent: Descent, adamFlag: bool, ansatz: Ansatz, postmap: IntMatrix,
                                  inequality: Inequality, fixedIds: seq<nat>, fixedSettings: seq<real>,
                                  kwargs: Kwargs, seed: Seed)
    requires KeepsTrajectory(descent)
    ensures var wrapper := if adamFlag then AdamFlag(descent) else Plain(descent);
      var settings := ansatz.draw(fixedIds, fixedSettings, seed);
      var cost := ansatz.costOf(inequality.game, postmap);
      var r := OptFn(ansatz, postmap, inequality, fixedIds, fixedSettings, wrapper, kwargs, seed);
      && (r.Ok? <==> settings.Ok? && cost.Ok?)
      && (r.Ok? ==> r.value == wrapper(cost.value, settings.value, kwargs)
                    && (IsSentinel(r.value) ==> TrajectoryMax(r.value) == NaN))
  {
    SentinelShape();
    var settings := ansatz.draw(fixedIds, fixedSettings, seed);
    var cost := ansatz.costOf(inequality.game, postmap);
    if settings.Ok? && cost.Ok? {
      if adamFlag && "optimizer" !in kwargs {
        PlainWrapperResult(descent, cost.value, settings.value, kwargs["optimizer" := StrArg("adam")]);
      } else if !adamFlag {
        PlainWrapperResult(descent, cost.value, settings.value, kwargs);
      }
      var d := OptFn(ansatz, postmap, inequality, fixedIds, fixedSettings,
                     if adamFlag then AdamFlag(descent) else Plain(descent),
                     kwargs, seed);
      if d.Ok? && IsSentinel(d.value) {
        assert d.value == Sentinel;
      }
    }
  }

  /** With the in-repo Adam loop, `opt_fn` raises exactly when the settings
      draw or the cost builder does: past them, `scores` is non-empty on the
      success path and in the sentinel. */
  lemma LocalAdamOptFnRaisesOnlyOutsideTry(adam: real -> Step, clock: Clock, stamp: string, ansatz: Ansatz,
                                           postmap: IntMatrix, inequality: Inequality,
                                           fixedIds: seq<nat>, fixedSettings: seq<real>, kwargs: Kwargs, seed: Seed)
    ensures OptFn(ansatz, postmap, inequality, fixedIds, fixedSettings, LocalAdam(adam, clock, stamp), kwargs, seed).Ok?
        <==> ansatz.draw(fixedIds, fixedSettings, seed).Ok? && ansatz.costOf(inequality.game, postmap).Ok?
  {
    var settings := ansatz.draw(fixedIds, fixedSettings, seed);
    var cost := ansatz.costOf(inequality.game, postmap);
    if settings.Ok? && cost.Ok? {
      LocalAdamWrapperResult(adam, clock, stamp, cost.value, settings.value, kwargs);
    }
  }

  /** The two-layer `opt_fn` raises exactly when the settings draw or the cost
      builder does, provided the wrapper's dicts carry an `opt_score`, which
      both the sentinel and a successful result do. */
  lemma TwoLayerRaisesOnlyOutsideTry(descent: Descent, ansatz: Ansatz, scenario: bool, postmap: IntMatrix,
                                     inequality: Inequality, kwargs: Kwargs, seed: Seed)
    requires forall c, s, kw :: descent(c, s, kw).Ok? ==>
      "opt_score" in descent(c, s, kw).value && descent(c, s, kw).value["opt_score"].Float?
    ensures TwoLayerOptFn(ansatz, scenario, postmap, inequality, Plain(descent), kwargs, seed).Ok?
        <==> TwoLayerSettings(ansatz, scenario, seed).Ok? && ansatz.costOf(inequality.game, postmap).Ok?
  {
    SentinelShape();
  }
}
