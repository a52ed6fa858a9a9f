/** The optimisation dictionaries the scripts pass around: what a gradient
    descent returns, the sentinel that replaces it after an error, and the two
    keys the reducers add afterwards. */
module OptDicts {
  import opened Scores
  import opened Matrices

  /** The result of a Python call: a value, or an exception. */
  datatype Outcome<T> = Ok(value: T) | Raised

  /** A Python value that may be `None`. */
  datatype Option<T> = None | Some(value: T)

  /** Ansatz settings: one list of angles per network layer. */
  type Settings = seq<seq<real>>

  /** The values stored under the keys of an optimisation dictionary. */
  datatype Value =
    | Float(f: Score)                   // `opt_score`
    | Floats(fs: seq<Score>)            // `scores`
    | Ints(ns: seq<int>)                // `samples`
    | Setting(s: Settings)              // `opt_settings`
    | SettingsList(ss: seq<Settings>)   // `settings_history`
    | Reals(rs: seq<real>)              // `step_times`
    | Real(r: real)                     // `step_size`
    | Text(t: string)                   // `datetime`
    | Matrix(m: IntMatrix)              // `postmap1`, `postmap2`

  /** A Python dict from key to value. */
  type OptDict = map<string, Value>

  /** The keys of the dict that replaces a failed optimisation. */
  const SentinelKeys: set<string> :=
    {"opt_score", "opt_settings", "scores", "samples", "settings_history"}

  /** The keys of a dict that an optimisation run returns normally. */
  const ResultKeys: set<string> :=
    SentinelKeys + {"datetime", "step_times", "step_size"}

  /** The dict the wrappers return after catching an exception. */
  const Sentinel: OptDict := map[
    "opt_score" := Float(NaN),
    "opt_settings" := Setting([[], []]),
    "scores" := Floats([NaN]),
    "samples" := Ints([0]),
    "settings_history" := SettingsList([[[], []]])
  ]

  /** A description of the sentinel key by key, independent of its literal. */
  ghost predicate IsSentinel(d: OptDict)
  {
    && d.Keys == SentinelKeys
    && d["opt_score"] == Float(NaN)
    && d["opt_settings"] == Setting([[], []])
    && d["scores"] == Floats([NaN])
    && d["samples"] == Ints([0])
    && d["settings_history"] == SettingsList([[[], []]])
  }

  /** The dict has a non-empty `scores` list of floats, so `max(d["scores"])`
      is defined. */
  predicate HasTrajectory(d: OptDict)
  {
    "scores" in d && d["scores"].Floats? && |d["scores"].fs| > 0
  }

  /** `max(d["scores"])`: the best score along the sampled trajectory. */
  function TrajectoryMax(d: OptDict): Score
    requires HasTrajectory(d)
  {
    PyMax(d["scores"].fs)
  }

  /** The sentinel has exactly the five keys, none of `datetime`, `step_times` or
      `step_size`, a one-element NaN trajectory, and a NaN best score. */
  lemma SentinelShape()
    ensures IsSentinel(Sentinel)
    ensures "datetime" !in Sentinel && "step_times" !in Sentinel && "step_size" !in Sentinel
    ensures HasTrajectory(Sentinel) && TrajectoryMax(Sentinel) == NaN
  {
    assert Sentinel.Keys == SentinelKeys;
  }

  /** `violation = max(scores) - bound`: the best trajectory score minus the
      classical bound. It is NaN exactly when the first recorded score is NaN,
      and in particular for the sentinel. */
  function Violation(d: OptDict, bound: int): (v: Score)
    requires HasTrajectory(d)
    ensures v.NaN? <==> d["scores"].fs[0].NaN?
    ensures IsSentinel(d) ==> v.NaN?
  {
    PyMaxNaN(d["scores"].fs);
    Sub(TrajectoryMax(d), bound)
  }

  /** `d["postmap1"] = postmap1.tolist(); d["postmap2"] = postmap2.tolist()`:
      the two postmaps are recorded and nothing else changes. */
  function Tagged(d: OptDict, postmap1: IntMatrix, postmap2: IntMatrix): (t: OptDict)
    ensures t.Keys == d.Keys + {"postmap1", "postmap2"}
    ensures t["postmap1"] == Matrix(postmap1) && t["postmap2"] == Matrix(postmap2)
    ensures forall k :: k in d && k != "postmap1" && k != "postmap2" ==> t[k] == d[k]
    ensures HasTrajectory(d) ==> HasTrajectory(t) && TrajectoryMax(t) == TrajectoryMax(d)
  {
    d["postmap1" := Matrix(postmap1)]["postmap2" := Matrix(postmap2)]
  }
}
