# Nonclassicality in quantum communication networks: a Dafny model of the scripts' sequential logic

The repository searches for quantum violations of classical bounds on
communication networks. Its scripts build linear inequalities (a bound and a
game matrix) and postmaps, and run randomly started gradient-descent
optimisations of a quantum network ansatz. Each run goes through a fail-safe
wrapper that turns any exception into a fixed sentinel dict. The scripts then
keep the best of the gathered runs. A separate program certifies nonnegative
ranks by bisection.

This project models that logic. The quantum simulator, the optimiser, the NMF
solver and the process pool are foreign code, so they enter as parameters.

- `scores.dfy` (`Scores`): Python floats (NaN or a finite real), and the
  built-in `max` as a left-to-right scan that moves only on `>`.
- `matrices.dfy` (`Matrices`): integer matrices, column-stochastic and
  one-hot postmaps, `np.eye`, `np.kron`, `np.zeros`, binary digits, popcount,
  parity and logical-and assignments, and `np.append` of a zero column.
- `opt_dict.dfy` (`OptDicts`): the optimisation dict, the five-key sentinel,
  `max(scores)`, the reported violation, and the `postmap1`/`postmap2` tagging.
- `adam.dfy` (`AdamDescent`): the in-repo `adam_gradient_descent` loop as a
  method, proved equal to a recursive specification. Lemmas cover what it
  records.
- `harness.dfy` (`Harness`): the three wrapper variants and the
  `optimize_inequality` closure factories.
- `restart.dfy` (`Restart`): the best-of-K loop as a method, and its
  selection described without the loop.
- `rac.dfy`, `fingerprinting.dfy`: the in-place game generators `rac_game`,
  `bipartite_fp_inequality`, `npartite_fp_inequality` and `parity_postmap`, as
  methods over `array2`.
- `nonneg_rank.dfy` (`NonnegativeRank`): `certify_nonnegative_rank` as a
  `while` loop, with the NMF batches as an oracle.
- `postmaps.dfy`, `nine_outcome_games.dfy`, `broadcast_scripts.dfy`,
  `signaling_scripts.dfy`, `multiaccess_scripts.dfy`, `network_scripts.dfy`:
  the literal postmaps and inequality tables of the scripts, the shape checks
  between them, and the selection logic of the multiple-access scripts.

One behaviour may be unexpected: a NaN trajectory maximum in result 0 (the
sentinel of a failed run) is never replaced by the reducer, because no float
compares `>` NaN. The model follows the code here.

## Model

| member | source | states |
|---|---|---|
| Scores.NegReversesOrder | python/interference2_33_33_network_violations.py:47 | the score `-(cost(...))` is greater exactly when the cost is lower, NaN compares on neither side, and negating twice gives the cost back |
| Scores.SubKeepsOrder | python/src/optimization.py:60 | taking the integer bound off both scores keeps which is greater, and adding it back restores a finite score |
| Scores.PyArgMaxSpec | python/script/33-23-2_qubit_multiaccess_violations.py:257-262 | the scan of `max` ends on a position where a NaN in front is kept, nothing later compares greater, and everything earlier is NaN or strictly smaller |
| Scores.IsPyArgMaxUnique | python/script/33-23-2_qubit_multiaccess_violations.py:257-262 | that description picks out exactly one position |
| Scores.PyMaxAtArgMax | python/src/optimization.py:59 | `max` returns the element at the position the scan ends on |
| Scores.PyMaxNaN | python/3-22-33_broadcast_violations.py:536-541 | `max` is NaN exactly when the first element is NaN, and then the scan stays at position 0 |
| Scores.PyArgMaxNoNaN | python/bipartite_broadcast_quantum_violations_script.py:334-339 | without NaN, `max` picks the earliest greatest element |
| Scores.PyMaxIgnoresLaterNaN | python/src/optimization.py:59 | with a finite first score, `max` is finite and at least every finite score; later NaNs are skipped |
| Matrices.FromAssignment | python/mac_finger_printing.py:72-76 | the 0/1 matrix that sends column `j` to row `f[j]` has `r` rows and ` | f | ` columns |
| Matrices.AssignmentOneHot | python/src/optimization.py:33-35 | a total outcome assignment gives a deterministic, column-stochastic postmap |
| Matrices.AssignmentRows | python/script/interference_33_33_network_violations.py:155-157 | a row of an assignment matrix is all zero exactly when no column is sent to it |
| Matrices.OneHotIffStochastic | python/src/optimization.py:33-35 | a 0/1 matrix is deterministic exactly when it is column-stochastic |
| Matrices.IdentityOneHot | python/qubit_signaling_dimension_violations.py:58 | `np.eye(n)` is the assignment that keeps each column in its own row, hence column-stochastic |
| Matrices.Kron | python/3-22-33_broadcast_violations.py:523 | `np.kron(a, b)` has ` | a | * | b | ` rows |
| Matrices.KronShape | python/3-22-33_broadcast_violations.py:523 | the shape of `np.kron(a, b)` is the product of the shapes |
| Matrices.KronEntry | python/3-22-33_broadcast_violations.py:523 | entry `(i1*rb + i2, j1*cb + j2)` of `np.kron(a, b)` is `a[i1][j1] * b[i2][j2]` |
| Matrices.ColSumKron | python/3-22-33_broadcast_violations.py:523 | column sums multiply under the Kronecker product |
| Matrices.KronColumnStochastic | python/broadcast_9_33_network_violations.py:328 | the Kronecker product of column-stochastic postmaps is column-stochastic |
| Matrices.KronOneHot | python/broadcast_9_33_network_violations.py:328 | the Kronecker product of deterministic postmaps is deterministic |
| Matrices.KronIdentity | python/script/butterfly_44_22_network_violations.py:141 | `np.kron(np.eye(p), np.eye(q)) == np.eye(p * q)` |
| Matrices.Bits | python/random_access_coding.py:61 | for `x < 2^w`, the `w` digits of `np.binary_repr(x, width=w)`, each 0 or 1 |
| Matrices.BitsRoundTrip | python/random_access_coding.py:61 | reading the binary digits back gives `x` for every `x < 2^w` |
| Matrices.Popcount | python/mac_finger_printing.py:87 | the number of ones among `w` digits is at most `w` |
| Matrices.PopcountIsDigitSum | python/mac_finger_printing.py:87 | `sum(int(d) for d in binary_repr(i, width=n))` is the popcount of `i` |
| Matrices.ParityAssignment | python/prepare_and_measure_violations.py:59-64 | column `i` of `2^n` goes to row `popcount(i) mod 2`, always row 0 or 1 |
| Matrices.AndAssignment | python/bisender_mac_quantum_violations_script.py:59 | the logical-and assignment has `2^n` columns, each sent to row 0 or 1 |
| Matrices.AllOnes | python/script/33-23-2_qubit_multiaccess_violations.py:39-42 | only the last column has all `n` digits equal to one |
| Matrices.ConcatIndex | python/random_access_coding.py:58-66 | the running `col_id` of two nested loops reaches entry `j` of block `i` at `i * w + j` |
| OptDicts.SentinelShape | python/src/optimization.py:15-21 | the sentinel has exactly the five keys, no `datetime`, `step_times` or `step_size`, scores `[NaN]` and a NaN best score |
| OptDicts.Violation | python/src/optimization.py:59-60 | `max(scores) - bound` is NaN exactly when the first score is NaN, in particular for the sentinel |
| OptDicts.Tagged | python/min_butterfly_33_33_network_violations.py:263-264 | only the keys `postmap1` and `postmap2` are added, and every other key and the trajectory maximum are unchanged |
| AdamDescent.AdamGradientDescent | python/interference2_33_33_network_violations.py:11-89 | the loop returns exactly what the recursive specification `AdamSpec` gives, with the same early exits |
| AdamDescent.RunStaysRaised | python/interference2_33_33_network_violations.py:45-72 | once an iteration raises, the loop has raised for every later count |
| AdamDescent.SampledIndicesSpec | python/interference2_33_33_network_violations.py:45-49 | `i` is sampled exactly when `0 <= i < num_steps` and `i % sample_width == 0`, and the samples increase |
| AdamDescent.SampledCount | python/interference2_33_33_network_violations.py:45-49 | with a positive width `w`, `ceil(n / w)` of `n` iterations are sampled |
| AdamDescent.CeilStep | python/interference2_33_33_network_violations.py:46 | one more iteration adds one to `ceil(m / w)` exactly when it is sampled |
| AdamDescent.RunRecorded | python/interference2_33_33_network_violations.py:45-72 | after `k` iterations the history has `k + 1` entries, starts at the initial settings and ends at the current ones; scores, samples and step times have equal length and match the sampled iterations |
| AdamDescent.StepRecorded | python/interference2_33_33_network_violations.py:45-72 | one loop iteration keeps the record: the history grows by the step's settings, and a sampled iteration appends its score, index and step time |
| AdamDescent.AdamResult | python/interference2_33_33_network_violations.py:74-89 | a normal return has the eight keys and samples `SampledIndices + [num_steps]`; `scores`, `samples` and `step_times` have equal length; the history has `num_steps + 1` entries from `init_settings` to `opt_settings`; the last score is `opt_score = -cost(opt_settings)` |
| AdamDescent.AdamTrajectory | python/interference2_33_33_network_violations.py:46-72 | every sampled score but the last is `-cost` of the settings its iteration started from, with that iteration's step time; every later history entry is what the step returned |
| AdamDescent.AdamRaises | python/interference2_33_33_network_violations.py:25-33 | an interface other than "autograd" raises before any step, and so does `sample_width == 0` with steps to take |
| AdamDescent.ResultDict | python/interference2_33_33_network_violations.py:80-89 | the returned dict has exactly the eight result keys |
| Harness.PlainWrapperResult | python/3-22-33_broadcast_violations.py:12-31 | the wrapper never raises; a failed call gives the five-key sentinel with a NaN best score, and a normal one the call's own dict |
| Harness.AdamFlagIsPlainWithFlag | python/src/optimization.py:4-23 | the shared wrapper is the plain one called with `optimizer="adam"` added and every other keyword kept; a caller's own `optimizer` makes the call raise, which yields the sentinel |
| Harness.AdamCallDefaults | python/interference2_33_33_network_violations.py:11-20 | with no keywords the loop runs with 150 steps, step size 0.1, sample width 25 and the autograd interface |
| Harness.AdamCallKeywords | python/interference2_33_33_network_violations.py:11-20 | given keywords replace those defaults, a float sample width with an integral value counting as that integer, and `verbose` is accepted and ignored |
| Harness.AdamCallUnknownKeyword | python/interference2_33_33_network_violations.py:11-20 | a keyword outside the signature raises |
| Harness.LocalAdamWrapperResult | python/interference2_33_33_network_violations.py:91-111 | with the in-repo loop the wrapper's dict always has a non-empty `scores`: it is the eight-key result or the five-key sentinel |
| Harness.LocalAdamWrapperErrors | python/interference2_33_33_network_violations.py:97-109 | an unexpected keyword, an interface other than "autograd", or a zero sample width with steps to take ends in the sentinel |
| Harness.OptFn | python/src/optimization.py:51-62 | `opt_fn` draws settings for the fixed ids and values and builds the cost of the inequality under the postmap, raising when either raises (both run outside the wrapper's `try`); past them it returns the wrapper's dict unchanged exactly when it has a trajectory |
| Harness.OptimizeInequality | python/src/optimization.py:25-65 | the ansatz is built once, and a failed build raises from `optimize_inequality` itself; the returned `opt_fn` ignores its argument and runs `OptFn` |
| Harness.TwoLayerOptFn | python/bipartite_broadcast_quantum_violations_script.py:37-48 | the two-layer `opt_fn` draws settings with no fixed values (or scenario settings) and builds the cost, raising when either raises; past them it reports `opt_score` and returns the wrapper's dict unchanged |
| Harness.OptimizeTwoLayer | python/bipartite_broadcast_quantum_violations_script.py:33-51 | a two-layer ansatz built once, a failed build raising from `optimize_inequality` itself; `opt_fn` ignores its argument |
| Harness.OptFnRaisesOnlyOutsideTry | python/src/optimization.py:49-62 | with a descent whose dicts have a trajectory, `opt_fn` raises under either wrapper exactly when the settings draw or the cost builder raises, and otherwise returns the wrapper's dict; a failed descent surfaces as the sentinel, whose best score is NaN |
| Harness.LocalAdamOptFnRaisesOnlyOutsideTry | python/interference2_33_33_network_violations.py:117-128 | with the in-repo loop `opt_fn` raises exactly when the settings draw or the cost builder raises: past them `scores` is non-empty on both paths |
| Harness.TwoLayerRaisesOnlyOutsideTry | python/bipratite_broadacst_violation.py:37-48 | when the wrapper's dicts carry a float `opt_score`, as the sentinel does, the two-layer `opt_fn` raises exactly when the settings draw or the cost builder raises |
| Restart.Gather | python/qubit_interference_network_violations.py:159-160 | the gathered list has one dict per worker, that worker's `opt_fn` result, or the call raises when any worker raised |
| Restart.GatheredHaveTrajectories | python/src/optimization.py:51-62 | every dict that `opt_fn` hands to the gather has a non-empty `scores`, so the reducer's `max` is defined |
| Restart.Selected | python/script/4-22-44_broadcast_violations.py:608-613 | the index the loop ends on is a valid index of the gathered list |
| Restart.BestOfK | python/3-22-33_broadcast_violations.py:536-541 | `max_opt_dict` is the gathered dict at the position the scan ends on and `max_score` is its trajectory maximum, the `max` of all trajectory maxima |
| Restart.SelectedSpec | python/3-22-33_broadcast_violations.py:536-541 | the result is one of the gathered dicts: no later one scores strictly higher, every earlier one is NaN or strictly lower; without NaN it is the earliest with the greatest trajectory maximum |
| Restart.SingleWorker | python/broadcast_9_33_network_violations.py:339-344 | with `n_workers = 1` the loop body never runs and result 0 is returned |
| Restart.BestOfKUnboundName | python/butterfly_33_33_network_violations.py:390-395 | the update reads a list not bound in this file: the loop raises exactly when a later result beats result 0, and otherwise returns result 0 |
| Restart.TwoWorkers | python/mac_33_9_network_violations.py:507-512 | with two workers result 1 is chosen exactly when its trajectory maximum is strictly greater; ties and NaN keep result 0 |
| Restart.BestOfKTagged | python/min_butterfly_33_33_network_violations.py:256-264 | the selected dict gains exactly `postmap1` and `postmap2`, every other key unchanged, and `max_score` is its trajectory maximum, the `max` of all trajectory maxima |
| Restart.NaNFirstKept | python/3-22-33_broadcast_violations.py:536-541 | a NaN-scored result 0, such as the sentinel, is never replaced |
| RandomAccessCoding.RacGame | python/random_access_coding.py:53-77 | the nested loops fill a fresh 2 x (2^n * n) array with exactly the matrix `RacMatrix(n)`, and the bound is `RacBound(n)` |
| RandomAccessCoding.RacColumn | python/random_access_coding.py:58-66 | column `x * n + y` holds a single 1, in the row equal to bit `y` of the MSB-first binary form of `x` |
| RandomAccessCoding.RacOneHot | python/random_access_coding.py:61-64 | every column of the game has exactly one 1 |
| RandomAccessCoding.EntrySumOfStochastic | python/random_access_coding.py:59-66 | a matrix whose first `c` columns each sum to one has entry sum `c` |
| RandomAccessCoding.RacEntrySum | python/random_access_coding.py:59-66 | the entries of the game sum to `2^n * n` |
| RandomAccessCoding.RacBoundBelowColumns | python/random_access_coding.py:68-76 | the bound is below `2^n * n`, and is `2^n * n - 2` outside `n = 2, 3, 4` |
| RandomAccessCoding.RacScenarioAgrees | python/script/qubit_random_access_coding.py:45-48 | a prepare node with `2^n` inputs and a measure node with `n` give exactly the game's column count, and `np.eye(2)` has the game's two rows |
| Fingerprinting.BipartiteFpInequality | python/mac_finger_printing.py:51-64 | the nested loops fill a fresh 2 x X^2 array with `BipartiteMatrix(X)`, and the bound is `X(X - 2) + 2(X - 1)` |
| Fingerprinting.BipartiteColumn | python/mac_finger_printing.py:52-61 | column `x1*X + x2` holds `X - 2` in row 0 when `x1 == x2`, and 1 in row 1 otherwise; all other entries are 0 |
| Fingerprinting.BipartiteMatches | python/mac_finger_printing.py:54-61 | exactly `X` of the `X^2` columns are matches |
| Fingerprinting.MatchIdRepdigit | python/mac_finger_printing.py:70 | the id of `x` is `x` times the repunit `1 + X + ... + X^(n-1)` |
| Fingerprinting.RepUnitGeometric | python/mac_finger_printing.py:70 | `(X - 1) * repunit + 1 == X^n` |
| Fingerprinting.MatchIdBelow | python/mac_finger_printing.py:70 | the id of `(x, ..., x)` is below `X^n`, a column of the game |
| Fingerprinting.MatchIdIncreasing | python/mac_finger_printing.py:70 | with at least one sender, a larger `x` has a larger id |
| Fingerprinting.MatchIdsProperties | python/mac_finger_printing.py:70 | every id is below `X^n`, and for `n >= 1` the ids strictly increase, hence are distinct |
| Fingerprinting.NpartiteAssignment | python/mac_finger_printing.py:72-76 | one entry per column `0 .. X^n - 1`, each row 0 or 1 |
| Fingerprinting.NpartiteFpInequality | python/mac_finger_printing.py:66-82 | the loop fills a fresh 2 x X^n array with the assignment matrix, the `col_id += 1` changing nothing, and the bound is 0 |
| Fingerprinting.NpartiteColumns | python/mac_finger_printing.py:72-76 | every column has exactly one 1, in row 0 iff its index is a match id, and exactly `X` columns use row 0 |
| Fingerprinting.ParityPostmapAsWritten | python/mac_finger_printing.py:84-90 | as written the loop never assigns, so the result is the all-zero 2 x 2^n matrix |
| Fingerprinting.ParityAsWrittenNotStochastic | python/mac_finger_printing.py:84-90 | that matrix has a column summing to 0, so it is not a postmap |
| Fingerprinting.ParityPostmap | python/mac_finger_printing.py:84-90 | with the assignment made, the loop fills the parity assignment matrix |
| Fingerprinting.ParityPostmapStochastic | python/mac_finger_printing.py:86-88 | the corrected map sends column `i` to `sum of the digits of i mod 2`, with exactly one 1 per column |
| NonnegativeRank.ArgMin | python/nonnegative_rank_planar_symmetric.py:72 | `np.argmin` picks a smallest score, the first of them |
| NonnegativeRank.RealIdentity | python/nonnegative_rank_planar_symmetric.py:96 | `np.eye(n)` over the reals is `n x n` |
| NonnegativeRank.CertifyNonnegativeRank | python/nonnegative_rank_planar_symmetric.py:40-102 | the returned `k` lies in `[rank, min(M.shape)]`; it is a rank that succeeded or the smaller dimension; `k - 1` is below the numerical rank or failed; an empty batch raises; the initial `k = lb + floor((ub - lb) / 2)` lies in `[lb, ub]`, as the loop invariant requires; the loop keeps `lb <= k <= ub` and `k < ub` while `lb < ub`, and terminates because `ub - lb` decreases; on success `ub := k`, and `A`, `B`, `M_approx` and `score` all come from the one job `argmin(scores)` of the last success; on failure `lb := k + 1` and the record is untouched; on exit the record's `k` is the final `k` |
| NonnegativeRank.LowerMidpoint | python/nonnegative_rank_planar_symmetric.py:79 | after a success at `k`, `lb + floor((k - lb) / 2)` lies in `[lb, k]`, strictly below `k` while `lb < k` |
| NonnegativeRank.UpperMidpoint | python/nonnegative_rank_planar_symmetric.py:86-87 | after a failure at `k < ub`, `k + ceil((ub - k) / 2)` lies in `[k + 1, ub]`, strictly below `ub` while `k + 1 < ub` |
| NonnegativeRank.LeastSucceeding | python/nonnegative_rank_planar_symmetric.py:59-91 | when success is monotone in `k`, no rank between the numerical rank and the returned `k` succeeds, so `k` is the least succeeding rank |
| NonnegativeRank.NotBelow | python/nonnegative_rank_planar_symmetric.py:59-91 | under monotone success, a failure at `hi` means failure at every rank below it |
| NonnegativeRank.MatMul | python/nonnegative_rank_planar_symmetric.py:67 | `A @ B` of an `r x n` and an `n x c` matrix is `r x c` |
| NonnegativeRank.RowTimesIdentity | python/nonnegative_rank_planar_symmetric.py:94-96 | a row times the identity picks out one entry |
| NonnegativeRank.UnitRowTimes | python/nonnegative_rank_planar_symmetric.py:98-100 | a row of the identity times `B` picks out one entry of `B` |
| NonnegativeRank.FallbackExact | python/nonnegative_rank_planar_symmetric.py:92-100 | `M @ I == M` and `I @ M == M` |
| NonnegativeRank.FinishFallback | python/nonnegative_rank_planar_symmetric.py:92-100 | when `k == min(M.shape)`, `M_approx = M` with score 0, with `A = M, B = I` when rows > cols and `A = I, B = M` otherwise, and `A @ B == M` exactly |
| Postmaps.Deterministic | python/src/optimization.py:33-35 | a literal equal to the matrix of an in-range assignment is a deterministic, column-stochastic postmap |
| Postmaps.MergeLastTwoOutcomes | python/3-22-33_broadcast_violations.py:58-60 | `postmap3` sends outcomes 0, 1, 2, 3 to rows 0, 1, 2, 2 and is column-stochastic |
| Postmaps.MergeFirstLastOutcomes | python/butterfly_33_33_network_violations.py:61-63 | `postmap3` sends outcomes 0, 1, 2, 3 to rows 0, 1, 2, 0 and is column-stochastic |
| Postmaps.MergeMiddleOutcomes | python/33-22-3_multiaccess_violations.py:320-323 | the three-output postmap sends outcomes to rows 0, 1, 1, 2 and is column-stochastic |
| Postmaps.MergeLastThreeOutcomes | python/33-22-3_multiaccess_violations.py:324-327 | the two-output postmap sends outcomes to rows 0, 1, 1, 1 and is column-stochastic |
| Postmaps.QubitIdentityOutcomes | python/3-22-33_broadcast_violations.py:61-63 | `postmap2` is `np.eye(2)` and column-stochastic |
| Postmaps.ProjectorPostmapOutcomes | python/bipartite_broadcast_quantum_violations_script.py:85 | the projector postmap sends its two outcomes to rows 0 and 1, leaves row 2 zero, and is column-stochastic |
| Postmaps.PovmPostmapOutcomes | python/bipartite_broadcast_quantum_violations_script.py:86 | the POVM postmap sends outcomes to rows 0, 1, 0, 2 and is column-stochastic |
| Postmaps.Postmap38Outcomes | python/min_butterfly_33_33_network_violations.py:145-149 | `postmap38` sends eight outcomes to rows 0, 0, 1, 1, 2, 2, 2, 2, one 1 per column |
| Postmaps.ParityLiterals | python/prepare_and_measure_violations.py:59-64 | `parity_postmap` and `parity_postmap3` put column `i` in row `popcount(i) mod 2`, and are column-stochastic |
| Postmaps.Parity4Table | python/script/33-23-2_qubit_multiaccess_violations.py:35-38 | the sixteen entries of the four-digit parity table are the popcount parities |
| Postmaps.ParityLiteral | python/script/33-23-2_qubit_multiaccess_violations.py:31-38 | a literal equal to the parity assignment matrix is column-stochastic |
| Postmaps.AndLiterals | python/script/33-23-2_qubit_multiaccess_violations.py:30 | `and_postmap` and `and_postmap3` send only the all-ones column to row 1, and are column-stochastic |
| Postmaps.Postmap9IsAssignment | python/mac_33_9_network_violations.py:141-151 | `postmap9` is the matrix of its outcome assignment |
| Postmaps.Postmap9Outcomes | python/mac_33_9_network_violations.py:141-151 | `postmap9` is 9 x 16: rows 0 to 6 take columns `2r` and `2r+1`, row 7 column 14, row 8 column 15, one 1 per column |
| Postmaps.Postmap9M0Outcomes | python/mac_33_9_network_violations.py:152-162 | `postmap9m0` sends columns `4r .. 4r+3` to row `r` for `r < 3` and columns 12 to 15 to row 4, with rows 3 and 5 to 8 zero |
| Postmaps.PairPostmapOutcomes | python/script/interference_33_33_network_violations.py:24-26 | this script's `postmap2` sends outcomes to rows 0, 0, 1, 1, leaves row 2 zero, and is column-stochastic |
| Postmaps.SkipMiddleOutcomes | python/script/interference_33_33_network_violations.py:30-32 | `postmap23b` sends its two outcomes to rows 0 and 2, leaves row 1 zero, and is column-stochastic |
| Postmaps.ClassicalPostmapOutcomes | python/script/interference_33_33_network_violations.py:155-157 | `classical_postmap` is column-stochastic with an all-zero row 0 |
| Postmaps.KronDeterministic | python/src/optimization.py:33-35 | the Kronecker product of two deterministic postmaps is deterministic and column-stochastic |
| Postmaps.SquareOfMergeLastTwo | python/3-22-33_broadcast_violations.py:523 | `np.kron(postmap3, postmap3)` is a 9 x 16 column-stochastic postmap |
| Postmaps.SquareOfMergeFirstLast | python/script/butterfly_33_33_network_violations.py:364 | `np.kron(postmap1, postmap2)` with both `postmap3` is 9 x 16 column-stochastic |
| Postmaps.SquareOfMergeMiddle | python/script/broadcast_9_33_network_violations.py:124 | `np.kron(postmap3b, postmap3b)` is 9 x 16 column-stochastic |
| Postmaps.MergeLastTwoTimesQubit | python/qubit_interference_network_violations.py:151 | `np.kron(postmap3, postmap2)` is a 6 x 8 column-stochastic postmap |
| Postmaps.SquareOfProjector | python/bipartite_broadcast_quantum_violations_script.py:90 | the Kronecker square of the projector postmap is 9 x 4 column-stochastic |
| Postmaps.SquareOfPovm | python/bipartite_broadcast_quantum_violations_script.py:91 | the Kronecker square of the POVM postmap is 9 x 16 column-stochastic |
| Postmaps.SquareOfQubitIdentity | python/script/butterfly_44_22_network_violations.py:141 | `np.kron(np.eye(2), np.eye(2))` is `np.eye(4)`, a column-stochastic postmap |
| NineOutcomeGames.BroadcastAgrees | python/broadcast_9_33_network_violations.py:89-259 | both tables and the eight names are indexed together, every game and facet matrix is 9 x 9, and the 9 x 16 postmap is column-stochastic |
| NineOutcomeGames.ButterflyAgrees | python/butterfly_33_33_network_violations.py:93-263 | the same for the butterfly tables and its `postmap3` |
| NineOutcomeGames.InterferenceAgrees | python/interference2_33_33_network_violations.py:232-402 | the same for the interference tables and its `postmap3` |
| NineOutcomeGames.CommunicationValue | python/broadcast_9_33_network_violations.py:167 | the last game of each table is `np.eye(9)`, a column-stochastic map |
| BroadcastScripts.Lift | python/bipartite_broadcast_quantum_violations_script.py:318 | the lift keeps the bound and appends one zero column to every row, leaving the original columns as they were; `np.append` raises unless there are nine rows |
| BroadcastScripts.BipartiteBroadcastAgrees | python/bipartite_broadcast_quantum_violations_script.py:85-91 | a lifted 9 x c inequality is 9 x (c + 1), matches the nine rows of the 9 x 16 POVM postmap, and both Kronecker postmaps are column-stochastic |
| BroadcastScripts.SingleRunAgrees | python/bipratite_broadacst_violation.py:103-122 | the witness is 16 x 4, and its 16 rows match the column-stochastic `np.eye(16)` |
| SignalingScripts.QubitSignalingTables | python/qubit_signaling_dimension_violations.py:144-182 | the eight inequalities have four rows, matching `np.eye(4)`, and for every `i` the arb ids, ry ids and fixed values all have one entry per input |
| SignalingScripts.BaconTonerTables | python/bacon_toner_violations.py:145-165 | inequality `i` is 4 x `num_in_list[i]^2`, matching `np.eye(4)` |
| SignalingScripts.PrepareAndMeasureTables | python/prepare_and_measure_violations.py:232-270 | inequality `i` is 2 x `num_in_list[i][0] * num_in_list[i][1]`, and both parity postmaps are column-stochastic |
| MultiaccessScripts.ISqrt | python/33-22-3_multiaccess_violations.py:316 | `int(np.sqrt(c))` is the `m` with `m^2 <= c < (m + 1)^2` |
| MultiaccessScripts.NumInOfSquare | python/33-22-3_multiaccess_violations.py:316 | a column count `m^2` gives `num_in = m` |
| MultiaccessScripts.SelectPostmapSpec | python/33-22-3_multiaccess_violations.py:318-327 | for two to four outputs the selected postmap is column-stochastic over four outcomes with `num_out` rows; any other count keeps the previous postmap, or raises `NameError` when there is none |
| MultiaccessScripts.PostmapForTagSpec | python/bisender_mac_quantum_violations_script.py:91 | tag "xor_" selects the parity map and any other tag the and map; both are column-stochastic |
| MultiaccessScripts.Decimal | python/bisender_mac_quantum_violations_script.py:87 | `str(n)` is a non-empty string of decimal digits |
| MultiaccessScripts.DecimalRoundTrip | python/bisender_mac_quantum_violations_script.py:87 | reading `str(n)` back gives `n` |
| MultiaccessScripts.TagThirdChar | python/bisender_mac_quantum_violations_script.py:87 | the third character of a tag is `f` exactly for inequality 0 |
| MultiaccessScripts.InequalityTagInjective | python/bisender_mac_quantum_violations_script.py:87 | different inequalities get different tags |
| NetworkScripts.QubitInterferenceAgrees | python/qubit_interference_network_violations.py:111-120 | the inequality is 6 x 9, and its six rows match the column-stochastic 6 x 8 postmap `np.kron(postmap3, postmap2)` |
| NetworkScripts.DoubleRacOneHot | python/script/butterfly_44_22_network_violations.py:51-56 | every column of the double random-access-coding game has exactly one 1 |
| NetworkScripts.Butterfly44Agrees | python/script/butterfly_44_22_network_violations.py:50-65 | game and facet are 4 x 16, matching `np.kron(np.eye(2), np.eye(2)) == np.eye(4)` |

Many scripts repeat the same code. The table cites one copy of each; the member also models these copies:

- `AdamDescent.AdamGradientDescent`: `python/min_butterfly_33_33_network_violations.py:11-89`
- `AdamDescent.AdamResult`: `python/min_butterfly_33_33_network_violations.py:74-89`
- `Harness.PlainWrapperResult`: `python/bacon_toner_violations.py:12-31`, `python/bipartite_broadcast_quantum_violations_script.py:12-31`, `python/bipratite_broadacst_violation.py:12-31`, `python/bisender_mac_quantum_violations_script.py:10-29`, `python/broadcast_9_33_network_violations.py:12-31`, `python/butterfly_33_33_network_violations.py:12-31`, `python/mac_finger_printing.py:10-29`, `python/prepare_and_measure_violations.py:12-31`, `python/qubit_interference_network_violations.py:12-31`, `python/qubit_signaling_dimension_violations.py:12-31`, `python/random_access_coding.py:12-31`
- `Harness.AdamFlagIsPlainWithFlag`: `python/33-22-3_multiaccess_violations.py:11-30`, `python/mac_33_9_network_violations.py:94-114`
- `Harness.LocalAdamWrapperResult`: `python/min_butterfly_33_33_network_violations.py:92-112`
- `Harness.LocalAdamWrapperErrors`: `python/min_butterfly_33_33_network_violations.py:98-110`
- `Harness.OptimizeInequality`: `python/3-22-33_broadcast_violations.py:33-51`, `python/33-22-3_multiaccess_violations.py:34-52`, `python/bacon_toner_violations.py:33-50`, `python/broadcast_9_33_network_violations.py:33-51`, `python/butterfly_33_33_network_violations.py:33-51`, `python/interference2_33_33_network_violations.py:113-131`, `python/mac_33_9_network_violations.py:116-134`, `python/mac_finger_printing.py:31-49`, `python/min_butterfly_33_33_network_violations.py:114-132`, `python/prepare_and_measure_violations.py:33-51`, `python/qubit_interference_network_violations.py:33-51`, `python/qubit_signaling_dimension_violations.py:33-51`, `python/random_access_coding.py:33-51`
- `Harness.OptimizeTwoLayer`: `python/bipratite_broadacst_violation.py:33-51`, `python/bisender_mac_quantum_violations_script.py:31-49`
- `Restart.BestOfK`: `python/33-22-3_multiaccess_violations.py:739-744`, `python/33-22-3_multiaccess_violations.py:851-856`, `python/bacon_toner_violations.py:248-253`, `python/bacon_toner_violations.py:293-298`, `python/bacon_toner_violations.py:336-341`, `python/bipartite_broadcast_quantum_violations_script.py:334-339`, `python/bisender_mac_quantum_violations_script.py:114-119`, `python/bisender_mac_quantum_violations_script.py:149-154`, `python/broadcast_9_33_network_violations.py:339-344`, `python/broadcast_9_33_network_violations.py:380-385`, `python/butterfly_33_33_network_violations.py:433-438`, `python/interference2_33_33_network_violations.py:444-449`, `python/interference2_33_33_network_violations.py:486-491`, `python/interference2_33_33_network_violations.py:529-534`, `python/interference2_33_33_network_violations.py:572-577`, `python/interference2_33_33_network_violations.py:615-620`, `python/interference2_33_33_network_violations.py:658-663`, `python/mac_33_9_network_violations.py:507-512`, `python/mac_33_9_network_violations.py:543-548`, `python/mac_finger_printing.py:190-195`, `python/mac_finger_printing.py:226-231`, `python/prepare_and_measure_violations.py:344-349`, `python/prepare_and_measure_violations.py:387-392`, `python/prepare_and_measure_violations.py:427-432`, `python/qubit_interference_network_violations.py:162-167`, `python/qubit_signaling_dimension_violations.py:262-267`, `python/qubit_signaling_dimension_violations.py:302-307`, `python/qubit_signaling_dimension_violations.py:342-347`, `python/random_access_coding.py:133-138`, `python/script/33-23-2_qubit_multiaccess_violations.py:257-262`, `python/script/33-23-2_qubit_multiaccess_violations.py:372-377`, `python/script/33-23-2_qubit_multiaccess_violations.py:411-416`, `python/script/4-22-44_broadcast_violations.py:608-613`, `python/script/bacon_toner_violations.py:218-223`, `python/script/bacon_toner_violations.py:263-268`, `python/script/bacon_toner_violations.py:306-311`, `python/script/bipartite_broadcast_quantum_violations_script.py:275-280`, `python/script/broadcast_9_33_network_violations.py:135-140`, `python/script/broadcast_9_33_network_violations.py:171-176`, `python/script/butterfly_44_22_network_violations.py:152-157`, `python/script/interference_33_33_network_violations.py:173-178`, `python/script/interference_33_33_network_violations.py:209-214`, `python/script/mac_33_9_network_violations.py:208-213`, `python/script/mac_33_9_network_violations.py:244-249`, `python/script/qubit_interference_network_violations.py:121-126`, `python/script/qubit_random_access_coding.py:71-76`, `python/script/qubit_signaling_dimension_violations.py:343-348`
- `Restart.SelectedSpec`: `python/33-22-3_multiaccess_violations.py:739-744`, `python/33-22-3_multiaccess_violations.py:851-856`, `python/bacon_toner_violations.py:248-253`, `python/bacon_toner_violations.py:293-298`, `python/bacon_toner_violations.py:336-341`, `python/bipartite_broadcast_quantum_violations_script.py:334-339`, `python/bisender_mac_quantum_violations_script.py:114-119`, `python/bisender_mac_quantum_violations_script.py:149-154`, `python/prepare_and_measure_violations.py:344-349`, `python/prepare_and_measure_violations.py:387-392`, `python/prepare_and_measure_violations.py:427-432`, `python/qubit_signaling_dimension_violations.py:262-267`, `python/qubit_signaling_dimension_violations.py:302-307`, `python/qubit_signaling_dimension_violations.py:342-347`, `python/script/33-23-2_qubit_multiaccess_violations.py:257-262`, `python/script/33-23-2_qubit_multiaccess_violations.py:372-377`, `python/script/33-23-2_qubit_multiaccess_violations.py:411-416`, `python/script/4-22-44_broadcast_violations.py:608-613`, `python/script/bacon_toner_violations.py:218-223`, `python/script/bacon_toner_violations.py:263-268`, `python/script/bacon_toner_violations.py:306-311`, `python/script/bipartite_broadcast_quantum_violations_script.py:275-280`, `python/script/qubit_random_access_coding.py:71-76`, `python/script/qubit_signaling_dimension_violations.py:343-348`
- `Restart.SingleWorker`: `python/broadcast_9_33_network_violations.py:380-385`, `python/butterfly_33_33_network_violations.py:433-438`, `python/interference2_33_33_network_violations.py:444-449`, `python/interference2_33_33_network_violations.py:486-491`, `python/interference2_33_33_network_violations.py:529-534`, `python/interference2_33_33_network_violations.py:572-577`, `python/interference2_33_33_network_violations.py:615-620`, `python/interference2_33_33_network_violations.py:658-663`, `python/mac_finger_printing.py:190-195`, `python/mac_finger_printing.py:226-231`, `python/qubit_interference_network_violations.py:162-167`, `python/random_access_coding.py:133-138`, `python/script/butterfly_44_22_network_violations.py:152-157`, `python/script/qubit_interference_network_violations.py:121-126`
- `Restart.TwoWorkers`: `python/mac_33_9_network_violations.py:543-548`, `python/min_butterfly_33_33_network_violations.py:256-261`, `python/min_butterfly_33_33_network_violations.py:298-303`, `python/min_butterfly_33_33_network_violations.py:342-347`, `python/min_butterfly_33_33_network_violations.py:384-389`, `python/script/broadcast_9_33_network_violations.py:135-140`, `python/script/broadcast_9_33_network_violations.py:171-176`, `python/script/butterfly_33_33_network_violations.py:377-382`, `python/script/butterfly_33_33_network_violations.py:420-425`, `python/script/interference2_33_33_network_violations.py:268-273`, `python/script/interference2_33_33_network_violations.py:310-315`, `python/script/interference_33_33_network_violations.py:173-178`, `python/script/interference_33_33_network_violations.py:209-214`, `python/script/mac_33_9_network_violations.py:208-213`, `python/script/mac_33_9_network_violations.py:244-249`, `python/script/min_butterfly_33_33_network_violations.py:153-158`, `python/script/min_butterfly_33_33_network_violations.py:195-200`, `python/script/min_butterfly_33_33_network_violations.py:239-244`, `python/script/min_butterfly_33_33_network_violations.py:281-286`, `python/script/min_butterfly_33_33_network_violations.py:323-328`, `python/script/min_butterfly_33_33_network_violations.py:365-370`
- `Restart.BestOfKTagged`: `python/min_butterfly_33_33_network_violations.py:298-306`, `python/min_butterfly_33_33_network_violations.py:342-350`, `python/min_butterfly_33_33_network_violations.py:384-392`, `python/script/butterfly_33_33_network_violations.py:377-385`, `python/script/butterfly_33_33_network_violations.py:420-428`, `python/script/interference2_33_33_network_violations.py:268-276`, `python/script/interference2_33_33_network_violations.py:310-318`, `python/script/min_butterfly_33_33_network_violations.py:153-161`, `python/script/min_butterfly_33_33_network_violations.py:195-203`, `python/script/min_butterfly_33_33_network_violations.py:239-247`, `python/script/min_butterfly_33_33_network_violations.py:281-289`, `python/script/min_butterfly_33_33_network_violations.py:323-331`, `python/script/min_butterfly_33_33_network_violations.py:365-373`
- `Restart.NaNFirstKept`: `python/bacon_toner_violations.py:248-253`, `python/script/4-22-44_broadcast_violations.py:608-613`, `python/script/interference_33_33_network_violations.py:173-178`, `python/script/broadcast_9_33_network_violations.py:135-140`, `python/script/bacon_toner_violations.py:218-223`, `python/script/qubit_random_access_coding.py:71-76`
- `RandomAccessCoding.RacScenarioAgrees`: `python/random_access_coding.py:87-102`
- `Postmaps.MergeLastTwoOutcomes`: `python/broadcast_9_33_network_violations.py:58-60`, `python/interference2_33_33_network_violations.py:138-140`, `python/qubit_interference_network_violations.py:58-60`, `python/script/4-22-44_broadcast_violations.py:25-27`, `python/script/interference2_33_33_network_violations.py:17-19`, `python/script/interference_33_33_network_violations.py:21-23` (`postmap3b`), `python/script/broadcast_9_33_network_violations.py:25-27`, `python/script/butterfly_33_33_network_violations.py:34-36` (`postmap3c`), `python/script/qubit_interference_network_violations.py:17-19`
- `Postmaps.MergeFirstLastOutcomes`: `python/min_butterfly_33_33_network_violations.py:142-144`, `python/script/butterfly_33_33_network_violations.py:28-30`, `python/script/interference2_33_33_network_violations.py:20-22` (`postmap3a`), `python/script/interference_33_33_network_violations.py:18-20`, `python/script/min_butterfly_33_33_network_violations.py:29-31`
- `Postmaps.MergeMiddleOutcomes`: `python/script/butterfly_33_33_network_violations.py:31-33` (`postmap3b`), `python/script/interference2_33_33_network_violations.py:23-25` (`postmap3b`), `python/script/broadcast_9_33_network_violations.py:28-30` (`postmap3b`)
- `Postmaps.QubitIdentityOutcomes`: `python/qubit_interference_network_violations.py:61-63`, `python/script/4-22-44_broadcast_violations.py:28-30`, `python/script/qubit_interference_network_violations.py:20-22`
- `Postmaps.ProjectorPostmapOutcomes`: `python/script/bipartite_broadcast_quantum_violations_script.py:18`, `python/script/interference_33_33_network_violations.py:27-29` (`postmap23a`)
- `Postmaps.PovmPostmapOutcomes`: `python/script/bipartite_broadcast_quantum_violations_script.py:19`
- `Postmaps.Postmap38Outcomes`: `python/script/butterfly_33_33_network_violations.py:37-41`, `python/script/min_butterfly_33_33_network_violations.py:32-36`
- `Postmaps.ParityLiterals`: `python/script/33-23-2_qubit_multiaccess_violations.py:29-38`, `python/bisender_mac_quantum_violations_script.py:58`
- `Postmaps.AndLiterals`: `python/bisender_mac_quantum_violations_script.py:59`
- `Postmaps.Postmap9Outcomes`: `python/script/mac_33_9_network_violations.py:17-27`
- `Postmaps.Postmap9M0Outcomes`: `python/script/mac_33_9_network_violations.py:28-38`
- `Postmaps.SquareOfMergeLastTwo`: `python/script/interference_33_33_network_violations.py:161`
- `Postmaps.SquareOfMergeFirstLast`: `python/script/min_butterfly_33_33_network_violations.py:142`
- `Postmaps.SquareOfMergeMiddle`: `python/script/interference2_33_33_network_violations.py:257`
- `Postmaps.MergeLastTwoTimesQubit`: `python/script/qubit_interference_network_violations.py:110`
- `BroadcastScripts.Lift`: `python/script/bipartite_broadcast_quantum_violations_script.py:257`
- `SignalingScripts.QubitSignalingTables`: `python/script/qubit_signaling_dimension_violations.py:112-143`
- `SignalingScripts.BaconTonerTables`: `python/script/bacon_toner_violations.py:115-135`
- `MultiaccessScripts.PostmapForTagSpec`: `python/script/33-23-2_qubit_multiaccess_violations.py:228-229`
- `NetworkScripts.QubitInterferenceAgrees`: `python/script/qubit_interference_network_violations.py:70-80`

## Left out

- The quantum network library is foreign code: ansatz construction, random settings, `linear_probs_cost_fn`, `qnetvo.gradient_descent` and the PennyLane optimiser. They enter as functions: `Ansatz`, `Descent`, `Cost` and `Step`. The ansatz construction, the settings draws and the cost builder may raise (`Outcome` results), and since they run outside the wrapper's `try` their exceptions leave `opt_fn`; when each of them does raise is not modelled.
- Harness.OptFn: the draw of random settings is an abstract function of the fixed ids and values, so that fixed settings are honoured is assumed, not stated.
- The dask process pool (`Client`, `client.map`, `client.gather`, `client.restart`) is concurrency and teardown. `Gather` takes each worker's randomness as a given seed.
- Writing JSON files, `datetime.utcnow` timestamps, wall-clock step times and `print` output are left out. The clock is a parameter, and the timestamp is a given string.
- AdamDescent.AdamSpec: the TensorFlow branch imports a module that does not exist in the repository. It is modelled only as raising.
- Matrices.Bits: gives the `w` lowest digits of `x`. For `x >= 2^w`, numpy's `binary_repr` returns more than `w` digits; no caller passes such an `x`, since every call site iterates `x < 2^w`.
- Harness.AdamCall: a keyword of an unexpected type is modelled as raising (an int or bool counts as a number for `num_steps`, `step_size` and `sample_width`). For `num_steps` (a float fails at `range(num_steps)`), a non-string interface (the error message concatenation fails) and a `sample_width` of a non-numeric type this is what Python does. Two inputs differ: a float `sample_width` with a fractional part, with which Python samples the iterations that are exact multiples of it, and a non-numeric `step_size` with no steps to take, with which Python returns a dict; both are modelled as raising, so the wrapper yields the sentinel there. An int or bool `step_size` is read as the float it multiplies by (`True` as 1.0), so the returned `step_size` entry holds that float where Python keeps the int or bool object.
- Scores.Score has no infinities. Scores are finite reals or NaN, the only values the scripts produce.
- NonnegativeRank.CertifyNonnegativeRank: `matrix_rank`, the NMF solver and the floating-point L1 score are an oracle. `rank` is a parameter, and each job's factors, product and score are taken as given. A NaN score in `np.argmin` is not modelled.
- The planar-symmetric states and measurements, `multiple_access_channels.py` and its test are left out. They are floating-point and plotting code.
- `mac.rac_game`, `src.rac_game` and the `mac.*` / `src.*` bound generators are not part of this model. The scripts that call them use `RacMatrix` from `random_access_coding.py` in their place.
- MultiaccessScripts.ISqrt: `int(np.sqrt(c))` is an exact integer square root. Floating-point rounding for very large counts is not modelled.
- The entries of the 9 x 9, 4 x 4 and signaling tables are checked for shape only. Their values are not compared with a classical bound.
- In-place dict mutation and aliasing: `max_opt_dict` is a value, and tagging returns a new dict (`Tagged`).
- `__main__` plumbing outside the loop sites is left out. This includes the `inequality_ta` name error in `mac_finger_printing.py` and the script loops over `range(...)` of inequalities.

## Findings

| source | as written | input that shows it | evidently intended | confidence | as-written member | corrected member |
|---|---|---|---|---|---|---|
| python/mac_finger_printing.py:84-90 | `postmap[row_id, i]` reads the entry but never assigns it, so `parity_postmap(n)` returns the all-zero 2 x 2^n matrix, which then serves as the postmap at line 165 | `n = 1`: the result is `[[0, 0], [0, 0]]`, and column 0 sums to 0 | `postmap[row_id, i] = 1`: column `i` goes to row `popcount(i) mod 2`, a column-stochastic postmap | not executed | Fingerprinting.ParityPostmapAsWritten, Fingerprinting.ParityAsWrittenNotStochastic | Fingerprinting.ParityPostmap, Fingerprinting.ParityPostmapStochastic |
