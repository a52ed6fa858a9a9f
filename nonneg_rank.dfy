/** `certify_nonnegative_rank`: a bisection over the candidate nonnegative
    rank `k` of a matrix `M`, between its numerical rank and its smaller
    dimension. At each `k` a batch of randomly started nonnegative matrix
    factorisation jobs runs, and `k` succeeds when the best job reproduces
    `M` to within `1e-9`. The factorisations themselves (floating point,
    random restarts) are an oracle. */
module NonnegativeRank {
  import opened OptDicts

  /** A real matrix, row by row. */
  type RealMatrix = seq<seq<real>>

  /** `m` has shape `(r, c)`. */
  predicate IsRealMatrix(m: RealMatrix, r: nat, c: nat)
  {
    |m| == r && forall i :: 0 <= i < r ==> |m[i]| == c
  }

  /** An NMF job's result: the factors `A` and `B`, their product
      `M_approx = A @ B` and its score `sum(|M - M_approx|) / (2 * cols)`, all
      computed in floating point by the job. */
  datatype Job = Job(a: RealMatrix, b: RealMatrix, approx: RealMatrix, score: real)

  /** The jobs run at each candidate rank `k`. */
  type Oracle = nat -> seq<Job>

  /** `data_dict`. */
  datatype RankRecord = RankRecord(
    k: Option<int>,
    mApprox: Option<RealMatrix>,
    a: Option<RealMatrix>,
    b: Option<RealMatrix>,
    m: RealMatrix,
    score: Option<real>)

  /** `data_dict` before the loop. */
  function Initial(m: RealMatrix): RankRecord
  {
    RankRecord(None, None, None, None, m, None)
  }

  /** `np.isclose(score, 0, atol=1e-9)`. */
  predicate Close(score: real)
  {
    -0.000000001 <= score <= 0.000000001
  }

  /** `np.argmin(scores)`: the first position of the smallest score. */
  function ArgMin(scores: seq<real>): (i: nat)
    requires |scores| > 0
    ensures i < |scores|
    ensures forall j :: 0 <= j < |scores| ==> scores[i] <= scores[j]
    ensures forall j :: 0 <= j < i ==> scores[i] < scores[j]
  {
    if |scores| == 1 then 0
    else
      var i := ArgMin(scores[..|scores| - 1]);
      if scores[|scores| - 1] < scores[i] then |scores| - 1 else i
  }

  /** The scores of a batch of jobs. */
  function Scores(jobs: seq<Job>): (s: seq<real>)
    ensures |s| == |jobs| && forall j :: 0 <= j < |jobs| ==> s[j] == jobs[j].score
  {
    seq(|jobs|, j requires 0 <= j < |jobs| => jobs[j].score)
  }

  /** The job the loop keeps from a batch: the first with the smallest score. */
  function Best(jobs: seq<Job>): Job
    requires |jobs| > 0
  {
    jobs[ArgMin(Scores(jobs))]
  }

  /** Rank `k` succeeds: its batch is non-empty and its best score is within
      `1e-9` of zero. */
  predicate Succeeds(oracle: Oracle, k: nat)
  {
    |oracle(k)| > 0 && Close(Best(oracle(k)).score)
  }

  /** The record after a success at rank `k`: `M_approx`, `A`, `B` and
      `score` all come from the best job of that batch. */
  function RecordBest(rec: RankRecord, jobs: seq<Job>): RankRecord
    requires |jobs| > 0
  {
    var best := Best(jobs);
    rec.(mApprox := Some(best.approx), a := Some(best.a), b := Some(best.b), score := Some(best.score))
  }

  /** The smaller of the two dimensions. */
  function Min(a: nat, b: nat): nat
  {
    if a < b then a else b
  }

  /** `np.eye(n)` over the reals. */
  function RealIdentity(n: nat): (e: RealMatrix)
    ensures IsRealMatrix(e, n, n)
  {
    seq(n, i => seq(n, j => if i == j then 1.0 else 0.0))
  }

  /** The record after the loop: the final `k`, and the exact factorisation
      by an identity when `k` reached the smaller dimension. */
  function Finish(rec: RankRecord, m: RealMatrix, rows: nat, cols: nat, k: nat): RankRecord
  {
    var r := rec.(k := Some(k));
    if k != Min(rows, cols) then r
    else if rows > cols then
      r.(mApprox := Some(m), score := Some(0.0), b := Some(RealIdentity(k)), a := Some(m))
    else
      r.(mApprox := Some(m), score := Some(0.0), b := Some(m), a := Some(RealIdentity(k)))
  }

  /** The bisection. `rank` is `np.linalg.matrix_rank(M)`, at most the smaller
      dimension; an empty batch makes `np.argmin` raise. On return `k` is a
      rank that succeeded, or the smaller dimension, and `k - 1` is the
      numerical rank minus one or a rank that failed; the record holds the best
      job of the last success. */
  method CertifyNonnegativeRank(m: RealMatrix, rows: nat, cols: nat, rank: nat, oracle: Oracle)
    returns (r: Outcome<RankRecord>)
    requires IsRealMatrix(m, rows, cols) && rank <= Min(rows, cols)
    ensures r.Ok? ==> r.value.k.Some?
    ensures r.Ok? && r.value.k.Some? ==>
      var k := r.value.k.value;
      && rank <= k <= Min(rows, cols)
      && (k == Min(rows, cols) || Succeeds(oracle, k))
      && (k == rank || !Succeeds(oracle, k - 1))
      && (k < Min(rows, cols) ==> r.value == Finish(RecordBest(Initial(m), oracle(k)), m, rows, cols, k))
      && (k == Min(rows, cols) ==> r.value == Finish(Initial(m), m, rows, cols, k))
  {
    var minDim := Min(rows, cols);
    var lb := rank;
    var ub := minDim;
    var k := LowerMidpoint(lb, ub);
    var rec := Initial(m);
    while lb < ub
      invariant rank <= lb <= k <= ub <= minDim
      invariant lb < ub ==> k < ub
      invariant ub == minDim || Succeeds(oracle, ub)
      invariant lb == rank || !Succeeds(oracle, lb - 1)
      invariant ub == minDim ==> rec == Initial(m)
      invariant ub < minDim ==> |oracle(ub)| > 0 && rec == RecordBest(Initial(m), oracle(ub))
      decreases ub - lb
    {
      var jobs := oracle(k);
      if |jobs| == 0 {
        return Raised;
      }
      var scores := Scores(jobs);
      var minId := ArgMin(scores);
      var score := scores[minId];
      if Close(score) {
        ub := k;
        k := LowerMidpoint(lb, k);
        rec := rec.(mApprox := Some(jobs[minId].approx));
        rec := rec.(a := Some(jobs[minId].a), b := Some(jobs[minId].b));
        rec := rec.(score := Some(score));
      } else {
        lb := k + 1;
        k := UpperMidpoint(k, ub);
      }
    }
    rec := rec.(k := Some(k));
    if k == minDim {
      rec := rec.(mApprox := Some(m), score := Some(0.0));
      if rows > cols {
        rec := rec.(b := Some(RealIdentity(k)), a := Some(m));
      } else {
        rec := rec.(b := Some(m), a := Some(RealIdentity(k)));
      }
    }
    r := Ok(rec);
  }

  /** `lb + floor((hi - lb) / 2)`: the next candidate after a success at
      `hi`, in `[lb, hi]` and below `hi` while the interval is not empty. */
  function LowerMidpoint(lb: nat, hi: nat): (k: nat)
    requires lb <= hi
    ensures lb <= k <= hi
    ensures lb < hi ==> k < hi
  {
    lb + (hi - lb) / 2
  }

  /** `k + ceil((ub - k) / 2)`: the next candidate after a failure at
      `k < ub`, in `[k + 1, ub]` and below `ub` while the interval is not
      empty. */
  function UpperMidpoint(k: nat, ub: nat): (next: nat)
    requires k < ub
    ensures k + 1 <= next <= ub
    ensures k + 1 < ub ==> next < ub
  {
    k + (ub - k + 1) / 2
  }

  /** If success is monotone in `k` (a factorisation at rank `k` extends to
      rank `k + 1`), the returned `k` is the least rank in
      `[rank, min(rows, cols)]` that succeeds, or the smaller dimension when
      none below it does. */
  lemma LeastSucceeding(oracle: Oracle, rank: nat, minDim: nat, k: nat)
    requires rank <= k <= minDim
    requires k == minDim || Succeeds(oracle, k)
    requires k == rank || !Succeeds(oracle, k - 1)
    requires forall j :: rank <= j < minDim && Succeeds(oracle, j) ==> Succeeds(oracle, j + 1)
    ensures forall j :: rank <= j < k ==> !Succeeds(oracle, j)
  {
    forall j | rank <= j < k ensures !Succeeds(oracle, j) {
      NotBelow(oracle, rank, minDim, j, k - 1);
    }
  }

  /** Under monotone success, a failure at `hi` is a failure at every `j` below. */
  lemma {:induction false} NotBelow(oracle: Oracle, rank: nat, minDim: nat, j: nat, hi: nat)
    requires rank <= j <= hi < minDim
    requires !Succeeds(oracle, hi)
    requires forall i :: rank <= i < minDim && Succeeds(oracle, i) ==> Succeeds(oracle, i + 1)
    ensures !Succeeds(oracle, j)
    decreases hi - j
  {
    if j < hi {
      NotBelow(oracle, rank, minDim, j + 1, hi);
    }
  }

  // ---------------------------------------------------------------------
  // The identity fallback is exact

  /** Entry `j` of `row @ B`, accumulated over the row. */
  function RowTimes(row: seq<real>, b: RealMatrix, j: nat): real
    requires |row| <= |b| && forall t :: 0 <= t < |row| ==> j < |b[t]|
  {
    if |row| == 0 then 0.0
    else RowTimes(row[..|row| - 1], b, j) + row[|row| - 1] * b[|row| - 1][j]
  }

  /** `A @ B` for `A` of shape `(r, n)` and `B` of shape `(n, c)`. */
  function MatMul(a: RealMatrix, b: RealMatrix, r: nat, n: nat, c: nat): (p: RealMatrix)
    requires IsRealMatrix(a, r, n) && IsRealMatrix(b, n, c)
    ensures IsRealMatrix(p, r, c)
  {
    seq(r, i requires 0 <= i < r => seq(c, j requires 0 <= j < c => RowTimes(a[i], b, j)))
  }

  /** A row times the identity is the row itself. */
  lemma {:induction false} RowTimesIdentity(row: seq<real>, n: nat, j: nat, len: nat)
    requires len <= |row| == n && j < n
    ensures RowTimes(row[..len], RealIdentity(n), j) == if j < len then row[j] else 0.0
  {
    if len > 0 {
      assert row[..len][..len - 1] == row[..len - 1];
      RowTimesIdentity(row, n, j, len - 1);
    }
  }

  /** Row `i` of the identity times `B` is row `i` of `B`. */
  lemma {:induction false} UnitRowTimes(n: nat, i: nat, b: RealMatrix, c: nat, j: nat, len: nat)
    requires IsRealMatrix(b, n, c) && i < n && j < c && len <= n
    ensures RowTimes(RealIdentity(n)[i][..len], b, j) == if i < len then b[i][j] else 0.0
  {
    if len > 0 {
      var e := RealIdentity(n)[i];
      assert e[..len][..len - 1] == e[..len - 1];
      UnitRowTimes(n, i, b, c, j, len - 1);
    }
  }

  /** The fallback factorisation reproduces `M` exactly: `M @ I == M` when
      `rows > cols` and `I @ M == M` otherwise. */
  lemma FallbackExact(m: RealMatrix, rows: nat, cols: nat)
    requires IsRealMatrix(m, rows, cols)
    ensures rows > cols ==> MatMul(m, RealIdentity(cols), rows, cols, cols) == m
    ensures rows <= cols ==> MatMul(RealIdentity(rows), m, rows, rows, cols) == m
  {
    if rows > cols {
      var p := MatMul(m, RealIdentity(cols), rows, cols, cols);
      forall i | 0 <= i < rows ensures p[i] == m[i] {
        forall j | 0 <= j < cols ensures p[i][j] == m[i][j] {
          RowTimesIdentity(m[i], cols, j, cols);
          assert m[i][..cols] == m[i];
        }
      }
    } else {
      var p := MatMul(RealIdentity(rows), m, rows, rows, cols);
      forall i | 0 <= i < rows ensures p[i] == m[i] {
        forall j | 0 <= j < cols ensures p[i][j] == m[i][j] {
          UnitRowTimes(rows, i, m, cols, j, rows);
          assert RealIdentity(rows)[i][..rows] == RealIdentity(rows)[i];
        }
      }
    }
  }

  /** When the bisection ends at the smaller dimension, the record holds an
      exact factorisation: `A @ B == M_approx == M` with score 0, `B` the
      identity when `rows > cols` and `A` the identity otherwise. */
  lemma FinishFallback(rec: RankRecord, m: RealMatrix, rows: nat, cols: nat)
    requires IsRealMatrix(m, rows, cols)
    ensures var k := Min(rows, cols);
      var f := Finish(rec, m, rows, cols, k);
      && f.k == Some(k) && f.mApprox == Some(m) && f.score == Some(0.0)
      && f.a.Some? && f.b.Some?
      && (rows > cols ==> f.a.value == m && f.b.value == RealIdentity(k)
                          && MatMul(f.a.value, f.b.value, rows, cols, cols) == m)
      && (rows <= cols ==> f.a.value == RealIdentity(k) && f.b.value == m
                           && MatMul(f.a.value, f.b.value, rows, rows, cols) == m)
  {
    FallbackExact(m, rows, cols);
  }
}
