/** The fingerprinting inequalities of the multiple-access-channel script and
    its parity postmap: senders each hold an input in `0 .. X-1`, and the
    receiver must say whether all inputs agree. */
module Fingerprinting {
  import opened Matrices

  // ---------------------------------------------------------------------
  // Two senders

  /** The diagonal flag of every column of the two-sender game, one block per
      `x1` and one entry per `x2`. */
  function DiagonalBlocks(X: nat): (blocks: seq<seq<nat>>)
    ensures |blocks| == X
    ensures forall x1 :: 0 <= x1 < X ==> |blocks[x1]| == X
    ensures forall x1, x2 :: 0 <= x1 < X && 0 <= x2 < X ==> blocks[x1][x2] == (if x1 == x2 then 1 else 0)
  {
    seq(X, x1 requires 0 <= x1 => seq(X, x2 requires 0 <= x2 => if x1 == x2 then 1 else 0))
  }

  /** The entry of the two-sender game in row `r` of a column with the given
      diagonal flag. */
  function BipartiteEntry(X: nat, r: nat, flag: nat): int
  {
    if flag == 1 then (if r == 0 then X - 2 else 0)
    else (if r == 1 then 1 else 0)
  }

  /** The two-sender game as a matrix. */
  function BipartiteMatrix(X: nat): (m: IntMatrix)
  {
    var flags := Concat(DiagonalBlocks(X));
    seq(2, r requires 0 <= r < 2 =>
      seq(|flags|, c requires 0 <= c < |flags| => BipartiteEntry(X, r, flags[c])))
  }

  /** The classical bound of the two-sender game. */
  function BipartiteBound(X: nat): int
  {
    X * (X - 2) + (X - 1) * 2
  }

  /** `bipartite_fp_inequality(X)`: two nested loops over the inputs with a
      running column index, writing into a zero array. */
  method BipartiteFpInequality(X: nat) returns (bound: int, fpGame: array2<int>)
    ensures fresh(fpGame)
    ensures fpGame.Length0 == 2 && fpGame.Length1 == X * X
    ensures ToMatrix(fpGame) == BipartiteMatrix(X)
    ensures bound == BipartiteBound(X)
  {
    var total := X * X;
    fpGame := new int[2, total]((i, j) => 0);
    ghost var blocks := DiagonalBlocks(X);
    ghost var flags := Concat(blocks);
    ConcatLength(blocks, X);
    assert |flags| == total;
    var colId := 0;
    for x1 := 0 to X
      invariant colId == x1 * X && colId <= total
      invariant forall r, c :: 0 <= r < 2 && 0 <= c < colId ==> fpGame[r, c] == BipartiteEntry(X, r, flags[c])
      invariant forall r, c :: 0 <= r < 2 && colId <= c < total ==> fpGame[r, c] == 0
    {
      for x2 := 0 to X
        invariant colId == x1 * X + x2 && colId <= total
        invariant forall r, c :: 0 <= r < 2 && 0 <= c < colId ==> fpGame[r, c] == BipartiteEntry(X, r, flags[c])
        invariant forall r, c :: 0 <= r < 2 && colId <= c < total ==> fpGame[r, c] == 0
      {
        ConcatIndex(blocks, X, x1, x2);
        if x1 == x2 {
          fpGame[0, colId] := X - 2;
        } else {
          fpGame[1, colId] := 1;
        }
        colId := colId + 1;
      }
      MulMono(x1, x1, X);
      MulMono(x1 + 1, X, X);
    }
    bound := BipartiteBound(X);
    ghost var m := BipartiteMatrix(X);
    forall i | 0 <= i < 2 ensures ToMatrix(fpGame)[i] == m[i] {
      assert |m[i]| == total;
    }
  }

  /** Column `x1 * X + x2` of the two-sender game holds `X - 2` in row 0 when
      the inputs agree and 1 in row 1 when they differ; the other entry is 0. */
  lemma BipartiteColumn(X: nat, x1: nat, x2: nat)
    requires x1 < X && x2 < X
    ensures IsMatrix(BipartiteMatrix(X), 2, X * X)
    ensures x1 * X + x2 < X * X
    ensures BipartiteMatrix(X)[0][x1 * X + x2] == (if x1 == x2 then X - 2 else 0)
    ensures BipartiteMatrix(X)[1][x1 * X + x2] == (if x1 == x2 then 0 else 1)
  {
    ConcatIndex(DiagonalBlocks(X), X, x1, x2);
  }

  /** Summing a concatenation block by block. */
  lemma {:induction false} SumAppend(a: seq<nat>, b: seq<nat>)
    ensures Sum(a + b) == Sum(a) + Sum(b)
    decreases |b|
  {
    if |b| > 0 {
      SumAppend(a, b[..|b| - 1]);
      assert (a + b)[..|a + b| - 1] == a + b[..|b| - 1];
    } else {
      assert a + b == a;
    }
  }

  /** A block with a single 1, at position `k`, sums to one. */
  lemma {:induction false} SumSingleOne(s: seq<nat>, k: nat)
    requires k < |s| && forall j :: 0 <= j < |s| ==> s[j] == (if j == k then 1 else 0)
    ensures Sum(s) == 1
    decreases |s|
  {
    var init := s[..|s| - 1];
    if k < |s| - 1 {
      SumSingleOne(init, k);
    } else {
      SumZero(init);
    }
  }

  /** An all-zero list sums to zero. */
  lemma {:induction false} SumZero(s: seq<nat>)
    requires forall j :: 0 <= j < |s| ==> s[j] == 0
    ensures Sum(s) == 0
  {
    if |s| > 0 {
      SumZero(s[..|s| - 1]);
    }
  }

  /** Each sender block holds exactly one agreeing column, so the game has
      exactly `X` columns scored in row 0. */
  lemma {:induction false} DiagonalCount(X: nat, k: nat)
    requires k <= X
    ensures Sum(Concat(DiagonalBlocks(X)[..k])) == k
  {
    if k > 0 {
      var blocks := DiagonalBlocks(X);
      DiagonalCount(X, k - 1);
      assert blocks[..k][..k - 1] == blocks[..k - 1];
      SumAppend(Concat(blocks[..k - 1]), blocks[k - 1]);
      SumSingleOne(blocks[k - 1], k - 1);
    }
  }

  /** The two-sender game has `X` agreeing columns among `X * X`. */
  lemma BipartiteMatches(X: nat)
    ensures |Concat(DiagonalBlocks(X))| == X * X
    ensures Sum(Concat(DiagonalBlocks(X))) == X
  {
    ConcatLength(DiagonalBlocks(X), X);
    DiagonalCount(X, X);
    assert DiagonalBlocks(X)[..X] == DiagonalBlocks(X);
  }

  // ---------------------------------------------------------------------
  // n senders

  /** `sum([x * X**(n - i) for i in range(1, n + 1)])`, peeling off the
      first term. */
  function MatchId(X: nat, n: nat, x: nat): nat
  {
    if n == 0 then 0 else x * Pow(X, n - 1) + MatchId(X, n - 1, x)
  }

  /** `match_ids`: the column of the all-equal input `(x, ..., x)` for every
      `x`. */
  function MatchIds(X: nat, n: nat): (ids: seq<nat>)
    ensures |ids| == X
    ensures forall x :: 0 <= x < X ==> ids[x] == MatchId(X, n, x)
  {
    seq(X, x requires 0 <= x => MatchId(X, n, x))
  }

  /** The row every column of the n-sender game goes to: row 0 for the
      all-equal inputs, row 1 otherwise. */
  function NpartiteAssignment(X: nat, n: nat): (f: seq<nat>)
    ensures |f| == Pow(X, n) && InRange(2, f)
  {
    seq(Pow(X, n), c => if c in MatchIds(X, n) then 0 else 1)
  }

  /** `npartite_fp_inequality(n, X)`: one loop over the columns. The
      increment of `col_id` at the end of the body is overwritten by the next
      iteration and changes nothing. */
  method NpartiteFpInequality(n: nat, X: nat) returns (bound: int, fpGame: array2<int>)
    ensures fresh(fpGame)
    ensures fpGame.Length0 == 2 && fpGame.Length1 == Pow(X, n)
    ensures ToMatrix(fpGame) == FromAssignment(2, NpartiteAssignment(X, n))
    ensures bound == 0
  {
    var total := Pow(X, n);
    fpGame := new int[2, total]((i, j) => 0);
    var matchIds := MatchIds(X, n);
    ghost var f := NpartiteAssignment(X, n);
    for c := 0 to total
      invariant forall r, j :: 0 <= r < 2 && 0 <= j < c ==> fpGame[r, j] == (if f[j] == r then 1 else 0)
      invariant forall r, j :: 0 <= r < 2 && c <= j < total ==> fpGame[r, j] == 0
    {
      var colId := c;
      if colId in matchIds {
        fpGame[0, colId] := 1;
      } else {
        fpGame[1, colId] := 1;
      }
      colId := colId + 1;
    }
    bound := 0;
    ghost var m := FromAssignment(2, f);
    forall i | 0 <= i < 2 ensures ToMatrix(fpGame)[i] == m[i] {
      assert |m[i]| == total;
    }
  }

  /** `1 + X + ... + X**(n-1)`. */
  function RepUnit(X: nat, n: nat): nat
  {
    if n == 0 then 0 else Pow(X, n - 1) + RepUnit(X, n - 1)
  }

  /** The id of `(x, ..., x)` is `x` times the base-`X` repunit of length `n`. */
  lemma {:induction false} MatchIdRepdigit(X: nat, n: nat, x: nat)
    ensures MatchId(X, n, x) == x * RepUnit(X, n)
  {
    if n > 0 {
      MatchIdRepdigit(X, n - 1, x);
      DistribLeft(x, Pow(X, n - 1), RepUnit(X, n - 1));
    }
  }

  /** One step of the geometric sum: from `q * r + 1 == p` follows
      `q * (p + r) + 1 == (q + 1) * p`. */
  lemma GeometricStep(q: int, p: int, r: int)
    requires q * r + 1 == p
    ensures q * (p + r) + 1 == (q + 1) * p
  {
    assert q * (p + r) == q * p + q * r;
    assert (q + 1) * p == q * p + p;
  }

  /** `(X - 1) * (1 + X + ... + X**(n-1)) == X**n - 1`. */
  lemma {:induction false} RepUnitGeometric(X: nat, n: nat)
    requires X >= 1
    ensures (X - 1) * RepUnit(X, n) + 1 == Pow(X, n)
  {
    if n > 0 {
      RepUnitGeometric(X, n - 1);
      GeometricStep(X - 1, Pow(X, n - 1), RepUnit(X, n - 1));
    }
  }

  /** The id of `(x, ..., x)` is a column of the game. */
  lemma MatchIdBelow(X: nat, n: nat, x: nat)
    requires x < X
    ensures MatchId(X, n, x) < Pow(X, n)
  {
    RepUnitGeometric(X, n);
    MatchIdRepdigit(X, n, x);
    MulMono(x, X - 1, RepUnit(X, n));
  }

  /** With at least one sender, a larger symbol has a larger id. */
  lemma MatchIdIncreasing(X: nat, n: nat, x: nat, y: nat)
    requires n >= 1 && x < y < X
    ensures MatchId(X, n, x) < MatchId(X, n, y)
  {
    var R := RepUnit(X, n);
    assert R >= 1 by {
      PowPositive(X, n - 1);
    }
    MatchIdRepdigit(X, n, x);
    MatchIdRepdigit(X, n, y);
    MulMono(x + 1, y, R);
  }

  /** The match ids are columns of the game, and with at least one sender
      they are strictly increasing, hence distinct. */
  lemma MatchIdsProperties(X: nat, n: nat)
    ensures forall x :: 0 <= x < X ==> MatchIds(X, n)[x] < Pow(X, n)
    ensures n >= 1 ==> forall x, y :: 0 <= x < y < X ==> MatchIds(X, n)[x] < MatchIds(X, n)[y]
  {
    forall x | 0 <= x < X ensures MatchIds(X, n)[x] < Pow(X, n) {
      MatchIdBelow(X, n, x);
    }
    if n >= 1 {
      forall x, y | 0 <= x < y < X ensures MatchIds(X, n)[x] < MatchIds(X, n)[y] {
        MatchIdIncreasing(X, n, x, y);
      }
    }
  }

  /** A positive base has positive powers. */
  lemma {:induction false} PowPositive(X: nat, k: nat)
    requires X >= 1
    ensures Pow(X, k) >= 1
  {
    if k > 0 {
      PowPositive(X, k - 1);
      MulMono(1, X, Pow(X, k - 1));
    }
  }

  /** The set of elements of a list. */
  function Elems(ids: seq<nat>): set<nat>
  {
    if |ids| == 0 then {} else Elems(ids[..|ids| - 1]) + {ids[|ids| - 1]}
  }

  /** `Elems` holds exactly the members of the list. */
  lemma {:induction false} ElemsMembership(ids: seq<nat>)
    ensures forall c :: c in Elems(ids) <==> c in ids
  {
    if |ids| > 0 {
      ElemsMembership(ids[..|ids| - 1]);
      assert ids == ids[..|ids| - 1] + [ids[|ids| - 1]];
    }
  }

  /** A value above every element is not an element. */
  lemma {:induction false} ElemsBelow(ids: seq<nat>, v: nat)
    requires forall a :: 0 <= a < |ids| ==> ids[a] < v
    ensures v !in Elems(ids)
  {
    if |ids| > 0 {
      ElemsBelow(ids[..|ids| - 1], v);
    }
  }

  /** A strictly increasing list has as many distinct elements as entries. */
  lemma {:induction false} IncreasingCard(ids: seq<nat>)
    requires forall a, b :: 0 <= a < b < |ids| ==> ids[a] < ids[b]
    ensures |Elems(ids)| == |ids|
  {
    if |ids| > 0 {
      var init := ids[..|ids| - 1];
      IncreasingCard(init);
      ElemsBelow(init, ids[|ids| - 1]);
    }
  }

  /** With at least one sender and `X` inputs each, every column of the
      n-sender game has a single 1, and exactly `X` columns (the all-equal
      inputs) put it in row 0. */
  lemma NpartiteColumns(X: nat, n: nat)
    requires n >= 1
    ensures OneHotColumns(FromAssignment(2, NpartiteAssignment(X, n)), 2, Pow(X, n))
    ensures forall c :: 0 <= c < Pow(X, n) ==>
      (NpartiteAssignment(X, n)[c] == 0 <==> c in MatchIds(X, n))
    ensures |set c | 0 <= c < Pow(X, n) && NpartiteAssignment(X, n)[c] == 0| == X
  {
    var f := NpartiteAssignment(X, n);
    var ids := MatchIds(X, n);
    AssignmentOneHot(2, f);
    MatchIdsProperties(X, n);
    IncreasingCard(ids);
    ElemsMembership(ids);
    assert (set c | 0 <= c < Pow(X, n) && f[c] == 0) == Elems(ids);
  }

  // ---------------------------------------------------------------------
  // The parity postmap

  /** `parity_postmap(n)` as written: the row of each column is computed, but
      the statement that should store it only reads the entry, so the zero
      array comes back unchanged. */
  method ParityPostmapAsWritten(n: nat) returns (postmap: array2<int>)
    ensures fresh(postmap)
    ensures ToMatrix(postmap) == Zeros(2, Pow2(n))
  {
    postmap := new int[2, Pow2(n)]((i, j) => 0);
    for i := 0 to Pow2(n)
      invariant forall r, c :: 0 <= r < 2 && 0 <= c < Pow2(n) ==> postmap[r, c] == 0
    {
      var rowId := Sum(Bits(i, n)) % 2;
      var _ := postmap[rowId, i];
    }
    ghost var z := Zeros(2, Pow2(n));
    forall r | 0 <= r < 2 ensures ToMatrix(postmap)[r] == z[r] {
      assert |z[r]| == Pow2(n);
    }
  }

  /** The all-zero postmap is not column-stochastic: column 0 sums to 0, so
      every outcome probability it produces is 0. */
  lemma ParityAsWrittenNotStochastic(n: nat)
    ensures IsMatrix(Zeros(2, Pow2(n)), 2, Pow2(n))
    ensures ColSum(Zeros(2, Pow2(n)), 0) == 0
    ensures !ColumnStochastic(Zeros(2, Pow2(n)), 2, Pow2(n))
  {
    var z := Zeros(2, Pow2(n));
    ColSumOfIndicator(z, 0, 2);
  }

  /** `parity_postmap(n)` with the evident store `postmap[row_id, i] = 1`:
      column `i` goes to row `popcount(i) mod 2`. */
  method ParityPostmap(n: nat) returns (postmap: array2<int>)
    ensures fresh(postmap)
    ensures ToMatrix(postmap) == FromAssignment(2, ParityAssignment(n))
  {
    postmap := new int[2, Pow2(n)]((i, j) => 0);
    ghost var f := ParityAssignment(n);
    for i := 0 to Pow2(n)
      invariant forall r, c :: 0 <= r < 2 && 0 <= c < i ==> postmap[r, c] == (if f[c] == r then 1 else 0)
      invariant forall r, c :: 0 <= r < 2 && i <= c < Pow2(n) ==> postmap[r, c] == 0
    {
      var rowId := Sum(Bits(i, n)) % 2;
      PopcountIsDigitSum(i, n);
      postmap[rowId, i] := 1;
    }
    ghost var m := FromAssignment(2, f);
    forall r | 0 <= r < 2 ensures ToMatrix(postmap)[r] == m[r] {
      assert |m[r]| == Pow2(n);
    }
  }

  /** The corrected parity postmap is a deterministic, column-stochastic map
      with as many rows as the fingerprinting game, which it is paired with. */
  lemma ParityPostmapStochastic(n: nat)
    ensures OneHotColumns(FromAssignment(2, ParityAssignment(n)), 2, Pow2(n))
    ensures ColumnStochastic(FromAssignment(2, ParityAssignment(n)), 2, Pow2(n))
    ensures forall i :: 0 <= i < Pow2(n) ==> ParityAssignment(n)[i] == Sum(Bits(i, n)) % 2
  {
    AssignmentOneHot(2, ParityAssignment(n));
    forall i | 0 <= i < Pow2(n) ensures ParityAssignment(n)[i] == Sum(Bits(i, n)) % 2 {
      PopcountIsDigitSum(i, n);
    }
  }
}
