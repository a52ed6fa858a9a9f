/** `rac_game(n)`: the game matrix and classical bound of the n-bit random
    access code. Alice receives an n-bit string `x`, Bob an index `y`, and
    the game rewards Bob for outputting bit `y` of `x`. */
module RandomAccessCoding {
  import opened Matrices

  /** The digits of every input `x`, one block per `x`: the running `col_id`
      of the nested loops visits them in this order. */
  function RacBlocks(n: nat): (blocks: seq<seq<nat>>)
    ensures |blocks| == Pow2(n)
    ensures forall x :: 0 <= x < Pow2(n) ==> blocks[x] == Bits(x, n)
  {
    seq(Pow2(n), x requires 0 <= x => Bits(x, n))
  }

  /** The winning output of every column: column `x * n + y` is won by output
      bit `y` of `x`. */
  function RacAssignment(n: nat): seq<nat>
  {
    Concat(RacBlocks(n))
  }

  /** The game matrix as a 0/1 matrix with two rows. */
  function RacMatrix(n: nat): IntMatrix
  {
    FromAssignment(2, RacAssignment(n))
  }

  /** The classical bound: tabulated for n = 2, 3, 4, otherwise every column
      but two. */
  function RacBound(n: nat): int
  {
    if n == 2 then 6
    else if n == 3 then 18
    else if n == 4 then 28
    else Pow2(n) * n - 2
  }

  /** The game has two rows and `2^n * n` columns. */
  lemma RacShape(n: nat)
    ensures IsMatrix(RacMatrix(n), 2, Pow2(n) * n)
  {
    ConcatLength(RacBlocks(n), n);
  }

  /** `rac_game(n)`: a zero array filled by two nested loops with a running
      column index. */
  method RacGame(n: nat) returns (bound: int, game: array2<int>)
    ensures fresh(game)
    ensures game.Length0 == 2 && game.Length1 == Pow2(n) * n
    ensures ToMatrix(game) == RacMatrix(n)
    ensures bound == RacBound(n)
  {
    var X := Pow2(n);
    var Y := n;
    var total := X * Y;
    game := new int[2, total]((i, j) => 0);
    ghost var f := RacAssignment(n);
    ConcatLength(RacBlocks(n), Y);
    var colId := 0;
    for x := 0 to X
      invariant colId == x * Y <= total
      invariant Filled(game, f, colId)
    {
      NextBlock(x, X, Y);
      colId := FillBlock(game, n, x, colId);
    }
    bound := RacBound(n);
    FilledMatrix(game, f);
  }

  /** Block `x` of width `Y` starts at `x * Y` and the next one at
      `x * Y + Y`, within the `X * Y` columns. */
  lemma NextBlock(x: nat, X: nat, Y: nat)
    requires x < X
    ensures 0 <= x * Y && (x + 1) * Y == x * Y + Y <= X * Y
  {
    MulMono(x + 1, X, Y);
  }

  /** The inner loop of `rac_game`: the `n` columns of input `x` get their 1
      in the row given by the binary digits of `x`, and the running column
      index moves past them. */
  method FillBlock(game: array2<int>, n: nat, x: nat, colId: nat) returns (next: nat)
    requires x < Pow2(n) && colId == x * n
    requires Filled(game, RacAssignment(n), colId)
    requires game.Length0 == 2
    modifies game
    ensures next == colId + n && Filled(game, RacAssignment(n), next)
  {
    ghost var blocks := RacBlocks(n);
    next := colId;
    for y := 0 to n
      invariant next == colId + y
      invariant Filled(game, RacAssignment(n), next)
    {
      var binString := Bits(x, n);
      var rowId := binString[y];
      ConcatIndex(blocks, n, x, y);
      game[rowId, next] := 1;
      next := next + 1;
    }
  }

  /** The game is a 2 x (2^n * n) matrix whose column `x * n + y` holds a
      single 1, in the row equal to bit `y` of the n-digit binary form of
      `x` (most significant digit first), and 0 in the other row. */
  lemma RacColumn(n: nat, x: nat, y: nat)
    requires x < Pow2(n) && y < n
    ensures x * n + y < |RacAssignment(n)|
    ensures RacAssignment(n)[x * n + y] == Bits(x, n)[y]
    ensures IsMatrix(RacMatrix(n), 2, |RacAssignment(n)|)
    ensures forall r :: 0 <= r < 2 ==> RacMatrix(n)[r][x * n + y] == (if r == Bits(x, n)[y] then 1 else 0)
  {
    ConcatIndex(RacBlocks(n), n, x, y);
    MulMono(0, x, n);
    AssignmentColumn(2, RacAssignment(n), x * n + y);
  }

  /** Every column holds exactly one 1: the game is a deterministic,
      column-stochastic 0/1 matrix. */
  lemma RacOneHot(n: nat)
    ensures OneHotColumns(RacMatrix(n), 2, Pow2(n) * n)
    ensures ColumnStochastic(RacMatrix(n), 2, Pow2(n) * n)
  {
    var f := RacAssignment(n);
    ConcatLength(RacBlocks(n), n);
    forall c | 0 <= c < |f| ensures f[c] < 2 {
      var x, y := Split(c, Pow2(n), n);
      ConcatIndex(RacBlocks(n), n, x, y);
      assert f[c] == Bits(x, n)[y];
    }
    AssignmentOneHot(2, f);
  }

  /** The sum of all entries, taken column by column. */
  function EntrySum(m: IntMatrix, c: nat): int
    requires forall i :: 0 <= i < |m| ==> c <= |m[i]|
  {
    if c == 0 then 0 else EntrySum(m, c - 1) + ColSum(m, c - 1)
  }

  /** A matrix whose first `c` columns each sum to one has entry sum `c`. */
  lemma {:induction false} EntrySumOfStochastic(m: IntMatrix, r: nat, cols: nat, c: nat)
    requires ColumnStochastic(m, r, cols) && c <= cols
    ensures EntrySum(m, c) == c
  {
    if c > 0 {
      EntrySumOfStochastic(m, r, cols, c - 1);
    }
  }

  /** The entries of the game sum to `2^n * n`: one point per column. */
  lemma RacEntrySum(n: nat)
    ensures IsMatrix(RacMatrix(n), 2, Pow2(n) * n)
    ensures EntrySum(RacMatrix(n), Pow2(n) * n) == Pow2(n) * n
  {
    RacOneHot(n);
    EntrySumOfStochastic(RacMatrix(n), 2, Pow2(n) * n, Pow2(n) * n);
  }

  /** The classical bound lies strictly below `2^n * n`, the score of winning
      every column, and is `2^n * n - 2` beyond the tabulated sizes. */
  lemma RacBoundBelowColumns(n: nat)
    ensures RacBound(n) < Pow2(n) * n
    ensures n != 2 && n != 3 && n != 4 ==> RacBound(n) == Pow2(n) * n - 2
  {
    if n == 2 { assert Pow2(2) == 4; }
    else if n == 3 { assert Pow2(3) == 8; }
    else if n == 4 { assert Pow2(4) == 16; }
  }

  /** The qubit scenario of the random-access-coding script: a prepare node
      with `2^n` inputs and a measure node with `n` inputs give exactly as many
      input pairs as the game has columns, and the two-outcome postmap `I_2`
      has as many rows as the game. */
  lemma RacScenarioAgrees(n: nat)
    ensures |RacAssignment(n)| == Pow2(n) * n
    ensures IsMatrix(Identity(2), 2, 2) && |RacMatrix(n)| == |Identity(2)|
    ensures ColumnStochastic(Identity(2), 2, 2)
  {
    ConcatLength(RacBlocks(n), n);
    IdentityOneHot(2);
  }
}
