/** The literal postmaps the scripts pass to the cost function. A postmap has
    one row per coarse-grained outcome and one column per raw measurement
    outcome; every one of them here is deterministic: each raw outcome is sent
    to exactly one row. Each literal is shown equal to the 0/1 matrix of an
    outcome assignment (column `j` goes to row `f[j]`), and hence
    column-stochastic. */
module Postmaps {
  import opened Matrices

  /** `postmap3` of the broadcast, interference and qubit-interference
      scripts: outcomes 2 and 3 are merged. */
  const MergeLastTwo: IntMatrix := [
    [1, 0, 0, 0],
    [0, 1, 0, 0],
    [0, 0, 1, 1]
  ]

  /** `postmap3` of the butterfly scripts: outcomes 0 and 3 are merged. */
  const MergeFirstLast: IntMatrix := [
    [1, 0, 0, 1],
    [0, 1, 0, 0],
    [0, 0, 1, 0]
  ]

  /** The three-outcome postmap of the 33-22-3 script (`postmap3b` of several
      scripts): outcomes 1 and 2 are merged. */
  const MergeMiddle: IntMatrix := [
    [1, 0, 0, 0],
    [0, 1, 1, 0],
    [0, 0, 0, 1]
  ]

  /** The two-outcome postmap of the 33-22-3 script: outcomes 1, 2 and 3 are
      merged. */
  const MergeLastThree: IntMatrix := [
    [1, 0, 0, 0],
    [0, 1, 1, 1]
  ]

  /** `postmap2`: the identity on two outcomes. */
  const QubitIdentity: IntMatrix := [
    [1, 0],
    [0, 1]
  ]

  /** `qubit_projector_postmap`: two outcomes kept, the third row unused. */
  const ProjectorPostmap: IntMatrix := [
    [1, 0],
    [0, 1],
    [0, 0]
  ]

  /** `qubit_povm_postmap`: outcomes 0 and 2 are merged. */
  const PovmPostmap: IntMatrix := [
    [1, 0, 1, 0],
    [0, 1, 0, 0],
    [0, 0, 0, 1]
  ]

  /** `postmap38`: eight outcomes onto three rows, pairs then a quadruple. */
  const Postmap38: IntMatrix := [
    [1, 1, 0, 0, 0, 0, 0, 0],
    [0, 0, 1, 1, 0, 0, 0, 0],
    [0, 0, 0, 0, 1, 1, 1, 1]
  ]

  /** `parity_postmap`, `parity_postmap3` and `parity_postmap4`. */
  const ParityPostmap2: IntMatrix := [
    [1, 0, 0, 1],
    [0, 1, 1, 0]
  ]
  const ParityPostmap3: IntMatrix := [
    [1, 0, 0, 1, 0, 1, 1, 0],
    [0, 1, 1, 0, 1, 0, 0, 1]
  ]
  const ParityPostmap4: IntMatrix := [
    [1, 0, 0, 1, 0, 1, 1, 0, 0, 1, 1, 0, 1, 0, 0, 1],
    [0, 1, 1, 0, 1, 0, 0, 1, 1, 0, 0, 1, 0, 1, 1, 0]
  ]

  /** `and_postmap` and `and_postmap3`. */
  const AndPostmap2: IntMatrix := [
    [1, 1, 1, 0],
    [0, 0, 0, 1]
  ]
  const AndPostmap3: IntMatrix := [
    [1, 1, 1, 1, 1, 1, 1, 0],
    [0, 0, 0, 0, 0, 0, 0, 1]
  ]

  /** `postmap9`: sixteen outcomes onto nine rows. */
  const Postmap9: IntMatrix := [
    [1, 1, 0, 0, 0, 0, 0, 0, 0, 0, 0, 0, 0, 0, 0, 0],
    [0, 0, 1, 1, 0, 0, 0, 0, 0, 0, 0, 0, 0, 0, 0, 0],
    [0, 0, 0, 0, 1, 1, 0, 0, 0, 0, 0, 0, 0, 0, 0, 0],
    [0, 0, 0, 0, 0, 0, 1, 1, 0, 0, 0, 0, 0, 0, 0, 0],
    [0, 0, 0, 0, 0, 0, 0, 0, 1, 1, 0, 0, 0, 0, 0, 0],
    [0, 0, 0, 0, 0, 0, 0, 0, 0, 0, 1, 1, 0, 0, 0, 0],
    [0, 0, 0, 0, 0, 0, 0, 0, 0, 0, 0, 0, 1, 1, 0, 0],
    [0, 0, 0, 0, 0, 0, 0, 0, 0, 0, 0, 0, 0, 0, 1, 0],
    [0, 0, 0, 0, 0, 0, 0, 0, 0, 0, 0, 0, 0, 0, 0, 1]
  ]

  /** `postmap9m0`: sixteen outcomes onto five of nine rows. */
  const Postmap9M0: IntMatrix := [
    [1, 1, 1, 1, 0, 0, 0, 0, 0, 0, 0, 0, 0, 0, 0, 0],
    [0, 0, 0, 0, 1, 1, 1, 1, 0, 0, 0, 0, 0, 0, 0, 0],
    [0, 0, 0, 0, 0, 0, 0, 0, 1, 1, 1, 1, 0, 0, 0, 0],
    [0, 0, 0, 0, 0, 0, 0, 0, 0, 0, 0, 0, 0, 0, 0, 0],
    [0, 0, 0, 0, 0, 0, 0, 0, 0, 0, 0, 0, 1, 1, 1, 1],
    [0, 0, 0, 0, 0, 0, 0, 0, 0, 0, 0, 0, 0, 0, 0, 0],
    [0, 0, 0, 0, 0, 0, 0, 0, 0, 0, 0, 0, 0, 0, 0, 0],
    [0, 0, 0, 0, 0, 0, 0, 0, 0, 0, 0, 0, 0, 0, 0, 0],
    [0, 0, 0, 0, 0, 0, 0, 0, 0, 0, 0, 0, 0, 0, 0, 0]
  ]

  /** The interference script's `postmap2`: pairs of outcomes, the third row
      unused. */
  const PairPostmap: IntMatrix := [
    [1, 1, 0, 0],
    [0, 0, 1, 1],
    [0, 0, 0, 0]
  ]

  /** The interference script's `postmap23b`: two outcomes onto rows 0 and 2. */
  const SkipMiddle: IntMatrix := [
    [1, 0],
    [0, 0],
    [0, 1]
  ]

  /** The interference script's `classical_postmap`: pairs of outcomes onto
      rows 1 and 2, row 0 unused. */
  const ClassicalPostmap: IntMatrix := [
    [0, 0, 0, 0],
    [1, 1, 0, 0],
    [0, 0, 1, 1]
  ]

  /** A literal equal to the matrix of an in-range assignment is a
      deterministic, column-stochastic postmap. */
  lemma Deterministic(m: IntMatrix, r: nat, f: seq<nat>)
    requires m == FromAssignment(r, f) && InRange(r, f)
    ensures IsMatrix(m, r, |f|) && ZeroOne(m)
    ensures OneHotColumns(m, r, |f|) && ColumnStochastic(m, r, |f|)
  {
    AssignmentOneHot(r, f);
  }

  lemma MergeLastTwoOutcomes()
    ensures MergeLastTwo == FromAssignment(3, [0, 1, 2, 2])
    ensures OneHotColumns(MergeLastTwo, 3, 4) && ColumnStochastic(MergeLastTwo, 3, 4)
  {
    var m := FromAssignment(3, [0, 1, 2, 2]);
    forall i | 0 <= i < 3 ensures MergeLastTwo[i] == m[i] { assert |m[i]| == 4; }
    Deterministic(MergeLastTwo, 3, [0, 1, 2, 2]);
  }

  lemma MergeFirstLastOutcomes()
    ensures MergeFirstLast == FromAssignment(3, [0, 1, 2, 0])
    ensures OneHotColumns(MergeFirstLast, 3, 4) && ColumnStochastic(MergeFirstLast, 3, 4)
  {
    var m := FromAssignment(3, [0, 1, 2, 0]);
    forall i | 0 <= i < 3 ensures MergeFirstLast[i] == m[i] { assert |m[i]| == 4; }
    Deterministic(MergeFirstLast, 3, [0, 1, 2, 0]);
  }

  lemma MergeMiddleOutcomes()
    ensures MergeMiddle == FromAssignment(3, [0, 1, 1, 2])
    ensures OneHotColumns(MergeMiddle, 3, 4) && ColumnStochastic(MergeMiddle, 3, 4)
  {
    var m := FromAssignment(3, [0, 1, 1, 2]);
    forall i | 0 <= i < 3 ensures MergeMiddle[i] == m[i] { assert |m[i]| == 4; }
    Deterministic(MergeMiddle, 3, [0, 1, 1, 2]);
  }

  lemma MergeLastThreeOutcomes()
    ensures MergeLastThree == FromAssignment(2, [0, 1, 1, 1])
    ensures OneHotColumns(MergeLastThree, 2, 4) && ColumnStochastic(MergeLastThree, 2, 4)
  {
    var m := FromAssignment(2, [0, 1, 1, 1]);
    forall i | 0 <= i < 2 ensures MergeLastThree[i] == m[i] { assert |m[i]| == 4; }
    Deterministic(MergeLastThree, 2, [0, 1, 1, 1]);
  }

  /** The two-outcome literal is `np.eye(2)`. */
  lemma QubitIdentityOutcomes()
    ensures QubitIdentity == Identity(2)
    ensures OneHotColumns(QubitIdentity, 2, 2) && ColumnStochastic(QubitIdentity, 2, 2)
  {
    var m := Identity(2);
    forall i | 0 <= i < 2 ensures QubitIdentity[i] == m[i] { assert |m[i]| == 2; }
    IdentityOneHot(2);
  }

  lemma ProjectorPostmapOutcomes()
    ensures ProjectorPostmap == FromAssignment(3, [0, 1])
    ensures OneHotColumns(ProjectorPostmap, 3, 2) && ColumnStochastic(ProjectorPostmap, 3, 2)
    ensures ZeroRow(ProjectorPostmap, 2)
  {
    var m := FromAssignment(3, [0, 1]);
    forall i | 0 <= i < 3 ensures ProjectorPostmap[i] == m[i] { assert |m[i]| == 2; }
    Deterministic(ProjectorPostmap, 3, [0, 1]);
    AssignmentRows(3, [0, 1], 2);
  }

  lemma PovmPostmapOutcomes()
    ensures PovmPostmap == FromAssignment(3, [0, 1, 0, 2])
    ensures OneHotColumns(PovmPostmap, 3, 4) && ColumnStochastic(PovmPostmap, 3, 4)
  {
    var m := FromAssignment(3, [0, 1, 0, 2]);
    forall i | 0 <= i < 3 ensures PovmPostmap[i] == m[i] { assert |m[i]| == 4; }
    Deterministic(PovmPostmap, 3, [0, 1, 0, 2]);
  }

  lemma Postmap38Outcomes()
    ensures Postmap38 == FromAssignment(3, [0, 0, 1, 1, 2, 2, 2, 2])
    ensures OneHotColumns(Postmap38, 3, 8) && ColumnStochastic(Postmap38, 3, 8)
  {
    var m := FromAssignment(3, [0, 0, 1, 1, 2, 2, 2, 2]);
    forall i | 0 <= i < 3 ensures Postmap38[i] == m[i] { assert |m[i]| == 8; }
    Deterministic(Postmap38, 3, [0, 0, 1, 1, 2, 2, 2, 2]);
  }

  /** The parity literals send column `i` to row `popcount(i) mod 2`. */
  lemma ParityLiterals()
    ensures ParityPostmap2 == FromAssignment(2, ParityAssignment(2))
    ensures ParityPostmap3 == FromAssignment(2, ParityAssignment(3))
    ensures ParityPostmap4 == FromAssignment(2, ParityAssignment(4))
    ensures ColumnStochastic(ParityPostmap2, 2, 4)
    ensures ColumnStochastic(ParityPostmap3, 2, 8)
    ensures ColumnStochastic(ParityPostmap4, 2, 16)
  {
    Parity2Literal();
    Parity3Literal();
    Parity4Literal();
  }

  lemma Parity2Literal()
    ensures ParityPostmap2 == FromAssignment(2, ParityAssignment(2))
    ensures ColumnStochastic(ParityPostmap2, 2, Pow2(2))
  {
    ParityLiteral(ParityPostmap2, 2, [0, 1, 1, 0]);
  }

  lemma Parity3Literal()
    ensures ParityPostmap3 == FromAssignment(2, ParityAssignment(3))
    ensures ColumnStochastic(ParityPostmap3, 2, Pow2(3))
  {
    Popcount3Table();
    ParityLiteral(ParityPostmap3, 3, [0, 1, 1, 0, 1, 0, 0, 1]);
  }

  lemma Parity4Literal()
    ensures ParityPostmap4 == FromAssignment(2, ParityAssignment(4))
    ensures ColumnStochastic(ParityPostmap4, 2, Pow2(4))
  {
    Parity4Table();
    ParityLiteral(ParityPostmap4, 4, Parity4);
  }

  /** The parities of the sixteen four-digit numbers. */
  const Parity4: seq<nat> := [0, 1, 1, 0, 1, 0, 0, 1, 1, 0, 0, 1, 0, 1, 1, 0]

  lemma Parity4Table()
    ensures forall i :: 0 <= i < 16 ==> Parity4[i] == Popcount(i, 4) % 2
  {
    Popcount3Table();
    assert Popcount(0, 4) == 0 && Popcount(1, 4) == 1 && Popcount(2, 4) == 1 && Popcount(3, 4) == 2;
    assert Popcount(4, 4) == 1 && Popcount(5, 4) == 2 && Popcount(6, 4) == 2 && Popcount(7, 4) == 3;
    assert Popcount(8, 4) == 1 && Popcount(9, 4) == 2 && Popcount(10, 4) == 2 && Popcount(11, 4) == 3;
    assert Popcount(12, 4) == 2 && Popcount(13, 4) == 3 && Popcount(14, 4) == 3 && Popcount(15, 4) == 4;
  }

  /** The popcounts of the three-digit numbers, built up from fewer digits. */
  lemma Popcount3Table()
    ensures Popcount(0, 3) == 0 && Popcount(1, 3) == 1 && Popcount(2, 3) == 1 && Popcount(3, 3) == 2
    ensures Popcount(4, 3) == 1 && Popcount(5, 3) == 2 && Popcount(6, 3) == 2 && Popcount(7, 3) == 3
  {
    assert Popcount(0, 1) == 0 && Popcount(1, 1) == 1;
    assert Popcount(0, 2) == 0 && Popcount(1, 2) == 1 && Popcount(2, 2) == 1 && Popcount(3, 2) == 2;
  }

  /** One parity literal, through its assignment written out. */
  lemma ParityLiteral(p: IntMatrix, n: nat, f: seq<nat>)
    requires n <= 4 && |f| == Pow2(n)
    requires forall i :: 0 <= i < |f| ==> f[i] == Popcount(i, n) % 2
    requires |p| == 2 && forall i :: 0 <= i < 2 ==> |p[i]| == |f| && forall j :: 0 <= j < |f| ==> p[i][j] == (if f[j] == i then 1 else 0)
    ensures p == FromAssignment(2, ParityAssignment(n))
    ensures ColumnStochastic(p, 2, Pow2(n))
  {
    assert f == ParityAssignment(n);
    var m := FromAssignment(2, f);
    forall i | 0 <= i < 2 ensures p[i] == m[i] { }
    Deterministic(p, 2, f);
  }

  /** The and literals send only the all-ones column to row 1. */
  lemma AndLiterals()
    ensures AndPostmap2 == FromAssignment(2, AndAssignment(2))
    ensures AndPostmap3 == FromAssignment(2, AndAssignment(3))
    ensures ColumnStochastic(AndPostmap2, 2, 4)
    ensures ColumnStochastic(AndPostmap3, 2, 8)
  {
    var f2 := AndAssignment(2);
    assert f2 == [0, 0, 0, 1];
    var m2 := FromAssignment(2, f2);
    forall i | 0 <= i < 2 ensures AndPostmap2[i] == m2[i] { assert |m2[i]| == 4; }
    Deterministic(AndPostmap2, 2, f2);
    var f3 := AndAssignment(3);
    assert f3 == [0, 0, 0, 0, 0, 0, 0, 1];
    var m3 := FromAssignment(2, f3);
    forall i | 0 <= i < 2 ensures AndPostmap3[i] == m3[i] { assert |m3[i]| == 8; }
    Deterministic(AndPostmap3, 2, f3);
  }

  /** The outcome assignment of `postmap9`. */
  const Postmap9Assignment: seq<nat> := [0, 0, 1, 1, 2, 2, 3, 3, 4, 4, 5, 5, 6, 6, 7, 8]

  /** Rows 0 to 4 of `Postmap9` match its assignment. */
  lemma Postmap9UpperRows()
    ensures forall i :: 0 <= i < 5 ==> Postmap9[i] == FromAssignment(9, Postmap9Assignment)[i]
  {
    var m := FromAssignment(9, Postmap9Assignment);
    forall i | 0 <= i < 5 ensures Postmap9[i] == m[i] { assert |m[i]| == 16; }
  }

  /** Rows 5 to 8 of `Postmap9` match its assignment. */
  lemma Postmap9LowerRows()
    ensures forall i :: 5 <= i < 9 ==> Postmap9[i] == FromAssignment(9, Postmap9Assignment)[i]
  {
    var m := FromAssignment(9, Postmap9Assignment);
    forall i | 5 <= i < 9 ensures Postmap9[i] == m[i] { assert |m[i]| == 16; }
  }

  /** `postmap9` is the matrix of its assignment. */
  lemma Postmap9IsAssignment()
    ensures Postmap9 == FromAssignment(9, Postmap9Assignment)
  {
    Postmap9UpperRows();
    Postmap9LowerRows();
  }

  /** `postmap9`: rows 0 to 6 each take the pair of columns `2r, 2r + 1`; row 7
      takes column 14 and row 8 column 15; every column has a single 1. */
  lemma Postmap9Outcomes()
    ensures IsMatrix(Postmap9, 9, 16)
    ensures forall r :: 0 <= r < 7 ==> Postmap9[r][2 * r] == 1 && Postmap9[r][2 * r + 1] == 1
    ensures Postmap9[7][14] == 1 && Postmap9[8][15] == 1
    ensures OneHotColumns(Postmap9, 9, 16) && ColumnStochastic(Postmap9, 9, 16)
  {
    Postmap9IsAssignment();
    forall r | 0 <= r < 7 ensures Postmap9Assignment[2 * r] == r && Postmap9Assignment[2 * r + 1] == r {
      if r == 0 {} else if r == 1 {} else if r == 2 {} else if r == 3 {} else if r == 4 {} else if r == 5 {}
    }
    Deterministic(Postmap9, 9, Postmap9Assignment);
  }

  /** The row of each column of `postmap9m0`. */
  const Postmap9M0Assignment: seq<nat> := [0, 0, 0, 0, 1, 1, 1, 1, 2, 2, 2, 2, 4, 4, 4, 4]

  /** Rows 0 to 4 of `Postmap9M0` match its assignment. */
  lemma Postmap9M0UpperRows()
    ensures forall i :: 0 <= i < 5 ==> Postmap9M0[i] == FromAssignment(9, Postmap9M0Assignment)[i]
  {
    var m := FromAssignment(9, Postmap9M0Assignment);
    forall i | 0 <= i < 5 ensures Postmap9M0[i] == m[i] { assert |m[i]| == 16; }
  }

  /** Rows 5 to 8 of `Postmap9M0` match its assignment. */
  lemma Postmap9M0LowerRows()
    ensures forall i :: 5 <= i < 9 ==> Postmap9M0[i] == FromAssignment(9, Postmap9M0Assignment)[i]
  {
    var m := FromAssignment(9, Postmap9M0Assignment);
    forall i | 5 <= i < 9 ensures Postmap9M0[i] == m[i] { assert |m[i]| == 16; }
  }

  lemma Postmap9M0IsAssignment()
    ensures Postmap9M0 == FromAssignment(9, Postmap9M0Assignment)
  {
    Postmap9M0UpperRows();
    Postmap9M0LowerRows();
  }

  /** The blocks of ones in `postmap9m0`, read off the literal. */
  lemma Postmap9M0Blocks()
    ensures forall r :: 0 <= r < 3 ==> Postmap9M0[r][4 * r .. 4 * r + 4] == [1, 1, 1, 1]
    ensures forall j :: 12 <= j < 16 ==> Postmap9M0[4][j] == 1
  {
    assert Postmap9M0[0][0 .. 4] == [1, 1, 1, 1];
    assert Postmap9M0[1][4 .. 8] == [1, 1, 1, 1];
    assert Postmap9M0[2][8 .. 12] == [1, 1, 1, 1];
  }

  /** `postmap9m0`: columns `4r .. 4r + 3` go to row `r` for `r` in 0..2,
      columns 12 to 15 go to row 4, and rows 3 and 5 to 8 are all zero. */
  lemma Postmap9M0Outcomes()
    ensures Postmap9M0 == FromAssignment(9, Postmap9M0Assignment)
    ensures forall r :: 0 <= r < 3 ==> Postmap9M0[r][4 * r .. 4 * r + 4] == [1, 1, 1, 1]
    ensures forall j :: 12 <= j < 16 ==> Postmap9M0[4][j] == 1
    ensures ZeroRow(Postmap9M0, 3) && forall r :: 5 <= r < 9 ==> ZeroRow(Postmap9M0, r)
    ensures OneHotColumns(Postmap9M0, 9, 16) && ColumnStochastic(Postmap9M0, 9, 16)
  {
    Postmap9M0Blocks();
    Postmap9M0IsAssignment();
    var f := Postmap9M0Assignment;
    Deterministic(Postmap9M0, 9, f);
    forall r | 3 <= r < 9 && r != 4 ensures ZeroRow(Postmap9M0, r) {
      AssignmentRows(9, f, r);
    }
  }

  lemma PairPostmapOutcomes()
    ensures PairPostmap == FromAssignment(3, [0, 0, 1, 1])
    ensures OneHotColumns(PairPostmap, 3, 4) && ColumnStochastic(PairPostmap, 3, 4)
    ensures ZeroRow(PairPostmap, 2)
  {
    var m := FromAssignment(3, [0, 0, 1, 1]);
    forall i | 0 <= i < 3 ensures PairPostmap[i] == m[i] { assert |m[i]| == 4; }
    Deterministic(PairPostmap, 3, [0, 0, 1, 1]);
    AssignmentRows(3, [0, 0, 1, 1], 2);
  }

  lemma SkipMiddleOutcomes()
    ensures SkipMiddle == FromAssignment(3, [0, 2])
    ensures OneHotColumns(SkipMiddle, 3, 2) && ColumnStochastic(SkipMiddle, 3, 2)
    ensures ZeroRow(SkipMiddle, 1)
  {
    var m := FromAssignment(3, [0, 2]);
    forall i | 0 <= i < 3 ensures SkipMiddle[i] == m[i] { assert |m[i]| == 2; }
    Deterministic(SkipMiddle, 3, [0, 2]);
    AssignmentRows(3, [0, 2], 1);
  }

  /** `classical_postmap` is column-stochastic and its row 0 is all zero. */
  lemma ClassicalPostmapOutcomes()
    ensures ClassicalPostmap == FromAssignment(3, [1, 1, 2, 2])
    ensures OneHotColumns(ClassicalPostmap, 3, 4) && ColumnStochastic(ClassicalPostmap, 3, 4)
    ensures ZeroRow(ClassicalPostmap, 0)
  {
    var m := FromAssignment(3, [1, 1, 2, 2]);
    forall i | 0 <= i < 3 ensures ClassicalPostmap[i] == m[i] { assert |m[i]| == 4; }
    Deterministic(ClassicalPostmap, 3, [1, 1, 2, 2]);
    AssignmentRows(3, [1, 1, 2, 2], 0);
  }

  // ---------------------------------------------------------------------
  // Kronecker products of the literals, as the scripts pass them

  /** The Kronecker product of two deterministic postmaps is deterministic, so
      it is a column-stochastic postmap of the product shape. */
  lemma KronDeterministic(a: IntMatrix, ra: nat, ca: nat, b: IntMatrix, rb: nat, cb: nat)
    requires OneHotColumns(a, ra, ca) && OneHotColumns(b, rb, cb)
    ensures OneHotColumns(Kron(a, b), ra * rb, ca * cb)
    ensures ColumnStochastic(Kron(a, b), ra * rb, ca * cb)
  {
    KronOneHot(a, ra, ca, b, rb, cb);
    OneHotIffStochastic(Kron(a, b), ra * rb, ca * cb);
  }

  /** `np.kron(postmap3, postmap3)` of the broadcast and interference scripts. */
  lemma SquareOfMergeLastTwo()
    ensures OneHotColumns(Kron(MergeLastTwo, MergeLastTwo), 9, 16)
    ensures ColumnStochastic(Kron(MergeLastTwo, MergeLastTwo), 9, 16)
  {
    MergeLastTwoOutcomes();
    KronDeterministic(MergeLastTwo, 3, 4, MergeLastTwo, 3, 4);
  }

  /** `np.kron(postmap3, postmap3)` of the butterfly scripts. */
  lemma SquareOfMergeFirstLast()
    ensures OneHotColumns(Kron(MergeFirstLast, MergeFirstLast), 9, 16)
    ensures ColumnStochastic(Kron(MergeFirstLast, MergeFirstLast), 9, 16)
  {
    MergeFirstLastOutcomes();
    KronDeterministic(MergeFirstLast, 3, 4, MergeFirstLast, 3, 4);
  }

  /** `np.kron(postmap3b, postmap3b)` of the script variants. */
  lemma SquareOfMergeMiddle()
    ensures OneHotColumns(Kron(MergeMiddle, MergeMiddle), 9, 16)
    ensures ColumnStochastic(Kron(MergeMiddle, MergeMiddle), 9, 16)
  {
    MergeMiddleOutcomes();
    KronDeterministic(MergeMiddle, 3, 4, MergeMiddle, 3, 4);
  }

  /** `np.kron(postmap3, postmap2)` of the qubit-interference scripts: six rows
      over eight outcomes. */
  lemma MergeLastTwoTimesQubit()
    ensures OneHotColumns(Kron(MergeLastTwo, QubitIdentity), 6, 8)
    ensures ColumnStochastic(Kron(MergeLastTwo, QubitIdentity), 6, 8)
  {
    MergeLastTwoOutcomes();
    QubitIdentityOutcomes();
    KronDeterministic(MergeLastTwo, 3, 4, QubitIdentity, 2, 2);
  }

  /** `projector_postmap = np.kron(qubit_projector_postmap, ...)`: nine rows
      over four outcomes. */
  lemma SquareOfProjector()
    ensures OneHotColumns(Kron(ProjectorPostmap, ProjectorPostmap), 9, 4)
    ensures ColumnStochastic(Kron(ProjectorPostmap, ProjectorPostmap), 9, 4)
  {
    ProjectorPostmapOutcomes();
    KronDeterministic(ProjectorPostmap, 3, 2, ProjectorPostmap, 3, 2);
  }

  /** `povm_postmap = np.kron(qubit_povm_postmap, ...)`: nine rows over sixteen
      outcomes. */
  lemma SquareOfPovm()
    ensures OneHotColumns(Kron(PovmPostmap, PovmPostmap), 9, 16)
    ensures ColumnStochastic(Kron(PovmPostmap, PovmPostmap), 9, 16)
  {
    PovmPostmapOutcomes();
    KronDeterministic(PovmPostmap, 3, 4, PovmPostmap, 3, 4);
  }

  /** `np.kron(np.eye(2), np.eye(2))` is `np.eye(4)`. */
  lemma SquareOfQubitIdentity()
    ensures Kron(Identity(2), Identity(2)) == Identity(4)
    ensures ColumnStochastic(Kron(Identity(2), Identity(2)), 4, 4)
  {
    KronIdentity(2, 2);
    IdentityOneHot(4);
  }
}
