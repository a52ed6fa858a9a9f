/** Integer matrices as the scripts build them with numpy: game matrices,
    0/1 postmaps, `np.kron`, `np.eye` and the binary expansions used by the
    random-access-coding and parity constructions. */
module Matrices {

  /** A numpy 2-D array of integers, row by row. */
  type IntMatrix = seq<seq<int>>

  /** `m` has shape `(r, c)`. */
  predicate IsMatrix(m: IntMatrix, r: nat, c: nat)
  {
    |m| == r && forall i :: 0 <= i < r ==> |m[i]| == c
  }

  /** `np.zeros((r, c))`. */
  function Zeros(r: nat, c: nat): (m: IntMatrix)
    ensures IsMatrix(m, r, c)
    ensures forall i, j :: 0 <= i < r && 0 <= j < c ==> m[i][j] == 0
  {
    seq(r, i => seq(c, j => 0))
  }

  /** The contents of a numpy array that a generator fills in place. */
  function ToMatrix(a: array2<int>): (m: IntMatrix)
    reads a
    ensures IsMatrix(m, a.Length0, a.Length1)
    ensures forall i, j :: 0 <= i < a.Length0 && 0 <= j < a.Length1 ==> m[i][j] == a[i, j]
  {
    seq(a.Length0, i requires 0 <= i < a.Length0 reads a =>
      seq(a.Length1, j requires 0 <= j < a.Length1 reads a => a[i, j]))
  }

  /** The sum of column `j`, accumulated from the top row down. */
  function ColSum(m: IntMatrix, j: nat): int
    requires forall i :: 0 <= i < |m| ==> j < |m[i]|
  {
    if |m| == 0 then 0 else ColSum(m[..|m| - 1], j) + m[|m| - 1][j]
  }

  /** A postmap in the sense the optimisation harness documents: shape
      `(r, c)`, no negative entry, and every column sums to one. */
  predicate ColumnStochastic(m: IntMatrix, r: nat, c: nat)
  {
    && IsMatrix(m, r, c)
    && (forall i, j :: 0 <= i < r && 0 <= j < c ==> m[i][j] >= 0)
    && (forall j :: 0 <= j < c ==> ColSum(m, j) == 1)
  }

  /** Every entry is 0 or 1. */
  predicate ZeroOne(m: IntMatrix)
  {
    forall i, j :: 0 <= i < |m| && 0 <= j < |m[i]| ==> m[i][j] == 0 || m[i][j] == 1
  }

  /** A deterministic postmap: 0/1 entries and exactly one 1 in each column. */
  predicate OneHotColumns(m: IntMatrix, r: nat, c: nat)
  {
    IsMatrix(m, r, c) && ZeroOne(m) && forall j :: 0 <= j < c ==> ColSum(m, j) == 1
  }

  /** Row `i` of `m` is all zero. */
  predicate ZeroRow(m: IntMatrix, i: nat)
    requires i < |m|
  {
    forall j :: 0 <= j < |m[i]| ==> m[i][j] == 0
  }

  /** The 0/1 matrix with `r` rows that sends column `j` to row `f[j]`. */
  function FromAssignment(r: nat, f: seq<nat>): (m: IntMatrix)
    ensures IsMatrix(m, r, |f|)
    ensures ZeroOne(m)
  {
    seq(r, i => seq(|f|, j requires 0 <= j < |f| => if f[j] == i then 1 else 0))
  }

  /** An array being filled column by column from the assignment `f`: the
      columns before `upto` hold their 1 in row `f[j]`, the rest are zero. */
  ghost predicate Filled(a: array2<int>, f: seq<nat>, upto: nat)
    reads a
  {
    && a.Length1 == |f| && upto <= |f|
    && forall i, j :: 0 <= i < a.Length0 && 0 <= j < a.Length1 ==>
         a[i, j] == (if j < upto && f[j] == i then 1 else 0)
  }

  /** A completely filled array holds the assignment matrix. */
  lemma FilledMatrix(a: array2<int>, f: seq<nat>)
    requires Filled(a, f, |f|)
    ensures ToMatrix(a) == FromAssignment(a.Length0, f)
  {
    var m := FromAssignment(a.Length0, f);
    forall i | 0 <= i < a.Length0 ensures ToMatrix(a)[i] == m[i] {
    }
  }

  /** Column `j` of an assignment matrix holds its 1 in row `f[j]`. */
  lemma AssignmentColumn(r: nat, f: seq<nat>, j: nat)
    requires j < |f|
    ensures forall i :: 0 <= i < r ==> FromAssignment(r, f)[i][j] == (if f[j] == i then 1 else 0)
  {
  }

  /** Every column is sent to an existing row. */
  predicate InRange(r: nat, f: seq<nat>)
  {
    forall j :: 0 <= j < |f| ==> f[j] < r
  }

  /** The column sum of an assignment matrix counts the rows hit: one when the
      target row exists, zero otherwise. */
  lemma {:induction false} ColSumOfIndicator(m: IntMatrix, j: nat, t: nat)
    requires forall i :: 0 <= i < |m| ==> j < |m[i]| && m[i][j] == (if i == t then 1 else 0)
    ensures ColSum(m, j) == (if t < |m| then 1 else 0)
  {
    if |m| > 0 {
      var init := m[..|m| - 1];
      ColSumOfIndicator(init, j, t);
    }
  }

  /** A total assignment gives a deterministic, hence column-stochastic, map. */
  lemma AssignmentOneHot(r: nat, f: seq<nat>)
    requires InRange(r, f)
    ensures OneHotColumns(FromAssignment(r, f), r, |f|)
    ensures ColumnStochastic(FromAssignment(r, f), r, |f|)
  {
    var m := FromAssignment(r, f);
    forall j | 0 <= j < |f| ensures ColSum(m, j) == 1 {
      ColSumOfIndicator(m, j, f[j]);
    }
  }

  /** In an assignment matrix, row `i` is all zero exactly when no column is
      sent to it, and column `j` has its 1 in row `f[j]`. */
  lemma AssignmentRows(r: nat, f: seq<nat>, i: nat)
    requires i < r
    ensures ZeroRow(FromAssignment(r, f), i) <==> forall j :: 0 <= j < |f| ==> f[j] != i
    ensures forall j :: 0 <= j < |f| ==> (FromAssignment(r, f)[i][j] == 1 <==> f[j] == i)
  {
    var m := FromAssignment(r, f);
    assert forall j :: 0 <= j < |f| ==> (m[i][j] == 0 <==> f[j] != i);
  }

  /** A 0/1 matrix is deterministic exactly when it is column-stochastic. */
  lemma OneHotIffStochastic(m: IntMatrix, r: nat, c: nat)
    requires ZeroOne(m)
    ensures OneHotColumns(m, r, c) <==> ColumnStochastic(m, r, c)
  {
  }

  /** Concatenating rows adds column sums. */
  lemma {:induction false} ColSumAppend(x: IntMatrix, y: IntMatrix, j: nat)
    requires forall i :: 0 <= i < |x| ==> j < |x[i]|
    requires forall i :: 0 <= i < |y| ==> j < |y[i]|
    ensures ColSum(x + y, j) == ColSum(x, j) + ColSum(y, j)
  {
    if |y| > 0 {
      var y0 := y[..|y| - 1];
      ColSumAppend(x, y0, j);
      assert (x + y)[..|x + y| - 1] == x + y0;
    } else {
      assert x + y == x;
    }
  }

  /** `np.eye(n)`. */
  function Identity(n: nat): (m: IntMatrix)
    ensures IsMatrix(m, n, n)
    ensures forall i, j :: 0 <= i < n && 0 <= j < n ==> m[i][j] == (if i == j then 1 else 0)
  {
    seq(n, i => seq(n, j => if i == j then 1 else 0))
  }

  /** The identity is the assignment that keeps every column in its own row,
      so it is a deterministic postmap. */
  lemma IdentityOneHot(n: nat)
    ensures Identity(n) == FromAssignment(n, seq(n, j => j))
    ensures OneHotColumns(Identity(n), n, n)
    ensures ColumnStochastic(Identity(n), n, n)
  {
    var f: seq<nat> := seq(n, j => j);
    assert Identity(n) == FromAssignment(n, f) by {
      forall i | 0 <= i < n ensures Identity(n)[i] == FromAssignment(n, f)[i] { }
    }
    AssignmentOneHot(n, f);
  }

  // ---------------------------------------------------------------------
  // Kronecker product

  /** One row of `np.kron(a, b)`: `ra[0]*rb ++ ra[1]*rb ++ ...`. */
  function RowKron(ra: seq<int>, rb: seq<int>): (r: seq<int>)
    ensures |r| == |ra| * |rb|
  {
    if |ra| == 0 then []
    else RowKron(ra[..|ra| - 1], rb) + seq(|rb|, j requires 0 <= j < |rb| => ra[|ra| - 1] * rb[j])
  }

  /** The rows of `np.kron` that come from one row `ra` of the left factor. */
  function Block(ra: seq<int>, b: IntMatrix): (m: IntMatrix)
    ensures |m| == |b|
  {
    seq(|b|, i requires 0 <= i < |b| => RowKron(ra, b[i]))
  }

  /** `np.kron(a, b)`: the blocks of the rows of `a`, top to bottom. */
  function Kron(a: IntMatrix, b: IntMatrix): (m: IntMatrix)
    ensures |m| == |a| * |b|
  {
    if |a| == 0 then [] else Kron(a[..|a| - 1], b) + Block(a[|a| - 1], b)
  }

  /** Entry `j1 * |rb| + j2` of a Kronecker row is `ra[j1] * rb[j2]`. */
  lemma {:induction false} RowKronEntry(ra: seq<int>, rb: seq<int>, j1: nat, j2: nat)
    requires j1 < |ra| && j2 < |rb|
    ensures j1 * |rb| + j2 < |RowKron(ra, rb)|
    ensures RowKron(ra, rb)[j1 * |rb| + j2] == ra[j1] * rb[j2]
  {
    var n := |ra| - 1;
    MulMono(j1, n, |rb|);
    if j1 < n {
      RowKronEntry(ra[..n], rb, j1, j2);
      MulMono(j1 + 1, n, |rb|);
    }
  }

  /** `x <= y` gives `x * k <= y * k`, with `(x + 1) * k == x * k + k`. */
  lemma MulMono(x: nat, y: nat, k: nat)
    requires x <= y
    ensures x * k <= y * k
    ensures (x + 1) * k == x * k + k
  {
  }

  /** The flat index `j1 * cb + j2` of a pair of indices stays below `ca * cb`. */
  lemma IndexBound(j1: nat, j2: nat, ca: nat, cb: nat)
    requires j1 < ca && j2 < cb
    ensures j1 * cb + j2 < ca * cb
  {
    MulMono(j1, ca - 1, cb);
    MulMono(ca - 1, ca - 1, cb);
  }

  /** Multiplication distributes over addition. */
  lemma Distrib(x: int, y: int, z: int)
    ensures (x + y) * z == x * z + y * z
  {
  }

  /** The shape of `np.kron(a, b)` is the product of the shapes. */
  lemma {:induction false} KronShape(a: IntMatrix, ra: nat, ca: nat, b: IntMatrix, rb: nat, cb: nat)
    requires IsMatrix(a, ra, ca) && IsMatrix(b, rb, cb)
    ensures IsMatrix(Kron(a, b), ra * rb, ca * cb)
  {
    if ra > 0 {
      KronShape(a[..ra - 1], ra - 1, ca, b, rb, cb);
      MulMono(ra - 1, ra - 1, rb);
    }
  }

  /** numpy's definition of the Kronecker product, entry by entry:
      `kron(a, b)[i1*rb + i2][j1*cb + j2] == a[i1][j1] * b[i2][j2]`. */
  lemma {:induction false} KronEntry(a: IntMatrix, ra: nat, ca: nat, b: IntMatrix, rb: nat, cb: nat,
                                    i1: nat, i2: nat, j1: nat, j2: nat)
    requires IsMatrix(a, ra, ca) && IsMatrix(b, rb, cb)
    requires i1 < ra && i2 < rb && j1 < ca && j2 < cb
    ensures IsMatrix(Kron(a, b), ra * rb, ca * cb)
    ensures i1 * rb + i2 < ra * rb && j1 * cb + j2 < ca * cb
    ensures Kron(a, b)[i1 * rb + i2][j1 * cb + j2] == a[i1][j1] * b[i2][j2]
  {
    KronShape(a, ra, ca, b, rb, cb);
    MulMono(i1, ra - 1, rb);
    MulMono(j1, ca - 1, cb);
    var n := ra - 1;
    var k := Kron(a, b);
    if i1 < n {
      KronShape(a[..n], n, ca, b, rb, cb);
      KronEntry(a[..n], n, ca, b, rb, cb, i1, i2, j1, j2);
      MulMono(i1 + 1, n, rb);
      assert k[i1 * rb + i2] == Kron(a[..n], b)[i1 * rb + i2];
    } else {
      assert k[i1 * rb + i2] == Block(a[n], b)[i2];
      RowKronEntry(a[n], b[i2], j1, j2);
    }
  }

  /** Multiplication distributes over addition, from the left. */
  lemma DistribLeft(z: int, x: int, y: int)
    ensures z * (x + y) == z * x + z * y
  {
  }

  /** Every row of a block reaches column `j1 * cb + j2`, where it holds
      `ra[j1] * b[i][j2]`. */
  lemma BlockColumn(ra: seq<int>, b: IntMatrix, cb: nat, j1: nat, j2: nat)
    requires IsMatrix(b, |b|, cb) && j1 < |ra| && j2 < cb
    ensures forall i :: 0 <= i < |b| ==> j1 * cb + j2 < |Block(ra, b)[i]|
    ensures forall i :: 0 <= i < |b| ==> Block(ra, b)[i][j1 * cb + j2] == ra[j1] * b[i][j2]
  {
    forall i | 0 <= i < |b|
      ensures j1 * cb + j2 < |Block(ra, b)[i]|
      ensures Block(ra, b)[i][j1 * cb + j2] == ra[j1] * b[i][j2]
    {
      RowKronEntry(ra, b[i], j1, j2);
    }
  }

  /** Dropping the last row of `b` drops the last row of its block. */
  lemma BlockPrefix(ra: seq<int>, b: IntMatrix)
    requires |b| > 0
    ensures Block(ra, b)[..|b| - 1] == Block(ra, b[..|b| - 1])
  {
  }

  /** A column sum of one block is a left-factor entry times a column sum of
      the right factor. */
  lemma {:induction false} ColSumBlock(ra: seq<int>, b: IntMatrix, cb: nat, j1: nat, j2: nat)
    requires IsMatrix(b, |b|, cb) && j1 < |ra| && j2 < cb
    ensures forall i :: 0 <= i < |b| ==> j1 * cb + j2 < |Block(ra, b)[i]|
    ensures ColSum(Block(ra, b), j1 * cb + j2) == ra[j1] * ColSum(b, j2)
  {
    BlockColumn(ra, b, cb, j1, j2);
    if |b| > 0 {
      var b0 := b[..|b| - 1];
      BlockPrefix(ra, b);
      ColSumBlock(ra, b0, cb, j1, j2);
      DistribLeft(ra[j1], ColSum(b0, j2), b[|b| - 1][j2]);
    }
  }

  /** Column sums multiply under the Kronecker product. */
  lemma {:induction false} ColSumKron(a: IntMatrix, ra: nat, ca: nat, b: IntMatrix, rb: nat, cb: nat,
                                     j1: nat, j2: nat)
    requires IsMatrix(a, ra, ca) && IsMatrix(b, rb, cb) && j1 < ca && j2 < cb
    ensures IsMatrix(Kron(a, b), ra * rb, ca * cb)
    ensures j1 * cb + j2 < ca * cb
    ensures ColSum(Kron(a, b), j1 * cb + j2) == ColSum(a, j1) * ColSum(b, j2)
  {
    KronShape(a, ra, ca, b, rb, cb);
    IndexBound(j1, j2, ca, cb);
    if ra > 0 {
      var a0 := a[..ra - 1];
      MulMono(0, j1, cb);
      var t := j1 * cb + j2;
      var k0 := Kron(a0, b);
      var blk := Block(a[ra - 1], b);
      KronShape(a0, ra - 1, ca, b, rb, cb);
      ColSumKron(a0, ra - 1, ca, b, rb, cb, j1, j2);
      ColSumBlock(a[ra - 1], b, cb, j1, j2);
      ColSumAppend(k0, blk, t);
      assert Kron(a, b) == k0 + blk;
      assert ColSum(a, j1) == ColSum(a0, j1) + a[ra - 1][j1];
      Distrib(ColSum(a0, j1), a[ra - 1][j1], ColSum(b, j2));
    }
  }

  /** Every index below `ca * cb` is `j1 * cb + j2` for a left index `j1` and a
      right index `j2`. */
  lemma {:induction false} Split(j: nat, ca: nat, cb: nat) returns (j1: nat, j2: nat)
    requires j < ca * cb
    ensures j1 < ca && j2 < cb && j == j1 * cb + j2
  {
    j1, j2 := j / cb, j % cb;
    if j1 >= ca {
      MulMono(ca, j1, cb);
    }
  }

  /** The split of an index is unique. */
  lemma {:induction false} SplitUnique(i1: nat, i2: nat, j1: nat, j2: nat, q: nat)
    requires i2 < q && j2 < q
    ensures i1 * q + i2 == j1 * q + j2 <==> i1 == j1 && i2 == j2
  {
    if i1 < j1 {
      MulMono(i1 + 1, j1, q);
    } else if j1 < i1 {
      MulMono(j1 + 1, i1, q);
    }
  }

  /** Every column of `np.kron(a, b)` sums to one when every column of both
      factors does. */
  lemma {:induction false} KronColumnsSumToOne(a: IntMatrix, ra: nat, ca: nat, b: IntMatrix, rb: nat, cb: nat)
    requires IsMatrix(a, ra, ca) && IsMatrix(b, rb, cb)
    requires forall j :: 0 <= j < ca ==> ColSum(a, j) == 1
    requires forall j :: 0 <= j < cb ==> ColSum(b, j) == 1
    ensures IsMatrix(Kron(a, b), ra * rb, ca * cb)
    ensures forall j :: 0 <= j < ca * cb ==> ColSum(Kron(a, b), j) == 1
  {
    KronShape(a, ra, ca, b, rb, cb);
    forall j | 0 <= j < ca * cb ensures ColSum(Kron(a, b), j) == 1 {
      var j1, j2 := Split(j, ca, cb);
      ColSumKron(a, ra, ca, b, rb, cb, j1, j2);
    }
  }

  /** The entries of `np.kron(a, b)` are products of entries of the factors,
      so they are non-negative, or 0/1, when those of the factors are. */
  lemma {:induction false} KronEntries(a: IntMatrix, ra: nat, ca: nat, b: IntMatrix, rb: nat, cb: nat)
    requires IsMatrix(a, ra, ca) && IsMatrix(b, rb, cb)
    ensures IsMatrix(Kron(a, b), ra * rb, ca * cb)
    ensures (forall i, j :: 0 <= i < ra && 0 <= j < ca ==> a[i][j] >= 0) &&
            (forall i, j :: 0 <= i < rb && 0 <= j < cb ==> b[i][j] >= 0) ==>
            forall i, j :: 0 <= i < ra * rb && 0 <= j < ca * cb ==> Kron(a, b)[i][j] >= 0
    ensures ZeroOne(a) && ZeroOne(b) ==> ZeroOne(Kron(a, b))
  {
    var k := Kron(a, b);
    KronShape(a, ra, ca, b, rb, cb);
    if (forall i, j :: 0 <= i < ra && 0 <= j < ca ==> a[i][j] >= 0) &&
       (forall i, j :: 0 <= i < rb && 0 <= j < cb ==> b[i][j] >= 0) {
      forall i, j | 0 <= i < ra * rb && 0 <= j < ca * cb ensures k[i][j] >= 0 {
        var i1, i2 := Split(i, ra, rb);
        var j1, j2 := Split(j, ca, cb);
        KronEntry(a, ra, ca, b, rb, cb, i1, i2, j1, j2);
        NonNegProduct(a[i1][j1], b[i2][j2]);
      }
    }
    if ZeroOne(a) && ZeroOne(b) {
      forall i, j | 0 <= i < |k| && 0 <= j < |k[i]| ensures k[i][j] == 0 || k[i][j] == 1 {
        var i1, i2 := Split(i, ra, rb);
        var j1, j2 := Split(j, ca, cb);
        KronEntry(a, ra, ca, b, rb, cb, i1, i2, j1, j2);
      }
    }
  }

  /** The Kronecker product of column-stochastic maps is column-stochastic:
      this is why `np.kron(postmap3, postmap3)` is a valid postmap. */
  lemma {:induction false} KronColumnStochastic(a: IntMatrix, ra: nat, ca: nat, b: IntMatrix, rb: nat, cb: nat)
    requires ColumnStochastic(a, ra, ca) && ColumnStochastic(b, rb, cb)
    ensures ColumnStochastic(Kron(a, b), ra * rb, ca * cb)
  {
    KronColumnsSumToOne(a, ra, ca, b, rb, cb);
    KronEntries(a, ra, ca, b, rb, cb);
  }

  /** The product of two non-negative numbers is non-negative. */
  lemma NonNegProduct(x: int, y: int)
    requires x >= 0 && y >= 0
    ensures x * y >= 0
  {
  }

  /** The Kronecker product of deterministic maps is deterministic. */
  lemma {:induction false} KronOneHot(a: IntMatrix, ra: nat, ca: nat, b: IntMatrix, rb: nat, cb: nat)
    requires OneHotColumns(a, ra, ca) && OneHotColumns(b, rb, cb)
    ensures OneHotColumns(Kron(a, b), ra * rb, ca * cb)
  {
    KronColumnsSumToOne(a, ra, ca, b, rb, cb);
    KronEntries(a, ra, ca, b, rb, cb);
  }

  /** `np.kron(np.eye(p), np.eye(q)) == np.eye(p * q)`. */
  lemma {:induction false} KronIdentity(p: nat, q: nat)
    ensures Kron(Identity(p), Identity(q)) == Identity(p * q)
  {
    var k := Kron(Identity(p), Identity(q));
    var e := Identity(p * q);
    KronShape(Identity(p), p, p, Identity(q), q, q);
    forall i | 0 <= i < p * q ensures k[i] == e[i] {
      forall j | 0 <= j < p * q ensures k[i][j] == e[i][j] {
        var i1, i2 := Split(i, p, q);
        var j1, j2 := Split(j, p, q);
        KronEntry(Identity(p), p, p, Identity(q), q, q, i1, i2, j1, j2);
        SplitUnique(i1, i2, j1, j2, q);
      }
    }
  }

  // ---------------------------------------------------------------------
  // Binary expansions

  /** `2 ** n`. */
  function Pow2(n: nat): (p: nat)
    ensures p >= 1
  {
    if n == 0 then 1 else 2 * Pow2(n - 1)
  }

  /** `b ** n`. */
  function Pow(b: nat, n: nat): nat
  {
    if n == 0 then 1 else b * Pow(b, n - 1)
  }

  /** The `w` lowest binary digits of `x`, most significant first. For
      `x < 2 ** w` these are the digits of `np.binary_repr(x, width=w)`;
      numpy prints more than `w` digits for a larger `x`, which no caller
      passes. */
  function Bits(x: nat, w: nat): (bs: seq<nat>)
    ensures |bs| == w
    ensures forall k :: 0 <= k < w ==> bs[k] == 0 || bs[k] == 1
  {
    if w == 0 then [] else Bits(x / 2, w - 1) + [x % 2]
  }

  /** Reading a digit string back as a number, most significant digit first. */
  function FromBits(bs: seq<int>): int
  {
    if |bs| == 0 then 0 else 2 * FromBits(bs[..|bs| - 1]) + bs[|bs| - 1]
  }

  /** `Bits` is the binary representation: reading it back gives `x` for every
      `x < 2 ** w`, and the digit string of a number determines it. */
  lemma {:induction false} BitsRoundTrip(x: nat, w: nat)
    requires x < Pow2(w)
    ensures FromBits(Bits(x, w)) == x
  {
    if w > 0 {
      BitsRoundTrip(x / 2, w - 1);
      assert Bits(x, w)[..w - 1] == Bits(x / 2, w - 1);
    }
  }

  /** `sum(...)` of a list: the digits of a binary string, or the 0/1 flags
      of a block of columns. */
  function Sum(s: seq<int>): int
  {
    if |s| == 0 then 0 else Sum(s[..|s| - 1]) + s[|s| - 1]
  }

  /** The number of ones in the `w`-digit binary form of `x`. */
  function Popcount(x: nat, w: nat): (c: nat)
    ensures c <= w
  {
    if w == 0 then 0 else Popcount(x / 2, w - 1) + x % 2
  }

  /** Popcount is the digit sum of the binary form that `np.binary_repr` prints. */
  lemma {:induction false} PopcountIsDigitSum(x: nat, w: nat)
    ensures Popcount(x, w) == Sum(Bits(x, w))
  {
    if w > 0 {
      PopcountIsDigitSum(x / 2, w - 1);
      assert Bits(x, w)[..w - 1] == Bits(x / 2, w - 1);
    }
  }

  /** The parity assignment on `2 ** n` columns: column `i` goes to row
      `popcount(i) mod 2`. */
  function ParityAssignment(n: nat): (f: seq<nat>)
    ensures |f| == Pow2(n) && InRange(2, f)
  {
    seq(Pow2(n), i requires 0 <= i => Popcount(i, n) % 2)
  }

  /** The logical-and assignment on `2 ** n` columns: only the last column, whose
      digits are all one, goes to row 1. */
  function AndAssignment(n: nat): (f: seq<nat>)
    ensures |f| == Pow2(n) && InRange(2, f)
  {
    seq(Pow2(n), i => if i == Pow2(n) - 1 then 1 else 0)
  }

  /** The all-ones column is the only one whose digits are all one. */
  lemma {:induction false} AllOnes(x: nat, w: nat)
    requires x < Pow2(w)
    ensures Popcount(x, w) == w <==> x == Pow2(w) - 1
  {
    if w > 0 {
      AllOnes(x / 2, w - 1);
    }
  }

  /** `np.append(m, np.zeros((rows, 1)), axis=1)`: one extra all-zero column. */
  function AppendZeroColumn(m: IntMatrix): (r: IntMatrix)
    ensures |r| == |m|
    ensures forall i :: 0 <= i < |m| ==> |r[i]| == |m[i]| + 1 && r[i][..|m[i]|] == m[i] && r[i][|m[i]|] == 0
  {
    seq(|m|, i requires 0 <= i < |m| => m[i] + [0])
  }

  // ---------------------------------------------------------------------
  // Column indices of nested loops

  /** The blocks laid end to end: what a running `col_id` visits when an
      outer loop runs over the blocks and an inner loop over each block. */
  function Concat(blocks: seq<seq<nat>>): seq<nat>
  {
    if |blocks| == 0 then [] else Concat(blocks[..|blocks| - 1]) + blocks[|blocks| - 1]
  }

  /** With blocks of a common length `w`, entry `j` of block `i` sits at
      position `i * w + j`, and there are `|blocks| * w` positions. */
  lemma {:induction false} ConcatIndex(blocks: seq<seq<nat>>, w: nat, i: nat, j: nat)
    requires forall k :: 0 <= k < |blocks| ==> |blocks[k]| == w
    requires i < |blocks| && j < w
    ensures |Concat(blocks)| == |blocks| * w
    ensures i * w + j < |Concat(blocks)| && Concat(blocks)[i * w + j] == blocks[i][j]
  {
    ConcatLength(blocks, w);
    var n := |blocks|;
    var init := blocks[..n - 1];
    ConcatLength(init, w);
    MulMono(n - 1, n - 1, w);
    if i < n - 1 {
      ConcatIndex(init, w, i, j);
      IndexBound(i, j, n - 1, w);
    }
  }

  /** The length of the concatenation of blocks of a common length. */
  lemma {:induction false} ConcatLength(blocks: seq<seq<nat>>, w: nat)
    requires forall k :: 0 <= k < |blocks| ==> |blocks[k]| == w
    ensures |Concat(blocks)| == |blocks| * w
  {
    if |blocks| > 0 {
      ConcatLength(blocks[..|blocks| - 1], w);
      MulMono(|blocks| - 1, |blocks| - 1, w);
    }
  }
}
