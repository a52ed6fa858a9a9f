/** The inequality and postmap data of the broadcast scripts: the 3-22-33 and
    4-22-44 broadcast scripts, the bipartite broadcast script with its lifted
    inequality, and the single-run bipartite broadcast script. */
module BroadcastScripts {
  import opened OptDicts
  import opened Matrices
  import opened Postmaps
  import opened Harness

  /** `lifted_inequality = (inequality[0], np.append(inequality[1],
      np.zeros((9, 1)), axis=1))`: the bound is kept and one all-zero column is
      appended; `np.append` raises unless the game has nine rows. */
  function Lift(q: Inequality): (l: Outcome<Inequality>)
    ensures l.Ok? <==> |q.game| == 9
    ensures l.Ok? ==> l.value.bound == q.bound && |l.value.game| == 9
    ensures l.Ok? ==> forall i :: 0 <= i < 9 ==>
      |l.value.game[i]| == |q.game[i]| + 1
      && l.value.game[i][..|q.game[i]|] == q.game[i]
      && l.value.game[i][|q.game[i]|] == 0
  {
    if |q.game| == 9 then Ok(Inequality(q.bound, AppendZeroColumn(q.game))) else Raised
  }

  /** Lifting a 9 x c inequality gives a 9 x (c + 1) one, whose nine rows match
      the rows of `povm_postmap`, a column-stochastic 9 x 16 postmap; the
      projector postmap is a column-stochastic 9 x 4 one. */
  lemma BipartiteBroadcastAgrees(q: Inequality, c: nat)
    requires IsMatrix(q.game, 9, c)
    ensures Lift(q).Ok? && IsMatrix(Lift(q).value.game, 9, c + 1)
    ensures |Lift(q).value.game| == |Kron(PovmPostmap, PovmPostmap)|
    ensures ColumnStochastic(Kron(PovmPostmap, PovmPostmap), 9, 16)
    ensures ColumnStochastic(Kron(ProjectorPostmap, ProjectorPostmap), 9, 4)
  {
    SquareOfPovm();
    SquareOfProjector();
  }

  /** The witness of the single-run bipartite broadcast script. */
  const SingleRunInequality: Inequality := Inequality(8, [
    [3, 0, 0, 0],
    [0, 3, 0, 0],
    [0, 0, 0, 3],
    [1, 1, 0, 2],
    [1, 1, 0, 2],
    [1, 1, 0, 2],
    [2, 1, 0, 2],
    [1, 3, 0, 2],
    [1, 0, 2, 0],
    [0, 1, 2, 0],
    [0, 0, 0, 3],
    [1, 1, 0, 2],
    [2, 1, 0, 2],
    [1, 2, 0, 2],
    [1, 1, 1, 2],
    [2, 2, 1, 2]
  ])

  /** The 16 x 4 witness has as many rows as `np.eye(16)`, its postmap, which is
      column-stochastic. */
  lemma SingleRunAgrees()
    ensures IsMatrix(SingleRunInequality.game, 16, 4)
    ensures ColumnStochastic(Identity(16), 16, 16)
  {
    IdentityOneHot(16);
  }
}
