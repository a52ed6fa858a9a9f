/** The smaller network scripts: the qubit interference network, whose
    6-row inequality is scored through `np.kron(postmap3, postmap2)`, the
    44-22 butterfly network, whose double random-access-coding game and facet
    are scored through `np.kron(np.eye(2), np.eye(2))`. */
module NetworkScripts {
  import opened Matrices
  import opened Postmaps
  import opened Harness

  // ---------------------------------------------------------------------
  // Qubit interference

  /** `inequalities2[0]`, the inequality the qubit interference loop runs. */
  const QubitInterferenceInequality: Inequality :=
    Inequality(14, [
      [3, 0, 1, 0, 0, 1, 0, 1, 2],
      [0, 3, 0, 2, 1, 0, 0, 1, 2],
      [0, 0, 4, 0, 2, 0, 2, 0, 0],
      [2, 1, 2, 0, 1, 2, 0, 2, 0],
      [2, 2, 2, 1, 1, 0, 0, 0, 2],
      [2, 2, 3, 1, 1, 1, 1, 1, 1]
    ])

  /** The inequality has six rows, as many as `np.kron(postmap3, postmap2)`,
      which is a column-stochastic postmap over eight outcomes, and nine
      columns, one per pair of three-valued inputs. */
  lemma QubitInterferenceAgrees()
    ensures IsMatrix(QubitInterferenceInequality.game, 6, 9)
    ensures |QubitInterferenceInequality.game| == |Kron(MergeLastTwo, QubitIdentity)|
    ensures ColumnStochastic(Kron(MergeLastTwo, QubitIdentity), 6, 8)
  {
    MergeLastTwoTimesQubit();
  }

  // ---------------------------------------------------------------------
  // Butterfly 44-22

  /** `butterfly_game_inequalities[0]`, the double random-access-coding game,
      and `butterfly_facet_inequalities[0]`. */
  const DoubleRacGame: Inequality :=
    Inequality(13, [
      [1, 1, 0, 0, 1, 1, 0, 0, 0, 0, 1, 0, 0, 0, 0, 0],
      [0, 0, 1, 1, 0, 0, 0, 0, 0, 0, 0, 1, 0, 0, 0, 0],
      [0, 0, 0, 0, 0, 0, 0, 0, 1, 0, 0, 0, 1, 0, 1, 0],
      [0, 0, 0, 0, 0, 0, 1, 1, 0, 1, 0, 0, 0, 1, 0, 1]
    ])
  const DoubleRacFacet: Inequality :=
    Inequality(71, [
      [3, 2, 0, 0, 4, 4, 7, 3, 0, 2, 4, 0, 0, 0, 0, 6],
      [2, 0, 6, 8, 0, 2, 0, 0, 0, 1, 0, 8, 0, 2, 2, 0],
      [0, 0, 0, 6, 2, 0, 8, 7, 6, 0, 2, 2, 4, 0, 4, 0],
      [6, 1, 2, 8, 5, 1, 10, 10, 4, 2, 4, 4, 4, 2, 2, 0]
    ])

  /** The row each column of the double random-access-coding game rewards. */
  const DoubleRacAssignment: seq<nat> := [0, 0, 1, 1, 0, 0, 3, 3, 2, 3, 0, 1, 2, 3, 2, 3]

  /** Every column of the game has exactly one 1, in the row the assignment
      names, and no other entry. */
  lemma DoubleRacOneHot()
    ensures DoubleRacGame.game == FromAssignment(4, DoubleRacAssignment)
    ensures OneHotColumns(DoubleRacGame.game, 4, 16)
  {
    var m := FromAssignment(4, DoubleRacAssignment);
    forall i | 0 <= i < 4 ensures DoubleRacGame.game[i] == m[i] { assert |m[i]| == 16; }
    Deterministic(DoubleRacGame.game, 4, DoubleRacAssignment);
  }

  /** Game and facet are 4 x 16: four rows, the rows of
      `np.kron(np.eye(2), np.eye(2))`, which is the 4 x 4 identity, and one
      column per pair of four-valued inputs of the two senders. */
  lemma Butterfly44Agrees()
    ensures IsMatrix(DoubleRacGame.game, 4, 4 * 4) && IsMatrix(DoubleRacFacet.game, 4, 4 * 4)
    ensures Kron(Identity(2), Identity(2)) == Identity(4)
    ensures ColumnStochastic(Kron(Identity(2), Identity(2)), 4, 4)
  {
    DoubleRacOneHot();
    SquareOfQubitIdentity();
  }
}
