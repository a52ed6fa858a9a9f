/** The nine-outcome games of the 33-33 network scripts (broadcast, butterfly
    and interference): each script holds a table of eight game inequalities
    and a table of eight facet inequalities, all 9 x 9, indexed by the same
    loop variable as the eight game names, and scores them through the
    Kronecker square of a three-outcome postmap, which has nine rows. */
module NineOutcomeGames {
  import opened Matrices
  import opened Postmaps
  import opened Harness

  /** `game_names`, shared by the three scripts. */
  const GameNames: seq<string> := ["mult0", "mult1", "swap", "adder", "compare", "perm", "diff", "cv"]

  /** Every game matrix of the table has shape `(r, c)`. */
  predicate TableShape(table: seq<Inequality>, r: nat, c: nat)
  {
    forall i :: 0 <= i < |table| ==> IsMatrix(table[i].game, r, c)
  }

  /** `bc_game_inequalities` of the broadcast script. */
  const BroadcastGames: seq<Inequality> := [
    Inequality(7, [
      [1, 1, 1, 1, 0, 0, 1, 0, 0],
      [0, 0, 0, 0, 1, 0, 0, 0, 0],
      [0, 0, 0, 0, 0, 1, 0, 1, 0],
      [0, 0, 0, 0, 0, 0, 0, 0, 0],
      [0, 0, 0, 0, 0, 0, 0, 0, 1],
      [0, 0, 0, 0, 0, 0, 0, 0, 0],
      [0, 0, 0, 0, 0, 0, 0, 0, 0],
      [0, 0, 0, 0, 0, 0, 0, 0, 0],
      [0, 0, 0, 0, 0, 0, 0, 0, 0]
    ]),
    Inequality(6, [
      [1, 0, 0, 0, 0, 0, 0, 0, 0],
      [0, 1, 0, 1, 0, 0, 0, 0, 0],
      [0, 0, 1, 0, 0, 0, 1, 0, 0],
      [0, 0, 0, 0, 1, 0, 0, 0, 0],
      [0, 0, 0, 0, 0, 0, 0, 0, 0],
      [0, 0, 0, 0, 0, 1, 0, 1, 0],
      [0, 0, 0, 0, 0, 0, 0, 0, 0],
      [0, 0, 0, 0, 0, 0, 0, 0, 0],
      [0, 0, 0, 0, 0, 0, 0, 0, 1]
    ]),
    Inequality(4, [
      [1, 0, 0, 0, 0, 0, 0, 0, 0],
      [0, 0, 0, 1, 0, 0, 0, 0, 0],
      [0, 0, 0, 0, 0, 0, 1, 0, 0],
      [0, 1, 0, 0, 0, 0, 0, 0, 0],
      [0, 0, 0, 0, 1, 0, 0, 0, 0],
      [0, 0, 0, 0, 0, 0, 0, 1, 0],
      [0, 0, 1, 0, 0, 0, 0, 0, 0],
      [0, 0, 0, 0, 0, 1, 0, 0, 0],
      [0, 0, 0, 0, 0, 0, 0, 0, 1]
    ]),
    Inequality(6, [
      [1, 0, 0, 0, 0, 0, 0, 0, 0],
      [0, 1, 0, 1, 0, 0, 0, 0, 0],
      [0, 0, 1, 0, 1, 0, 1, 0, 0],
      [0, 0, 0, 0, 0, 1, 0, 1, 0],
      [0, 0, 0, 0, 0, 0, 0, 0, 1],
      [0, 0, 0, 0, 0, 0, 0, 0, 0],
      [0, 0, 0, 0, 0, 0, 0, 0, 0],
      [0, 0, 0, 0, 0, 0, 0, 0, 0],
      [0, 0, 0, 0, 0, 0, 0, 0, 0]
    ]),
    Inequality(6, [
      [1, 0, 0, 0, 1, 0, 0, 0, 1],
      [0, 0, 0, 0, 0, 0, 0, 0, 0],
      [0, 0, 0, 0, 0, 0, 0, 0, 0],
      [0, 0, 0, 0, 0, 0, 0, 0, 0],
      [0, 0, 0, 0, 0, 0, 0, 0, 0],
      [0, 1, 1, 0, 0, 1, 0, 0, 0],
      [0, 0, 0, 0, 0, 0, 0, 0, 0],
      [0, 0, 0, 1, 0, 0, 1, 1, 0],
      [0, 0, 0, 0, 0, 0, 0, 0, 0]
    ]),
    Inequality(4, [
      [1, 0, 0, 0, 0, 0, 0, 0, 0],
      [0, 1, 0, 0, 0, 0, 0, 0, 0],
      [0, 0, 1, 0, 0, 0, 0, 0, 0],
      [0, 0, 0, 0, 1, 0, 0, 0, 0],
      [0, 0, 0, 0, 0, 1, 0, 0, 0],
      [0, 0, 0, 1, 0, 0, 0, 0, 0],
      [0, 0, 0, 0, 0, 0, 0, 0, 1],
      [0, 0, 0, 0, 0, 0, 1, 0, 0],
      [0, 0, 0, 0, 0, 0, 0, 1, 0]
    ]),
    Inequality(7, [
      [1, 0, 0, 0, 1, 0, 0, 0, 1],
      [0, 0, 0, 0, 0, 0, 0, 0, 0],
      [0, 0, 0, 0, 0, 0, 0, 0, 0],
      [0, 0, 0, 0, 0, 0, 0, 0, 0],
      [0, 1, 0, 1, 0, 1, 0, 1, 0],
      [0, 0, 0, 0, 0, 0, 0, 0, 0],
      [0, 0, 0, 0, 0, 0, 0, 0, 0],
      [0, 0, 0, 0, 0, 0, 0, 0, 0],
      [0, 0, 1, 0, 0, 0, 1, 0, 0]
    ]),
    Inequality(4, Identity(9))
  ]

  /** `bc_facet_inequalities` of the broadcast script. */
  const BroadcastFacets: seq<Inequality> := [
    Inequality(5, [
      [1, 0, 0, 1, 0, 0, 0, 0, 0],
      [0, 0, 0, 0, 2, 0, 0, 0, 0],
      [0, 0, 0, 0, 0, 2, 0, 0, 0],
      [1, 0, 0, 0, 0, 0, 0, 0, 1],
      [0, 0, 0, 0, 1, 0, 0, 0, 1],
      [0, 0, 0, 0, 0, 2, 0, 0, 1],
      [1, 0, 0, 0, 1, 1, 0, 0, 0],
      [1, 0, 0, 0, 1, 1, 0, 0, 0],
      [1, 0, 0, 0, 1, 2, 0, 0, 0]
    ]),
    Inequality(5, [
      [2, 0, 0, 0, 0, 0, 0, 0, 0],
      [0, 2, 0, 0, 0, 0, 0, 0, 0],
      [0, 0, 2, 0, 0, 0, 0, 0, 0],
      [1, 0, 0, 0, 0, 1, 0, 0, 0],
      [0, 1, 0, 0, 0, 1, 0, 0, 0],
      [0, 0, 2, 0, 0, 1, 0, 0, 0],
      [1, 1, 1, 0, 0, 0, 0, 0, 0],
      [1, 1, 1, 0, 0, 0, 0, 0, 0],
      [1, 1, 2, 0, 0, 0, 0, 0, 0]
    ]),
    Inequality(6, [
      [2, 0, 0, 0, 0, 0, 0, 0, 0],
      [1, 0, 0, 1, 0, 0, 0, 0, 0],
      [1, 1, 2, 0, 0, 0, 0, 0, 0],
      [0, 2, 0, 0, 0, 0, 0, 0, 0],
      [0, 1, 0, 0, 1, 0, 0, 0, 0],
      [1, 1, 2, 0, 0, 0, 0, 0, 0],
      [0, 0, 3, 0, 0, 0, 0, 0, 0],
      [0, 0, 3, 0, 0, 0, 0, 0, 0],
      [1, 1, 3, 0, 0, 0, 0, 0, 0]
    ]),
    Inequality(6, [
      [2, 0, 0, 0, 0, 0, 0, 0, 0],
      [0, 1, 0, 1, 0, 0, 0, 0, 0],
      [0, 0, 3, 0, 0, 0, 0, 0, 0],
      [1, 0, 0, 0, 0, 1, 0, 0, 0],
      [0, 1, 0, 0, 0, 0, 0, 0, 1],
      [0, 0, 3, 0, 0, 0, 0, 0, 0],
      [1, 1, 2, 0, 0, 0, 0, 0, 0],
      [1, 1, 2, 0, 0, 0, 0, 0, 0],
      [1, 1, 3, 0, 0, 0, 0, 0, 0]
    ]),
    Inequality(4, [
      [1, 0, 0, 0, 0, 0, 0, 0, 0],
      [0, 0, 0, 2, 0, 0, 0, 0, 0],
      [0, 2, 0, 0, 0, 0, 0, 0, 0],
      [0, 0, 0, 0, 0, 0, 0, 0, 1],
      [0, 0, 0, 2, 0, 0, 0, 0, 0],
      [0, 2, 0, 0, 0, 0, 0, 0, 0],
      [0, 1, 0, 1, 0, 0, 0, 0, 0],
      [0, 1, 0, 2, 0, 0, 0, 0, 0],
      [0, 2, 0, 1, 0, 0, 0, 0, 0]
    ]),
    Inequality(6, [
      [2, 0, 0, 0, 0, 0, 0, 0, 0],
      [0, 2, 0, 0, 0, 0, 0, 0, 0],
      [0, 0, 3, 0, 0, 0, 0, 0, 0],
      [1, 0, 0, 0, 1, 0, 0, 0, 0],
      [0, 1, 0, 0, 0, 1, 0, 0, 0],
      [0, 0, 3, 0, 0, 0, 0, 0, 0],
      [1, 1, 2, 0, 0, 0, 0, 0, 0],
      [1, 1, 2, 0, 0, 0, 0, 0, 0],
      [1, 1, 3, 0, 0, 0, 0, 0, 0]
    ]),
    Inequality(5, [
      [1, 0, 0, 0, 1, 0, 0, 0, 0],
      [0, 0, 0, 0, 0, 0, 0, 0, 1],
      [0, 0, 2, 0, 0, 0, 0, 0, 0],
      [0, 0, 0, 0, 0, 0, 0, 0, 1],
      [0, 2, 0, 0, 0, 0, 0, 0, 0],
      [0, 0, 2, 0, 0, 0, 0, 0, 0],
      [0, 0, 2, 0, 0, 0, 0, 0, 0],
      [0, 0, 2, 0, 0, 0, 0, 0, 0],
      [1, 1, 2, 0, 0, 0, 0, 0, 0]
    ]),
    Inequality(6, [
      [2, 0, 0, 0, 0, 0, 0, 0, 0],
      [0, 2, 0, 0, 0, 0, 0, 0, 0],
      [0, 0, 3, 0, 0, 0, 0, 0, 0],
      [1, 0, 0, 1, 0, 0, 0, 0, 0],
      [0, 1, 0, 0, 1, 0, 0, 0, 0],
      [0, 0, 3, 0, 0, 0, 0, 0, 0],
      [1, 1, 2, 0, 0, 0, 0, 0, 0],
      [1, 1, 2, 0, 0, 0, 0, 0, 0],
      [1, 1, 3, 0, 0, 0, 0, 0, 0]
    ])
  ]

  /** `butterfly_game_inequalities`. */
  const ButterflyGames: seq<Inequality> := [
    Inequality(7, [
      [1, 1, 1, 1, 0, 0, 1, 0, 0],
      [0, 0, 0, 0, 1, 0, 0, 0, 0],
      [0, 0, 0, 0, 0, 1, 0, 1, 0],
      [0, 0, 0, 0, 0, 0, 0, 0, 0],
      [0, 0, 0, 0, 0, 0, 0, 0, 1],
      [0, 0, 0, 0, 0, 0, 0, 0, 0],
      [0, 0, 0, 0, 0, 0, 0, 0, 0],
      [0, 0, 0, 0, 0, 0, 0, 0, 0],
      [0, 0, 0, 0, 0, 0, 0, 0, 0]
    ]),
    Inequality(6, [
      [1, 0, 0, 0, 0, 0, 0, 0, 0],
      [0, 1, 0, 1, 0, 0, 0, 0, 0],
      [0, 0, 1, 0, 0, 0, 1, 0, 0],
      [0, 0, 0, 0, 1, 0, 0, 0, 0],
      [0, 0, 0, 0, 0, 0, 0, 0, 0],
      [0, 0, 0, 0, 0, 1, 0, 1, 0],
      [0, 0, 0, 0, 0, 0, 0, 0, 0],
      [0, 0, 0, 0, 0, 0, 0, 0, 0],
      [0, 0, 0, 0, 0, 0, 0, 0, 1]
    ]),
    Inequality(4, [
      [1, 0, 0, 0, 0, 0, 0, 0, 0],
      [0, 0, 0, 1, 0, 0, 0, 0, 0],
      [0, 0, 0, 0, 0, 0, 1, 0, 0],
      [0, 1, 0, 0, 0, 0, 0, 0, 0],
      [0, 0, 0, 0, 1, 0, 0, 0, 0],
      [0, 0, 0, 0, 0, 0, 0, 1, 0],
      [0, 0, 1, 0, 0, 0, 0, 0, 0],
      [0, 0, 0, 0, 0, 1, 0, 0, 0],
      [0, 0, 0, 0, 0, 0, 0, 0, 1]
    ]),
    Inequality(6, [
      [1, 0, 0, 0, 0, 0, 0, 0, 0],
      [0, 1, 0, 1, 0, 0, 0, 0, 0],
      [0, 0, 1, 0, 1, 0, 1, 0, 0],
      [0, 0, 0, 0, 0, 1, 0, 1, 0],
      [0, 0, 0, 0, 0, 0, 0, 0, 1],
      [0, 0, 0, 0, 0, 0, 0, 0, 0],
      [0, 0, 0, 0, 0, 0, 0, 0, 0],
      [0, 0, 0, 0, 0, 0, 0, 0, 0],
      [0, 0, 0, 0, 0, 0, 0, 0, 0]
    ]),
    Inequality(7, [
      [1, 0, 0, 0, 1, 0, 0, 0, 1],
      [0, 0, 0, 0, 0, 0, 0, 0, 0],
      [0, 0, 0, 0, 0, 0, 0, 0, 0],
      [0, 0, 0, 0, 0, 0, 0, 0, 0],
      [0, 0, 0, 0, 0, 0, 0, 0, 0],
      [0, 1, 1, 0, 0, 1, 0, 0, 0],
      [0, 0, 0, 0, 0, 0, 0, 0, 0],
      [0, 0, 0, 1, 0, 0, 1, 1, 0],
      [0, 0, 0, 0, 0, 0, 0, 0, 0]
    ]),
    Inequality(6, [
      [1, 0, 0, 0, 0, 0, 0, 0, 0],
      [0, 1, 0, 0, 0, 0, 0, 0, 0],
      [0, 0, 1, 0, 0, 0, 0, 0, 0],
      [0, 0, 0, 0, 1, 0, 0, 0, 0],
      [0, 0, 0, 0, 0, 1, 0, 0, 0],
      [0, 0, 0, 1, 0, 0, 0, 0, 0],
      [0, 0, 0, 0, 0, 0, 0, 0, 1],
      [0, 0, 0, 0, 0, 0, 1, 0, 0],
      [0, 0, 0, 0, 0, 0, 0, 1, 0]
    ]),
    Inequality(6, [
      [1, 0, 0, 0, 1, 0, 0, 0, 1],
      [0, 0, 0, 0, 0, 0, 0, 0, 0],
      [0, 0, 0, 0, 0, 0, 0, 0, 0],
      [0, 0, 0, 0, 0, 0, 0, 0, 0],
      [0, 1, 0, 1, 0, 1, 0, 1, 0],
      [0, 0, 0, 0, 0, 0, 0, 0, 0],
      [0, 0, 0, 0, 0, 0, 0, 0, 0],
      [0, 0, 0, 0, 0, 0, 0, 0, 0],
      [0, 0, 1, 0, 0, 0, 1, 0, 0]
    ]),
    Inequality(7, Identity(9))
  ]

  /** `butterfly_facet_inequalities`. */
  const ButterflyFacets: seq<Inequality> := [
    Inequality(11, [
      [1, 3, 1, 1, 0, 0, 1, 0, 0],
      [0, 0, 0, 1, 2, 0, 1, 0, 1],
      [0, 1, 0, 0, 0, 1, 0, 2, 0],
      [0, 2, 1, 0, 1, 1, 0, 1, 1],
      [0, 1, 0, 1, 2, 0, 0, 0, 2],
      [0, 2, 1, 1, 1, 1, 0, 1, 1],
      [0, 2, 1, 0, 1, 1, 0, 1, 1],
      [0, 0, 0, 1, 1, 0, 1, 0, 1],
      [1, 2, 1, 1, 1, 1, 1, 1, 1]
    ]),
    Inequality(11, [
      [2, 0, 1, 1, 0, 0, 0, 0, 0],
      [0, 1, 1, 3, 0, 0, 0, 0, 0],
      [0, 0, 1, 1, 0, 0, 2, 0, 0],
      [1, 0, 1, 0, 1, 1, 0, 1, 0],
      [0, 1, 1, 1, 0, 2, 0, 1, 0],
      [0, 0, 1, 1, 0, 2, 0, 2, 0],
      [1, 1, 1, 1, 1, 1, 0, 0, 1],
      [0, 1, 0, 2, 1, 1, 1, 0, 1],
      [1, 1, 1, 2, 1, 1, 1, 1, 1]
    ]),
    Inequality(12, [
      [2, 0, 1, 0, 0, 1, 0, 1, 0],
      [0, 0, 1, 2, 0, 1, 0, 1, 0],
      [1, 0, 1, 1, 1, 1, 1, 1, 1],
      [0, 2, 0, 0, 0, 1, 1, 0, 0],
      [0, 0, 1, 0, 2, 0, 1, 0, 0],
      [0, 1, 1, 1, 1, 1, 0, 1, 1],
      [0, 0, 3, 0, 0, 2, 0, 1, 0],
      [0, 0, 2, 0, 0, 3, 0, 1, 0],
      [1, 1, 2, 1, 1, 2, 1, 1, 1]
    ]),
    Inequality(10, [
      [1, 0, 1, 0, 1, 1, 1, 1, 0],
      [0, 2, 0, 1, 0, 0, 0, 0, 2],
      [1, 1, 2, 0, 1, 1, 1, 1, 1],
      [0, 1, 1, 0, 0, 2, 1, 1, 0],
      [0, 1, 0, 0, 0, 0, 0, 0, 2],
      [0, 1, 2, 0, 0, 1, 1, 1, 1],
      [1, 0, 1, 0, 1, 1, 1, 1, 1],
      [0, 1, 0, 1, 0, 0, 0, 0, 2],
      [1, 1, 2, 0, 1, 1, 1, 1, 1]
    ]),
    Inequality(14, [
      [3, 0, 0, 0, 2, 0, 1, 0, 1],
      [2, 1, 0, 0, 1, 0, 1, 1, 1],
      [2, 1, 1, 0, 0, 1, 0, 1, 0],
      [1, 1, 2, 0, 0, 2, 0, 1, 1],
      [0, 2, 2, 0, 0, 2, 0, 1, 1],
      [0, 3, 2, 0, 0, 3, 0, 0, 0],
      [1, 1, 2, 0, 1, 1, 1, 1, 0],
      [1, 2, 2, 1, 1, 1, 1, 1, 0],
      [2, 2, 3, 1, 1, 2, 1, 1, 0]
    ]),
    Inequality(20, [
      [2, 1, 0, 1, 3, 0, 1, 1, 2],
      [1, 5, 2, 0, 0, 2, 1, 1, 0],
      [0, 3, 3, 1, 3, 3, 0, 2, 0],
      [1, 2, 0, 1, 4, 0, 1, 0, 2],
      [0, 3, 1, 1, 1, 3, 1, 1, 0],
      [0, 3, 3, 2, 1, 2, 0, 1, 0],
      [1, 0, 0, 1, 3, 0, 1, 1, 1],
      [0, 3, 1, 0, 0, 2, 2, 1, 1],
      [2, 3, 3, 1, 3, 3, 1, 2, 0]
    ]),
    Inequality(12, [
      [3, 0, 0, 0, 2, 0, 0, 1, 1],
      [1, 0, 0, 1, 1, 0, 0, 1, 1],
      [2, 0, 0, 0, 1, 0, 0, 0, 1],
      [2, 0, 1, 0, 0, 2, 0, 1, 0],
      [1, 0, 1, 2, 0, 1, 0, 2, 0],
      [2, 1, 1, 1, 1, 2, 0, 1, 0],
      [1, 0, 0, 0, 0, 1, 0, 1, 1],
      [0, 0, 1, 1, 0, 2, 0, 1, 1],
      [2, 1, 2, 1, 1, 2, 1, 1, 0]
    ]),
    Inequality(18, [
      [3, 0, 1, 0, 3, 1, 0, 0, 0],
      [1, 3, 0, 0, 3, 1, 0, 0, 0],
      [0, 0, 3, 0, 4, 1, 0, 0, 1],
      [1, 0, 1, 3, 2, 1, 0, 0, 0],
      [3, 1, 1, 1, 3, 0, 0, 0, 0],
      [3, 1, 2, 0, 0, 2, 0, 0, 1],
      [0, 0, 1, 0, 3, 1, 2, 1, 1],
      [2, 0, 1, 0, 0, 1, 2, 1, 1],
      [4, 1, 2, 1, 4, 1, 1, 0, 0]
    ])
  ]

  /** `interference_game_inequalities`. */
  const InterferenceGames: seq<Inequality> := [
    Inequality(7, [
      [1, 1, 1, 1, 0, 0, 1, 0, 0],
      [0, 0, 0, 0, 1, 0, 0, 0, 0],
      [0, 0, 0, 0, 0, 1, 0, 1, 0],
      [0, 0, 0, 0, 0, 0, 0, 0, 0],
      [0, 0, 0, 0, 0, 0, 0, 0, 1],
      [0, 0, 0, 0, 0, 0, 0, 0, 0],
      [0, 0, 0, 0, 0, 0, 0, 0, 0],
      [0, 0, 0, 0, 0, 0, 0, 0, 0],
      [0, 0, 0, 0, 0, 0, 0, 0, 0]
    ]),
    Inequality(4, [
      [1, 0, 0, 0, 0, 0, 0, 0, 0],
      [0, 1, 0, 1, 0, 0, 0, 0, 0],
      [0, 0, 1, 0, 0, 0, 1, 0, 0],
      [0, 0, 0, 0, 1, 0, 0, 0, 0],
      [0, 0, 0, 0, 0, 0, 0, 0, 0],
      [0, 0, 0, 0, 0, 1, 0, 1, 0],
      [0, 0, 0, 0, 0, 0, 0, 0, 0],
      [0, 0, 0, 0, 0, 0, 0, 0, 0],
      [0, 0, 0, 0, 0, 0, 0, 0, 1]
    ]),
    Inequality(2, [
      [1, 0, 0, 0, 0, 0, 0, 0, 0],
      [0, 0, 0, 1, 0, 0, 0, 0, 0],
      [0, 0, 0, 0, 0, 0, 1, 0, 0],
      [0, 1, 0, 0, 0, 0, 0, 0, 0],
      [0, 0, 0, 0, 1, 0, 0, 0, 0],
      [0, 0, 0, 0, 0, 0, 0, 1, 0],
      [0, 0, 1, 0, 0, 0, 0, 0, 0],
      [0, 0, 0, 0, 0, 1, 0, 0, 0],
      [0, 0, 0, 0, 0, 0, 0, 0, 1]
    ]),
    Inequality(5, [
      [1, 0, 0, 0, 0, 0, 0, 0, 0],
      [0, 1, 0, 1, 0, 0, 0, 0, 0],
      [0, 0, 1, 0, 1, 0, 1, 0, 0],
      [0, 0, 0, 0, 0, 1, 0, 1, 0],
      [0, 0, 0, 0, 0, 0, 0, 0, 1],
      [0, 0, 0, 0, 0, 0, 0, 0, 0],
      [0, 0, 0, 0, 0, 0, 0, 0, 0],
      [0, 0, 0, 0, 0, 0, 0, 0, 0],
      [0, 0, 0, 0, 0, 0, 0, 0, 0]
    ]),
    Inequality(6, [
      [1, 0, 0, 0, 1, 0, 0, 0, 1],
      [0, 0, 0, 0, 0, 0, 0, 0, 0],
      [0, 0, 0, 0, 0, 0, 0, 0, 0],
      [0, 0, 0, 0, 0, 0, 0, 0, 0],
      [0, 0, 0, 0, 0, 0, 0, 0, 0],
      [0, 1, 1, 0, 0, 1, 0, 0, 0],
      [0, 0, 0, 0, 0, 0, 0, 0, 0],
      [0, 0, 0, 1, 0, 0, 1, 1, 0],
      [0, 0, 0, 0, 0, 0, 0, 0, 0]
    ]),
    Inequality(2, [
      [1, 0, 0, 0, 0, 0, 0, 0, 0],
      [0, 1, 0, 0, 0, 0, 0, 0, 0],
      [0, 0, 1, 0, 0, 0, 0, 0, 0],
      [0, 0, 0, 0, 1, 0, 0, 0, 0],
      [0, 0, 0, 0, 0, 1, 0, 0, 0],
      [0, 0, 0, 1, 0, 0, 0, 0, 0],
      [0, 0, 0, 0, 0, 0, 0, 0, 1],
      [0, 0, 0, 0, 0, 0, 1, 0, 0],
      [0, 0, 0, 0, 0, 0, 0, 1, 0]
    ]),
    Inequality(7, [
      [1, 0, 0, 0, 1, 0, 0, 0, 1],
      [0, 0, 0, 0, 0, 0, 0, 0, 0],
      [0, 0, 0, 0, 0, 0, 0, 0, 0],
      [0, 0, 0, 0, 0, 0, 0, 0, 0],
      [0, 1, 0, 1, 0, 1, 0, 1, 0],
      [0, 0, 0, 0, 0, 0, 0, 0, 0],
      [0, 0, 0, 0, 0, 0, 0, 0, 0],
      [0, 0, 0, 0, 0, 0, 0, 0, 0],
      [0, 0, 1, 0, 0, 0, 1, 0, 0]
    ]),
    Inequality(2, Identity(9))
  ]

  /** `interference_facet_inequalities`. */
  const InterferenceFacets: seq<Inequality> := [
    Inequality(12, [
      [1, 2, 2, 1, 0, 0, 0, 0, 1],
      [0, 0, 1, 0, 3, 0, 1, 2, 1],
      [0, 0, 0, 0, 0, 3, 1, 3, 0],
      [0, 1, 2, 0, 1, 2, 1, 2, 1],
      [0, 1, 2, 0, 1, 2, 1, 2, 1],
      [0, 1, 2, 0, 1, 2, 1, 2, 1],
      [0, 1, 2, 0, 1, 2, 1, 2, 1],
      [0, 1, 2, 0, 1, 2, 1, 2, 1],
      [1, 1, 2, 0, 2, 2, 1, 2, 0]
    ]),
    Inequality(13, [
      [4, 0, 1, 1, 0, 2, 0, 0, 1],
      [1, 3, 0, 3, 0, 0, 0, 0, 1],
      [0, 0, 3, 0, 2, 1, 1, 0, 0],
      [2, 1, 1, 2, 2, 1, 0, 0, 1],
      [2, 1, 2, 2, 1, 2, 0, 0, 1],
      [2, 1, 1, 2, 0, 3, 0, 1, 0],
      [2, 1, 2, 2, 1, 2, 0, 0, 1],
      [2, 1, 2, 2, 1, 2, 0, 0, 1],
      [3, 2, 2, 2, 1, 2, 0, 0, 0]
    ]),
    Inequality(9, [
      [3, 0, 0, 0, 0, 1, 0, 0, 1],
      [0, 2, 0, 2, 1, 0, 0, 0, 1],
      [0, 1, 0, 0, 1, 2, 1, 0, 0],
      [0, 3, 0, 0, 0, 1, 0, 0, 1],
      [1, 1, 0, 1, 2, 0, 0, 0, 1],
      [1, 1, 0, 1, 0, 2, 0, 1, 0],
      [0, 1, 2, 0, 1, 0, 0, 1, 0],
      [1, 1, 0, 1, 0, 2, 0, 1, 0],
      [2, 2, 1, 1, 1, 1, 0, 0, 0]
    ]),
    Inequality(13, [
      [4, 0, 1, 1, 0, 2, 0, 0, 1],
      [1, 3, 0, 3, 0, 0, 0, 0, 1],
      [0, 0, 3, 0, 2, 1, 1, 0, 0],
      [2, 1, 1, 2, 0, 3, 0, 1, 0],
      [2, 1, 2, 2, 1, 2, 0, 0, 1],
      [2, 1, 2, 2, 1, 2, 0, 0, 1],
      [2, 1, 2, 2, 1, 2, 0, 0, 1],
      [2, 1, 2, 2, 1, 2, 0, 0, 1],
      [3, 2, 2, 2, 1, 2, 0, 0, 0]
    ]),
    Inequality(12, [
      [3, 0, 0, 0, 2, 0, 0, 0, 1],
      [1, 0, 3, 2, 1, 2, 0, 0, 1],
      [1, 0, 3, 2, 1, 2, 0, 0, 1],
      [1, 0, 3, 2, 1, 2, 0, 0, 1],
      [1, 0, 3, 2, 1, 2, 0, 0, 1],
      [0, 2, 3, 1, 0, 3, 0, 0, 0],
      [1, 0, 3, 2, 1, 2, 0, 0, 1],
      [0, 0, 3, 3, 0, 2, 0, 1, 0],
      [2, 1, 3, 2, 1, 2, 0, 0, 0]
    ]),
    Inequality(9, [
      [3, 0, 0, 0, 0, 1, 0, 0, 1],
      [0, 3, 0, 0, 0, 1, 0, 0, 1],
      [0, 1, 2, 0, 1, 0, 0, 1, 0],
      [1, 1, 0, 1, 2, 0, 0, 0, 1],
      [1, 1, 0, 1, 0, 2, 0, 1, 0],
      [0, 2, 0, 2, 1, 0, 0, 0, 1],
      [1, 1, 1, 1, 1, 1, 0, 0, 1],
      [0, 1, 0, 0, 1, 2, 1, 0, 0],
      [2, 2, 1, 1, 1, 1, 0, 0, 0]
    ]),
    Inequality(11, [
      [2, 0, 0, 0, 2, 0, 0, 0, 1],
      [0, 1, 3, 1, 1, 2, 0, 0, 1],
      [0, 1, 3, 1, 1, 2, 0, 0, 1],
      [0, 1, 3, 1, 1, 2, 0, 0, 1],
      [0, 1, 3, 2, 0, 2, 0, 1, 0],
      [0, 1, 3, 1, 1, 2, 0, 0, 1],
      [0, 1, 3, 1, 1, 2, 0, 0, 1],
      [0, 1, 3, 1, 1, 2, 0, 0, 1],
      [1, 2, 3, 1, 1, 2, 0, 0, 0]
    ]),
    Inequality(9, [
      [3, 0, 0, 0, 0, 1, 0, 0, 1],
      [0, 3, 0, 0, 0, 1, 0, 0, 1],
      [0, 1, 2, 0, 1, 0, 0, 1, 0],
      [0, 2, 0, 2, 1, 0, 0, 0, 1],
      [1, 1, 0, 1, 2, 0, 0, 0, 1],
      [1, 1, 0, 1, 0, 2, 0, 1, 0],
      [0, 1, 0, 0, 1, 2, 1, 0, 0],
      [1, 1, 0, 1, 0, 2, 0, 1, 0],
      [2, 2, 1, 1, 1, 1, 0, 0, 0]
    ])
  ]

  /** Both tables of a script and the name list are indexed together, every
      matrix is 9 x 9, and the postmap has nine rows. */
  predicate Agrees(games: seq<Inequality>, facets: seq<Inequality>, postmap: IntMatrix)
  {
    && |games| == |facets| == |GameNames| == 8
    && TableShape(games, 9, 9) && TableShape(facets, 9, 9)
    && ColumnStochastic(postmap, 9, 16)
  }

  /** A table of eight inequalities is 9 x 9 throughout once each of its
      eight matrices is; the callers discharge the eight literal cases. */
  lemma EightByNineByNine(t: seq<Inequality>)
    requires |t| == 8
    requires IsMatrix(t[0].game, 9, 9) && IsMatrix(t[1].game, 9, 9)
    requires IsMatrix(t[2].game, 9, 9) && IsMatrix(t[3].game, 9, 9)
    requires IsMatrix(t[4].game, 9, 9) && IsMatrix(t[5].game, 9, 9)
    requires IsMatrix(t[6].game, 9, 9) && IsMatrix(t[7].game, 9, 9)
    ensures TableShape(t, 9, 9)
  {
    forall i | 0 <= i < 8 ensures IsMatrix(t[i].game, 9, 9) {
      if i < 4 {
        assert i == 0 || i == 1 || i == 2 || i == 3;
      } else {
        assert i == 4 || i == 5 || i == 6 || i == 7;
      }
    }
  }

  /** Broadcast script: `range(0, 8)` indexes both tables and the names, and
      `np.kron(postmap3, postmap3)` is a 9 x 16 column-stochastic postmap
      matching the nine rows of every matrix. */
  lemma BroadcastAgrees()
    ensures Agrees(BroadcastGames, BroadcastFacets, Kron(MergeLastTwo, MergeLastTwo))
  {
    EightByNineByNine(BroadcastGames);
    EightByNineByNine(BroadcastFacets);
    SquareOfMergeLastTwo();
  }

  /** Butterfly script: the same for its tables and its own `postmap3`. */
  lemma ButterflyAgrees()
    ensures Agrees(ButterflyGames, ButterflyFacets, Kron(MergeFirstLast, MergeFirstLast))
  {
    EightByNineByNine(ButterflyGames);
    EightByNineByNine(ButterflyFacets);
    SquareOfMergeFirstLast();
  }

  /** Interference script: the same for its tables and `postmap3`. */
  lemma InterferenceAgrees()
    ensures Agrees(InterferenceGames, InterferenceFacets, Kron(MergeLastTwo, MergeLastTwo))
  {
    EightByNineByNine(InterferenceGames);
    EightByNineByNine(InterferenceFacets);
    SquareOfMergeLastTwo();
  }

  /** The last game of each table is the communication value `np.eye(9)`. */
  lemma CommunicationValue()
    ensures BroadcastGames[7].game == ButterflyGames[7].game == InterferenceGames[7].game == Identity(9)
    ensures ColumnStochastic(Identity(9), 9, 9)
  {
    IdentityOneHot(9);
  }
}
