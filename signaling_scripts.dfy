/** The inequality tables of the signaling scripts: the qubit signaling
    dimension script with its fixed-setting tables, the Bacon-Toner script and
    the prepare-and-measure script, each with the input counts the loops build
    their nodes from. */
module SignalingScripts {
  import opened Matrices
  import opened Postmaps
  import opened Harness
  import opened RandomAccessCoding

  // ---------------------------------------------------------------------
  // Qubit signaling dimension

  /** The signaling-dimension inequalities for a qubit, all with four outputs. */
  const QubitSignalingInequalities: seq<Inequality> := [
    Inequality(2, [
      [1, 0, 0],
      [1, 0, 0],
      [0, 1, 0],
      [0, 0, 1]
    ]),
    Inequality(2, Identity(4)),
    Inequality(3, [
      [1, 1, 0, 0],
      [1, 0, 1, 0],
      [0, 1, 1, 0],
      [0, 0, 0, 1]
    ]),
    Inequality(4, [
      [2, 0, 0],
      [0, 2, 0],
      [0, 0, 2],
      [1, 1, 1]
    ]),
    Inequality(4, [
      [2, 0, 0, 0],
      [0, 2, 0, 0],
      [0, 0, 1, 1],
      [1, 1, 1, 0]
    ]),
    Inequality(4, [
      [2, 0, 0, 0, 0],
      [0, 1, 0, 1, 0],
      [0, 0, 1, 0, 1],
      [1, 1, 1, 0, 0]
    ]),
    Inequality(4, [
      [1, 0, 0, 1, 0, 0],
      [0, 1, 0, 0, 1, 0],
      [0, 0, 1, 0, 0, 1],
      [1, 1, 1, 0, 0, 0]
    ]),
    Inequality(5, [
      [1, 1, 1, 0, 0, 0],
      [1, 0, 0, 1, 1, 0],
      [0, 1, 0, 1, 0, 1],
      [0, 0, 1, 0, 1, 1]
    ])
  ]

  /** `fixed_setting_arb_ids`, `fixed_setting_ry_ids` and `fixed_settings`. */
  const ArbIds: seq<seq<nat>> := [
    [0, 4, 8], [0, 4, 8, 12], [0, 4, 8, 12], [0, 4, 8], [0, 4, 8, 12],
    [0, 4, 8, 12, 16], [0, 4, 8, 12, 16, 20], [0, 4, 8, 12, 16, 20]
  ]
  const RyIds: seq<seq<nat>> := [
    [0, 2, 4], [0, 2, 4, 6], [0, 2, 4, 6], [0, 2, 4], [0, 2, 4, 6],
    [0, 2, 4, 6, 8], [0, 2, 4, 6, 8, 10], [0, 2, 4, 6, 8, 10]
  ]
  const FixedSettings: seq<seq<real>> := [
    [Pi, 0.0, 0.0], [Pi, 0.0, 0.0, 0.0], [Pi, 0.0, 0.0, 0.0], [Pi, 0.0, 0.0], [Pi, 0.0, 0.0, 0.0],
    [Pi, 0.0, 0.0, 0.0, 0.0], [Pi, 0.0, 0.0, 0.0, 0.0, 0.0], [Pi, 0.0, 0.0, 0.0, 0.0, Pi]
  ]

  /** `range(0, 8)` indexes all four tables; inequality `i` has four rows, the
      rows of the `np.eye(4)` postmap, and one column per input; and the three
      fixed-setting lists of `i` hold one entry per input, so any of the id
      lists pairs up with the values. */
  lemma QubitSignalingTables()
    ensures |QubitSignalingInequalities| == |ArbIds| == |RyIds| == |FixedSettings| == 8
    ensures forall i :: 0 <= i < 8 ==>
      && IsMatrix(QubitSignalingInequalities[i].game, 4, |ArbIds[i]|)
      && |RyIds[i]| == |ArbIds[i]| == |FixedSettings[i]|
    ensures ColumnStochastic(Identity(4), 4, 4)
  {
    IdentityOneHot(4);
  }

  // ---------------------------------------------------------------------
  // Bacon-Toner

  /** The Bacon-Toner inequalities and `num_in_list`. */
  const BaconTonerInequalities: seq<Inequality> := [
    Inequality(2, [
      [1, 0, 0, 0],
      [0, 0, 1, 0],
      [0, 1, 0, 0],
      [0, 0, 0, 1]
    ]),
    Inequality(2, [
      [1, 0, 0, 0],
      [0, 0, 1, 0],
      [1, 0, 0, 1],
      [0, 0, 0, 1]
    ]),
    Inequality(7, [
      [0, 0, 1, 0, 1, 1, 1, 1, 1],
      [0, 1, 0, 1, 0, 0, 0, 0, 0],
      [0, 1, 0, 1, 0, 0, 0, 0, 0],
      [0, 0, 1, 0, 1, 1, 1, 1, 1]
    ]),
    Inequality(13, [
      [1, 2, 0, 2, 1, 2, 0, 2, 1],
      [0, 0, 2, 0, 0, 0, 2, 0, 0],
      [0, 0, 2, 0, 0, 0, 2, 0, 0],
      [1, 2, 0, 2, 1, 2, 0, 2, 1]
    ]),
    Inequality(2, [
      [1, 0, 0, 1],
      [0, 0, 0, 0],
      [0, 0, 0, 0],
      [0, 1, 1, 0]
    ]),
    Inequality(2, [
      [1, 0, 0, 0],
      [0, 0, 0, 1],
      [0, 1, 0, 0],
      [0, 0, 1, 0]
    ]),
    Inequality(2, [
      [1, 0, 0, 0],
      [0, 0, 1, 0],
      [0, 0, 0, 1],
      [0, 1, 0, 0]
    ])
  ]
  const BaconTonerNumIn: seq<nat> := [2, 2, 3, 3, 2, 2, 2]

  /** Inequality `i` has four rows, the rows of the `np.eye(4)` postmap, and one
      column per pair of inputs of two parties with `num_in_list[i]` inputs
      each. */
  lemma BaconTonerTables()
    ensures |BaconTonerInequalities| == |BaconTonerNumIn| == 7
    ensures forall i :: 0 <= i < 7 ==>
      IsMatrix(BaconTonerInequalities[i].game, 4, Pairs(BaconTonerNumIn[i], BaconTonerNumIn[i]))
    ensures ColumnStochastic(Identity(4), 4, 4)
  {
    IdentityOneHot(4);
  }

  // ---------------------------------------------------------------------
  // Prepare and measure

  /** The number of input pairs of two parties with `a` and `b` inputs: the
      column count of a two-party game. */
  function Pairs(a: nat, b: nat): (c: nat)
    ensures a > 0 && b > 0 ==> c >= a && c >= b
  {
    a * b
  }

  /** The three-input dimensionality witness. */
  const DimensionWitness3: Inequality := Inequality(4, [
    [0, 0, 0, 1, 1, 0],
    [1, 1, 1, 0, 0, 0]
  ])

  /** The tight fingerprinting inequality of the 33-23-2 scenario. */
  const FingerprintingTight: Inequality := Inequality(7, [
    [1, 0, 0, 0, 1, 0, 0, 0, 1],
    [0, 1, 1, 1, 0, 1, 1, 1, 0]
  ])

  /** Three facets of the 33-23-2 scenario. */
  const PmFacet1: Inequality := Inequality(5, [
    [0, 0, 1, 0, 1, 0, 0, 0, 1],
    [1, 0, 0, 1, 0, 0, 0, 1, 0]
  ])
  const PmFacet2: Inequality := Inequality(5, [
    [0, 0, 1, 0, 1, 0, 1, 0, 0],
    [1, 0, 0, 0, 0, 1, 0, 1, 0]
  ])
  const PmFacet3: Inequality := Inequality(7, [
    [0, 0, 1, 0, 1, 0, 0, 1, 1],
    [1, 1, 0, 1, 0, 1, 1, 0, 0]
  ])

  /** The eight-input dimensionality witness derived from the three-bit random
      access code. */
  const DimensionWitness8: Inequality := Inequality(8, [
    [0, 0, 1, 1, 0, 0, 0, 0, 0, 0, 0, 0, 0, 0, 0, 0, 1, 0, 0, 0, 0, 0, 0, 0],
    [0, 0, 0, 0, 0, 1, 0, 0, 0, 0, 1, 1, 0, 0, 0, 1, 0, 1, 1, 1, 0, 0, 0, 0]
  ])

  /** The prepare-and-measure inequalities. Entries 5 and 6 are `rac_game(2)`
      and `rac_game(3)`. */
  const PrepareAndMeasureInequalities: seq<Inequality> := [
    DimensionWitness3, FingerprintingTight, PmFacet1, PmFacet2, PmFacet3, Rac2, Rac3, DimensionWitness8
  ]

  /** `rac_game(2)` and `rac_game(3)`. */
  const Rac2: Inequality := Inequality(RacBound(2), RacMatrix(2))
  const Rac3: Inequality := Inequality(RacBound(3), RacMatrix(3))

  /** `num_in_list`: the input counts of the sender and the receiver. */
  const PrepareAndMeasureNumIn: seq<(nat, nat)> := [(3, 2), (3, 3), (3, 3), (3, 3), (3, 3), (4, 2), (8, 3), (8, 3)]

  /** The shapes of the literal prepare-and-measure inequalities. */
  lemma PrepareAndMeasureLiteralShapes()
    ensures IsMatrix(DimensionWitness3.game, 2, 6) && IsMatrix(FingerprintingTight.game, 2, 9)
    ensures IsMatrix(PmFacet1.game, 2, 9) && IsMatrix(PmFacet2.game, 2, 9) && IsMatrix(PmFacet3.game, 2, 9)
    ensures IsMatrix(DimensionWitness8.game, 2, 24)
  {
  }

  /** The shapes of the two random access coding games in the list. */
  lemma PrepareAndMeasureRacShapes()
    ensures IsMatrix(Rac2.game, 2, Pairs(4, 2)) && IsMatrix(Rac3.game, 2, Pairs(8, 3))
  {
    RacShape(2);
    RacShape(3);
  }

  /** The shape of inequality `i`, one case at a time. */
  lemma PrepareAndMeasureShape(i: nat)
    requires i < 8
    ensures IsMatrix(PrepareAndMeasureInequalities[i].game, 2,
                     Pairs(PrepareAndMeasureNumIn[i].0, PrepareAndMeasureNumIn[i].1))
  {
    if i == 5 || i == 6 {
      PrepareAndMeasureRacShapes();
    } else {
      PrepareAndMeasureLiteralShapes();
    }
  }

  /** Inequality `i` has two rows, the rows of the parity postmaps, and one
      column per pair of sender and receiver inputs. */
  lemma PrepareAndMeasureTables()
    ensures |PrepareAndMeasureInequalities| == |PrepareAndMeasureNumIn| == 8
    ensures forall i :: 0 <= i < 8 ==>
      IsMatrix(PrepareAndMeasureInequalities[i].game, 2,
               Pairs(PrepareAndMeasureNumIn[i].0, PrepareAndMeasureNumIn[i].1))
    ensures ColumnStochastic(ParityPostmap2, 2, 4) && ColumnStochastic(ParityPostmap3, 2, 8)
  {
    forall i | 0 <= i < 8
      ensures IsMatrix(PrepareAndMeasureInequalities[i].game, 2,
                       Pairs(PrepareAndMeasureNumIn[i].0, PrepareAndMeasureNumIn[i].1))
    {
      PrepareAndMeasureShape(i);
    }
    ParityLiterals();
  }
}
