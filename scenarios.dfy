/**
 * Worked examples of the transition rule on the 8 x 6 warehouse with the
 * four compass directions and the corridor layout of `place_racks(8, 6)`.
 */
module Scenarios {
  import opened Wrappers
  import opened Grid
  import opened Racks
  import opened Transition

  /** The direction table 0: west, 1: east, 2: north, 3: south, as offsets on (component 0, component 1). */
  function Compass(): map<U8, Pos>
  {
    map[0 := (-1, 0), 1 := (1, 0), 2 := (0, -1), 3 := (0, 1)]
  }

  /** On the 8 x 6 grid, (2, 3) is scan cell 4 and a corridor cell; (3, 3) is scan cell 5 and not one. */
  lemma SmallLayout()
    ensures (2, 3) in RackLayout(8, 6) && (3, 3) !in RackLayout(8, 6)
  {
    assert ScanIndex(2, 3, 6) == 4;
  }

  /**
   * Action 0 from the corner (0, 0): component 0 falls below its minimum and
   * becomes 0, component 1 equals its minimum and becomes ysize - 1 = 5,
   * so the agent lands on (0, 5) rather than staying put.
   */
  lemma CornerMoveJumps()
    ensures Step(State((0, 0), 0, None), 0, Compass(), 8, 6, RackLayout(8, 6))
         == Ok([Outcome(State((0, 5), 0, None), 1.0, Word((0, 5), 0, None))])
  {
  }

  /** Pickup on the corridor cell (2, 3) while not carrying. */
  lemma PickupOnCorridor()
    ensures Step(State((2, 3), 0, None), 4, Compass(), 8, 6, RackLayout(8, 6))
         == Ok([Outcome(State((2, 3), 1, Some((2, 3))), 1.0, Word((2, 3), 1, Some((2, 3))))])
  {
    SmallLayout();
  }

  /** Carrying from the corridor cell (2, 3) east into (3, 3), which is not a corridor cell: 0.99 with the rack, 0.01 without. */
  lemma CarryOutOfCorridor()
    ensures Step(State((2, 3), 1, Some((2, 3))), 1, Compass(), 8, 6, RackLayout(8, 6))
         == Ok([Outcome(State((3, 3), 1, Some((3, 3))), 0.99, Word((3, 3), 1, Some((3, 3)))),
                Outcome(State((3, 3), 0, Some((2, 3))), 0.01, Word((3, 3), 0, Some((2, 3))))])
  {
    SmallLayout();
  }

  /**
   * Rack cells are (row, column) pairs while positions clamp component 0
   * against xsize: on a 6 x 10 grid the rack cell (7, 2) has component 0
   * beyond the grid, so no agent on the grid ever stands on it.
   */
  lemma TallGridRackOffGrid()
    ensures (7, 2) in RackLayout(6, 10)
    ensures forall s: State :: InGrid(s, 6, 10) ==> s.pos != (7, 2)
  {
    assert ScanIndex(7, 2, 10) == 6;
  }
}
