/**
 * The transition rule `step` of the warehouse model: for one state and one
 * action code it lists the possible successors with their probabilities and
 * the record each successor is serialised from.
 */
module Transition {
  import opened Wrappers
  import opened Grid

  /** A rack coordinate `(u8, u8)`. */
  type RackPos = (U8, U8)

  /** The state tuple `((i8, i8), u8, Option<(u8, u8)>)`: agent position, carry flag, last rack coordinate. */
  datatype State = State(pos: Pos, carry: U8, rack: Option<RackPos>)

  /** The serialised record `Word { a, c, r }`; its JSON text is not modelled. */
  datatype Word = Word(a: Pos, c: U8, r: Option<RackPos>)

  /** One entry of the returned list: successor, probability, serialised successor. */
  datatype Outcome = Outcome(next: State, prob: real, word: Word)

  /** The record a state is serialised as when fields are copied one for one. */
  function WordOf(s: State): Word { Word(s.pos, s.carry, s.rack) }

  /** Reading a record back into a state, fields in the same order. */
  function StateOf(w: Word): State { State(w.a, w.c, w.r) }

  /** The rack coordinate `Some((p.0 as u8, p.1 as u8))` recorded at position p. */
  function RackAt(p: Pos): Option<RackPos> { Some((AsU8(p.0), AsU8(p.1))) }

  /** The rack coordinate read back as an `(i8, i8)` position, `cmp_state` in the pickup branch. */
  function RackAsPos(r: Option<RackPos>): Option<Pos>
  {
    match r
    case Some(v) => Some((AsI8(v.0), AsI8(v.1)))
    case None => None
  }

  predicate InGrid(s: State, xsize: int, ysize: int)
  {
    0 <= s.pos.0 < xsize && 0 <= s.pos.1 < ysize
  }

  /**
   * What `step` needs from its caller, all of it for a movement action only:
   * the direction in the table, a grid whose bounds fit `i8`, and a sum of
   * position and direction that does not overflow `i8`. Pickup, drop and
   * unknown codes accept any grid.
   */
  predicate Steppable(s: State, action: U8, dirs: map<U8, Pos>, xsize: int, ysize: int)
  {
    action < 4 ==>
      && 1 <= xsize <= 127 && 1 <= ysize <= 127
      && action in dirs && InI8(s.pos.0 + dirs[action].0) && InI8(s.pos.1 + dirs[action].1)
  }

  /** Sum of the probabilities of an outcome list. */
  function ProbSum(outs: seq<Outcome>): real
  {
    if outs == [] then 0.0 else outs[0].prob + ProbSum(outs[1..])
  }

  /** The probability sum of a list of one or two outcomes. */
  lemma ProbSumShort(outs: seq<Outcome>)
    requires |outs| <= 2
    ensures |outs| == 1 ==> ProbSum(outs) == outs[0].prob
    ensures |outs| == 2 ==> ProbSum(outs) == outs[0].prob + outs[1].prob
  {
    if |outs| == 2 {
      assert outs[1..][1..] == [];
      assert ProbSum(outs[1..]) == outs[1].prob;
    } else if |outs| == 1 {
      assert outs[1..] == [];
    }
  }

  /** The successor states of an outcome list, in order. */
  function Targets(outs: seq<Outcome>): seq<State>
  {
    seq(|outs|, k requires 0 <= k < |outs| => outs[k].next)
  }

  /** A movement (actions 0-3) towards the already clamped cell `target`. */
  function Move(s: State, target: Pos, racks: set<Pos>): seq<Outcome>
  {
    if s.carry == 0 then
      var next := State(target, 0, s.rack);
      [Outcome(next, 1.0, Word(next.pos, next.carry, next.rack))]
    else if s.pos in racks && target in racks then
      [Outcome(s, 1.0, Word(s.pos, s.carry, s.rack))]
    else
      // the rack travels with the agent at 0.99, is left behind at 0.01
      var success := State(target, 1, RackAt(target));
      var failure := State(target, 0, s.rack);
      [Outcome(success, 0.99, Word(target, 1, RackAt(target))),
       Outcome(failure, 0.01, Word(target, 0, s.rack))]
  }

  /** Pickup (action 4). */
  function Pickup(s: State, racks: set<Pos>): seq<Outcome>
  {
    if s.carry == 0 then
      if s.pos in racks || RackAsPos(s.rack) == Some(s.pos) then
        [Outcome(State(s.pos, 1, RackAt(s.pos)), 1.0, Word(s.pos, 1, RackAt(s.pos)))]
      else
        [Outcome(State(s.pos, 0, s.rack), 1.0, Word(s.pos, 0, s.rack))]
    else
      [Outcome(s, 1.0, Word(s.pos, 1, s.rack))]
  }

  /** Drop (action 5): the state is kept; only the record says the rack was released. */
  function Drop(s: State): seq<Outcome>
  {
    if s.carry == 1 then
      [Outcome(s, 1.0, Word(s.pos, 0, RackAt(s.pos)))]
    else
      [Outcome(s, 1.0, Word(s.pos, 0, s.rack))]
  }

  /**
   * `step`: an error for an action code above 5, otherwise one outcome at
   * probability 1 or two at 0.99 and 0.01, so that the probabilities sum to 1.
   */
  function Step(s: State, action: U8, dirs: map<U8, Pos>, xsize: int, ysize: int, racks: set<Pos>)
    : (r: Result<seq<Outcome>>)
    requires Steppable(s, action, dirs, xsize, ysize)
    ensures r.Err? <==> action >= 6
    ensures r.Ok? ==>
      (|r.value| == 1 && r.value[0].prob == 1.0) ||
      (|r.value| == 2 && r.value[0].prob == 0.99 && r.value[1].prob == 0.01)
    ensures r.Ok? ==> ProbSum(r.value) == 1.0
  {
    if action < 4 then
      var outs := Move(s, PosAddition(s.pos, dirs[action], 0, xsize, 0, ysize), racks);
      ProbSumShort(outs);
      Ok(outs)
    else if action == 4 then
      Ok(Pickup(s, racks))
    else if action == 5 then
      Ok(Drop(s))
    else
      Err("action not registered")
  }

  /** The clamped cell a movement action aims at. */
  function Target(s: State, action: U8, dirs: map<U8, Pos>, xsize: int, ysize: int): Pos
    requires action < 4 && Steppable(s, action, dirs, xsize, ysize)
  {
    PosAddition(s.pos, dirs[action], 0, xsize, 0, ysize)
  }

  /** Moving without a rack: one certain outcome at the clamped cell, flag 0, rack coordinate kept. */
  lemma MoveWithoutRack(s: State, action: U8, dirs: map<U8, Pos>, xsize: int, ysize: int, racks: set<Pos>)
    requires action < 4 && Steppable(s, action, dirs, xsize, ysize) && s.carry == 0
    ensures var r := Step(s, action, dirs, xsize, ysize, racks);
      r.Ok? && |r.value| == 1 && r.value[0].prob == 1.0 &&
      r.value[0].next == State(Target(s, action, dirs, xsize, ysize), 0, s.rack)
  {
  }

  /** Carrying from a corridor cell into another corridor cell: blocked, the state is kept with certainty. */
  lemma MoveBlockedInCorridor(s: State, action: U8, dirs: map<U8, Pos>, xsize: int, ysize: int, racks: set<Pos>)
    requires action < 4 && Steppable(s, action, dirs, xsize, ysize) && s.carry != 0
    requires s.pos in racks && Target(s, action, dirs, xsize, ysize) in racks
    ensures Step(s, action, dirs, xsize, ysize, racks) == Ok([Outcome(s, 1.0, WordOf(s))])
  {
  }

  /**
   * Carrying in any other case: two outcomes at the clamped cell, carrying
   * with the rack recorded there at 0.99, not carrying with the old rack
   * coordinate at 0.01.
   */
  lemma MoveWithRack(s: State, action: U8, dirs: map<U8, Pos>, xsize: int, ysize: int, racks: set<Pos>)
    requires action < 4 && Steppable(s, action, dirs, xsize, ysize) && s.carry != 0
    requires !(s.pos in racks && Target(s, action, dirs, xsize, ysize) in racks)
    ensures var t := Target(s, action, dirs, xsize, ysize);
      var r := Step(s, action, dirs, xsize, ysize, racks);
      r.Ok? && |r.value| == 2 &&
      r.value[0].next == State(t, 1, Some((t.0, t.1))) && r.value[0].prob == 0.99 &&
      r.value[1].next == State(t, 0, s.rack) && r.value[1].prob == 0.01
  {
  }

  /**
   * Pickup when not carrying, on a corridor cell or on the recorded rack
   * coordinate: the agent now carries, with the rack recorded at its cell.
   */
  lemma PickupGrabs(s: State, dirs: map<U8, Pos>, xsize: int, ysize: int, racks: set<Pos>)
    requires 0 <= s.pos.0 && 0 <= s.pos.1
    requires s.carry == 0 && (s.pos in racks || s.rack == Some((s.pos.0, s.pos.1)))
    ensures var r := Step(s, 4, dirs, xsize, ysize, racks);
      r.Ok? && |r.value| == 1 && r.value[0].prob == 1.0 &&
      r.value[0].next == State(s.pos, 1, Some((s.pos.0, s.pos.1)))
  {
  }

  /** Pickup in every other case leaves the state as it is. */
  lemma PickupSelfLoop(s: State, dirs: map<U8, Pos>, xsize: int, ysize: int, racks: set<Pos>)
    requires 0 <= s.pos.0 && 0 <= s.pos.1
    requires !(s.carry == 0 && (s.pos in racks || s.rack == Some((s.pos.0, s.pos.1))))
    ensures var r := Step(s, 4, dirs, xsize, ysize, racks);
      r.Ok? && |r.value| == 1 && r.value[0].prob == 1.0 && r.value[0].next == s
  {
    if s.carry == 0 && s.rack.Some? {
      RackMatchesPosition(s);
    }
  }

  /** On the grid, the pickup test `cmp_state == Some(pos)` is the test `rack == Some(pos)`. */
  lemma RackMatchesPosition(s: State)
    requires 0 <= s.pos.0 && 0 <= s.pos.1
    ensures RackAsPos(s.rack) == Some(s.pos) <==> s.rack == Some((s.pos.0, s.pos.1))
  {
    if s.rack.Some? && RackAsPos(s.rack) == Some(s.pos) {
      var v := s.rack.value;
      assert AsI8(v.0) == s.pos.0 && AsI8(v.1) == s.pos.1;
    }
  }

  /** Picking up twice is picking up once: the successor of a pickup is a fixed point of pickup. */
  lemma PickupIdempotent(s: State, dirs: map<U8, Pos>, xsize: int, ysize: int, racks: set<Pos>)
    ensures var r := Step(s, 4, dirs, xsize, ysize, racks);
      var r' := Step(r.value[0].next, 4, dirs, xsize, ysize, racks);
      r.Ok? && |r.value| == 1 && r'.Ok? && |r'.value| == 1 && r'.value[0].next == r.value[0].next
  {
  }

  /** Drop never changes the state; its record says flag 0, and, when carrying, the rack at the agent's cell. */
  lemma DropKeepsState(s: State, dirs: map<U8, Pos>, xsize: int, ysize: int, racks: set<Pos>)
    ensures var r := Step(s, 5, dirs, xsize, ysize, racks);
      r.Ok? && |r.value| == 1 && r.value[0].prob == 1.0 && r.value[0].next == s &&
      r.value[0].word.c == 0 && r.value[0].word.a == s.pos &&
      r.value[0].word.r == (if s.carry == 1 then RackAt(s.pos) else s.rack)
  {
  }

  /** Dropping while carrying: the record and the successor disagree on the carry flag. */
  lemma DropRecordDisagrees(s: State, dirs: map<U8, Pos>, xsize: int, ysize: int, racks: set<Pos>)
    requires s.carry == 1
    ensures var r := Step(s, 5, dirs, xsize, ysize, racks);
      r.Ok? && StateOf(r.value[0].word) != r.value[0].next
  {
  }

  /** For actions 0-4 and a 0/1 flag, each record reads back as exactly its successor. */
  lemma RecordsMatchSuccessors(s: State, action: U8, dirs: map<U8, Pos>, xsize: int, ysize: int, racks: set<Pos>)
    requires action < 5 && Steppable(s, action, dirs, xsize, ysize) && s.carry <= 1
    ensures var r := Step(s, action, dirs, xsize, ysize, racks);
      r.Ok? && forall k :: 0 <= k < |r.value| ==>
        r.value[k].word == WordOf(r.value[k].next) && StateOf(r.value[k].word) == r.value[k].next
  {
  }

  /** Pickup while the flag holds a value other than 0 or 1: the record says 1, the successor keeps the value. */
  lemma PickupRecordCarryDisagrees(s: State, dirs: map<U8, Pos>, xsize: int, ysize: int, racks: set<Pos>)
    requires s.carry >= 2
    ensures var r := Step(s, 4, dirs, xsize, ysize, racks);
      r.Ok? && r.value[0].word.c == 1 && r.value[0].next.carry == s.carry
  {
  }

  /** Pickup and drop never move the agent. */
  lemma PickupDropKeepPosition(s: State, action: U8, dirs: map<U8, Pos>, xsize: int, ysize: int, racks: set<Pos>)
    requires action == 4 || action == 5
    ensures var r := Step(s, action, dirs, xsize, ysize, racks);
      r.Ok? && forall k :: 0 <= k < |r.value| ==> r.value[k].next.pos == s.pos
  {
  }

  /** Every successor of a movement lies on the grid, wherever the agent started. */
  lemma MoveLandsOnGrid(s: State, action: U8, dirs: map<U8, Pos>, xsize: int, ysize: int, racks: set<Pos>)
    requires action < 4 && Steppable(s, action, dirs, xsize, ysize)
    ensures var r := Step(s, action, dirs, xsize, ysize, racks);
      r.Ok? && forall k :: 0 <= k < |r.value| ==>
        InGrid(r.value[k].next, xsize, ysize) || r.value[k].next == s
  {
  }

  /** Every successor of a state on the grid is on the grid. */
  lemma StepStaysOnGrid(s: State, action: U8, dirs: map<U8, Pos>, xsize: int, ysize: int, racks: set<Pos>)
    requires Steppable(s, action, dirs, xsize, ysize) && InGrid(s, xsize, ysize)
    ensures var r := Step(s, action, dirs, xsize, ysize, racks);
      r.Ok? ==> forall k :: 0 <= k < |r.value| ==> InGrid(r.value[k].next, xsize, ysize)
  {
  }

  /** A 0/1 carry flag stays 0/1 under every action. */
  lemma StepKeepsFlagBinary(s: State, action: U8, dirs: map<U8, Pos>, xsize: int, ysize: int, racks: set<Pos>)
    requires Steppable(s, action, dirs, xsize, ysize) && s.carry <= 1
    ensures var r := Step(s, action, dirs, xsize, ysize, racks);
      r.Ok? ==> forall k :: 0 <= k < |r.value| ==> r.value[k].next.carry <= 1
  {
  }
}
