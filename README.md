# dp-warehouse: verified model of the warehouse MDP generator

`dp-warehouse` generates the state space of a warehouse Markov decision process.
An agent moves on an `xsize × ysize` grid and can pick up and drop a rack. A
move while carrying is blocked exactly when both the current and the target
cell are corridor cells; every other move while carrying takes the rack along
with probability 0.99. The Rust library `src/lib.rs` provides four pieces, and
this project models them in Dafny:

- `pos_addition` clamps one movement step to the grid (module `Grid`, `grid.dfy`);
- `place_racks` marks the corridor (rack) cells of the layout (module `Racks`, `racks.dfy`);
- `step` is the stochastic transition rule for the six action codes. It returns
  a list of (successor state, probability, serialised record) outcomes or an
  error (module `Transition`, `transition.dfy`);
- `set_state_space` is the LIFO worklist closure. It numbers each discovered
  state, keeps the forward and reverse index maps, and records the outcome list
  of every (state index, action) pair (module `StateSpace`, `statespace.dfy`).

`wrappers.dfy` holds `Option` and `Result`. `scenarios.dfy` holds worked
examples on an 8 × 6 warehouse.

Modelling choices:

- The state tuple `((i8, i8), u8, Option<(u8, u8)>)` is the datatype
  `Transition.State`. Each field has the subset type of its Rust width (`I8`,
  `U8`).
- The casts `as u8` and `as i8` that the code performs are written out as
  `Grid.AsU8` and `Grid.AsI8`.
- `Word { a, c, r }` is the datatype `Transition.Word`. Its JSON text is not
  modelled: each outcome carries the record itself.
- Probabilities are exact `real` values: 1.0, 0.99 and 0.01.
- `step` is a function. `place_racks` is a method with the two nested loops and
  the running counter of the source.
- `set_state_space` is a method whose locals (stack, both maps, counter,
  visited set, transition table) form the record `StateSpace.Search`. Its three
  nested loops are `SetStateSpace`, `ExpandState` and `AddSuccessors`.

Quirks of the code are modelled as written and stated as lemmas:

- **Clamp at the minimum.** A sum exactly equal to the axis minimum 0 is sent to
  `max - 1` (`Grid.ClampAtMinimumJumps`). So action 0 with offset (−1, 0) from
  ((0, 0), 0, None) on the 8 × 6 grid lands on (0, 5) (`Scenarios.CornerMoveJumps`).
- **Drop keeps the state.** Drop leaves the successor state unchanged, and only
  the record says the rack was released (`Transition.DropKeepsState`,
  `Transition.DropRecordDisagrees`).
- **Carry flag of 2 or more.** Pickup with such a flag records `c = 1` while the
  successor keeps the flag (`Transition.PickupRecordCarryDisagrees`). No state
  reachable from a flag of 0 or 1 has such a flag
  (`StateSpace.ReachableFlagBinary`, and the last clause of
  `StateSpace.SetStateSpace`).
- **The initial state is not visited.** It gets index 0 without being marked
  visited. When it is reached again it receives a second index, while index 0
  still maps back to it (`StateSpace.InitialStateIndices`, and the `Indexed`
  clause of `StateSpace.SetStateSpace`).
- **Two coordinate orders.** Rack cells are stored as (row, column), but
  positions clamp component 0 against `xsize`. On a grid that is not square,
  rack cells can lie off the grid (`Scenarios.TallGridRackOffGrid`).

- **Off-grid initial position.** Pickup and drop never move the agent, so an
  initial position off the grid is kept by them. Successors of on-grid states
  are on the grid (`Transition.StepStaysOnGrid`), and movement always lands on
  the grid or blocks in place (`Transition.MoveLandsOnGrid`).

## Model

| member | source | states |
|---|---|---|
| Grid.AsU8 | src/lib.rs:158 | `as u8` on an `i8`: the result agrees with the input modulo 256 and is the input when that is non-negative |
| Grid.AsI8 | src/lib.rs:185 | `as i8` on a `u8`: the result agrees with the input modulo 256 and is the input when below 128 |
| Grid.ClampAxis | src/lib.rs:30-36 | one axis of the clamp: the result is in `[0, max)` and is the sum, 0 or `max - 1` |
| Grid.PosAddition | src/lib.rs:21-47 | the clamped position lies in `[0, xmax) × [0, ymax)` when the bounds fit `i8` and the sums do not overflow |
| Grid.ClampKeepsInterior | src/lib.rs:30-31 | a sum strictly between `min` and `max - 1` is kept |
| Grid.ClampBelowMinimum | src/lib.rs:32-33 | a sum below `min` becomes 0 |
| Grid.ClampAtMinimumJumps | src/lib.rs:30-36 | a sum exactly equal to `min` becomes `max - 1` |
| Grid.ClampAboveMaximum | src/lib.rs:30-36 | a sum above `min` that reaches `max - 1` or beyond becomes `max - 1` |
| Grid.PosAdditionKeepsInterior | src/lib.rs:21-47 | with minimum 0, a move whose sums are strictly inside both axes lands exactly on the sum |
| Racks.RackLayout | src/lib.rs:56-65 | the layout: every rack cell (r, c) has `1 ≤ r ≤ ysize-3` and `2 ≤ c ≤ xsize-3`, and its column-major scan index is not 2 mod 3 |
| Racks.PrefixEmpty | src/lib.rs:52 | before the scan starts there are no racks |
| Racks.PrefixStep | src/lib.rs:58-63 | scanning cell n adds it exactly when n mod 3 ≠ 2 |
| Racks.ScanStep | src/lib.rs:57-64 | one inner-loop turn keeps the counter equal to the scan index mod 3 and the set equal to the layout prefix |
| Racks.PrefixComplete | src/lib.rs:56-65 | the prefix of the whole scan is the layout |
| Racks.ScanIndexInjective | src/lib.rs:56-57 | distinct scanned cells have distinct scan indices |
| Racks.PlaceRacks | src/lib.rs:50-67 | returns exactly `RackLayout`, and of the N = (xsize-4)(ysize-3) scanned cells it keeps N − N/3 |
| Transition.Step | src/lib.rs:128-229 | for any state, and with a grid and a direction entry demanded only by movement codes 0–3: `Err` exactly for action codes ≥ 6; otherwise one outcome at 1.0 or two at 0.99 and 0.01, and the probabilities sum to 1 |
| Transition.MoveWithoutRack | src/lib.rs:143-147 | not carrying: one certain outcome at the clamped cell, flag 0, rack coordinate kept |
| Transition.MoveBlockedInCorridor | src/lib.rs:152-155 | carrying from a corridor cell into a corridor cell: one certain outcome equal to the input state, recorded field for field |
| Transition.MoveWithRack | src/lib.rs:156-177 | carrying otherwise: (target, 1, Some(target)) at 0.99 and (target, 0, old rack) at 0.01 |
| Transition.PickupGrabs | src/lib.rs:188-198 | at non-negative coordinates, not carrying, on a corridor cell or on the recorded rack coordinate: one certain outcome (pos, 1, Some(pos)) |
| Transition.PickupSelfLoop | src/lib.rs:199-211 | at non-negative coordinates, pickup in every other case leaves the state unchanged |
| Transition.RackMatchesPosition | src/lib.rs:184-187 | for non-negative positions the `cmp_state` test through `as i8` equals the plain comparison of the rack coordinate with the position |
| Transition.PickupIdempotent | src/lib.rs:179-212 | picking up from the result of a pickup gives that same state again |
| Transition.DropKeepsState | src/lib.rs:213-223 | drop's successor is the input state; its record says flag 0, position kept, and the rack at the agent's cell when carrying |
| Transition.DropRecordDisagrees | src/lib.rs:217-219 | dropping while carrying: the record read back is not the successor state |
| Transition.RecordsMatchSuccessors | src/lib.rs:143-211 | for actions 0–4 and a 0/1 flag, every record reads back as exactly its successor |
| Transition.PickupRecordCarryDisagrees | src/lib.rs:209-211 | pickup with a flag of 2 or more records `c = 1` while the successor keeps the flag |
| Transition.PickupDropKeepPosition | src/lib.rs:179-223 | pickup and drop never move the agent |
| Transition.MoveLandsOnGrid | src/lib.rs:141-177 | every successor of a movement is on the grid or is the input state itself |
| Transition.StepStaysOnGrid | src/lib.rs:137-228 | every successor of an on-grid state is on the grid |
| Transition.StepKeepsFlagBinary | src/lib.rs:137-228 | a 0/1 carry flag stays 0/1 under every action |
| StateSpace.ExplorableSteppable | src/lib.rs:99-106 | under the build's requirements, `step` on any state the build expands neither panics nor returns `Err` |
| StateSpace.ExplorableClosed | src/lib.rs:98-116 | successors of an expandable state are expandable: on the grid, or still at the initial position |
| StateSpace.ClosedHoldsReachable | src/lib.rs:94-122 | every state reachable in one or more steps belongs to any set closed under the transition rule |
| StateSpace.ReachableFlagBinary | src/lib.rs:94-122 | from an initial flag of 0 or 1, every state reached in any number of transitions has a flag of 0 or 1 |
| StateSpace.NextKeepsFlagBinary | src/lib.rs:99-106 | every successor of a state with a flag of 0 or 1 has a flag of 0 or 1 |
| StateSpace.ReachableFlagsBinary | src/lib.rs:94-122 | from an initial flag of 0 or 1, every state of a set of reachable states has a flag of 0 or 1 |
| StateSpace.StepReaches | src/lib.rs:108-116 | a successor of the initial state or of a reachable state is reachable |
| StateSpace.EdgesMatchProbSum | src/lib.rs:117-119 | a recorded list has the probability sum of the outcome list it reproduces |
| StateSpace.Enumerate | src/lib.rs:124 | the returned list has no duplicates and holds exactly the elements of the visited set |
| StateSpace.InitialStateIndices | src/lib.rs:89-113 | index 0 maps to the initial state; the initial state has a non-zero index exactly when it has been visited |
| StateSpace.DiscoverKeepsIndexed | src/lib.rs:109-114 | numbering an unvisited state with the counter keeps both maps inverse, the index range dense and `count = 1 + visited` |
| StateSpace.RecordedGrows | src/lib.rs:109-114 | recorded lists stay valid while the numbering and the visited set grow |
| StateSpace.ToEdgesMatch | src/lib.rs:117-119 | when every successor's index maps back to it, the recorded list reproduces the outcome list: same length, same probabilities and records, each index mapping back to its successor |
| StateSpace.Discover | src/lib.rs:110-114 | numbering sp: pushed on the stack, the next index, both maps updated by exactly one entry each, marked visited, the table unchanged |
| StateSpace.DiscoverKeepsInv | src/lib.rs:109-115 | numbering a successor of an expandable reachable state keeps the loop invariant |
| StateSpace.AddStart | src/lib.rs:108 | before the inner loop nothing has been added |
| StateSpace.AddExactStep | src/lib.rs:108-115 | each inner-loop turn grows the visited set by exactly the successor it meets, and not at all when that successor is already visited |
| StateSpace.AddStep | src/lib.rs:109-115 | an inner-loop turn that numbers a new successor keeps the invariant and marks one more successor visited |
| StateSpace.AddFresh | src/lib.rs:109-115 | numbering the successor met keeps the invariant, the growth from the loop's start, the table and the exact visited set |
| StateSpace.AddSeen | src/lib.rs:108-109 | an inner-loop turn that meets an already visited successor keeps the invariant unchanged |
| StateSpace.AddSuccessors | src/lib.rs:108-116 | after the inner loop the visited set is the old one plus exactly the successors in the list, the invariant holds and no list was recorded |
| StateSpace.IndexedRoundTrip | src/lib.rs:117-119 | every visited state has an index that maps back to it, so the line-118 lookup succeeds |
| StateSpace.RecordKeepsRecorded | src/lib.rs:117-120 | recording the list of (sidx, action) keeps every list equal to `step`'s output with indices from 1 on mapping back |
| StateSpace.Record | src/lib.rs:117-120 | the table gains the list of (sidx, action); nothing else changes |
| StateSpace.ExpandStart | src/lib.rs:98 | before the per-action loop nothing has been added |
| StateSpace.ExpandExactStep | src/lib.rs:98-121 | one action grows the visited set by exactly its successors and the table by exactly the key (sidx, action) |
| StateSpace.ExpandStep | src/lib.rs:98-121 | one action of the per-action loop keeps the invariant and adds the list for that action |
| StateSpace.ExpandState | src/lib.rs:98-121 | after the per-action loop the popped state's index has a list for every action below `nact`; the visited set grew by exactly the successors of the popped state, and the table by exactly the keys (sidx, a) for a below `nact` |
| StateSpace.Pop | src/lib.rs:95 | popping removes the last stack entry and nothing else |
| StateSpace.PopFacts | src/lib.rs:95-96 | the popped state has an index (the line-96 lookup succeeds) that maps back to it, and it is the initial state or reachable |
| StateSpace.PopCovered | src/lib.rs:94-122 | after an outer turn, every numbered state that is off the stack has a list for every action |
| StateSpace.PopDecreases | src/lib.rs:94-122 | an outer turn either visits a new state or shortens the stack, so the loop terminates |
| StateSpace.PopCoversStart | src/lib.rs:89-122 | index 0 has a list for every action after the first outer turn, and keeps them |
| StateSpace.PopStep | src/lib.rs:94-122 | one outer turn keeps the outer invariant and decreases the measure |
| StateSpace.FinishedClosed | src/lib.rs:94-122 | with an empty stack the visited set is closed under every action in use, from its members and from the initial state |
| StateSpace.FinishedReachable | src/lib.rs:94-122 | a closed visited set whose members are reachable holds exactly the reachable states |
| StateSpace.RecordedProbSum | src/lib.rs:117-120 | every recorded list sums to probability 1 |
| StateSpace.Finished | src/lib.rs:94-122 | at exit: closure, exactly the reachable states, a list for every numbered state and for every index, 0 included, and every action, lists summing to 1 |
| StateSpace.SetStateSpace | src/lib.rs:70-126 | the returned list is duplicate-free and holds exactly the states reachable in one or more steps; it is closed; the maps number the states densely, with index 0 kept for the initial state; every numbered state and every index, 0 included, has a list for every action below `nact`; each list reproduces `step` with successors as indices from 1 on, so no list leads to index 0, and sums to 1; from a flag of 0 or 1 every listed state has a flag of 0 or 1 |
| Scenarios.SmallLayout | src/lib.rs:56-65 | on the 8 × 6 grid, (2, 3) is a corridor cell and (3, 3) is not |
| Scenarios.CornerMoveJumps | src/lib.rs:30-44 | action 0 with offset (−1, 0) from ((0, 0), 0, None) on the 8 × 6 grid lands on (0, 5) |
| Scenarios.PickupOnCorridor | src/lib.rs:188-192 | pickup on corridor cell (2, 3) gives ((2, 3), 1, Some((2, 3))) with certainty |
| Scenarios.CarryOutOfCorridor | src/lib.rs:156-165 | carrying from (2, 3) east into (3, 3): ((3, 3), 1, Some((3, 3))) at 0.99 and ((3, 3), 0, Some((2, 3))) at 0.01 |
| Scenarios.TallGridRackOffGrid | src/lib.rs:60 | on a 6 × 10 grid the rack cell (7, 2) is off the grid for agent positions |

## Left out

- Python bindings: the `#[pyfunction]` marshalling and the `#[pymodule]` registration (src/lib.rs:49, 69, 231-237) are foreign interop.
- JSON text: `serde_json::to_string` of a `Word` is produced by an external crate. Each outcome carries the `Word` record instead of its text.
- `f64`: probabilities are exact reals 1.0, 0.99 and 0.01. Float rounding of these literals and of their sum is not modelled.
- Hash order: the order in which `visited` is collected into a vector is unspecified. `Enumerate` returns some duplicate-free enumeration, and `HashMap`/`HashSet` are `map`/`set`.
- Panics as preconditions: the `unwrap`s, the `assert!`s of `place_racks` and the `i8` sums that would overflow are preconditions, so the model says nothing about a panicking call. The preconditions are: the direction key present for movement actions, `nact ≤ 6`, `xsize > 5`, `ysize > 4`, and sums that fit `i8`.
- Grid.PosAddition: requires bounds of at most 127 and `max ≥ 1`. Wider bounds would make the `as i8` casts of `xmax`/`ymax` truncate, and `max = 0` underflows `usize`.
- Racks.PlaceRacks: requires `xsize, ysize ≤ 130`, so the `as i8` casts of the cells are identities.
- StateSpace.SetStateSpace: requires `nact ≤ 6` and a grid of at most 127 × 127. It also requires every movement offset in use to keep on-grid positions and the initial position within `i8`. The `i32` overflow of `state_count` is not modelled, since indices are unbounded integers.
- The Python gym environment and its registration (`warehouse/`) only call this library and are not part of this model.
