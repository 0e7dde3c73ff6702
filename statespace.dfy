/**
 * `set_state_space`: the worklist closure that enumerates every state the
 * transition rule reaches from an initial state, numbers the states, and
 * records the outcome list of every (state index, action) pair.
 */
module StateSpace {
  import opened Wrappers
  import opened Grid
  import opened Transition

  /** One recorded outcome: destination index, probability, serialised destination. */
  datatype Edge = Edge(dest: int, prob: real, word: Word)

  /** The read-only inputs of one build: action count, direction table, corridor cells, grid size. */
  datatype Env = Env(nact: int, dirs: map<U8, Pos>, racks: set<Pos>, xsize: int, ysize: int)

  /** A direction whose sum with any on-grid coordinate fits `i8`. */
  predicate DirFits(d: Pos, xsize: int, ysize: int)
  {
    xsize - 1 + d.0 <= 127 && ysize - 1 + d.1 <= 127
  }

  /**
   * What the build demands so that none of its `unwrap`s panics and no
   * `i8` sum overflows: at most the six registered actions, a grid that fits
   * `i8`, and every movement action in use present in the table, with an
   * offset that keeps both on-grid positions and the initial position in
   * range.
   */
  predicate BuildRequires(init: State, env: Env)
  {
    && 0 <= env.nact <= 6
    && 1 <= env.xsize <= 127 && 1 <= env.ysize <= 127
    && forall a: U8 :: a < env.nact && a < 4 ==>
         && a in env.dirs
         && DirFits(env.dirs[a], env.xsize, env.ysize)
         && InI8(init.pos.0 + env.dirs[a].0) && InI8(init.pos.1 + env.dirs[a].1)
  }

  /** States the build can expand: on the grid, or still at the initial position. */
  predicate Explorable(env: Env, init: State, s: State)
  {
    InGrid(s, env.xsize, env.ysize) || s.pos == init.pos
  }

  /** The outcome list `step` gives for s and a, empty when `step` may not be called. */
  function Outcomes(env: Env, s: State, a: int): seq<Outcome>
  {
    if 0 <= a < 256 && Steppable(s, a, env.dirs, env.xsize, env.ysize) then
      match Step(s, a, env.dirs, env.xsize, env.ysize, env.racks)
      case Ok(outs) => outs
      case Err(_) => []
    else []
  }

  /** The successor states of s under action a. */
  function Next(env: Env, s: State, a: int): seq<State>
  {
    Targets(Outcomes(env, s, a))
  }

  /** t is reached from init by exactly n transitions under actions below nact. */
  ghost predicate ReachableIn(env: Env, init: State, t: State, n: nat)
    decreases n
  {
    if n == 0 then t == init
    else exists p: State, a: int :: 0 <= a < env.nact && t in Next(env, p, a) && ReachableIn(env, init, p, n - 1)
  }

  /** t is reached from init by one or more transitions. */
  ghost predicate Reachable(env: Env, init: State, t: State)
  {
    exists n: nat :: 1 <= n && ReachableIn(env, init, t, n)
  }

  /** S holds every successor of init and of its own members. */
  ghost predicate Closed(env: Env, init: State, S: set<State>)
  {
    forall t, a :: (t in S || t == init) && 0 <= a < env.nact ==>
      forall u :: u in Next(env, t, a) ==> u in S
  }

  /** Every state reachable in one or more steps belongs to a closed set. */
  lemma {:induction false} ClosedHoldsReachable(env: Env, init: State, S: set<State>, t: State, n: nat)
    requires Closed(env, init, S)
    requires 1 <= n && ReachableIn(env, init, t, n)
    ensures t in S
    decreases n
  {
    var p: State, a: int :| 0 <= a < env.nact && t in Next(env, p, a) && ReachableIn(env, init, p, n - 1);
    if n > 1 {
      ClosedHoldsReachable(env, init, S, p, n - 1);
    }
  }

  /** From an initial flag of 0 or 1, every state reached in n transitions has a flag of 0 or 1. */
  lemma {:induction false} ReachableFlagBinary(env: Env, init: State, t: State, n: nat)
    requires init.carry <= 1 && ReachableIn(env, init, t, n)
    ensures t.carry <= 1
    decreases n
  {
    if n > 0 {
      var p: State, a: int :| 0 <= a < env.nact && t in Next(env, p, a) && ReachableIn(env, init, p, n - 1);
      ReachableFlagBinary(env, init, p, n - 1);
      NextKeepsFlagBinary(env, p, a);
    }
  }

  /** Every successor of a state with a flag of 0 or 1 has a flag of 0 or 1. */
  lemma NextKeepsFlagBinary(env: Env, p: State, a: int)
    requires p.carry <= 1
    ensures forall u :: u in Next(env, p, a) ==> u.carry <= 1
  {
    var outs := Outcomes(env, p, a);
    if 0 <= a < 256 && Steppable(p, a, env.dirs, env.xsize, env.ysize) {
      StepKeepsFlagBinary(p, a, env.dirs, env.xsize, env.ysize, env.racks);
    }
    forall u | u in Next(env, p, a)
      ensures u.carry <= 1
    {
      var k :| 0 <= k < |outs| && Targets(outs)[k] == u;
    }
  }

  /** From an initial flag of 0 or 1, every reachable state in a set has a flag of 0 or 1. */
  lemma ReachableFlagsBinary(env: Env, init: State, S: set<State>)
    requires init.carry <= 1 && forall t :: t in S ==> Reachable(env, init, t)
    ensures forall t :: t in S ==> t.carry <= 1
  {
    forall t | t in S
      ensures t.carry <= 1
    {
      var n: nat :| 1 <= n && ReachableIn(env, init, t, n);
      ReachableFlagBinary(env, init, t, n);
    }
  }

  /** Every state the build may expand can be passed to `step` with every action in use. */
  lemma ExplorableSteppable(env: Env, init: State, s: State, a: int)
    requires BuildRequires(init, env) && Explorable(env, init, s) && 0 <= a < env.nact
    ensures Steppable(s, a, env.dirs, env.xsize, env.ysize)
    ensures Step(s, a, env.dirs, env.xsize, env.ysize, env.racks).Ok?
    ensures Outcomes(env, s, a) == Step(s, a, env.dirs, env.xsize, env.ysize, env.racks).value
  {
  }

  /** Successors of an expandable state are expandable. */
  lemma ExplorableClosed(env: Env, init: State, s: State, a: int)
    requires BuildRequires(init, env) && Explorable(env, init, s) && 0 <= a < env.nact
    ensures forall u :: u in Next(env, s, a) ==> Explorable(env, init, u)
  {
    ExplorableSteppable(env, init, s, a);
    if a < 4 {
      MoveLandsOnGrid(s, a, env.dirs, env.xsize, env.ysize, env.racks);
    } else {
      PickupDropKeepPosition(s, a, env.dirs, env.xsize, env.ysize, env.racks);
    }
  }

  /** Sum of the probabilities of a recorded list. */
  function EdgeProbSum(es: seq<Edge>): real
  {
    if es == [] then 0.0 else es[0].prob + EdgeProbSum(es[1..])
  }

  /** A recorded list reproduces an outcome list, each successor replaced by an index that maps back to it. */
  ghost predicate EdgesMatch(es: seq<Edge>, outs: seq<Outcome>, revMap: map<int, State>)
  {
    && |es| == |outs|
    && forall k :: 0 <= k < |es| ==>
         && es[k].dest in revMap && revMap[es[k].dest] == outs[k].next
         && es[k].prob == outs[k].prob && es[k].word == outs[k].word
  }

  /** A recorded list has the probabilities, and so the probability sum, of the outcome list it reproduces. */
  lemma {:induction false} EdgesMatchProbSum(es: seq<Edge>, outs: seq<Outcome>, revMap: map<int, State>)
    requires EdgesMatch(es, outs, revMap)
    ensures EdgeProbSum(es) == ProbSum(outs)
    decreases |es|
  {
    if es != [] {
      assert EdgesMatch(es[1..], outs[1..], revMap) by {
        forall k | 0 <= k < |es[1..]|
          ensures es[1..][k] == es[k + 1] && outs[1..][k] == outs[k + 1]
        {
        }
      }
      EdgesMatchProbSum(es[1..], outs[1..], revMap);
    }
  }

  /** Sequences without repeated elements. */
  predicate NoDuplicates<T(==)>(xs: seq<T>)
  {
    forall i, j :: 0 <= i < j < |xs| ==> xs[i] != xs[j]
  }

  /** The elements of a sequence. */
  ghost function Elements<T>(xs: seq<T>): set<T>
  {
    set t | t in xs
  }

  /** `visited.into_iter().collect()`: the elements of a set, each once, in an order left open. */
  method Enumerate<T(==)>(s: set<T>) returns (xs: seq<T>)
    ensures NoDuplicates(xs) && |xs| == |s|
    ensures forall t :: t in xs <==> t in s
    ensures Elements(xs) == s
  {
    xs := [];
    var rest := s;
    while rest != {}
      invariant rest <= s
      invariant forall t :: t in xs <==> t in s && t !in rest
      invariant NoDuplicates(xs)
      invariant |xs| + |rest| == |s|
      decreases rest
    {
      var t :| t in rest;
      xs := xs + [t];
      rest := rest - {t};
    }
  }

  /** Every state of the model, a finite set because every field is bounded. */
  ghost function AllStates(): set<State>
  {
    (set x: int, y: int, c: int | -128 <= x < 128 && -128 <= y < 128 && 0 <= c < 256 :: State((x, y), c, None)) +
    (set x: int, y: int, c: int, rx: int, ry: int |
       -128 <= x < 128 && -128 <= y < 128 && 0 <= c < 256 && 0 <= rx < 256 && 0 <= ry < 256
       :: State((x, y), c, Some((rx, ry))))
  }

  lemma InAllStates(s: State)
    ensures s in AllStates()
  {
    match s.rack
    case None =>
      assert s == State((s.pos.0, s.pos.1), s.carry, None);
    case Some(v) =>
      assert s == State((s.pos.0, s.pos.1), s.carry, Some((v.0, v.1)));
  }

  /**
   * The numbering: indices 0 .. count-1 are in use, index 0 keeps the
   * initial state, every numbered state maps to an index that maps back to
   * it, the indices from 1 on are exactly the visited states, and the
   * initial state keeps index 0 until it is visited itself.
   */
  ghost predicate Indexed(init: State, stateMap: map<State, int>, revMap: map<int, State>, count: int, visited: set<State>)
  {
    && count == 1 + |visited|
    && (forall t :: t in stateMap <==> t in visited || t == init)
    && (forall i :: i in revMap <==> 0 <= i < count)
    && revMap[0] == init
    && (forall t :: t in stateMap ==> stateMap[t] in revMap && revMap[stateMap[t]] == t)
    && (forall i :: 1 <= i < count ==> revMap[i] in visited && stateMap[revMap[i]] == i)
    && (forall t :: t in visited ==> 1 <= stateMap[t])
    && (init !in visited ==> stateMap[init] == 0)
  }

  /**
   * The initial state is numbered 0 but not marked visited; once it is
   * visited it carries a second, later index while index 0 still maps back
   * to it, and before that its only index is 0.
   */
  lemma InitialStateIndices(init: State, stateMap: map<State, int>, revMap: map<int, State>, count: int, visited: set<State>)
    requires Indexed(init, stateMap, revMap, count, visited)
    ensures init in stateMap && revMap[0] == init && revMap[stateMap[init]] == init
    ensures init in visited <==> stateMap[init] != 0
  {
  }

  /**
   * Every recorded list belongs to an action in use, reproduces `step` at
   * its source index and leads to visited states, by indices from 1 on:
   * no list leads to index 0.
   */
  ghost predicate Recorded(env: Env, transitions: map<(int, U8), seq<Edge>>, revMap: map<int, State>, visited: set<State>)
  {
    forall i: int, a: U8 :: (i, a) in transitions ==>
      && i in revMap && a < env.nact
      && EdgesMatch(transitions[(i, a)], Outcomes(env, revMap[i], a), revMap)
      && forall k :: 0 <= k < |transitions[(i, a)]| ==>
           1 <= transitions[(i, a)][k].dest && revMap[transitions[(i, a)][k].dest] in visited
  }

  /** Index i has a recorded list for every action in use. */
  ghost predicate Covered(env: Env, transitions: map<(int, U8), seq<Edge>>, i: int)
  {
    forall a: U8 :: a < env.nact ==> (i, a) in transitions
  }

  /** Every visited state is reachable from the initial state. */
  ghost predicate Witnessed(env: Env, init: State, visited: set<State>)
  {
    forall t :: t in visited ==> Reachable(env, init, t)
  }

  /** A successor of the initial state or of a reachable state is reachable. */
  lemma StepReaches(env: Env, init: State, s: State, a: int, sp: State)
    requires s == init || Reachable(env, init, s)
    requires 0 <= a < env.nact && sp in Next(env, s, a)
    ensures Reachable(env, init, sp)
  {
    if s == init {
      assert ReachableIn(env, init, s, 0);
      assert ReachableIn(env, init, sp, 1);
    } else {
      var n: nat :| 1 <= n && ReachableIn(env, init, s, n);
      assert ReachableIn(env, init, sp, n + 1);
    }
  }

  /** Recorded lists stay valid while the numbering and the visited set grow. */
  lemma RecordedGrows(env: Env, transitions: map<(int, U8), seq<Edge>>,
                      revMap: map<int, State>, visited: set<State>,
                      revMap': map<int, State>, visited': set<State>)
    requires Recorded(env, transitions, revMap, visited)
    requires forall i :: i in revMap ==> i in revMap' && revMap'[i] == revMap[i]
    requires visited <= visited'
    ensures Recorded(env, transitions, revMap', visited')
  {
    forall i: int, a: U8 | (i, a) in transitions
      ensures i in revMap' && EdgesMatch(transitions[(i, a)], Outcomes(env, revMap'[i], a), revMap')
    {
      assert i in revMap;
    }
  }

  /** Numbering a state not visited yet: the next index, both maps, the visited set. */
  lemma DiscoverKeepsIndexed(init: State, stateMap: map<State, int>, revMap: map<int, State>,
                             count: int, visited: set<State>, sp: State)
    requires Indexed(init, stateMap, revMap, count, visited) && sp !in visited
    ensures Indexed(init, stateMap[sp := count], revMap[count := sp], count + 1, visited + {sp})
    ensures forall i :: i in revMap ==> i in revMap[count := sp] && revMap[count := sp][i] == revMap[i]
  {
    var stateMap', revMap' := stateMap[sp := count], revMap[count := sp];
    forall t | t in stateMap'
      ensures stateMap'[t] in revMap' && revMap'[stateMap'[t]] == t
    {
      if t != sp {
        assert stateMap[t] < count;
      }
    }
    forall i | 1 <= i < count + 1
      ensures revMap'[i] in visited + {sp} && stateMap'[revMap'[i]] == i
    {
      if i < count {
        assert revMap[i] in visited;
      }
    }
  }

  /** The list recorded for one action: each successor replaced by its index. */
  function ToEdges(outs: seq<Outcome>, stateMap: map<State, int>): seq<Edge>
    requires forall k :: 0 <= k < |outs| ==> outs[k].next in stateMap
  {
    seq(|outs|, k requires 0 <= k < |outs| => Edge(stateMap[outs[k].next], outs[k].prob, outs[k].word))
  }

  /** When each successor's index maps back to it, the recorded list reproduces the outcome list. */
  lemma ToEdgesMatch(outs: seq<Outcome>, stateMap: map<State, int>, revMap: map<int, State>)
    requires forall k :: 0 <= k < |outs| ==> outs[k].next in stateMap
    requires forall k :: 0 <= k < |outs| ==>
      stateMap[outs[k].next] in revMap && revMap[stateMap[outs[k].next]] == outs[k].next
    ensures EdgesMatch(ToEdges(outs, stateMap), outs, revMap)
  {
    var es := ToEdges(outs, stateMap);
    assert |es| == |outs|;
    forall k | 0 <= k < |outs|
      ensures es[k] == Edge(stateMap[outs[k].next], outs[k].prob, outs[k].word)
    {
    }
  }

  /** The mutable locals of `set_state_space`: worklist, both index maps, the next index, the visited set and the transition table. */
  datatype Search = Search(stack: seq<State>, stateMap: map<State, int>, revMap: map<int, State>,
                           count: int, visited: set<State>, transitions: map<(int, U8), seq<Edge>>)

  /** What holds of the locals between any two statements of the loops. */
  ghost predicate Inv(env: Env, init: State, sr: Search)
  {
    && Indexed(init, sr.stateMap, sr.revMap, sr.count, sr.visited)
    && (forall t :: t in sr.stack ==> t in sr.stateMap)
    && (forall t :: t in sr.stateMap ==> Explorable(env, init, t))
    && Recorded(env, sr.transitions, sr.revMap, sr.visited)
    && Witnessed(env, init, sr.visited)
  }

  /**
   * How the locals may change: indices keep their states, visited states and
   * recorded lists stay, the worklist only grows at its end and only when a
   * state is visited, and a numbered state either keeps its index or is on
   * the worklist.
   */
  ghost predicate Extends(sr: Search, sr': Search)
  {
    && (forall i :: i in sr.revMap ==> i in sr'.revMap && sr'.revMap[i] == sr.revMap[i])
    && sr.visited <= sr'.visited
    && sr.stack <= sr'.stack
    && (sr'.visited == sr.visited ==> sr'.stack == sr.stack)
    && (forall i: int, a: U8 :: (i, a) in sr.transitions ==> (i, a) in sr'.transitions)
    && (forall t :: t in sr'.stateMap ==>
          t in sr'.stack || (t in sr.stateMap && sr'.stateMap[t] == sr.stateMap[t]))
  }

  lemma ExtendsTransitive(sr: Search, sr': Search, sr'': Search)
    requires Extends(sr, sr') && Extends(sr', sr'')
    ensures Extends(sr, sr'')
  {
  }

  /** The locals after numbering sp: the next index, both map entries, the visited set and the worklist. */
  function Discover(sr: Search, sp: State): (sr': Search)
    ensures sr'.visited == sr.visited + {sp} && sr'.stack == sr.stack + [sp]
    ensures sr'.count == sr.count + 1 && sr'.transitions == sr.transitions
    ensures sr'.stateMap == sr.stateMap[sp := sr.count] && sr'.revMap == sr.revMap[sr.count := sp]
  {
    Search(sr.stack + [sp], sr.stateMap[sp := sr.count], sr.revMap[sr.count := sp],
           sr.count + 1, sr.visited + {sp}, sr.transitions)
  }

  /** Numbering a successor of an expandable, reachable state keeps the invariant. */
  lemma DiscoverKeepsInv(env: Env, init: State, sr: Search, s: State, action: int, sp: State)
    requires BuildRequires(init, env) && Inv(env, init, sr)
    requires Explorable(env, init, s) && (s == init || Reachable(env, init, s))
    requires 0 <= action < env.nact && sp in Next(env, s, action) && sp !in sr.visited
    ensures Inv(env, init, Discover(sr, sp)) && Extends(sr, Discover(sr, sp))
  {
    ExplorableClosed(env, init, s, action);
    StepReaches(env, init, s, action, sp);
    DiscoverKeepsIndexed(init, sr.stateMap, sr.revMap, sr.count, sr.visited, sp);
    RecordedGrows(env, sr.transitions, sr.revMap, sr.visited, sr.revMap[sr.count := sp], sr.visited + {sp});
  }

  /** The successor states of the first j outcomes of v. */
  ghost function FirstTargets(v: seq<Outcome>, j: int): set<State>
  {
    set k | 0 <= k < j && k < |v| :: v[k].next
  }

  /** One more outcome adds its successor state. */
  lemma FirstTargetsStep(v: seq<Outcome>, j: int)
    requires 0 <= j < |v|
    ensures FirstTargets(v, j + 1) == FirstTargets(v, j) + {v[j].next}
  {
    forall t | t in FirstTargets(v, j + 1)
      ensures t in FirstTargets(v, j) + {v[j].next}
    {
      var k :| 0 <= k < j + 1 && k < |v| && v[k].next == t;
      if k < j {
        assert t in FirstTargets(v, j);
      }
    }
  }

  /** The visited set is visited0 grown by exactly the successors of the first j outcomes of v. */
  ghost predicate AddExact(v: seq<Outcome>, j: int, visited0: set<State>, visited: set<State>)
  {
    visited == visited0 + FirstTargets(v, j)
  }

  /** Meeting the next outcome keeps AddExact, whether its successor is new or already visited. */
  lemma AddExactStep(v: seq<Outcome>, j: int, visited0: set<State>, visited: set<State>)
    requires AddExact(v, j, visited0, visited) && 0 <= j < |v|
    ensures AddExact(v, j + 1, visited0, visited + {v[j].next})
    ensures v[j].next in visited ==> AddExact(v, j + 1, visited0, visited)
  {
    FirstTargetsStep(v, j);
  }

  /**
   * After the first j successors in v: the invariant, growth from sr0, no
   * new list, and the visited set grown by exactly those j successors.
   */
  ghost predicate AddInv(env: Env, init: State, v: seq<Outcome>, j: int, sr0: Search, sr: Search)
  {
    && 0 <= j <= |v|
    && Inv(env, init, sr) && Extends(sr0, sr)
    && sr.transitions == sr0.transitions
    && (forall k :: 0 <= k < j ==> v[k].next in sr.visited)
    && AddExact(v, j, sr0.visited, sr.visited)
  }

  /** Every state of an outcome list is a successor. */
  lemma OutcomeInNext(env: Env, s: State, a: int, v: seq<Outcome>, j: int)
    requires v == Outcomes(env, s, a) && 0 <= j < |v|
    ensures v[j].next in Next(env, s, a)
  {
    assert Targets(v)[j] == v[j].next;
  }

  /** Before the successor loop nothing has changed: AddInv holds at j = 0. */
  lemma AddStart(env: Env, init: State, v: seq<Outcome>, sr: Search)
    requires Inv(env, init, sr)
    ensures AddInv(env, init, v, 0, sr, sr)
  {
    assert FirstTargets(v, 0) == {};
  }

  /** A turn of the successor loop that numbers a new successor keeps AddInv. */
  lemma AddStep(env: Env, init: State, s: State, action: int, v: seq<Outcome>, j: int, sr0: Search, sr: Search)
    requires BuildRequires(init, env)
    requires Explorable(env, init, s) && (s == init || Reachable(env, init, s))
    requires 0 <= action < env.nact && v == Outcomes(env, s, action)
    requires AddInv(env, init, v, j, sr0, sr) && j < |v| && v[j].next !in sr.visited
    ensures AddInv(env, init, v, j + 1, sr0, Discover(sr, v[j].next))
  {
    OutcomeInNext(env, s, action, v, j);
    DiscoverKeepsInv(env, init, sr, s, action, v[j].next);
    AddFresh(env, init, v, j, sr0, sr);
  }

  /** Numbering the next successor keeps AddInv once the invariant and growth of the new locals are known. */
  lemma AddFresh(env: Env, init: State, v: seq<Outcome>, j: int, sr0: Search, sr: Search)
    requires AddInv(env, init, v, j, sr0, sr) && j < |v| && v[j].next !in sr.visited
    requires Inv(env, init, Discover(sr, v[j].next)) && Extends(sr, Discover(sr, v[j].next))
    ensures AddInv(env, init, v, j + 1, sr0, Discover(sr, v[j].next))
  {
    var sr' := Discover(sr, v[j].next);
    ExtendsTransitive(sr0, sr, sr');
    AddExactStep(v, j, sr0.visited, sr.visited);
    assert forall k :: 0 <= k < j + 1 ==> v[k].next in sr'.visited;
  }

  /** A turn of the successor loop that meets an already visited successor keeps AddInv. */
  lemma AddSeen(env: Env, init: State, v: seq<Outcome>, j: int, sr0: Search, sr: Search)
    requires AddInv(env, init, v, j, sr0, sr) && j < |v| && v[j].next in sr.visited
    ensures AddInv(env, init, v, j + 1, sr0, sr)
  {
    AddExactStep(v, j, sr0.visited, sr.visited);
    assert forall k :: 0 <= k < j + 1 ==> v[k].next in sr.visited;
  }

  /**
   * The innermost loop of `set_state_space`: every successor in v not yet
   * visited gets the next index, both map entries, a place in the visited
   * set and on the worklist.
   */
  method AddSuccessors(ghost env: Env, init: State, s: State, action: U8, v: seq<Outcome>, sr: Search)
    returns (sr': Search)
    requires BuildRequires(init, env) && Inv(env, init, sr)
    requires Explorable(env, init, s) && (s == init || Reachable(env, init, s))
    requires action < env.nact && v == Outcomes(env, s, action)
    ensures AddInv(env, init, v, |v|, sr, sr')
  {
    sr' := sr;
    var j := 0;
    AddStart(env, init, v, sr);
    while j < |v|
      invariant AddInv(env, init, v, j, sr, sr')
      decreases |v| - j
    {
      var sp := v[j].next;
      if sp !in sr'.visited {
        AddStep(env, init, s, action, v, j, sr, sr');
        sr' := Discover(sr', sp);
      } else {
        AddSeen(env, init, v, j, sr, sr');
      }
      j := j + 1;
    }
  }

  /** The locals after recording the list of (sidx, action). */
  function Record(sr: Search, sidx: int, action: U8, v: seq<Outcome>): (sr': Search)
    requires forall k :: 0 <= k < |v| ==> v[k].next in sr.stateMap
    ensures sr'.transitions == sr.transitions[(sidx, action) := ToEdges(v, sr.stateMap)]
    ensures sr' == sr.(transitions := sr'.transitions)
  {
    sr.(transitions := sr.transitions[(sidx, action) := ToEdges(v, sr.stateMap)])
  }

  /** The numbering maps every visited state to an index that maps back, and every index to a numbered state. */
  lemma IndexedRoundTrip(init: State, stateMap: map<State, int>, revMap: map<int, State>, count: int, visited: set<State>)
    requires Indexed(init, stateMap, revMap, count, visited)
    ensures forall t :: t in visited ==> t in stateMap && 1 <= stateMap[t] && stateMap[t] in revMap && revMap[stateMap[t]] == t
    ensures forall i :: i in revMap ==> revMap[i] in stateMap
  {
    forall i | i in revMap
      ensures revMap[i] in stateMap
    {
      if i != 0 {
        assert revMap[i] in visited;
      }
    }
  }

  /** Recording the list of a (source index, action) pair whose successors are all visited keeps Recorded. */
  lemma RecordKeepsRecorded(env: Env, transitions: map<(int, U8), seq<Edge>>, stateMap: map<State, int>,
                            revMap: map<int, State>, visited: set<State>, sidx: int, action: U8, v: seq<Outcome>)
    requires Recorded(env, transitions, revMap, visited)
    requires sidx in revMap && action < env.nact && v == Outcomes(env, revMap[sidx], action)
    requires forall k :: 0 <= k < |v| ==> v[k].next in visited
    requires forall t :: t in visited ==> t in stateMap && 1 <= stateMap[t] && stateMap[t] in revMap && revMap[stateMap[t]] == t
    ensures Recorded(env, transitions[(sidx, action) := ToEdges(v, stateMap)], revMap, visited)
  {
    var es := ToEdges(v, stateMap);
    ToEdgesMatch(v, stateMap, revMap);
    assert forall k :: 0 <= k < |es| ==> 1 <= es[k].dest && revMap[es[k].dest] in visited;
  }

  /** The successor states of s under the actions below `action`. */
  ghost function SuccessorsBelow(env: Env, s: State, action: int): set<State>
    decreases action
  {
    if action <= 0 then {}
    else SuccessorsBelow(env, s, action - 1) + FirstTargets(Outcomes(env, s, action - 1), |Outcomes(env, s, action - 1)|)
  }

  /**
   * After the actions below `action`: the invariant, growth from sr0, the
   * visited set grown by exactly the successors of s under those actions,
   * and the table grown by exactly a list for each of those actions at sidx.
   */
  ghost predicate ExpandInv(env: Env, init: State, s: State, sidx: int, action: int, sr0: Search, sr: Search)
  {
    && 0 <= action <= env.nact
    && Inv(env, init, sr) && Extends(sr0, sr)
    && sidx in sr.revMap && sr.revMap[sidx] == s
    && (forall a: U8 :: a < action ==> (sidx, a) in sr.transitions)
    && ExpandExact(env, s, sidx, action, sr0, sr)
  }

  /**
   * The visited set is that of sr0 grown by exactly the successors of s under
   * the actions below `action`, and the table that of sr0 grown by lists at
   * sidx for those actions only.
   */
  ghost predicate ExpandExact(env: Env, s: State, sidx: int, action: int, sr0: Search, sr: Search)
  {
    && sr.visited == sr0.visited + SuccessorsBelow(env, s, action)
    && (forall i: int, a: U8 :: (i, a) in sr.transitions ==> (i, a) in sr0.transitions || (i == sidx && a < action))
  }

  /** Adding the successors of (s, action) and then its list keeps ExpandExact for one more action. */
  lemma ExpandExactStep(env: Env, s: State, sidx: int, action: U8, v: seq<Outcome>,
                        sr0: Search, sr: Search, sr1: Search, es: seq<Edge>)
    requires ExpandExact(env, s, sidx, action, sr0, sr) && v == Outcomes(env, s, action)
    requires AddExact(v, |v|, sr.visited, sr1.visited) && sr1.transitions == sr.transitions
    ensures ExpandExact(env, s, sidx, action + 1, sr0, sr1.(transitions := sr1.transitions[(sidx, action) := es]))
  {
  }

  /** Before the per-action loop nothing has changed: ExpandInv holds at action 0. */
  lemma ExpandStart(env: Env, init: State, s: State, sidx: int, sr: Search)
    requires env.nact >= 0 && Inv(env, init, sr) && sidx in sr.revMap && sr.revMap[sidx] == s
    ensures ExpandInv(env, init, s, sidx, 0, sr, sr)
  {
  }

  /** Once the successors of (s, action) are visited, the list can be recorded, and recording it keeps ExpandInv. */
  lemma ExpandStep(env: Env, init: State, s: State, sidx: int, action: U8, v: seq<Outcome>,
                   sr0: Search, sr: Search, sr1: Search)
    requires ExpandInv(env, init, s, sidx, action, sr0, sr) && action < env.nact
    requires v == Outcomes(env, s, action) && AddInv(env, init, v, |v|, sr, sr1)
    ensures forall k :: 0 <= k < |v| ==> v[k].next in sr1.stateMap
    ensures ExpandInv(env, init, s, sidx, action + 1, sr0, Record(sr1, sidx, action, v))
  {
    ExtendsTransitive(sr0, sr, sr1);
    IndexedRoundTrip(init, sr1.stateMap, sr1.revMap, sr1.count, sr1.visited);
    RecordKeepsRecorded(env, sr1.transitions, sr1.stateMap, sr1.revMap, sr1.visited, sidx, action, v);
    var sr2 := Record(sr1, sidx, action, v);
    assert Extends(sr1, sr2);
    ExtendsTransitive(sr0, sr1, sr2);
    ExpandExactStep(env, s, sidx, action, v, sr0, sr, sr1, ToEdges(v, sr1.stateMap));
  }

  /** The per-action loop of `set_state_space`: every action below nact is applied to the popped state s at index sidx. */
  method ExpandState(ghost env: Env, init: State, s: State, sidx: int,
                     nact: int, dirs: map<U8, Pos>, racks: set<Pos>, gridSize: (int, int), sr: Search)
    returns (sr': Search)
    requires env == Env(nact, dirs, racks, gridSize.0, gridSize.1)
    requires BuildRequires(init, env) && Inv(env, init, sr)
    requires s in sr.stateMap && sidx in sr.revMap && sr.revMap[sidx] == s
    requires s == init || Reachable(env, init, s)
    ensures ExpandInv(env, init, s, sidx, nact, sr, sr')
  {
    sr' := sr;
    var action := 0;
    ExpandStart(env, init, s, sidx, sr);
    while action < nact
      invariant ExpandInv(env, init, s, sidx, action, sr, sr')
    {
      ExplorableSteppable(env, init, s, action);
      var v := Step(s, action, dirs, gridSize.0, gridSize.1, racks).value;
      var sr1 := AddSuccessors(env, init, s, action, v, sr');
      ExpandStep(env, init, s, sidx, action, v, sr, sr', sr1);
      sr' := Record(sr1, sidx, action, v);
      action := action + 1;
    }
    assert action == nact;
  }

  /** Every numbered state off the worklist has a list for every action in use. */
  ghost predicate CoveredOffStack(env: Env, sr: Search)
  {
    forall t :: t in sr.stateMap ==> t in sr.stack || Covered(env, sr.transitions, sr.stateMap[t])
  }

  /** The locals before the first turn: `init` on the worklist at index 0, nothing visited, an empty table. */
  function Start(init: State): Search
  {
    Search([init], map[init := 0], map[0 := init], 1, {}, map[])
  }

  /**
   * Between two turns of the outer loop: the invariant, all lists for every
   * numbered state off the worklist, and all lists for index 0 once the
   * first turn is done.
   */
  ghost predicate MainInv(env: Env, init: State, sr: Search)
  {
    && Inv(env, init, sr) && CoveredOffStack(env, sr)
    && (sr == Start(init) || Covered(env, sr.transitions, 0))
  }

  /** The locals after popping the worklist. */
  function Pop(sr: Search): (sr': Search)
    requires sr.stack != []
    ensures sr'.stack == sr.stack[..|sr.stack| - 1]
    ensures sr' == sr.(stack := sr'.stack)
  {
    sr.(stack := sr.stack[..|sr.stack| - 1])
  }

  /** The state on top of the worklist can be expanded at its current index. */
  lemma PopFacts(env: Env, init: State, sr: Search)
    requires Inv(env, init, sr) && sr.stack != []
    ensures Inv(env, init, Pop(sr))
    ensures var s := sr.stack[|sr.stack| - 1];
      && s in sr.stateMap && sr.stateMap[s] in sr.revMap && sr.revMap[sr.stateMap[s]] == s
      && (s == init || Reachable(env, init, s))
  {
    var s := sr.stack[|sr.stack| - 1];
    assert s in sr.stack;
  }

  /** A list for each action at index i survives a table that keeps every key. */
  lemma CoveredGrows(env: Env, transitions: map<(int, U8), seq<Edge>>, transitions': map<(int, U8), seq<Edge>>, i: int)
    requires Covered(env, transitions, i)
    requires forall j: int, a: U8 :: (j, a) in transitions ==> (j, a) in transitions'
    ensures Covered(env, transitions', i)
  {
    forall a: U8 | a < env.nact
      ensures (i, a) in transitions'
    {
      assert (i, a) in transitions;
    }
  }

  /** An element of a non-empty sequence is its last element or lies before it. */
  lemma InPopped<T>(xs: seq<T>, t: T)
    requires t in xs
    ensures t == xs[|xs| - 1] || t in xs[..|xs| - 1]
  {
    var i :| 0 <= i < |xs| && xs[i] == t;
    if i < |xs| - 1 {
      assert xs[..|xs| - 1][i] == t;
    }
  }

  /** Once the popped state has all its lists, every numbered state off the worklist has them again. */
  lemma PopCovered(env: Env, sr: Search, sr': Search)
    requires CoveredOffStack(env, sr) && sr.stack != []
    requires Extends(Pop(sr), sr')
    requires var s := sr.stack[|sr.stack| - 1];
      s in sr.stateMap && Covered(env, sr'.transitions, sr.stateMap[s])
    ensures CoveredOffStack(env, sr')
  {
    var s := sr.stack[|sr.stack| - 1];
    var popped := Pop(sr);
    assert popped.stateMap == sr.stateMap && popped.transitions == sr.transitions;
    forall t | t in sr'.stateMap
      ensures t in sr'.stack || Covered(env, sr'.transitions, sr'.stateMap[t])
    {
      if t !in sr'.stack {
        assert t in popped.stateMap && sr'.stateMap[t] == popped.stateMap[t];
        if t in sr.stack {
          InPopped(sr.stack, t);
          assert t !in popped.stack;
          assert t == s && sr'.stateMap[t] == sr.stateMap[s];
        } else {
          CoveredGrows(env, sr.transitions, sr'.transitions, sr.stateMap[t]);
        }
      }
    }
  }

  /** Expanding the popped state visits a new state or leaves the worklist shorter. */
  lemma PopDecreases(sr: Search, sr': Search)
    requires sr.stack != [] && Extends(Pop(sr), sr')
    ensures sr'.visited == sr.visited ==> |sr'.stack| < |sr.stack|
    ensures sr'.visited != sr.visited ==> AllStates() - sr'.visited < AllStates() - sr.visited
  {
    if sr'.visited != sr.visited {
      var sp :| sp in sr'.visited && sp !in sr.visited;
      InAllStates(sp);
      assert sp in AllStates() - sr.visited;
    }
  }

  /** Index 0 has all its lists after the first turn, and keeps them after every later one. */
  lemma PopCoversStart(env: Env, init: State, sr: Search, sr': Search)
    requires sr == Start(init) || Covered(env, sr.transitions, 0)
    requires sr.stack != [] && Extends(Pop(sr), sr')
    requires var s := sr.stack[|sr.stack| - 1];
      s in sr.stateMap && Covered(env, sr'.transitions, sr.stateMap[s])
    ensures Covered(env, sr'.transitions, 0)
  {
    if sr != Start(init) {
      CoveredGrows(env, Pop(sr).transitions, sr'.transitions, 0);
    }
  }

  /** One turn of the outer loop keeps MainInv and decreases the loop measure. */
  lemma PopStep(env: Env, init: State, sr: Search, sr': Search)
    requires MainInv(env, init, sr) && sr.stack != []
    requires var s := sr.stack[|sr.stack| - 1];
      s in sr.stateMap && ExpandInv(env, init, s, sr.stateMap[s], env.nact, Pop(sr), sr')
    ensures MainInv(env, init, sr')
    ensures sr'.visited == sr.visited ==> |sr'.stack| < |sr.stack|
    ensures sr'.visited != sr.visited ==> AllStates() - sr'.visited < AllStates() - sr.visited
  {
    PopCovered(env, sr, sr');
    PopCoversStart(env, init, sr, sr');
    PopDecreases(sr, sr');
  }

  /** With an empty worklist the visited set is closed under every action in use. */
  lemma FinishedClosed(env: Env, init: State, sr: Search)
    requires BuildRequires(init, env)
    requires Indexed(init, sr.stateMap, sr.revMap, sr.count, sr.visited)
    requires Recorded(env, sr.transitions, sr.revMap, sr.visited)
    requires CoveredOffStack(env, sr) && sr.stack == []
    ensures Closed(env, init, sr.visited)
  {
    forall t, a | (t in sr.visited || t == init) && 0 <= a < env.nact
      ensures forall u :: u in Next(env, t, a) ==> u in sr.visited
    {
      var i := sr.stateMap[t];
      assert Covered(env, sr.transitions, i);
      assert (i, a as U8) in sr.transitions;
      var es := sr.transitions[(i, a)];
      var outs := Outcomes(env, t, a);
      assert EdgesMatch(es, outs, sr.revMap);
      forall u | u in Next(env, t, a)
        ensures u in sr.visited
      {
        var k :| 0 <= k < |outs| && outs[k].next == u;
        assert sr.revMap[es[k].dest] == u;
      }
    }
  }

  /** A closed visited set whose members are all reachable holds exactly the reachable states. */
  lemma FinishedReachable(env: Env, init: State, visited: set<State>)
    requires Closed(env, init, visited) && Witnessed(env, init, visited)
    ensures forall t :: t in visited <==> Reachable(env, init, t)
  {
    forall t | Reachable(env, init, t)
      ensures t in visited
    {
      var n: nat :| 1 <= n && ReachableIn(env, init, t, n);
      ClosedHoldsReachable(env, init, visited, t, n);
    }
  }

  /** Every recorded list of an expandable state sums to 1. */
  lemma RecordedProbSum(env: Env, init: State, transitions: map<(int, U8), seq<Edge>>, revMap: map<int, State>,
                        visited: set<State>)
    requires BuildRequires(init, env) && Recorded(env, transitions, revMap, visited)
    requires forall i :: i in revMap ==> Explorable(env, init, revMap[i])
    ensures forall i: int, a: U8 :: (i, a) in transitions ==> EdgeProbSum(transitions[(i, a)]) == 1.0
  {
    forall i: int, a: U8 | (i, a) in transitions
      ensures EdgeProbSum(transitions[(i, a)]) == 1.0
    {
      ExplorableSteppable(env, init, revMap[i], a);
      EdgesMatchProbSum(transitions[(i, a)], Outcomes(env, revMap[i], a), revMap);
    }
  }

  /** Once the worklist is empty the visited set is closed, holds exactly the reachable states, and every list sums to 1. */
  lemma Finished(env: Env, init: State, sr: Search)
    requires BuildRequires(init, env) && MainInv(env, init, sr) && sr.stack == []
    ensures Closed(env, init, sr.visited)
    ensures forall t :: t in sr.visited <==> Reachable(env, init, t)
    ensures forall t, a: U8 :: t in sr.stateMap && a < env.nact ==> (sr.stateMap[t], a) in sr.transitions
    ensures forall i, a: U8 :: i in sr.revMap && a < env.nact ==> (i, a) in sr.transitions
    ensures forall i: int, a: U8 :: (i, a) in sr.transitions ==> EdgeProbSum(sr.transitions[(i, a)]) == 1.0
  {
    FinishedClosed(env, init, sr);
    FinishedReachable(env, init, sr.visited);
    forall t, a: U8 | t in sr.stateMap && a < env.nact
      ensures (sr.stateMap[t], a) in sr.transitions
    {
      assert Covered(env, sr.transitions, sr.stateMap[t]);
    }
    IndexedRoundTrip(init, sr.stateMap, sr.revMap, sr.count, sr.visited);
    forall i, a: U8 | i in sr.revMap && a < env.nact
      ensures (i, a) in sr.transitions
    {
      if i != 0 {
        assert Covered(env, sr.transitions, sr.stateMap[sr.revMap[i]]);
      }
    }
    RecordedProbSum(env, init, sr.transitions, sr.revMap, sr.visited);
  }

  /**
   * `set_state_space`. The returned list holds every state reachable from
   * `init` in one or more steps, each once; `init` itself is among them only
   * when it is reached again, and then it has a second index while index 0
   * still maps back to it. The two maps number the states densely, the
   * transition table has a list for every numbered state and every index,
   * 0 included, and every action below `nact`, each list reproduces
   * `step`'s outcomes with successors replaced by their indices, which all
   * start from 1, and each list's probabilities sum to 1. From a flag of 0
   * or 1 every listed state has a flag of 0 or 1.
   */
  method SetStateSpace(init: State, nact: int, dirs: map<U8, Pos>, racks: set<Pos>, gridSize: (int, int))
    returns (states: seq<State>, stateMap: map<State, int>, revMap: map<int, State>,
             transitions: map<(int, U8), seq<Edge>>)
    requires BuildRequires(init, Env(nact, dirs, racks, gridSize.0, gridSize.1))
    ensures NoDuplicates(states)
    ensures forall t :: t in states <==> Reachable(Env(nact, dirs, racks, gridSize.0, gridSize.1), init, t)
    ensures Closed(Env(nact, dirs, racks, gridSize.0, gridSize.1), init, Elements(states))
    ensures Indexed(init, stateMap, revMap, |states| + 1, Elements(states))
    ensures forall t, a: U8 :: t in stateMap && a < nact ==> (stateMap[t], a) in transitions
    ensures forall i, a: U8 :: i in revMap && a < nact ==> (i, a) in transitions
    ensures Recorded(Env(nact, dirs, racks, gridSize.0, gridSize.1), transitions, revMap, Elements(states))
    ensures forall i: int, a: U8 :: (i, a) in transitions ==> EdgeProbSum(transitions[(i, a)]) == 1.0
    ensures init.carry <= 1 ==> forall t :: t in states ==> t.carry <= 1
  {
    ghost var env := Env(nact, dirs, racks, gridSize.0, gridSize.1);
    var sr := Start(init);
    while sr.stack != []
      invariant MainInv(env, init, sr)
      decreases AllStates() - sr.visited, |sr.stack|
    {
      PopFacts(env, init, sr);
      var s := sr.stack[|sr.stack| - 1];
      var sidx := sr.stateMap[s];
      var sr' := ExpandState(env, init, s, sidx, nact, dirs, racks, gridSize, Pop(sr));
      PopStep(env, init, sr, sr');
      sr := sr';
    }
    Finished(env, init, sr);
    if init.carry <= 1 {
      ReachableFlagsBinary(env, init, sr.visited);
    }
    states := Enumerate(sr.visited);
    stateMap, revMap, transitions := sr.stateMap, sr.revMap, sr.transitions;
  }
}
