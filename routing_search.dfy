/**
 * The best-first (A*) connector search. States are (position, lane, arrival
 * direction); costs are kept in half-units, so a step costs 1, a turn 2 and a
 * lane change without a turn 2, and the heuristic, half the doubled Manhattan
 * distance in grid units, is the doubled Manhattan distance itself. One search
 * runs per initial direction and the candidates are reduced deterministically.
 */
module RoutingSearch {
  import opened Wrappers
  import opened RoutingTypes
  import opened RoutingGraph
  import opened RoutingLanes

  // ---------------------------------------------------------------- States

  /** `StateKey`: what identifies a search state in `best_g` and `came_from`. */
  datatype StateKey = StateKey(coord: GridCoord, lane: Lane, lastDirection: Direction)

  /**
   * `SearchState`, costs in half-units: `g2` is twice the cost so far, `h2`
   * twice the heuristic, `length2` twice the length so far.
   */
  datatype SearchState = SearchState(
    coord: GridCoord,
    lane: Lane,
    lastDirection: Direction,
    g2: nat,
    h2: nat,
    parent: Option<StateKey>,
    parentLane: Lane,
    length2: nat,
    turns: nat,
    laneChanges: nat)
  {
    /** `SearchState::f_cost`, doubled. */
    function FCost(): nat
    {
      g2 + h2
    }

    /** `SearchState::key`. */
    function Key(): StateKey
    {
      StateKey(coord, lane, lastDirection)
    }

    /** The cost breakdown carried by the state. */
    function Counters(): RouteComplexity
    {
      RouteComplexity(length2, turns, laneChanges)
    }
  }

  /** `heuristic`, doubled: the Manhattan distance in doubled units. */
  function Heuristic(from: GridCoord, to: GridCoord): nat
  {
    Manhattan(from, to)
  }

  /** One step never lowers the heuristic by more than the step's own cost. */
  lemma HeuristicConsistent(c: GridCoord, d: Direction, target: GridCoord)
    ensures Heuristic(c, target) <= 1 + Heuristic(Step(c, d), target)
    ensures Heuristic(Step(c, d), target) <= 1 + Heuristic(c, target)
  {
    ManhattanMetric(c, target, target, d);
  }

  // ---------------------------------------------------------------- Queue order

  /**
   * `Ord for PqEntry`, on the fields the entry copies from its state. It is
   * reversed so that the max-heap pops the cheapest entry: `Greater` means
   * "popped first".
   */
  function PqCmp(a: SearchState, b: SearchState): Ordering
  {
    CmpInt(b.FCost(), a.FCost())
      .Then(CmpInt(b.g2, a.g2))
      .Then(CmpCoord(b.coord, a.coord))
      .Then(CmpInt(Abs(a.lane), Abs(b.lane)).Reverse())
      .Then(CmpInt(b.lane, a.lane))
      .Then(CmpInt(DirectionRank(b.lastDirection), DirectionRank(a.lastDirection)))
  }

  /**
   * The pop order spelled out: lower f, then lower g, then the smaller
   * coordinate, then the smaller |lane|, then the smaller (more negative)
   * lane, then the earlier direction.
   */
  lemma PopOrder(a: SearchState, b: SearchState)
    ensures PqCmp(a, b) == Greater <==>
      || a.FCost() < b.FCost()
      || (a.FCost() == b.FCost() && a.g2 < b.g2)
      || (a.FCost() == b.FCost() && a.g2 == b.g2 && CmpCoord(a.coord, b.coord) == Less)
      || (a.FCost() == b.FCost() && a.g2 == b.g2 && a.coord == b.coord && Abs(a.lane) < Abs(b.lane))
      || (a.FCost() == b.FCost() && a.g2 == b.g2 && a.coord == b.coord && Abs(a.lane) == Abs(b.lane) && a.lane < b.lane)
      || (a.FCost() == b.FCost() && a.g2 == b.g2 && a.coord == b.coord && a.lane == b.lane
          && DirectionRank(a.lastDirection) < DirectionRank(b.lastDirection))
    ensures PqCmp(a, b) == Equal <==>
      a.FCost() == b.FCost() && a.g2 == b.g2 && a.Key() == b.Key()
  {
    CoordOrderTotal(a.coord, b.coord, a.coord);
    if a.lastDirection != b.lastDirection {
      assert DirectionRank(a.lastDirection) != DirectionRank(b.lastDirection);
    }
  }

  /** The queue order is antisymmetric and transitive. */
  lemma {:induction false} PqCmpOrder(a: SearchState, b: SearchState, c: SearchState)
    ensures PqCmp(a, b) == PqCmp(b, a).Reverse()
    ensures PqCmp(a, b) != Less && PqCmp(b, c) != Less ==> PqCmp(a, c) != Less
  {
    PopOrder(a, b);
    PopOrder(b, a);
    PopOrder(b, c);
    PopOrder(a, c);
    CoordOrderTotal(a.coord, b.coord, c.coord);
    CoordOrderTotal(b.coord, a.coord, c.coord);
    CoordOrderTotal(a.coord, c.coord, b.coord);
  }

  /**
   * `BinaryHeap::pop`: an entry that no other open entry precedes. Entries
   * that compare equal share their key and cost, and the search never holds
   * two different such entries with the lowest cost of their key.
   */
  method PopBest(open: set<SearchState>) returns (best: SearchState)
    requires open != {}
    ensures best in open
    ensures forall e :: e in open ==> PqCmp(best, e) != Less
  {
    var rest := open;
    best :| best in rest;
    rest := rest - {best};
    PopOrder(best, best);
    while rest != {}
      invariant rest <= open && best in open
      invariant forall e :: e in open - rest ==> PqCmp(best, e) != Less
      decreases |rest|
    {
      var x :| x in rest;
      PqCmpOrder(x, best, x);
      if PqCmp(x, best) == Greater {
        forall e | e in open - rest
          ensures PqCmp(x, e) != Less
        {
          PqCmpOrder(x, best, e);
        }
        best := x;
      }
      PopOrder(best, best);
      rest := rest - {x};
    }
  }

  // ---------------------------------------------------------------- Moves

  /** The query of one single-direction search. */
  datatype Query = Query(source: GridCoord, target: GridCoord, initialDir: Direction)

  /** A cell centre the route may not pass: occupied and neither endpoint. */
  predicate Blocked(g: Graph, source: GridCoord, target: GridCoord, c: GridCoord)
  {
    IsCellCenter(c) && g.IsOccupied(c) && c != source && c != target
  }

  /** The junction next to the source in the initial direction. */
  function FirstJunction(q: Query): GridCoord
  {
    Step(q.source, q.initialDir)
  }

  /** The segment from the source to its first junction. */
  function FirstSegment(q: Query): SegmentId
  {
    NewSegment(q.source, FirstJunction(q))
  }

  /** The lanes the first segment offers. */
  function FirstLanes(g: Graph, occ: LaneOccupancy, q: Query): seq<Lane>
    reads occ
  {
    occ.AvailableLanes(FirstSegment(q), g.Capacity(FirstSegment(q)))
  }

  /** The state seeded at the first junction on `lane`: half a unit of length, no turns. */
  function SeedState(q: Query, lane: Lane): SearchState
  {
    SearchState(FirstJunction(q), lane, q.initialDir, 1, Heuristic(FirstJunction(q), q.target),
      None, lane, 1, 0, 0)
  }

  /** The successor state the search records when it moves from `cur` along `nb` onto `nextLane`. */
  function Successor(cur: SearchState, nb: Neighbor, nextLane: Lane, target: GridCoord): (s: SearchState)
  {
    var isTurn := IsTurn(cur.lastDirection, nb.dir);
    var laneChanged := nextLane != cur.lane;
    SearchState(nb.coord, nextLane, nb.dir,
      cur.g2 + 1 + (if isTurn then 2 else 0) + (if laneChanged && !isTurn then 2 else 0),
      Heuristic(nb.coord, target),
      Some(cur.Key()), cur.lane,
      cur.length2 + 1,
      cur.turns + (if isTurn then 1 else 0),
      cur.laneChanges + (if laneChanged && !isTurn then 1 else 0))
  }

  /** The cost of a state is its length plus its turns plus its lane changes, and its heuristic is exact. */
  predicate StateOk(target: GridCoord, s: SearchState)
  {
    s.h2 == Heuristic(s.coord, target) && s.length2 >= 1 && s.g2 == TotalHalves(s.Counters())
  }

  /**
   * Every move adds half a unit of length, a turn costs one more unit and a
   * lane change without a turn one unit: the cost stays the sum of its parts
   * and the f value never decreases along a step.
   */
  lemma SuccessorCost(cur: SearchState, d: Direction, nextLane: Lane, target: GridCoord)
    requires StateOk(target, cur)
    ensures var s := Successor(cur, NeighborEntry(cur.coord, d), nextLane, target);
      && StateOk(target, s)
      && s.g2 > cur.g2
      && s.FCost() >= cur.FCost()
      && s.Counters().length2 == cur.length2 + 1
      && s.Counters().turns == cur.turns + (if IsTurn(cur.lastDirection, d) then 1 else 0)
      && s.Counters().laneChanges == cur.laneChanges + (if nextLane != cur.lane && !IsTurn(cur.lastDirection, d) then 1 else 0)
  {
    HeuristicConsistent(cur.coord, d, target);
  }

  // ---------------------------------------------------------------- Search bookkeeping

  /** A recorded move: one step from `p` into `k` along a free lane, not reversing, not through an obstacle. */
  ghost predicate EdgeOk(g: Graph, occ: LaneOccupancy, q: Query, p: StateKey, k: StateKey)
    reads occ
  {
    var seg := NewSegment(p.coord, k.coord);
    && k.coord == Step(p.coord, k.lastDirection)
    && g.Contains(k.coord)
    && k.lastDirection != Opposite(p.lastDirection)
    && !Blocked(g, q.source, q.target, p.coord)
    && !Blocked(g, q.source, q.target, k.coord)
    && k.lane in occ.AvailableLanes(seg, g.Capacity(seg))
  }

  /** A seed: the first junction, entered in the initial direction on a free lane of the first segment. */
  ghost predicate SeedOk(g: Graph, occ: LaneOccupancy, q: Query, k: StateKey)
    reads occ
  {
    k.coord == FirstJunction(q) && g.Contains(k.coord) && k.lastDirection == q.initialDir && k.lane in FirstLanes(g, occ, q)
  }

  /** Every key the search can ever record. */
  ghost function Universe(g: Graph, occ: LaneOccupancy, q: Query): set<StateKey>
    reads occ
  {
    (set l | l in FirstLanes(g, occ, q) :: StateKey(FirstJunction(q), l, q.initialDir))
    + (set c, i, l | c in g.adjacency && 0 <= i < |g.adjacency[c]| && l in SpiralOrder(g.Capacity(g.adjacency[c][i].seg))
         :: StateKey(g.adjacency[c][i].coord, l, g.adjacency[c][i].dir))
  }

  /** `best_g` and, for each of its keys, the state queued with that cost. */
  ghost predicate Recorded(q: Query, bestG: map<StateKey, nat>, rec: map<StateKey, SearchState>)
  {
    && rec.Keys == bestG.Keys
    && forall k :: k in rec ==> rec[k].Key() == k && rec[k].g2 == bestG[k] && StateOk(q.target, rec[k])
  }

  /**
   * Open entries: never below the best cost of their key, the one at that
   * cost is the recorded state, none below the last popped f, and a closed
   * key has only stale entries left.
   */
  ghost predicate OpenOk(open: set<SearchState>, bestG: map<StateKey, nat>, rec: map<StateKey, SearchState>,
                         closed: set<StateKey>, fLast: nat)
  {
    forall e :: e in open ==> EntryOk(e, bestG, rec, closed, fLast)
  }

  ghost predicate EntryOk(e: SearchState, bestG: map<StateKey, nat>, rec: map<StateKey, SearchState>,
                          closed: set<StateKey>, fLast: nat)
  {
    && e.Key() in bestG && e.Key() in rec
    && e.g2 >= bestG[e.Key()]
    && (e.g2 == bestG[e.Key()] ==> e == rec[e.Key()])
    && e.FCost() >= fLast
    && (e.Key() in closed ==> e.g2 > bestG[e.Key()])
  }

  /** Expanded keys: recorded, not the target, f at most the last popped f. */
  ghost predicate ClosedOk(g: Graph, occ: LaneOccupancy, q: Query, rec: map<StateKey, SearchState>,
                           closed: set<StateKey>, fLast: nat)
    reads occ
  {
    && closed <= rec.Keys
    && rec.Keys <= Universe(g, occ, q)
    && forall k :: k in closed ==> rec[k].FCost() <= fLast && k.coord != q.target
  }

  /**
   * `came_from`: each recorded key either is a seed with a seed state, or has
   * an expanded parent from which the move to it is a recorded move and its
   * state the parent's successor.
   */
  ghost predicate ParentsOk(g: Graph, occ: LaneOccupancy, q: Query, cameFrom: map<StateKey, (StateKey, Lane)>,
                            rec: map<StateKey, SearchState>, closed: set<StateKey>)
    reads occ
  {
    && cameFrom.Keys <= rec.Keys
    && forall k {:trigger ParentOk(g, occ, q, cameFrom, rec, closed, k)} :: k in rec ==> ParentOk(g, occ, q, cameFrom, rec, closed, k)
  }

  ghost predicate ParentOk(g: Graph, occ: LaneOccupancy, q: Query, cameFrom: map<StateKey, (StateKey, Lane)>,
                           rec: map<StateKey, SearchState>, closed: set<StateKey>, k: StateKey)
    reads occ
  {
    && k in rec
    && if k in cameFrom then
         var p := cameFrom[k].0;
         && p in closed && p in rec
         && cameFrom[k].1 == p.lane
         && EdgeOk(g, occ, q, p, k)
         && rec[k] == Successor(rec[p], NeighborEntry(p.coord, k.lastDirection), k.lane, q.target)
       else
         SeedOk(g, occ, q, k) && rec[k] == SeedState(q, k.lane)
  }

  ghost predicate SearchInv(g: Graph, occ: LaneOccupancy, q: Query, open: set<SearchState>, bestG: map<StateKey, nat>,
                            cameFrom: map<StateKey, (StateKey, Lane)>, rec: map<StateKey, SearchState>,
                            closed: set<StateKey>, fLast: nat)
    reads occ
  {
    && Recorded(q, bestG, rec)
    && OpenOk(open, bestG, rec, closed, fLast)
    && ClosedOk(g, occ, q, rec, closed, fLast)
    && ParentsOk(g, occ, q, cameFrom, rec, closed)
  }

  /** Seeding one lane of the first segment keeps the invariant. */
  lemma {:induction false} SeedKeepsInv(g: Graph, occ: LaneOccupancy, q: Query, open: set<SearchState>, bestG: map<StateKey, nat>,
                                        rec: map<StateKey, SearchState>, lane: Lane)
    requires SearchInv(g, occ, q, open, bestG, map[], rec, {}, 0)
    requires g.Contains(FirstJunction(q)) && lane in FirstLanes(g, occ, q)
    ensures var s := SeedState(q, lane);
      SearchInv(g, occ, q, open + {s}, bestG[s.Key() := 1], map[], rec[s.Key() := s], {}, 0)
  {
    var s := SeedState(q, lane);
    SeedOpenOk(g, occ, q, open, bestG, rec, lane);
    SeedInUniverse(g, occ, q, lane);
    SeedParentsOk(g, occ, q, rec, lane);
    PushRecorded(q, bestG, rec, s);
    PushClosedOk(g, occ, q, rec, {}, 0, s);
  }

  lemma {:induction false} SeedOpenOk(g: Graph, occ: LaneOccupancy, q: Query, open: set<SearchState>, bestG: map<StateKey, nat>,
                                      rec: map<StateKey, SearchState>, lane: Lane)
    requires Recorded(q, bestG, rec) && OpenOk(open, bestG, rec, {}, 0) && ParentsOk(g, occ, q, map[], rec, {})
    ensures var s := SeedState(q, lane);
      OpenOk(open + {s}, bestG[s.Key() := 1], rec[s.Key() := s], {}, 0)
  {
    var s := SeedState(q, lane);
    var k := s.Key();
    forall e | e in open && e.Key() == k
      ensures e.g2 >= 1 && (e.g2 == 1 ==> e == s)
    {
      assert ParentOk(g, occ, q, map[], rec, {}, k);
    }
  }

  lemma SeedInUniverse(g: Graph, occ: LaneOccupancy, q: Query, lane: Lane)
    requires lane in FirstLanes(g, occ, q)
    ensures SeedState(q, lane).Key() in Universe(g, occ, q)
  {
  }

  lemma {:induction false} SeedParentsOk(g: Graph, occ: LaneOccupancy, q: Query, rec: map<StateKey, SearchState>, lane: Lane)
    requires ParentsOk(g, occ, q, map[], rec, {})
    requires g.Contains(FirstJunction(q)) && lane in FirstLanes(g, occ, q)
    ensures var s := SeedState(q, lane);
      ParentsOk(g, occ, q, map[], rec[s.Key() := s], {})
  {
    var s := SeedState(q, lane);
    var rec' := rec[s.Key() := s];
    forall k | k in rec'
      ensures ParentOk(g, occ, q, map[], rec', {}, k)
    {
      if k != s.Key() {
        assert ParentOk(g, occ, q, map[], rec, {}, k);
      }
    }
  }

  /** Popping an entry no other open entry precedes raises the f bound to its f. */
  lemma {:induction false} PopRaisesBound(open: set<SearchState>, e: SearchState, fLast: nat)
    requires e in open && (forall x :: x in open ==> PqCmp(e, x) != Less)
    requires forall x :: x in open ==> x.FCost() >= fLast
    ensures fLast <= e.FCost()
    ensures forall x :: x in open ==> x.FCost() >= e.FCost()
  {
    forall x | x in open
      ensures x.FCost() >= e.FCost()
    {
      PopOrder(e, x);
    }
  }

  /** Popping a stale entry and skipping it keeps the invariant. */
  lemma {:induction false} PopSkippedKeepsInv(g: Graph, occ: LaneOccupancy, q: Query, open: set<SearchState>, bestG: map<StateKey, nat>,
                                              cameFrom: map<StateKey, (StateKey, Lane)>, rec: map<StateKey, SearchState>,
                                              closed: set<StateKey>, fLast: nat, e: SearchState)
    requires SearchInv(g, occ, q, open, bestG, cameFrom, rec, closed, fLast)
    requires e in open && (forall x :: x in open ==> PqCmp(e, x) != Less)
    ensures SearchInv(g, occ, q, open - {e}, bestG, cameFrom, rec, closed, e.FCost())
  {
    PopRaisesBound(open, e, fLast);
  }

  /**
   * Popping the recorded entry of a key closes that key: it was not closed
   * before, and the invariant holds with the key closed and the bound at its f.
   */
  lemma {:induction false} PopExpandedKeepsInv(g: Graph, occ: LaneOccupancy, q: Query, open: set<SearchState>, bestG: map<StateKey, nat>,
                                               cameFrom: map<StateKey, (StateKey, Lane)>, rec: map<StateKey, SearchState>,
                                               closed: set<StateKey>, fLast: nat, e: SearchState)
    requires SearchInv(g, occ, q, open, bestG, cameFrom, rec, closed, fLast)
    requires e in open && (forall x :: x in open ==> PqCmp(e, x) != Less)
    requires e.Key() in bestG && e.g2 <= bestG[e.Key()] && e.coord != q.target
    ensures e == rec[e.Key()] && e.Key() !in closed
    ensures SearchInv(g, occ, q, open - {e}, bestG, cameFrom, rec, closed + {e.Key()}, e.FCost())
  {
    PopRaisesBound(open, e, fLast);
    var k := e.Key();
    assert EntryOk(e, bestG, rec, closed, fLast);
    forall x | x in open - {e}
      ensures EntryOk(x, bestG, rec, closed + {k}, e.FCost())
    {
      assert EntryOk(x, bestG, rec, closed, fLast);
    }
    assert ClosedOk(g, occ, q, rec, closed + {k}, e.FCost()) by {
      forall k2 | k2 in closed + {k}
        ensures rec[k2].FCost() <= e.FCost() && k2.coord != q.target
      {
        if k2 != k {
          assert rec[k2].FCost() <= fLast;
        }
      }
    }
    ParentsGrowClosed(g, occ, q, cameFrom, rec, closed, k);
  }

  lemma ParentsGrowClosed(g: Graph, occ: LaneOccupancy, q: Query, cameFrom: map<StateKey, (StateKey, Lane)>,
                          rec: map<StateKey, SearchState>, closed: set<StateKey>, k: StateKey)
    requires ParentsOk(g, occ, q, cameFrom, rec, closed)
    ensures ParentsOk(g, occ, q, cameFrom, rec, closed + {k})
  {
    forall k2 | k2 in rec
      ensures ParentOk(g, occ, q, cameFrom, rec, closed + {k}, k2)
    {
      assert ParentOk(g, occ, q, cameFrom, rec, closed, k2);
    }
  }

  /** A successor can only improve a key that is not closed. */
  lemma {:induction false} SuccessorNotClosed(g: Graph, occ: LaneOccupancy, q: Query, bestG: map<StateKey, nat>,
                                              rec: map<StateKey, SearchState>, closed: set<StateKey>, fLast: nat, s: SearchState)
    requires Recorded(q, bestG, rec) && ClosedOk(g, occ, q, rec, closed, fLast)
    requires StateOk(q.target, s) && s.FCost() >= fLast
    requires s.Key() !in bestG || s.g2 < bestG[s.Key()]
    ensures s.Key() !in closed
  {
    if s.Key() in rec {
      assert rec[s.Key()].coord == s.coord;
    }
  }

  lemma {:induction false} PushOpenOk(open: set<SearchState>, bestG: map<StateKey, nat>, rec: map<StateKey, SearchState>,
                                      closed: set<StateKey>, fLast: nat, s: SearchState)
    requires OpenOk(open, bestG, rec, closed, fLast)
    requires s.Key() !in closed && s.FCost() >= fLast
    requires s.Key() !in bestG || s.g2 < bestG[s.Key()]
    ensures OpenOk(open + {s}, bestG[s.Key() := s.g2], rec[s.Key() := s], closed, fLast)
  {
  }

  lemma {:induction false} PushParentsOk(g: Graph, occ: LaneOccupancy, q: Query, cameFrom: map<StateKey, (StateKey, Lane)>,
                                         rec: map<StateKey, SearchState>, closed: set<StateKey>, cur: SearchState, s: SearchState)
    requires ParentsOk(g, occ, q, cameFrom, rec, closed)
    requires cur.Key() in closed && cur.Key() in rec && rec[cur.Key()] == cur && s.Key() !in closed
    requires EdgeOk(g, occ, q, cur.Key(), s.Key())
    requires s == Successor(cur, NeighborEntry(cur.coord, s.lastDirection), s.lane, q.target)
    ensures ParentsOk(g, occ, q, cameFrom[s.Key() := (cur.Key(), cur.lane)], rec[s.Key() := s], closed)
  {
    var k := s.Key();
    var cameFrom', rec' := cameFrom[k := (cur.Key(), cur.lane)], rec[k := s];
    assert ParentOk(g, occ, q, cameFrom', rec', closed, k);
    forall k2 | k2 in rec && k2 != k
      ensures ParentOk(g, occ, q, cameFrom', rec', closed, k2)
    {
      ParentOkFrame(g, occ, q, cameFrom, rec, closed, k2, k, (cur.Key(), cur.lane), s);
    }
  }

  lemma PushRecorded(q: Query, bestG: map<StateKey, nat>, rec: map<StateKey, SearchState>, s: SearchState)
    requires Recorded(q, bestG, rec) && StateOk(q.target, s)
    ensures Recorded(q, bestG[s.Key() := s.g2], rec[s.Key() := s])
  {
  }

  lemma PushClosedOk(g: Graph, occ: LaneOccupancy, q: Query, rec: map<StateKey, SearchState>, closed: set<StateKey>,
                     fLast: nat, s: SearchState)
    requires ClosedOk(g, occ, q, rec, closed, fLast)
    requires s.Key() in Universe(g, occ, q) && s.Key() !in closed
    ensures ClosedOk(g, occ, q, rec[s.Key() := s], closed, fLast)
  {
  }

  /** Recording a key that is not closed leaves every other key's parent facts as they were. */
  lemma {:induction false} ParentOkFrame(g: Graph, occ: LaneOccupancy, q: Query, cameFrom: map<StateKey, (StateKey, Lane)>,
                                         rec: map<StateKey, SearchState>, closed: set<StateKey>, k2: StateKey,
                                         k: StateKey, from: (StateKey, Lane), s: SearchState)
    requires ParentOk(g, occ, q, cameFrom, rec, closed, k2) && k2 != k && k !in closed
    ensures ParentOk(g, occ, q, cameFrom[k := from], rec[k := s], closed, k2)
  {
    if k2 in cameFrom {
      var p := cameFrom[k2].0;
      assert p != k;
      assert rec[k := s][p] == rec[p];
    }
  }

  /** The key of a move out of a graph node is one of the universe's keys. */
  lemma {:induction false} MoveInUniverse(g: Graph, occ: LaneOccupancy, q: Query, c: GridCoord, i: int, l: Lane)
    requires c in g.adjacency && 0 <= i < |g.adjacency[c]|
    requires l in occ.AvailableLanes(g.adjacency[c][i].seg, g.Capacity(g.adjacency[c][i].seg))
    ensures StateKey(g.adjacency[c][i].coord, l, g.adjacency[c][i].dir) in Universe(g, occ, q)
  {
    var nb := g.adjacency[c][i];
    assert l in SpiralOrder(g.Capacity(nb.seg));
  }

  /** Recording an improving move out of the expanded state keeps the invariant. */
  lemma {:induction false} PushKeepsInv(g: Graph, occ: LaneOccupancy, q: Query, open: set<SearchState>, bestG: map<StateKey, nat>,
                                        cameFrom: map<StateKey, (StateKey, Lane)>, rec: map<StateKey, SearchState>,
                                        closed: set<StateKey>, cur: SearchState, i: int, nb: Neighbor, nextLane: Lane,
                                        s: SearchState)
    requires g.Valid()
    requires SearchInv(g, occ, q, open, bestG, cameFrom, rec, closed, cur.FCost())
    requires cur.Key() in closed && cur.Key() in rec && rec[cur.Key()] == cur
    requires cur.coord in g.adjacency && 0 <= i < |g.adjacency[cur.coord]| && nb == g.adjacency[cur.coord][i]
    requires nb.dir != Opposite(cur.lastDirection)
    requires !Blocked(g, q.source, q.target, nb.coord) && !Blocked(g, q.source, q.target, cur.coord)
    requires nextLane in occ.AvailableLanes(nb.seg, g.Capacity(nb.seg))
    requires s == Successor(cur, nb, nextLane, q.target)
    requires s.Key() !in bestG || s.g2 < bestG[s.Key()]
    ensures s.Key() !in closed
    ensures SearchInv(g, occ, q, open + {s}, bestG[s.Key() := s.g2], cameFrom[s.Key() := (cur.Key(), cur.lane)],
                      rec[s.Key() := s], closed, cur.FCost())
  {
    assert nb == NeighborEntry(cur.coord, nb.dir) && nb.coord in g.adjacency;
    SuccessorCost(cur, nb.dir, nextLane, q.target);
    SuccessorNotClosed(g, occ, q, bestG, rec, closed, cur.FCost(), s);
    PushOpenOk(open, bestG, rec, closed, cur.FCost(), s);
    PushRecorded(q, bestG, rec, s);
    MoveInUniverse(g, occ, q, cur.coord, i, nextLane);
    PushClosedOk(g, occ, q, rec, closed, cur.FCost(), s);
    assert EdgeOk(g, occ, q, cur.Key(), s.Key());
    PushParentsOk(g, occ, q, cameFrom, rec, closed, cur, s);
  }

  // ---------------------------------------------------------------- Reconstruction

  /** Every parent has a strictly smaller best cost than its child, so parent chains end. */
  ghost predicate Acyclic(cameFrom: map<StateKey, (StateKey, Lane)>, bestG: map<StateKey, nat>)
  {
    forall k :: k in cameFrom ==> k in bestG && cameFrom[k].0 in bestG && bestG[cameFrom[k].0] < bestG[k]
  }

  lemma {:induction false} InvAcyclic(g: Graph, occ: LaneOccupancy, q: Query, open: set<SearchState>, bestG: map<StateKey, nat>,
                                      cameFrom: map<StateKey, (StateKey, Lane)>, rec: map<StateKey, SearchState>,
                                      closed: set<StateKey>, fLast: nat)
    requires SearchInv(g, occ, q, open, bestG, cameFrom, rec, closed, fLast)
    ensures Acyclic(cameFrom, bestG)
  {
    forall k | k in cameFrom
      ensures k in bestG && cameFrom[k].0 in bestG && bestG[cameFrom[k].0] < bestG[k]
    {
      assert ParentOk(g, occ, q, cameFrom, rec, closed, k);
    }
  }

  /** The keys from the chain's seed to `k`, following `came_from`. */
  ghost function Chain(cameFrom: map<StateKey, (StateKey, Lane)>, bestG: map<StateKey, nat>, k: StateKey): (keys: seq<StateKey>)
    requires Acyclic(cameFrom, bestG) && k in bestG
    ensures |keys| >= 1 && keys[|keys| - 1] == k && keys[0] !in cameFrom
    ensures forall i :: 0 <= i < |keys| ==> keys[i] in bestG
    ensures forall i :: 1 <= i < |keys| ==> keys[i] in cameFrom && cameFrom[keys[i]].0 == keys[i - 1]
    decreases bestG[k]
  {
    if k in cameFrom then Chain(cameFrom, bestG, cameFrom[k].0) + [k] else [k]
  }

  /** `slice::reverse`, as a value. */
  function Reversed<T>(s: seq<T>): seq<T>
  {
    seq(|s|, i requires 0 <= i < |s| => s[|s| - 1 - i])
  }

  /** A prefix one longer is the prefix followed by the next element. */
  lemma PrefixSnoc<T>(s: seq<T>, i: nat)
    requires i < |s|
    ensures s[..i + 1] == s[..i] + [s[i]]
  {
  }

  /** The first element of `s`, or `d` when it is empty. */
  function FirstOr<T>(s: seq<T>, d: T): T
  {
    if |s| > 0 then s[0] else d
  }

  /**
   * The waypoints of a key chain: the source on the first key's lane, then
   * each key's position on the lane of the segment leaving it, the last on lane 0.
   */
  function PathWaypoints(source: GridCoord, keys: seq<StateKey>): (w: seq<Waypoint>)
    ensures |w| == |keys| + 1
  {
    [Waypoint(source, FirstOr(keys, StateKey(source, 0, North)).lane)]
      + seq(|keys|, i requires 0 <= i < |keys| => Waypoint(keys[i].coord, if i + 1 < |keys| then keys[i + 1].lane else 0))
  }

  lemma PathWaypointsAt(source: GridCoord, keys: seq<StateKey>, i: nat)
    requires i < |keys|
    ensures PathWaypoints(source, keys)[0] == Waypoint(source, keys[0].lane)
    ensures PathWaypoints(source, keys)[i + 1] == Waypoint(keys[i].coord, if i + 1 < |keys| then keys[i + 1].lane else 0)
  {
  }

  /** One step of the walk back: the parent's chain followed by the reversed walk so far. */
  lemma {:induction false} WalkStep(cameFrom: map<StateKey, (StateKey, Lane)>, bestG: map<StateKey, nat>, finalKey: StateKey,
                                    currentKey: StateKey, pathKeys: seq<StateKey>)
    requires Acyclic(cameFrom, bestG) && finalKey in bestG && currentKey in cameFrom
    requires |pathKeys| >= 1 && pathKeys[|pathKeys| - 1] == currentKey
    requires Chain(cameFrom, bestG, finalKey) == Chain(cameFrom, bestG, currentKey) + Reversed(pathKeys)[1..]
    ensures var p := cameFrom[currentKey].0;
      Chain(cameFrom, bestG, finalKey) == Chain(cameFrom, bestG, p) + Reversed(pathKeys + [p])[1..]
  {
    var p := cameFrom[currentKey].0;
    var before := Reversed(pathKeys);
    assert Reversed(pathKeys + [p]) == [p] + before;
    assert before == [currentKey] + before[1..];
  }

  /** At a key without parent the reversed walk is the whole chain. */
  lemma {:induction false} WalkEnd(cameFrom: map<StateKey, (StateKey, Lane)>, bestG: map<StateKey, nat>, finalKey: StateKey,
                                   currentKey: StateKey, pathKeys: seq<StateKey>)
    requires Acyclic(cameFrom, bestG) && finalKey in bestG && currentKey in bestG && currentKey !in cameFrom
    requires |pathKeys| >= 1 && pathKeys[|pathKeys| - 1] == currentKey
    requires Chain(cameFrom, bestG, finalKey) == Chain(cameFrom, bestG, currentKey) + Reversed(pathKeys)[1..]
    ensures Reversed(pathKeys) == Chain(cameFrom, bestG, finalKey)
  {
    var r := Reversed(pathKeys);
    assert r == [currentKey] + r[1..];
  }

  /** `reconstruct_route`: walk `came_from` back from the final key, then list the waypoints. */
  method Reconstruct(cameFrom: map<StateKey, (StateKey, Lane)>, finalKey: StateKey, source: GridCoord,
                     initialDir: Direction, firstLanes: seq<Lane>, finalState: SearchState,
                     ghost bestG: map<StateKey, nat>)
    returns (route: Route)
    requires Acyclic(cameFrom, bestG) && finalKey in bestG
    ensures route.waypoints == PathWaypoints(source, Chain(cameFrom, bestG, finalKey))
    ensures route.complexity == finalState.Counters()
  {
    var pathKeys := [finalKey];
    var currentKey := finalKey;
    while currentKey in cameFrom
      invariant currentKey in bestG
      invariant |pathKeys| >= 1 && pathKeys[|pathKeys| - 1] == currentKey
      invariant Chain(cameFrom, bestG, finalKey) == Chain(cameFrom, bestG, currentKey) + Reversed(pathKeys)[1..]
      decreases bestG[currentKey]
    {
      var parentKey := cameFrom[currentKey].0;
      WalkStep(cameFrom, bestG, finalKey, currentKey, pathKeys);
      pathKeys := pathKeys + [parentKey];
      currentKey := parentKey;
    }
    WalkEnd(cameFrom, bestG, finalKey, currentKey, pathKeys);
    pathKeys := Reversed(pathKeys);
    ghost var keys := Chain(cameFrom, bestG, finalKey);

    PathWaypointsAt(source, keys, 0);
    var firstLane := if |pathKeys| > 0 then pathKeys[0].lane else FirstOr(firstLanes, 0);
    var waypoints := [Waypoint(source, firstLane)];
    for i := 0 to |pathKeys|
      invariant waypoints == PathWaypoints(source, keys)[..i + 1]
    {
      var lane := if i + 1 < |pathKeys| then pathKeys[i + 1].lane else 0;
      PathWaypointsAt(source, keys, i);
      PrefixSnoc(PathWaypoints(source, keys), i + 1);
      waypoints := waypoints + [Waypoint(pathKeys[i].coord, lane)];
    }
    assert PathWaypoints(source, keys)[..|pathKeys| + 1] == PathWaypoints(source, keys);
    route := Route(waypoints, RouteComplexity(finalState.length2, finalState.turns, finalState.laneChanges));
  }

  // ---------------------------------------------------------------- Route shape

  /**
   * What every route found from `q.source` in direction `q.initialDir`
   * satisfies: it starts at the source and first steps onto the first
   * junction, ends at the target on lane 0, stays on graph nodes, moves one
   * doubled step at a time, never steps straight back, passes no occupied
   * cell centre and reaches the target only at its end, and leaves every
   * waypoint on a lane that was free on the segment it takes.
   */
  ghost predicate RouteOk(g: Graph, occ: LaneOccupancy, q: Query, w: seq<Waypoint>)
    reads occ
  {
    && RouteShape(g, q, w)
    && (forall i :: 0 <= i < |w| - 1 ==> LaneFree(g, occ, w[i].lane, w[i].coord, w[i + 1].coord))
  }

  /** The geometric part of `RouteOk`: everything but the lanes. */
  ghost predicate RouteShape(g: Graph, q: Query, w: seq<Waypoint>)
  {
    && |w| >= 2
    && w[0].coord == q.source
    && w[1].coord == FirstJunction(q)
    && w[|w| - 1].coord == q.target && w[|w| - 1].lane == 0
    && (forall i :: 1 <= i < |w| ==> g.Contains(w[i].coord))
    && (forall i :: 0 <= i < |w| - 1 ==> Manhattan(w[i].coord, w[i + 1].coord) == 1)
    && (forall i :: 2 <= i < |w| ==> w[i].coord != w[i - 2].coord)
    && (forall i :: 0 < i < |w| - 1 ==> !Blocked(g, q.source, q.target, w[i].coord) && w[i].coord != q.target)
  }


  /** `lane` is among the available lanes of the segment from `a` to `b`. */
  ghost predicate LaneFree(g: Graph, occ: LaneOccupancy, lane: Lane, a: GridCoord, b: GridCoord)
    reads occ
  {
    lane in occ.AvailableLanes(NewSegment(a, b), g.Capacity(NewSegment(a, b)))
  }

  /** The position a chain's `j`-th key was entered from. */
  function PrevCoord(source: GridCoord, keys: seq<StateKey>, j: nat): GridCoord
    requires j < |keys|
  {
    if j == 0 then source else keys[j - 1].coord
  }

  /** One link of a chain: a recorded move out of an expanded, non-target key. */
  ghost predicate LinkOk(g: Graph, occ: LaneOccupancy, q: Query, rec: map<StateKey, SearchState>, p: StateKey, k: StateKey)
    reads occ
  {
    && EdgeOk(g, occ, q, p, k)
    && p.coord != q.target
    && p in rec && k in rec
    && rec[k] == Successor(rec[p], NeighborEntry(p.coord, k.lastDirection), k.lane, q.target)
  }

  /** A chain of keys as the search records it: a seed, then links. */
  ghost predicate ChainOk(g: Graph, occ: LaneOccupancy, q: Query, rec: map<StateKey, SearchState>, keys: seq<StateKey>)
    reads occ
  {
    && |keys| >= 1
    && (forall i :: 0 <= i < |keys| ==> keys[i] in rec)
    && SeedOk(g, occ, q, keys[0]) && rec[keys[0]] == SeedState(q, keys[0].lane)
    && forall i {:trigger LinkOk(g, occ, q, rec, keys[i - 1], keys[i])} :: 1 <= i < |keys| ==> LinkOk(g, occ, q, rec, keys[i - 1], keys[i])
  }

  /** The chain of any recorded key is a chain as the search records it. */
  lemma {:induction false} ChainOkOfInv(g: Graph, occ: LaneOccupancy, q: Query, open: set<SearchState>, bestG: map<StateKey, nat>,
                                        cameFrom: map<StateKey, (StateKey, Lane)>, rec: map<StateKey, SearchState>,
                                        closed: set<StateKey>, fLast: nat, k: StateKey)
    requires SearchInv(g, occ, q, open, bestG, cameFrom, rec, closed, fLast)
    requires Acyclic(cameFrom, bestG) && k in bestG
    ensures ChainOk(g, occ, q, rec, Chain(cameFrom, bestG, k))
  {
    var keys := Chain(cameFrom, bestG, k);
    assert ParentOk(g, occ, q, cameFrom, rec, closed, keys[0]);
    forall i | 1 <= i < |keys|
      ensures LinkOk(g, occ, q, rec, keys[i - 1], keys[i])
    {
      assert ParentOk(g, occ, q, cameFrom, rec, closed, keys[i]);
      assert keys[i - 1] in closed;
    }
  }

  /** Each key of a chain is one step from the position before it. */
  lemma {:induction false} ChainSteps(g: Graph, occ: LaneOccupancy, q: Query, rec: map<StateKey, SearchState>, keys: seq<StateKey>, j: nat)
    requires ChainOk(g, occ, q, rec, keys) && j < |keys|
    ensures keys[j].coord == Step(PrevCoord(q.source, keys, j), keys[j].lastDirection)
    ensures PathWaypoints(q.source, keys)[j].coord == PrevCoord(q.source, keys, j)
    ensures PathWaypoints(q.source, keys)[j].lane == keys[j].lane
  {
    PathWaypointsAt(q.source, keys, j);
    if j > 0 {
      PathWaypointsAt(q.source, keys, j - 1);
      assert LinkOk(g, occ, q, rec, keys[j - 1], keys[j]);
    }
  }

  /** Two steps with no reversal between them never return to the start. */
  lemma NoStepBack(c: GridCoord, a: Direction, b: Direction)
    requires b != Opposite(a)
    ensures Step(Step(c, a), b) != c
  {
  }

  /** The waypoints of a recorded chain that reaches the target form a route as `RouteOk` describes. */
  lemma {:induction false} ChainRouteOk(g: Graph, occ: LaneOccupancy, q: Query, rec: map<StateKey, SearchState>, keys: seq<StateKey>)
    requires ChainOk(g, occ, q, rec, keys) && keys[|keys| - 1].coord == q.target
    ensures RouteOk(g, occ, q, PathWaypoints(q.source, keys))
  {
    PathWaypointsAt(q.source, keys, 0);
    PathWaypointsAt(q.source, keys, |keys| - 1);
    ChainInGraph(g, occ, q, rec, keys);
    ChainMoves(g, occ, q, rec, keys);
    ChainNoReversal(g, occ, q, rec, keys);
    ChainAvoidsObstacles(g, occ, q, rec, keys);
  }

  /** Every waypoint after the source of a recorded chain is a graph node. */
  lemma {:induction false} ChainInGraph(g: Graph, occ: LaneOccupancy, q: Query, rec: map<StateKey, SearchState>, keys: seq<StateKey>)
    requires ChainOk(g, occ, q, rec, keys)
    ensures var w := PathWaypoints(q.source, keys);
      forall i :: 1 <= i < |w| ==> g.Contains(w[i].coord)
  {
    var w := PathWaypoints(q.source, keys);
    forall i | 1 <= i < |w|
      ensures g.Contains(w[i].coord)
    {
      PathWaypointsAt(q.source, keys, i - 1);
      if i >= 2 {
        var j := i - 1;
        assert LinkOk(g, occ, q, rec, keys[j - 1], keys[j]);
      }
    }
  }

  /** Consecutive waypoints of a recorded chain are one step apart, on a lane free on that step. */
  lemma {:induction false} ChainMoves(g: Graph, occ: LaneOccupancy, q: Query, rec: map<StateKey, SearchState>, keys: seq<StateKey>)
    requires ChainOk(g, occ, q, rec, keys)
    ensures var w := PathWaypoints(q.source, keys);
      && (forall i :: 0 <= i < |w| - 1 ==> Manhattan(w[i].coord, w[i + 1].coord) == 1)
      && (forall i :: 0 <= i < |w| - 1 ==> LaneFree(g, occ, w[i].lane, w[i].coord, w[i + 1].coord))
  {
    var w := PathWaypoints(q.source, keys);
    forall i | 0 <= i < |w| - 1
      ensures Manhattan(w[i].coord, w[i + 1].coord) == 1
      ensures LaneFree(g, occ, w[i].lane, w[i].coord, w[i + 1].coord)
    {
      ChainSteps(g, occ, q, rec, keys, i);
      PathWaypointsAt(q.source, keys, i);
      if i > 0 {
        assert LinkOk(g, occ, q, rec, keys[i - 1], keys[i]);
      }
    }
  }

  /** A recorded chain never steps straight back to the position it came from. */
  lemma {:induction false} ChainNoReversal(g: Graph, occ: LaneOccupancy, q: Query, rec: map<StateKey, SearchState>, keys: seq<StateKey>)
    requires ChainOk(g, occ, q, rec, keys)
    ensures var w := PathWaypoints(q.source, keys);
      forall i :: 2 <= i < |w| ==> w[i].coord != w[i - 2].coord
  {
    var w := PathWaypoints(q.source, keys);
    forall i | 2 <= i < |w|
      ensures w[i].coord != w[i - 2].coord
    {
      NoReversalAt(g, occ, q, rec, keys, i - 1);
    }
  }

  lemma {:induction false} NoReversalAt(g: Graph, occ: LaneOccupancy, q: Query, rec: map<StateKey, SearchState>, keys: seq<StateKey>, j: nat)
    requires ChainOk(g, occ, q, rec, keys) && 1 <= j < |keys|
    ensures PathWaypoints(q.source, keys)[j + 1].coord != PathWaypoints(q.source, keys)[j - 1].coord
  {
    ChainSteps(g, occ, q, rec, keys, j);
    ChainSteps(g, occ, q, rec, keys, j - 1);
    PathWaypointsAt(q.source, keys, j);
    assert LinkOk(g, occ, q, rec, keys[j - 1], keys[j]);
    NoStepBack(PrevCoord(q.source, keys, j - 1), keys[j - 1].lastDirection, keys[j].lastDirection);
  }

  /** The interior waypoints of a recorded chain are neither obstacles nor the target. */
  lemma {:induction false} ChainAvoidsObstacles(g: Graph, occ: LaneOccupancy, q: Query, rec: map<StateKey, SearchState>, keys: seq<StateKey>)
    requires ChainOk(g, occ, q, rec, keys)
    ensures var w := PathWaypoints(q.source, keys);
      forall i :: 0 < i < |w| - 1 ==> !Blocked(g, q.source, q.target, w[i].coord) && w[i].coord != q.target
  {
    var w := PathWaypoints(q.source, keys);
    forall i | 0 < i < |w| - 1
      ensures !Blocked(g, q.source, q.target, w[i].coord) && w[i].coord != q.target
    {
      PathWaypointsAt(q.source, keys, i - 1);
      assert LinkOk(g, occ, q, rec, keys[i - 1], keys[i]);
    }
  }


  /** Dropping the last key changes only the last two waypoints. */
  lemma {:induction false} PathWaypointsPrefix(source: GridCoord, keys: seq<StateKey>)
    requires |keys| >= 2
    ensures var n := |keys|;
      PathWaypoints(source, keys)[..n]
        == PathWaypoints(source, keys[..n - 1])[..n - 1] + [Waypoint(keys[n - 2].coord, keys[n - 1].lane)]
  {
    var n := |keys|;
    var w, w' := PathWaypoints(source, keys), PathWaypoints(source, keys[..n - 1]);
    forall i | 0 <= i < n
      ensures w[i] == (w'[..n - 1] + [Waypoint(keys[n - 2].coord, keys[n - 1].lane)])[i]
    {
      PathWaypointsAt(source, keys, 0);
      PathWaypointsAt(source, keys[..n - 1], 0);
      if i > 0 {
        PathWaypointsAt(source, keys, i - 1);
        PathWaypointsAt(source, keys[..n - 1], i - 1);
      }
    }
  }

  /** The key of a chain's recorded state is the key itself. */
  lemma {:induction false} ChainStateKey(g: Graph, occ: LaneOccupancy, q: Query, rec: map<StateKey, SearchState>, keys: seq<StateKey>, j: nat)
    requires ChainOk(g, occ, q, rec, keys) && j < |keys|
    ensures keys[j] in rec && rec[keys[j]].Key() == keys[j]
  {
    if j > 0 {
      assert LinkOk(g, occ, q, rec, keys[j - 1], keys[j]);
    }
  }

  /** `compute_complexity` of three or more waypoints, from the complexity without the last one. */
  lemma ComplexitySnoc(w: seq<Waypoint>, before: RouteComplexity, a: Waypoint, b: Waypoint, c: Waypoint, d1: Direction, d2: Direction)
    requires |w| >= 3 && ComplexityOf(w[..|w| - 1]) == before
    requires w[|w| - 3] == a && w[|w| - 2] == b && w[|w| - 1] == c
    requires b.coord == Step(a.coord, d1) && c.coord == Step(b.coord, d2)
    ensures ComplexityOf(w) == RouteComplexity(before.length2 + 1, before.turns + (if IsTurn(d1, d2) then 1 else 0),
                                               before.laneChanges + (if a.lane != b.lane && !IsTurn(d1, d2) then 1 else 0))
  {
    SegmentDirectionOfStep(a.coord, b.coord, d1);
    SegmentDirectionOfStep(b.coord, c.coord, d2);
  }

  /**
   * The counters a recorded chain accumulates are the complexity of its
   * waypoints: `compute_complexity` of the reconstructed route agrees with
   * the length, turns and lane changes the search summed step by step.
   */
  lemma {:induction false} ChainCounters(g: Graph, occ: LaneOccupancy, q: Query, rec: map<StateKey, SearchState>, keys: seq<StateKey>)
    requires ChainOk(g, occ, q, rec, keys)
    ensures rec[keys[|keys| - 1]].Counters() == ComplexityOf(PathWaypoints(q.source, keys))
  {
    assert keys[|keys| - 1] in rec;
    forall i | 0 <= i < |keys|
      ensures CountedAt(q, rec, keys, i)
    {
      ChainSteps(g, occ, q, rec, keys, i);
      ChainStateKey(g, occ, q, rec, keys, i);
      if i > 0 {
        assert LinkOk(g, occ, q, rec, keys[i - 1], keys[i]);
      }
    }
    CountedCounters(q, rec, keys);
  }

  /** What the counters of a chain depend on, at its `i`-th key. */
  ghost predicate CountedAt(q: Query, rec: map<StateKey, SearchState>, keys: seq<StateKey>, i: int)
    requires 0 <= i < |keys|
  {
    && keys[i] in rec && rec[keys[i]].Key() == keys[i]
    && keys[i].coord == Step(PrevCoord(q.source, keys, i), keys[i].lastDirection)
    && if i == 0 then rec[keys[0]] == SeedState(q, keys[0].lane)
       else (keys[i - 1] in rec
             && rec[keys[i]] == Successor(rec[keys[i - 1]], NeighborEntry(keys[i - 1].coord, keys[i].lastDirection), keys[i].lane, q.target))
  }

  /** The counters of a chain whose every key is as `CountedAt` says are the complexity of its waypoints. */
  lemma {:induction false} CountedCounters(q: Query, rec: map<StateKey, SearchState>, keys: seq<StateKey>)
    requires |keys| >= 1 && keys[|keys| - 1] in rec
    requires forall i :: 0 <= i < |keys| ==> CountedAt(q, rec, keys, i)
    ensures rec[keys[|keys| - 1]].Counters() == ComplexityOf(PathWaypoints(q.source, keys))
    decreases |keys|
  {
    var n := |keys|;
    assert CountedAt(q, rec, keys, n - 1);
    if n == 1 {
      SeedCounters(q.source, keys, rec[keys[0]]);
    } else {
      var keys' := keys[..n - 1];
      forall i | 0 <= i < |keys'|
        ensures CountedAt(q, rec, keys', i)
      {
        assert CountedAt(q, rec, keys, i);
        assert keys'[i] == keys[i];
        if i > 0 {
          assert keys'[i - 1] == keys[i - 1];
        }
      }
      CountedCounters(q, rec, keys');
      assert CountedAt(q, rec, keys, n - 2);
      CountersStep(q.source, keys, rec[keys[n - 2]], rec[keys[n - 1]], q.target);
    }
  }


  /** A chain of one seed: half a unit of length from the source, nothing else. */
  lemma SeedCounters(source: GridCoord, keys: seq<StateKey>, s: SearchState)
    requires |keys| == 1 && keys[0].coord == Step(source, keys[0].lastDirection)
    requires s == SearchState(keys[0].coord, keys[0].lane, keys[0].lastDirection, 1, s.h2, None, keys[0].lane, 1, 0, 0)
    ensures s.Counters() == ComplexityOf(PathWaypoints(source, keys))
  {
    var w := PathWaypoints(source, keys);
    PathWaypointsAt(source, keys, 0);
    assert w[..1] == [w[0]];
    ManhattanMetric(source, source, source, keys[0].lastDirection);
  }


  /** The inductive step of `ChainCounters`, on the values alone. */
  lemma {:induction false} CountersStep(source: GridCoord, keys: seq<StateKey>, prev: SearchState, last: SearchState, target: GridCoord)
    requires |keys| >= 2
    requires prev.Counters() == ComplexityOf(PathWaypoints(source, keys[..|keys| - 1]))
    requires prev.Key() == keys[|keys| - 2]
    requires last == Successor(prev, NeighborEntry(keys[|keys| - 2].coord, keys[|keys| - 1].lastDirection), keys[|keys| - 1].lane, target)
    requires keys[|keys| - 2].coord == Step(PrevCoord(source, keys, |keys| - 2), keys[|keys| - 2].lastDirection)
    requires keys[|keys| - 1].coord == Step(keys[|keys| - 2].coord, keys[|keys| - 1].lastDirection)
    ensures last.Counters() == ComplexityOf(PathWaypoints(source, keys))
  {
    var n := |keys|;
    var w, w' := PathWaypoints(source, keys), PathWaypoints(source, keys[..n - 1]);
    PathWaypointsPrefix(source, keys);
    PathWaypointsAt(source, keys[..n - 1], n - 2);
    ComplexityIgnoresLastLane(w', keys[n - 1].lane);
    assert w[..n] == w'[..n - 1] + [Waypoint(w'[n - 1].coord, keys[n - 1].lane)];
    PathWaypointsAt(source, keys, n - 1);
    PathWaypointsAt(source, keys, n - 2);
    var a := w[n - 2];
    assert a.coord == PrevCoord(source, keys, n - 2) && a.lane == keys[n - 2].lane by {
      if n - 2 > 0 {
        PathWaypointsAt(source, keys, n - 3);
      }
    }
    ComplexitySnoc(w, prev.Counters(), a, w[n - 1], w[n], keys[n - 2].lastDirection, keys[n - 1].lastDirection);
  }

  /** A chain without its last key is still a recorded chain. */
  lemma {:induction false} ChainPrefix(g: Graph, occ: LaneOccupancy, q: Query, rec: map<StateKey, SearchState>, keys: seq<StateKey>)
    requires ChainOk(g, occ, q, rec, keys) && |keys| >= 2
    ensures ChainOk(g, occ, q, rec, keys[..|keys| - 1])
  {
    var keys' := keys[..|keys| - 1];
    forall i | 1 <= i < |keys'|
      ensures LinkOk(g, occ, q, rec, keys'[i - 1], keys'[i])
    {
      assert keys'[i - 1] == keys[i - 1] && keys'[i] == keys[i];
    }
  }

  // ---------------------------------------------------------------- The search

  /** Expanding one more key leaves fewer keys of the universe unexpanded. */
  lemma ClosingShrinks(u: set<StateKey>, closed: set<StateKey>, k: StateKey)
    requires k in u && k !in closed
    ensures |u - (closed + {k})| < |u - closed|
  {
    assert u - (closed + {k}) == (u - closed) - {k};
  }

  /**
   * The free lanes of one move out of `current`, each pushed when it improves
   * on the best cost of its key (the inner loop over `available`).
   */
  method PushMoves(g: Graph, occ: LaneOccupancy, q: Query, open: set<SearchState>, bestG: map<StateKey, nat>,
                   cameFrom: map<StateKey, (StateKey, Lane)>, ghost rec: map<StateKey, SearchState>,
                   ghost closed: set<StateKey>, current: SearchState, i: int, available: seq<Lane>)
    returns (open': set<SearchState>, bestG': map<StateKey, nat>, cameFrom': map<StateKey, (StateKey, Lane)>,
             ghost rec': map<StateKey, SearchState>)
    requires g.Valid()
    requires SearchInv(g, occ, q, open, bestG, cameFrom, rec, closed, current.FCost())
    requires current.Key() in closed && current.Key() in rec && rec[current.Key()] == current
    requires current.coord in g.adjacency && 0 <= i < |g.adjacency[current.coord]|
    requires var nb := g.adjacency[current.coord][i];
      && nb.dir != Opposite(current.lastDirection)
      && !Blocked(g, q.source, q.target, nb.coord)
      && !Blocked(g, q.source, q.target, current.coord)
      && available == occ.AvailableLanes(nb.seg, g.Capacity(nb.seg))
    ensures SearchInv(g, occ, q, open', bestG', cameFrom', rec', closed, current.FCost())
    ensures current.Key() in rec' && rec'[current.Key()] == current
  {
    open', bestG', cameFrom', rec' := open, bestG, cameFrom, rec;
    var nb := g.Neighbors(current.coord)[i];
    assert nb == g.adjacency[current.coord][i];
    var isTurn := IsTurn(current.lastDirection, nb.dir);
    var currentKey := current.Key();
    for j := 0 to |available|
      invariant SearchInv(g, occ, q, open', bestG', cameFrom', rec', closed, current.FCost())
      invariant currentKey in rec' && rec'[currentKey] == current
    {
      var nextLane := available[j];
      var laneChanged := nextLane != current.lane;
      var laneChangeCost := if laneChanged && !isTurn then 2 else 0;
      var turnCost := if isTurn then 2 else 0;
      var newG := current.g2 + 1 + turnCost + laneChangeCost;
      var newKey := StateKey(nb.coord, nextLane, nb.dir);
      // Only a strictly cheaper path to a key is pushed.
      if newKey in bestG' && newG >= bestG'[newKey] {
        continue;
      }
      var newState := Successor(current, nb, nextLane, q.target);
      assert newState.Key() == newKey && newState.g2 == newG;
      PushKeepsInv(g, occ, q, open', bestG', cameFrom', rec', closed, current, i, nb, nextLane, newState);
      bestG' := bestG'[newState.Key() := newState.g2];
      cameFrom' := cameFrom'[newState.Key() := (current.Key(), current.lane)];
      rec' := rec'[newState.Key() := newState];
      open' := open' + {newState};
    }
  }

  /** The expansion of `current`: every neighbour, with the source's skips (the loop over `neighbors`). */
  method Expand(g: Graph, occ: LaneOccupancy, q: Query, open: set<SearchState>, bestG: map<StateKey, nat>,
                cameFrom: map<StateKey, (StateKey, Lane)>, ghost rec: map<StateKey, SearchState>,
                ghost closed: set<StateKey>, current: SearchState)
    returns (open': set<SearchState>, bestG': map<StateKey, nat>, cameFrom': map<StateKey, (StateKey, Lane)>,
             ghost rec': map<StateKey, SearchState>)
    requires g.Valid()
    requires SearchInv(g, occ, q, open, bestG, cameFrom, rec, closed, current.FCost())
    requires current.Key() in closed && current.Key() in rec && rec[current.Key()] == current
    ensures SearchInv(g, occ, q, open', bestG', cameFrom', rec', closed, current.FCost())
  {
    open', bestG', cameFrom', rec' := open, bestG, cameFrom, rec;
    var neighbors := g.Neighbors(current.coord);
    for i := 0 to |neighbors|
      invariant SearchInv(g, occ, q, open', bestG', cameFrom', rec', closed, current.FCost())
      invariant current.Key() in rec' && rec'[current.Key()] == current
    {
      var nb := neighbors[i];
      // Do not go backwards.
      if nb.dir == Opposite(current.lastDirection) {
        continue;
      }
      // Do not enter an occupied cell other than the endpoints.
      if IsCellCenter(nb.coord) && g.IsOccupied(nb.coord) && nb.coord != q.source && nb.coord != q.target {
        continue;
      }
      // Do not leave an occupied cell other than the endpoints.
      if IsCellCenter(current.coord) && g.IsOccupied(current.coord) && current.coord != q.source && current.coord != q.target {
        continue;
      }
      var segCapacity := g.Capacity(nb.seg);
      var available := occ.AvailableLanes(nb.seg, segCapacity);
      if |available| == 0 {
        continue;
      }
      open', bestG', cameFrom', rec' := PushMoves(g, occ, q, open', bestG', cameFrom', rec', closed, current, i, available);
    }
  }

  /** Seeding every free lane of the first segment establishes the invariant. */
  method SeedOpen(g: Graph, occ: LaneOccupancy, q: Query, firstLanes: seq<Lane>)
    returns (open: set<SearchState>, bestG: map<StateKey, nat>, ghost rec: map<StateKey, SearchState>)
    requires g.Contains(FirstJunction(q)) && firstLanes == FirstLanes(g, occ, q)
    ensures SearchInv(g, occ, q, open, bestG, map[], rec, {}, 0)
  {
    open, bestG, rec := {}, map[], map[];
    var firstJunction := FirstJunction(q);
    for j := 0 to |firstLanes|
      invariant SearchInv(g, occ, q, open, bestG, map[], rec, {}, 0)
    {
      var lane := firstLanes[j];
      var state := SearchState(firstJunction, lane, q.initialDir, 1, Heuristic(firstJunction, q.target),
        None, lane, 1, 0, 0);
      assert state == SeedState(q, lane);
      SeedKeepsInv(g, occ, q, open, bestG, rec, lane);
      bestG := bestG[state.Key() := 1];
      rec := rec[state.Key() := state];
      open := open + {state};
    }
  }

  /** Reaching the target: the reconstructed route is the chain of the popped key, a route as `RouteOk` describes. */
  method ReachTarget(g: Graph, occ: LaneOccupancy, q: Query, ghost open: set<SearchState>, ghost bestG: map<StateKey, nat>,
                     cameFrom: map<StateKey, (StateKey, Lane)>, ghost rec: map<StateKey, SearchState>,
                     ghost closed: set<StateKey>, ghost fLast: nat, firstLanes: seq<Lane>, current: SearchState)
    returns (route: Route)
    requires SearchInv(g, occ, q, open, bestG, cameFrom, rec, closed, fLast)
    requires current.Key() in rec && rec[current.Key()] == current && current.coord == q.target
    ensures RouteOk(g, occ, q, route.waypoints)
    ensures route.complexity == ComplexityOf(route.waypoints)
  {
    InvAcyclic(g, occ, q, open, bestG, cameFrom, rec, closed, fLast);
    ghost var keys := Chain(cameFrom, bestG, current.Key());
    ChainOkOfInv(g, occ, q, open, bestG, cameFrom, rec, closed, fLast, current.Key());
    ChainRouteOk(g, occ, q, rec, keys);
    ChainCounters(g, occ, q, rec, keys);
    route := Reconstruct(cameFrom, current.Key(), q.source, q.initialDir, firstLanes, current, bestG);
  }

  /**
   * `astar_single_direction`: seed the free lanes of the first segment, then
   * pop the cheapest entry, skip it when its key has since become cheaper,
   * stop at the target, and otherwise push every improving move to a
   * neighbour that does not reverse, does not pass an obstacle, and takes a
   * free lane. A route it returns is a walk of the graph as `RouteOk`
   * describes, and its cost breakdown is that of its waypoints.
   */
  method AStarSingleDirection(g: Graph, occ: LaneOccupancy, source: GridCoord, target: GridCoord, initialDir: Direction)
    returns (r: Option<Route>)
    requires g.Valid()
    ensures !g.Contains(Step(source, initialDir)) ==> r.None?
    ensures FirstLanes(g, occ, Query(source, target, initialDir)) == [] ==> r.None?
    ensures r.Some? ==> RouteOk(g, occ, Query(source, target, initialDir), r.value.waypoints)
    ensures r.Some? ==> r.value.complexity == ComplexityOf(r.value.waypoints)
  {
    var q := Query(source, target, initialDir);
    var firstJunction := Step(source, initialDir);
    if !g.Contains(firstJunction) {
      return None;
    }
    var firstSeg := NewSegment(source, firstJunction);
    var firstCapacity := g.Capacity(firstSeg);
    var firstLanes := occ.AvailableLanes(firstSeg, firstCapacity);
    if |firstLanes| == 0 {
      return None;
    }

    var open, bestG, rec := SeedOpen(g, occ, q, firstLanes);
    var cameFrom: map<StateKey, (StateKey, Lane)> := map[];
    ghost var closed: set<StateKey> := {};
    ghost var fLast: nat := 0;
    ghost var universe := Universe(g, occ, q);

    while open != {}
      invariant SearchInv(g, occ, q, open, bestG, cameFrom, rec, closed, fLast)
      invariant universe == Universe(g, occ, q)
      decreases |universe - closed|, |open|
    {
      var current := PopBest(open);
      ghost var open0 := open;
      open := open - {current};
      var currentKey := current.Key();
      assert EntryOk(current, bestG, rec, closed, fLast);

      // Skip an entry whose key has since been reached more cheaply.
      if currentKey in bestG && current.g2 > bestG[currentKey] {
        PopSkippedKeepsInv(g, occ, q, open0, bestG, cameFrom, rec, closed, fLast, current);
        fLast := current.FCost();
        continue;
      }

      if current.coord == target {
        var route := ReachTarget(g, occ, q, open0, bestG, cameFrom, rec, closed, fLast, firstLanes, current);
        return Some(route);
      }

      PopExpandedKeepsInv(g, occ, q, open0, bestG, cameFrom, rec, closed, fLast, current);
      ClosingShrinks(universe, closed, currentKey);
      closed := closed + {currentKey};
      fLast := current.FCost();
      open, bestG, cameFrom, rec := Expand(g, occ, q, open, bestG, cameFrom, rec, closed, current);
    }
    return None;
  }

  // ---------------------------------------------------------------- Choosing among the directions

  /** `route_tiebreak`: the waypoints as (column, row, lane) triples. */
  function Tiebreak(r: Route): seq<(int, int, int)>
  {
    seq(|r.waypoints|, i requires 0 <= i < |r.waypoints| =>
      (r.waypoints[i].coord.col2, r.waypoints[i].coord.row2, r.waypoints[i].lane))
  }

  /** Two routes with the same tie-break key have the same waypoints. */
  lemma TiebreakInjective(a: Route, b: Route)
    requires Tiebreak(a) == Tiebreak(b)
    ensures a.waypoints == b.waypoints
  {
    assert |a.waypoints| == |b.waypoints|;
    forall i | 0 <= i < |a.waypoints|
      ensures a.waypoints[i] == b.waypoints[i]
    {
      assert Tiebreak(a)[i] == Tiebreak(b)[i];
    }
  }

  /** `Ord for (i32, i32, i32)`: field by field. */
  function CmpTriple(a: (int, int, int), b: (int, int, int)): Ordering
  {
    CmpInt(a.0, b.0).Then(CmpInt(a.1, b.1)).Then(CmpInt(a.2, b.2))
  }

  /** `Ord for Vec<_>`: lexicographic, a proper prefix first. */
  function CmpLex(a: seq<(int, int, int)>, b: seq<(int, int, int)>): Ordering
  {
    if a == [] && b == [] then Equal
    else if a == [] then Less
    else if b == [] then Greater
    else CmpTriple(a[0], b[0]).Then(CmpLex(a[1..], b[1..]))
  }

  /** The lexicographic order is a total order: equal only on equal keys, antisymmetric, transitive. */
  lemma {:induction false} CmpLexOrder(a: seq<(int, int, int)>, b: seq<(int, int, int)>, c: seq<(int, int, int)>)
    ensures CmpLex(a, b) == Equal <==> a == b
    ensures CmpLex(a, b) == CmpLex(b, a).Reverse()
    ensures CmpLex(a, b) == Less && CmpLex(b, c) == Less ==> CmpLex(a, c) == Less
  {
    if a != [] && b != [] && c != [] {
      CmpLexOrder(a[1..], b[1..], c[1..]);
      if a[1..] == b[1..] && a[0] == b[0] {
        assert a == [a[0]] + a[1..] && b == [b[0]] + b[1..];
      }
    } else if a != [] && b != [] {
      CmpLexOrder(a[1..], b[1..], b[1..]);
      if a[1..] == b[1..] && a[0] == b[0] {
        assert a == [a[0]] + a[1..] && b == [b[0]] + b[1..];
      }
    }
  }

  /** The candidate `r` replaces the current best `b`: lower complexity, or equal complexity and a smaller tie-break key. */
  predicate Better(r: Route, b: Route)
  {
    || CmpComplexity(r.complexity, b.complexity) == Less
    || (r.complexity == b.complexity && CmpLex(Tiebreak(r), Tiebreak(b)) == Less)
  }

  /** `Better` is a strict total order on routes. */
  lemma BetterOrder(a: Route, b: Route, c: Route)
    ensures !Better(a, a)
    ensures a != b ==> (Better(a, b) <==> !Better(b, a))
    ensures Better(a, b) && Better(b, c) ==> Better(a, c)
  {
    ComplexityOrderTotal(a.complexity, b.complexity, c.complexity);
    ComplexityOrderTotal(b.complexity, a.complexity, c.complexity);
    ComplexityOrderTotal(a.complexity, a.complexity, a.complexity);
    CmpLexOrder(Tiebreak(a), Tiebreak(b), Tiebreak(c));
    CmpLexOrder(Tiebreak(a), Tiebreak(a), Tiebreak(a));
    if a != b && a.complexity == b.complexity && Tiebreak(a) == Tiebreak(b) {
      TiebreakInjective(a, b);
    }
    if Better(a, b) && Better(b, c) {
      ComplexityOrderTotal(a.complexity, c.complexity, b.complexity);
    }
  }

  /** One step of the reduction: keep the current best unless the next candidate is better. */
  function Pick(best: Option<Route>, route: Route): (r: Route)
    ensures r == route || (best.Some? && r == best.value)
  {
    match best
    case None => route
    case Some(b) => if Better(route, b) then route else b
  }

  /** The reduction of the per-direction results, failures skipped, in order. */
  function SelectBest(results: seq<Option<Route>>): Option<Route>
  {
    if results == [] then None
    else
      var prev := SelectBest(results[..|results| - 1]);
      var last := results[|results| - 1];
      if last.None? then prev else Some(Pick(prev, last.value))
  }

  /**
   * The reduction finds a route exactly when some direction did, the route
   * is one of the candidates, and no candidate is better than it.
   */
  lemma {:induction false} SelectBestIsMinimum(results: seq<Option<Route>>)
    ensures SelectBest(results).None? <==> forall i :: 0 <= i < |results| ==> results[i].None?
    ensures SelectBest(results).Some? ==> Some(SelectBest(results).value) in results
    ensures SelectBest(results).Some? ==>
      forall i :: 0 <= i < |results| && results[i].Some? ==> !Better(results[i].value, SelectBest(results).value)
  {
    if results != [] {
      var init := results[..|results| - 1];
      SelectBestIsMinimum(init);
      var prev := SelectBest(init);
      var last := results[|results| - 1];
      assert forall i :: 0 <= i < |init| ==> results[i] == init[i];
      if last.Some? {
        var r := Pick(prev, last.value);
        BetterOrder(r, r, r);
        if prev.Some? {
          assert Some(prev.value) in init;
          forall i | 0 <= i < |results| && results[i].Some?
            ensures !Better(results[i].value, r)
          {
            BetterOrder(results[i].value, prev.value, last.value);
            BetterOrder(prev.value, last.value, results[i].value);
            BetterOrder(last.value, prev.value, results[i].value);
            BetterOrder(results[i].value, last.value, prev.value);
            if i < |init| {
              assert results[i] == init[i];
            }
          }
        }
      }
    }
  }

  /**
   * The best route does not depend on the order in which the directions
   * report: any candidate that no candidate is better than is the one
   * `SelectBest` returns.
   */
  lemma SelectBestUnique(results: seq<Option<Route>>, m: Route)
    requires Some(m) in results
    requires forall i :: 0 <= i < |results| && results[i].Some? ==> !Better(results[i].value, m)
    ensures SelectBest(results) == Some(m)
  {
    SelectBestIsMinimum(results);
    var b := SelectBest(results).value;
    var j :| 0 <= j < |results| && results[j] == Some(b);
    var k :| 0 <= k < |results| && results[k] == Some(m);
    BetterOrder(b, m, b);
  }

  /** The route of a query whose source is its target: the source alone, at no cost. */
  function TrivialRoute(source: GridCoord): Route
  {
    Route([Waypoint(source, 0)], ZeroComplexity())
  }

  /** The loop of `find_best_route` over the collected results: the reduction `SelectBest` describes. */
  method ReduceResults(results: seq<Option<Route>>) returns (best: Option<Route>)
    ensures best == SelectBest(results)
  {
    best := None;
    for i := 0 to |results|
      invariant best == SelectBest(results[..i])
    {
      assert results[..i + 1][..i] == results[..i];
      match results[i]
      case None =>
      case Some(route) =>
        best := Some(match best
          case None => route
          case Some(currentBest) =>
            if CmpComplexity(route.complexity, currentBest.complexity) == Less then route
            else if route.complexity == currentBest.complexity then
              if CmpLex(Tiebreak(route), Tiebreak(currentBest)) == Less then route else currentBest
            else currentBest);
    }
    assert results[..|results|] == results;
  }

  /** One search per direction of `Direction::ALL`, in that order. */
  method SearchAllDirections(g: Graph, occ: LaneOccupancy, source: GridCoord, target: GridCoord)
    returns (results: seq<Option<Route>>)
    requires g.Valid()
    ensures |results| == 4
    ensures forall i :: 0 <= i < |results| && results[i].Some? ==>
      && RouteOk(g, occ, Query(source, target, AllDirections[i]), results[i].value.waypoints)
      && results[i].value.complexity == ComplexityOf(results[i].value.waypoints)
  {
    results := [];
    for i := 0 to |AllDirections|
      invariant |results| == i
      invariant forall j :: 0 <= j < i && results[j].Some? ==>
        && RouteOk(g, occ, Query(source, target, AllDirections[j]), results[j].value.waypoints)
        && results[j].value.complexity == ComplexityOf(results[j].value.waypoints)
    {
      var res := AStarSingleDirection(g, occ, source, target, AllDirections[i]);
      results := results + [res];
    }
  }

  /**
   * `find_best_route`: the trivial route when source and target coincide;
   * otherwise one search per direction of `Direction::ALL`, reduced by
   * `SelectBest`. Every candidate is a search result for its direction.
   */
  method FindBestRoute(g: Graph, occ: LaneOccupancy, source: GridCoord, target: GridCoord)
    returns (r: Option<Route>, ghost candidates: seq<Option<Route>>)
    requires g.Valid()
    ensures source == target ==> r == Some(TrivialRoute(source))
    ensures source != target ==> |candidates| == 4 && r == SelectBest(candidates)
    ensures source != target ==> forall i :: 0 <= i < |candidates| && candidates[i].Some? ==>
      && RouteOk(g, occ, Query(source, target, AllDirections[i]), candidates[i].value.waypoints)
      && candidates[i].value.complexity == ComplexityOf(candidates[i].value.waypoints)
  {
    if source == target {
      return Some(TrivialRoute(source)), [];
    }
    var results := SearchAllDirections(g, occ, source, target);
    candidates := results;
    r := ReduceResults(results);
  }
}
