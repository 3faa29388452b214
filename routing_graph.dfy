/**
 * The routing graph: every doubled-integer point of the box spanned by the
 * diagram's cells plus a half-unit boundary street around it, each joined to
 * its four axis neighbours, with the occupied cell centres and the lane
 * capacity of every unit segment.
 */
module RoutingGraph {
  import opened RoutingTypes

  /** One adjacency entry: the neighbour, the segment to it, and the travel direction. */
  datatype Neighbor = Neighbor(coord: GridCoord, seg: SegmentId, dir: Direction)

  datatype Graph = Graph(
    adjacency: map<GridCoord, seq<Neighbor>>,
    occupiedCells: set<GridCoord>,
    segmentCapacities: map<SegmentId, int>)
  {
    /** `RoutingGraph::contains`: the point is a node of the graph. */
    predicate Contains(c: GridCoord)
    {
      c in adjacency
    }

    /** `RoutingGraph::neighbors`: the adjacency list, empty off the graph. */
    function Neighbors(c: GridCoord): seq<Neighbor>
    {
      if c in adjacency then adjacency[c] else []
    }

    /** `RoutingGraph::capacity`: the segment's lane capacity, 0 when it is unknown. */
    function Capacity(s: SegmentId): int
    {
      if s in segmentCapacities then segmentCapacities[s] else 0
    }

    /** `RoutingGraph::is_occupied`. */
    predicate IsOccupied(c: GridCoord)
    {
      c in occupiedCells
    }

    /**
     * The structural facts the search relies on: each entry leads one step
     * in its direction to another node, along that step's canonical segment.
     */
    ghost predicate Valid()
    {
      forall c, k :: c in adjacency && 0 <= k < |adjacency[c]| ==>
        adjacency[c][k] == NeighborEntry(c, adjacency[c][k].dir) && adjacency[c][k].coord in adjacency
    }
  }

  /** The adjacency entry for travelling from `c` in direction `d`. */
  function NeighborEntry(c: GridCoord, d: Direction): Neighbor
  {
    Neighbor(Step(c, d), NewSegment(c, Step(c, d)), d)
  }

  // ---------------------------------------------------------------- Specification of build

  /** The inclusive doubled-coordinate ranges the graph spans. */
  datatype Box = Box(c2Min: int, c2Max: int, r2Min: int, r2Max: int)

  predicate InBox(b: Box, c: GridCoord)
  {
    b.c2Min <= c.col2 <= b.c2Max && b.r2Min <= c.row2 <= b.r2Max
  }

  function MinOf(xs: seq<int>): (m: int)
    requires |xs| > 0
    ensures m in xs && forall i :: 0 <= i < |xs| ==> m <= xs[i]
  {
    if |xs| == 1 then xs[0]
    else var m := MinOf(xs[..|xs| - 1]); if xs[|xs| - 1] < m then xs[|xs| - 1] else m
  }

  function MaxOf(xs: seq<int>): (m: int)
    requires |xs| > 0
    ensures m in xs && forall i :: 0 <= i < |xs| ==> xs[i] <= m
  {
    if |xs| == 1 then xs[0]
    else var m := MaxOf(xs[..|xs| - 1]); if xs[|xs| - 1] > m then xs[|xs| - 1] else m
  }

  function Cols(nodes: seq<(int, int)>): seq<int>
  {
    seq(|nodes|, i requires 0 <= i < |nodes| => nodes[i].0)
  }

  function Rows(nodes: seq<(int, int)>): seq<int>
  {
    seq(|nodes|, i requires 0 <= i < |nodes| => nodes[i].1)
  }

  /**
   * The columns and rows line up with the positions. This only keeps the
   * proof of Build cheap; it states nothing beyond the definitions.
   */
  lemma ColsRowsAt(nodes: seq<(int, int)>)
    ensures |Cols(nodes)| == |Rows(nodes)| == |nodes|
    ensures forall i :: 0 <= i < |nodes| ==> Cols(nodes)[i] == nodes[i].0 && Rows(nodes)[i] == nodes[i].1
  {
  }

  /** The cell box of the positions widened by the half-unit boundary streets. */
  function BoundsOf(nodes: seq<(int, int)>): Box
    requires |nodes| > 0
  {
    Box(2 * MinOf(Cols(nodes)) - 1, 2 * MaxOf(Cols(nodes)) + 1,
        2 * MinOf(Rows(nodes)) - 1, 2 * MaxOf(Rows(nodes)) + 1)
  }

  /** The adjacency entries of `c` for the directions `dirs`, in that order, kept when the neighbour is in the box. */
  function NeighborsIn(b: Box, c: GridCoord, dirs: seq<Direction>): seq<Neighbor>
  {
    if dirs == [] then []
    else
      var prev := NeighborsIn(b, c, dirs[..|dirs| - 1]);
      var d := dirs[|dirs| - 1];
      if InBox(b, Step(c, d)) then prev + [NeighborEntry(c, d)] else prev
  }

  /** Segments of the box: both ends inside, the second one step East or South of the first. */
  predicate IsBoxSegment(b: Box, s: SegmentId)
  {
    InBox(b, s.from) && InBox(b, s.to) && (s.to == Step(s.from, East) || s.to == Step(s.from, South))
  }

  /** Horizontal segments get the horizontal capacity, the rest the vertical one. */
  function CapacityFor(s: SegmentId, hLaneCapacity: int, vLaneCapacity: int): int
  {
    if SegmentIsHorizontal(s) then hLaneCapacity else vLaneCapacity
  }

  /** The cells occupied by the given integer positions. */
  ghost predicate OccupiedBy(g: Graph, nodes: seq<(int, int)>)
  {
    forall c :: c in g.occupiedCells <==> exists i :: 0 <= i < |nodes| && c == FromInt(nodes[i].0, nodes[i].1)
  }

  /** What `RoutingGraph::build` produces from the positions and capacities. */
  ghost predicate BuiltFrom(g: Graph, nodes: seq<(int, int)>, hLaneCapacity: int, vLaneCapacity: int)
  {
    && OccupiedBy(g, nodes)
    && if |nodes| == 0 then g.adjacency == map[] && g.segmentCapacities == map[]
       else
         var b := BoundsOf(nodes);
         && (forall c :: c in g.adjacency <==> InBox(b, c))
         && (forall c :: c in g.adjacency ==> g.adjacency[c] == NeighborsIn(b, c, AllDirections))
         && (forall s :: s in g.segmentCapacities <==> IsBoxSegment(b, s))
         && (forall s :: s in g.segmentCapacities ==> g.segmentCapacities[s] == CapacityFor(s, hLaneCapacity, vLaneCapacity))
  }

  /** Each entry `NeighborsIn` yields is the step entry of one of `dirs`, inside the box. */
  lemma {:induction false} NeighborsInEntry(b: Box, c: GridCoord, dirs: seq<Direction>, k: nat)
    requires k < |NeighborsIn(b, c, dirs)|
    ensures NeighborsIn(b, c, dirs)[k] == NeighborEntry(c, NeighborsIn(b, c, dirs)[k].dir)
    ensures InBox(b, NeighborsIn(b, c, dirs)[k].coord)
    ensures NeighborsIn(b, c, dirs)[k].dir in dirs
  {
    var init := dirs[..|dirs| - 1];
    var d := dirs[|dirs| - 1];
    var prev := NeighborsIn(b, c, init);
    var ns := NeighborsIn(b, c, dirs);
    assert ns == if InBox(b, Step(c, d)) then prev + [NeighborEntry(c, d)] else prev;
    if k < |prev| {
      NeighborsInEntry(b, c, init, k);
      assert ns[k] == prev[k];
      var p :| 0 <= p < |init| && init[p] == prev[k].dir;
      assert dirs[p] == init[p];
    } else {
      assert ns[k] == NeighborEntry(c, d);
      assert dirs[|dirs| - 1] == d;
    }
  }

  /** `NeighborsIn` yields an entry for every direction of `dirs` whose step stays in the box. */
  lemma {:induction false} NeighborsInComplete(b: Box, c: GridCoord, dirs: seq<Direction>, d: Direction)
    requires d in dirs && InBox(b, Step(c, d))
    ensures NeighborEntry(c, d) in NeighborsIn(b, c, dirs)
  {
    var init := dirs[..|dirs| - 1];
    if d != dirs[|dirs| - 1] {
      assert dirs == init + [dirs[|dirs| - 1]];
      NeighborsInComplete(b, c, init, d);
    }
  }

  predicate RanksIncreasing(dirs: seq<Direction>)
  {
    forall i, j :: 0 <= i < j < |dirs| ==> DirectionRank(dirs[i]) < DirectionRank(dirs[j])
  }

  /** `NeighborsIn` keeps the order of `dirs`. */
  lemma {:induction false} NeighborsInOrdered(b: Box, c: GridCoord, dirs: seq<Direction>, i: nat, j: nat)
    requires RanksIncreasing(dirs)
    requires i < j < |NeighborsIn(b, c, dirs)|
    ensures DirectionRank(NeighborsIn(b, c, dirs)[i].dir) < DirectionRank(NeighborsIn(b, c, dirs)[j].dir)
  {
    var init := dirs[..|dirs| - 1];
    var d := dirs[|dirs| - 1];
    var prev := NeighborsIn(b, c, init);
    var ns := NeighborsIn(b, c, dirs);
    assert ns == if InBox(b, Step(c, d)) then prev + [NeighborEntry(c, d)] else prev;
    assert RanksIncreasing(init) by {
      forall i', j' | 0 <= i' < j' < |init|
        ensures DirectionRank(init[i']) < DirectionRank(init[j'])
      {
        assert init[i'] == dirs[i'] && init[j'] == dirs[j'];
      }
    }
    assert ns[i] == prev[i];
    if j < |prev| {
      assert ns[j] == prev[j];
      NeighborsInOrdered(b, c, init, i, j);
    } else {
      assert ns[j] == NeighborEntry(c, d);
      NeighborsInEntry(b, c, init, i);
      var p :| 0 <= p < |init| && init[p] == prev[i].dir;
      assert dirs[p] == init[p];
    }
  }

  // ---------------------------------------------------------------- build

  /** Every capacity recorded so far belongs to a box segment and has the value its orientation calls for. */
  ghost predicate CapacitiesOk(b: Box, caps: map<SegmentId, int>, h: int, v: int)
  {
    forall s :: s in caps ==> IsBoxSegment(b, s) && caps[s] == CapacityFor(s, h, v)
  }

  /** The two nested `for` loops of `build` that list every point of a non-empty box. */
  method BoxPoints(b: Box) returns (allNodes: seq<GridCoord>)
    requires b.c2Min <= b.c2Max && b.r2Min <= b.r2Max
    ensures forall c :: c in allNodes <==> InBox(b, c)
  {
    allNodes := [];
    var c2 := b.c2Min;
    while c2 <= b.c2Max
      invariant b.c2Min <= c2 <= b.c2Max + 1
      invariant forall c :: c in allNodes <==> b.c2Min <= c.col2 < c2 && b.r2Min <= c.row2 <= b.r2Max
    {
      var r2 := b.r2Min;
      while r2 <= b.r2Max
        invariant b.r2Min <= r2 <= b.r2Max + 1
        invariant forall c :: c in allNodes <==>
          (b.c2Min <= c.col2 < c2 && b.r2Min <= c.row2 <= b.r2Max) || (c.col2 == c2 && b.r2Min <= c.row2 < r2)
      {
        allNodes := allNodes + [GridCoord(c2, r2)];
        r2 := r2 + 1;
      }
      c2 := c2 + 1;
    }
  }

  /** The inner `for dir in Direction::ALL` loop of `build` for one point. */
  method PointNeighbors(b: Box, nodeSet: set<GridCoord>, coord: GridCoord, caps: map<SegmentId, int>, h: int, v: int)
    returns (neighbors: seq<Neighbor>, caps': map<SegmentId, int>)
    requires forall c :: c in nodeSet <==> InBox(b, c)
    requires InBox(b, coord)
    requires CapacitiesOk(b, caps, h, v)
    ensures neighbors == NeighborsIn(b, coord, AllDirections)
    ensures CapacitiesOk(b, caps', h, v) && caps.Keys <= caps'.Keys
    ensures forall j :: 0 <= j < |neighbors| ==> neighbors[j].seg in caps'
  {
    neighbors, caps' := [], caps;
    for k := 0 to 4
      invariant neighbors == NeighborsIn(b, coord, AllDirections[..k])
      invariant CapacitiesOk(b, caps', h, v) && caps.Keys <= caps'.Keys
      invariant forall j :: 0 <= j < |neighbors| ==> neighbors[j].seg in caps'
    {
      var dir := AllDirections[k];
      assert AllDirections[..k + 1][..k] == AllDirections[..k];
      var neighbor := Step(coord, dir);
      if neighbor in nodeSet {
        var seg := NewSegment(coord, neighbor);
        neighbors := neighbors + [Neighbor(neighbor, seg, dir)];
        if seg !in caps' {
          SegmentOfStep(coord, dir);
          caps' := caps'[seg := if SegmentIsHorizontal(seg) then h else v];
        }
      }
    }
    assert AllDirections[..4] == AllDirections;
  }

  /** The `occupied_cells` set of `build`: the cell centres of the positions. */
  function OccupiedCells(nodes: seq<(int, int)>): (cells: set<GridCoord>)
    ensures forall c :: c in cells <==> exists i :: 0 <= i < |nodes| && c == FromInt(nodes[i].0, nodes[i].1)
  {
    var cells := set p | p in nodes :: FromInt(p.0, p.1);
    assert forall c :: c in cells ==> exists i :: 0 <= i < |nodes| && c == FromInt(nodes[i].0, nodes[i].1) by {
      forall c | c in cells
        ensures exists i :: 0 <= i < |nodes| && c == FromInt(nodes[i].0, nodes[i].1)
      {
        var p :| p in nodes && c == FromInt(p.0, p.1);
        var i :| 0 <= i < |nodes| && nodes[i] == p;
      }
    }
    cells
  }

  /** `RoutingGraph::build`. */
  method Build(nodes: seq<(int, int)>, hLaneCapacity: int, vLaneCapacity: int) returns (g: Graph)
    ensures BuiltFrom(g, nodes, hLaneCapacity, vLaneCapacity)
  {
    if |nodes| == 0 {
      g := Graph(map[], {}, map[]);
      return;
    }
    ColsRowsAt(nodes);
    var cols, rows := Cols(nodes), Rows(nodes);
    var minCol := MinOf(cols);
    var maxCol := MaxOf(cols);
    var minRow := MinOf(rows);
    var maxRow := MaxOf(rows);
    var occupiedCells := OccupiedCells(nodes);

    var b := Box(2 * minCol - 1, 2 * maxCol + 1, 2 * minRow - 1, 2 * maxRow + 1);
    assert b == BoundsOf(nodes);
    var adjacency, segmentCapacities := BoxAdjacency(b, hLaneCapacity, vLaneCapacity);
    g := Graph(adjacency, occupiedCells, segmentCapacities);
  }

  /**
   * The node and adjacency loops of `build` over a non-empty box: every box
   * point gets its in-box neighbours, and every box segment its capacity.
   */
  method BoxAdjacency(b: Box, h: int, v: int) returns (adjacency: map<GridCoord, seq<Neighbor>>, segmentCapacities: map<SegmentId, int>)
    requires b.c2Min <= b.c2Max && b.r2Min <= b.r2Max
    ensures forall c :: c in adjacency <==> InBox(b, c)
    ensures forall c :: c in adjacency ==> adjacency[c] == NeighborsIn(b, c, AllDirections)
    ensures forall s :: s in segmentCapacities <==> IsBoxSegment(b, s)
    ensures forall s :: s in segmentCapacities ==> segmentCapacities[s] == CapacityFor(s, h, v)
  {
    var allNodes := BoxPoints(b);
    var nodeSet := set c | c in allNodes;

    adjacency, segmentCapacities := map[], map[];
    var i := 0;
    while i < |allNodes|
      invariant 0 <= i <= |allNodes|
      invariant forall c :: c in adjacency <==> c in allNodes[..i]
      invariant forall c :: c in adjacency ==> adjacency[c] == NeighborsIn(b, c, AllDirections)
      invariant CapacitiesOk(b, segmentCapacities, h, v)
      invariant forall c, k :: c in adjacency && 0 <= k < |adjacency[c]| ==> adjacency[c][k].seg in segmentCapacities
    {
      var coord := allNodes[i];
      var neighbors;
      neighbors, segmentCapacities := PointNeighbors(b, nodeSet, coord, segmentCapacities, h, v);
      assert allNodes[..i + 1] == allNodes[..i] + [coord];
      adjacency := adjacency[coord := neighbors];
      i := i + 1;
    }
    assert allNodes[..i] == allNodes;
    AllSegmentsHaveCapacity(b, adjacency, segmentCapacities);
  }

  /** Every segment of the box is the segment of some adjacency entry, so it has a capacity. */
  lemma {:induction false} AllSegmentsHaveCapacity(b: Box, adjacency: map<GridCoord, seq<Neighbor>>, caps: map<SegmentId, int>)
    requires forall c :: c in adjacency <==> InBox(b, c)
    requires forall c :: c in adjacency ==> adjacency[c] == NeighborsIn(b, c, AllDirections)
    requires forall c, k :: c in adjacency && 0 <= k < |adjacency[c]| ==> adjacency[c][k].seg in caps
    ensures forall s :: IsBoxSegment(b, s) ==> s in caps
  {
    forall s | IsBoxSegment(b, s)
      ensures s in caps
    {
      var d := if s.to == Step(s.from, East) then East else South;
      AllDirectionsComplete(d);
      NeighborsInComplete(b, s.from, AllDirections, d);
      NewSegmentCanonical(s);
      var k :| 0 <= k < |adjacency[s.from]| && adjacency[s.from][k] == NeighborEntry(s.from, d);
    }
  }

  // ---------------------------------------------------------------- Properties of built graphs

  /** A graph from `build` is structurally valid. */
  lemma {:induction false} BuiltGraphValid(g: Graph, nodes: seq<(int, int)>, h: int, v: int)
    requires BuiltFrom(g, nodes, h, v)
    ensures g.Valid()
  {
    if |nodes| > 0 {
      var b := BoundsOf(nodes);
      forall c, k | c in g.adjacency && 0 <= k < |g.adjacency[c]|
        ensures g.adjacency[c][k] == NeighborEntry(c, g.adjacency[c][k].dir) && g.adjacency[c][k].coord in g.adjacency
      {
        NeighborsInEntry(b, c, AllDirections, k);
      }
    }
  }

  /** With no positions the graph is empty. */
  lemma EmptyGraph(g: Graph, h: int, v: int, c: GridCoord, s: SegmentId)
    requires BuiltFrom(g, [], h, v)
    ensures !g.Contains(c) && g.Neighbors(c) == [] && g.Capacity(s) == 0 && !g.IsOccupied(c)
  {
  }

  /**
   * Neighbours come in North, East, South, West order, and there is one for
   * each direction whose step stays inside the graph.
   */
  lemma {:induction false} BuiltNeighbors(g: Graph, nodes: seq<(int, int)>, h: int, v: int, c: GridCoord)
    requires BuiltFrom(g, nodes, h, v) && g.Contains(c)
    ensures var ns := g.Neighbors(c);
      && (forall d :: NeighborEntry(c, d) in ns <==> g.Contains(Step(c, d)))
      && (forall i, j :: 0 <= i < j < |ns| ==> DirectionRank(ns[i].dir) < DirectionRank(ns[j].dir))
  {
    var b := BoundsOf(nodes);
    var ns := g.Neighbors(c);
    forall d | NeighborEntry(c, d) in ns
      ensures g.Contains(Step(c, d))
    {
      var k :| 0 <= k < |ns| && ns[k] == NeighborEntry(c, d);
      NeighborsInEntry(b, c, AllDirections, k);
    }
    forall d | g.Contains(Step(c, d))
      ensures NeighborEntry(c, d) in ns
    {
      AllDirectionsComplete(d);
      NeighborsInComplete(b, c, AllDirections, d);
    }
    forall i, j | 0 <= i < j < |ns|
      ensures DirectionRank(ns[i].dir) < DirectionRank(ns[j].dir)
    {
      NeighborsInOrdered(b, c, AllDirections, i, j);
    }
  }

  /** Adjacency is symmetric: an entry back exists for every entry out. */
  lemma {:induction false} BuiltNeighborsSymmetric(g: Graph, nodes: seq<(int, int)>, h: int, v: int, c: GridCoord, d: Direction)
    requires BuiltFrom(g, nodes, h, v)
    ensures NeighborEntry(c, d) in g.Neighbors(c) <==> NeighborEntry(Step(c, d), Opposite(d)) in g.Neighbors(Step(c, d))
    ensures NeighborEntry(c, d) in g.Neighbors(c) ==> NeighborEntry(Step(c, d), Opposite(d)).seg == NeighborEntry(c, d).seg
  {
    var n := Step(c, d);
    StepOpposite(c, d);
    NewSegmentSymmetric(c, n);
    if |nodes| > 0 {
      if g.Contains(c) {
        BuiltNeighbors(g, nodes, h, v, c);
      }
      if g.Contains(n) {
        BuiltNeighbors(g, nodes, h, v, n);
      }
    }
  }

  /**
   * Every segment of the graph has the capacity its orientation calls for,
   * and every other segment has capacity 0.
   */
  lemma {:induction false} BuiltCapacity(g: Graph, nodes: seq<(int, int)>, h: int, v: int, c: GridCoord, d: Direction)
    requires BuiltFrom(g, nodes, h, v)
    ensures NeighborEntry(c, d) in g.Neighbors(c) ==>
      g.Capacity(NeighborEntry(c, d).seg) == (if IsHorizontal(d) then h else v)
    ensures !(g.Contains(c) && g.Contains(Step(c, d))) ==> g.Capacity(NewSegment(c, Step(c, d))) == 0
  {
    var s := NewSegment(c, Step(c, d));
    SegmentOfStep(c, d);
    if |nodes| > 0 {
      var b := BoundsOf(nodes);
      if g.Contains(c) {
        BuiltNeighbors(g, nodes, h, v, c);
      }
    }
  }

  /** Occupied cells are cell centres of the graph. */
  lemma {:induction false} OccupiedInsideGraph(g: Graph, nodes: seq<(int, int)>, h: int, v: int, c: GridCoord)
    requires BuiltFrom(g, nodes, h, v) && g.IsOccupied(c)
    ensures IsCellCenter(c) && g.Contains(c)
  {
    var i :| 0 <= i < |nodes| && c == FromInt(nodes[i].0, nodes[i].1);
    assert Cols(nodes)[i] == nodes[i].0 && Rows(nodes)[i] == nodes[i].1;
  }
}
