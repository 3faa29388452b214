/**
 * Value types of the orthogonal connector router: doubled-integer grid
 * coordinates, the four travel directions, canonical segment identifiers,
 * lanes, waypoints, route complexity and the router's inputs and outputs.
 *
 * Every coordinate is stored doubled, so the half-integer street and junction
 * points of the grid are exact integers. Lengths and costs, which the router
 * keeps as `f64` multiples of 0.5, are kept here as integer half-units.
 */
module RoutingTypes {
  import opened Wrappers

  /** The three-way result of Rust's `Ord::cmp`. */
  datatype Ordering = Less | Equal | Greater
  {
    /** `Ordering::then`: this ordering unless it is `Equal`. */
    function Then(next: Ordering): Ordering
    {
      if this == Equal then next else this
    }

    function Reverse(): Ordering
    {
      match this
      case Less => Greater
      case Equal => Equal
      case Greater => Less
    }
  }

  function CmpInt(a: int, b: int): (o: Ordering)
    ensures o == Less <==> a < b
    ensures o == Equal <==> a == b
    ensures o == Greater <==> a > b
  {
    if a < b then Less else if a == b then Equal else Greater
  }

  function Abs(x: int): nat
  {
    if x < 0 then -x else x
  }

  // ---------------------------------------------------------------- GridCoord

  /** A point of the routing grid, both components doubled. */
  datatype GridCoord = GridCoord(col2: int, row2: int)

  /** `GridCoord::from_int`: the cell centre of integer cell (col, row). */
  function FromInt(col: int, row: int): (c: GridCoord)
    ensures IsCellCenter(c)
    ensures c.col2 / 2 == col && c.row2 / 2 == row
  {
    GridCoord(col * 2, row * 2)
  }

  /** `GridCoord::step`: one half-unit move; North decreases the row. */
  function Step(c: GridCoord, d: Direction): (r: GridCoord)
    ensures Manhattan(c, r) == 1
  {
    match d
    case North => GridCoord(c.col2, c.row2 - 1)
    case South => GridCoord(c.col2, c.row2 + 1)
    case East => GridCoord(c.col2 + 1, c.row2)
    case West => GridCoord(c.col2 - 1, c.row2)
  }

  /** `GridCoord::manhattan_to`, in doubled units. */
  function Manhattan(a: GridCoord, b: GridCoord): nat
  {
    Abs(a.col2 - b.col2) + Abs(a.row2 - b.row2)
  }

  // The source tests parity with Rust's truncating `%`; a remainder is zero
  // (or not) under truncation exactly when it is under Dafny's Euclidean `%`.

  predicate IsCellCenter(c: GridCoord)
  {
    c.col2 % 2 == 0 && c.row2 % 2 == 0
  }

  predicate IsStreetIntersection(c: GridCoord)
  {
    c.col2 % 2 != 0 && c.row2 % 2 != 0
  }

  predicate IsJunction(c: GridCoord)
  {
    (c.col2 % 2 != 0) != (c.row2 % 2 != 0)
  }

  /** Every grid point is exactly one of cell centre, street intersection, junction. */
  lemma ExactlyOneKind(c: GridCoord)
    ensures IsCellCenter(c) || IsStreetIntersection(c) || IsJunction(c)
    ensures !(IsCellCenter(c) && IsStreetIntersection(c))
    ensures !(IsCellCenter(c) && IsJunction(c))
    ensures !(IsStreetIntersection(c) && IsJunction(c))
  {
  }

  /** A step always lands on a junction when it leaves a cell centre or a street intersection. */
  lemma StepAlternatesKind(c: GridCoord, d: Direction)
    ensures IsCellCenter(c) ==> IsJunction(Step(c, d))
    ensures IsStreetIntersection(c) ==> IsJunction(Step(c, d))
    ensures IsJunction(c) ==> !IsJunction(Step(c, d))
  {
  }

  /** Stepping back the opposite way returns to the start. */
  lemma StepOpposite(c: GridCoord, d: Direction)
    ensures Step(Step(c, d), Opposite(d)) == c
    ensures Step(c, d) != c
  {
  }

  /** Distinct directions lead to distinct points. */
  lemma StepInjective(c: GridCoord, d: Direction, e: Direction)
    ensures Step(c, d) == Step(c, e) <==> d == e
  {
  }

  /** The Manhattan distance is a metric; a step changes it by exactly one. */
  lemma ManhattanMetric(a: GridCoord, b: GridCoord, c: GridCoord, d: Direction)
    ensures Manhattan(a, b) == 0 <==> a == b
    ensures Manhattan(a, b) == Manhattan(b, a)
    ensures Manhattan(a, c) <= Manhattan(a, b) + Manhattan(b, c)
    ensures Manhattan(Step(a, d), c) == Manhattan(a, c) + 1 || Manhattan(Step(a, d), c) + 1 == Manhattan(a, c)
  {
  }

  /** `Ord for GridCoord`: row-major, row first and then column. */
  function CmpCoord(a: GridCoord, b: GridCoord): Ordering
  {
    CmpInt(a.row2, b.row2).Then(CmpInt(a.col2, b.col2))
  }

  predicate CoordLe(a: GridCoord, b: GridCoord)
  {
    CmpCoord(a, b) != Greater
  }

  /** The coordinate order is a total order. */
  lemma CoordOrderTotal(a: GridCoord, b: GridCoord, c: GridCoord)
    ensures CmpCoord(a, b) == Equal <==> a == b
    ensures CmpCoord(a, b) == CmpCoord(b, a).Reverse()
    ensures CoordLe(a, b) && CoordLe(b, c) ==> CoordLe(a, c)
    ensures CoordLe(a, b) || CoordLe(b, a)
  {
  }


  // ---------------------------------------------------------------- Direction

  /** Travel direction; declaration order North, East, South, West is its `Ord`. */
  datatype Direction = North | East | South | West

  /** `Direction::ALL`. */
  const AllDirections: seq<Direction> := [North, East, South, West]

  /** The derived `Ord` of `Direction`: declaration order. */
  function DirectionRank(d: Direction): (r: nat)
    ensures r < 4 && AllDirections[r] == d
  {
    match d
    case North => 0
    case East => 1
    case South => 2
    case West => 3
  }

  lemma AllDirectionsComplete(d: Direction)
    ensures d in AllDirections
  {
    assert AllDirections[DirectionRank(d)] == d;
  }

  predicate IsHorizontal(d: Direction)
  {
    d == East || d == West
  }

  predicate IsVertical(d: Direction)
  {
    d == North || d == South
  }

  /** `Direction::is_turn`: the axis of travel changes. */
  predicate IsTurn(d: Direction, e: Direction)
  {
    IsHorizontal(d) != IsHorizontal(e)
  }

  function Opposite(d: Direction): (r: Direction)
    ensures r != d && IsHorizontal(r) == IsHorizontal(d)
    ensures !IsTurn(d, r)
  {
    match d
    case North => South
    case South => North
    case East => West
    case West => East
  }

  /** Opposite is an involution, and turning is symmetric and never a reversal. */
  lemma DirectionFacts(d: Direction, e: Direction)
    ensures Opposite(Opposite(d)) == d
    ensures IsHorizontal(d) != IsVertical(d)
    ensures IsTurn(d, e) == IsTurn(e, d)
    ensures IsTurn(d, e) ==> e != d && e != Opposite(d)
    ensures !IsTurn(d, e) ==> e == d || e == Opposite(d)
  {
  }

  // ---------------------------------------------------------------- Segments

  /** An undirected unit segment, stored with `from <= to` in coordinate order. */
  datatype SegmentId = SegmentId(from: GridCoord, to: GridCoord)

  /** `SegmentId::new`: the canonical identifier of the segment between a and b. */
  function NewSegment(a: GridCoord, b: GridCoord): (s: SegmentId)
    ensures CoordLe(s.from, s.to)
    ensures (s.from == a && s.to == b) || (s.from == b && s.to == a)
  {
    if CoordLe(a, b) then SegmentId(a, b) else SegmentId(b, a)
  }

  /** The identifier does not depend on the direction of travel. */
  lemma {:induction false} NewSegmentSymmetric(a: GridCoord, b: GridCoord)
    ensures NewSegment(a, b) == NewSegment(b, a)
  {
    CoordOrderTotal(a, b, a);
  }

  /** A segment already in canonical form is returned unchanged. */
  lemma {:induction false} NewSegmentCanonical(s: SegmentId)
    requires CoordLe(s.from, s.to)
    ensures NewSegment(s.from, s.to) == s
  {
  }

  /**
   * The segment of a step runs from its smaller end one step East or South,
   * and is horizontal exactly when the step is.
   */
  lemma {:induction false} SegmentOfStep(c: GridCoord, d: Direction)
    ensures var s := NewSegment(c, Step(c, d));
      && (s.to == Step(s.from, East) || s.to == Step(s.from, South))
      && (SegmentIsHorizontal(s) <==> IsHorizontal(d))
  {
  }

  predicate SegmentIsHorizontal(s: SegmentId)
  {
    s.from.row2 == s.to.row2
  }

  predicate SegmentIsVertical(s: SegmentId)
  {
    s.from.col2 == s.to.col2
  }

  // ---------------------------------------------------------------- Routes

  /** A parallel track on a segment: 0 is the centre, positive and negative offsets beside it. */
  type Lane = int

  const I32Min: int := -0x8000_0000
  const I32Max: int := 0x7FFF_FFFF

  datatype Waypoint = Waypoint(coord: GridCoord, lane: Lane)

  /**
   * `RouteComplexity`, with the `f64` length kept in half-units:
   * `length2` is twice the route length.
   */
  datatype RouteComplexity = RouteComplexity(length2: nat, turns: nat, laneChanges: nat)

  /** `RouteComplexity::total`, doubled: length + turns + lane changes. */
  function TotalHalves(c: RouteComplexity): nat
  {
    c.length2 + 2 * c.turns + 2 * c.laneChanges
  }

  /** `Ord for RouteComplexity`: total, then length, then turns, then lane changes. */
  function CmpComplexity(a: RouteComplexity, b: RouteComplexity): Ordering
  {
    CmpInt(TotalHalves(a), TotalHalves(b))
      .Then(CmpInt(a.length2, b.length2))
      .Then(CmpInt(a.turns, b.turns))
      .Then(CmpInt(a.laneChanges, b.laneChanges))
  }

  /** The complexity order is total, antisymmetric and transitive. */
  lemma ComplexityOrderTotal(a: RouteComplexity, b: RouteComplexity, c: RouteComplexity)
    ensures CmpComplexity(a, b) == Equal <==> a == b
    ensures CmpComplexity(a, b) == CmpComplexity(b, a).Reverse()
    ensures CmpComplexity(a, b) == Less && CmpComplexity(b, c) == Less ==> CmpComplexity(a, c) == Less
  {
  }

  /** A smaller total always wins, whatever the other components. */
  lemma ComplexityOrderByTotal(a: RouteComplexity, b: RouteComplexity)
    requires TotalHalves(a) < TotalHalves(b)
    ensures CmpComplexity(a, b) == Less
  {
  }

  datatype Route = Route(waypoints: seq<Waypoint>, complexity: RouteComplexity)

  function ZeroComplexity(): RouteComplexity
  {
    RouteComplexity(0, 0, 0)
  }

  // ---------------------------------------------------------------- Inputs and outputs

  datatype DiagramNode = DiagramNode(name: string, col: int, row: int)

  datatype DiagramEdge = DiagramEdge(source: string, target: string, edgeLabel: Option<string>)

  /** Lanes available on horizontal and on vertical segments. */
  datatype RoutingConfig = RoutingConfig(hLaneCapacity: int, vLaneCapacity: int)

  /** `RoutingConfig::default`: three lanes each way. */
  const DefaultConfig: RoutingConfig := RoutingConfig(3, 3)

  datatype RouteResult = Success(route: Route) | Failure(warning: string)
}
