/**
 * Lane bookkeeping of the router: the spiral order in which lanes are tried,
 * the occupancy table of claimed (segment, lane) pairs, and the complexity
 * (length, turns, lane changes) of a waypoint sequence.
 */
module RoutingLanes {
  import opened Wrappers
  import opened RoutingTypes

  // ---------------------------------------------------------------- Spiral order

  /** The lane at position `i` of the spiral 0, 1, -1, 2, -2, ... */
  function SpiralLane(i: nat): Lane
  {
    if i % 2 == 1 then (i + 1) / 2 else -(i / 2)
  }

  /** The position of a lane in the spiral. */
  function SpiralIndex(l: Lane): nat
  {
    if l > 0 then 2 * l - 1 else -2 * l
  }

  /** The first `capacity` lanes of the spiral; none when the capacity is not positive. */
  function SpiralOrder(capacity: int): (lanes: seq<Lane>)
    ensures |lanes| == if capacity <= 0 then 0 else capacity
    ensures forall i :: 0 <= i < |lanes| ==> lanes[i] == SpiralLane(i)
  {
    if capacity <= 0 then [] else seq(capacity, i requires 0 <= i < capacity => SpiralLane(i))
  }

  /** Spiral positions and lanes are in one-to-one correspondence. */
  lemma SpiralIndexInverse(i: nat, l: Lane)
    ensures SpiralIndex(SpiralLane(i)) == i
    ensures SpiralLane(SpiralIndex(l)) == l
  {
  }

  /**
   * The spiral of a capacity holds exactly the lanes whose spiral position is
   * below it, each once, centre first, widening outwards, the positive side
   * of each offset before the negative one.
   */
  lemma {:induction false} SpiralOrderFacts(capacity: int, l: Lane)
    ensures l in SpiralOrder(capacity) <==> SpiralIndex(l) < capacity
    ensures capacity > 0 ==> SpiralOrder(capacity)[0] == 0
    ensures var s := SpiralOrder(capacity);
      forall i, j :: 0 <= i < j < |s| ==> s[i] != s[j] && Abs(s[i]) <= Abs(s[j]) && (Abs(s[i]) == Abs(s[j]) ==> s[i] > 0)
  {
    var s := SpiralOrder(capacity);
    if l in s {
      var i :| 0 <= i < |s| && s[i] == l;
      SpiralIndexInverse(i, l);
    }
    if SpiralIndex(l) < capacity {
      SpiralIndexInverse(SpiralIndex(l), l);
      assert s[SpiralIndex(l)] == l;
    }
    forall i, j | 0 <= i < j < |s|
      ensures s[i] != s[j] && Abs(s[i]) <= Abs(s[j]) && (Abs(s[i]) == Abs(s[j]) ==> s[i] > 0)
    {
      SpiralIndexInverse(i, s[i]);
      SpiralIndexInverse(j, s[j]);
    }
  }

  /** `spiral_lanes`. */
  method SpiralLanes(capacity: int) returns (lanes: seq<Lane>)
    ensures lanes == SpiralOrder(capacity)
  {
    if capacity <= 0 {
      return [];
    }
    lanes := [0];
    var offset := 1;
    while |lanes| < capacity
      invariant 1 <= |lanes| <= capacity
      invariant forall i :: 0 <= i < |lanes| ==> lanes[i] == SpiralLane(i)
      invariant |lanes| == 2 * offset - 1 || (|lanes| == capacity && |lanes| == 2 * offset - 2)
      decreases capacity - |lanes|
    {
      lanes := lanes + [offset];
      if |lanes| < capacity {
        lanes := lanes + [-offset];
      }
      offset := offset + 1;
    }
  }

  // ---------------------------------------------------------------- Filtering

  /** The lanes of `lanes` that are not in `taken`, in order. */
  function Unclaimed(lanes: seq<Lane>, taken: set<Lane>): (r: seq<Lane>)
    ensures forall l :: l in r <==> l in lanes && l !in taken
    ensures |r| <= |lanes|
  {
    if lanes == [] then []
    else (if lanes[0] in taken then [] else [lanes[0]]) + Unclaimed(lanes[1..], taken)
  }

  predicate SpiralSorted(lanes: seq<Lane>)
  {
    forall i, j :: 0 <= i < j < |lanes| ==> SpiralIndex(lanes[i]) < SpiralIndex(lanes[j])
  }

  lemma {:induction false} UnclaimedSorted(lanes: seq<Lane>, taken: set<Lane>)
    requires SpiralSorted(lanes)
    ensures SpiralSorted(Unclaimed(lanes, taken))
  {
    if lanes != [] {
      UnclaimedSorted(lanes[1..], taken);
      var rest := Unclaimed(lanes[1..], taken);
      forall l | l in rest
        ensures SpiralIndex(lanes[0]) < SpiralIndex(l)
      {
        var k :| 1 <= k < |lanes| && lanes[k] == l;
      }
    }
  }

  /** The first lane of `lanes` that is not in `taken`. */
  function FirstUnclaimed(lanes: seq<Lane>, taken: set<Lane>): (r: Option<Lane>)
    ensures r.Some? ==> exists i :: (0 <= i < |lanes| && lanes[i] == r.value && r.value !in taken
      && forall j :: 0 <= j < i ==> lanes[j] in taken)
    ensures r.None? ==> forall i :: 0 <= i < |lanes| ==> lanes[i] in taken
  {
    if lanes == [] then None
    else if lanes[0] !in taken then Some(lanes[0])
    else
      var r := FirstUnclaimed(lanes[1..], taken);
      assert r.Some? ==> exists i :: (0 <= i < |lanes| && lanes[i] == r.value && r.value !in taken
        && forall j :: 0 <= j < i ==> lanes[j] in taken)
      by {
        if r.Some? {
          var i :| 0 <= i < |lanes[1..]| && lanes[1..][i] == r.value && r.value !in taken
            && forall j :: 0 <= j < i ==> lanes[1..][j] in taken;
          assert lanes[i + 1] == r.value;
          assert forall j :: 1 <= j < i + 1 ==> lanes[j] == lanes[1..][j - 1];
        }
      }
      r
  }

  /** Finding the first unclaimed lane yields the head of the filtered list. */
  lemma {:induction false} FirstUnclaimedIsHead(lanes: seq<Lane>, taken: set<Lane>)
    ensures FirstUnclaimed(lanes, taken) == if Unclaimed(lanes, taken) == [] then None else Some(Unclaimed(lanes, taken)[0])
  {
    if lanes != [] && lanes[0] in taken {
      FirstUnclaimedIsHead(lanes[1..], taken);
    }
  }

  // ---------------------------------------------------------------- Occupancy

  /** The (segment, lane) pair claimed for the step from waypoint `i` to waypoint `i + 1`. */
  function StepClaim(waypoints: seq<Waypoint>, i: nat): (SegmentId, Lane)
    requires i + 1 < |waypoints|
  {
    (NewSegment(waypoints[i].coord, waypoints[i + 1].coord), waypoints[i].lane)
  }

  /** The pairs claimed for the first `n` steps of a route. */
  function StepClaims(waypoints: seq<Waypoint>, n: nat): set<(SegmentId, Lane)>
  {
    set i | 0 <= i < n && i + 1 < |waypoints| :: StepClaim(waypoints, i)
  }

  /** The (segment, lane) pairs a route claims: the lane of each waypoint on the segment it leaves by. */
  function RouteClaims(waypoints: seq<Waypoint>): set<(SegmentId, Lane)>
  {
    StepClaims(waypoints, |waypoints|)
  }

  /** `LaneOccupancy`: the lanes claimed on each segment. */
  class LaneOccupancy {
    var claimed: map<SegmentId, set<Lane>>

    /** A segment is only recorded once a lane on it has been claimed. */
    ghost predicate Valid()
      reads this
    {
      forall s :: s in claimed ==> claimed[s] != {}
    }

    /** The claimed pairs. */
    ghost function Claims(): set<(SegmentId, Lane)>
      reads this
    {
      set s, l | s in claimed && l in claimed[s] :: (s, l)
    }

    /** `LaneOccupancy::new`: nothing claimed. */
    constructor ()
      ensures Valid() && Claims() == {}
    {
      claimed := map[];
    }

    /** The lanes claimed on `seg`. */
    function Taken(seg: SegmentId): (taken: set<Lane>)
      reads this
      ensures forall l :: l in taken <==> (seg, l) in Claims()
    {
      if seg in claimed then claimed[seg] else {}
    }

    /** `LaneOccupancy::is_available`. */
    function IsAvailable(seg: SegmentId, lane: Lane): (r: bool)
      reads this
      ensures r <==> (seg, lane) !in Claims()
    {
      seg !in claimed || lane !in claimed[seg]
    }

    /** `LaneOccupancy::claim`. */
    method Claim(seg: SegmentId, lane: Lane)
      requires Valid()
      modifies this
      ensures Valid()
      ensures Claims() == old(Claims()) + {(seg, lane)}
    {
      var lanes := if seg in claimed then claimed[seg] else {};
      claimed := claimed[seg := lanes + {lane}];
      ghost var before := old(Claims());
      assert Claims() == before + {(seg, lane)} by {
        forall p | p in Claims()
          ensures p in before + {(seg, lane)}
        {
          if p.0 != seg || p.1 != lane {
            assert p.0 in old(claimed) && p.1 in old(claimed)[p.0];
          }
        }
        forall p | p in before + {(seg, lane)}
          ensures p in Claims()
        {
          if p != (seg, lane) {
            assert p.0 in claimed && p.1 in claimed[p.0];
          }
        }
      }
    }

    /** `LaneOccupancy::claim_route`: one claim per consecutive waypoint pair. */
    method ClaimRoute(route: Route)
      requires Valid()
      modifies this
      ensures Valid()
      ensures Claims() == old(Claims()) + RouteClaims(route.waypoints)
    {
      var w := route.waypoints;
      var i := 0;
      while i + 1 < |w|
        invariant Valid()
        invariant Claims() == old(Claims()) + StepClaims(w, i)
      {
        var seg := NewSegment(w[i].coord, w[i + 1].coord);
        Claim(seg, w[i].lane);
        assert StepClaims(w, i + 1) == StepClaims(w, i) + {StepClaim(w, i)};
        i := i + 1;
      }
      assert StepClaims(w, i) == RouteClaims(w);
    }

    /** `LaneOccupancy::first_available`: the first free lane of the spiral. */
    function FirstAvailable(seg: SegmentId, capacity: int): (r: Option<Lane>)
      reads this
      ensures r.Some? ==> r.value in SpiralOrder(capacity) && IsAvailable(seg, r.value)
      ensures r.Some? ==> forall l :: l in SpiralOrder(capacity) && SpiralIndex(l) < SpiralIndex(r.value) ==> !IsAvailable(seg, l)
      ensures r.None? ==> forall l :: l in SpiralOrder(capacity) ==> !IsAvailable(seg, l)
    {
      var r := FirstUnclaimed(SpiralOrder(capacity), Taken(seg));
      assert r.Some? ==> forall l :: l in SpiralOrder(capacity) && SpiralIndex(l) < SpiralIndex(r.value) ==> !IsAvailable(seg, l)
      by {
        if r.Some? {
          var s := SpiralOrder(capacity);
          var i :| 0 <= i < |s| && s[i] == r.value && r.value !in Taken(seg) && forall j :: 0 <= j < i ==> s[j] in Taken(seg);
          forall l | l in s && SpiralIndex(l) < SpiralIndex(r.value)
            ensures !IsAvailable(seg, l)
          {
            var j :| 0 <= j < |s| && s[j] == l;
            SpiralIndexInverse(i, r.value);
            SpiralIndexInverse(j, l);
          }
        }
      }
      r
    }

    /** `LaneOccupancy::available_lanes`: the free lanes of the spiral, in spiral order. */
    function AvailableLanes(seg: SegmentId, capacity: int): (r: seq<Lane>)
      reads this
      ensures forall l :: l in r <==> l in SpiralOrder(capacity) && IsAvailable(seg, l)
      ensures SpiralSorted(r)
    {
      var s := SpiralOrder(capacity);
      assert SpiralSorted(s) by {
        forall i, j | 0 <= i < j < |s|
          ensures SpiralIndex(s[i]) < SpiralIndex(s[j])
        {
          SpiralIndexInverse(i, s[i]);
          SpiralIndexInverse(j, s[j]);
        }
      }
      UnclaimedSorted(s, Taken(seg));
      Unclaimed(s, Taken(seg))
    }

    /** The first available lane is the head of the available lanes. */
    lemma FirstAvailableIsFirstOfAvailable(seg: SegmentId, capacity: int)
      ensures FirstAvailable(seg, capacity) ==
        if AvailableLanes(seg, capacity) == [] then None else Some(AvailableLanes(seg, capacity)[0])
    {
      FirstUnclaimedIsHead(SpiralOrder(capacity), Taken(seg));
    }

    /** `LaneOccupancy::claimed_lanes`: the claimed lanes of a segment, if any were claimed. */
    function ClaimedLanes(seg: SegmentId): (r: Option<set<Lane>>)
      requires Valid()
      reads this
      ensures r.None? ==> forall l :: (seg, l) !in Claims()
      ensures r.Some? ==> r.value != {}
      ensures r.Some? ==> forall l :: l in r.value <==> (seg, l) in Claims()
    {
      if seg in claimed then
        Some(claimed[seg])
      else None
    }

    /** `LaneOccupancy::claimed_count`: the number of distinct lanes claimed on a segment. */
    function ClaimedCount(seg: SegmentId): (n: nat)
      reads this
      ensures n == |set p | p in Claims() && p.0 == seg :: p.1|
    {
      var taken := Taken(seg);
      assert (set p | p in Claims() && p.0 == seg :: p.1) == taken by {
        forall l | l in taken
          ensures l in (set p | p in Claims() && p.0 == seg :: p.1)
        {
          assert (seg, l) in Claims();
        }
      }
      if seg in claimed then |claimed[seg]| else 0
    }
  }

  // ---------------------------------------------------------------- Complexity

  /** `segment_direction`: the direction from `a` to `b` along one axis, if any. */
  function SegmentDirection(a: GridCoord, b: GridCoord): Option<Direction>
  {
    var dc := b.col2 - a.col2;
    var dr := b.row2 - a.row2;
    if dc > 0 && dr == 0 then Some(East)
    else if dc < 0 && dr == 0 then Some(West)
    else if dr > 0 && dc == 0 then Some(South)
    else if dr < 0 && dc == 0 then Some(North)
    else None
  }

  /** A step's direction is recovered, and reversing a segment reverses its direction. */
  lemma SegmentDirectionOfStep(a: GridCoord, b: GridCoord, d: Direction)
    ensures SegmentDirection(a, Step(a, d)) == Some(d)
    ensures SegmentDirection(a, b).Some? <==> a != b && (a.col2 == b.col2 || a.row2 == b.row2)
    ensures SegmentDirection(a, b) == Some(d) ==> SegmentDirection(b, a) == Some(Opposite(d))
  {
  }

  /** A turn is counted at the middle of three waypoints when the axis changes there. */
  function TurnAt(a: Waypoint, b: Waypoint, c: Waypoint): nat
  {
    match (SegmentDirection(a.coord, b.coord), SegmentDirection(b.coord, c.coord))
    case (Some(pd), Some(cd)) => if IsTurn(pd, cd) then 1 else 0
    case _ => 0
  }

  /** A lane change is counted at the middle waypoint when the lane changes there without a turn. */
  function LaneChangeAt(a: Waypoint, b: Waypoint, c: Waypoint): nat
  {
    match (SegmentDirection(a.coord, b.coord), SegmentDirection(b.coord, c.coord))
    case (Some(pd), Some(cd)) => if a.lane != b.lane && !IsTurn(pd, cd) then 1 else 0
    case _ => 0
  }

  /** The complexity of a waypoint sequence, accumulated from the front. */
  function ComplexityOf(w: seq<Waypoint>): RouteComplexity
    decreases |w|
  {
    if |w| <= 1 then ZeroComplexity()
    else
      var n := |w|;
      var prev := ComplexityOf(w[..n - 1]);
      var turn := if n >= 3 then TurnAt(w[n - 3], w[n - 2], w[n - 1]) else 0;
      var change := if n >= 3 then LaneChangeAt(w[n - 3], w[n - 2], w[n - 1]) else 0;
      RouteComplexity(prev.length2 + Manhattan(w[n - 2].coord, w[n - 1].coord), prev.turns + turn, prev.laneChanges + change)
  }

  /** `compute_complexity`. */
  method ComputeComplexity(waypoints: seq<Waypoint>) returns (c: RouteComplexity)
    ensures c == ComplexityOf(waypoints)
  {
    var length2: nat, turns: nat, laneChanges: nat := 0, 0, 0;
    if |waypoints| <= 1 {
      return ZeroComplexity();
    }
    for i := 1 to |waypoints|
      invariant RouteComplexity(length2, turns, laneChanges) == ComplexityOf(waypoints[..i])
    {
      var prev := waypoints[i - 1];
      var curr := waypoints[i];
      length2 := length2 + Abs(curr.coord.col2 - prev.coord.col2) + Abs(curr.coord.row2 - prev.coord.row2);
      if i >= 2 {
        var prevPrev := waypoints[i - 2];
        var prevDir := SegmentDirection(prevPrev.coord, prev.coord);
        var currDir := SegmentDirection(prev.coord, curr.coord);
        if prevDir.Some? && currDir.Some? {
          var isTurn := IsTurn(prevDir.value, currDir.value);
          if isTurn {
            turns := turns + 1;
          }
          if prevPrev.lane != prev.lane && !isTurn {
            laneChanges := laneChanges + 1;
          }
        }
      }
      assert waypoints[..i + 1][..i] == waypoints[..i];
    }
    assert waypoints[..|waypoints|] == waypoints;
    c := RouteComplexity(length2, turns, laneChanges);
  }

  /** `LaneOccupancy::build_route_from_waypoints`. */
  method BuildRouteFromWaypoints(waypoints: seq<Waypoint>) returns (route: Route)
    ensures route.waypoints == waypoints && route.complexity == ComplexityOf(waypoints)
  {
    var complexity := ComputeComplexity(waypoints);
    route := Route(waypoints, complexity);
  }

  /** The total distance between consecutive waypoints, summed from the back. */
  function PathLength(w: seq<Waypoint>): nat
  {
    if |w| <= 1 then 0 else Manhattan(w[0].coord, w[1].coord) + PathLength(w[1..])
  }

  /** The length component is the summed distance between consecutive waypoints. */
  lemma {:induction false} ComplexityLength(w: seq<Waypoint>)
    ensures ComplexityOf(w).length2 == PathLength(w)
    decreases |w|
  {
    if |w| > 1 {
      var n := |w|;
      ComplexityLength(w[..n - 1]);
      PathLengthSnoc(w[..n - 1], w[n - 1]);
      assert w[..n - 1] + [w[n - 1]] == w;
    }
  }

  lemma {:induction false} PathLengthSnoc(w: seq<Waypoint>, x: Waypoint)
    requires |w| >= 1
    ensures PathLength(w + [x]) == PathLength(w) + Manhattan(w[|w| - 1].coord, x.coord)
    decreases |w|
  {
    if |w| > 1 {
      PathLengthSnoc(w[1..], x);
      assert (w + [x])[1..] == w[1..] + [x];
    }
  }

  /** Every interior waypoint counts at most one turn or lane change, never both. */
  lemma {:induction false} CornersBounded(w: seq<Waypoint>)
    ensures ComplexityOf(w).turns + ComplexityOf(w).laneChanges <= if |w| <= 2 then 0 else |w| - 2
    decreases |w|
  {
    if |w| > 1 {
      CornersBounded(w[..|w| - 1]);
    }
  }

  /** A route that never leaves its lane has no lane changes. */
  lemma {:induction false} SingleLaneNoChanges(w: seq<Waypoint>, lane: Lane)
    requires forall i :: 0 <= i < |w| ==> w[i].lane == lane
    ensures ComplexityOf(w).laneChanges == 0
    decreases |w|
  {
    if |w| > 1 {
      SingleLaneNoChanges(w[..|w| - 1], lane);
    }
  }

  /** The lane of the last waypoint never enters the complexity. */
  lemma {:induction false} ComplexityIgnoresLastLane(w: seq<Waypoint>, lane: Lane)
    requires |w| >= 1
    ensures ComplexityOf(w[..|w| - 1] + [Waypoint(w[|w| - 1].coord, lane)]) == ComplexityOf(w)
  {
    var w' := w[..|w| - 1] + [Waypoint(w[|w| - 1].coord, lane)];
    assert w'[..|w'| - 1] == w[..|w| - 1];
  }

  /** The example route (1,1)-L0-(1.5,1)-L1-(1.5,2)-L0-(2,2): length 2, two turns, no lane change. */
  lemma ExampleComplexity()
    ensures ComplexityOf([Waypoint(GridCoord(2, 2), 0), Waypoint(GridCoord(3, 2), 1),
                          Waypoint(GridCoord(3, 4), 0), Waypoint(GridCoord(4, 4), 0)])
      == RouteComplexity(4, 2, 0)
  {
    var w := [Waypoint(GridCoord(2, 2), 0), Waypoint(GridCoord(3, 2), 1),
              Waypoint(GridCoord(3, 4), 0), Waypoint(GridCoord(4, 4), 0)];
    assert w[..4] == w;
    assert w[..3][..2] == w[..2];
    assert w[..2][..1] == w[..1];
    assert ComplexityOf(w[..2]) == RouteComplexity(1, 0, 0);
    assert TurnAt(w[0], w[1], w[2]) == 1 && LaneChangeAt(w[0], w[1], w[2]) == 0;
    assert ComplexityOf(w[..3]) == RouteComplexity(3, 1, 0);
    assert TurnAt(w[1], w[2], w[3]) == 1 && LaneChangeAt(w[1], w[2], w[3]) == 0;
  }
}
