/**
 * `route_all_edges`: look the endpoints up by name, build one routing graph
 * for all nodes, and route the edges one after another in input order,
 * claiming the lanes of each route found before the next edge is routed.
 */
module Routing {
  import opened Wrappers
  import opened RoutingTypes
  import opened RoutingGraph
  import opened RoutingLanes
  import opened RoutingSearch

  /** `RoutingOutput`: one (edge, result) pair per input edge. */
  datatype RoutingOutput = RoutingOutput(results: seq<(DiagramEdge, RouteResult)>)

  /** The name-to-position lookup, built in node order, so a later definition of a name replaces an earlier one. */
  function NameLookup(nodes: seq<DiagramNode>): (m: map<string, (int, int)>)
    ensures forall name :: name in m <==> exists i :: 0 <= i < |nodes| && nodes[i].name == name
  {
    if nodes == [] then map[]
    else
      var last := nodes[|nodes| - 1];
      var m' := NameLookup(nodes[..|nodes| - 1]);
      assert forall i :: 0 <= i < |nodes| - 1 ==> nodes[..|nodes| - 1][i] == nodes[i];
      m'[last.name := (last.col, last.row)]
  }

  /** The last definition of a name wins: its position is that of the last node carrying it. */
  lemma {:induction false} LastDefinitionWins(nodes: seq<DiagramNode>, i: nat)
    requires i < |nodes|
    requires forall j :: i < j < |nodes| ==> nodes[j].name != nodes[i].name
    ensures NameLookup(nodes)[nodes[i].name] == (nodes[i].col, nodes[i].row)
  {
    if i < |nodes| - 1 {
      var init := nodes[..|nodes| - 1];
      assert forall j :: i < j < |init| ==> init[j] == nodes[j];
      LastDefinitionWins(init, i);
      assert init[i] == nodes[i];
    }
  }

  /** The grid positions of the nodes, in node order. */
  function Positions(nodes: seq<DiagramNode>): seq<(int, int)>
  {
    seq(|nodes|, i requires 0 <= i < |nodes| => (nodes[i].col, nodes[i].row))
  }

  function UnknownSourceMessage(source: string): string
  {
    "Unknown source node '" + source + "'"
  }

  function UnknownTargetMessage(target: string): string
  {
    "Unknown target node '" + target + "'"
  }

  function NoRouteMessage(source: string, target: string): string
  {
    "Could not find route from '" + source + "' to '" + target + "'"
  }

  /** The lanes a route takes are within the segments' capacities and none of them is among `claims`. */
  ghost predicate LanesFreeIn(g: Graph, claims: set<(SegmentId, Lane)>, w: seq<Waypoint>)
  {
    forall i :: 0 <= i < |w| - 1 ==>
      && StepClaim(w, i) !in claims
      && w[i].lane in SpiralOrder(g.Capacity(StepClaim(w, i).0))
  }

  /** A route the search returns takes only lanes the occupancy had free. */
  lemma RouteOkLanesFree(g: Graph, occ: LaneOccupancy, q: Query, w: seq<Waypoint>)
    requires RouteOk(g, occ, q, w)
    ensures LanesFreeIn(g, occ.Claims(), w)
  {
    forall i | 0 <= i < |w| - 1
      ensures StepClaim(w, i) !in occ.Claims() && w[i].lane in SpiralOrder(g.Capacity(StepClaim(w, i).0))
    {
      assert LaneFree(g, occ, w[i].lane, w[i].coord, w[i + 1].coord);
    }
  }

  /** The lanes claimed by the successful results among `results`, in order. */
  ghost function SuccessClaims(results: seq<(DiagramEdge, RouteResult)>): set<(SegmentId, Lane)>
  {
    if results == [] then {}
    else
      var last := results[|results| - 1].1;
      SuccessClaims(results[..|results| - 1]) + (if last.Success? then RouteClaims(last.route.waypoints) else {})
  }

  /**
   * The result of routing edge `e`, given the node lookup, the graph and the
   * lanes claimed before it: an unknown source is reported first, then an
   * unknown target; otherwise a failure names both endpoints, and a success
   * is the trivial route when the endpoints coincide and otherwise a route
   * as the search describes for one of the four initial directions, on lanes
   * nobody had claimed.
   */
  ghost predicate EdgeResultOk(g: Graph, lookup: map<string, (int, int)>, before: set<(SegmentId, Lane)>,
                               e: DiagramEdge, r: RouteResult)
  {
    if e.source !in lookup then r == Failure(UnknownSourceMessage(e.source))
    else if e.target !in lookup then r == Failure(UnknownTargetMessage(e.target))
    else
      var s := FromInt(lookup[e.source].0, lookup[e.source].1);
      var t := FromInt(lookup[e.target].0, lookup[e.target].1);
      match r
      case Failure(w) => w == NoRouteMessage(e.source, e.target) && s != t
      case Success(route) =>
        && LanesFreeIn(g, before, route.waypoints)
        && route.complexity == ComplexityOf(route.waypoints)
        && (s == t ==> route == TrivialRoute(s))
        && (s != t ==> exists d :: RouteShape(g, Query(s, t, d), route.waypoints))
  }

  /** `route_all_edges`. */
  method RouteAllEdges(nodes: seq<DiagramNode>, edges: seq<DiagramEdge>, config: RoutingConfig)
    returns (output: RoutingOutput, ghost g: Graph)
    ensures BuiltFrom(g, Positions(nodes), config.hLaneCapacity, config.vLaneCapacity)
    ensures |output.results| == |edges|
    ensures forall i :: 0 <= i < |edges| ==> output.results[i].0 == edges[i]
    ensures forall i :: 0 <= i < |edges| ==>
      EdgeResultOk(g, NameLookup(nodes), SuccessClaims(output.results[..i]), edges[i], output.results[i].1)
  {
    var nameToPos := NameLookup(nodes);
    var positions := Positions(nodes);
    var graph := Build(positions, config.hLaneCapacity, config.vLaneCapacity);
    BuiltGraphValid(graph, positions, config.hLaneCapacity, config.vLaneCapacity);
    g := graph;
    var occupancy := new LaneOccupancy();
    var results: seq<(DiagramEdge, RouteResult)> := [];

    for i := 0 to |edges|
      invariant occupancy.Valid()
      invariant occupancy.Claims() == SuccessClaims(results)
      invariant |results| == i
      invariant forall j :: 0 <= j < i ==> results[j].0 == edges[j]
      invariant forall j :: 0 <= j < i ==>
        EdgeResultOk(g, nameToPos, SuccessClaims(results[..j]), edges[j], results[j].1)
    {
      var result := RouteEdge(graph, occupancy, nameToPos, edges[i]);
      ResultsSnoc(results, edges[i], result);
      results := results + [(edges[i], result)];
    }
    output := RoutingOutput(results);
  }

  /** One iteration of `route_all_edges`: the result for `edge`, claiming the lanes of a route found. */
  method RouteEdge(graph: Graph, occupancy: LaneOccupancy, nameToPos: map<string, (int, int)>, edge: DiagramEdge)
    returns (result: RouteResult)
    requires graph.Valid() && occupancy.Valid()
    modifies occupancy
    ensures occupancy.Valid()
    ensures EdgeResultOk(graph, nameToPos, old(occupancy.Claims()), edge, result)
    ensures occupancy.Claims() ==
      old(occupancy.Claims()) + (if result.Success? then RouteClaims(result.route.waypoints) else {})
  {
    if edge.source in nameToPos && edge.target in nameToPos {
      var (sc, sr) := nameToPos[edge.source];
      var (tc, tr) := nameToPos[edge.target];
      var source := FromInt(sc, sr);
      var target := FromInt(tc, tr);
      var found, candidates := FindBestRoute(graph, occupancy, source, target);
      match found
      case Some(route) =>
        RouteFound(graph, occupancy, source, target, route, candidates);
        occupancy.ClaimRoute(route);
        result := Success(route);
      case None =>
        result := Failure(NoRouteMessage(edge.source, edge.target));
    } else if edge.source !in nameToPos {
      result := Failure(UnknownSourceMessage(edge.source));
    } else {
      result := Failure(UnknownTargetMessage(edge.target));
    }
  }

  /** What `FindBestRoute` promises of a route it finds, restated against the occupancy's claims. */
  lemma RouteFound(g: Graph, occ: LaneOccupancy, source: GridCoord, target: GridCoord, route: Route,
                   candidates: seq<Option<Route>>)
    requires source == target ==> Some(route) == Some(TrivialRoute(source))
    requires source != target ==> |candidates| == 4 && Some(route) == SelectBest(candidates)
    requires source != target ==> forall i :: 0 <= i < |candidates| && candidates[i].Some? ==>
      && RouteOk(g, occ, Query(source, target, AllDirections[i]), candidates[i].value.waypoints)
      && candidates[i].value.complexity == ComplexityOf(candidates[i].value.waypoints)
    ensures LanesFreeIn(g, occ.Claims(), route.waypoints)
    ensures route.complexity == ComplexityOf(route.waypoints)
    ensures source == target ==> route == TrivialRoute(source)
    ensures source != target ==> exists d :: RouteShape(g, Query(source, target, d), route.waypoints)
  {
    if source == target {
      assert route.waypoints == [Waypoint(source, 0)];
      assert ComplexityOf(route.waypoints) == ZeroComplexity();
    } else {
      SelectBestIsMinimum(candidates);
      var k :| 0 <= k < |candidates| && candidates[k] == Some(route);
      RouteOkLanesFree(g, occ, Query(source, target, AllDirections[k]), route.waypoints);
    }
  }

  /** Appending a result leaves the claims before every earlier index as they were. */
  lemma ResultsSnoc(results: seq<(DiagramEdge, RouteResult)>, e: DiagramEdge, r: RouteResult)
    ensures var results' := results + [(e, r)];
      && results'[..|results|] == results
      && forall j :: 0 <= j < |results| ==> results'[..j] == results[..j]
  {
    var results' := results + [(e, r)];
    assert results'[..|results|] == results;
    forall j | 0 <= j < |results|
      ensures results'[..j] == results[..j]
    {
    }
  }

  /**
   * Lane exclusivity: two successful routes of one call never take the same
   * lane of the same segment.
   */
  lemma {:induction false} LanesExclusive(g: Graph, lookup: map<string, (int, int)>, edges: seq<DiagramEdge>,
                                          results: seq<(DiagramEdge, RouteResult)>, i: nat, j: nat)
    requires |results| == |edges|
    requires forall k :: 0 <= k < |edges| ==> EdgeResultOk(g, lookup, SuccessClaims(results[..k]), edges[k], results[k].1)
    requires i < j < |results| && results[i].1.Success? && results[j].1.Success?
    ensures RouteClaims(results[i].1.route.waypoints) !! RouteClaims(results[j].1.route.waypoints)
  {
    var wi := results[i].1.route.waypoints;
    var wj := results[j].1.route.waypoints;
    SuccessClaimsGrow(results, i, j);
    assert EdgeResultOk(g, lookup, SuccessClaims(results[..j]), edges[j], results[j].1);
    assert LanesFreeIn(g, SuccessClaims(results[..j]), wj) by {
      if edges[j].source in lookup && edges[j].target in lookup {
      }
    }
    forall c | c in RouteClaims(wj)
      ensures c !in RouteClaims(wi)
    {
      var k :| 0 <= k < |wj| && k + 1 < |wj| && c == StepClaim(wj, k);
    }
  }

  /** The claims of an earlier success are among the claims before any later index. */
  lemma {:induction false} SuccessClaimsGrow(results: seq<(DiagramEdge, RouteResult)>, i: nat, j: nat)
    requires i < j <= |results| && results[i].1.Success?
    ensures RouteClaims(results[i].1.route.waypoints) <= SuccessClaims(results[..j])
  {
    var prefix := results[..j];
    assert prefix[..j - 1] == results[..j - 1];
    if i < j - 1 {
      SuccessClaimsGrow(results, i, j - 1);
    } else {
      assert prefix[j - 1] == results[i];
    }
  }
}
