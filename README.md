# mdeck core, modelled and proved in Dafny

mdeck is a Markdown presentation tool. This project models its core: how a
Markdown document is split into slides, how a slide's layout and its number of
reveal steps are chosen, how diagram edges are routed on a lane grid, how
routes are written as text and read back, the `mdeck config set` validator, the
icon collector of `mdeck generate-icons`, the quote-slide text rewriting, the
theme tables, the slide and overview navigation of the viewer, and the small
stand-alone `presemd` viewer.

Each source file becomes one Dafny module:

| module | source |
|---|---|
| `RoutingTypes` (routing_types.dfy) | crates/mdeck/src/render/diagram/routing/types.rs |
| `RoutingGraph` (routing_graph.dfy) | crates/mdeck/src/render/diagram/routing/graph.rs |
| `RoutingLanes` (routing_lanes.dfy) | crates/mdeck/src/render/diagram/routing/lanes.rs |
| `RoutingSearch` (routing_search.dfy) | crates/mdeck/src/render/diagram/routing/search.rs |
| `RoutingSerialize` (routing_serialize.dfy) | crates/mdeck/src/render/diagram/routing/serialize.rs |
| `Routing` (routing.dfy) | crates/mdeck/src/render/diagram/routing/mod.rs |
| `Splitter` (splitter.dfy) | crates/mdeck/src/parser/splitter.rs |
| `Parser` (parser.dfy) | crates/mdeck/src/parser/mod.rs |
| `Icons` (icons.dfy) | crates/mdeck/src/commands/generate_icons.rs |
| `Configuration` (config.dfy) | crates/mdeck/src/config.rs |
| `Quote` (quote.dfy) | crates/mdeck/src/render/layouts/quote.rs |
| `Theme` (theme.dfy) | crates/mdeck/src/theme.rs |
| `App` (app.dfy) | crates/mdeck/src/app.rs |
| `Presemd` (presemd.dfy) | crates/presemd/src/main.rs |
| `Wrappers`, `Strings` | `Option`/`Result`, and the string operations of Rust's `str` the core uses |

Modelling choices:

- Routing works on doubled coordinates. Every length and cost is a multiple of
  0.5, so lengths, `g` and `h` are integers counting half units (`length2`,
  `g2`, `h2`).
- The binary heap of the A* search is a set of states. `PopBest` takes a state
  that no other state precedes in the heap's order.
- The maps and sets of the search and of lane occupancy are Dafny maps and sets.
  No proof depends on iteration order.
- `find_best_route` runs its four searches in parallel. Here they run one after
  another, in `Direction::ALL` order, followed by the same fold.
- Stateful objects are classes whose methods state their whole new state:
  `LaneOccupancy`, `Config`, and both `PresentationApp`s.
- Loops in the source are `while`/`for` loops here, proved against a
  specification function: the splitter phases, the A* loop, reconstruction,
  tokenising, counting, the icon scan and `compute_complexity`.
- Time never appears. A transition or overview animation that has run its
  course is an explicit call, `FinishTransition` or `AdvanceTransition(timeUp)`.

## Model

| member | source | states |
|---|---|---|
| RoutingTypes.CmpInt | crates/mdeck/src/render/diagram/routing/types.rs:86-88 | the integer comparison underlying the coordinate order: Less, Equal or Greater exactly as a < b, a == b or a > b |
| RoutingTypes.FromInt | crates/mdeck/src/render/diagram/routing/types.rs:25-30 | a grid position is always a cell centre, and halving its doubled components gives back the column and row |
| RoutingTypes.Step | crates/mdeck/src/render/diagram/routing/types.rs:43-62 | one step moves exactly one doubled unit away (Manhattan distance 1) |
| RoutingTypes.ExactlyOneKind | crates/mdeck/src/render/diagram/routing/types.rs:70-82 | every coordinate is exactly one of cell centre, street intersection and junction |
| RoutingTypes.StepAlternatesKind | crates/mdeck/src/render/diagram/routing/types.rs:43-82 | every neighbour of a cell centre or of a street intersection is a junction, and a junction's neighbour is never a junction |
| RoutingTypes.StepOpposite | crates/mdeck/src/render/diagram/routing/types.rs:43-62 | stepping back in the opposite direction returns to the start, and a step always moves |
| RoutingTypes.StepInjective | crates/mdeck/src/render/diagram/routing/types.rs:43-62 | two directions step to the same coordinate exactly when they are equal |
| RoutingTypes.ManhattanMetric | crates/mdeck/src/render/diagram/routing/types.rs:65-67 | `manhattan_to` is a metric (zero only on equal points, symmetric, triangle inequality), and one step changes it by exactly one |
| RoutingTypes.CoordOrderTotal | crates/mdeck/src/render/diagram/routing/types.rs:85-89 | the row-major coordinate order is a total order: antisymmetric, transitive, total, Equal only on equal coordinates |
| RoutingTypes.DirectionRank | crates/mdeck/src/render/diagram/routing/types.rs:130-135 | each direction has a rank below 4 that is its position in `Direction::ALL` |
| RoutingTypes.AllDirectionsComplete | crates/mdeck/src/render/diagram/routing/types.rs:130-135 | `Direction::ALL` holds every direction |
| RoutingTypes.Opposite | crates/mdeck/src/render/diagram/routing/types.rs:153-160 | the opposite direction differs from the direction, lies on the same axis and is not a turn |
| RoutingTypes.DirectionFacts | crates/mdeck/src/render/diagram/routing/types.rs:138-160 | `opposite` is an involution; each direction is horizontal or vertical but not both; `is_turn` is symmetric and holds exactly when the second direction is neither the first nor its opposite |
| RoutingTypes.NewSegment | crates/mdeck/src/render/diagram/routing/types.rs:173-179 | a segment holds its two end points with the smaller one first |
| RoutingTypes.NewSegmentSymmetric | crates/mdeck/src/render/diagram/routing/types.rs:173-179 | the segment between a and b is the segment between b and a |
| RoutingTypes.NewSegmentCanonical | crates/mdeck/src/render/diagram/routing/types.rs:173-179 | building a segment from an already ordered pair gives the same segment back |
| RoutingTypes.SegmentOfStep | crates/mdeck/src/render/diagram/routing/types.rs:173-184 | a one-step segment runs east or south from its first end, and it is horizontal exactly when the step is |
| RoutingTypes.ComplexityOrderTotal | crates/mdeck/src/render/diagram/routing/types.rs:223-234 | the route-complexity order is antisymmetric and transitive, and Equal only on equal complexities |
| RoutingTypes.ComplexityOrderByTotal | crates/mdeck/src/render/diagram/routing/types.rs:215-234 | a smaller `total()` (length + turns + lane changes) always compares Less |
| RoutingGraph.MinOf | crates/mdeck/src/render/diagram/routing/graph.rs:32-35 | the minimum column or row is one of the inputs and no input is smaller |
| RoutingGraph.MaxOf | crates/mdeck/src/render/diagram/routing/graph.rs:32-35 | the maximum column or row is one of the inputs and no input is larger |
| RoutingGraph.NeighborsInEntry | crates/mdeck/src/render/diagram/routing/graph.rs:86-93 | every neighbour entry of a point is the step in its direction, with the segment between the two, and lies in the graph's box |
| RoutingGraph.NeighborsInComplete | crates/mdeck/src/render/diagram/routing/graph.rs:86-93 | every direction whose step stays in the box appears among the neighbours |
| RoutingGraph.NeighborsInOrdered | crates/mdeck/src/render/diagram/routing/graph.rs:86-93 | neighbour entries appear in the order of `Direction::ALL` |
| RoutingGraph.BoxPoints | crates/mdeck/src/render/diagram/routing/graph.rs:54-77 | the node loop lists exactly the points of the box one unit beyond the outermost cells |
| RoutingGraph.PointNeighbors | crates/mdeck/src/render/diagram/routing/graph.rs:86-107 | one point's adjacency entry is its in-box neighbours in direction order, and the capacity map stays correct and only grows |
| RoutingGraph.OccupiedCells | crates/mdeck/src/render/diagram/routing/graph.rs:37-40 | a coordinate is occupied exactly when it is the cell centre of an input position |
| RoutingGraph.Build | crates/mdeck/src/render/diagram/routing/graph.rs:23-114 | `build` produces the graph its specification describes: the box, the adjacency, the capacities and the occupied cells |
| RoutingGraph.BoxAdjacency | crates/mdeck/src/render/diagram/routing/graph.rs:54-107 | the node and adjacency loops give exactly the box points as nodes, each with its in-box neighbours, and exactly the box segments, each with the capacity of its axis |
| RoutingGraph.AllSegmentsHaveCapacity | crates/mdeck/src/render/diagram/routing/graph.rs:86-107 | every segment between two box points has a recorded capacity once adjacency is built |
| RoutingGraph.BuiltGraphValid | crates/mdeck/src/render/diagram/routing/graph.rs:23-114 | a built graph is consistent: adjacency keys are its nodes and every segment it lists has a capacity |
| RoutingGraph.EmptyGraph | crates/mdeck/src/render/diagram/routing/graph.rs:24-30 | with no positions, no coordinate is in the graph or occupied, every neighbour list is empty and every capacity is 0 |
| RoutingGraph.BuiltNeighbors | crates/mdeck/src/render/diagram/routing/graph.rs:86-93 | a direction appears among a node's neighbours exactly when its step is in the graph, and in North, East, South, West order |
| RoutingGraph.BuiltNeighborsSymmetric | crates/mdeck/src/render/diagram/routing/graph.rs:86-107 | c reaches n going d exactly when n reaches c going opposite(d), over the same segment |
| RoutingGraph.BuiltCapacity | crates/mdeck/src/render/diagram/routing/graph.rs:97-103 | a graph segment has the horizontal or vertical lane capacity by its axis, and a segment leaving the graph has capacity 0 |
| RoutingGraph.OccupiedInsideGraph | crates/mdeck/src/render/diagram/routing/graph.rs:37-40 | an occupied coordinate is a cell centre of the graph |
| RoutingLanes.SpiralOrder | crates/mdeck/src/render/diagram/routing/lanes.rs:79-94 | the lanes for a capacity number max(capacity, 0), and lane i is the i-th of 0, 1, -1, 2, -2, … |
| RoutingLanes.SpiralIndexInverse | crates/mdeck/src/render/diagram/routing/lanes.rs:79-94 | the position of a lane in the spiral and the lane at a position are inverse to each other |
| RoutingLanes.SpiralOrderFacts | crates/mdeck/src/render/diagram/routing/lanes.rs:79-94 | a lane is offered exactly when its spiral position is below the capacity; the first lane is 0; lanes are distinct, never farther from the centre than the lanes after them, positive before negative |
| RoutingLanes.SpiralLanes | crates/mdeck/src/render/diagram/routing/lanes.rs:79-94 | the while loop of `spiral_lanes` produces the spiral order |
| RoutingLanes.Unclaimed | crates/mdeck/src/render/diagram/routing/lanes.rs:49-54 | the filtered lanes are exactly the offered lanes that are not taken |
| RoutingLanes.UnclaimedSorted | crates/mdeck/src/render/diagram/routing/lanes.rs:49-54 | filtering keeps the spiral order |
| RoutingLanes.FirstUnclaimed | crates/mdeck/src/render/diagram/routing/lanes.rs:42-46 | the first free lane is free and every lane before it is taken; None means every lane is taken |
| RoutingLanes.FirstUnclaimedIsHead | crates/mdeck/src/render/diagram/routing/lanes.rs:42-54 | the first free lane is the head of the free-lane list, or None when that list is empty |
| RoutingLanes.LaneOccupancy.constructor | crates/mdeck/src/render/diagram/routing/lanes.rs:12-14 | a new occupancy has no claims |
| RoutingLanes.LaneOccupancy.Taken | crates/mdeck/src/render/diagram/routing/lanes.rs:17-21 | the lanes taken on a segment are exactly those claimed on it |
| RoutingLanes.LaneOccupancy.IsAvailable | crates/mdeck/src/render/diagram/routing/lanes.rs:17-21 | a lane is available on a segment exactly when that pair has not been claimed |
| RoutingLanes.LaneOccupancy.Claim | crates/mdeck/src/render/diagram/routing/lanes.rs:24-26 | claiming adds exactly that (segment, lane) pair, so claiming twice equals claiming once |
| RoutingLanes.LaneOccupancy.ClaimRoute | crates/mdeck/src/render/diagram/routing/lanes.rs:32-37 | claiming a route adds exactly, for each consecutive waypoint pair, the first waypoint's lane on the segment between them |
| RoutingLanes.LaneOccupancy.FirstAvailable | crates/mdeck/src/render/diagram/routing/lanes.rs:42-46 | the result is an offered available lane and every lane earlier in the spiral is claimed; None means no offered lane is available |
| RoutingLanes.LaneOccupancy.AvailableLanes | crates/mdeck/src/render/diagram/routing/lanes.rs:49-54 | the offered lanes that are still available, in spiral order |
| RoutingLanes.LaneOccupancy.FirstAvailableIsFirstOfAvailable | crates/mdeck/src/render/diagram/routing/lanes.rs:42-54 | `first_available` is the head of `available_lanes` |
| RoutingLanes.LaneOccupancy.ClaimedLanes | crates/mdeck/src/render/diagram/routing/lanes.rs:57-59 | the claimed set of a segment is None when nothing is claimed on it, else the non-empty set of its claimed lanes |
| RoutingLanes.LaneOccupancy.ClaimedCount | crates/mdeck/src/render/diagram/routing/lanes.rs:62-64 | the count is the number of distinct lanes claimed on the segment |
| RoutingLanes.SegmentDirectionOfStep | crates/mdeck/src/render/diagram/routing/lanes.rs:137-155 | a direction is found exactly for a non-zero purely horizontal or purely vertical displacement; a step gives its own direction and the reverse displacement the opposite one |
| RoutingLanes.ComputeComplexity | crates/mdeck/src/render/diagram/routing/lanes.rs:97-134 | the counting loop yields the complexity its specification gives |
| RoutingLanes.BuildRouteFromWaypoints | crates/mdeck/src/render/diagram/routing/lanes.rs:68-74 | the route keeps the waypoints and carries their computed complexity |
| RoutingLanes.ComplexityLength | crates/mdeck/src/render/diagram/routing/lanes.rs:97-110 | the length is the sum of the distances between consecutive waypoints |
| RoutingLanes.PathLengthSnoc | crates/mdeck/src/render/diagram/routing/lanes.rs:101-110 | appending a waypoint adds its distance from the previous one to the length |
| RoutingLanes.CornersBounded | crates/mdeck/src/render/diagram/routing/lanes.rs:112-125 | turns plus lane changes never exceed the number of interior waypoints, and are 0 with fewer than three waypoints |
| RoutingLanes.SingleLaneNoChanges | crates/mdeck/src/render/diagram/routing/lanes.rs:112-125 | a route on one lane throughout has no lane changes |
| RoutingLanes.ComplexityIgnoresLastLane | crates/mdeck/src/render/diagram/routing/lanes.rs:112-125 | the last waypoint's lane does not affect the complexity |
| RoutingLanes.ExampleComplexity | crates/mdeck/src/render/diagram/routing/lanes.rs:112-125 | a right, down, right path on lanes 0, 1, 0 changes lane at both of its corners, yet counts 2 turns and no lane change, because a lane change at a turn is not counted |
| RoutingSearch.HeuristicConsistent | crates/mdeck/src/render/diagram/routing/search.rs:103-105 | the heuristic changes by at most one half unit per step, so it is consistent with the step cost |
| RoutingSearch.PopOrder | crates/mdeck/src/render/diagram/routing/search.rs:72-94 | an entry is popped first exactly for lower f, then lower g, then smaller coordinate, then smaller absolute lane, then the smaller (more negative) lane, then the smaller direction |
| RoutingSearch.PqCmpOrder | crates/mdeck/src/render/diagram/routing/search.rs:72-94 | the heap order is antisymmetric and transitive |
| RoutingSearch.PopBest | crates/mdeck/src/render/diagram/routing/search.rs:168 | the popped entry is in the open set and no other entry would be popped before it |
| RoutingSearch.SuccessorCost | crates/mdeck/src/render/diagram/routing/search.rs:234-270 | a successor costs one half unit more per step, one more per turn and one more per lane change that is not a turn; its f never drops and its counters grow the same way |
| RoutingSearch.SeedKeepsInv | crates/mdeck/src/render/diagram/routing/search.rs:140-165 | adding one seed state at the first junction keeps the search invariant |
| RoutingSearch.SeedOpenOk | crates/mdeck/src/render/diagram/routing/search.rs:140-165 | a seed state is a correct open entry with best g recorded |
| RoutingSearch.SeedInUniverse | crates/mdeck/src/render/diagram/routing/search.rs:140-165 | a seed state's key is one of the finitely many keys the search can visit |
| RoutingSearch.SeedParentsOk | crates/mdeck/src/render/diagram/routing/search.rs:140-165 | a seed state has no parent and its recorded state is consistent |
| RoutingSearch.PopRaisesBound | crates/mdeck/src/render/diagram/routing/search.rs:168-170 | f of successive pops never decreases, and every open entry has f at least that of the popped one |
| RoutingSearch.PopSkippedKeepsInv | crates/mdeck/src/render/diagram/routing/search.rs:172-177 | skipping a stale entry whose g was improved keeps the invariant |
| RoutingSearch.PopExpandedKeepsInv | crates/mdeck/src/render/diagram/routing/search.rs:168-192 | popping an entry with the best g for its key and closing that key keeps the invariant |
| RoutingSearch.ParentsGrowClosed | crates/mdeck/src/render/diagram/routing/search.rs:168-192 | closing one more key keeps the parent links correct |
| RoutingSearch.SuccessorNotClosed | crates/mdeck/src/render/diagram/routing/search.rs:249-256 | a successor that improves its key's best g is never a key already expanded (the heuristic is consistent) |
| RoutingSearch.PushOpenOk | crates/mdeck/src/render/diagram/routing/search.rs:249-275 | pushing an improved successor keeps the open set correct |
| RoutingSearch.PushParentsOk | crates/mdeck/src/render/diagram/routing/search.rs:249-262 | recording the expanding state as the successor's parent keeps the parent links correct |
| RoutingSearch.PushRecorded | crates/mdeck/src/render/diagram/routing/search.rs:254-256 | recording the successor's g keeps best g and recorded states in step |
| RoutingSearch.PushClosedOk | crates/mdeck/src/render/diagram/routing/search.rs:254-256 | recording a state for a key not yet expanded keeps the expanded keys correct |
| RoutingSearch.ParentOkFrame | crates/mdeck/src/render/diagram/routing/search.rs:254-256 | recording one key leaves every other key's parent link as it was |
| RoutingSearch.MoveInUniverse | crates/mdeck/src/render/diagram/routing/search.rs:193-234 | every successor key is one of the finitely many keys the search can visit |
| RoutingSearch.PushKeepsInv | crates/mdeck/src/render/diagram/routing/search.rs:234-275 | pushing one improved successor keeps the whole search invariant |
| RoutingSearch.InvAcyclic | crates/mdeck/src/render/diagram/routing/search.rs:249-256 | best g strictly decreases along parent links, so the parent map has no cycle |
| RoutingSearch.Chain | crates/mdeck/src/render/diagram/routing/search.rs:297-303 | following parents from a key ends at a seed state, with the key last and each key's parent before it |
| RoutingSearch.PathWaypoints | crates/mdeck/src/render/diagram/routing/search.rs:305-336 | reconstruction gives one waypoint more than there are path states |
| RoutingSearch.PathWaypointsAt | crates/mdeck/src/render/diagram/routing/search.rs:305-336 | the source comes first with the first state's lane; then each state's coordinate with the next state's lane, and lane 0 last |
| RoutingSearch.WalkStep | crates/mdeck/src/render/diagram/routing/search.rs:297-302 | one step of the parent walk keeps the walked keys a reversed suffix of the chain |
| RoutingSearch.WalkEnd | crates/mdeck/src/render/diagram/routing/search.rs:297-303 | once the walk reaches a key without a parent, its reversal is the chain |
| RoutingSearch.Reconstruct | crates/mdeck/src/render/diagram/routing/search.rs:288-348 | `reconstruct_route` returns the waypoints of the parent chain and reports the final state's counters as its complexity |
| RoutingSearch.ChainOkOfInv | crates/mdeck/src/render/diagram/routing/search.rs:168-284 | under the search invariant, every parent chain is a connected walk of recorded states |
| RoutingSearch.ChainSteps | crates/mdeck/src/render/diagram/routing/search.rs:193-234 | each state of a chain is one step from the one before it in its recorded direction |
| RoutingSearch.NoStepBack | crates/mdeck/src/render/diagram/routing/search.rs:194-197 | a step in any direction but the opposite of the previous one never returns to the previous point |
| RoutingSearch.ChainRouteOk | crates/mdeck/src/render/diagram/routing/search.rs:180-197 | a chain that ends at the target gives a route meeting every route property |
| RoutingSearch.ChainInGraph | crates/mdeck/src/render/diagram/routing/search.rs:193 | every waypoint after the source is a graph node |
| RoutingSearch.ChainMoves | crates/mdeck/src/render/diagram/routing/search.rs:226-234 | consecutive waypoints are one doubled step apart, and each segment's lane was available in the occupancy as given |
| RoutingSearch.ChainNoReversal | crates/mdeck/src/render/diagram/routing/search.rs:194-197 | no waypoint equals the one two before it: the route never reverses |
| RoutingSearch.NoReversalAt | crates/mdeck/src/render/diagram/routing/search.rs:194-197 | the no-reversal property at one position |
| RoutingSearch.ChainAvoidsObstacles | crates/mdeck/src/render/diagram/routing/search.rs:201-220 | no interior waypoint is an occupied cell centre other than source or target, nor the target itself |
| RoutingSearch.PathWaypointsPrefix | crates/mdeck/src/render/diagram/routing/search.rs:305-336 | the waypoints of a chain extend those of its prefix by one |
| RoutingSearch.ChainStateKey | crates/mdeck/src/render/diagram/routing/search.rs:168-170 | each chain key is recorded with a state of that key |
| RoutingSearch.ComplexitySnoc | crates/mdeck/src/render/diagram/routing/lanes.rs:112-125 | one more waypoint adds the step and counts a turn or a lane change by the same rule as the search |
| RoutingSearch.ChainCounters | crates/mdeck/src/render/diagram/routing/search.rs:338-342 | the final state's running counters equal the complexity computed from the route's waypoints |
| RoutingSearch.CountedCounters | crates/mdeck/src/render/diagram/routing/search.rs:260-270 | counters that agree with the waypoints at every chain position agree at the end |
| RoutingSearch.SeedCounters | crates/mdeck/src/render/diagram/routing/search.rs:146-155 | a seed state's counters (length 0.5, no turns or lane changes) are those of its two-waypoint path |
| RoutingSearch.CountersStep | crates/mdeck/src/render/diagram/routing/search.rs:260-270 | a successor's counters are those of the path extended by its step |
| RoutingSearch.ChainPrefix | crates/mdeck/src/render/diagram/routing/search.rs:297-303 | a prefix of a chain is a chain |
| RoutingSearch.ClosingShrinks | crates/mdeck/src/render/diagram/routing/search.rs:168-192 | expanding a new key leaves fewer keys to expand, so the search terminates |
| RoutingSearch.PushMoves | crates/mdeck/src/render/diagram/routing/search.rs:234-275 | the inner lane loop pushes exactly the improving successors and keeps the invariant |
| RoutingSearch.Expand | crates/mdeck/src/render/diagram/routing/search.rs:192-275 | expanding a state tries every neighbour as the source does and keeps the invariant |
| RoutingSearch.SeedOpen | crates/mdeck/src/render/diagram/routing/search.rs:140-165 | the seed loop establishes the search invariant with one state per free first lane |
| RoutingSearch.ReachTarget | crates/mdeck/src/render/diagram/routing/search.rs:180-189 | a popped target state gives a route meeting every route property, with the complexity of its waypoints |
| RoutingSearch.AStarSingleDirection | crates/mdeck/src/render/diagram/routing/search.rs:114-285 | None when the first junction is outside the graph or the first segment has no free lane; any route found starts at the source through the first junction, ends at the target with lane 0, moves one step at a time on free lanes, never reverses, avoids occupied cells, and carries the complexity of its waypoints |
| RoutingSearch.TiebreakInjective | crates/mdeck/src/render/diagram/routing/search.rs:407-413 | two routes with equal tie-break keys (the (column, row, lane) triples of their waypoints) have the same waypoints |
| RoutingSearch.CmpLexOrder | crates/mdeck/src/render/diagram/routing/search.rs:390 | lexicographic comparison of tie-break keys is Equal only on equal keys, antisymmetric and transitive |
| RoutingSearch.BetterOrder | crates/mdeck/src/render/diagram/routing/search.rs:386-397 | "lower complexity, then lower tie-break key" is a strict total order on routes |
| RoutingSearch.Pick | crates/mdeck/src/render/diagram/routing/search.rs:383-399 | one fold step keeps either the new route or the current best |
| RoutingSearch.SelectBestIsMinimum | crates/mdeck/src/render/diagram/routing/search.rs:381-402 | the fold is None exactly when every search failed; otherwise it is one of the results and no result is better |
| RoutingSearch.SelectBestUnique | crates/mdeck/src/render/diagram/routing/search.rs:381-402 | the fold returns the unique best result, whatever order the results come in |
| RoutingSearch.ReduceResults | crates/mdeck/src/render/diagram/routing/search.rs:381-402 | the fold loop computes the best result |
| RoutingSearch.SearchAllDirections | crates/mdeck/src/render/diagram/routing/search.rs:375-378 | one result per direction of `Direction::ALL`, each found route meeting the route properties for its direction |
| RoutingSearch.FindBestRoute | crates/mdeck/src/render/diagram/routing/search.rs:353-403 | source == target gives the single waypoint (source, lane 0) with zero complexity; otherwise the best of the four direction searches, each of them a valid route |
| RoutingSerialize.HalfOf | crates/mdeck/src/render/diagram/routing/serialize.rs:21-33 | the whole part printed for a doubled component is its halving, rounded down |
| RoutingSerialize.Texts | crates/mdeck/src/render/diagram/routing/serialize.rs:9-18 | one text per part |
| RoutingSerialize.RouteToString | crates/mdeck/src/render/diagram/routing/serialize.rs:9-18 | the loop produces the route text: coordinate tokens alternating with `L<lane>` tokens, joined by `-`, without the last lane |
| RoutingSerialize.CoordTokenLength | crates/mdeck/src/render/diagram/routing/serialize.rs:96-108 | a coordinate token is non-empty and fits in the input |
| RoutingSerialize.CoordTokenLengthAt | crates/mdeck/src/render/diagram/routing/serialize.rs:96-108 | a coordinate token ends at the first `)` |
| RoutingSerialize.CoordTokenLengthNone | crates/mdeck/src/render/diagram/routing/serialize.rs:96-108 | without a `)` the coordinate token runs to the end of the input |
| RoutingSerialize.DigitRun | crates/mdeck/src/render/diagram/routing/serialize.rs:109-127 | the digit run fits in the input |
| RoutingSerialize.DigitRunFacts | crates/mdeck/src/render/diagram/routing/serialize.rs:109-127 | the digit run is all digits and is followed by the end or a non-digit |
| RoutingSerialize.DigitRunAt | crates/mdeck/src/render/diagram/routing/serialize.rs:109-127 | a maximal run of digits is exactly the digit run |
| RoutingSerialize.LaneTokenLength | crates/mdeck/src/render/diagram/routing/serialize.rs:109-127 | a lane token is non-empty and fits in the input |
| RoutingSerialize.TokenLength | crates/mdeck/src/render/diagram/routing/serialize.rs:96-127 | a token starting with `(` or `L` is non-empty and fits in the input |
| RoutingSerialize.ScanCoordToken | crates/mdeck/src/render/diagram/routing/serialize.rs:96-108 | the character loop reads exactly one coordinate token, up to and including `)` |
| RoutingSerialize.ScanLaneToken | crates/mdeck/src/render/diagram/routing/serialize.rs:109-127 | the character loop reads `L`, a `-` sign kept from right after it, and the digits that follow |
| RoutingSerialize.TokensFront | crates/mdeck/src/render/diagram/routing/serialize.rs:87-139 | the token list of a text starting with `(` or `L` is that token followed by the tokens of the rest |
| RoutingSerialize.TokensOfDash | crates/mdeck/src/render/diagram/routing/serialize.rs:92-95 | a `-` between tokens is skipped |
| RoutingSerialize.TokensOfOther | crates/mdeck/src/render/diagram/routing/serialize.rs:128-135 | a token starting with anything but `-`, `(` or `L` makes tokenising fail |
| RoutingSerialize.TokensStep | crates/mdeck/src/render/diagram/routing/serialize.rs:87-139 | reading one token keeps the loop's tokens-so-far plus the rest equal to the tokens of the whole text |
| RoutingSerialize.SkipDashes | crates/mdeck/src/render/diagram/routing/serialize.rs:92-95 | skipping separators stops at the end or at a non-`-` and does not change the tokens of the rest |
| RoutingSerialize.Tokenize | crates/mdeck/src/render/diagram/routing/serialize.rs:87-139 | the peekable character loop computes the token list, or None |
| RoutingSerialize.Pow10 | crates/mdeck/src/render/diagram/routing/serialize.rs:142-155 | powers of ten are positive |
| RoutingSerialize.RoundedDoubleFraction | crates/mdeck/src/render/diagram/routing/serialize.rs:142-155 | a decimal fraction, doubled and rounded, is 0, 1 or 2 |
| RoutingSerialize.ReadWaypointsStep | crates/mdeck/src/render/diagram/routing/serialize.rs:55-72 | reading stops with None at a token that is not a coordinate where a coordinate is due, or not a lane where a lane is due |
| RoutingSerialize.ParseWaypoints | crates/mdeck/src/render/diagram/routing/serialize.rs:55-72 | the waypoint loop computes the waypoints of the tokens, or None |
| RoutingSerialize.StringToRoute | crates/mdeck/src/render/diagram/routing/serialize.rs:40-84 | `string_to_route` returns the route its specification gives: None for blank input, an even token count, a wrong-kind token or fewer than two waypoints; otherwise last lane 0 and recomputed complexity |
| RoutingSerialize.WithLastLaneZero | crates/mdeck/src/render/diagram/routing/serialize.rs:65-69 | after parsing, the last waypoint has lane 0 and every other waypoint is unchanged |
| RoutingSerialize.ComponentTextShape | crates/mdeck/src/render/diagram/routing/serialize.rs:21-33 | a printed component is non-empty, has no surrounding whitespace and holds no `,` or `)` |
| RoutingSerialize.FormatComponentShape | crates/mdeck/src/render/diagram/routing/serialize.rs:21-33 | the same, for the component of any doubled value |
| RoutingSerialize.ParseDigitsOf | crates/mdeck/src/render/diagram/routing/serialize.rs:142-155 | digits with an optional fraction read as twice the whole part plus the rounded doubled fraction |
| RoutingSerialize.ParseUnsignedWhole | crates/mdeck/src/render/diagram/routing/serialize.rs:142-155 | an integer component reads as twice its value |
| RoutingSerialize.ParseUnsignedPoint | crates/mdeck/src/render/diagram/routing/serialize.rs:142-155 | a decimal component reads as twice the whole part plus the rounded doubled fraction |
| RoutingSerialize.RoundedHalf | crates/mdeck/src/render/diagram/routing/serialize.rs:142-155 | the fraction `.5` reads as one doubled unit |
| RoutingSerialize.DigitsParse | crates/mdeck/src/render/diagram/routing/serialize.rs:142-155 | `k` reads as 2k and `k.5` as 2k + 1 |
| RoutingSerialize.UnsignedTextParse | crates/mdeck/src/render/diagram/routing/serialize.rs:21-33 | the printed form of a non-negative component reads back as its doubled value |
| RoutingSerialize.ParseDoubledUnsigned | crates/mdeck/src/render/diagram/routing/serialize.rs:142-155 | an unsigned component reads as its value, saturated to i32 |
| RoutingSerialize.ParseDoubledMinus | crates/mdeck/src/render/diagram/routing/serialize.rs:142-155 | a leading `-` negates the value read |
| RoutingSerialize.ParseDoubledNegated | crates/mdeck/src/render/diagram/routing/serialize.rs:142-155 | the same, for a text built as `-` followed by the body |
| RoutingSerialize.ComponentTextParse | crates/mdeck/src/render/diagram/routing/serialize.rs:21-33 | every printed component, negative or not, whole or half, reads back as its doubled value |
| RoutingSerialize.ComponentRoundTrip | crates/mdeck/src/render/diagram/routing/serialize.rs:21-33 | reading a formatted component gives back the doubled value, for every value in i32 |
| RoutingSerialize.Bracketed | crates/mdeck/src/render/diagram/routing/serialize.rs:142-146 | a bracketed pair starts with `(`, ends with `)`, and holds the two texts around a comma |
| RoutingSerialize.ParseCoordOf | crates/mdeck/src/render/diagram/routing/serialize.rs:142-155 | `(a,b)` with well-formed components reads as the coordinate of their values |
| RoutingSerialize.CoordRoundTrip | crates/mdeck/src/render/diagram/routing/serialize.rs:21-33 | `parse_coord(format_coord(c)) == c` for every coordinate in i32 range |
| RoutingSerialize.ParseI32Plain | crates/mdeck/src/render/diagram/routing/serialize.rs:158-164 | digits in i32 range read as their value |
| RoutingSerialize.ParseI32Minus | crates/mdeck/src/render/diagram/routing/serialize.rs:158-164 | `-` then digits in i32 range read as the negated value |
| RoutingSerialize.ParseI32OfIntToString | crates/mdeck/src/render/diagram/routing/serialize.rs:158-164 | every i32 printed in decimal reads back unchanged |
| RoutingSerialize.LaneRoundTrip | crates/mdeck/src/render/diagram/routing/serialize.rs:158-164 | `parse_lane` reads `L` followed by the printed lane back as that lane |
| RoutingSerialize.TokenLengthOfText | crates/mdeck/src/render/diagram/routing/serialize.rs:87-139 | a printed token followed by the end or `-` is read as exactly that token |
| RoutingSerialize.TokensCons | crates/mdeck/src/render/diagram/routing/serialize.rs:87-139 | a printed token, `-`, then a tokenisable tail tokenises as that token before the tail's tokens |
| RoutingSerialize.TokensSingle | crates/mdeck/src/render/diagram/routing/serialize.rs:87-139 | a printed token alone tokenises as itself |
| RoutingSerialize.TokensOfJoin | crates/mdeck/src/render/diagram/routing/serialize.rs:9-18 | tokenising printed tokens joined by `-` gives back the tokens |
| RoutingSerialize.RoutePartsIndex | crates/mdeck/src/render/diagram/routing/serialize.rs:9-18 | the parts of a route text are its coordinates at even and its lanes at odd positions, 2n - 1 parts for n waypoints |
| RoutingSerialize.BracketedToken | crates/mdeck/src/render/diagram/routing/serialize.rs:21-33 | a bracketed pair without `)` inside is a single coordinate token |
| RoutingSerialize.LaneToken | crates/mdeck/src/render/diagram/routing/serialize.rs:9-18 | `L`, an optional `-` and digits form a single lane token |
| RoutingSerialize.PartIsToken | crates/mdeck/src/render/diagram/routing/serialize.rs:9-33 | every printed part is a single token |
| RoutingSerialize.ReadWaypointsOfReads | crates/mdeck/src/render/diagram/routing/serialize.rs:55-72 | tokens that read one by one as the waypoints' coordinates and lanes read as those waypoints |
| RoutingSerialize.RouteCoordsRead | crates/mdeck/src/render/diagram/routing/serialize.rs:9-18 | each printed coordinate reads back as its waypoint's coordinate |
| RoutingSerialize.RouteLanesRead | crates/mdeck/src/render/diagram/routing/serialize.rs:9-18 | each printed lane reads back as its waypoint's lane |
| RoutingSerialize.RoutePartsRead | crates/mdeck/src/render/diagram/routing/serialize.rs:9-18 | all printed parts read back as the waypoints, with the last lane 0 |
| RoutingSerialize.RoutePartsAreTokens | crates/mdeck/src/render/diagram/routing/serialize.rs:9-18 | every part of a route text is a single token |
| RoutingSerialize.RouteOfTokens | crates/mdeck/src/render/diagram/routing/serialize.rs:40-84 | a trimmed text with an odd number of tokens reading as at least two waypoints gives that route, with recomputed complexity |
| RoutingSerialize.RoutePartsOdd | crates/mdeck/src/render/diagram/routing/serialize.rs:9-18 | a route text always has an odd number of parts |
| RoutingSerialize.RouteTextTokens | crates/mdeck/src/render/diagram/routing/serialize.rs:9-18 | a route text tokenises into its parts and has no surrounding whitespace |
| RoutingSerialize.RouteTextsRead | crates/mdeck/src/render/diagram/routing/serialize.rs:55-72 | the parts of a route text read as its waypoints with the last lane 0 |
| RoutingSerialize.RouteTextRoundTrip | crates/mdeck/src/render/diagram/routing/serialize.rs:9-84 | reading the text of any waypoints (at least two, in i32 range) gives them back with the last lane set to 0 and the computed complexity |
| RoutingSerialize.RouteRoundTrip | crates/mdeck/src/render/diagram/routing/serialize.rs:9-84 | `string_to_route(route_to_string(r)) == r` for a route of at least two waypoints, last lane 0, and its own complexity |
| Routing.NameLookup | crates/mdeck/src/render/diagram/routing/mod.rs:36-39 | a name is in the lookup exactly when some node has it |
| Routing.LastDefinitionWins | crates/mdeck/src/render/diagram/routing/mod.rs:36-39 | a name defined twice maps to the last definition's position |
| Routing.RouteOkLanesFree | crates/mdeck/src/render/diagram/routing/mod.rs:60-64 | a route found on the current occupancy uses only lanes not yet claimed |
| Routing.RouteAllEdges | crates/mdeck/src/render/diagram/routing/mod.rs:30-85 | one result per edge, in input order, paired with its edge; each result is the right failure message for an unknown source (checked first), unknown target or no route, or a success on lanes no earlier successful edge claimed |
| Routing.RouteEdge | crates/mdeck/src/render/diagram/routing/mod.rs:52-79 | one edge: its result as above, and the occupancy grows by exactly the route's claims on success and not at all on failure |
| Routing.RouteFound | crates/mdeck/src/render/diagram/routing/mod.rs:60-64 | a route from `find_best_route` is a correct successful result for its edge |
| Routing.ResultsSnoc | crates/mdeck/src/render/diagram/routing/mod.rs:81 | pushing one result keeps every earlier result and prefix |
| Routing.LanesExclusive | crates/mdeck/src/render/diagram/routing/mod.rs:46-64 | two successful routes of one call never use the same lane on the same segment |
| Routing.SuccessClaimsGrow | crates/mdeck/src/render/diagram/routing/mod.rs:60-64 | a successful route's lanes stay claimed for every later edge |
| Splitter.LineKindsDisjoint | crates/mdeck/src/parser/splitter.rs:198-208 | separator lines, directive lines and the break marker are told apart, and none of them is blank |
| Splitter.DirectiveShape | crates/mdeck/src/parser/splitter.rs:202-208 | `@`, a key of letters, digits, `-` and `_`, a `:` and any value make a directive |
| Splitter.MarkSeparators | crates/mdeck/src/parser/splitter.rs:18-52 | the first phase's loop replaces each `---` line with blank or missing neighbours by a break, swallowing the blank lines on both sides |
| Splitter.MarkLine | crates/mdeck/src/parser/splitter.rs:20-52 | one iteration of the first phase keeps its loop invariant |
| Splitter.PrevBlankAt | crates/mdeck/src/parser/splitter.rs:27-31 | the loop's test of the previous output line is the test of the previous input line |
| Splitter.BreakAt | crates/mdeck/src/parser/splitter.rs:35-40 | a break drops a blank last output line and appends the marker |
| Splitter.AfterBreakAt | crates/mdeck/src/parser/splitter.rs:41-45 | the blank line after a break is skipped |
| Splitter.BreakStep | crates/mdeck/src/parser/splitter.rs:35-46 | a break keeps the first phase's invariant |
| Splitter.PushStep | crates/mdeck/src/parser/splitter.rs:50-51 | pushing a line that is not a break keeps the first phase's invariant |
| Splitter.PushAt | crates/mdeck/src/parser/splitter.rs:50-51 | pushing a line that is not a break appends that line |
| Splitter.RunBefore | crates/mdeck/src/parser/splitter.rs:56-78 | a run of blank lines ending at a line is no longer than the lines up to it |
| Splitter.RunAfter | crates/mdeck/src/parser/splitter.rs:56-78 | a run of blank lines starting at a line fits in the rest |
| Splitter.CollapseBlankRuns | crates/mdeck/src/parser/splitter.rs:55-78 | the second phase's loop computes the collapsed lines |
| Splitter.CollapseLine | crates/mdeck/src/parser/splitter.rs:57-78 | one iteration of the second phase keeps its loop invariant |
| Splitter.CollapseDone | crates/mdeck/src/parser/splitter.rs:55-78 | at the end, a short final run of blank lines is kept |
| Splitter.EndRunStep | crates/mdeck/src/parser/splitter.rs:74-77 | a non-blank line resets the blank count and is kept |
| Splitter.ShortRunStep | crates/mdeck/src/parser/splitter.rs:65-66 | the first two blank lines of a run are kept for now |
| Splitter.ThirdBlankStep | crates/mdeck/src/parser/splitter.rs:67-72 | the third blank line removes the two kept ones and adds a break |
| Splitter.LongRunStep | crates/mdeck/src/parser/splitter.rs:73 | further blank lines of a run are dropped |
| Splitter.LateBlankDropped | crates/mdeck/src/parser/splitter.rs:73 | a blank line after the third of its run contributes nothing |
| Splitter.RunEnds | crates/mdeck/src/parser/splitter.rs:63-77 | when a run ends, its kept blank lines are part of the output |
| Splitter.RunEndsOne | crates/mdeck/src/parser/splitter.rs:63-77 | a run of one blank line is kept |
| Splitter.RunEndsTwo | crates/mdeck/src/parser/splitter.rs:63-77 | a run of two blank lines is kept |
| Splitter.ThirdBlank | crates/mdeck/src/parser/splitter.rs:67-72 | three blank lines in a row become one break |
| Splitter.TrailStart | crates/mdeck/src/parser/splitter.rs:172-180 | the backward walk stops after the last line that is neither blank nor a directive; every line from there on is blank or a directive |
| Splitter.TrailStartUnique | crates/mdeck/src/parser/splitter.rs:172-180 | that split point is the only one with those properties |
| Splitter.NonBlank | crates/mdeck/src/parser/splitter.rs:188-193 | the filtered lines are all non-blank |
| Splitter.StripTrailingDirectives | crates/mdeck/src/parser/splitter.rs:168-196 | the loop computes the content and the directive part its specification gives |
| Splitter.StrippedKeepsOnlyDirectives | crates/mdeck/src/parser/splitter.rs:182-196 | the text is returned whole with no directive part when its last line is neither blank nor a directive; otherwise the directive part holds only directive lines |
| Splitter.NonBlankOfTrail | crates/mdeck/src/parser/splitter.rs:188-193 | the non-blank lines of a run of blank and directive lines are directives |
| Splitter.LeadingRun | crates/mdeck/src/parser/splitter.rs:116-128 | the leading fence characters are counted exactly: all of them, and no more |
| Splitter.PushedUpToStep | crates/mdeck/src/parser/splitter.rs:111-158 | one more line adds exactly the slide that line pushes, if any |
| Splitter.SplitByHeadingInference | crates/mdeck/src/parser/splitter.rs:104-164 | the loop appends exactly the slides its specification gives for the chunk |
| Splitter.InferNext | crates/mdeck/src/parser/splitter.rs:111-158 | one iteration keeps the heading-inference invariant |
| Splitter.FinishChunk | crates/mdeck/src/parser/splitter.rs:160-163 | the last slide of a chunk is pushed when its trimmed text is non-empty |
| Splitter.InferLine | crates/mdeck/src/parser/splitter.rs:112-157 | one line updates the fence, the slide text and the content flag as the step function says |
| Splitter.StartNewSlide | crates/mdeck/src/parser/splitter.rs:136-146 | an inferred H1 pushes the content before it and carries its trailing directives to the new slide |
| Splitter.TrackFence | crates/mdeck/src/parser/splitter.rs:115-129 | the fence state is updated as the fence step function says |
| Splitter.SplitSlides | crates/mdeck/src/parser/splitter.rs:7-99 | `split` computes the slides its specification gives |
| Splitter.BreakIntoChunks | crates/mdeck/src/parser/splitter.rs:80-87 | the chunks are the trimmed pieces between breaks of the collapsed, marked lines |
| Splitter.SplitChunk | crates/mdeck/src/parser/splitter.rs:91-96 | each non-empty chunk adds its inferred slides |
| Splitter.MarkedWithoutSeparators | crates/mdeck/src/parser/splitter.rs:18-52 | lines with no `---` separator pass the first phase unchanged |
| Splitter.MarkedUpToPlain | crates/mdeck/src/parser/splitter.rs:18-52 | the same, line by line |
| Splitter.PlainEmit | crates/mdeck/src/parser/splitter.rs:50 | a plain line contributes itself |
| Splitter.CollapsedWithoutLongRuns | crates/mdeck/src/parser/splitter.rs:55-78 | lines with no three blank lines in a row pass the second phase unchanged |
| Splitter.CollapsedUpToPlain | crates/mdeck/src/parser/splitter.rs:55-78 | the same, line by line |
| Splitter.ShortRuns | crates/mdeck/src/parser/splitter.rs:63-66 | without three blanks in a row every run is shorter than three |
| Splitter.RunBeforeBlanks | crates/mdeck/src/parser/splitter.rs:63-64 | every line of the run counted before a line is blank |
| Splitter.RunAfterBlanks | crates/mdeck/src/parser/splitter.rs:63-64 | every line of the run counted after a line is blank |
| Splitter.AllTrimmedConcat | crates/mdeck/src/parser/splitter.rs:84-98 | joining lists of trimmed non-empty slides keeps them trimmed and non-empty |
| Splitter.AllTrimmedEach | crates/mdeck/src/parser/splitter.rs:84-98 | every slide of such a list is trimmed and non-empty |
| Splitter.StrippedContentTrimmed | crates/mdeck/src/parser/splitter.rs:187 | the content part of a trimmed text is trimmed |
| Splitter.ContentTrimmed | crates/mdeck/src/parser/splitter.rs:136-140 | the slide pushed at an inferred H1 is trimmed and non-empty |
| Splitter.FinishedTrimmed | crates/mdeck/src/parser/splitter.rs:160-163 | the last slide of a chunk is trimmed and non-empty |
| Splitter.PushedUpToTrimmed | crates/mdeck/src/parser/splitter.rs:111-158 | every slide pushed within a chunk is trimmed and non-empty |
| Splitter.PushedTrimmed | crates/mdeck/src/parser/splitter.rs:131-147 | a slide pushed by one line is trimmed and non-empty |
| Splitter.ChunkPartTrimmed | crates/mdeck/src/parser/splitter.rs:104-164 | every slide of a chunk is trimmed and non-empty |
| Splitter.FlattenTrimmed | crates/mdeck/src/parser/splitter.rs:90-96 | the slides of all chunks together are trimmed and non-empty |
| Splitter.SlidesAreTrimmed | crates/mdeck/src/parser/splitter.rs:84-98 | every slide `split` returns is non-empty and trimmed |
| Splitter.PushedOnlyAtHeadings | crates/mdeck/src/parser/splitter.rs:131-147 | a line pushes at most one slide, and only a `# ` line outside a fence when the slide has content |
| Splitter.FenceHidesHeadings | crates/mdeck/src/parser/splitter.rs:115-131 | a line inside a fence never starts a slide; it is appended to the current slide |
| Splitter.FenceOpens | crates/mdeck/src/parser/splitter.rs:125-128 | a line starting with three backticks or tildes opens a fence of that character and its leading run length |
| Splitter.HeadingStartsSlide | crates/mdeck/src/parser/splitter.rs:131-152 | an inferred H1 starts the new slide with the carried directives and then the heading line |
| Splitter.SubheadingNeverSplits | crates/mdeck/src/parser/splitter.rs:131 | a `##` line never starts a slide |
| Splitter.FenceClosesIff | crates/mdeck/src/parser/splitter.rs:115-124 | a fence closes exactly on a line of at least as many fence characters followed only by whitespace |
| Splitter.SeparatorBecomesBreak | crates/mdeck/src/parser/splitter.rs:25-47 | a `---` line with blank or missing neighbours becomes a break |
| Splitter.RunBeforeIn | crates/mdeck/src/parser/splitter.rs:63-64 | the blank count inside a run is the position within it |
| Splitter.RunAfterIn | crates/mdeck/src/parser/splitter.rs:63-64 | the blank lines counted ahead within a run are those left in it |
| Splitter.LongRunHead | crates/mdeck/src/parser/splitter.rs:67-72 | a long run's first three blank lines give one break |
| Splitter.LongRunTail | crates/mdeck/src/parser/splitter.rs:73 | the rest of a long run adds nothing |
| Splitter.LongRunDropped | crates/mdeck/src/parser/splitter.rs:73 | no blank line after the third of a run is output |
| Splitter.LongRunCollapse | crates/mdeck/src/parser/splitter.rs:63-73 | a long run's output, up to any of its lines, is one break |
| Splitter.LongRunBecomesOneBreak | crates/mdeck/src/parser/splitter.rs:55-78 | three or more consecutive blank lines become exactly one break |
| Parser.PlainTextSnoc | crates/mdeck/src/parser/mod.rs:320-333 | the text of one more inline is appended to the text so far |
| Parser.InlinesToText | crates/mdeck/src/parser/mod.rs:320-333 | the loop appends each inline's text: text and code verbatim, bold, italic, strikethrough and link by their children |
| Parser.InlineTextLenIsByteLength | crates/mdeck/src/parser/mod.rs:335-344 | `inline_text_len` is the UTF-8 byte length of the inline's plain text |
| Parser.TextLenIsByteLength | crates/mdeck/src/parser/mod.rs:320-344 | summing `inline_text_len` over inlines gives the byte length of `inlines_to_text` of them |
| Parser.CountNextSteps | crates/mdeck/src/parser/mod.rs:307-316 | the loop counts the `+` markers of the whole item tree, nested items included |
| Parser.MaxOrZero | crates/mdeck/src/parser/mod.rs:303-304 | `max().unwrap_or(0)`: an upper bound that is one of the values, or 0 for none |
| Parser.MaxOrZeroWithoutZero | crates/mdeck/src/parser/mod.rs:295-305 | dropping a zero count leaves the maximum as it was |
| Parser.WithoutNotLarger | crates/mdeck/src/parser/mod.rs:295-305 | dropping a count never raises the maximum |
| Parser.WithoutNotSmaller | crates/mdeck/src/parser/mod.rs:295-305 | dropping a zero count never lowers the maximum |
| Parser.StepCounts | crates/mdeck/src/parser/mod.rs:296-302 | one step count per block |
| Parser.MaxSteps | crates/mdeck/src/parser/mod.rs:295-305 | `compute_max_steps` is the largest block count, reached by some block, and 0 for no blocks: a maximum, not a sum |
| Parser.MaxStepsIgnoresOtherBlocks | crates/mdeck/src/parser/mod.rs:298-301 | removing a block that is neither a list nor a diagram leaves the result unchanged |
| Parser.LayoutFromValue | crates/mdeck/src/parser/mod.rs:159-170 | an unknown `@layout` value gives Content, and `bullets` or `bullet` give Bullet |
| Parser.FirstLayoutDirective | crates/mdeck/src/parser/mod.rs:157-172 | the first directive named `layout`, or None when there is none |
| Parser.KindsPositive | crates/mdeck/src/parser/mod.rs:186-205 | a kind is counted exactly when some block has it |
| Parser.KindsOnly | crates/mdeck/src/parser/mod.rs:186-205 | kinds no block has are counted zero times |
| Parser.HeadingLevels | crates/mdeck/src/parser/mod.rs:188 | one level per heading |
| Parser.TallyOfSnoc | crates/mdeck/src/parser/mod.rs:186-205 | one more block changes only the counter of its kind |
| Parser.CountBlock | crates/mdeck/src/parser/mod.rs:187-204 | one step of the counting loop |
| Parser.ClassifyLayout | crates/mdeck/src/parser/mod.rs:155-291 | `classify_layout` returns the layout its specification gives: the first `@layout` directive, else the rules in order |
| Parser.ClassifyCounted | crates/mdeck/src/parser/mod.rs:207-291 | the rules applied to the counted blocks |
| Parser.ClassifyLater | crates/mdeck/src/parser/mod.rs:244-290 | the rules after the title rule |
| Parser.FirstLayoutDirectiveDecides | crates/mdeck/src/parser/mod.rs:157-172 | the first `@layout` directive decides the layout whatever the blocks and later directives |
| Parser.DiagramThenTwoColumn | crates/mdeck/src/parser/mod.rs:209-217 | without a directive, a diagram gives Diagram, and otherwise a column separator gives TwoColumn |
| Parser.KindsSingle | crates/mdeck/src/parser/mod.rs:186-205 | the counters of one block |
| Parser.KindsPair | crates/mdeck/src/parser/mod.rs:186-205 | the counters of two blocks |
| Parser.LoneTopHeadingIsSection | crates/mdeck/src/parser/mod.rs:220-226 | a lone level-1 heading gives Section |
| Parser.HeadingWithShortParagraphIsTitle | crates/mdeck/src/parser/mod.rs:227-237 | a level-1 heading and one paragraph of fewer than 120 bytes, in either order, give Title |
| Parser.SingleHeadingIsSection | crates/mdeck/src/parser/mod.rs:245-254 | one heading of any level with no paragraph, list, image, code, quote or table gives Section |
| Parser.NoTitleWithoutCompanion | crates/mdeck/src/parser/mod.rs:227-241 | one heading and no paragraph never meets the title rule |
| Parser.HeadingLevelsComplete | crates/mdeck/src/parser/mod.rs:188 | every heading's level is recorded |
| Parser.PlainBlocksAreContent | crates/mdeck/src/parser/mod.rs:285-290 | a slide of paragraphs, lists, tables and rules only is Content |
| Parser.HeadingWithSubtitleIsContent | crates/mdeck/src/parser/mod.rs:219-241 | as written, a level-1 heading with a level-2 subtitle is Content, not Title |
| Parser.IntendedHeadingWithSubtitleIsTitle | crates/mdeck/src/parser/mod.rs:219-241 | with the intended title rule, a level-1 heading with a level-2 subtitle is Title |
| Parser.IntendedAgreesOnOneHeading | crates/mdeck/src/parser/mod.rs:219-241 | the intended rule agrees with the written one on every slide with at most one heading |
| Icons.StripPrefix | crates/mdeck/src/commands/generate_icons.rs:146-147 | `strip_prefix` succeeds exactly when the text starts with the prefix, and returns what follows it |
| Icons.UnionIff | crates/mdeck/src/commands/generate_icons.rs:122 | an icon is in the collected set exactly when some line contributed it |
| Icons.UnionStep | crates/mdeck/src/commands/generate_icons.rs:122 | each line adds its icons to the set |
| Icons.IconOf | crates/mdeck/src/commands/generate_icons.rs:144-152 | an icon found in a part is non-empty and trimmed |
| Icons.Meta | crates/mdeck/src/commands/generate_icons.rs:140-143 | metadata is found only on a line ending with `)` that has a `(` |
| Icons.PartIconsTrimmed | crates/mdeck/src/commands/generate_icons.rs:143-153 | every icon of a line's parts is non-empty and trimmed |
| Icons.LineIconsTrimmed | crates/mdeck/src/commands/generate_icons.rs:140-153 | every icon of a line is non-empty and trimmed |
| Icons.StripPrefixOfConcat | crates/mdeck/src/commands/generate_icons.rs:146-147 | a prefix followed by a rest strips to the rest |
| Icons.IconPart | crates/mdeck/src/commands/generate_icons.rs:146-151 | a part `icon: name` gives the icon `name` |
| Icons.SpacedIconPart | crates/mdeck/src/commands/generate_icons.rs:146-151 | a part `icon :name` gives the icon `name` |
| Icons.Kinds | crates/mdeck/src/commands/generate_icons.rs:125-138 | one kind (opener, fence or other) per line |
| Icons.Found | crates/mdeck/src/commands/generate_icons.rs:124-153 | one icon set per line |
| Icons.CollectDiagramIcons | crates/mdeck/src/commands/generate_icons.rs:121-160 | the loop collects exactly the icons its specification gives |
| Icons.ScanLine | crates/mdeck/src/commands/generate_icons.rs:124-154 | one line of the loop keeps the scan invariant, with the source's three `continue` branches |
| Icons.AddLineIcons | crates/mdeck/src/commands/generate_icons.rs:140-153 | a line adds exactly its icons |
| Icons.AddPartIcon | crates/mdeck/src/commands/generate_icons.rs:144-152 | a part adds exactly its icon, if any |
| Icons.InDiagramIff | crates/mdeck/src/commands/generate_icons.rs:125-138 | a line is inside a diagram exactly when some earlier line opens one and no fence line lies between |
| Icons.LinesIconsFrom | crates/mdeck/src/commands/generate_icons.rs:121-160 | every collected icon comes from a scanned line, that is, a line strictly inside a diagram |
| Icons.LinesIconsInclude | crates/mdeck/src/commands/generate_icons.rs:121-160 | every icon of a scanned line is collected, so repeats across diagrams collapse into one set |
| Icons.LinesIconsTrimmed | crates/mdeck/src/commands/generate_icons.rs:143-153 | every collected icon is non-empty and trimmed |
| Icons.NeverInDiagram | crates/mdeck/src/commands/generate_icons.rs:125-138 | with no opener line, no line is inside a diagram |
| Icons.UnionOfEmpty | crates/mdeck/src/commands/generate_icons.rs:122 | when no line contributes, the set stays empty |
| Icons.NoDiagramNoIcons | crates/mdeck/src/commands/generate_icons.rs:121-160 | content with no diagram opener gives the empty set |
| Icons.DbAlias | crates/mdeck/src/commands/generate_icons.rs:194 | `db` describes like `database` |
| Icons.AuthAlias | crates/mdeck/src/commands/generate_icons.rs:197 | `auth` describes like `lock` |
| Icons.GatewayAlias | crates/mdeck/src/commands/generate_icons.rs:198 | `gateway` describes like `api` |
| Icons.WebAlias | crates/mdeck/src/commands/generate_icons.rs:201 | `web` describes like `browser` |
| Icons.PhoneAlias | crates/mdeck/src/commands/generate_icons.rs:202 | `phone` describes like `mobile` |
| Icons.LambdaAlias | crates/mdeck/src/commands/generate_icons.rs:205 | `lambda` describes like `function` |
| Icons.LbAlias | crates/mdeck/src/commands/generate_icons.rs:206 | `lb` describes like `network` |
| Icons.EmailAlias | crates/mdeck/src/commands/generate_icons.rs:208 | `email` describes like `mail` |
| Icons.LoggingAlias | crates/mdeck/src/commands/generate_icons.rs:209 | `logging` describes like `logs` |
| Icons.MonitoringAlias | crates/mdeck/src/commands/generate_icons.rs:210 | `monitoring` describes like `monitor` |
| Icons.UnknownNamesKept | crates/mdeck/src/commands/generate_icons.rs:190-212 | a name is returned unchanged exactly when it is not one of the known names |
| Icons.UserDescription | crates/mdeck/src/commands/generate_icons.rs:345-350 | the description of `user` starts with "person" |
| Icons.DatabaseDescription | crates/mdeck/src/commands/generate_icons.rs:345-350 | the description of `database` mentions "cylinder" |
| Icons.CustomNameKept | crates/mdeck/src/commands/generate_icons.rs:345-350 | an unknown name such as `custom-thing` is returned as it is |
| Configuration.DefaultModelOnlyClaude | crates/mdeck/src/config.rs:81-88 | only Claude has a default model, `sonnet` |
| Configuration.AllProvidersOnce | crates/mdeck/src/config.rs:90-97 | `all()` lists each of the four providers exactly once |
| Configuration.BinaryNamesDistinct | crates/mdeck/src/config.rs:72-79 | different providers have different command names |
| Configuration.EnvVarNames | crates/mdeck/src/config.rs:135-140 | the API key variable is `OPENAI_API_KEY` or `GEMINI_API_KEY`, one per provider |
| Configuration.WithField | crates/mdeck/src/config.rs:213-247 | setting one field changes that field to the value and no other |
| Configuration.ParseUsize | crates/mdeck/src/config.rs:240 | a parsed start-mode number fits in a 64-bit usize |
| Configuration.Config.constructor | crates/mdeck/src/config.rs:9-18 | a default configuration has no sections |
| Configuration.Config.Set | crates/mdeck/src/config.rs:206-254 | `set` leaves the AI and image sections alone; on an error it returns that error and leaves `defaults` as it was; on success `defaults` exists and holds the new field |
| Configuration.SetFailsIff | crates/mdeck/src/config.rs:206-254 | `set` fails exactly for an unknown key or a rejected value, with UnknownKey or the key's own error message |
| Configuration.SetOnlyNamedField | crates/mdeck/src/config.rs:213-247 | a successful `set` sets the named field and leaves every other field as it was, or absent when `defaults` was absent |
| Configuration.SetTwice | crates/mdeck/src/config.rs:206-254 | setting the same key to the same value twice is the same as once |
| Configuration.SetCommutes | crates/mdeck/src/config.rs:206-254 | successful sets of two different keys commute |
| Configuration.KeyNames | crates/mdeck/src/config.rs:208-251 | the accepted keys are exactly `defaults.theme`, `defaults.transition`, `defaults.aspect` and `defaults.start_mode` |
| Configuration.ParseUsizeOfDecimal | crates/mdeck/src/config.rs:240 | every decimal below 2^64, with or without a leading `+`, parses to its value |
| Configuration.ParseUsizeRejects | crates/mdeck/src/config.rs:240 | the empty text, a bare `+` and anything starting with `-` do not parse |
| Configuration.ParseUsizeRejectsWords | crates/mdeck/src/config.rs:240 | `first` and `overview` are not numbers |
| Configuration.StartModeAcceptsSlideNumber | crates/mdeck/src/config.rs:239-247 | `start_mode` accepts every slide number below 2^64 |
| Quote.WrapWithQuotes | crates/mdeck/src/render/layouts/quote.rs:116-147 | the function builds the wrapped inlines its specification gives |
| Quote.WrappedIsQuoted | crates/mdeck/src/render/layouts/quote.rs:116-147 | the result starts and ends with a quotation mark, holds the original inlines in order right after the optional opening mark, is 0, 1 or 2 inlines longer, and is the input itself when it was already quoted |
| Quote.WrappedTwice | crates/mdeck/src/render/layouts/quote.rs:116-147 | wrapping twice is wrapping once |
| Quote.WrappedEmpty | crates/mdeck/src/render/layouts/quote.rs:116-147 | empty input gives the two curly quotation marks |
| Quote.CleanedText | crates/mdeck/src/render/layouts/quote.rs:151-157 | the attribution text changes only when its start, after whitespace, is `--` |
| Quote.CleanAttribution | crates/mdeck/src/render/layouts/quote.rs:149-160 | the function builds the cleaned inlines its specification gives |
| Quote.CleanedChangesOnlyFirst | crates/mdeck/src/render/layouts/quote.rs:149-160 | only the first inline can change, and only when it is text starting with `--` after whitespace |
| Quote.TripleDashBecomesEmDash | crates/mdeck/src/render/layouts/quote.rs:153-154 | `--- X` becomes an em dash, a space and X |
| Quote.DoubleDashBecomesEmDash | crates/mdeck/src/render/layouts/quote.rs:155-156 | `-- X`, with X not starting with `-`, becomes an em dash, a space and X |
| Quote.CleanedTwice | crates/mdeck/src/render/layouts/quote.rs:149-160 | cleaning twice is cleaning once |
| Theme.FromName | crates/mdeck/src/theme.rs:54-59 | `dark` gives the dark theme and every other name the light theme |
| Theme.Toggled | crates/mdeck/src/theme.rs:61-67 | a theme named `dark` toggles to light, and any other theme to dark |
| Theme.ToggledTwice | crates/mdeck/src/theme.rs:61-67 | toggling a built-in theme twice gives it back |
| Theme.ToggledFromName | crates/mdeck/src/theme.rs:54-67 | toggling the theme of a name gives the theme of the other name |
| Theme.HeadingSize | crates/mdeck/src/theme.rs:74-81 | levels 1, 2 and 3 select the h1, h2 and h3 sizes; every other level the body size |
| Theme.HeadingSizesDecrease | crates/mdeck/src/theme.rs:20-52 | in both built-in themes a deeper heading is never larger, and body text is never larger than a heading |
| Theme.SyntectThemeName | crates/mdeck/src/theme.rs:84-90 | `base16-ocean.dark` exactly for the dark theme, `InspiredGitHub` otherwise |
| Theme.EdgePalette | crates/mdeck/src/theme.rs:94-118 | the palette has eight distinct colours |
| Theme.PaletteDependsOnlyOnDarkness | crates/mdeck/src/theme.rs:84-118 | the palette and the syntax theme depend only on whether the name is `dark` |
| App.SaturatingSub | crates/mdeck/src/app.rs:1771-1792 | saturating subtraction: never below 0, and exact when no saturation happens |
| App.CycleVisitsAll | crates/mdeck/src/app.rs:289-295 | four cycles return to the start, and the cycle visits every transition kind |
| App.GridColumns | crates/mdeck/src/app.rs:333-342 | the overview grid has 2 to 4 columns |
| App.GridColumnsMonotone | crates/mdeck/src/app.rs:333-342 | more slides never mean fewer columns |
| App.GridMoveInRange | crates/mdeck/src/app.rs:665-690 | every arrow keeps the selection in [0, count - 1], moving by one or by a row and clamping at the edges |
| App.InitialSlideFacts | crates/mdeck/src/app.rs:1764-1792 | the start slide is in range; overview starts exactly on the flag or on `start_mode: overview` without a slide argument; a 1-based slide argument or config number is reduced by one with saturation and clamped to the last slide |
| App.PresentationApp.constructor | crates/mdeck/src/app.rs:139-207 | a new app is on slide 0 in presentation mode, with no transition or toast and every reveal count 0 |
| App.PresentationApp.Launch | crates/mdeck/src/app.rs:1814-1820 | start-up moves to the initial slide and opens the grid there when asked |
| App.PresentationApp.NavigateForward | crates/mdeck/src/app.rs:213-240 | nothing while a transition runs; else reveals one more step while any is left; else starts a transition to the next slide unless on the last; reveal counts stay within their maxima |
| App.PresentationApp.NavigateBackward | crates/mdeck/src/app.rs:242-273 | nothing while a transition runs; else hides one revealed step; else, past the first slide, fully reveals the previous slide and starts a transition to it; on the first slide nothing |
| App.PresentationApp.JumpToSlide | crates/mdeck/src/app.rs:275-282 | the slide changes exactly when the index is in range and no transition runs |
| App.PresentationApp.CycleTransition | crates/mdeck/src/app.rs:289-303 | the default transition moves to the next kind and the toast names it |
| App.PresentationApp.GridArrowKey | crates/mdeck/src/app.rs:665-690 | an arrow in the grid moves the selection by the grid move and changes nothing else |
| App.PresentationApp.EnterOverview | crates/mdeck/src/app.rs:651-662 | `G` starts the overview animation at the current slide unless a transition runs |
| App.PresentationApp.LeaveOverview | crates/mdeck/src/app.rs:692-703 | Enter, Space or E in the grid starts the animation back to the selected slide |
| App.PresentationApp.FinishTransition | crates/mdeck/src/app.rs:730-736 | a finished transition makes its target the current slide and clears it |
| App.PresentationApp.FinishOverviewTransition | crates/mdeck/src/app.rs:738-751 | a finished overview animation opens the grid, or returns to presentation on the selected slide |
| App.ForwardAtLastSlide | crates/mdeck/src/app.rs:222-240 | forward on the fully revealed last slide changes nothing |
| App.ForwardThenBackward | crates/mdeck/src/app.rs:213-273 | revealing a step and hiding it again restores the reveal state |
| Presemd.TransitionKindForFacts | crates/presemd/src/main.rs:134-142 | the kind is symmetric, and a fade exactly between slides 0 and 1 |
| Presemd.PresentationApp.constructor | crates/presemd/src/main.rs:80-90 | the viewer starts on slide 0 with no transition |
| Presemd.PresentationApp.Navigate | crates/presemd/src/main.rs:92-121 | nothing while a transition exists, forward from the last or backward from the first slide; otherwise a transition to the neighbour in the requested direction with its kind |
| Presemd.PresentationApp.AdvanceTransition | crates/presemd/src/main.rs:197-207 | a finished transition makes its target current and clears it, so the current slide stays below the slide count |
| Presemd.ForwardAndBack | crates/presemd/src/main.rs:92-121 | forward, finish, back, finish returns to the starting slide |
| Strings.Trim | crates/mdeck/src/parser/splitter.rs:22 | `str::trim`: the result is no longer than the input and neither starts nor ends with whitespace |
| Strings.Lines | crates/mdeck/src/parser/splitter.rs:111 | `str::lines`: no line it returns contains a line feed |
| Strings.Utf8Len | crates/mdeck/src/parser/mod.rs:337 | `String::len`: the UTF-8 byte length of a text, one to four bytes per character |

## Left out

- I/O, processes and the network: `Config::load`, `load_from`, `save`, `path` and `resolve_api_key`; `AiProvider::is_available`; `generate_icons::run`, `generate_icon`, `generate_openai` and `generate_gemini`; `cli.rs`; `load_app_icon`. They read files, environment variables or the network, or spawn programs.
- Time: toasts, fades, FPS and the progress of transitions. A finished transition or overview animation is an explicit call (`App.PresentationApp.FinishTransition`, `App.PresentationApp.FinishOverviewTransition`, `Presemd.PresentationApp.AdvanceTransition`). Toast expiry, reveal timestamps and scroll offsets are not modelled.
- Rendering and egui: drawing, float geometry, `ease_in_out`, and the rest of quote.rs (`render`). The presemd viewer's slide texts are not modelled.
- Floats in routing are integer half units.
- RoutingSerialize.ParseDoubled: reads a decimal component exactly and rounds twice its value, where `parse_coord` first parses an `f64` and then rounds (serialize.rs:152-154). A numeral with more digits than an `f64` holds can round differently: `0.2499999999999999999` reads as 0 here and as 1 in the source, because the `f64` is exactly 0.25. Exponent forms such as `1e0`, and `inf` and `NaN`, which `f64::from_str` accepts (`NaN` casts to 0, `inf` saturates), are rejected here.
- RoutingSearch.FindBestRoute and RoutingSearch.SearchAllDirections: do not model the parallel `par_iter` of the four searches (search.rs:375-378); they run one after another, which cannot change the result because the best route is unique (`RoutingSearch.SelectBestUnique`).
- RoutingSearch.AStarSingleDirection: does not promise the cheapest route. Only the shape, obstacle, lane and cost properties are proved.
- RoutingSearch.FindBestRoute: states its result as the best of the four direction results, which it returns as a ghost out-parameter. When two different routes tie completely, the earlier direction would win; `RoutingSearch.TiebreakInjective` shows that this cannot happen.
- The i32 width of coordinates and lanes is not modelled in routing; integers are unbounded. Serialisation keeps the i32 range checks of parsing, and its round trips require values in i32 range.
- The property that the first edge on an uncontended grid uses lane 0 on every segment is not proved. It holds only because A* finds a cheapest route, and that optimality argument is not part of this model (see RoutingSearch.AStarSingleDirection).
- The example `"Slide one\n\n\n\n---\n\n\n\nSlide two"` giving two slides is not proved as a whole. The first phase turns its `---` into a break marker and drops one blank line on each side of it (`Splitter.SeparatorBecomesBreak`), which leaves runs of only two blank lines. The second phase then changes nothing (`Splitter.CollapsedWithoutLongRuns`), since the marker is not blank (`Splitter.LineKindsDisjoint`). The two chunks around the marker are trimmed (`Splitter.BreakIntoChunks`), and only a non-empty chunk gives slides (`Splitter.SplitChunk`).
- Splitter.IsDirective: the key characters are ASCII letters, digits, `-` and `_`; Rust's `char::is_alphanumeric` also accepts other Unicode letters and digits.
- Configuration.ParseUsize: takes `usize` to be 64 bits wide.
- `count_diagram_steps`, in a diagram module that is not part of this model, is a parameter (`diagramSteps`) of `Parser.MaxSteps`.
- `parser::parse` is not modelled. It needs the front-matter and block parsers, which are not part of this model. Only `classify_layout` and the counting helpers are modelled.
- `AiProvider::display_name` and `description`, and `ImageGenProvider::display_name`, are plain tables. They are modelled as functions without properties.
- `Theme::with_opacity` is float colour arithmetic and is left out. `Theme::dark` and `Theme::light` are modelled in full, with every colour as its exact RGB value, names and sizes.

## Findings

| source | as written | input that shows it | evidently intended | confidence | as-written member | corrected member |
|---|---|---|---|---|---|---|
| crates/mdeck/src/parser/mod.rs:219-241 | the title rule first requires exactly one heading, so its check for a level-2 heading as the companion block can never succeed | a slide with `# Title` followed by `## Subtitle` and nothing else is classified Content | a level-1 heading with a level-2 subtitle is a title slide, as the comment at line 219 says | not executed | Parser.HeadingWithSubtitleIsContent | Parser.IntendedHeadingWithSubtitleIsTitle |

The as-written rule is `Parser.TitleRule`; `Parser.LayoutOf` and `Parser.ClassifyLayout` follow it, so the model matches the code. The corrected rule is `Parser.IntendedTitleRule`, used by `Parser.IntendedLayoutOf`. `Parser.IntendedAgreesOnOneHeading` proves the two agree whenever a slide has at most one heading.
