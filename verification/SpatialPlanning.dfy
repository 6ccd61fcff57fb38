/** Single-robot shortest paths: what a planner must answer, and A* and
    Dijkstra as the system runs them. */
module SpatialPlanning {
  import opened Floors
  import opened BestFirst

  datatype Reason = StartBlocked | GoalBlocked | Unreachable

  datatype PathResult =
    | Found(start: Position, goal: Position, path: seq<Position>, totalCost: int, nodesExpanded: nat)
    | NotFound(start: Position, goal: Position, reason: Reason, nodesExpanded: nat)

  function ManhattanDistance(a: Position, b: Position): nat {
    Manhattan(a, b)
  }

  function ZeroHeuristic(a: Position, b: Position): nat {
    0
  }

  /** What makes it safe to finalise a cell the first time it is popped: one
      step changes the estimate by at most its cost. */
  ghost predicate StepwiseConsistent(h: (Position, Position) -> nat) {
    forall a, b, goal | Adjacent(a, b) :: h(a, goal) <= 1 + h(b, goal)
  }

  /** The heuristics a planner may be given. */
  type Heuristic = h: (Position, Position) -> nat | StepwiseConsistent(h) witness ZeroHeuristic

  const MANHATTAN: Heuristic := ManhattanDistance

  const ZERO: Heuristic := ZeroHeuristic

  // ---------- Reference meaning ----------

  /** A drivable route: traversable cells, one orthogonal step apart. */
  ghost predicate IsRoute(f: Floor, p: seq<Position>, a: Position, b: Position) {
    && |p| > 0 && p[0] == a && p[|p| - 1] == b
    && (forall i | 0 <= i < |p| :: f.Traversable(p[i]))
    && (forall i | 0 <= i < |p| - 1 :: Adjacent(p[i], p[i + 1]))
  }

  ghost predicate Connected(f: Floor, a: Position, b: Position) {
    exists p :: IsRoute(f, p, a, b)
  }

  ghost predicate IsShortest(f: Floor, p: seq<Position>, a: Position, b: Position) {
    IsRoute(f, p, a, b) && forall q | IsRoute(f, q, a, b) :: |p| <= |q|
  }

  /** `d` moves are enough to get from `a` to `b`, and no fewer are. */
  ghost predicate IsDistance(f: Floor, a: Position, b: Position, d: int) {
    exists p :: IsShortest(f, p, a, b) && |p| == d + 1
  }

  lemma OneDistance(f: Floor, a: Position, b: Position, d: int, e: int)
    requires IsDistance(f, a, b, d) && IsDistance(f, a, b, e)
    ensures d == e && Connected(f, a, b)
  {
  }

  // ---------- The search problem ----------

  function SpatialProblem(f: Floor, start: Position, goal: Position, h: Heuristic): Problem<Position> {
    Problem(start, c => f.Neighbours(c), c => h(c, goal), c => c == goal, f.Cells())
  }

  /** The parts of the problem, cell by cell. */
  lemma ProblemAt(f: Floor, start: Position, goal: Position, h: Heuristic, c: Position)
    ensures var P := SpatialProblem(f, start, goal, h);
            P.start == start && P.succ(c) == f.Neighbours(c) && P.h(c) == h(c, goal) && P.goal(c) == (c == goal)
            && P.space == f.Cells() && (c in f.Cells() <==> f.InBounds(c))
  {
    assert f.InBounds(c) ==> c == Position(c.row, c.col);
  }

  lemma SpatialConsistent(f: Floor, start: Position, goal: Position, h: Heuristic)
    requires f.InBounds(start)
    ensures Consistent(SpatialProblem(f, start, goal, h))
  {
    var P := SpatialProblem(f, start, goal, h);
    assert start in P.space by {
      assert start == Position(start.row, start.col);
    }
    forall u, w | u in P.space && w in P.succ(u)
      ensures w in P.space && P.h(u) <= 1 + P.h(w)
    {
      NeighboursExact(f, u, w);
      assert w == Position(w.row, w.col);
    }
  }

  /** What a planner loop needs to know about its problem. */
  lemma ProblemParts(f: Floor, start: Position, goal: Position, h: Heuristic)
    requires f.InBounds(start)
    ensures var P := SpatialProblem(f, start, goal, h);
            && P.start == start
            && (forall c: Position :: P.succ(c) == f.Neighbours(c) && P.h(c) == h(c, goal) && P.goal(c) == (c == goal))
            && (forall c: Position :: c in P.space <==> f.InBounds(c))
            && Inv(P, Initial(P)) && Run(P, Initial(P)) == SearchFrom(f, start, goal, h)
  {
    SpatialConsistent(f, start, goal, h);
    InitialInv(SpatialProblem(f, start, goal, h));
    forall c: Position
      ensures c in f.Cells() <==> f.InBounds(c)
    {
      ProblemAt(f, start, goal, h, c);
    }
  }

  /** Walks of the search graph and drivable routes are the same thing. */
  lemma WalksAreRoutes(f: Floor, start: Position, goal: Position, h: Heuristic, p: seq<Position>)
    requires f.Traversable(start)
    ensures |p| > 0 ==> (IsWalk(SpatialProblem(f, start, goal, h), p) <==> IsRoute(f, p, start, Last(p)))
  {
    var P := SpatialProblem(f, start, goal, h);
    if IsWalk(P, p) {
      forall i | 0 <= i < |p|
        ensures f.Traversable(p[i]) && (i > 0 ==> Adjacent(p[i - 1], p[i]))
      {
        if i > 0 {
          assert p[i - 1 + 1] in P.succ(p[i - 1]);
          NeighboursExact(f, p[i - 1], p[i]);
        }
      }
      forall i | 0 <= i < |p| - 1
        ensures Adjacent(p[i], p[i + 1])
      {
        assert Adjacent(p[i + 1 - 1], p[i + 1]);
      }
    }
    if |p| > 0 && IsRoute(f, p, start, Last(p)) {
      forall i | 0 <= i < |p| - 1
        ensures p[i + 1] in P.succ(p[i])
      {
        NeighboursExact(f, p[i], p[i + 1]);
      }
    }
  }

  function RequestProblem(f: Floor, start: Position, goal: Position): Option<Reason> {
    if !f.Traversable(start) then Some(StartBlocked)
    else if !f.Traversable(goal) then Some(GoalBlocked)
    else None
  }

  ghost function SearchFrom(f: Floor, start: Position, goal: Position, h: Heuristic): (r: BestFirst.Outcome<Position>)
    requires f.InBounds(start)
    ensures Answers(SpatialProblem(f, start, goal, h), r)
  {
    var P := SpatialProblem(f, start, goal, h);
    SpatialConsistent(f, start, goal, h);
    InitialInv(P);
    RunAnswers(P, Initial(P));
    Run(P, Initial(P))
  }

  function FoundPath(start: Position, goal: Position, path: seq<Position>, nodesExpanded: nat): PathResult {
    Found(start, goal, path, |path| - 1, nodesExpanded)
  }

  ghost function SearchedPath(f: Floor, start: Position, goal: Position, h: Heuristic): PathResult
    requires f.InBounds(start)
  {
    var r := SearchFrom(f, start, goal, h);
    if r.Reached? then FoundPath(start, goal, Trail(SpatialProblem(f, start, goal, h), r.search, goal),
        |r.search.closed|)
    else NotFound(start, goal, Unreachable, |r.search.closed|)
  }

  /** The answer a best-first planner gives for a request, ordered by cost so
      far plus the heuristic `h`. */
  ghost function Answer(f: Floor, start: Position, goal: Position,
          h: Heuristic): Floors.Outcome<PathResult, WarehouseError>
  {
    if !f.InBounds(start) || !f.InBounds(goal) then Raised(OutOfBounds)
    else if RequestProblem(f, start, goal).Some? then
      Ok(NotFound(start, goal, RequestProblem(f, start, goal).value, 0))
    else if start == goal then Ok(FoundPath(start, goal, [start], 0))
    else Ok(SearchedPath(f, start, goal, h))
  }

  // ---------- The planners ----------

  method CheckPlanningRequest(start: Position, goal: Position, warehouse: Warehouse)
    returns (r: Floors.Outcome<Option<Reason>, WarehouseError>)
    ensures var f := warehouse.FloorPlan();
            r == if f.InBounds(start) && f.InBounds(goal) then Ok(RequestProblem(f, start, goal))
                else Raised(OutOfBounds)
  {
    var f := warehouse.FloorPlan();
    if !f.InBounds(start) {
      return Raised(OutOfBounds);
    }
    if !f.InBounds(goal) {
      return Raised(OutOfBounds);
    }
    if !f.Traversable(start) {
      return Ok(Some(StartBlocked));
    }
    if !f.Traversable(goal) {
      return Ok(Some(GoalBlocked));
    }
    return Ok(None);
  }

  /** The body both planners share: offer every unfinalised neighbour its cost
      through `current`, and push each improvement. */
  method OfferNeighbours(list: seq<Position>, current: Position, goal: Position, h: Heuristic,
        cost: map<Position, nat>, from: map<Position, Position>, finalized: set<Position>,
        open: set<Entry<Position>>, next: nat, ghost P: Problem<Position>, ghost s: Search<Position>)
    returns (cost': map<Position, nat>, from': map<Position, Position>, open': set<Entry<Position>>, next': nat)
    requires s == Search(cost, from, finalized, open, next)
    requires Expanding(P, s, current, list) && forall c: Position :: P.h(c) == h(c, goal)
    ensures Search(cost', from', finalized, open', next') == RelaxAll(P, s, current, list)
  {
    hide Expanding, RelaxAll;
    cost', from', open', next' := cost, from, open, next;
    ExpansionEnds(P, s, current, list);
    var currentCost := cost[current];
    ghost var now := s;
    assert list[0..] == list;
    for i := 0 to |list|
      invariant now == Search(cost', from', finalized, open', next')
      invariant Expanding(P, now, current, list[i..]) && current in now.best && now.best[current] == currentCost
      invariant now.closed == finalized
      invariant RelaxAll(P, now, current, list[i..]) == RelaxAll(P, s, current, list)
    {
      var neighbour := list[i];
      RelaxStep(P, now, current, list[i..]);
      assert list[i..][1..] == list[i + 1..];
      now := Relax(P, now, current, neighbour);
      if neighbour !in finalized {
        var tentative := currentCost + 1;
        if neighbour !in cost' || tentative < cost'[neighbour] {
          cost' := cost'[neighbour := tentative];
          from' := from'[neighbour := current];
          open' := open' + {Entry(tentative + h(neighbour, goal), h(neighbour, goal), next', neighbour)};
          next' := next' + 1;
        }
      }
    }
    ExpansionEnds(P, now, current, []);
  }

  /** A*: frontier ordered by cost so far plus heuristic, ties towards the goal,
      then by insertion. */
  method AStar(start: Position, goal: Position, warehouse: Warehouse, h: Heuristic)
    returns (r: Floors.Outcome<PathResult, WarehouseError>)
    ensures r == Answer(warehouse.FloorPlan(), start, goal, h)
  {
    var rejection := CheckPlanningRequest(start, goal, warehouse);
    if rejection.Raised? {
      return Raised(rejection.error);
    }
    if rejection.value.Some? {
      return Ok(NotFound(start, goal, rejection.value.value, 0));
    }
    if start == goal {
      return Ok(FoundPath(start, goal, [start], 0));
    }
    var searched := AStarSearch(start, goal, warehouse, h);
    r := Ok(searched);
  }

  method AStarSearch(start: Position, goal: Position, warehouse: Warehouse, h: Heuristic) returns (r: PathResult)
    requires warehouse.FloorPlan().InBounds(start)
    ensures r == SearchedPath(warehouse.FloorPlan(), start, goal, h)
  {
    hide Inv, Expanding, RelaxAll, Run, Answers, Tree, Optimal, Thrifty, UniqueOrders, Pop, SpatialProblem, SearchFrom,
         Floor.Neighbours, Floor.Cells;
    ghost var P := SpatialProblem(warehouse.FloorPlan(), start, goal, h);
    ProblemParts(warehouse.FloorPlan(), start, goal, h);

    var gScore: map<Position, nat> := map[start := 0];
    var cameFrom: map<Position, Position> := map[];
    var finalized: set<Position> := {};
    var tie := 1;
    var frontier := {Entry(h(start, goal), h(start, goal), 0, start)};
    var nodesExpanded := 0;
    ghost var s := Search(gScore, cameFrom, finalized, frontier, tie);
    assert s == Initial(P);

    while frontier != {}
      invariant s == Search(gScore, cameFrom, finalized, frontier, tie)
      invariant Inv(P, s) && Run(P, s) == SearchFrom(warehouse.FloorPlan(), start, goal, h)
      invariant nodesExpanded == |finalized|
      decreases P.space - finalized, frontier
    {
      PopStep(P, s);
      var top := Top(frontier);
      frontier := frontier - {top};
      var current := top.state;
      if current in finalized {
        s := Pop(P, s);
        continue;
      }
      finalized := finalized + {current};
      nodesExpanded := nodesExpanded + 1;
      s := Close(s, top);
      if current == goal {
        var path := Reconstruct(cameFrom, start, goal, P, s);
        return FoundPath(start, goal, path, nodesExpanded);
      }
      var neighbours := warehouse.Neighbours(current);
      gScore, cameFrom, frontier, tie := OfferNeighbours(
        neighbours.value, current, goal, h, gScore, cameFrom, finalized, frontier, tie, P, s);
      s := RelaxAll(P, s, current, neighbours.value);
    }
    RunStops(P, s);
    return NotFound(start, goal, Unreachable, nodesExpanded);
  }

  /** Dijkstra: frontier ordered by cost so far, then by insertion. */
  method Dijkstra(start: Position, goal: Position, warehouse: Warehouse)
    returns (r: Floors.Outcome<PathResult, WarehouseError>)
    ensures r == Answer(warehouse.FloorPlan(), start, goal, ZERO)
  {
    var rejection := CheckPlanningRequest(start, goal, warehouse);
    if rejection.Raised? {
      return Raised(rejection.error);
    }
    if rejection.value.Some? {
      return Ok(NotFound(start, goal, rejection.value.value, 0));
    }
    if start == goal {
      return Ok(FoundPath(start, goal, [start], 0));
    }
    var searched := DijkstraSearch(start, goal, warehouse);
    r := Ok(searched);
  }

  method DijkstraSearch(start: Position, goal: Position, warehouse: Warehouse) returns (r: PathResult)
    requires warehouse.FloorPlan().InBounds(start)
    ensures r == SearchedPath(warehouse.FloorPlan(), start, goal, ZERO)
  {
    hide Inv, Expanding, RelaxAll, Run, Answers, Tree, Optimal, Thrifty, UniqueOrders, Pop, SpatialProblem, SearchFrom,
         Floor.Neighbours, Floor.Cells;
    ghost var P := SpatialProblem(warehouse.FloorPlan(), start, goal, ZERO);
    ProblemParts(warehouse.FloorPlan(), start, goal, ZERO);

    var bestCost: map<Position, nat> := map[start := 0];
    var cameFrom: map<Position, Position> := map[];
    var finalized: set<Position> := {};
    var tie := 1;
    var frontier := {Entry(0, 0, 0, start)};
    var nodesExpanded := 0;
    ghost var s := Search(bestCost, cameFrom, finalized, frontier, tie);
    assert s == Initial(P);

    while frontier != {}
      invariant s == Search(bestCost, cameFrom, finalized, frontier, tie)
      invariant Inv(P, s) && Run(P, s) == SearchFrom(warehouse.FloorPlan(), start, goal, ZERO)
      invariant nodesExpanded == |finalized|
      decreases P.space - finalized, frontier
    {
      PopStep(P, s);
      var top := Top(frontier);
      frontier := frontier - {top};
      var current := top.state;
      if current in finalized {
        s := Pop(P, s);
        continue;
      }
      finalized := finalized + {current};
      nodesExpanded := nodesExpanded + 1;
      s := Close(s, top);
      if current == goal {
        var path := Reconstruct(cameFrom, start, goal, P, s);
        return FoundPath(start, goal, path, nodesExpanded);
      }
      var neighbours := warehouse.Neighbours(current);
      bestCost, cameFrom, frontier, tie := OfferNeighbours(
        neighbours.value, current, goal, ZERO, bestCost, cameFrom, finalized, frontier, tie, P, s);
      s := RelaxAll(P, s, current, neighbours.value);
    }
    RunStops(P, s);
    return NotFound(start, goal, Unreachable, nodesExpanded);
  }

  // ---------- What the answers mean ----------

  /** A planner is totally correct: a search that is worth starting finds a
      shortest route exactly when one exists. */
  lemma AnswerIsShortest(f: Floor, start: Position, goal: Position, h: Heuristic)
    requires f.InBounds(start) && f.InBounds(goal)
    ensures var r := Answer(f, start, goal, h);
            && r.Ok?
            && (r.value.Found? <==> Connected(f, start, goal))
            && (r.value.Found? ==> IsShortest(f, r.value.path, start, goal) && r.value.totalCost == |r.value.path| - 1)
  {
    if RequestProblem(f, start, goal).Some? {
      EndsTraversable(f, start, goal);
    } else if start == goal {
      assert IsRoute(f, [start], start, goal);
    } else {
      SearchIsShortest(f, start, goal, h);
    }
  }

  lemma EndsTraversable(f: Floor, a: Position, b: Position)
    ensures Connected(f, a, b) ==> f.Traversable(a) && f.Traversable(b)
  {
    if Connected(f, a, b) {
      var p :| IsRoute(f, p, a, b);
      assert f.Traversable(p[0]) && f.Traversable(p[|p| - 1]);
    }
  }

  lemma SearchIsShortest(f: Floor, start: Position, goal: Position, h: Heuristic)
    requires f.Traversable(start) && f.InBounds(goal)
    ensures var P, r := SpatialProblem(f, start, goal, h), SearchFrom(f, start, goal, h);
            && Tree(P, r.search)
            && (r.Reached? ==>
                r.state == goal && goal in r.search.best
                && IsShortest(f, Trail(P, r.search, goal), start, goal))
            && (r.Exhausted? ==> !Connected(f, start, goal))
  {
    var P := SpatialProblem(f, start, goal, h);
    var r := SearchFrom(f, start, goal, h);
    forall q | IsRoute(f, q, start, goal)
      ensures IsWalk(P, q) && Last(q) == goal
    {
      WalksAreRoutes(f, start, goal, h, q);
    }
    if r.Reached? {
      WalksAreRoutes(f, start, goal, h, Trail(P, r.search, goal));
    }
  }

  /** The cells that can be reached from `start`. */
  ghost function Reach(f: Floor, start: Position): set<Position> {
    set c | c in f.Cells() && Connected(f, start, c)
  }

  lemma ReachExact(f: Floor, start: Position)
    ensures forall c :: c in Reach(f, start) <==> Connected(f, start, c)
  {
    forall c | Connected(f, start, c)
      ensures c in f.Cells()
    {
      EndsTraversable(f, start, c);
      assert c == Position(c.row, c.col);
    }
  }

  /** A search closes nothing that cannot be reached, and everything that can unless
      it finds the goal; then it has closed the whole of the route. */
  lemma ClosedIsReached(f: Floor, start: Position, goal: Position, h: Heuristic)
    requires f.Traversable(start) && f.InBounds(goal)
    ensures var P, r := SpatialProblem(f, start, goal, h), SearchFrom(f, start, goal, h);
            && Tree(P, r.search)
            && r.search.closed <= Reach(f, start)
            && (r.Exhausted? ==> r.search.closed == Reach(f, start))
            && (r.Reached? ==>
                  goal in r.search.closed && forall c | c in Trail(P, r.search, goal) :: c in r.search.closed)
  {
    hide SearchFrom, Reach, Tree, SpatialProblem, Optimal, Connected, IsWalk;
    var P, r := SpatialProblem(f, start, goal, h), SearchFrom(f, start, goal, h);
    SearchIsShortest(f, start, goal, h);
    ReachExact(f, start);
    ProblemAt(f, start, goal, h, goal);
    TreeParts(P, r.search);
    forall c | c in r.search.closed
      ensures c in Reach(f, start)
    {
      WalkReaches(f, start, goal, h, Trail(P, r.search, c));
    }
    if r.Reached? {
      TrailIsClosed(P, r.search, goal);
    } else {
      forall c | Connected(f, start, c)
        ensures c in r.search.closed
      {
        var p := RouteOfConnected(f, start, c);
        WalksAreRoutes(f, start, goal, h, p);
      }
    }
  }

  lemma TreeParts(P: Problem<Position>, s: Search<Position>)
    requires Tree(P, s)
    ensures s.closed <= s.best.Keys
  {
  }

  lemma WalkReaches(f: Floor, start: Position, goal: Position, h: Heuristic, p: seq<Position>)
    requires f.Traversable(start) && IsWalk(SpatialProblem(f, start, goal, h), p)
    ensures |p| > 0 && Connected(f, start, Last(p))
  {
    hide IsRoute, SpatialProblem;
    WalksAreRoutes(f, start, goal, h, p);
  }

  lemma RouteOfConnected(f: Floor, a: Position, b: Position) returns (p: seq<Position>)
    requires Connected(f, a, b)
    ensures IsRoute(f, p, a, b) && |p| > 0 && Last(p) == b
  {
    p :| IsRoute(f, p, a, b);
  }

  lemma {:induction false} TrailIsClosed(P: Problem<Position>, s: Search<Position>, x: Position)
    requires Tree(P, s) && x in s.closed
    ensures forall c | c in Trail(P, s, x) :: c in s.closed
    decreases s.best[x]
  {
    if x != P.start {
      assert Parent(P, s, x, s.from[x]);
      TrailIsClosed(P, s, s.from[x]);
    }
  }

  lemma {:induction false} TrailFits(P: Problem<Position>, s: Search<Position>, x: Position, cells: set<Position>)
    requires Tree(P, s) && x in s.best && forall c | c in Trail(P, s, x) :: c in cells
    ensures |Trail(P, s, x)| <= |cells|
  {
    hide Tree, IsWalk;
    DistinctFits(Trail(P, s, x), cells);
  }

  lemma {:induction false} DistinctFits(p: seq<Position>, cells: set<Position>)
    requires forall i, j | 0 <= i < j < |p| :: p[i] != p[j]
    requires forall c | c in p :: c in cells
    ensures |p| <= |cells|
  {
    if p != [] {
      var n := |p| - 1;
      DistinctFits(p[..n], cells - {p[n]});
    }
  }

  /** Every way to get no route, for every request. */
  lemma AnswerReasons(f: Floor, start: Position, goal: Position, h: Heuristic)
    ensures var r := Answer(f, start, goal, h);
            && (r.Raised? <==> !f.InBounds(start) || !f.InBounds(goal))
            && (r.Ok? ==> r.value.start == start && r.value.goal == goal)
            && (r.Ok? && r.value.NotFound? ==>
                  && (r.value.reason == StartBlocked <==> !f.Traversable(start))
                  && (r.value.reason == GoalBlocked <==> f.Traversable(start) && !f.Traversable(goal))
                  && (r.value.reason == Unreachable <==>
                        f.Traversable(start) && f.Traversable(goal) && !Connected(f, start, goal)))
  {
    hide IsShortest, Connected;
    if f.InBounds(start) && f.InBounds(goal) {
      AnswerIsShortest(f, start, goal, h);
    }
  }

  /** What the reported count says: between free and different ends, without a route
      it is the number of cells that can be reached from the start; with one it is at
      least the cells of the route, and at most that number. */
  lemma ExpansionsCounted(f: Floor, start: Position, goal: Position, h: Heuristic)
    requires f.Traversable(start) && f.Traversable(goal) && start != goal
    ensures var r := Answer(f, start, goal, h).value;
            && r.nodesExpanded == |SearchFrom(f, start, goal, h).search.closed|
            && (r.NotFound? ==> r.nodesExpanded == |Reach(f, start)|)
            && (r.Found? ==> |r.path| <= r.nodesExpanded <= |Reach(f, start)|)
  {
    hide SearchFrom, Reach, SpatialProblem, Tree, IsWalk;
    ClosedIsReached(f, start, goal, h);
    var P, r := SpatialProblem(f, start, goal, h), SearchFrom(f, start, goal, h);
    SubsetSize(r.search.closed, Reach(f, start));
    if r.Reached? {
      SearchIsShortest(f, start, goal, h);
      TrailFits(P, r.search, goal, r.search.closed);
    }
  }

  /** A* and Dijkstra agree on success and cost, and A* finalises no cell that
      Dijkstra does not, so its expansion count is never larger. */
  lemma AStarExpandsNoMore(f: Floor, start: Position, goal: Position)
    requires f.InBounds(start) && f.InBounds(goal)
    ensures var a := Answer(f, start, goal, MANHATTAN).value;
            var d := Answer(f, start, goal, ZERO).value;
            && a.Found? == d.Found?
            && (a.Found? ==> a.totalCost == d.totalCost)
            && a.nodesExpanded <= d.nodesExpanded
            && (a.NotFound? ==> a.nodesExpanded == d.nodesExpanded && a.reason == d.reason)
            && (f.Traversable(start) && f.Traversable(goal) && start != goal ==>
                  && a.nodesExpanded == |SearchFrom(f, start, goal, MANHATTAN).search.closed|
                  && d.nodesExpanded == |SearchFrom(f, start, goal, ZERO).search.closed|)
  {
    hide SearchFrom, IsShortest, Connected;
    AnswerIsShortest(f, start, goal, MANHATTAN);
    AnswerIsShortest(f, start, goal, ZERO);
    if RequestProblem(f, start, goal).None? && start != goal {
      ExpansionsCounted(f, start, goal, MANHATTAN);
      ExpansionsCounted(f, start, goal, ZERO);
      FinalisedSubset(f, start, goal);
      SubsetSize(SearchFrom(f, start, goal, MANHATTAN).search.closed, SearchFrom(f, start, goal, ZERO).search.closed);
    }
  }

  lemma SubsetSize<T>(a: set<T>, b: set<T>)
    requires a <= b
    ensures |a| <= |b|
  {
    assert b == a + (b - a);
  }

  /** The cells A* finalises are among those Dijkstra finalises; when the goal is
      unreachable both finalise exactly the cells reachable from the start. */
  lemma FinalisedSubset(f: Floor, start: Position, goal: Position)
    requires f.Traversable(start) && f.InBounds(goal)
    ensures var a := SearchFrom(f, start, goal, MANHATTAN);
            var d := SearchFrom(f, start, goal, ZERO);
            && a.search.closed <= d.search.closed
            && (a.Exhausted? ==> a.search.closed == d.search.closed)
  {
    hide SearchFrom;
    var a, d := SearchFrom(f, start, goal, MANHATTAN), SearchFrom(f, start, goal, ZERO);
    forall c | c in a.search.closed
      ensures c in d.search.closed
    {
      DijkstraFinalises(f, start, goal, c);
    }
    if a.Exhausted? {
      SearchIsShortest(f, start, goal, MANHATTAN);
      SearchIsShortest(f, start, goal, ZERO);
      forall c | c in d.search.closed
        ensures c in a.search.closed
      {
        var p := Trail(SpatialProblem(f, start, goal, ZERO), d.search, c);
        WalksAreRoutes(f, start, goal, ZERO, p);
        WalksAreRoutes(f, start, goal, MANHATTAN, p);
      }
    }
  }

  lemma DijkstraFinalises(f: Floor, start: Position, goal: Position, c: Position)
    requires f.Traversable(start) && f.InBounds(goal)
    requires c in SearchFrom(f, start, goal, MANHATTAN).search.closed
    ensures c in SearchFrom(f, start, goal, ZERO).search.closed
  {
    hide SearchFrom, Tree, Optimal, SpatialProblem, IsWalk, IsRoute;
    var PA, PD := SpatialProblem(f, start, goal, MANHATTAN), SpatialProblem(f, start, goal, ZERO);
    var a, d := SearchFrom(f, start, goal, MANHATTAN), SearchFrom(f, start, goal, ZERO);
    SearchIsShortest(f, start, goal, MANHATTAN);
    SearchIsShortest(f, start, goal, ZERO);
    ProblemAt(f, start, goal, MANHATTAN, c);
    ProblemAt(f, start, goal, MANHATTAN, goal);
    ProblemAt(f, start, goal, ZERO, c);
    ProblemAt(f, start, goal, ZERO, goal);
    var p := Trail(PA, a.search, c);
    WalksAreRoutes(f, start, goal, MANHATTAN, p);
    WalksAreRoutes(f, start, goal, ZERO, p);
    assert IsWalk(PD, p) && Last(p) == c;
    if d.Reached? && c != goal {
      // c is strictly nearer than the goal, because Manhattan distance is at least 1 off it
      assert a.search.best[c] + PA.h(c) <= a.search.best[goal] + PA.h(goal);
      assert PA.h(c) >= 1 && PA.h(goal) == 0;
      assert |Trail(PA, a.search, goal)| == |Trail(PD, d.search, goal)|;
    }
  }
}
