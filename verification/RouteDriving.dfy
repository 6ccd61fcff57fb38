/** From a planner's answer to one robot driving it. */
module RouteDriving {
  import opened Floors
  import opened SpatialPlanning
  import opened Simulation
  import opened Names
  import Execution

  // ---------- Checking a planner's answer ----------

  datatype PathProblem =
    | EmptyPath | StartsElsewhere | EndsElsewhere | CellOffFloor(i: nat) | CellBlocked(i: nat)
    | NotOneStep(i: nat) | CellTwice | WrongCost
    | PathOfFailure | CostOfFailure | UnexplainedFailure

  /** An answer as it is handed to the checker, field by field; nothing stops a
      planner from filling it in inconsistently. */
  datatype PathRecord = PathRecord(start: Position, goal: Position, success: bool, path: seq<Position>,
          totalCost: Option<int>, reason: Option<Reason>)

  function RecordOf(r: PathResult): PathRecord {
    if r.Found? then PathRecord(r.start, r.goal, true, r.path, Some(r.totalCost), None)
    else PathRecord(r.start, r.goal, false, [], None, Some(r.reason))
  }

  ghost predicate Walkable(f: Floor, p: seq<Position>) {
    forall i | 0 <= i < |p| :: f.Traversable(p[i])
  }

  ghost predicate StepByStep(p: seq<Position>) {
    forall i | 0 <= i < |p| - 1 :: Adjacent(p[i], p[i + 1])
  }

  /** A successful answer is a simple route over free cells from start to goal,
      and it costs as many moves as it says; an unsuccessful one has neither path
      nor cost, and a reason. */
  ghost predicate PathOk(r: PathRecord, f: Floor) {
    if r.success then
      && r.path != [] && r.path[0] == r.start && r.path[|r.path| - 1] == r.goal
      && Walkable(f, r.path) && StepByStep(r.path) && Distinct(r.path)
      && r.totalCost == Some(|r.path| - 1)
    else r.path == [] && r.totalCost.None? && r.reason.Some?
  }

  function Cells(p: seq<Position>): set<Position> {
    set c | c in p
  }

  lemma {:induction false} DistinctByCount(p: seq<Position>)
    ensures |Cells(p)| <= |p|
    ensures |Cells(p)| == |p| <==> Distinct(p)
  {
    if p != [] {
      var n := |p| - 1;
      DistinctByCount(p[..n]);
      assert p == p[..n] + [p[n]];
      assert Cells(p) == Cells(p[..n]) + {p[n]};
      if p[n] in p[..n] {
        var i :| 0 <= i < n && p[i] == p[n];
        assert !Distinct(p);
      } else {
        assert Distinct(p) <==> Distinct(p[..n]);
      }
    }
  }

  /** What each problem says of the record. */
  ghost predicate PathFault(r: PathRecord, f: Floor, p: PathProblem) {
    match p
    case PathOfFailure => !r.success && r.path != []
    case CostOfFailure => !r.success && r.totalCost.Some?
    case UnexplainedFailure => !r.success && r.reason.None?
    case EmptyPath => r.success && r.path == []
    case StartsElsewhere => r.success && r.path != [] && r.path[0] != r.start
    case EndsElsewhere => r.success && r.path != [] && r.path[|r.path| - 1] != r.goal
    case CellOffFloor(i) => r.success && i < |r.path| && !f.InBounds(r.path[i])
    case CellBlocked(i) => r.success && i < |r.path| && f.InBounds(r.path[i]) && !f.Traversable(r.path[i])
    case NotOneStep(i) => r.success && i + 1 < |r.path| && !Adjacent(r.path[i], r.path[i + 1])
    case CellTwice => r.success && !Distinct(r.path)
    case WrongCost => r.success && r.path != [] && r.totalCost != Some(|r.path| - 1)
  }

  /** The checker is exact: it lists just the problems there are. */
  method FindPathProblems(r: PathRecord, f: Floor) returns (problems: seq<PathProblem>)
    ensures problems == [] <==> PathOk(r, f)
    ensures forall p :: p in problems <==> PathFault(r, f, p)
  {
    hide Distinct;
    NothingTwice();
    problems := [];
    if !r.success {
      if r.path != [] {
        problems := problems + [PathOfFailure];
      }
      if r.totalCost.Some? {
        problems := problems + [CostOfFailure];
      }
      if r.reason.None? {
        problems := problems + [UnexplainedFailure];
      }
      return;
    }
    if r.path == [] {
      return [EmptyPath];
    }
    problems := RouteFaults(r, f);
  }

  /** The problems of a successful answer with a path. */
  method RouteFaults(r: PathRecord, f: Floor) returns (problems: seq<PathProblem>)
    requires r.success && r.path != []
    ensures problems == [] <==> PathOk(r, f)
    ensures forall p :: p in problems <==> PathFault(r, f, p)
  {
    hide Distinct, Walkable, StepByStep;
    problems := if r.path[0] != r.start then [StartsElsewhere] else [];
    if r.path[|r.path| - 1] != r.goal {
      problems := problems + [EndsElsewhere];
    }
    var cells := CellProblems(r.path, f);
    var steps := StepProblems(r.path);
    problems := problems + cells + steps;
    DistinctByCount(r.path);
    if |Cells(r.path)| != |r.path| {
      problems := problems + [CellTwice];
    }
    if r.totalCost != Some(|r.path| - 1) {
      problems := problems + [WrongCost];
    }
  }

  lemma NothingTwice()
    ensures Distinct<Position>([])
  {
  }

  method CellProblems(p: seq<Position>, f: Floor) returns (problems: seq<PathProblem>)
    ensures problems == [] <==> Walkable(f, p)
    ensures forall q :: q in problems <==>
              || (q.CellOffFloor? && q.i < |p| && !f.InBounds(p[q.i]))
              || (q.CellBlocked? && q.i < |p| && f.InBounds(p[q.i]) && !f.Traversable(p[q.i]))
  {
    problems := [];
    for k := 0 to |p|
      invariant forall q :: q in problems <==>
                || (q.CellOffFloor? && q.i < k && !f.InBounds(p[q.i]))
                || (q.CellBlocked? && q.i < k && f.InBounds(p[q.i]) && !f.Traversable(p[q.i]))
      invariant problems == [] <==> forall i | 0 <= i < k :: f.Traversable(p[i])
    {
      if !f.InBounds(p[k]) {
        problems := problems + [PathProblem.CellOffFloor(k)];
      } else if !f.Traversable(p[k]) {
        problems := problems + [PathProblem.CellBlocked(k)];
      }
    }
  }

  method StepProblems(p: seq<Position>) returns (problems: seq<PathProblem>)
    requires p != []
    ensures problems == [] <==> StepByStep(p)
    ensures forall q :: q in problems <==> q.NotOneStep? && q.i + 1 < |p| && !Adjacent(p[q.i], p[q.i + 1])
  {
    problems := [];
    for k := 0 to |p| - 1
      invariant forall q :: q in problems <==> q.NotOneStep? && q.i < k && !Adjacent(p[q.i], p[q.i + 1])
      invariant problems == [] <==> forall i | 0 <= i < k :: Adjacent(p[i], p[i + 1])
    {
      if !Adjacent(p[k], p[k + 1]) {
        problems := problems + [NotOneStep(k)];
      }
    }
  }

  // ---------- Every planner's answer passes ----------

  /** A route that visits a cell twice can be cut short. */
  lemma CutShort(f: Floor, p: seq<Position>, a: Position, b: Position, i: nat, j: nat)
    requires IsRoute(f, p, a, b) && i < j < |p| && p[i] == p[j]
    ensures IsRoute(f, p[..i] + p[j..], a, b) && |p[..i] + p[j..]| < |p|
  {
    var q := p[..i] + p[j..];
    forall k | 0 <= k < |q| - 1
      ensures Adjacent(q[k], q[k + 1])
    {
      if k + 1 < i {
        assert Adjacent(p[k], p[k + 1]);
      } else if k + 1 == i {
        assert q[k] == p[k] && q[k + 1] == p[j] == p[i];
        assert Adjacent(p[k], p[k + 1]);
      } else {
        assert q[k] == p[k - i + j] && q[k + 1] == p[k - i + j + 1];
        assert Adjacent(p[k - i + j], p[k - i + j + 1]);
      }
    }
  }

  /** A shortest route visits no cell twice. */
  lemma ShortestIsSimple(f: Floor, p: seq<Position>, a: Position, b: Position)
    requires IsShortest(f, p, a, b)
    ensures Distinct(p)
  {
    forall i, j | 0 <= i < j < |p|
      ensures p[i] != p[j]
    {
      if p[i] == p[j] {
        CutShort(f, p, a, b, i, j);
      }
    }
  }

  lemma AnswerNamesRequest(f: Floor, start: Position, goal: Position, h: Heuristic)
    requires f.InBounds(start) && f.InBounds(goal)
    ensures Answer(f, start, goal, h).Ok?
    ensures Answer(f, start, goal, h).value.start == start && Answer(f, start, goal, h).value.goal == goal
  {
  }

  /** Every answer of a planner, with any consistent heuristic, passes the check. */
  lemma AnswersPassCheck(f: Floor, start: Position, goal: Position, h: Heuristic)
    requires f.InBounds(start) && f.InBounds(goal)
    ensures Answer(f, start, goal, h).Ok? && PathOk(RecordOf(Answer(f, start, goal, h).value), f)
  {
    hide Answer, Distinct;
    AnswerIsShortest(f, start, goal, h);
    AnswerNamesRequest(f, start, goal, h);
    var r := Answer(f, start, goal, h).value;
    if r.Found? {
      ShortestIsSimple(f, r.path, start, goal);
    }
  }

  // ---------- Driving a route ----------

  datatype Route = OfPlanner(result: PathResult) | OfCells(path: seq<Position>)

  datatype Rejection = NoRouteFound | RouteEmpty | RouteNotWalkable | RouteRepeatsCell | RobotIsOffline | RobotElsewhere

  function RoutePath(route: Route): seq<Position> {
    if route.OfCells? then route.path else if route.result.Found? then route.result.path else []
  }

  /** Which routes can be driven at all. */
  ghost predicate Drivable(route: Route) {
    && (route.OfPlanner? ==> route.result.Found?)
    && RoutePath(route) != [] && StepByStep(RoutePath(route)) && Distinct(RoutePath(route))
  }

  method ResolvePath(route: Route) returns (path: seq<Position>, rejection: Option<Rejection>)
    ensures rejection.None? <==> Drivable(route)
    ensures rejection.None? ==> path == RoutePath(route)
  {
    hide Distinct;
    path := RoutePath(route);
    if route.OfPlanner? && route.result.NotFound? {
      return [], Some(NoRouteFound);
    }
    if path == [] {
      return [], Some(RouteEmpty);
    }
    for k := 0 to |path| - 1
      invariant forall i | 0 <= i < k :: Adjacent(path[i], path[i + 1])
    {
      if !Adjacent(path[k], path[k + 1]) {
        return [], Some(RouteNotWalkable);
      }
    }
    DistinctByCount(path);
    if |Cells(path)| != |path| {
      return [], Some(RouteRepeatsCell);
    }
    return path, None;
  }

  method Preflight(robot: Robot, path: seq<Position>) returns (rejection: Option<Rejection>)
    requires path != []
    ensures rejection.None? <==> robot.status != Offline && path[0] == robot.position
  {
    if robot.status == Offline {
      return Some(RobotIsOffline);
    }
    return if path[0] != robot.position then Some(RobotElsewhere) else None;
  }

  /** The robot after `k` steps of a route. */
  ghost function After(r: RobotView, path: seq<Position>, k: nat): RobotView
    requires k < |path|
  {
    if k == 0 then r else After(r, path, k - 1).MovedTo(path[k])
  }

  ghost function FleetAfter(fleet: Fleet, id: string, path: seq<Position>, k: nat): Fleet
    requires id in fleet && k < |path|
  {
    fleet[id := After(fleet[id], path, k)]
  }

  datatype DriveResult =
    | UnknownRobot
    | Rejected(why: Rejection)
    | Drove(planned: nat, executed: nat, completedPath: seq<Position>, distance: int, batteryBefore: real,
        batteryAfter: real, refused: Option<SimError>)
  {
    predicate Success() {
      Drove? && refused.None?
    }
  }

  /** What a drive leaves behind: the first `executed` steps and nothing else; a
      drive that ends early was refused its next step. */
  ghost predicate DroveRoute(fleet: Fleet, floor: Floor, fleet': Fleet, id: string, path: seq<Position>,
          r: DriveResult)
  {
    && id in fleet && r.Drove? && path != []
    && r.planned == |path| - 1 && r.executed <= r.planned
    && fleet' == FleetAfter(fleet, id, path, r.executed)
    && r.completedPath == path[..r.executed + 1]
    && r.distance == r.executed && r.batteryBefore == fleet[id].battery
    && r.batteryAfter == fleet[id].battery - Execution.Spent(fleet[id].drain, r.executed)
    && (r.refused.None? ==> r.executed == r.planned)
    && (r.refused.Some? ==> r.executed < r.planned && !MoveIsLegal(fleet', floor, id, path[r.executed + 1]))
  }

  lemma {:induction false} AfterSteps(r: RobotView, path: seq<Position>, k: nat)
    requires k < |path| && r.position == path[0]
    ensures var a := After(r, path, k);
            && a.position == path[k] && a.distance == r.distance + k && a.steps == r.steps + k && a.drain == r.drain
            && a.battery == r.battery - Execution.Spent(r.drain, k) && (r.status != Offline ==> a.status != Offline)
  {
    if k > 0 {
      AfterSteps(r, path, k - 1);
    }
  }

  class RouteExecutor {
    const sim: Simulator

    constructor (sim: Simulator)
      ensures this.sim == sim
    {
      this.sim := sim;
    }

    /** Drive one robot along a route, cell by cell, until it arrives or a step
        is refused. A route that is rejected moves nothing. */
    method Execute(id: string, route: Route) returns (r: DriveResult)
      requires sim.Valid()
      modifies sim.robots.Values
      ensures sim.Valid() && sim.robots == old(sim.robots)
      ensures r.UnknownRobot? <==> id !in sim.robots
      ensures id in sim.robots ==>
                (r.Rejected? <==>
                    !(Drivable(route) && old(sim.robots[id].status) != Offline
                    && RoutePath(route)[0] == old(sim.robots[id].position)))
      ensures !r.Drove? ==> sim.FleetView() == old(sim.FleetView())
      ensures r.Drove? ==> DroveRoute(old(sim.FleetView()), sim.warehouse.ObstacleMap(), sim.FleetView(), id,
               RoutePath(route), r)
    {
      hide Simulator.Valid, Simulator.FleetView, DroveRoute, Drivable, RoutePath, Distinct;
      if id !in sim.robots {
        return DriveResult.UnknownRobot;
      }
      var path, rejection := ResolvePath(route);
      if rejection.Some? {
        return Rejected(rejection.value);
      }
      DrivablePath(route);
      rejection := Preflight(sim.robots[id], path);
      if rejection.Some? {
        return Rejected(rejection.value);
      }
      r := Walk(id, path);
    }

    method Walk(id: string, path: seq<Position>) returns (r: DriveResult)
      requires sim.Valid() && id in sim.robots && path != [] && path[0] == sim.robots[id].position
      modifies sim.robots.Values
      ensures sim.Valid() && sim.robots == old(sim.robots) && r.Drove?
      ensures DroveRoute(old(sim.FleetView()), sim.warehouse.ObstacleMap(), sim.FleetView(), id, path, r)
    {
      hide Simulator.Valid, Simulator.FleetView, MoveIsLegal, Warehouse.ObstacleMap, FleetAfter;
      ghost var fleet, floor := sim.FleetView(), sim.warehouse.ObstacleMap();
      sim.Entries();
      NoStepsYet(fleet, id, path);
      var batteryBefore, odometer := sim.robots[id].battery, sim.robots[id].distance;
      var completed := [path[0]];
      var k := 0;
      while k < |path| - 1
        invariant k < |path| && completed == path[..k + 1]
        invariant sim.Valid() && sim.robots == old(sim.robots) && sim.warehouse.ObstacleMap() == floor
        invariant sim.FleetView() == FleetAfter(fleet, id, path, k)
      {
        var refused, here := Step(id, path, k, fleet);
        if refused.Some? {
          r := Report(id, path, k, completed, batteryBefore, odometer, refused, fleet);
          return;
        }
        completed := completed + [here];
        k := k + 1;
      }
      r := Report(id, path, k, completed, batteryBefore, odometer, None, fleet);
    }

    /** One cell further, if the simulator allows it. */
    method Step(id: string, path: seq<Position>, k: nat, ghost fleet: Fleet)
      returns (refused: Option<SimError>, here: Position)
      requires sim.Valid() && id in sim.robots && k + 1 < |path| && id in fleet && fleet[id].position == path[0]
      requires sim.FleetView() == FleetAfter(fleet, id, path, k)
      modifies sim.robots.Values
      ensures sim.Valid() && sim.robots == old(sim.robots)
               && sim.warehouse.ObstacleMap() == old(sim.warehouse.ObstacleMap())
      ensures refused.None? ==> sim.FleetView() == FleetAfter(fleet, id, path, k + 1) && here == path[k + 1]
      ensures refused.Some? ==>
               sim.FleetView() == old(sim.FleetView())
               && !MoveIsLegal(sim.FleetView(), sim.warehouse.ObstacleMap(), id, path[k + 1])
    {
      hide Simulator.Valid, Simulator.FleetView, MoveIsLegal, Warehouse.ObstacleMap;
      refused := sim.MoveRobot(id, path[k + 1]);
      sim.Entries();
      if refused.None? {
        AfterSteps(fleet[id], path, k + 1);
      }
      here := sim.robots[id].position;
    }

    method Report(id: string, path: seq<Position>, k: nat, completed: seq<Position>, batteryBefore: real, odometer: nat,
            refused: Option<SimError>, ghost fleet: Fleet)
      returns (r: DriveResult)
      requires sim.Valid() && id in sim.robots && k < |path| && id in fleet && fleet[id].position == path[0]
      requires batteryBefore == fleet[id].battery && odometer == fleet[id].distance
      requires sim.FleetView() == FleetAfter(fleet, id, path, k)
      ensures r.Drove? && r.planned == |path| - 1 && r.executed == k && r.completedPath == completed
               && r.refused == refused
      ensures r.distance == k && r.batteryBefore == fleet[id].battery
               && r.batteryAfter == fleet[id].battery - Execution.Spent(fleet[id].drain, k)
    {
      hide Simulator.Valid, Simulator.FleetView;
      sim.Entries();
      AfterSteps(fleet[id], path, k);
      r := Drove(|path| - 1, k, completed, sim.robots[id].distance - odometer, batteryBefore, sim.robots[id].battery,
          refused);
    }
  }

  lemma NoStepsYet(fleet: Fleet, id: string, path: seq<Position>)
    requires id in fleet && path != []
    ensures FleetAfter(fleet, id, path, 0) == fleet
  {
  }

  lemma DrivablePath(route: Route)
    requires Drivable(route)
    ensures RoutePath(route) != []
  {
  }

  // ---------- A planned route is driven to the end ----------

  ghost predicate NobodyElseOn(fleet: Fleet, id: string, path: seq<Position>) {
    forall r | r in fleet && r != id :: fleet[r].position !in path
  }

  /** With the route free, nobody else on it and charge for all of it, the next
      step is always legal. */
  lemma NextStepLegal(fleet: Fleet, floor: Floor, id: string, path: seq<Position>, k: nat)
    requires id in fleet && k + 1 < |path| && fleet[id].position == path[0] && fleet[id].status != Offline
    requires Walkable(floor, path) && StepByStep(path) && Distinct(path) && NobodyElseOn(fleet, id, path)
    requires fleet[id].drain >= 0.0 && fleet[id].battery >= Execution.Spent(fleet[id].drain, |path| - 1)
    ensures MoveIsLegal(FleetAfter(fleet, id, path, k), floor, id, path[k + 1])
  {
    AfterSteps(fleet[id], path, k);
    Execution.SpentGrows(fleet[id].drain, k + 1, |path| - 1);
    assert path[k] != path[k + 1];
    assert path[k + 1] in path;
  }

  /** From planner to driver: a successful answer passes the checker and is
      accepted; on an unchanged floor, with nobody else on it and enough charge,
      the robot arrives after exactly as many moves as the answer promised. */
  lemma PlannedRouteIsDriven(floor: Floor, start: Position, goal: Position, h: Heuristic, fleet: Fleet, fleet': Fleet,
          id: string, r: DriveResult)
    requires floor.InBounds(start) && floor.InBounds(goal) && Answer(floor, start, goal, h).value.Found?
    requires id in fleet && fleet[id].position == start && fleet[id].drain >= 0.0
    requires var a := Answer(floor, start, goal, h).value;
             && fleet[id].status != Offline && NobodyElseOn(fleet, id, a.path) && a.path != []
             && fleet[id].battery >= Execution.Spent(fleet[id].drain, |a.path| - 1)
             && DroveRoute(fleet, floor, fleet', id, a.path, r)
    ensures var a := Answer(floor, start, goal, h).value;
            && Drivable(OfPlanner(a))
            && r.Success() && r.executed == a.totalCost && r.distance == a.totalCost && r.completedPath == a.path
            && id in fleet' && fleet'[id].position == goal
            && r.batteryAfter == r.batteryBefore - fleet[id].drain * (a.totalCost as real)
  {
    hide Answer, Distinct, NobodyElseOn, MoveIsLegal, FleetAfter, Execution.Spent;
    AnswersPassCheck(floor, start, goal, h);
    AnswerNamesRequest(floor, start, goal, h);
    var a := Answer(floor, start, goal, h).value;
    if r.refused.Some? {
      NextStepLegal(fleet, floor, id, a.path, r.executed);
    }
    Arrives(fleet, fleet', id, a.path, r.executed);
    Execution.SpentIsProduct(fleet[id].drain, r.executed);
  }

  lemma Arrives(fleet: Fleet, fleet': Fleet, id: string, path: seq<Position>, k: nat)
    requires id in fleet && k < |path| && fleet[id].position == path[0] && fleet' == FleetAfter(fleet, id, path, k)
    ensures id in fleet' && fleet'[id].position == path[k]
  {
    AfterSteps(fleet[id], path, k);
  }

  /** In every drive the driven cells are a prefix of the route, and the distance
      and the charge used are those of exactly that many moves. */
  lemma DriveIsPrefix(fleet: Fleet, floor: Floor, fleet': Fleet, id: string, path: seq<Position>, r: DriveResult)
    requires DroveRoute(fleet, floor, fleet', id, path, r) && fleet[id].position == path[0]
    ensures r.completedPath <= path && |r.completedPath| == r.distance + 1
    ensures id in fleet' && fleet'[id].position == r.completedPath[|r.completedPath| - 1]
    ensures fleet'[id].distance == fleet[id].distance + r.distance && fleet'[id].battery == r.batteryAfter
    ensures r.batteryBefore - r.batteryAfter == fleet[id].drain * (r.distance as real)
    ensures forall other | other in fleet && other != id :: other in fleet' && fleet'[other] == fleet[other]
  {
    AfterSteps(fleet[id], path, r.executed);
    Execution.SpentIsProduct(fleet[id].drain, r.executed);
  }
}
