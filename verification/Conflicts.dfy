/** The independent check of a finished plan. It knows nothing about
    reservations: it replays the routes against each other. */
module Conflicts {
  import opened Floors
  import opened TimedPaths
  import opened Names

  datatype Problem =
    | NoSteps(robot: string)
    | WrongStart(robot: string)
    | BadTimestep(robot: string, step: nat)
    | OutsideFloor(robot: string, step: nat)
    | BlockedCell(robot: string, step: nat)
    | IllegalTransition(robot: string, step: nat)
    | VertexConflict(cell: Position, t: int, first: string, second: string)
    | SwapConflict(a: Position, b: Position, t: int, first: string, second: string)
    | GoalOccupied(intruder: string, owner: string, t: int)

  /** The problems found, or an index error raised while looking. */
  datatype Report = Problems(list: seq<Problem>) | Crashed

  datatype Route = Route(id: string, steps: seq<TimedStep>)

  // ---------- Reference meaning ----------

  ghost predicate RouteOk(r: Route, f: Floor, expected: map<string, Position>, checkObstacles: bool) {
    && r.steps != []
    && (r.id in expected ==> r.steps[0].position == expected[r.id])
    && WellTimed(r.steps)
    && (forall i | 0 <= i < |r.steps| :: CellOk(r.steps[i].position, f, checkObstacles))
    && Stepwise(r.steps)
  }

  predicate CellOk(cell: Position, f: Floor, checkObstacles: bool) {
    f.InBounds(cell) && (checkObstacles ==> f.Traversable(cell))
  }

  /** At no time whatever do two robots share a cell or trade cells. */
  ghost predicate NeverMeet(a: seq<TimedStep>, b: seq<TimedStep>)
    requires WellTimed(a) && WellTimed(b)
  {
    forall t: int :: NoMeeting(a, b, t) && NoSwap(a, b, t)
  }

  /** A plan is safe when every route is sound and no two ever conflict. */
  ghost predicate PlanIsSafe(routes: seq<Route>, f: Floor, expected: map<string, Position>, checkObstacles: bool) {
    && (forall r | r in routes :: RouteOk(r, f, expected, checkObstacles))
    && NoneEverMeet(routes)
  }

  ghost predicate NoneEverMeet(routes: seq<Route>) {
    forall i, j | 0 <= i < j < |routes| :: NeverConflict(routes[i], routes[j])
  }

  ghost predicate NeverConflict(a: Route, b: Route) {
    WellTimed(a.steps) && WellTimed(b.steps) && NeverMeet(a.steps, b.steps)
  }

  ghost predicate DistinctIds(routes: seq<Route>) {
    forall i, j | 0 <= i < j < |routes| :: routes[i].id != routes[j].id
  }

  lemma IdsDiffer(routes: seq<Route>, i: nat, j: nat)
    requires DistinctIds(routes) && i < j < |routes|
    ensures routes[i].id != routes[j].id
  {
  }

  function Routes(paths: seq<TimedPath>): seq<Route> {
    if paths == [] then []
    else
      var last := paths[|paths| - 1];
      Routes(paths[..|paths| - 1]) + if last.Planned? then [Route(last.robotId, last.steps)] else []
  }

  // ---------- What a listed problem says ----------

  /** The problem names something that is wrong with the route by itself. */
  ghost predicate RouteFault(r: Route, f: Floor, expected: map<string, Position>, checkObstacles: bool, p: Problem) {
    if r.steps == [] then p == NoSteps(r.id)
    else
      || (p == WrongStart(r.id) && r.id in expected && r.steps[0].position != expected[r.id])
      || (p.BadTimestep? && p.robot == r.id && p.step < |r.steps|
          && r.steps[p.step].timestep != r.steps[0].timestep + p.step)
      || CellFault(r, f, checkObstacles, p)
      || (p.IllegalTransition? && p.robot == r.id && p.step + 1 < |r.steps|
          && Manhattan(r.steps[p.step].position, r.steps[p.step + 1].position) > 1)
  }

  ghost predicate CellFault(r: Route, f: Floor, checkObstacles: bool, p: Problem) {
    || (p.OutsideFloor? && p.robot == r.id && p.step < |r.steps| && !f.InBounds(r.steps[p.step].position))
    || (p.BlockedCell? && p.robot == r.id && p.step < |r.steps| && f.InBounds(r.steps[p.step].position)
        && checkObstacles && !f.Traversable(r.steps[p.step].position))
  }

  /** Two robots on one cell, as named. */
  ghost predicate Meeting(routes: seq<Route>, p: Problem) {
    p.VertexConflict? && exists i, j ::
      && 0 <= i < j < |routes| && routes[i].id == p.first && routes[j].id == p.second
      && Spot(routes[i], p.t) == Cell(p.cell) && Spot(routes[j], p.t) == Cell(p.cell)
  }

  /** Two robots trading cells, as named, the earlier name first. */
  ghost predicate Trading(routes: seq<Route>, p: Problem) {
    p.SwapConflict? && Before(p.first, p.second) && exists i, j ::
      && 0 <= i < |routes| && 0 <= j < |routes| && routes[i].id == p.first && routes[j].id == p.second
      && MovesAt(routes[i], p.t, (p.a, p.b)) && MovesAt(routes[j], p.t, (p.b, p.a))
  }

  /** One robot on the goal of another that has arrived, as named. */
  ghost predicate Intruding(other: Route, owner: Route, p: Problem) {
    && p.GoalOccupied? && p.intruder == other.id && p.owner == owner.id && other.id != owner.id
    && owner.steps != [] && ArrivalTime(owner.steps) <= p.t && Spot(other, p.t) == Cell(Goal(owner.steps))
  }

  ghost predicate SomebodyIntrudes(routes: seq<Route>, p: Problem) {
    exists other, owner :: other in routes && owner in routes && Intruding(other, owner, p)
  }

  ghost predicate RouteIsAtFault(routes: seq<Route>, f: Floor, expected: map<string, Position>, checkObstacles: bool,
          p: Problem)
  {
    exists r :: r in routes && RouteFault(r, f, expected, checkObstacles, p)
  }

  ghost predicate IsTrue(routes: seq<Route>, f: Floor, expected: map<string, Position>, checkObstacles: bool,
          p: Problem)
  {
    || RouteIsAtFault(routes, f, expected, checkObstacles, p)
    || Meeting(routes, p) || Trading(routes, p) || SomebodyIntrudes(routes, p)
  }

  // ---------- One route ----------

  method RouteProblems(r: Route, f: Floor, expected: map<string, Position>, checkObstacles: bool)
    returns (problems: seq<Problem>)
    ensures problems == [] <==> RouteOk(r, f, expected, checkObstacles)
    ensures forall p :: p in problems <==> RouteFault(r, f, expected, checkObstacles, p)
  {
    if r.steps == [] {
      return [NoSteps(r.id)];
    }
    problems := [];
    if r.id in expected && r.steps[0].position != expected[r.id] {
      problems := [WrongStart(r.id)];
    }
    var times := TimestepProblems(r);
    var cells := CellProblems(r, f, checkObstacles);
    var transitions := TransitionProblems(r);
    problems := problems + times + cells + transitions;
  }

  method TimestepProblems(r: Route) returns (problems: seq<Problem>)
    requires r.steps != []
    ensures problems == [] <==> WellTimed(r.steps)
    ensures forall p :: p in problems <==>
              p.BadTimestep? && p.robot == r.id && p.step < |r.steps|
              && r.steps[p.step].timestep != r.steps[0].timestep + p.step
  {
    problems := [];
    for i := 0 to |r.steps|
      invariant forall p :: p in problems <==>
                p.BadTimestep? && p.robot == r.id && p.step < i
                && r.steps[p.step].timestep != r.steps[0].timestep + p.step
      invariant problems == [] <==> forall k | 0 <= k < i :: r.steps[k].timestep == r.steps[0].timestep + k
    {
      if r.steps[i].timestep != r.steps[0].timestep + i {
        problems := problems + [BadTimestep(r.id, i)];
      }
    }
  }

  method CellProblems(r: Route, f: Floor, checkObstacles: bool) returns (problems: seq<Problem>)
    ensures problems == [] <==> forall i | 0 <= i < |r.steps| :: CellOk(r.steps[i].position, f, checkObstacles)
    ensures forall p :: p in problems <==> CellFault(r, f, checkObstacles, p)
  {
    problems := [];
    for i := 0 to |r.steps|
      invariant forall p :: p in problems <==>
                CellFault(r, f, checkObstacles, p) && (p.OutsideFloor? || p.BlockedCell?) && p.step < i
      invariant problems == [] <==> forall k | 0 <= k < i :: CellOk(r.steps[k].position, f, checkObstacles)
    {
      if !f.InBounds(r.steps[i].position) {
        problems := problems + [OutsideFloor(r.id, i)];
      } else if checkObstacles && !f.Traversable(r.steps[i].position) {
        problems := problems + [BlockedCell(r.id, i)];
      }
    }
  }

  method TransitionProblems(r: Route) returns (problems: seq<Problem>)
    requires r.steps != []
    ensures problems == [] <==> Stepwise(r.steps)
    ensures forall p :: p in problems <==>
              p.IllegalTransition? && p.robot == r.id && p.step + 1 < |r.steps|
              && Manhattan(r.steps[p.step].position, r.steps[p.step + 1].position) > 1
  {
    problems := [];
    for i := 0 to |r.steps| - 1
      invariant forall p :: p in problems <==>
                p.IllegalTransition? && p.robot == r.id && p.step < i
                && Manhattan(r.steps[p.step].position, r.steps[p.step + 1].position) > 1
      invariant problems == [] <==> forall k | 0 <= k < i ::
                Manhattan(r.steps[k].position, r.steps[k + 1].position) <= 1
    {
      var gap := Manhattan(r.steps[i].position, r.steps[i + 1].position);
      if gap != 0 && gap != 1 {
        problems := problems + [IllegalTransition(r.id, i)];
      }
    }
  }

  // ---------- Two robots on one cell ----------

  function Spot(r: Route, t: int): Lookup {
    PositionAt(r.steps, t)
  }

  ghost predicate NoneCrashAt(routes: seq<Route>, t: int) {
    forall r | r in routes :: Spot(r, t) != IndexError
  }

  ghost predicate AllApartAt(routes: seq<Route>, t: int) {
    forall i, j | 0 <= i < j < |routes| && Spot(routes[i], t).Cell? :: Spot(routes[i], t) != Spot(routes[j], t)
  }

  ghost predicate SeenBy(routes: seq<Route>, k: nat, t: int, seen: map<Position, string>)
    requires k <= |routes|
  {
    && (forall cell | cell in seen :: exists i ::
          0 <= i < k && Spot(routes[i], t) == Cell(cell) && seen[cell] == routes[i].id)
    && (forall i | 0 <= i < k && Spot(routes[i], t).Cell? :: Spot(routes[i], t).position in seen)
  }

  lemma NothingSeen(routes: seq<Route>, t: int)
    ensures SeenBy(routes, 0, t, map[]) && AllApartAt(routes[..0], t)
  {
  }

  lemma SeenOneMore(routes: seq<Route>, k: nat, t: int, seen: map<Position, string>)
    requires k < |routes| && SeenBy(routes, k, t, seen)
    ensures var spot := Spot(routes[k], t);
            && SeenBy(routes, k + 1, t, if spot.Cell? && spot.position !in seen then seen[spot.position := routes[k].id]
                else seen)
            && (AllApartAt(routes[..k + 1], t) <==>
                AllApartAt(routes[..k], t) && (spot.Cell? ==> spot.position !in seen))
  {
    ApartOneMore(routes, k, t);
  }

  lemma SeenMeets(routes: seq<Route>, k: nat, t: int, seen: map<Position, string>)
    requires k < |routes| && SeenBy(routes, k, t, seen)
    requires Spot(routes[k], t).Cell? && Spot(routes[k], t).position in seen
    ensures var cell := Spot(routes[k], t).position;
            Meeting(routes, VertexConflict(cell, t, seen[cell], routes[k].id))
  {
  }

  method VertexProblemsAt(routes: seq<Route>, t: int) returns (report: Report)
    ensures report.Crashed? <==> !NoneCrashAt(routes, t)
    ensures report.Problems? ==> (report.list == [] <==> AllApartAt(routes, t))
    ensures report.Problems? ==> forall p | p in report.list :: Meeting(routes, p)
  {
    hide AllApartAt, SeenBy, Meeting;
    assert SeenBy(routes, 0, t, map[]) && AllApartAt(routes[..0], t) by {
      NothingSeen(routes, t);
    }
    var problems := [];
    var seen: map<Position, string> := map[];
    for k := 0 to |routes|
      invariant NoneCrashAt(routes[..k], t)
      invariant SeenBy(routes, k, t, seen)
      invariant problems == [] <==> AllApartAt(routes[..k], t)
      invariant forall p | p in problems :: Meeting(routes, p)
    {
      assert routes[..k + 1] == routes[..k] + [routes[k]];
      var spot := PositionAt(routes[k].steps, t);
      if spot.IndexError? {
        assert Spot(routes[k], t) == IndexError;
        return Crashed;
      }
      SeenOneMore(routes, k, t, seen);
      if spot.Cell? {
        if spot.position in seen {
          SeenMeets(routes, k, t, seen);
          problems := problems + [VertexConflict(spot.position, t, seen[spot.position], routes[k].id)];
        } else {
          seen := seen[spot.position := routes[k].id];
        }
      }
    }
    assert routes[..|routes|] == routes;
    return Problems(problems);
  }

  lemma ApartOneMore(routes: seq<Route>, k: nat, t: int)
    requires k < |routes|
    ensures AllApartAt(routes[..k + 1], t) <==>
              AllApartAt(routes[..k], t) && forall i | 0 <= i < k && Spot(routes[k], t).Cell? ::
                  Spot(routes[i], t) != Spot(routes[k], t)
  {
  }

  method VertexProblems(routes: seq<Route>, lo: int, hi: int) returns (report: Report)
    ensures report.Crashed? <==> exists t :: lo <= t <= hi && !NoneCrashAt(routes, t)
    ensures report.Problems? ==> (report.list == [] <==> forall t | lo <= t <= hi :: AllApartAt(routes, t))
    ensures report.Problems? ==> forall p | p in report.list :: Meeting(routes, p)
  {
    hide NoneCrashAt, AllApartAt, Meeting;
    var problems := [];
    var t := lo;
    while t <= hi
      invariant lo <= t
      invariant forall u | lo <= u < t && u <= hi :: NoneCrashAt(routes, u)
      invariant problems == [] <==> forall u | lo <= u < t && u <= hi :: AllApartAt(routes, u)
      invariant forall p | p in problems :: Meeting(routes, p)
      decreases hi - t
    {
      var atT := VertexProblemsAt(routes, t);
      if atT.Crashed? {
        return Crashed;
      }
      problems := problems + atT.list;
      t := t + 1;
    }
    return Problems(problems);
  }

  // ---------- Two robots trading cells ----------

  type Edge = (Position, Position)

  ghost predicate MovesAt(r: Route, t: int, e: Edge) {
    Spot(r, t) == Cell(e.0) && Spot(r, t + 1) == Cell(e.1) && e.0 != e.1
  }

  ghost predicate NoTrade(moves: map<Edge, string>) {
    forall e | e in moves && (e.1, e.0) in moves :: moves[e] == moves[(e.1, e.0)]
  }

  function AddMove(moves: map<Edge, string>, r: Route, t: int): map<Edge, string> {
    var a, b := Spot(r, t), Spot(r, t + 1);
    if a.Cell? && b.Cell? && a != b then moves[(a.position, b.position) := r.id] else moves
  }

  /** The dictionary of moves in one step: a later robot overwrites an earlier. */
  function MoveMap(routes: seq<Route>, t: int): map<Edge, string> {
    if routes == [] then map[]
    else AddMove(MoveMap(routes[..|routes| - 1], t), routes[|routes| - 1], t)
  }

  lemma {:induction false} MoveMapOwners(routes: seq<Route>, t: int)
    ensures forall e | e in MoveMap(routes, t) :: exists i ::
             0 <= i < |routes| && MovesAt(routes[i], t, e) && MoveMap(routes, t)[e] == routes[i].id
    ensures forall i, e | 0 <= i < |routes| && MovesAt(routes[i], t, e) :: e in MoveMap(routes, t)
  {
    if routes != [] {
      var n := |routes| - 1;
      MoveMapOwners(routes[..n], t);
      var before, now := MoveMap(routes[..n], t), MoveMap(routes, t);
      forall e | e in now
        ensures exists i :: 0 <= i < |routes| && MovesAt(routes[i], t, e) && now[e] == routes[i].id
      {
        if e in before && before[e] == now[e] {
          var i :| 0 <= i < n && MovesAt(routes[..n][i], t, e) && before[e] == routes[..n][i].id;
          assert MovesAt(routes[i], t, e);
        } else {
          assert MovesAt(routes[n], t, e);
        }
      }
      forall i, e | 0 <= i < |routes| && MovesAt(routes[i], t, e)
        ensures e in now
      {
        if i < n {
          assert MovesAt(routes[..n][i], t, e);
        }
      }
    }
  }

  method SwapProblemsAt(routes: seq<Route>, t: int) returns (problems: seq<Problem>)
    ensures problems == [] <==> NoTrade(MoveMap(routes, t))
    ensures forall p | p in problems :: Trading(routes, p)
  {
    hide Trading;
    var moves: map<Edge, string> := map[];
    for k := 0 to |routes|
      invariant moves == MoveMap(routes[..k], t)
    {
      assert routes[..k + 1][..k] == routes[..k];
      var a, b := PositionAt(routes[k].steps, t), PositionAt(routes[k].steps, t + 1);
      if a.Cell? && b.Cell? && a != b {
        moves := moves[(a.position, b.position) := routes[k].id];
      }
    }
    assert routes[..|routes|] == routes;
    problems := Trades(moves, t);
    forall p | p in problems
      ensures Trading(routes, p)
    {
      TradeIsTrading(routes, t, p);
    }
  }

  /** Two entries of the dictionary that trade, as named. */
  ghost predicate TradeOf(moves: map<Edge, string>, t: int, p: Problem) {
    && p.SwapConflict? && p.t == t && (p.a, p.b) in moves && (p.b, p.a) in moves
    && p.first == moves[(p.a, p.b)] && p.second == moves[(p.b, p.a)] && Before(p.first, p.second)
  }

  lemma TradeIsTrading(routes: seq<Route>, t: int, p: Problem)
    requires TradeOf(MoveMap(routes, t), t, p)
    ensures Trading(routes, p)
  {
    hide MoveMap;
    MoveMapOwners(routes, t);
    assert ((p.a, p.b).0, (p.a, p.b).1) in MoveMap(routes, t);
  }

  method SwapProblems(routes: seq<Route>, lo: int, hi: int) returns (problems: seq<Problem>)
    ensures problems == [] <==> forall t | lo <= t < hi :: NoTrade(MoveMap(routes, t))
    ensures forall p | p in problems :: Trading(routes, p)
  {
    hide NoTrade, MoveMap, Trading;
    problems := [];
    var t := lo;
    while t < hi
      invariant lo <= t
      invariant problems == [] <==> forall u | lo <= u < t && u < hi :: NoTrade(MoveMap(routes, u))
      invariant forall p | p in problems :: Trading(routes, p)
      decreases hi - t
    {
      var atT := SwapProblemsAt(routes, t);
      problems := problems + atT;
      t := t + 1;
    }
  }

  method Trades(moves: map<Edge, string>, t: int) returns (problems: seq<Problem>)
    ensures problems == [] <==> NoTrade(moves)
    ensures forall p | p in problems :: TradeOf(moves, t, p)
  {
    problems := [];
    var left := moves.Keys;
    while left != {}
      invariant left <= moves.Keys
      invariant forall p | p in problems :: TradeOf(moves, t, p)
      invariant problems == [] <==> forall e | e in moves.Keys - left && (e.1, e.0) in moves ::
                !Before(moves[e], moves[(e.1, e.0)])
      decreases |left|
    {
      var e :| e in left;
      left := left - {e};
      if (e.1, e.0) in moves && moves[(e.1, e.0)] != moves[e] && Before(moves[e], moves[(e.1, e.0)]) {
        problems := problems + [SwapConflict(e.0, e.1, t, moves[e], moves[(e.1, e.0)])];
      }
      if (e.1, e.0) in moves {
        BeforeIsStrict(moves[e], moves[(e.1, e.0)]);
      }
    }
    forall e | e in moves && (e.1, e.0) in moves
      ensures moves[e] == moves[(e.1, e.0)] || Before(moves[e], moves[(e.1, e.0)])
               || Before(moves[(e.1, e.0)], moves[e])
    {
      BeforeIsStrict(moves[e], moves[(e.1, e.0)]);
    }
    forall e | e in moves && (e.1, e.0) in moves && Before(moves[e], moves[(e.1, e.0)])
      ensures moves[e] != moves[(e.1, e.0)]
    {
      BeforeIsStrict(moves[e], moves[(e.1, e.0)]);
    }
    assert forall e | e in moves :: ((e.1, e.0).1, (e.1, e.0).0) == e;
  }

  // ---------- Somebody on a parked robot's goal ----------

  ghost predicate StaysOff(other: Route, goal: Position, from: int, hi: int) {
    forall t | from <= t <= hi :: Spot(other, t) != Cell(goal)
  }

  ghost predicate GoalKept(routes: seq<Route>, i: nat, k: nat, hi: int)
    requires i < |routes| && k <= |routes|
  {
    routes[i].steps != [] &&
    forall j | 0 <= j < k && routes[j].id != routes[i].id ::
        StaysOff(routes[j], Goal(routes[i].steps), ArrivalTime(routes[i].steps), hi)
  }

  method Intrusions(other: Route, owner: Route, goal: Position, from: int, hi: int) returns (problems: seq<Problem>)
    ensures problems == [] <==> StaysOff(other, goal, from, hi)
    ensures owner.steps != [] && goal == Goal(owner.steps) && from == ArrivalTime(owner.steps) &&
            other.id != owner.id ==>
              forall p | p in problems :: Intruding(other, owner, p)
  {
    var t := from;
    while t <= hi
      invariant forall u | from <= u < t && u <= hi :: Spot(other, u) != Cell(goal)
      decreases hi - t
    {
      if PositionAt(other.steps, t) == Cell(goal) {
        assert Spot(other, t) == Cell(goal);
        return [GoalOccupied(other.id, owner.id, t)];
      }
      t := t + 1;
    }
    return [];
  }

  /** Indexing the goal of a route without steps raises. */
  method GoalProblems(routes: seq<Route>, hi: int) returns (report: Report)
    ensures report.Crashed? <==> exists r :: r in routes && r.steps == []
    ensures report.Problems? ==> (report.list == [] <==>
             forall i | 0 <= i < |routes| :: GoalKept(routes, i, |routes|, hi))
    ensures report.Problems? ==> forall p | p in report.list :: SomebodyIntrudes(routes, p)
  {
    hide StaysOff, Intruding;
    var problems := [];
    for i := 0 to |routes|
      invariant forall k | 0 <= k < i :: routes[k].steps != []
      invariant problems == [] <==> forall k | 0 <= k < i :: GoalKept(routes, k, |routes|, hi)
      invariant forall p | p in problems :: SomebodyIntrudes(routes, p)
    {
      var owner := routes[i];
      if owner.steps == [] {
        assert owner in routes;
        return Crashed;
      }
      var mine := [];
      for j := 0 to |routes|
        invariant mine == [] <==> GoalKept(routes, i, j, hi)
        invariant forall p | p in mine :: SomebodyIntrudes(routes, p)
      {
        if routes[j].id != owner.id {
          var found := Intrusions(routes[j], owner, owner.steps[|owner.steps| - 1].position,
              owner.steps[|owner.steps| - 1].timestep, hi);
          mine := mine + found;
        }
      }
      problems := problems + mine;
    }
    return Problems(problems);
  }

  // ---------- The whole check ----------

  function StartOf(r: Route): int {
    if r.steps == [] then 0 else StartTime(r.steps)
  }

  function EndOf(r: Route): int {
    if r.steps == [] then 0 else ArrivalTime(r.steps)
  }

  function Earliest(routes: seq<Route>): (lo: int)
    requires routes != []
    ensures forall r | r in routes :: lo <= StartOf(r)
    ensures exists r :: r in routes && StartOf(r) == lo
  {
    if |routes| == 1 then StartOf(routes[0])
    else
      var rest := Earliest(routes[1..]);
      if StartOf(routes[0]) < rest then StartOf(routes[0]) else rest
  }

  function Latest(routes: seq<Route>): (hi: int)
    requires routes != []
    ensures forall r | r in routes :: EndOf(r) <= hi
    ensures exists r :: r in routes && EndOf(r) == hi
  {
    if |routes| == 1 then EndOf(routes[0])
    else
      var rest := Latest(routes[1..]);
      if EndOf(routes[0]) > rest then EndOf(routes[0]) else rest
  }

  ghost predicate Spans(routes: seq<Route>, lo: int, hi: int) {
    forall r | r in routes :: lo <= StartOf(r) && EndOf(r) <= hi
  }

  /** The list of steps is shorter than the time it spans by more than one: a
      lookup by time offset can run past its end. */
  predicate Overruns(steps: seq<TimedStep>) {
    steps == [] || ArrivalTime(steps) - StartTime(steps) > |steps|
  }

  /** When the check itself raises: a successful route has no steps, or spans
      more time than its steps can be indexed by. */
  ghost predicate Crashes(routes: seq<Route>) {
    exists r :: r in routes && Overruns(r.steps)
  }

  /** Some lookup between departure and arrival runs past the end. */
  lemma OverrunIsIndexError(r: Route, lo: int, hi: int)
    requires r.steps != [] && lo <= StartTime(r.steps) && ArrivalTime(r.steps) <= hi
    ensures Overruns(r.steps) <==> exists t :: lo <= t <= hi && Spot(r, t) == IndexError
  {
    if Overruns(r.steps) {
      assert Spot(r, ArrivalTime(r.steps) - 1) == IndexError;
    }
  }

  /** A route that leaves out three timesteps crashes the check; one that leaves
      out a single timestep is reported. */
  lemma GapsCrashTheCheck()
    ensures var gapped := [TimedStep(Position(0, 0), 0), TimedStep(Position(0, 1), 4)];
            !WellTimed(gapped) && Crashes(Routes([Planned("A", gapped)]))
    ensures var skipped := [TimedStep(Position(0, 0), 0), TimedStep(Position(0, 1), 2)];
            !WellTimed(skipped) && !Crashes(Routes([Planned("A", skipped)]))
  {
    var gapped := [TimedStep(Position(0, 0), 0), TimedStep(Position(0, 1), 4)];
    var skipped := [TimedStep(Position(0, 0), 0), TimedStep(Position(0, 1), 2)];
    assert gapped[1].timestep != 1 && skipped[1].timestep != 1;
    assert Routes([Planned("A", gapped)]) == [Route("A", gapped)] by {
      assert [Planned("A", gapped)][..0] == [];
    }
    assert Route("A", gapped) in [Route("A", gapped)];
    assert Routes([Planned("A", skipped)]) == [Route("A", skipped)] by {
      assert [Planned("A", skipped)][..0] == [];
    }
  }

  lemma EmptyPlan(f: Floor, expected: map<string, Position>, checkObstacles: bool)
    ensures !Crashes([]) && PlanIsSafe([], f, expected, checkObstacles) && AllTrue([], f, expected, checkObstacles, [])
  {
  }

  lemma CrashCases(routes: seq<Route>)
    requires routes != []
    ensures Crashes(routes) <==>
              || (exists r :: r in routes && r.steps == [])
              || (exists t :: Earliest(routes) <= t <= Latest(routes) && !NoneCrashAt(routes, t))
  {
    hide Spot;
    if t :| Earliest(routes) <= t <= Latest(routes) && !NoneCrashAt(routes, t) {
      var r :| r in routes && Spot(r, t) == IndexError;
      if r.steps != [] {
        OverrunIsIndexError(r, Earliest(routes), Latest(routes));
      }
    }
    if r :| r in routes && Overruns(r.steps) && r.steps != [] {
      OverrunIsIndexError(r, Earliest(routes), Latest(routes));
      var t :| Earliest(routes) <= t <= Latest(routes) && Spot(r, t) == IndexError;
      assert !NoneCrashAt(routes, t);
    }
  }

  lemma SafeDoesNotCrash(routes: seq<Route>, f: Floor, expected: map<string, Position>, checkObstacles: bool)
    ensures PlanIsSafe(routes, f, expected, checkObstacles) ==> !Crashes(routes)
  {
  }

  /** No list of the check holds anything but true problems. */
  lemma ListsAreTrue(routes: seq<Route>, f: Floor, expected: map<string, Position>, checkObstacles: bool,
          faults: seq<Problem>, others: seq<Problem>)
    requires forall p :: p in faults <==> RouteIsAtFault(routes, f, expected, checkObstacles, p)
    requires forall p | p in others :: Meeting(routes, p) || Trading(routes, p) || SomebodyIntrudes(routes, p)
    ensures AllTrue(routes, f, expected, checkObstacles, faults + others)
  {
    hide RouteIsAtFault, Meeting, Trading, SomebodyIntrudes;
  }

  /** Every problem listed is true, and every fault of a single route is listed. */
  ghost predicate AllTrue(routes: seq<Route>, f: Floor, expected: map<string, Position>, checkObstacles: bool,
          list: seq<Problem>)
  {
    && (forall p | p in list :: IsTrue(routes, f, expected, checkObstacles, p))
    && (forall p | RouteIsAtFault(routes, f, expected, checkObstacles, p) :: p in list)
  }

  method RoutesProblems(routes: seq<Route>, f: Floor, expected: map<string, Position>, checkObstacles: bool)
    returns (problems: seq<Problem>)
    ensures problems == [] <==> forall i | 0 <= i < |routes| :: RouteOk(routes[i], f, expected, checkObstacles)
    ensures forall p :: p in problems <==> RouteIsAtFault(routes, f, expected, checkObstacles, p)
  {
    hide RouteOk, RouteFault;
    problems := [];
    for k := 0 to |routes|
      invariant problems == [] <==> forall i | 0 <= i < k :: RouteOk(routes[i], f, expected, checkObstacles)
      invariant forall p :: p in problems <==> RouteIsAtFault(routes[..k], f, expected, checkObstacles, p)
    {
      assert routes[..k + 1] == routes[..k] + [routes[k]];
      var own := RouteProblems(routes[k], f, expected, checkObstacles);
      problems := problems + own;
    }
    assert routes[..|routes|] == routes;
  }

  method FindCoordinationProblems(paths: seq<TimedPath>, f: Floor, expected: map<string, Position>,
          checkObstacles: bool)
    returns (report: Report)
    ensures report.Crashed? <==> Crashes(Routes(paths))
    ensures DistinctIds(Routes(paths)) ==>
             (report == Problems([]) <==> PlanIsSafe(Routes(paths), f, expected, checkObstacles))
    ensures report.Problems? ==> AllTrue(Routes(paths), f, expected, checkObstacles, report.list)
  {
    hide Crashes, NoneCrashAt, AllApartAt, NoTrade, MoveMap, GoalKept, RouteOk, PlanIsSafe, RouteIsAtFault, Meeting,
         Trading, SomebodyIntrudes, AllTrue, IsTrue;
    var routes := Routes(paths);
    EmptyPlan(f, expected, checkObstacles);
    if routes == [] {
      return Problems([]);
    }
    var problems := RoutesProblems(routes, f, expected, checkObstacles);
    var lo, hi := Earliest(routes), Latest(routes);
    var meetings := VertexProblems(routes, lo, hi);
    CrashCases(routes);
    SafeDoesNotCrash(routes, f, expected, checkObstacles);
    if meetings.Crashed? {
      return Crashed;
    }
    var swaps := SwapProblems(routes, lo, hi);
    var parked := GoalProblems(routes, hi);
    if parked.Crashed? {
      return Crashed;
    }
    assert Spans(routes, lo, hi);
    if DistinctIds(routes) {
      CheckIsExact(routes, f, expected, checkObstacles, lo, hi);
      assert problems == [] <==> forall i | 0 <= i < |routes| :: RouteOk(routes[i], f, expected, checkObstacles);
      assert meetings.list == [] <==> forall t | lo <= t <= hi :: AllApartAt(routes, t);
      assert swaps == [] <==> forall t | lo <= t < hi :: NoTrade(MoveMap(routes, t));
      assert problems == [] && meetings.list == [] && swaps == [] <==>
          SectionsEmpty(routes, f, expected, checkObstacles, lo, hi);
    }
    var all := problems + (meetings.list + swaps + parked.list);
    ListsAreTrue(routes, f, expected, checkObstacles, problems, meetings.list + swaps + parked.list);
    assert all == [] <==> problems == [] && meetings.list == [] && swaps == [] && parked.list == [];
    return Problems(all);
  }

  // ---------- Why an empty list means safe, and safe an empty list ----------

  lemma RangeSettles(a: seq<TimedStep>, b: seq<TimedStep>, lo: int, hi: int)
    requires WellTimed(a) && WellTimed(b)
    requires lo <= StartTime(a) && lo <= StartTime(b) && ArrivalTime(a) <= hi && ArrivalTime(b) <= hi
    requires forall t | lo <= t <= hi :: NoMeeting(a, b, t)
    requires forall t | lo <= t < hi :: NoSwap(a, b, t)
    ensures NeverMeet(a, b)
  {
    assert NoMeeting(a, b, lo) && NoMeeting(a, b, hi);
  }

  ghost predicate SectionsEmpty(routes: seq<Route>, f: Floor, expected: map<string, Position>, checkObstacles: bool,
          lo: int, hi: int)
  {
    && (forall i | 0 <= i < |routes| :: RouteOk(routes[i], f, expected, checkObstacles))
    && (forall t | lo <= t <= hi :: AllApartAt(routes, t))
    && (forall t | lo <= t < hi :: NoTrade(MoveMap(routes, t)))
  }

  /** The sections together decide safety, although the move dictionary
      overwrites entries; and the goal section adds nothing to the vertex one. */
  lemma CheckIsExact(routes: seq<Route>, f: Floor, expected: map<string, Position>, checkObstacles: bool, lo: int,
          hi: int)
    requires DistinctIds(routes) && Spans(routes, lo, hi)
    ensures PlanIsSafe(routes, f, expected, checkObstacles) <==>
             SectionsEmpty(routes, f, expected, checkObstacles, lo, hi)
    ensures SectionsEmpty(routes, f, expected, checkObstacles, lo, hi) ==>
             forall i | 0 <= i < |routes| :: GoalKept(routes, i, |routes|, hi)
  {
    hide PlanIsSafe, GoalKept, Spans, DistinctIds, SectionsEmpty;
    if SectionsEmpty(routes, f, expected, checkObstacles, lo, hi) {
      SectionsImplySafe(routes, f, expected, checkObstacles, lo, hi);
    }
    if PlanIsSafe(routes, f, expected, checkObstacles) {
      SafeImpliesSections(routes, f, expected, checkObstacles, lo, hi);
    }
  }

  lemma SectionsImplySafe(routes: seq<Route>, f: Floor, expected: map<string, Position>, checkObstacles: bool, lo: int,
          hi: int)
    requires DistinctIds(routes) && Spans(routes, lo, hi) && SectionsEmpty(routes, f, expected, checkObstacles, lo, hi)
    ensures PlanIsSafe(routes, f, expected, checkObstacles)
    ensures forall i | 0 <= i < |routes| :: GoalKept(routes, i, |routes|, hi)
  {
    hide RouteOk, AllApartAt, NoTrade, GoalKept, NeverMeet, MoveMap, Spans, DistinctIds, WellTimed;
    forall i | 0 <= i < |routes|
      ensures WellTimed(routes[i].steps)
    {
      SoundIsTimed(routes[i], f, expected, checkObstacles);
    }
    forall i | 0 <= i < |routes|
      ensures GoalKept(routes, i, |routes|, hi)
    {
      ApartKeepsGoal(routes, i, lo, hi);
    }
    forall i, j | 0 <= i < j < |routes|
      ensures NeverConflict(routes[i], routes[j])
    {
      SectionsImplyNeverMeet(routes, i, j, lo, hi);
    }
  }

  lemma SafeImpliesSections(routes: seq<Route>, f: Floor, expected: map<string, Position>, checkObstacles: bool,
          lo: int, hi: int)
    requires PlanIsSafe(routes, f, expected, checkObstacles)
    ensures SectionsEmpty(routes, f, expected, checkObstacles, lo, hi)
  {
    hide RouteOk, AllApartAt, NoTrade, NoneEverMeet, MoveMap;
    forall i | 0 <= i < |routes|
      ensures RouteOk(routes[i], f, expected, checkObstacles)
    {
      assert routes[i] in routes;
    }
    forall t: int
      ensures AllApartAt(routes, t) && NoTrade(MoveMap(routes, t))
    {
      SafeHasNoConflict(routes, t);
    }
  }

  lemma SoundIsTimed(r: Route, f: Floor, expected: map<string, Position>, checkObstacles: bool)
    requires RouteOk(r, f, expected, checkObstacles)
    ensures WellTimed(r.steps)
  {
  }

  lemma TimedHasSteps(steps: seq<TimedStep>)
    requires WellTimed(steps)
    ensures steps != [] && StartTime(steps) <= ArrivalTime(steps)
  {
  }

  lemma ParkedSpot(r: Route, t: int)
    requires WellTimed(r.steps) && ArrivalTime(r.steps) <= t
    ensures Spot(r, t) == Cell(Goal(r.steps))
  {
  }

  lemma ApartAtDiffers(routes: seq<Route>, i: nat, j: nat, t: int)
    requires i < |routes| && j < |routes| && i != j && AllApartAt(routes, t)
    ensures Spot(routes[i], t).Cell? ==> Spot(routes[i], t) != Spot(routes[j], t)
  {
  }

  lemma ApartKeepsGoal(routes: seq<Route>, i: nat, lo: int, hi: int)
    requires i < |routes| && Spans(routes, lo, hi)
    requires forall k | 0 <= k < |routes| :: WellTimed(routes[k].steps)
    requires forall t | lo <= t <= hi :: AllApartAt(routes, t)
    ensures GoalKept(routes, i, |routes|, hi)
  {
    hide AllApartAt, Spot, WellTimed;
    var steps := routes[i].steps;
    assert routes[i] in routes && WellTimed(steps);
    TimedHasSteps(steps);
    forall j | 0 <= j < |routes| && routes[j].id != routes[i].id
      ensures StaysOff(routes[j], Goal(steps), ArrivalTime(steps), hi)
    {
      forall t | ArrivalTime(steps) <= t <= hi
        ensures Spot(routes[j], t) != Cell(Goal(steps))
      {
        ParkedSpot(routes[i], t);
        assert lo <= StartOf(routes[i]) <= ArrivalTime(steps);
        ApartAtDiffers(routes, i, j, t);
      }
    }
  }

  lemma SectionsImplyNeverMeet(routes: seq<Route>, i: nat, j: nat, lo: int, hi: int)
    requires i < j < |routes| && DistinctIds(routes) && Spans(routes, lo, hi)
    requires forall k | 0 <= k < |routes| :: WellTimed(routes[k].steps)
    requires forall t | lo <= t <= hi :: AllApartAt(routes, t)
    requires forall t | lo <= t < hi :: NoTrade(MoveMap(routes, t))
    ensures NeverMeet(routes[i].steps, routes[j].steps)
  {
    hide NeverMeet, NoTrade, MoveMap;
    var a, b := routes[i].steps, routes[j].steps;
    forall t | lo <= t <= hi
      ensures NoMeeting(a, b, t)
    {
      assert AllApartAt(routes, t);
      assert Spot(routes[i], t) != Spot(routes[j], t);
    }
    forall t | lo <= t < hi
      ensures NoSwap(a, b, t)
    {
      assert NoMeeting(a, b, t);
      assert AllApartAt(routes, t);
      NoTradeNoSwap(routes, i, j, t);
    }
    assert routes[i] in routes && routes[j] in routes;
    RangeSettles(a, b, lo, hi);
  }

  /** With every cell singly occupied, each entry of the dictionary has one
      possible owner, so a swap would show as a trade. */
  lemma NoTradeNoSwap(routes: seq<Route>, i: nat, j: nat, t: int)
    requires i < j < |routes| && DistinctIds(routes)
    requires forall k | 0 <= k < |routes| :: WellTimed(routes[k].steps)
    requires AllApartAt(routes, t) && NoTrade(MoveMap(routes, t))
    ensures NoSwap(routes[i].steps, routes[j].steps, t)
  {
    hide MoveMap, NoTrade;
    var a, b := routes[i].steps, routes[j].steps;
    if At(a, t) == At(b, t + 1) && At(a, t + 1) == At(b, t) {
      assert Spot(routes[i], t) != Spot(routes[j], t);
      var e := (At(a, t), At(b, t));
      MoveOwner(routes, i, t, e);
      MoveOwner(routes, j, t, (e.1, e.0));
      TradeEqual(MoveMap(routes, t), e);
    }
  }

  lemma TradeEqual(moves: map<Edge, string>, e: Edge)
    requires NoTrade(moves) && e in moves && (e.1, e.0) in moves
    ensures moves[e] == moves[(e.1, e.0)]
  {
  }

  lemma MoveOwner(routes: seq<Route>, i: nat, t: int, e: Edge)
    requires i < |routes| && AllApartAt(routes, t) && MovesAt(routes[i], t, e)
    ensures e in MoveMap(routes, t) && MoveMap(routes, t)[e] == routes[i].id
  {
    MoveMapOwners(routes, t);
    var k :| 0 <= k < |routes| && MovesAt(routes[k], t, e) && MoveMap(routes, t)[e] == routes[k].id;
    assert Spot(routes[k], t) == Spot(routes[i], t);
  }

  lemma NeverMeetAt(a: Route, b: Route, t: int)
    requires NeverConflict(a, b)
    ensures Spot(a, t).Cell? && Spot(a, t) != Spot(b, t)
  {
    assert NoMeeting(a.steps, b.steps, t);
  }

  lemma NoTradeBetween(a: Route, b: Route, t: int, e: Edge)
    requires NeverConflict(a, b)
    ensures !(MovesAt(a, t, e) && MovesAt(b, t, (e.1, e.0)))
  {
    assert NoSwap(a.steps, b.steps, t);
  }

  lemma SafeHasNoConflict(routes: seq<Route>, t: int)
    requires NoneEverMeet(routes)
    ensures AllApartAt(routes, t) && NoTrade(MoveMap(routes, t))
  {
    hide MoveMap, NeverConflict;
    forall i, j | 0 <= i < j < |routes|
      ensures Spot(routes[i], t) != Spot(routes[j], t)
    {
      NeverMeetAt(routes[i], routes[j], t);
    }
    MoveMapOwners(routes, t);
    var moves := MoveMap(routes, t);
    forall e | e in moves
      ensures (e.1, e.0) !in moves
    {
      if (e.1, e.0) in moves {
        var i :| 0 <= i < |routes| && MovesAt(routes[i], t, e) && moves[e] == routes[i].id;
        var j :| 0 <= j < |routes| && MovesAt(routes[j], t, (e.1, e.0)) && moves[(e.1, e.0)] == routes[j].id;
        if i < j {
          NoTradeBetween(routes[i], routes[j], t, e);
        } else if j < i {
          NoTradeBetween(routes[j], routes[i], t, (e.1, e.0));
        }
      }
    }
  }

  // ---------- Plans kept by robot name ----------

  function InOrder(paths: map<string, TimedPath>, order: seq<string>): seq<TimedPath>
    requires forall id | id in order :: id in paths
  {
    seq(|order|, i requires 0 <= i < |order| => paths[order[i]])
  }

  lemma {:induction false} RoutesMember(paths: seq<TimedPath>, r: Route)
    requires r in Routes(paths)
    ensures exists i :: 0 <= i < |paths| && paths[i] == Planned(r.id, r.steps)
  {
    var n := |paths| - 1;
    if r in Routes(paths[..n]) {
      RoutesMember(paths[..n], r);
      var i :| 0 <= i < n && paths[..n][i] == Planned(r.id, r.steps);
      assert paths[i] == Planned(r.id, r.steps);
    } else {
      assert paths[n] == Planned(r.id, r.steps);
    }
  }

  lemma {:induction false} RoutesDistinct(paths: seq<TimedPath>)
    requires forall i, j | 0 <= i < j < |paths| :: paths[i].robotId != paths[j].robotId
    ensures DistinctIds(Routes(paths))
  {
    if paths != [] {
      var n := |paths| - 1;
      RoutesDistinct(paths[..n]);
      forall r | r in Routes(paths[..n])
        ensures r.id != paths[n].robotId
      {
        RoutesMember(paths[..n], r);
        var i :| 0 <= i < n && paths[..n][i] == Planned(r.id, r.steps);
        assert paths[i].robotId == r.id;
      }
    }
  }

  lemma {:induction false} RoutesComplete(paths: seq<TimedPath>, i: nat)
    requires i < |paths| && paths[i].Planned?
    ensures Route(paths[i].robotId, paths[i].steps) in Routes(paths)
  {
    var n := |paths| - 1;
    if i < n {
      RoutesComplete(paths[..n], i);
    }
  }

  lemma NeverMeetSymmetric(a: seq<TimedStep>, b: seq<TimedStep>)
    requires WellTimed(a) && WellTimed(b) && NeverMeet(a, b)
    ensures NeverMeet(b, a)
  {
    forall t: int
      ensures NoMeeting(b, a, t) && NoSwap(b, a, t)
    {
      assert NoMeeting(a, b, t) && NoSwap(a, b, t);
    }
  }

  /** Safe routes, looked up by robot: each is sound and any two never meet. */
  lemma SafeByName(paths: map<string, TimedPath>, order: seq<string>, f: Floor, expected: map<string, Position>,
          checkObstacles: bool, id: string)
    requires forall x | x in order :: x in paths && paths[x].Planned? && paths[x].robotId == x
    requires PlanIsSafe(Routes(InOrder(paths, order)), f, expected, checkObstacles) && id in order
    ensures RouteOk(Route(id, paths[id].steps), f, expected, checkObstacles)
  {
    var i :| 0 <= i < |order| && order[i] == id;
    RoutesComplete(InOrder(paths, order), i);
  }

  lemma ApartByName(paths: map<string, TimedPath>, order: seq<string>, f: Floor, expected: map<string, Position>,
          checkObstacles: bool, a: string, b: string)
    requires forall x | x in order :: x in paths && paths[x].Planned? && paths[x].robotId == x
    requires PlanIsSafe(Routes(InOrder(paths, order)), f, expected, checkObstacles) && a in order && b in order
             && a != b
    ensures WellTimed(paths[a].steps) && WellTimed(paths[b].steps) && NeverMeet(paths[a].steps, paths[b].steps)
  {
    hide NeverMeet, RouteOk, Routes;
    var list := InOrder(paths, order);
    var i :| 0 <= i < |order| && order[i] == a;
    var j :| 0 <= j < |order| && order[j] == b;
    RoutesComplete(list, i);
    RoutesComplete(list, j);
    var routes := Routes(list);
    var k :| 0 <= k < |routes| && routes[k] == Route(a, paths[a].steps);
    var l :| 0 <= l < |routes| && routes[l] == Route(b, paths[b].steps);
    if k < l {
      assert NeverConflict(routes[k], routes[l]);
    } else {
      assert NeverConflict(routes[l], routes[k]);
      NeverMeetSymmetric(paths[b].steps, paths[a].steps);
    }
  }
}
