/** Prioritized coordination: plan a robot, reserve its route, plan the next. */
module Coordinator {
  import opened Floors
  import opened TimedPaths
  import opened Reservations
  import opened SpaceTime
  import opened Names
  import SpatialPlanning
  import Conflicts

  // ---------- A new route and the routes already in the table ----------

  /** A legal route keeps clear, for good, of every route the table holds. */
  lemma LegalRouteApart(q: Query, steps: seq<TimedStep>, other: string, theirs: seq<TimedStep>)
    requires LegalRoute(q, steps) && WellTimed(theirs) && ArrivalTime(theirs) <= q.horizon
    requires other != q.robot && q.claims.Holds(other, theirs, q.startTime, q.horizon)
    ensures Apart(steps, theirs, q.startTime)
  {
    hide Drivable, WellTimed, At;
    forall t | q.startTime <= t <= q.horizon
      ensures NoMeeting(steps, theirs, t)
    {
      assert q.claims.VertexFree(At(steps, t), t, q.robot);
    }
    forall t | q.startTime <= t < q.horizon
      ensures NoSwap(steps, theirs, t)
    {
      NoSwapWithHolder(q, steps, other, theirs, t);
    }
    LegalStartsInTime(q, steps);
    ApartFromHorizon(steps, theirs, q.startTime, q.horizon);
  }

  lemma NoSwapWithHolder(q: Query, steps: seq<TimedStep>, other: string, theirs: seq<TimedStep>, t: int)
    requires LegalRoute(q, steps) && WellTimed(theirs) && q.startTime <= t < q.horizon
    requires other != q.robot && q.claims.Holds(other, theirs, q.startTime, q.horizon)
    ensures NoSwap(steps, theirs, t)
  {
    hide Drivable, WellTimed, At;
    var a, a', b, b' := At(steps, t), At(steps, t + 1), At(theirs, t), At(theirs, t + 1);
    assert q.claims.VertexFree(a, t, q.robot);
    assert b != b' ==> (b, b', t) in q.claims.edges && q.claims.edges[(b, b', t)] == other;
    assert a != a' ==> !q.claims.Swaps(a, a', t, q.robot);
  }

  lemma LegalStartsInTime(q: Query, steps: seq<TimedStep>)
    requires LegalRoute(q, steps)
    ensures steps != [] && WellTimed(steps) && q.startTime == StartTime(steps) <= ArrivalTime(steps) <= q.horizon
  {
  }

  /** Reserving a legal route never clashes. */
  lemma LegalRouteGranted(q: Query, steps: seq<TimedStep>)
    requires LegalRoute(q, steps) && q.claims.Anchored()
    ensures q.claims.Grants(q.robot, VertexKeys(steps, q.horizon), EdgeKeys(steps, |steps| - 1))
  {
    hide VertexKeys, EdgeKeys, Drivable, At;
    VertexKeysAt(steps, q.horizon);
    forall k | k in VertexKeys(steps, q.horizon) && k in q.claims.vertices
      ensures q.claims.vertices[k] == q.robot
    {
      assert q.claims.VertexFree(At(steps, k.1), k.1, q.robot);
    }
    forall k | k in EdgeKeys(steps, |steps| - 1) && k in q.claims.edges
      ensures q.claims.edges[k] == q.robot
    {
      EdgeEndsClaimed(steps, q.horizon, k);
      assert (k.0, k.1, k.2) in q.claims.edges;
    }
  }

  // ---------- The pass over the fleet, as a function ----------

  /** A coordination request. `horizon` has been resolved. */
  datatype Fleet = Fleet(floor: Floor, starts: map<string, Position>, goals: map<string, Position>,
                         horizon: int, h: SpatialPlanning.Heuristic)

  datatype Round = Round(paths: map<string, TimedPath>, claims: Claims)

  function QueryFor(fleet: Fleet, claims: Claims, id: string): Query
    requires id in fleet.starts && id in fleet.goals
  {
    Query(fleet.floor, claims, id, fleet.starts[id], 0, fleet.goals[id], fleet.horizon, fleet.h)
  }

  ghost function Reserved(claims: Claims, path: TimedPath, horizon: int): Claims {
    if path.Planned? && path.steps != [] then
      claims.With(path.robotId, VertexKeys(path.steps, horizon), EdgeKeys(path.steps, |path.steps| - 1))
    else claims
  }

  ghost predicate Covers(fleet: Fleet, order: seq<string>) {
    forall id | id in order :: id in fleet.starts && id in fleet.goals
  }

  /** Plan in order; each success is reserved before the next robot is planned. */
  ghost function PlanAll(fleet: Fleet, order: seq<string>): Round
    requires Covers(fleet, order)
  {
    if order == [] then Round(map[], Claims(map[], map[]))
    else
      var n := |order| - 1;
      var before := PlanAll(fleet, order[..n]);
      var path := Plan(QueryFor(fleet, before.claims, order[n]));
      Round(before.paths[order[n] := path], Reserved(before.claims, path, fleet.horizon))
  }

  // ---------- Conflict-free by construction ----------

  /** One successful path, as the rest of the system relies on it. */
  ghost predicate GoodPath(fleet: Fleet, id: string, path: TimedPath) {
    && path.robotId == id && path.Planned? && WellTimed(path.steps)
    && id in fleet.starts && id in fleet.goals
    && path.steps[0] == TimedStep(fleet.starts[id], 0) && Goal(path.steps) == fleet.goals[id]
    && ArrivalTime(path.steps) <= fleet.horizon
    && Drivable(fleet.floor, path.steps)
  }

  /** Every successful path is good, and no two of them ever meet or swap. */
  ghost predicate ConflictFree(fleet: Fleet, paths: map<string, TimedPath>) {
    && (forall id | id in paths && paths[id].Planned? :: GoodPath(fleet, id, paths[id]))
    && (forall a, b | a in paths && b in paths && a != b && paths[a].Planned? && paths[b].Planned? ::
          WellTimed(paths[a].steps) && WellTimed(paths[b].steps) && Apart(paths[a].steps, paths[b].steps, 0))
  }

  ghost predicate TableHolds(fleet: Fleet, round: Round) {
    && round.claims.Anchored()
    && forall id | id in round.paths && round.paths[id].Planned? ::
         WellTimed(round.paths[id].steps) && round.claims.Holds(id, round.paths[id].steps, 0, fleet.horizon)
  }

  lemma {:induction false} PlanAllSafe(fleet: Fleet, order: seq<string>)
    requires Covers(fleet, order) && Distinct(order)
    ensures var r := PlanAll(fleet, order);
            && r.paths.Keys == (set id | id in order)
            && (forall id | id in r.paths :: r.paths[id].robotId == id)
            && ConflictFree(fleet, r.paths)
            && TableHolds(fleet, r)
  {
    hide Plan, Reserved, ConflictFree, TableHolds;
    NothingPlanned(fleet);
    if order != [] {
      var n := |order| - 1;
      PlanAllSafe(fleet, order[..n]);
      assert order == order[..n] + [order[n]];
      var before := PlanAll(fleet, order[..n]);
      NextRobotSafe(fleet, before, order[n]);
    }
  }

  lemma NothingPlanned(fleet: Fleet)
    ensures ConflictFree(fleet, map[]) && TableHolds(fleet, Round(map[], Claims(map[], map[])))
  {
  }

  /** The robot planned next joins without disturbing anything. */
  lemma NextRobotSafe(fleet: Fleet, before: Round, id: string)
    requires id in fleet.starts && id in fleet.goals && id !in before.paths
    requires ConflictFree(fleet, before.paths) && TableHolds(fleet, before)
    ensures var path := Plan(QueryFor(fleet, before.claims, id));
            var after := Round(before.paths[id := path], Reserved(before.claims, path, fleet.horizon));
            && path.robotId == id
            && (path.Planned? ==> GoodPath(fleet, id, path)
                                  && before.claims.Grants(id, VertexKeys(path.steps, fleet.horizon),
                                      EdgeKeys(path.steps, |path.steps| - 1)))
            && ConflictFree(fleet, after.paths) && TableHolds(fleet, after)
  {
    hide Plan, VertexKeys, EdgeKeys, Claims.Grants, Claims.Holds, Claims.With, Claims.Anchored, Apart, Drivable,
         ClearOf, WellTimed;
    var q := QueryFor(fleet, before.claims, id);
    var path := Plan(q);
    PlanIsCompleteAndEarliest(q);
    if path.Planned? {
      LegalStartsInTime(q, path.steps);
      LegalRouteGranted(q, path.steps);
      ReservedIsHeld(q.claims, id, path.steps, fleet.horizon);
      forall other | other in before.paths && before.paths[other].Planned?
        ensures Apart(path.steps, before.paths[other].steps, 0) && Apart(before.paths[other].steps, path.steps, 0)
        ensures Reserved(before.claims, path, fleet.horizon).Holds(other, before.paths[other].steps, 0, fleet.horizon)
      {
        var theirs := before.paths[other].steps;
        assert GoodPath(fleet, other, before.paths[other]);
        LegalRouteApart(q, path.steps, other, theirs);
        ApartSymmetric(path.steps, theirs, 0);
        StillHeld(q.claims, Reserved(before.claims, path, fleet.horizon), id, other, theirs, 0, fleet.horizon);
      }
    }
  }

  // ---------- Failure isolation ----------

  /** Robots planned earlier do not depend on later ones. */
  lemma {:induction false} EarlierUnaffected(fleet: Fleet, order: seq<string>, k: nat)
    requires Covers(fleet, order) && Distinct(order) && k <= |order|
    ensures Covers(fleet, order[..k])
    ensures forall id | id in order[..k] ::
              && id in PlanAll(fleet, order).paths && id in PlanAll(fleet, order[..k]).paths
              && PlanAll(fleet, order).paths[id] == PlanAll(fleet, order[..k]).paths[id]
    decreases |order|
  {
    hide Plan, Reserved, ConflictFree, TableHolds;
    if k < |order| {
      var n := |order| - 1;
      EarlierUnaffected(fleet, order[..n], k);
      assert order[..n][..k] == order[..k];
    } else {
      assert order[..k] == order;
      PlanAllSafe(fleet, order);
    }
  }

  /** The robots of `order` that got a route, still in order. */
  ghost function Successful(fleet: Fleet, order: seq<string>): (kept: seq<string>)
    requires Covers(fleet, order)
    ensures forall id | id in kept :: id in order
  {
    if order == [] then []
    else
      var n := |order| - 1;
      var kept := Successful(fleet, order[..n]);
      if Plan(QueryFor(fleet, PlanAll(fleet, order[..n]).claims, order[n])).Planned? then kept + [order[n]] else kept
  }

  /** Dropping the robots that failed from the request leaves the table and every
      successful path exactly as they were. */
  lemma {:induction false} FailureIsolation(fleet: Fleet, order: seq<string>, reduced: Fleet)
    requires Covers(fleet, order) && Distinct(order)
    requires SameRequests(fleet, reduced, Successful(fleet, order))
    ensures var kept, full := Successful(fleet, order), PlanAll(fleet, order);
            && PlanAll(reduced, kept).claims == full.claims
            && PlanAll(reduced, kept).paths == PlannedOnly(full.paths)
  {
    hide Plan, Reserved, ConflictFree, TableHolds, PlannedOnly, Distinct;
    PlannedOnlyGrows(map[], "", Unplanned("", HorizonExceeded));
    if order != [] {
      DistinctPrefix(order);
      var n := |order| - 1;
      var kept, keptBefore := Successful(fleet, order), Successful(fleet, order[..n]);
      FailureIsolation(fleet, order[..n], reduced);
      var before := PlanAll(fleet, order[..n]);
      assert order[n] in fleet.starts && order[n] in fleet.goals;
      var path := Plan(QueryFor(fleet, before.claims, order[n]));
      LastIsNew(fleet, order);
      PlannedOnlyGrows(before.paths, order[n], path);
      assert PlanAll(fleet, order) == Round(before.paths[order[n] := path],
          Reserved(before.claims, path, fleet.horizon));
      if path.Planned? {
        assert kept == keptBefore + [order[n]];
        KeptGrows(fleet, reduced, keptBefore, order[n]);
        assert QueryFor(reduced, before.claims, order[n]) == QueryFor(fleet, before.claims, order[n]);
      } else {
        FailureReservesNothing(before.claims, path, fleet.horizon);
      }
    }
  }

  function PlannedOnly(paths: map<string, TimedPath>): map<string, TimedPath> {
    map id | id in paths && paths[id].Planned? :: paths[id]
  }

  lemma PlannedOnlyGrows(paths: map<string, TimedPath>, id: string, path: TimedPath)
    requires id !in paths
    ensures PlannedOnly(paths[id := path]) == if path.Planned? then PlannedOnly(paths)[id := path]
             else PlannedOnly(paths)
    ensures PlannedOnly(map[]) == map[]
  {
  }

  lemma DistinctPrefix(order: seq<string>)
    requires Distinct(order) && order != []
    ensures Distinct(order[..|order| - 1])
  {
  }

  /** `reduced` asks the same of the robots it keeps. */
  ghost predicate SameRequests(fleet: Fleet, reduced: Fleet, kept: seq<string>) {
    && reduced.floor == fleet.floor && reduced.horizon == fleet.horizon && reduced.h == fleet.h
    && forall id | id in kept ::
         && id in fleet.starts && id in fleet.goals && id in reduced.starts && id in reduced.goals
         && reduced.starts[id] == fleet.starts[id] && reduced.goals[id] == fleet.goals[id]
  }

  lemma LastIsNew(fleet: Fleet, order: seq<string>)
    requires Covers(fleet, order) && Distinct(order) && order != []
    ensures order[|order| - 1] !in PlanAll(fleet, order[..|order| - 1]).paths
  {
    PlanAllSafe(fleet, order[..|order| - 1]);
  }

  lemma FailureReservesNothing(claims: Claims, path: TimedPath, horizon: int)
    requires path.Unplanned?
    ensures Reserved(claims, path, horizon) == claims
  {
  }

  lemma KeptGrows(fleet: Fleet, reduced: Fleet, kept: seq<string>, id: string)
    requires SameRequests(fleet, reduced, kept + [id])
    ensures var before := PlanAll(reduced, kept);
            var path := Plan(QueryFor(fleet, before.claims, id));
            PlanAll(reduced, kept + [id]) == Round(before.paths[id := path],
                Reserved(before.claims, path, fleet.horizon))
  {
    assert (kept + [id])[..|kept|] == kept;
  }

  // ---------- The plan passes the independent check ----------

  /** Two routes that both start at time 0 and stay apart from then on never meet. */
  lemma ApartNeverMeets(a: seq<TimedStep>, b: seq<TimedStep>)
    requires WellTimed(a) && WellTimed(b) && StartTime(a) == 0 && StartTime(b) == 0
    requires Apart(a, b, 0)
    ensures Conflicts.NeverMeet(a, b)
  {
    forall t: int
      ensures NoMeeting(a, b, t) && NoSwap(a, b, t)
    {
      assert NoMeeting(a, b, 0);
      if t >= 0 {
        assert NoMeeting(a, b, t) && NoSwap(a, b, t);
      }
    }
  }

  /** A conflict-free set of paths has no problem the checker could report. */
  lemma ConflictFreeIsSafe(fleet: Fleet, paths: map<string, TimedPath>, order: seq<string>)
    requires ConflictFree(fleet, paths) && Distinct(order)
    requires forall id | id in order :: id in paths && paths[id].robotId == id
    ensures var routes := Conflicts.Routes(Conflicts.InOrder(paths, order));
            Conflicts.DistinctIds(routes) && Conflicts.PlanIsSafe(routes, fleet.floor, fleet.starts, true)
  {
    hide ConflictFree;
    var list := Conflicts.InOrder(paths, order);
    var routes := Conflicts.Routes(list);
    Conflicts.RoutesDistinct(list);
    forall r | r in routes
      ensures r.id in paths && paths[r.id] == Planned(r.id, r.steps)
    {
      Conflicts.RoutesMember(list, r);
    }
    forall r | r in routes
      ensures Conflicts.RouteOk(r, fleet.floor, fleet.starts, true)
    {
      GoodPathIsOk(fleet, paths, r);
    }
    PairsNeverMeet(fleet, paths, routes);
  }

  lemma PairsNeverMeet(fleet: Fleet, paths: map<string, TimedPath>, routes: seq<Conflicts.Route>)
    requires ConflictFree(fleet, paths) && Conflicts.DistinctIds(routes)
    requires forall r | r in routes :: r.id in paths && paths[r.id] == Planned(r.id, r.steps)
    ensures Conflicts.NoneEverMeet(routes)
  {
    hide ConflictFree;
    forall i, j | 0 <= i < j < |routes|
      ensures Conflicts.NeverConflict(routes[i], routes[j])
    {
      assert routes[i] in routes && routes[j] in routes;
      PairNeverMeets(fleet, paths, routes[i], routes[j]);
    }
  }

  lemma GoodPathIsOk(fleet: Fleet, paths: map<string, TimedPath>, r: Conflicts.Route)
    requires ConflictFree(fleet, paths) && r.id in paths && paths[r.id] == Planned(r.id, r.steps)
    ensures Conflicts.RouteOk(r, fleet.floor, fleet.starts, true)
  {
  }

  lemma PairNeverMeets(fleet: Fleet, paths: map<string, TimedPath>, a: Conflicts.Route, b: Conflicts.Route)
    requires ConflictFree(fleet, paths) && a.id != b.id
    requires a.id in paths && paths[a.id] == Planned(a.id, a.steps)
    requires b.id in paths && paths[b.id] == Planned(b.id, b.steps)
    ensures Conflicts.NeverConflict(a, b)
  {
    hide Apart, Drivable, Conflicts.NeverMeet;
    assert GoodPath(fleet, a.id, paths[a.id]) && GoodPath(fleet, b.id, paths[b.id]);
    ApartNeverMeets(a.steps, b.steps);
  }

  /** Conflict-free by construction: for every floor, starts, goals, priority
      order and horizon, the independent check of the successful paths against
      the starts and the obstacles finds nothing. */
  lemma PlansAreConflictFree(fleet: Fleet, order: seq<string>)
    requires Covers(fleet, order) && Distinct(order)
    ensures var paths := PlanAll(fleet, order).paths;
            && (forall id | id in order :: id in paths && paths[id].robotId == id)
            && Conflicts.DistinctIds(Conflicts.Routes(Conflicts.InOrder(paths, order)))
            && Conflicts.PlanIsSafe(Conflicts.Routes(Conflicts.InOrder(paths, order)), fleet.floor, fleet.starts, true)
  {
    hide ConflictFree, Conflicts.PlanIsSafe, Conflicts.DistinctIds, Conflicts.Routes;
    PlanAllSafe(fleet, order);
    ConflictFreeIsSafe(fleet, PlanAll(fleet, order).paths, order);
  }

  // ---------- Summing up ----------

  datatype Totals = Totals(planned: nat, moves: nat, waits: nat, makespan: int, spaceTimeCost: int)

  /** The aggregate numbers, derived from the successful paths. */
  function Summarise(paths: seq<TimedPath>): Totals {
    if paths == [] then Totals(0, 0, 0, 0, 0)
    else
      var t, last := Summarise(paths[..|paths| - 1]), paths[|paths| - 1];
      if last.Unplanned? || last.steps == [] then t
      else
        Totals(t.planned + 1, t.moves + Moves(last.steps), t.waits + Waits(last.steps),
               if t.planned == 0 then ArrivalTime(last.steps) else Max(t.makespan, ArrivalTime(last.steps)),
               t.spaceTimeCost + ArrivalTime(last.steps) - StartTime(last.steps))
  }

  /** The space-time cost is the moves plus the waits. */
  lemma {:induction false} CostIsMovesAndWaits(paths: seq<TimedPath>)
    requires forall p | p in paths && p.Planned? :: WellTimed(p.steps)
    ensures Summarise(paths).spaceTimeCost == Summarise(paths).moves + Summarise(paths).waits
  {
    if paths != [] {
      var last := paths[|paths| - 1];
      assert last in paths;
      CostIsMovesAndWaits(paths[..|paths| - 1]);
      if last.Planned? {
        MovesAndWaits(last.steps);
      }
    }
  }

  // ---------- The coordinator ----------

  datatype RequestProblem = NoRobots | IdsDisagree | SharedStart(first: string, second: string) | NotAPermutation

  datatype CoordinationResult =
    | Rejected(problem: RequestProblem, horizon: int)
    | Coordinated(timedPaths: map<string, TimedPath>, robotOrder: seq<string>, failedRobotIds: seq<string>,
        totals: Totals, horizon: int)

  ghost predicate DistinctStarts(starts: map<string, Position>) {
    forall a, b | a in starts && b in starts && a != b :: starts[a] != starts[b]
  }

  function DefaultHorizon(width: int, height: int, fleetSize: nat): int {
    2 * (width + height) + 4 * Max(1, fleetSize)
  }

  ghost predicate WellFormedRequest(starts: map<string, Position>, goals: map<string, Position>,
          priority: Option<seq<string>>)
  {
    && starts != map[] && starts.Keys == goals.Keys && DistinctStarts(starts)
    && (priority.Some? ==> multiset(priority.value) == multiset(starts.Keys))
  }

  lemma TwiceInMultiset(order: seq<string>, i: nat, j: nat)
    requires i < j < |order| && order[i] == order[j]
    ensures multiset(order)[order[i]] >= 2
  {
    assert order == order[..j] + [order[j]] + order[j + 1..];
    assert order[..j][i] in multiset(order[..j]);
  }

  lemma PermutationIsDistinct(order: seq<string>, ids: set<string>)
    requires multiset(order) == multiset(ids)
    ensures Distinct(order) && (forall id :: id in order <==> id in ids)
  {
    forall i, j | 0 <= i < j < |order|
      ensures order[i] != order[j]
    {
      if order[i] == order[j] {
        TwiceInMultiset(order, i, j);
      }
    }
    forall id
      ensures id in order <==> id in ids
    {
      assert id in multiset(order) <==> id in order;
    }
  }

  /** The result of a pass: the paths of the specification, in the order asked
      for, with the failures named and the totals derived from the paths. */
  ghost predicate PlannedAsSpecified(fleet: Fleet, order: seq<string>, r: CoordinationResult) {
    && r.Coordinated?
    && Distinct(order) && Covers(fleet, order)
    && r.robotOrder == order && r.horizon == fleet.horizon
    && r.timedPaths == PlanAll(fleet, order).paths
    && (forall id :: id in r.failedRobotIds <==> id in r.timedPaths && r.timedPaths[id].Unplanned?)
    && (forall id | id in order :: id in r.timedPaths)
    && r.totals == Summarise(Conflicts.InOrder(r.timedPaths, order))
  }

  lemma AllInPaths(fleet: Fleet, order: seq<string>)
    requires Covers(fleet, order) && Distinct(order)
    ensures forall id | id in order :: id in PlanAll(fleet, order).paths
  {
    PlanAllSafe(fleet, order);
  }

  /** All of `ids` and nothing else, ascending. */
  ghost predicate InNameOrder(order: seq<string>, ids: set<string>) {
    && (forall id :: id in order <==> id in ids)
    && forall i, j | 0 <= i < j < |order| :: Before(order[i], order[j])
  }

  lemma InNameOrderIsDistinct(order: seq<string>, ids: set<string>)
    requires InNameOrder(order, ids)
    ensures Distinct(order)
  {
    forall i, j | 0 <= i < j < |order|
      ensures order[i] != order[j]
    {
      BeforeIsStrict(order[i], order[j]);
    }
  }

  class MultiRobotCoordinator {
    const warehouse: Warehouse
    const planner: SpaceTimePlanner

    constructor (warehouse: Warehouse, h: SpatialPlanning.Heuristic)
      ensures this.warehouse == warehouse && planner.warehouse == warehouse && planner.heuristic == h
    {
      this.warehouse := warehouse;
      planner := new SpaceTimePlanner(warehouse, h);
    }

    method ValidateRequest(starts: map<string, Position>, goals: map<string, Position>, priority: Option<seq<string>>)
      returns (problem: Option<RequestProblem>)
      ensures problem.None? <==> WellFormedRequest(starts, goals, priority)
    {
      hide DistinctStarts;
      if starts == map[] {
        return Some(NoRobots);
      }
      if starts.Keys != goals.Keys {
        return Some(IdsDisagree);
      }
      var shared := SharedStartAmong(starts, Sorted(starts.Keys));
      if shared.Some? {
        return shared;
      }
      // An order that passes this test has no duplicate left to reject.
      if priority.Some? && multiset(priority.value) != multiset(starts.Keys) {
        return Some(NotAPermutation);
      }
      return None;
    }

    /** The first two robots, in name order, that start on one cell. */
    method SharedStartAmong(starts: map<string, Position>, ids: seq<string>) returns (problem: Option<RequestProblem>)
      requires Distinct(ids) && forall id :: id in ids <==> id in starts
      ensures problem.None? <==> DistinctStarts(starts)
    {
      var seen: map<Position, string> := map[];
      for k := 0 to |ids|
        invariant forall cell | cell in seen :: seen[cell] in ids[..k] && starts[seen[cell]] == cell
        invariant forall id | id in ids[..k] :: starts[id] in seen && seen[starts[id]] == id
      {
        var cell := starts[ids[k]];
        assert ids[k] !in ids[..k] && ids[..k + 1] == ids[..k] + [ids[k]];
        if cell in seen {
          assert seen[cell] in ids[..k] && seen[cell] in ids;
          return Some(SharedStart(seen[cell], ids[k]));
        }
        seen := seen[cell := ids[k]];
      }
      assert ids[..|ids|] == ids;
      return None;
    }

    /** Plan every robot in priority order. Reserving a successful path never
        raises, so the pass always completes. */
    method PlanFleet(starts: map<string, Position>, goals: map<string, Position>, priority: Option<seq<string>>,
            horizon: Option<int>)
      returns (r: CoordinationResult)
      requires planner.warehouse == warehouse
      ensures r.Rejected? <==> !WellFormedRequest(starts, goals, priority)
      ensures r.Coordinated? ==>
                && PlannedAsSpecified(
                       Fleet(warehouse.FloorPlan(), starts, goals, r.horizon, planner.heuristic), r.robotOrder, r)
                && (priority.Some? ==> r.robotOrder == priority.value)
                && (priority.None? ==> InNameOrder(r.robotOrder, starts.Keys))
      ensures r.Coordinated? ==>
                r.horizon == if horizon.Some? then horizon.value
                    else 2 * (warehouse.width + warehouse.height) + 4 * |starts|
    {
      hide WellFormedRequest, PlanAll, Distinct, Covers, InNameOrder, Summarise;
      var problem := ValidateRequest(starts, goals, priority);
      if problem.Some? {
        return Rejected(problem.value, if horizon.Some? then horizon.value else 0);
      }
      var order := OrderOf(starts, priority);
      var limit := if horizon.Some? then horizon.value else DefaultHorizon(warehouse.width, warehouse.height, |starts|);
      ghost var fleet := Fleet(warehouse.FloorPlan(), starts, goals, limit, planner.heuristic);
      RequestCoversFleet(fleet, priority, order);
      var paths, failed := PlanInOrder(fleet, starts, goals, order, limit);
      AllInPaths(fleet, order);
      r := Coordinated(paths, order, failed, Summarise(Conflicts.InOrder(paths, order)), limit);
    }

    /** The order asked for, or else by name. */
    method OrderOf(starts: map<string, Position>, priority: Option<seq<string>>) returns (order: seq<string>)
      ensures priority.Some? ==> order == priority.value
      ensures priority.None? ==> InNameOrder(order, starts.Keys)
    {
      order := if priority.Some? then priority.value else Sorted(starts.Keys);
    }

    lemma RequestCoversFleet(fleet: Fleet, priority: Option<seq<string>>, order: seq<string>)
      requires WellFormedRequest(fleet.starts, fleet.goals, priority)
      requires if priority.Some? then order == priority.value else InNameOrder(order, fleet.starts.Keys)
      ensures Distinct(order) && Covers(fleet, order) && |fleet.starts| > 0
    {
      if priority.Some? {
        PermutationIsDistinct(order, fleet.starts.Keys);
      } else {
        InNameOrderIsDistinct(order, fleet.starts.Keys);
      }
    }

    method PlanInOrder(ghost fleet: Fleet, starts: map<string, Position>, goals: map<string, Position>,
            order: seq<string>, limit: int)
      returns (paths: map<string, TimedPath>, failed: seq<string>)
      requires planner.warehouse == warehouse
      requires fleet == Fleet(warehouse.FloorPlan(), starts, goals, limit, planner.heuristic)
      requires Distinct(order) && Covers(fleet, order)
      ensures paths == PlanAll(fleet, order).paths
      ensures forall id :: id in failed <==> id in paths && paths[id].Unplanned?
    {
      hide Plan, Reserved, ConflictFree, TableHolds, VertexKeys, EdgeKeys, Claims.Grants, Claims.With;
      var reservations := new ReservationTable();
      paths, failed := map[], [];
      for k := 0 to |order|
        invariant fresh(reservations)
        invariant Round(paths, reservations.Contents()) == PlanAll(fleet, order[..k])
        invariant forall id :: id in failed <==> id in paths && paths[id].Unplanned?
      {
        var id := order[k];
        assert order[..k + 1][..k] == order[..k];
        PlanAllSafe(fleet, order[..k]);
        NextRobotSafe(fleet, PlanAll(fleet, order[..k]), id);
        var path := planner.PlanRoute(starts[id], goals[id], reservations, id, 0, Some(limit));
        paths := paths[id := path];
        ReservedCases(reservations.Contents(), path, limit);
        if path.Planned? {
          var raised := reservations.ReserveTimedPath(path, limit);
          assert raised.None?;
        } else {
          failed := failed + [id];
        }
      }
      assert order[..|order|] == order;
    }
  }

  lemma ReservedCases(claims: Claims, path: TimedPath, horizon: int)
    ensures path.Unplanned? ==> Reserved(claims, path, horizon) == claims
    ensures path.Planned? && path.steps != [] ==>
              Reserved(claims, path, horizon)
                  == claims.With(path.robotId, VertexKeys(path.steps, horizon), EdgeKeys(path.steps, |path.steps| - 1))
  {
  }
}
