/** What being planned earlier is worth: every robot gets the earliest route that
    leaves the routes of those before it alone. */
module Priorities {
  import opened Floors
  import opened TimedPaths
  import opened Reservations
  import opened SpaceTime
  import opened Names
  import opened Coordinator
  import opened SpatialPlanning

  /** The named robot's route stands on `cell` at `t`. */
  ghost predicate Stands(paths: map<string, TimedPath>, id: string, cell: Position, t: int) {
    id in paths && paths[id].Planned? && WellTimed(paths[id].steps) && At(paths[id].steps, t) == cell
  }

  /** Every claim in the table is somebody's: its owner has a route, and the route
      stands on the cell, or takes the edge, at that time. */
  ghost predicate OnlyRoutes(c: Claims, paths: map<string, TimedPath>) {
    && (forall k | k in c.vertices :: Stands(paths, c.vertices[k], k.0, k.1))
    && (forall k | k in c.edges :: Stands(paths, c.edges[k], k.0, k.2) && Stands(paths, c.edges[k], k.1, k.2 + 1))
  }

  lemma RouteKeysStand(id: string, steps: seq<TimedStep>, horizon: int, paths: map<string, TimedPath>)
    requires id in paths && paths[id] == Planned(id, steps) && WellTimed(steps)
    ensures forall k | k in VertexKeys(steps, horizon) :: Stands(paths, id, k.0, k.1)
    ensures forall k | k in EdgeKeys(steps, |steps| - 1) ::
              Stands(paths, id, k.0, k.2) && Stands(paths, id, k.1, k.2 + 1)
  {
    hide VertexKeys, EdgeKeys, At;
    VertexKeysAt(steps, horizon);
    forall k | k in EdgeKeys(steps, |steps| - 1)
      ensures Stands(paths, id, k.0, k.2) && Stands(paths, id, k.1, k.2 + 1)
    {
      EdgeEndsClaimed(steps, horizon, k);
    }
  }

  lemma OthersStandStill(paths: map<string, TimedPath>, id: string, path: TimedPath)
    requires id !in paths
    ensures forall x, cell, t | Stands(paths, x, cell, t) :: Stands(paths[id := path], x, cell, t)
  {
  }

  /** Reserving adds claims of the new route and no others. */
  lemma ReservingAddsRoute(c: Claims, paths: map<string, TimedPath>, id: string, path: TimedPath, horizon: int)
    requires OnlyRoutes(c, paths) && id !in paths && path.robotId == id
    requires path.Planned? ==> WellTimed(path.steps)
    ensures OnlyRoutes(Reserved(c, path, horizon), paths[id := path])
  {
    hide Stands, VertexKeys, EdgeKeys, WellTimed;
    OthersStandStill(paths, id, path);
    if path.Planned? {
      assert path == Planned(id, path.steps);
      RouteKeysStand(id, path.steps, horizon, paths[id := path]);
    }
  }

  /** The table a pass builds holds nothing but the routes planned so far. */
  lemma {:induction false} TableIsRoutes(fleet: Fleet, order: seq<string>)
    requires Covers(fleet, order) && Distinct(order)
    ensures OnlyRoutes(PlanAll(fleet, order).claims, PlanAll(fleet, order).paths)
  {
    hide Plan, Reserved, ConflictFree, TableHolds, OnlyRoutes;
    NothingReserved();
    if order != [] {
      var n := |order| - 1;
      TableIsRoutes(fleet, order[..n]);
      var before := PlanAll(fleet, order[..n]);
      LastIsNew(fleet, order);
      PlanAllSafe(fleet, order[..n]);
      var q := QueryFor(fleet, before.claims, order[n]);
      PlannedIsTimed(q);
      ReservingAddsRoute(before.claims, before.paths, order[n], Plan(q), fleet.horizon);
    }
  }

  lemma PlannedIsTimed(q: Query)
    ensures Plan(q).robotId == q.robot && (Plan(q).Planned? ==> WellTimed(Plan(q).steps))
  {
    hide Plan;
    PlanIsCompleteAndEarliest(q);
  }

  lemma NothingReserved()
    ensures OnlyRoutes(Claims(map[], map[]), map[])
  {
  }

  // ---------- What a robot may choose from ----------

  /** A route for `id` that answers the request - from its start at time 0 to its goal
      by the horizon, over free cells - and never meets, or trades places with, the
      route of a robot planned before. */
  ghost predicate FitsIn(fleet: Fleet, before: seq<string>, paths: map<string, TimedPath>, id: string,
          steps: seq<TimedStep>)
  {
    && WellTimed(steps) && id in fleet.starts && id in fleet.goals
    && steps[0] == TimedStep(fleet.starts[id], 0) && Goal(steps) == fleet.goals[id]
    && ArrivalTime(steps) <= fleet.horizon && Drivable(fleet.floor, steps)
    && forall other | other in before && other in paths && paths[other].Planned? ::
         WellTimed(paths[other].steps) && Apart(steps, paths[other].steps, 0)
  }

  /** What keeps clear of every route keeps clear of every claim. */
  lemma ApartIsClear(c: Claims, paths: map<string, TimedPath>, id: string, steps: seq<TimedStep>, horizon: int)
    requires OnlyRoutes(c, paths) && WellTimed(steps)
    requires forall other | other in paths && paths[other].Planned? ::
               WellTimed(paths[other].steps) && Apart(steps, paths[other].steps, 0)
    ensures ClearOf(c, id, steps, 0, horizon)
  {
    hide At, WellTimed;
    forall t, other | other in paths && paths[other].Planned?
      ensures !Stands(paths, other, At(steps, t), t) || t < 0
      ensures !(Stands(paths, other, At(steps, t + 1), t) && Stands(paths, other, At(steps, t), t + 1)) || t < 0
    {
      assert t >= 0 ==> NoMeeting(steps, paths[other].steps, t) && NoSwap(steps, paths[other].steps, t);
    }
    assert forall t | 0 <= t <= horizon :: (At(steps, t), t) !in c.vertices;
    assert forall t | 0 <= t < horizon :: (At(steps, t + 1), At(steps, t), t) !in c.edges;
  }

  /** For the robot planned next, the routes that fit in are the ones its table
      allows. */
  lemma FittingIsLegal(fleet: Fleet, before: seq<string>, id: string, steps: seq<TimedStep>)
    requires Covers(fleet, before + [id]) && Distinct(before + [id])
    ensures Covers(fleet, before)
    ensures var round := PlanAll(fleet, before);
            LegalRoute(QueryFor(fleet, round.claims, id), steps) <==> FitsIn(fleet, before, round.paths, id, steps)
  {
    hide Plan, Drivable, ClearOf, Apart, Claims.Holds, OnlyRoutes, At;
    assert forall x | x in before :: x in before + [id];
    assert forall i | 0 <= i < |before| :: (before + [id])[i] == before[i];
    assert id in before + [id] && (before + [id])[|before|] == id;
    PlanAllSafe(fleet, before);
    TableIsRoutes(fleet, before);
    var round := PlanAll(fleet, before);
    var q := QueryFor(fleet, round.claims, id);
    if LegalRoute(q, steps) {
      forall other | other in before && other in round.paths && round.paths[other].Planned?
        ensures WellTimed(round.paths[other].steps) && Apart(steps, round.paths[other].steps, 0)
      {
        assert GoodPath(fleet, other, round.paths[other]);
        LegalRouteApart(q, steps, other, round.paths[other].steps);
      }
    }
    if FitsIn(fleet, before, round.paths, id, steps) {
      ApartIsClear(round.claims, round.paths, id, steps, fleet.horizon);
    }
  }

  // ---------- What priority buys ----------

  /** Each robot, in the order given, gets a route exactly when there is one that
      fits in with those planned before it, and then none that fits in arrives
      earlier. Who comes later makes no difference. */
  lemma EachTakesTheEarliest(fleet: Fleet, order: seq<string>, k: nat)
    requires Covers(fleet, order) && Distinct(order) && k < |order|
    ensures var id, paths := order[k], PlanAll(fleet, order).paths;
            && id in paths
            && (paths[id].Planned? <==> exists steps :: FitsIn(fleet, order[..k], paths, id, steps))
            && (paths[id].Planned? ==>
                  && FitsIn(fleet, order[..k], paths, id, paths[id].steps)
                  && forall steps | FitsIn(fleet, order[..k], paths, id, steps) ::
                       ArrivalTime(paths[id].steps) <= ArrivalTime(steps))
  {
    hide Plan, Reserved, FitsIn, LegalRoute, ConflictFree, TableHolds;
    var id, before, all := order[k], order[..k], PlanAll(fleet, order);
    var upTo := order[..k + 1];
    assert upTo == before + [id] && upTo[..k] == before;
    EarlierUnaffected(fleet, order, k);
    EarlierUnaffected(fleet, order, k + 1);
    var round := PlanAll(fleet, before);
    var q := QueryFor(fleet, round.claims, id);
    PlanIsCompleteAndEarliest(q);
    assert id in upTo && all.paths[id] == Plan(q);
    forall steps
      ensures LegalRoute(q, steps) <==> FitsIn(fleet, before, all.paths, id, steps)
    {
      FittingIsLegal(fleet, before, id, steps);
      FitsInWith(fleet, before, round.paths, all.paths, id, steps);
    }
  }

  lemma FitsInWith(fleet: Fleet, before: seq<string>, a: map<string, TimedPath>, b: map<string, TimedPath>, id: string,
          steps: seq<TimedStep>)
    requires forall other | other in before :: other in a && other in b && a[other] == b[other]
    ensures FitsIn(fleet, before, a, id, steps) <==> FitsIn(fleet, before, b, id, steps)
  {
    hide Apart, Drivable, WellTimed;
  }

  /** Nobody is in the way of the first robot: it takes a shortest route, without a
      single wait, whenever the horizon admits one, and has none otherwise. */
  lemma FirstGoesStraight(fleet: Fleet, order: seq<string>, d: int)
    requires Covers(fleet, order) && Distinct(order) && order != []
    requires IsDistance(fleet.floor, fleet.starts[order[0]], fleet.goals[order[0]], d)
    ensures order[0] in PlanAll(fleet, order).paths
    ensures var path := PlanAll(fleet, order).paths[order[0]];
            && (path.Planned? <==> d <= fleet.horizon)
            && (path.Planned? ==>
                  && WellTimed(path.steps)
                  && ArrivalTime(path.steps) == Moves(path.steps) == d && Waits(path.steps) == 0)
  {
    hide Plan, Reserved, LegalRoute, ConflictFree, TableHolds, Answer, IsShortest, Connected;
    var id := order[0];
    var first := order[..1];
    assert first == [id] && first[..0] == [];
    assert PlanAll(fleet, first[..0]) == Round(map[], Claims(map[], map[]));
    EarlierUnaffected(fleet, order, 1);
    var q := QueryFor(fleet, Claims(map[], map[]), id);
    assert id in first && PlanAll(fleet, order).paths[id] == Plan(q);
    StraightOrNot(q, d);
  }

  lemma StraightOrNot(q: Query, d: int)
    requires q.claims == Claims(map[], map[]) && IsDistance(q.floor, q.start, q.goal, d)
    ensures Plan(q).Planned? <==> q.startTime + d <= q.horizon
    ensures Plan(q).Planned? ==>
              && WellTimed(Plan(q).steps)
              && ArrivalTime(Plan(q).steps) == q.startTime + d
              && Moves(Plan(q).steps) == d && Waits(Plan(q).steps) == 0
  {
    hide Plan, Answer, LegalRoute;
    PlannedIsTimed(q);
    OneDistance(q.floor, q.start, q.goal, d, d);
    EndsTraversable(q.floor, q.start, q.goal);
    AnswerIsShortest(q.floor, q.start, q.goal, MANHATTAN);
    var a := Answer(q.floor, q.start, q.goal, MANHATTAN).value;
    assert IsDistance(q.floor, q.start, q.goal, a.totalCost) by {
      assert IsShortest(q.floor, a.path, q.start, q.goal);
    }
    OneDistance(q.floor, q.start, q.goal, d, a.totalCost);
    if q.startTime + d <= q.horizon {
      UnreservedPlanIsSpatial(q);
    } else if Plan(q).Planned? {
      PlanIsCompleteAndEarliest(q);
      NoShorterInTime(q, Plan(q).steps, a.path);
    }
  }

  lemma NoShorterInTime(q: Query, steps: seq<TimedStep>, path: seq<Position>)
    requires LegalRoute(q, steps) && IsShortest(q.floor, path, q.start, q.goal)
    ensures q.startTime + |path| - 1 <= q.horizon
  {
    var p := RouteProjects(q.floor, steps);
    MovesAndWaits(steps);
  }
}
