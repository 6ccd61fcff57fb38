/** Driving a fleet along its timed paths on one shared clock. */
module Execution {
  import opened Floors
  import opened TimedPaths
  import opened Simulation
  import opened Driving
  import opened Names
  import Conflicts

  /** The routes being executed, by robot. */
  type Plans = map<string, seq<TimedStep>>

  ghost predicate Timed(plans: Plans) {
    forall id | id in plans :: WellTimed(plans[id])
  }

  function IntentAt(steps: seq<TimedStep>, t: int): Intent
    requires WellTimed(steps)
  {
    Intent(At(steps, t - 1), At(steps, t))
  }

  function IntentsAt(plans: Plans, t: int): Intents
    requires Timed(plans)
  {
    map id | id in plans :: IntentAt(plans[id], t)
  }

  lemma IntentKeys(plans: Plans, t: int)
    requires Timed(plans)
    ensures IntentsAt(plans, t).Keys == plans.Keys
  {
  }

  // ---------- The run, on snapshots ----------

  /** The fleet after `n` joint steps. */
  ghost function FleetAfter(fleet: Fleet, plans: Plans, n: nat): (after: Fleet)
    requires Timed(plans)
    ensures after.Keys == fleet.Keys
  {
    if n == 0 then fleet else DriveAll(FleetAfter(fleet, plans, n - 1), IntentsAt(plans, n))
  }

  /** Moves and waits in the first `n` timesteps. Standing on the goal after
      arrival is neither. */
  function MovesBy(steps: seq<TimedStep>, n: nat): nat
    requires WellTimed(steps)
  {
    if n == 0 then 0 else MovesBy(steps, n - 1) + if At(steps, n - 1) != At(steps, n) then 1 else 0
  }

  function WaitsBy(steps: seq<TimedStep>, n: nat): nat
    requires WellTimed(steps)
  {
    if n == 0 then 0
    else WaitsBy(steps, n - 1) + if At(steps, n - 1) == At(steps, n) && n <= ArrivalTime(steps) then 1 else 0
  }

  function TraceOf(steps: seq<TimedStep>, n: nat): seq<TimedStep>
    requires WellTimed(steps)
  {
    if n == 0 then [TimedStep(steps[0].position, 0)] else TraceOf(steps, n - 1) + [TimedStep(At(steps, n), n)]
  }

  /** What is recorded about one robot during a run. */
  datatype Tally = Tally(moves: nat, waits: nat, trace: seq<TimedStep>)

  function TallyAfter(steps: seq<TimedStep>, n: nat): Tally
    requires WellTimed(steps)
  {
    Tally(MovesBy(steps, n), WaitsBy(steps, n), TraceOf(steps, n))
  }

  /** The charge `n` moves take. */
  ghost function Spent(drain: real, n: nat): real {
    if n == 0 then 0.0 else Spent(drain, n - 1) + drain
  }

  lemma {:induction false} SpentIsProduct(drain: real, n: nat)
    ensures Spent(drain, n) == drain * (n as real)
  {
    if n > 0 {
      SpentIsProduct(drain, n - 1);
      assert drain * ((n - 1) as real + 1.0) == drain * ((n - 1) as real) + drain;
    }
  }

  lemma {:induction false} SpentGrows(drain: real, n: nat, m: nat)
    requires drain >= 0.0 && n <= m
    ensures Spent(drain, n) <= Spent(drain, m)
  {
    if n < m {
      SpentGrows(drain, n, m - 1);
    }
  }

  /** After `n` steps a robot that started on its route stands where the route
      says, and its odometer and battery have changed by exactly its moves. */
  lemma {:induction false} RobotAfter(fleet: Fleet, plans: Plans, n: nat, id: string)
    requires Timed(plans) && id in plans && id in fleet
    requires fleet[id].position == At(plans[id], 0)
    ensures var r, m := FleetAfter(fleet, plans, n)[id], MovesBy(plans[id], n);
            && r.position == At(plans[id], n)
            && r.distance == fleet[id].distance + m && r.steps == fleet[id].steps + m
            && r.battery == fleet[id].battery - Spent(fleet[id].drain, m) && r.drain == fleet[id].drain
            && (fleet[id].status != Offline ==> r.status != Offline)
  {
    hide WellTimed, At, FleetAfter;
    NextOfRobot(fleet, plans, n, id);
    if n > 0 {
      RobotAfter(fleet, plans, n - 1, id);
    }
  }

  lemma NextOfRobot(fleet: Fleet, plans: Plans, n: nat, id: string)
    requires Timed(plans) && id in plans && id in fleet
    ensures n == 0 ==> FleetAfter(fleet, plans, n) == fleet
    ensures n > 0 ==>
             FleetAfter(fleet, plans, n)[id]
             == Driven(FleetAfter(fleet, plans, n - 1)[id], IntentAt(plans[id], n))
  {
    hide WellTimed, At;
  }

  lemma AtStart(steps: seq<TimedStep>)
    requires WellTimed(steps) && StartTime(steps) >= 0
    ensures At(steps, 0) == steps[0].position
  {
  }

  /** Robots that are not part of the plan are not touched. */
  lemma {:induction false} OthersAfter(fleet: Fleet, plans: Plans, n: nat)
    requires Timed(plans)
    ensures forall id | id in fleet && id !in plans :: FleetAfter(fleet, plans, n)[id] == fleet[id]
  {
    if n > 0 {
      OthersAfter(fleet, plans, n - 1);
    }
  }

  // ---------- A sound plan never stops for a conflict ----------

  /** No two plans ever meet or swap. */
  ghost predicate NoConflicts(plans: Plans)
    requires Timed(plans)
  {
    forall a, b | a in plans && b in plans && a != b :: Conflicts.NeverMeet(plans[a], plans[b])
  }

  lemma NeverClashes(plans: Plans, t: int, a: string, b: string)
    requires Timed(plans) && NoConflicts(plans) && a in plans && b in plans && a != b
    ensures Separate(IntentsAt(plans, t)[a], IntentsAt(plans, t)[b])
  {
    assert Conflicts.NeverMeet(plans[a], plans[b]);
    assert NoMeeting(plans[a], plans[b], t) && NoSwap(plans[a], plans[b], t - 1);
  }

  /** A plan made for this floor and this fleet: drivable routes from time 0,
      robots online and at their starts, and charge for every planned move. */
  ghost predicate Ready(fleet: Fleet, floor: Floor, plans: Plans)
    requires Timed(plans)
  {
    forall id | id in plans ::
      && id in fleet && fleet[id].status != Offline
      && StartTime(plans[id]) == 0 && fleet[id].position == plans[id][0].position
      && Drivable(floor, plans[id])
      && fleet[id].drain >= 0.0 && fleet[id].battery >= Spent(fleet[id].drain, Moves(plans[id]))
  }

  lemma {:induction false} MovesByPrefix(steps: seq<TimedStep>, n: nat)
    requires WellTimed(steps) && StartTime(steps) == 0
    ensures n < |steps| ==> MovesBy(steps, n) == Moves(steps[..n + 1]) && WaitsBy(steps, n) == Waits(steps[..n + 1])
    ensures n >= |steps| - 1 ==> MovesBy(steps, n) == Moves(steps) && WaitsBy(steps, n) == Waits(steps)
  {
    if n > 0 {
      MovesByPrefix(steps, n - 1);
      if n < |steps| {
        assert steps[..n + 1][..n] == steps[..n];
      }
    }
    assert steps[..|steps|] == steps;
  }

  lemma {:induction false} MovesByGrows(steps: seq<TimedStep>, n: nat, m: nat)
    requires WellTimed(steps) && n <= m
    ensures MovesBy(steps, n) <= MovesBy(steps, m)
  {
    if n < m {
      MovesByGrows(steps, n, m - 1);
    }
  }

  /** Planned moves bound the moves made at any time. */
  lemma MovesWithinPlan(steps: seq<TimedStep>, n: nat)
    requires WellTimed(steps) && StartTime(steps) == 0
    ensures MovesBy(steps, n) <= Moves(steps)
  {
    var m := if n < |steps| - 1 then |steps| - 1 else n;
    MovesByGrows(steps, n, m);
    MovesByPrefix(steps, m);
  }

  /** One robot of a ready plan can always take its next step. */
  lemma NextStepOk(fleet: Fleet, floor: Floor, plans: Plans, n: nat, id: string)
    requires Timed(plans) && Ready(fleet, floor, plans) && id in plans && id in FleetAfter(fleet, plans, n)
    ensures StepOk(FleetAfter(fleet, plans, n)[id], floor, IntentsAt(plans, n + 1)[id])
  {
    hide Drivable, DriveAll, WellTimed;
    var steps := plans[id];
    AtStart(steps);
    RobotAfter(fleet, plans, n, id);
    AtDrivable(floor, steps, n);
    AtDrivable(floor, steps, n + 1);
    if At(steps, n) != At(steps, n + 1) {
      MovesWithinPlan(steps, n + 1);
      SpentGrows(fleet[id].drain, MovesBy(steps, n + 1), Moves(steps));
    }
  }

  /** A ready, conflict-free plan never stops: every joint step is accepted. */
  lemma EveryStepOk(fleet: Fleet, floor: Floor, plans: Plans, n: nat)
    requires Timed(plans) && Ready(fleet, floor, plans) && NoConflicts(plans)
    ensures JointStepOk(FleetAfter(fleet, plans, n), floor, IntentsAt(plans, n + 1), {})
  {
    hide FleetAfter, StepOk, Separate, NoConflicts, Drivable, Spent;
    OthersAfter(fleet, plans, n);
    forall id | id in plans
      ensures StepOk(FleetAfter(fleet, plans, n)[id], floor, IntentsAt(plans, n + 1)[id])
    {
      NextStepOk(fleet, floor, plans, n, id);
    }
    forall a, b | a in plans && b in plans && a != b
      ensures Separate(IntentsAt(plans, n + 1)[a], IntentsAt(plans, n + 1)[b])
    {
      NeverClashes(plans, n + 1, a, b);
    }
  }

  // ---------- Pre-flight ----------

  function Successful(plan: map<string, TimedPath>): map<string, TimedPath> {
    map id | id in plan && plan[id].Planned? :: plan[id]
  }

  function PlansOf(paths: map<string, TimedPath>): Plans {
    map id | id in paths && paths[id].Planned? :: paths[id].steps
  }

  /** Each path is filed under its own robot's name. */
  ghost predicate Named(paths: map<string, TimedPath>) {
    forall id | id in paths :: paths[id].robotId == id
  }

  lemma SafePlansAreTimed(paths: map<string, TimedPath>, order: seq<string>, f: Floor)
    requires Named(paths) && (forall id | id in paths :: paths[id].Planned?)
             && (forall id :: id in order <==> id in paths)
    requires Conflicts.PlanIsSafe(Conflicts.Routes(Conflicts.InOrder(paths, order)), f, map[], false)
    ensures Timed(PlansOf(paths)) && NoConflicts(PlansOf(paths))
  {
    hide Conflicts.PlanIsSafe, Conflicts.NeverMeet;
    forall id | id in paths
      ensures WellTimed(paths[id].steps)
    {
      Conflicts.SafeByName(paths, order, f, map[], false, id);
    }
    forall a, b | a in paths && b in paths && a != b
      ensures Conflicts.NeverMeet(paths[a].steps, paths[b].steps)
    {
      Conflicts.ApartByName(paths, order, f, map[], false, a, b);
    }
  }

  lemma NamesAreDistinct(paths: map<string, TimedPath>, order: seq<string>)
    requires Named(paths) && Distinct(order) && (forall id :: id in order <==> id in paths)
    ensures Conflicts.DistinctIds(Conflicts.Routes(Conflicts.InOrder(paths, order)))
  {
    Conflicts.RoutesDistinct(Conflicts.InOrder(paths, order));
  }

  /** What the pre-flight check asks of a plan, robot by robot: every route is
      timed, stepwise and on the floor, and no two ever meet or swap. */
  ghost predicate CleanPlan(plans: Plans, floor: Floor) {
    && Timed(plans) && NoConflicts(plans)
    && forall id | id in plans :: Conflicts.RouteOk(Conflicts.Route(id, plans[id]), floor, map[], false)
  }

  lemma CleanIsTimed(plans: Plans, floor: Floor)
    requires CleanPlan(plans, floor)
    ensures Timed(plans) && NoConflicts(plans)
    ensures !exists id :: id in plans && Conflicts.Overruns(plans[id])
  {
    hide NoConflicts;
  }

  lemma RouteIsPlan(paths: map<string, TimedPath>, order: seq<string>, r: Conflicts.Route)
    requires Named(paths) && (forall id | id in order :: id in paths)
             && r in Conflicts.Routes(Conflicts.InOrder(paths, order))
    ensures r.id in paths && paths[r.id] == Planned(r.id, r.steps)
  {
    Conflicts.RoutesMember(Conflicts.InOrder(paths, order), r);
  }

  lemma CleanPlansAreSafe(paths: map<string, TimedPath>, order: seq<string>, f: Floor)
    requires Named(paths) && Distinct(order) && (forall id :: id in order <==> id in paths)
    requires CleanPlan(PlansOf(paths), f)
    ensures Conflicts.PlanIsSafe(Conflicts.Routes(Conflicts.InOrder(paths, order)), f, map[], false)
  {
    hide Conflicts.NeverMeet, Conflicts.RouteOk, Conflicts.Routes, Conflicts.InOrder, Conflicts.DistinctIds, WellTimed;
    var routes := Conflicts.Routes(Conflicts.InOrder(paths, order));
    NamesAreDistinct(paths, order);
    forall r | r in routes
      ensures Conflicts.RouteOk(r, f, map[], false)
    {
      RouteIsPlan(paths, order, r);
      assert r == Conflicts.Route(r.id, PlansOf(paths)[r.id]);
    }
    forall i, j | 0 <= i < j < |routes|
      ensures Conflicts.NeverConflict(routes[i], routes[j])
    {
      RouteIsPlan(paths, order, routes[i]);
      RouteIsPlan(paths, order, routes[j]);
      Conflicts.IdsDiffer(routes, i, j);
      assert Conflicts.NeverMeet(PlansOf(paths)[routes[i].id], PlansOf(paths)[routes[j].id]);
    }
  }

  /** The list the checker walks is safe exactly when the plan is clean. */
  lemma SafeIsClean(paths: map<string, TimedPath>, order: seq<string>, f: Floor)
    requires Named(paths) && (forall id | id in paths :: paths[id].Planned?)
    requires Distinct(order) && (forall id :: id in order <==> id in paths)
    ensures Conflicts.PlanIsSafe(Conflicts.Routes(Conflicts.InOrder(paths, order)), f, map[], false) <==>
             CleanPlan(PlansOf(paths), f)
  {
    hide Conflicts.PlanIsSafe, NoConflicts, Conflicts.RouteOk, Distinct, Conflicts.Routes, Conflicts.InOrder;
    if Conflicts.PlanIsSafe(Conflicts.Routes(Conflicts.InOrder(paths, order)), f, map[], false) {
      SafePlansAreTimed(paths, order, f);
      forall id | id in paths
        ensures Conflicts.RouteOk(Conflicts.Route(id, paths[id].steps), f, map[], false)
      {
        Conflicts.SafeByName(paths, order, f, map[], false, id);
      }
    }
    if CleanPlan(PlansOf(paths), f) {
      CleanPlansAreSafe(paths, order, f);
    }
  }

  /** The checker crashes on a plan exactly when one of its routes overruns. */
  lemma CrashByName(paths: map<string, TimedPath>, order: seq<string>)
    requires Named(paths) && (forall id | id in paths :: paths[id].Planned?)
             && (forall id :: id in order <==> id in paths)
    ensures Conflicts.Crashes(Conflicts.Routes(Conflicts.InOrder(paths, order))) <==>
              exists id :: id in paths && Conflicts.Overruns(paths[id].steps)
  {
    hide Conflicts.Overruns, Conflicts.Routes;
    var list := Conflicts.InOrder(paths, order);
    if r :| r in Conflicts.Routes(list) && Conflicts.Overruns(r.steps) {
      RouteIsPlan(paths, order, r);
    }
    if id :| id in paths && Conflicts.Overruns(paths[id].steps) {
      var i :| 0 <= i < |order| && order[i] == id;
      Conflicts.RoutesComplete(list, i);
    }
  }

  lemma SuccessfulParts(plan: map<string, TimedPath>)
    requires Named(plan)
    ensures var paths := Successful(plan);
            && Named(paths) && (forall id | id in paths :: paths[id].Planned?)
            && PlansOf(paths) == PlansOf(plan) && paths.Keys == PlansOf(plan).Keys
            && forall id | id in paths :: id in plan && plan[id] == paths[id]
  {
  }

  /** The executed trace, as paths for the final check. */
  function TracePaths(log: map<string, Tally>): map<string, TimedPath> {
    map id | id in log :: Planned(id, log[id].trace)
  }

  function LogAfter(plans: Plans, n: nat): map<string, Tally>
    requires Timed(plans)
  {
    map id | id in plans :: TallyAfter(plans[id], n)
  }

  datatype ExecutionResult =
    | CheckRaised
    | PlanRefused(problems: seq<Conflicts.Problem>)
    | NotReady(robot: string)
    | Ran(timesteps: nat, log: map<string, Tally>, stop: Option<StopReason>, vertexConflicts: nat, edgeConflicts: nat,
        report: Conflicts.Report)
  {
    predicate Success() {
      Ran? && stop.None? && report == Conflicts.Problems([])
    }
  }

  function Makespan(plans: Plans, ids: seq<string>): (m: int)
    requires Timed(plans) && forall id | id in ids :: id in plans
    ensures forall id | id in ids :: ArrivalTime(plans[id]) <= m
    ensures if ids == [] then m == 0 else exists id :: id in ids && ArrivalTime(plans[id]) == m
  {
    if ids == [] then 0
    else
      var rest, mine := Makespan(plans, ids[1..]), ArrivalTime(plans[ids[0]]);
      assert ids[0] in ids && forall id | id in ids[1..] :: id in ids;
      if |ids| == 1 || mine > rest then mine else rest
  }

  /** After `n` joint steps the next one may be taken. */
  ghost predicate MayGoOn(before: Fleet, floor: Floor, plans: Plans, n: nat)
    requires Timed(plans)
  {
    JointStepOk(FleetAfter(before, plans, n), floor, IntentsAt(plans, n + 1), {})
  }

  /** What a run leaves behind: as many joint steps as it reports, each of them
      allowed, and nothing else. It stops at the first one that is not, and never
      for a clash. */
  ghost predicate DroveTo(before: Fleet, floor: Floor, plans: Plans, makespan: int, after: Fleet,
                          t: nat, log: map<string, Tally>, stop: Option<StopReason>)
    requires Timed(plans)
  {
    && after == FleetAfter(before, plans, t)
    && log == LogAfter(plans, t)
    && (forall n: nat | n < t :: MayGoOn(before, floor, plans, n))
    && stop != Some(VertexClash) && stop != Some(EdgeClash) && stop != Some(OntoFailedRobot)
    && (stop.None? ==> t as int == Max(0, makespan))
    && (stop.Some? ==> t as int < makespan && !MayGoOn(before, floor, plans, t))
  }

  ghost predicate RanAs(before: Fleet, floor: Floor, plans: Plans, makespan: int, after: Fleet, r: ExecutionResult)
    requires Timed(plans)
  {
    && r.Ran? && r.vertexConflicts == 0 && r.edgeConflicts == 0
    && DroveTo(before, floor, plans, makespan, after, r.timesteps, r.log, r.stop)
  }

  /** Every planned robot is online and stands at its start. */
  ghost predicate AtStarts(fleet: Fleet, plans: Plans) {
    forall id | id in plans ::
      id in fleet && fleet[id].status != Offline && plans[id] != [] && fleet[id].position == plans[id][0].position
  }

  /** What the executor does with a plan. It runs exactly when the plan is clean
      and its robots stand ready at their starts, and then as specified, with its
      verdict on the driven trace; it raises exactly on an overrunning route;
      and whenever it does not run, nothing has moved. */
  ghost predicate ExecutedAs(before: Fleet, floor: Floor, plan: map<string, TimedPath>, after: Fleet,
          r: ExecutionResult)
  {
    var plans := PlansOf(plan);
    && (r.Ran? <==> CleanPlan(plans, floor) && AtStarts(before, plans))
    && (r.CheckRaised? <==> exists id :: id in plans && Conflicts.Overruns(plans[id]))
    && (r.NotReady? <==> CleanPlan(plans, floor) && !AtStarts(before, plans))
    && (!r.Ran? ==> after == before)
    && (r.Ran? ==> RanAs(before, floor, plans, Makespan(plans, Sorted(plans.Keys)), after, r) && TraceChecked(r, floor))
  }

  lemma StartsKnown(fleet: Fleet, plans: Plans)
    requires Timed(plans) && AtStarts(fleet, plans)
    ensures plans.Keys <= fleet.Keys
  {
  }

  class CoordinatedExecutor {
    const sim: Simulator

    constructor (sim: Simulator)
      ensures this.sim == sim
    {
      this.sim := sim;
    }

    /** Drive every successfully planned robot along its timed path. A plan that
        fails the conflict check, or a fleet that is not at its starts, moves
        nothing. Otherwise no joint step is ever refused for a conflict. */
    method Execute(plan: map<string, TimedPath>) returns (r: ExecutionResult)
      requires sim.Valid() && Named(plan)
      modifies sim.robots.Values
      ensures sim.Valid() && sim.robots == old(sim.robots) && sim.TaskViews() == old(sim.TaskViews())
      ensures ExecutedAs(old(sim.FleetView()), sim.warehouse.FloorPlan(), plan, sim.FleetView(), r)
    {
      hide RanAs, AtStarts, CleanPlan, NoConflicts, Timed, Simulator.Valid, Simulator.FleetView, Simulator.TaskViews,
           Named, TraceChecked, Conflicts.Overruns, Warehouse.FloorPlan, Sorted, Makespan;
      var refusal := CheckPlan(plan, sim.warehouse.FloorPlan());
      if refusal.Some? {
        return refusal.value;
      }
      CleanIsTimed(PlansOf(plan), sim.warehouse.FloorPlan());
      var plans := PlansOf(plan);
      var absent := NotAtStart(plans, Sorted(plans.Keys));
      if absent.Some? {
        return NotReady(absent.value);
      }
      StartsKnown(sim.FleetView(), plans);
      r := Run(plans, Sorted(plans.Keys));
    }

    /** The structure of the plan, checked before anything moves. Obstacles are
        left to the timestep they matter at. */
    method CheckPlan(plan: map<string, TimedPath>, floor: Floor) returns (refusal: Option<ExecutionResult>)
      requires Named(plan)
      ensures refusal.None? <==> CleanPlan(PlansOf(plan), floor)
      ensures refusal == Some(CheckRaised) <==>
               exists id :: id in PlansOf(plan) && Conflicts.Overruns(PlansOf(plan)[id])
      ensures refusal.Some? ==>
               refusal.value.CheckRaised?
               || (refusal.value.PlanRefused? && refusal.value.problems != [])
    {
      hide CleanPlan, Named, Conflicts.PlanIsSafe, Conflicts.Crashes, Conflicts.DistinctIds, Conflicts.Overruns,
           Conflicts.Routes;
      var paths := Successful(plan);
      SuccessfulParts(plan);
      var order := Sorted(paths.Keys);
      NamesAreDistinct(paths, order);
      SafeIsClean(paths, order, floor);
      CrashByName(paths, order);
      Conflicts.SafeDoesNotCrash(Conflicts.Routes(Conflicts.InOrder(paths, order)), floor, map[], false);
      var problems := Conflicts.FindCoordinationProblems(Conflicts.InOrder(paths, order), floor, map[], false);
      if problems.Crashed? {
        return Some(CheckRaised);
      }
      return if problems.list == [] then None else Some(PlanRefused(problems.list));
    }

    /** The first robot, in name order, that is unknown, offline or elsewhere. */
    method NotAtStart(plans: Plans, order: seq<string>) returns (who: Option<string>)
      requires sim.Valid() && Timed(plans) && forall id | id in order :: id in plans
      ensures (forall id :: id in order <==> id in plans) ==> (who.None? <==> AtStarts(sim.FleetView(), plans))
    {
      for k := 0 to |order|
        invariant forall id | id in order[..k] ::
                    id in sim.FleetView() && sim.FleetView()[id].status != Offline
                        && sim.FleetView()[id].position == plans[id][0].position
      {
        var id := order[k];
        assert order[..k + 1] == order[..k] + [id];
        assert id in order;
        if id !in sim.robots || sim.robots[id].status == Offline || sim.robots[id].position != plans[id][0].position {
          return Some(id);
        }
      }
      assert order[..|order|] == order;
      return None;
    }

    method Run(plans: Plans, order: seq<string>) returns (r: ExecutionResult)
      requires sim.Valid() && Timed(plans) && NoConflicts(plans)
      requires order == Sorted(plans.Keys) && plans.Keys <= sim.FleetView().Keys
      modifies sim.robots.Values
      ensures sim.Valid() && sim.robots == old(sim.robots) && sim.TaskViews() == old(sim.TaskViews())
      ensures r.Ran? && RanAs(old(sim.FleetView()), sim.warehouse.FloorPlan(), plans, Makespan(plans, order),
               sim.FleetView(), r)
      ensures TraceChecked(r, sim.warehouse.FloorPlan())
    {
      hide Simulator.Valid, Simulator.FleetView, Simulator.TaskViews, NoConflicts, Timed, DroveTo, TraceChecked,
           Warehouse.FloorPlan, Sorted;
      var makespan := Makespan(plans, order);
      var floor := sim.warehouse.FloorPlan();
      var t, log, stop := Drive(plans, order, makespan);
      ghost var after := sim.FleetView();
      r := FinalCheck(t, log, stop, floor);
      assert sim.FleetView() == after && sim.warehouse.FloorPlan() == floor;
    }

    /** The loop over timesteps: validate the joint step, and only then commit it. */
    method Drive(plans: Plans, order: seq<string>, makespan: int)
      returns (t: nat, log: map<string, Tally>, stop: Option<StopReason>)
      requires sim.Valid() && Timed(plans) && NoConflicts(plans)
      requires order == Sorted(plans.Keys) && plans.Keys <= sim.FleetView().Keys
      modifies sim.robots.Values
      ensures sim.Valid() && sim.robots == old(sim.robots) && sim.TaskViews() == old(sim.TaskViews())
      ensures sim.warehouse.FloorPlan() == old(sim.warehouse.FloorPlan())
      ensures DroveTo(old(sim.FleetView()), sim.warehouse.FloorPlan(), plans, makespan, sim.FleetView(), t, log, stop)
      ensures stop != Some(VertexClash) && stop != Some(EdgeClash)
    {
      hide Simulator.Valid, Simulator.FleetView, Simulator.TaskViews, NoConflicts, Timed, FleetAfter, LogAfter,
           JointStepOk;
      ghost var floor := sim.warehouse.FloorPlan();
      t, stop := 0, None;
      log := Started(plans);
      StartOfRun(sim.FleetView(), plans);
      while t < makespan && stop.None?
        invariant sim.Valid() && sim.robots == old(sim.robots) && sim.TaskViews() == old(sim.TaskViews())
                  && sim.warehouse.FloorPlan() == floor
        invariant t <= Max(0, makespan)
        invariant sim.FleetView() == FleetAfter(old(sim.FleetView()), plans, t) && log == LogAfter(plans, t)
        invariant stop != Some(VertexClash) && stop != Some(EdgeClash) && stop != Some(OntoFailedRobot)
        invariant forall n: nat | n < t :: MayGoOn(old(sim.FleetView()), floor, plans, n)
        invariant stop.Some? ==> t < makespan && !MayGoOn(old(sim.FleetView()), floor, plans, t)
        decreases makespan - t, stop.None?
      {
        stop, log := OneTimestep(plans, order, t + 1, log, old(sim.FleetView()));
        if stop.None? {
          t := t + 1;
        }
      }
    }

    /** One timestep: a refused joint step changes nothing. */
    method OneTimestep(plans: Plans, order: seq<string>, t: nat, log: map<string, Tally>, ghost before: Fleet)
      returns (stop: Option<StopReason>, log': map<string, Tally>)
      requires sim.Valid() && Timed(plans) && NoConflicts(plans) && t > 0
      requires order == Sorted(plans.Keys) && plans.Keys <= before.Keys
      requires sim.FleetView() == FleetAfter(before, plans, t - 1) && log == LogAfter(plans, t - 1)
      modifies sim.robots.Values
      ensures sim.Valid() && sim.robots == old(sim.robots) && sim.TaskViews() == old(sim.TaskViews())
      ensures sim.warehouse.FloorPlan() == old(sim.warehouse.FloorPlan())
      ensures stop != Some(VertexClash) && stop != Some(EdgeClash) && stop != Some(OntoFailedRobot)
      ensures stop.None? <==> MayGoOn(before, sim.warehouse.FloorPlan(), plans, t - 1)
      ensures stop.Some? ==> sim.FleetView() == old(sim.FleetView()) && log' == log
      ensures stop.None? ==> sim.FleetView() == FleetAfter(before, plans, t) && log' == LogAfter(plans, t)
    {
      hide Simulator.Valid, Simulator.FleetView, Simulator.TaskViews, NoConflicts, Timed, JointStepOk, DriveAll,
           FleetAfter, LogAfter, Recorded, WellTimed, IntentsAt, Sorted, Warehouse.FloorPlan;
      StepOn(before, plans, t);
      log' := log;
      stop := StepFleet(plans, order, t);
      if stop.None? {
        LogKeys(plans, t - 1);
        log' := Recorded(log, plans, t);
        LogStep(plans, t);
      }
    }

    method StepFleet(plans: Plans, order: seq<string>, t: int) returns (stop: Option<StopReason>)
      requires sim.Valid() && Timed(plans) && NoConflicts(plans)
      requires order == Sorted(plans.Keys) && plans.Keys <= sim.FleetView().Keys
      modifies sim.robots.Values
      ensures sim.Valid() && sim.robots == old(sim.robots) && sim.TaskViews() == old(sim.TaskViews())
      ensures sim.warehouse.FloorPlan() == old(sim.warehouse.FloorPlan())
      ensures stop != Some(VertexClash) && stop != Some(EdgeClash) && stop != Some(OntoFailedRobot)
      ensures stop.None? <==> JointStepOk(old(sim.FleetView()), sim.warehouse.FloorPlan(), IntentsAt(plans, t), {})
      ensures sim.FleetView() == if stop.None? then DriveAll(old(sim.FleetView()), IntentsAt(plans, t))
               else old(sim.FleetView())
    {
      hide Simulator.Valid, Simulator.FleetView, Simulator.TaskViews, NoConflicts, Timed, JointStepOk, DriveAll,
           Explained, Separate, WellTimed, IntentsAt, Warehouse.FloorPlan;
      assert sim.FleetView().Keys == sim.robots.Keys by {
        sim.Entries();
      }
      var intents := IntentsAt(plans, t);
      NoClash(plans, t);
      IntentKeys(plans, t);
      stop := JointStep(sim, order, intents, {});
      if stop.Some? {
        NoClashReason(old(sim.FleetView()), sim.warehouse.FloorPlan(), intents, {}, stop.value);
      }
    }

    static method FinalCheck(t: nat, log: map<string, Tally>, stop: Option<StopReason>, floor: Floor)
      returns (r: ExecutionResult)
      ensures r.Ran? && r.timesteps == t && r.log == log && r.stop == stop
      ensures r.vertexConflicts == (if stop == Some(VertexClash) then 1 else 0)
      ensures r.edgeConflicts == (if stop == Some(EdgeClash) then 1 else 0)
      ensures TraceChecked(r, floor)
    {
      hide Conflicts.PlanIsSafe, Conflicts.Crashes, Conflicts.DistinctIds;
      var trace := TracePaths(log);
      NamesAreDistinct(trace, Sorted(trace.Keys));
      var report := Conflicts.FindCoordinationProblems(Conflicts.InOrder(trace, Sorted(trace.Keys)), floor, map[],
          true);
      r := Ran(t, log, stop, if stop == Some(VertexClash) then 1 else 0,
               if stop == Some(EdgeClash) then 1 else 0, report);
    }
  }

  /** The run's own verdict is the independent check of what was driven, against
      the floor as it then is. */
  ghost predicate TraceChecked(r: ExecutionResult, floor: Floor) {
    r.Ran? &&
    var trace := TracePaths(r.log);
    (r.report == Conflicts.Problems([]) <==>
       Conflicts.PlanIsSafe(Conflicts.Routes(Conflicts.InOrder(trace, Sorted(trace.Keys))), floor, map[], true))
  }

  /** Each robot's entry after one more timestep. */
  function Recorded(log: map<string, Tally>, plans: Plans, t: int): map<string, Tally>
    requires Timed(plans) && plans.Keys <= log.Keys
  {
    map id | id in plans ::
      var i, l := IntentAt(plans[id], t), log[id];
      Tally(l.moves + (if i.from != i.to then 1 else 0),
            l.waits + (if i.from == i.to && t <= ArrivalTime(plans[id]) then 1 else 0),
            l.trace + [TimedStep(i.to, t)])
  }

  function Started(plans: Plans): map<string, Tally>
    requires Timed(plans)
  {
    map id | id in plans :: Tally(0, 0, [TimedStep(plans[id][0].position, 0)])
  }

  lemma LogKeys(plans: Plans, n: nat)
    requires Timed(plans)
    ensures LogAfter(plans, n).Keys == plans.Keys
  {
  }

  lemma StartOfRun(fleet: Fleet, plans: Plans)
    requires Timed(plans)
    ensures FleetAfter(fleet, plans, 0) == fleet
    ensures LogAfter(plans, 0) == Started(plans)
  {
  }

  lemma StepOn(fleet: Fleet, plans: Plans, n: nat)
    requires Timed(plans) && n > 0
    ensures FleetAfter(fleet, plans, n) == DriveAll(FleetAfter(fleet, plans, n - 1), IntentsAt(plans, n))
  {
    hide DriveAll;
  }

  lemma LogStep(plans: Plans, n: nat)
    requires Timed(plans) && n > 0
    ensures Recorded(LogAfter(plans, n - 1), plans, n) == LogAfter(plans, n)
  {
    hide At, WellTimed, TallyAfter;
    forall id | id in plans
      ensures Recorded(LogAfter(plans, n - 1), plans, n)[id] == TallyAfter(plans[id], n)
    {
      TallyStep(plans[id], n);
    }
  }

  lemma TallyStep(steps: seq<TimedStep>, n: nat)
    requires WellTimed(steps) && n > 0
    ensures var i, l := IntentAt(steps, n), TallyAfter(steps, n - 1);
            TallyAfter(steps, n) ==
              Tally(l.moves + (if i.from != i.to then 1 else 0),
                    l.waits + (if i.from == i.to && n <= ArrivalTime(steps) then 1 else 0),
                    l.trace + [TimedStep(i.to, n)])
  {
    hide At, WellTimed;
  }

  lemma NoClash(plans: Plans, t: int)
    requires Timed(plans) && NoConflicts(plans)
    ensures var intents := IntentsAt(plans, t);
            forall a, b | a in intents && b in intents && a != b :: Separate(intents[a], intents[b])
  {
    forall a, b | a in plans && b in plans && a != b
      ensures Separate(IntentsAt(plans, t)[a], IntentsAt(plans, t)[b])
    {
      NeverClashes(plans, t, a, b);
    }
  }

  // ---------- A coordinated plan runs to the end ----------

  lemma {:induction false} TraceParts(steps: seq<TimedStep>, n: nat)
    requires WellTimed(steps) && StartTime(steps) == 0
    ensures |TraceOf(steps, n)| == n + 1
    ensures forall i | 0 <= i <= n :: TraceOf(steps, n)[i] == TimedStep(At(steps, i), i)
  {
    if n > 0 {
      TraceParts(steps, n - 1);
    }
  }

  /** The trace of a drivable route is itself a sound route. */
  lemma TraceIsSound(id: string, steps: seq<TimedStep>, n: nat, f: Floor)
    requires WellTimed(steps) && StartTime(steps) == 0 && Drivable(f, steps)
    ensures Conflicts.RouteOk(Conflicts.Route(id, TraceOf(steps, n)), f, map[], true)
  {
    hide Drivable, At, TraceOf;
    TraceParts(steps, n);
    var trace := TraceOf(steps, n);
    forall i | 0 <= i < |trace|
      ensures f.Traversable(trace[i].position)
    {
      AtDrivable(f, steps, i);
    }
    forall i | 0 <= i < |trace| - 1
      ensures Manhattan(trace[i].position, trace[i + 1].position) <= 1
    {
      AtDrivable(f, steps, i);
    }
  }

  lemma TracesNeverMeet(a: seq<TimedStep>, b: seq<TimedStep>, n: nat)
    requires WellTimed(a) && StartTime(a) == 0 && WellTimed(b) && StartTime(b) == 0 && Conflicts.NeverMeet(a, b)
    ensures WellTimed(TraceOf(a, n)) && WellTimed(TraceOf(b, n)) && Conflicts.NeverMeet(TraceOf(a, n), TraceOf(b, n))
  {
    hide TraceOf;
    TraceParts(a, n);
    TraceParts(b, n);
    var ta, tb := TraceOf(a, n), TraceOf(b, n);
    forall t | 0 <= t <= n
      ensures At(ta, t) == At(a, t) && At(tb, t) == At(b, t)
    {
    }
    forall t | 0 <= t <= n
      ensures NoMeeting(ta, tb, t)
    {
      assert NoMeeting(a, b, t);
    }
    forall t | 0 <= t < n
      ensures NoSwap(ta, tb, t)
    {
      assert NoSwap(a, b, t);
    }
    Conflicts.RangeSettles(ta, tb, 0, n);
  }

  /** The routes the final check looks at are the traces, one per robot. */
  ghost predicate AreTraces(routes: seq<Conflicts.Route>, plans: Plans, n: nat)
    requires Timed(plans)
  {
    forall r | r in routes :: r.id in plans && r.steps == TraceOf(plans[r.id], n)
  }

  function TraceRoutes(plans: Plans, n: nat): seq<Conflicts.Route>
    requires Timed(plans)
  {
    var trace := TracePaths(LogAfter(plans, n));
    Conflicts.Routes(Conflicts.InOrder(trace, Sorted(trace.Keys)))
  }

  lemma RoutesAreTraces(plans: Plans, n: nat)
    requires Timed(plans)
    ensures AreTraces(TraceRoutes(plans, n), plans, n) && Conflicts.DistinctIds(TraceRoutes(plans, n))
  {
    hide WellTimed, TraceOf, At, Conflicts.DistinctIds;
    var trace := TracePaths(LogAfter(plans, n));
    var order := Sorted(trace.Keys);
    NamesAreDistinct(trace, order);
    forall r | r in TraceRoutes(plans, n)
      ensures r.id in plans && r.steps == TraceOf(plans[r.id], n)
    {
      Conflicts.RoutesMember(Conflicts.InOrder(trace, order), r);
    }
  }

  lemma TracePairs(plans: Plans, n: nat, routes: seq<Conflicts.Route>)
    requires Timed(plans) && NoConflicts(plans) && AreTraces(routes, plans, n) && Conflicts.DistinctIds(routes)
    requires forall id | id in plans :: StartTime(plans[id]) == 0
    ensures Conflicts.NoneEverMeet(routes)
  {
    hide WellTimed, TraceOf, At, Conflicts.NeverMeet;
    forall i, j | 0 <= i < j < |routes|
      ensures Conflicts.NeverConflict(routes[i], routes[j])
    {
      assert routes[i] in routes && routes[j] in routes;
      TracesNeverMeet(plans[routes[i].id], plans[routes[j].id], n);
    }
  }

  /** What was driven passes the independent check. */
  lemma DrivenTraceIsSafe(fleet: Fleet, floor: Floor, plans: Plans, n: nat)
    requires Timed(plans) && NoConflicts(plans) && Ready(fleet, floor, plans)
    ensures Conflicts.PlanIsSafe(TraceRoutes(plans, n), floor, map[], true)
  {
    hide Conflicts.RouteOk, Conflicts.NoneEverMeet, Conflicts.DistinctIds, NoConflicts, Drivable, WellTimed, TraceOf,
         TraceRoutes, Spent;
    var routes := TraceRoutes(plans, n);
    RoutesAreTraces(plans, n);
    TracePairs(plans, n, routes);
    forall r | r in routes
      ensures Conflicts.RouteOk(r, floor, map[], true)
    {
      TraceIsSound(r.id, plans[r.id], n, floor);
    }
  }

  /** On the floor it was planned for, with the fleet at its starts and enough
      charge, a conflict-free plan runs to the end: no stop, every robot on its
      goal, moves and waits as planned, odometer and battery changed by exactly
      the moves, and the executed trace passes the independent check. */
  lemma CoordinatedRunCompletes(before: Fleet, floor: Floor, plans: Plans, after: Fleet, r: ExecutionResult)
    requires Timed(plans) && NoConflicts(plans) && Ready(before, floor, plans)
    requires RanAs(before, floor, plans, Makespan(plans, Sorted(plans.Keys)), after, r) && TraceChecked(r, floor)
    ensures r.Success()
    ensures forall id | id in plans :: id in after && id in r.log
             && Completed(before[id], plans[id], after[id], r.log[id])
    ensures forall id | id in before && id !in plans :: id in after && after[id] == before[id]
  {
    hide Ready, Completed, WellTimed, FleetAfter, NoConflicts, RanAs, TraceChecked, TallyAfter;
    RunNeverStops(before, floor, plans, after, r);
    var n := r.timesteps;
    TraceVerdict(before, floor, plans, r);
    OthersAfter(before, plans, n);
    forall id | id in plans
      ensures id in after && id in r.log && Completed(before[id], plans[id], after[id], r.log[id])
    {
      ReadyRobot(before, floor, plans, id);
      RobotCompletes(before, floor, plans, n, id);
    }
  }

  lemma RunNeverStops(before: Fleet, floor: Floor, plans: Plans, after: Fleet, r: ExecutionResult)
    requires Timed(plans) && NoConflicts(plans) && Ready(before, floor, plans)
    requires RanAs(before, floor, plans, Makespan(plans, Sorted(plans.Keys)), after, r)
    ensures r.Ran? && r.stop.None? && after == FleetAfter(before, plans, r.timesteps)
             && r.log == LogAfter(plans, r.timesteps)
    ensures forall id | id in plans :: ArrivalTime(plans[id]) <= r.timesteps
  {
    hide Ready, WellTimed, Timed, JointStepOk, FleetAfter, NoConflicts, LogAfter, Makespan, Sorted, IntentsAt;
    EveryStepOk(before, floor, plans, r.timesteps);
  }

  lemma TraceVerdict(before: Fleet, floor: Floor, plans: Plans, r: ExecutionResult)
    requires Timed(plans) && NoConflicts(plans) && Ready(before, floor, plans)
    requires r.Ran? && r.log == LogAfter(plans, r.timesteps) && TraceChecked(r, floor)
    ensures r.report == Conflicts.Problems([])
  {
    hide Ready, WellTimed, NoConflicts, LogAfter, Conflicts.PlanIsSafe, TracePaths;
    DrivenTraceIsSafe(before, floor, plans, r.timesteps);
  }

  /** One robot's finished run. */
  ghost predicate Completed(before: RobotView, steps: seq<TimedStep>, after: RobotView, tally: Tally)
    requires WellTimed(steps)
  {
    && after.position == Goal(steps)
    && tally.moves == Moves(steps) && tally.waits == Waits(steps)
    && after.distance == before.distance + Moves(steps)
    && after.battery == before.battery - before.drain * (Moves(steps) as real)
  }

  lemma ReadyRobot(before: Fleet, floor: Floor, plans: Plans, id: string)
    requires Timed(plans) && Ready(before, floor, plans) && id in plans
    ensures id in before && WellTimed(plans[id])
  {
  }

  lemma RobotCompletes(before: Fleet, floor: Floor, plans: Plans, n: nat, id: string)
    requires Timed(plans) && Ready(before, floor, plans) && id in plans && ArrivalTime(plans[id]) <= n
    ensures Completed(before[id], plans[id], FleetAfter(before, plans, n)[id], TallyAfter(plans[id], n))
  {
    hide FleetAfter, Drivable, Spent, TraceOf, Moves, Waits, MovesBy, WaitsBy;
    AtStart(plans[id]);
    RobotAfter(before, plans, n, id);
    assert ArrivalTime(plans[id]) == |plans[id]| - 1;
    MovesByPrefix(plans[id], n);
    SpentIsProduct(before[id].drain, Moves(plans[id]));
  }
}
