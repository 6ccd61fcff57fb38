/** From the coordinator's plan to its execution. */
module EndToEnd {
  import opened Floors
  import opened TimedPaths
  import opened Simulation
  import opened Names
  import Coordinator
  import Conflicts
  import Execution
  import Runs

  /** The fleet stands where the request says, online and charged for its plan. */
  ghost predicate FleetAtRequest(request: Coordinator.Fleet, paths: map<string, TimedPath>, fleet: Fleet) {
    forall id | id in paths && paths[id].Planned? && id in request.starts ::
      && id in fleet && fleet[id].status != Offline && fleet[id].position == request.starts[id]
      && fleet[id].drain >= 0.0 && fleet[id].battery >= Execution.Spent(fleet[id].drain, Moves(paths[id].steps))
  }

  lemma PlanFacts(request: Coordinator.Fleet, paths: map<string, TimedPath>, id: string)
    requires Coordinator.ConflictFree(request, paths) && id in paths && paths[id].Planned?
    ensures Coordinator.GoodPath(request, id, paths[id])
  {
  }

  lemma PairsNeverMeet(request: Coordinator.Fleet, paths: map<string, TimedPath>, a: string, b: string)
    requires Coordinator.ConflictFree(request, paths) && a in paths && b in paths && a != b && paths[a].Planned?
             && paths[b].Planned?
    ensures WellTimed(paths[a].steps) && WellTimed(paths[b].steps)
             && Conflicts.NeverMeet(paths[a].steps, paths[b].steps)
  {
    hide Apart, Drivable;
    PlanFacts(request, paths, a);
    PlanFacts(request, paths, b);
    Coordinator.ApartNeverMeets(paths[a].steps, paths[b].steps);
  }

  /** What the coordinator returns is a plan both executors can take up. */
  lemma CoordinatedPlanIsReady(request: Coordinator.Fleet, order: seq<string>, fleet: Fleet, horizon: int)
    requires Coordinator.Covers(request, order) && Distinct(order) && request.horizon <= horizon
    requires FleetAtRequest(request, Coordinator.PlanAll(request, order).paths, fleet)
    ensures var paths := Coordinator.PlanAll(request, order).paths;
            var plans := Execution.PlansOf(paths);
            && Execution.Named(paths) && Execution.Timed(plans) && Execution.NoConflicts(plans)
            && Execution.CleanPlan(plans, request.floor) && Execution.AtStarts(fleet, plans)
            && Execution.Ready(fleet, request.floor, plans)
            && Runs.MadeForThis(paths, fleet, request.floor, horizon)
  {
    hide Coordinator.ConflictFree, Coordinator.TableHolds, Coordinator.PlanAll, Conflicts.NeverMeet, Drivable, Moves,
         Execution.Spent;
    Coordinator.PlanAllSafe(request, order);
    var paths := Coordinator.PlanAll(request, order).paths;
    var plans := Execution.PlansOf(paths);
    forall id | id in plans
      ensures WellTimed(plans[id]) && Coordinator.GoodPath(request, id, paths[id]) && StartTime(plans[id]) == 0
    {
      PlanFacts(request, paths, id);
    }
    forall a, b | a in plans && b in plans && a != b
      ensures Conflicts.NeverMeet(plans[a], plans[b])
    {
      PairsNeverMeet(request, paths, a, b);
    }
    forall id | id in plans
      ensures Conflicts.RouteOk(Conflicts.Route(id, plans[id]), request.floor, map[], false)
    {
      GoodPathIsSound(request, id, paths[id]);
    }
  }

  lemma GoodPathIsSound(request: Coordinator.Fleet, id: string, path: TimedPath)
    requires Coordinator.GoodPath(request, id, path)
    ensures Conflicts.RouteOk(Conflicts.Route(id, path.steps), request.floor, map[], false)
  {
  }

  /** Coordinated and then executed: for every floor, starts, goals, priorities and
      horizon, driving the coordinator's plan from the requested starts, with
      charge for it, ends with every planned robot on its goal after exactly its
      planned moves and waits, and with a clean bill from the final check. */
  lemma CoordinatedPlansComplete(request: Coordinator.Fleet, order: seq<string>, fleet: Fleet, after: Fleet,
          r: Execution.ExecutionResult)
    requires Coordinator.Covers(request, order) && Distinct(order)
    requires FleetAtRequest(request, Coordinator.PlanAll(request, order).paths, fleet)
    requires var plans := Execution.PlansOf(Coordinator.PlanAll(request, order).paths);
             Execution.Timed(plans) && Execution.RanAs(fleet, request.floor, plans,
                 Execution.Makespan(plans, Sorted(plans.Keys)), after, r)
    requires Execution.TraceChecked(r, request.floor)
    ensures r.Success()
    ensures var paths := Coordinator.PlanAll(request, order).paths;
            forall id | id in paths && paths[id].Planned? ::
              && id in after && id in fleet && id in r.log && WellTimed(paths[id].steps)
              && Execution.Completed(fleet[id], paths[id].steps, after[id], r.log[id])
              && id in request.goals && after[id].position == request.goals[id]
  {
    hide Coordinator.PlanAll, Execution.Ready, Execution.NoConflicts, Execution.RanAs, Execution.TraceChecked,
         Execution.Makespan, FleetAtRequest, WellTimed, Drivable, Runs.MadeForThis;
    CoordinatedPlanIsReady(request, order, fleet, request.horizon);
    Coordinator.PlanAllSafe(request, order);
    var paths := Coordinator.PlanAll(request, order).paths;
    var plans := Execution.PlansOf(paths);
    Execution.CoordinatedRunCompletes(fleet, request.floor, plans, after, r);
    forall id | id in paths && paths[id].Planned?
      ensures Coordinator.GoodPath(request, id, paths[id]) && id in plans && plans[id] == paths[id].steps && id in fleet
    {
      PlanFacts(request, paths, id);
      Execution.ReadyRobot(fleet, request.floor, plans, id);
    }
  }

  /** Every planned robot of the request has been driven to its goal. */
  ghost predicate AllDelivered(request: Coordinator.Fleet, paths: map<string, TimedPath>, before: Fleet, after: Fleet,
                               r: Execution.ExecutionResult)
  {
    r.Ran? && forall id | id in paths && paths[id].Planned? ::
      && id in before && id in after && id in r.log && WellTimed(paths[id].steps)
      && Execution.Completed(before[id], paths[id].steps, after[id], r.log[id])
      && id in request.goals && after[id].position == request.goals[id]
  }

  /** Plan a fleet and drive it. A malformed request moves nothing. Otherwise, with
      the fleet where the request says and charged for its plan, the run happens,
      succeeds, and every planned robot ends on its goal. */
  method PlanAndDrive(coordinator: Coordinator.MultiRobotCoordinator, executor: Execution.CoordinatedExecutor,
                      starts: map<string, Position>, goals: map<string, Position>, priority: Option<seq<string>>,
                          horizon: Option<int>)
    returns (plan: Coordinator.CoordinationResult, run: Option<Execution.ExecutionResult>)
    requires coordinator.planner.warehouse == coordinator.warehouse == executor.sim.warehouse && executor.sim.Valid()
    modifies executor.sim.robots.Values
    ensures plan.Rejected? <==> !Coordinator.WellFormedRequest(starts, goals, priority)
    ensures run.None? <==> plan.Rejected?
    ensures run.None? ==> executor.sim.FleetView() == old(executor.sim.FleetView())
    ensures run.Some? ==> Execution.ExecutedAs(old(executor.sim.FleetView()), executor.sim.warehouse.FloorPlan(),
             plan.timedPaths, executor.sim.FleetView(), run.value)
    ensures var request := Coordinator.Fleet(coordinator.warehouse.FloorPlan(), starts, goals, plan.horizon,
                coordinator.planner.heuristic);
            run.Some? && FleetAtRequest(request, plan.timedPaths, old(executor.sim.FleetView())) ==>
              && run.value.Success()
              && AllDelivered(request, plan.timedPaths, old(executor.sim.FleetView()), executor.sim.FleetView(),
                  run.value)
  {
    hide Coordinator.WellFormedRequest, Coordinator.PlanAll, FleetAtRequest, Execution.ExecutedAs, Execution.Named,
         AllDelivered, Simulator.FleetView, Simulator.TaskViews, Simulator.Valid, Warehouse.FloorPlan,
             Execution.Makespan, Coordinator.Covers, Distinct, Sorted, Coordinator.Summarise, Conflicts.Overruns;
    ghost var fleet := executor.sim.FleetView();
    plan := coordinator.PlanFleet(starts, goals, priority, horizon);
    if plan.Rejected? {
      return plan, None;
    }
    ghost var order := plan.robotOrder;
    ghost var request := Coordinator.Fleet(coordinator.warehouse.FloorPlan(), starts, goals, plan.horizon,
        coordinator.planner.heuristic);
    PlannedIsNamed(request, order);
    var r := executor.Execute(plan.timedPaths);
    run := Some(r);
    if FleetAtRequest(request, plan.timedPaths, fleet) {
      DeliveredAsPlanned(request, order, fleet, executor.sim.FleetView(), r);
    }
  }

  lemma PlannedIsNamed(request: Coordinator.Fleet, order: seq<string>)
    requires Coordinator.Covers(request, order) && Distinct(order)
    ensures Execution.Named(Coordinator.PlanAll(request, order).paths)
  {
    hide Coordinator.ConflictFree, Coordinator.TableHolds;
    Coordinator.PlanAllSafe(request, order);
  }

  /** What the executor does with a coordinator's plan. */
  lemma DeliveredAsPlanned(request: Coordinator.Fleet, order: seq<string>, fleet: Fleet, after: Fleet,
          r: Execution.ExecutionResult)
    requires Coordinator.Covers(request, order) && Distinct(order)
    requires FleetAtRequest(request, Coordinator.PlanAll(request, order).paths, fleet)
    requires Execution.ExecutedAs(fleet, request.floor, Coordinator.PlanAll(request, order).paths, after, r)
    ensures r.Success()
    ensures AllDelivered(request, Coordinator.PlanAll(request, order).paths, fleet, after, r)
  {
    hide Coordinator.PlanAll, FleetAtRequest, Execution.CleanPlan, Execution.AtStarts, Execution.RanAs,
         Execution.TraceChecked,
         Execution.Makespan, Execution.Ready, Execution.NoConflicts, Execution.Completed, Runs.MadeForThis, WellTimed;
    CoordinatedPlanIsReady(request, order, fleet, request.horizon);
    CoordinatedPlansComplete(request, order, fleet, after, r);
  }
}
