/** Resilient execution: driving a coordinated plan through obstacles and failures. */
module Recovery {
  import opened Floors
  import opened TimedPaths
  import opened Reservations
  import opened SpaceTime
  import opened Simulation
  import opened Driving
  import opened Names
  import opened Replanning
  import opened Resilience
  import opened TaskRecovery
  import opened Disruptions
  import opened Schedule
  import opened Runs
  import SpatialPlanning
  import Execution
  import Coordinator
  import Conflicts

  /** The mutable state threaded through one run. */
  class RunState {
    var paths: Plans
    var goals: map<string, Position>
    var trace: Plans
    var moves: map<string, nat>
    var waits: map<string, nat>
    const horizon: int
    var offline: set<string>
    var safeStopped: set<string>
    var joined: set<string>

    function View(): Snap
      reads this
    {
      Snap(paths, goals, trace, moves, waits, horizon, offline, safeStopped)
    }

    constructor (paths: Plans, horizon: int)
      requires Execution.Timed(paths)
      ensures View() == Starting(paths, horizon) && this.horizon == horizon && joined == {}
    {
      this.paths, this.horizon := paths, horizon;
      goals := map id | id in paths :: Goal(paths[id]);
      trace := map id | id in paths :: [TimedStep(paths[id][0].position, 0)];
      moves := map id | id in paths :: 0;
      waits := map id | id in paths :: 0;
      offline, safeStopped, joined := {}, {}, {};
    }
  }

  class RecoveryManager {
    const sim: Simulator
    const planner: SpaceTimePlanner
    var recoveryEnabled: bool

    constructor (sim: Simulator)
      ensures this.sim == sim && planner.warehouse == sim.warehouse && planner.heuristic == SpatialPlanning.MANHATTAN
      ensures recoveryEnabled
    {
      this.sim := sim;
      planner := new SpaceTimePlanner(sim.warehouse, SpatialPlanning.MANHATTAN);
      recoveryEnabled := true;
    }

    /** Where the failed robots stand. */
    method FailedCells(offline: set<string>) returns (pins: map<string, Position>)
      requires sim.Valid()
      ensures pins == map o | o in offline && o in sim.FleetView() :: sim.FleetView()[o].position
    {
      pins := map o | o in offline && o in sim.robots :: sim.robots[o].position;
    }

    /** The routes left out of a table, found one by one. */
    method LeftOut(paths: Plans, exclude: set<string>, offline: set<string>, pins: map<string, Position>, now: int)
      returns (skip: set<string>)
      ensures paths.Keys - skip == set id | id in paths && id !in exclude && id !in offline
               && !TouchesPin(paths[id], pins, now)
    {
      hide Sorted, Through;
      skip := exclude + offline;
      var order := Sorted(paths.Keys);
      SortedFacts(paths.Keys);
      ThroughSteps(paths, pins, now, order, 0);
      for k := 0 to |order|
        invariant skip == exclude + offline + Through(paths, pins, now, order[..k])
      {
        ThroughSteps(paths, pins, now, order, k);
        if order[k] in skip {
          continue;
        }
        var touches := TouchesAny(paths[order[k]], pins, now);
        if touches {
          skip := skip + {order[k]};
        }
      }
      assert order[..|order|] == order;
      ThroughAll(paths, pins, now, order, exclude, offline);
    }

    method TouchesAny(steps: seq<TimedStep>, pins: map<string, Position>, now: int) returns (touches: bool)
      ensures touches <==> TouchesPin(steps, pins, now)
    {
      hide Sorted;
      var order := Sorted(pins.Keys);
      SortedFacts(pins.Keys);
      for k := 0 to |order|
        invariant forall o | o in order[..k] :: !RouteTouchesCell(steps, pins[o], now)
      {
        assert order[..k + 1] == order[..k] + [order[k]] && order[k] in order;
        if RouteTouchesCell(steps, pins[order[k]], now) {
          return true;
        }
      }
      assert order[..|order|] == order;
      return false;
    }

    /** A scratch table of everybody's remaining route, with failed robots pinned.
        When the routes arrive in time, building it raises exactly if two of them
        meet or a failed robot is in the way. */
    method FutureTable(state: RunState, now: int, exclude: set<string>) returns (table: ReservationTable, raised: bool)
      requires sim.Valid() && Underway(state.paths, now)
      ensures fresh(table)
      ensures !raised ==>
                IsFutureTable(table.Contents(), state.paths, Included(state.View(), sim.FleetView(), now, exclude),
                              Pins(state.View(), sim.FleetView()), now, state.horizon)
      ensures raised ==> !Buildable(state.View(), sim.FleetView(), now, exclude)
      ensures Foreseeable(state.View(), sim.FleetView(), now, exclude) ==>
                (raised <==> !Buildable(state.View(), sim.FleetView(), now, exclude))
    {
      hide Simulator.FleetView, IsFutureTable, PinsClear, InTime, MeetNever, RouteTouchesCell, WellTimed, TouchesPin,
           Foreseeable;
      var pins := FailedCells(state.offline);
      var skip := LeftOut(state.paths, exclude, state.offline, pins, now);
      assert state.paths.Keys - skip == Included(state.View(), sim.FleetView(), now, exclude);
      table, raised := BuildFutureReservations(state.paths, now, state.horizon, skip);
      if raised {
        return;
      }
      raised := PinFailed(table, pins, now, state.horizon, state.paths, state.paths.Keys - skip);
      if !raised {
        BuiltTable(state.View(), sim.FleetView(), now, exclude, table.Contents());
      }
    }
  
    /** Replan every affected robot from where it is, one at a time; a robot that
        cannot be replanned stops for safety. */
    method ReplanAffected(state: RunState, affected: set<string>, now: int)
      returns (allOk: bool, raised: bool, ghost c: Claims)
      requires sim.Valid() && planner.warehouse == sim.warehouse && planner.heuristic == SpatialPlanning.MANHATTAN
      requires affected <= state.View().Movers()
      requires SoundBut(state.View(), sim.FleetView(), sim.warehouse.FloorPlan(), now, affected)
      requires StepsClearBut(state.View(), sim.FleetView(), now, affected)
      modifies state`paths, state`safeStopped
      ensures !raised ==>
                ReplannedAround(old(state.View()), state.View(), sim.FleetView(), sim.warehouse.FloorPlan(), now,
                    affected, c)
                && (allOk <==> state.safeStopped == old(state.safeStopped))
      ensures raised ==> state.View() == old(state.View()) && !Buildable(state.View(), sim.FleetView(), now, affected)
    {
      hide Simulator.FleetView, Simulator.Valid, SoundBut, StepsClearBut, IsFutureTable, Buildable, Foreseeable,
           Sorted, WellTimed, Warehouse.FloorPlan, Snap.Movers;
      ghost var s, fleet, floor := state.View(), sim.FleetView(), sim.warehouse.FloorPlan();
      UnderwayNow(s, fleet, floor, now, affected);
      var table;
      table, raised := FutureTable(state, now, affected);
      c := table.Contents();
      allOk := false;
      if raised {
        return;
      }
      FutureTableGuards(s, fleet, floor, now, affected, affected, c);
      assert affected + affected == affected;
      SortedFacts(affected);
      assert SetOf(Sorted(affected)) == affected;
      allOk := ReplanInOrder(state, Sorted(affected), now, table, s, c);
    }

    method ReplanInOrder(state: RunState, order: seq<string>, now: int, table: ReservationTable, ghost s: Snap,
            ghost c: Claims) returns (allOk: bool)
      requires sim.Valid() && planner.warehouse == sim.warehouse && planner.heuristic == SpatialPlanning.MANHATTAN
      requires s == state.View() && c == table.Contents() && Distinct(order) && SetOf(order) <= s.Movers()
      requires SoundBut(s, sim.FleetView(), sim.warehouse.FloorPlan(), now, SetOf(order))
               && Guards(c, s, now, SetOf(order))
      modifies state`paths, state`safeStopped, table
      ensures Replannable(s, order)
      ensures state.View() == ReplanAll(s, sim.warehouse.FloorPlan(), now, order, c).snap
      ensures allOk <==> state.safeStopped == old(state.safeStopped)
    {
      hide Simulator.FleetView, Simulator.Valid, SoundBut, Guards, ReplanAll, WellTimed, Warehouse.FloorPlan,
           Snap.Movers, Plan, Rerouted, Distinct, Replannable, Coordinator.Reserved;
      ghost var fleet, floor := sim.FleetView(), sim.warehouse.FloorPlan();
      allOk := true;
      NothingReplanned(s, floor, now, c);
      assert order[..0] == [];
      for k := 0 to |order|
        invariant Replannable(s, order[..k])
                  && Replans(state.View(), table.Contents()) == ReplanAll(s, floor, now, order[..k], c)
        invariant s.safeStopped <= state.safeStopped && (allOk <==> state.safeStopped == s.safeStopped)
      {
        BatchSound(s, fleet, floor, now, order, c, k);
        RestShrinks(order, k);
        MoverRecorded(state.View(), fleet, floor, now, SetOf(order[k..]), order[k]);
        NextReplan(s, floor, now, order, c, k);
        var ok := ReplanOne(state, order[k], now, table, SetOf(order[k..]));
        allOk := allOk && ok;
      }
      assert order[..|order|] == order;
    }

    /** One robot, from the cell it stands on to its goal. */
    method ReplanOne(state: RunState, id: string, now: int, table: ReservationTable, ghost rest: set<string>)
      returns (ok: bool)
      requires planner.warehouse == sim.warehouse && planner.heuristic == SpatialPlanning.MANHATTAN
      requires SoundBut(state.View(), sim.FleetView(), sim.warehouse.FloorPlan(), now, rest) && id in rest
               && id in state.View().Movers()
      requires Guards(table.Contents(), state.View(), now, rest)
      requires id in state.trace && state.trace[id] != [] && id in state.goals
      modifies state`paths, state`safeStopped, table
      ensures var path := Plan(QueryOf(old(state.View()), sim.warehouse.FloorPlan(), now, id, old(table.Contents())));
              state.View() == Rerouted(old(state.View()), now, id, path)
              && table.Contents() == Coordinator.Reserved(old(table.Contents()), path, state.horizon)
      ensures old(state.safeStopped) <= state.safeStopped && (ok <==> state.safeStopped == old(state.safeStopped))
    {
      hide Simulator.FleetView, SoundBut, Guards, Plan, Warehouse.FloorPlan, WellTimed, VertexKeys, EdgeKeys,
           Claims.Grants, Claims.With;
      RerouteOne(state.View(), sim.FleetView(), sim.warehouse.FloorPlan(), now, rest, id, table.Contents());
      InPaths(state.View(), id);
      var history := state.trace[id];
      var current := history[|history| - 1].position;
      var suffix := planner.PlanRoute(current, state.goals[id], table, id, now, Some(state.horizon));
      Coordinator.ReservedCases(table.Contents(), suffix, state.horizon);
      if suffix.Planned? {
        var raised := table.ReserveTimedPath(suffix, state.horizon);
        state.paths := state.paths[id := Splice(history, suffix.steps)];
        return true;
      } else {
        state.safeStopped := state.safeStopped + {id};
        state.paths := state.paths[id := Splice(history, [TimedStep(current, now)])];
        return false;
      }
    }

    /** Robots whose remaining route uses a cell. */
    method HitBy(state: RunState, cell: Position, now: int) returns (hit: set<string>)
      ensures hit == Touching(state.View(), cell, now)
    {
      hit := set id | id in state.paths && id !in state.offline && id !in state.safeStopped
          && RouteTouchesCell(state.paths[id], cell, now);
    }

    /** Recovery switched off: the affected robots stop where they are. */
    method StopAffected(state: RunState, affected: set<string>, now: int)
      requires affected <= state.View().Movers()
      requires SoundBut(state.View(), sim.FleetView(), sim.warehouse.FloorPlan(), now, affected)
      modifies state`paths, state`safeStopped
      ensures Replannable(old(state.View()), Sorted(affected))
      ensures state.View() == StopAll(old(state.View()), now, Sorted(affected))
    {
      hide Simulator.FleetView, SoundBut, Warehouse.FloorPlan, WellTimed, Snap.Movers, Rerouted, Distinct, Replannable,
           StopAll, Sorted, ChangedOnly;
      ghost var s, fleet, floor := state.View(), sim.FleetView(), sim.warehouse.FloorPlan();
      var order := Sorted(affected);
      SortedFacts(affected);
      assert SetOf(order) == affected && order[..0] == [];
      NothingStopped(s, now);
      for k := 0 to |order|
        invariant Replannable(s, order[..k]) && state.View() == StopAll(s, now, order[..k])
      {
        var id := order[k];
        StopAllSound(s, fleet, floor, now, order, k);
        RestShrinks(order, k);
        MoverRecorded(state.View(), fleet, floor, now, SetOf(order[k..]), id);
        NextStop(s, now, order, k);
        var history := state.trace[id];
        var current := history[|history| - 1].position;
        RerouteUnplanned(state.View(), now, id);
        state.safeStopped := state.safeStopped + {id};
        state.paths := state.paths[id := Splice(history, [TimedStep(current, now)])];
      }
      assert order[..|order|] == order;
    }

    /** Replan the affected robots, or stop them when recovery is off. */
    method HandleRoutes(state: RunState, affected: set<string>, now: int)
      returns (allOk: bool, raised: bool, ghost c: Claims)
      requires sim.Valid() && planner.warehouse == sim.warehouse && planner.heuristic == SpatialPlanning.MANHATTAN
      requires affected <= state.View().Movers()
      requires SoundBut(state.View(), sim.FleetView(), sim.warehouse.FloorPlan(), now, affected)
      requires recoveryEnabled ==> StepsClearBut(state.View(), sim.FleetView(), now, affected)
      modifies state`paths, state`safeStopped
      ensures !raised ==>
                RoutesHandled(old(state.View()), state.View(), sim.FleetView(), sim.warehouse.FloorPlan(), now,
                    recoveryEnabled, affected, c)
                && (allOk <==> state.safeStopped == old(state.safeStopped))
      ensures raised ==>
                && recoveryEnabled && affected != {} && state.View() == old(state.View())
                && !Buildable(state.View(), sim.FleetView(), now, affected)
    {
      hide Simulator.FleetView, SoundBut, StepsClearBut, Warehouse.FloorPlan, Snap.Movers, Replannable, StopAll,
           Sorted, Buildable, ReplannedAround;
      c := Claims(map[], map[]);
      if affected == {} {
        return true, false, c;
      }
      if !recoveryEnabled {
        StopsSomebody(state.View(), sim.FleetView(), sim.warehouse.FloorPlan(), now, affected);
        StopAffected(state, affected, now);
        return false, false, c;
      }
      allOk, raised, c := ReplanAffected(state, affected, now);
    }

    /** A new obstacle. Nothing happens when it cannot be placed. */
    method RecoverObstacle(state: RunState, id: string, cell: Position, now: int)
      returns (report: EventReport, raised: bool, ghost c: Claims)
      requires sim.Valid() && sim.warehouse.Valid() && planner.warehouse == sim.warehouse
               && planner.heuristic == SpatialPlanning.MANHATTAN
      requires Going(state.View(), sim.FleetView(), sim.warehouse.FloorPlan(), now, recoveryEnabled)
      modifies state`paths, state`safeStopped, sim.warehouse
      ensures sim.Valid() && sim.warehouse.Valid() && sim.FleetView() == old(sim.FleetView())
               && sim.TaskViews() == old(sim.TaskViews())
      ensures !raised ==>
                ObstacleHandled(old(state.View()), state.View(), sim.FleetView(), old(sim.warehouse.SiteView()),
                    sim.warehouse.SiteView(), id, cell, now, recoveryEnabled, report, c)
      ensures raised ==>
                && recoveryEnabled && MayAppear(sim.FleetView(), old(sim.warehouse.SiteView()), id, cell)
                && Touching(old(state.View()), cell, now) != {}
                && !Buildable(old(state.View()), sim.FleetView(), now, Touching(old(state.View()), cell, now))
    {
      hide Simulator.FleetView, Simulator.TaskViews, Simulator.Valid, SoundBut, StepsClearBut, Warehouse.FloorPlan,
           Warehouse.SiteView, Snap.Movers, RoutesHandled, Buildable, Touching, Sound;
      c := Claims(map[], map[]);
      ghost var site := sim.warehouse.SiteView();
      var refused := sim.AddDynamicObstacle(id, cell);
      assert sim.FleetView() == old(sim.FleetView()) && sim.TaskViews() == old(sim.TaskViews());
      assert sim.warehouse.FloorPlan() == sim.warehouse.SiteView().floor;
      if refused.Some? {
        return EventReport(false, {}, None, None, true, false), false, c;
      }
      var affected := HitBy(state, cell, now);
      ObstacleSparesOthers(state.View(), sim.FleetView(), old(sim.warehouse.FloorPlan()), now, cell);
      TouchingAreMovers(state.View(), cell, now);
      ClearOfSome(state.View(), sim.FleetView(), now, affected);
      var allOk;
      allOk, raised, c := HandleRoutes(state, affected, now);
      report := EventReport(true, affected, None, None, allOk, !allOk);
    }

    /** Route a spare that has just been handed the task to the pickup, around
        everybody else. If that cannot be done the task is taken back again. */
    method RouteSpare(state: RunState, n: string, task: string, now: int, ghost rest: set<string>)
      returns (to: Option<string>, raised: bool, ghost c: Claims)
      requires sim.Valid() && planner.warehouse == sim.warehouse && planner.heuristic == SpatialPlanning.MANHATTAN
      requires n in sim.robots && task in sim.tasks && n !in state.offline
      requires sim.robots[n].status == AssignedTo && sim.robots[n].assignedTask == Some(task)
      requires sim.tasks[task].status == Assigned
      requires SoundBut(state.View(), sim.FleetView(), sim.warehouse.FloorPlan(), now, rest)
      modifies state, sim.robots[n], sim.tasks[task]
      ensures sim.Valid()
      ensures raised ==> !Buildable(old(state.View()), old(sim.FleetView()), now, {n})
      ensures state.offline == old(state.offline)
      ensures !raised ==> SpareRoute(old(state.View()), state.View(), old(sim.FleetView()), old(sim.TaskViews()),
               sim.FleetView(), sim.TaskViews(), sim.warehouse.FloorPlan(), now, task, n, to, c)
    {
      hide Simulator.FleetView, Simulator.TaskViews, Simulator.Valid, SoundBut, Warehouse.FloorPlan, Plan,
           IsFutureTable, Included, Buildable, Foreseeable, Joined, Pins, Underway;
      ghost var s, fleet, floor := state.View(), sim.FleetView(), sim.warehouse.FloorPlan();
      sim.Entries();
      UnderwayNow(s, fleet, floor, now, rest);
      to := None;
      var table;
      table, raised := FutureTable(state, now, {n});
      c := table.Contents();
      if raised {
        return;
      }
      var pickup := sim.tasks[task].pickup;
      var start := sim.robots[n].position;
      var suffix := planner.PlanRoute(start, pickup, table, n, now, Some(state.horizon));
      to := SendOrHandBack(state, n, task, start, now, pickup, suffix);
    }

    /** Send the spare on its route; without one, take the task back. */
    method SendOrHandBack(state: RunState, n: string, task: string, start: Position, now: int, pickup: Position,
            suffix: TimedPath)
      returns (to: Option<string>)
      requires sim.Valid() && n in sim.robots && task in sim.tasks && sim.tasks[task].status == Assigned
      modifies state, sim.robots[n], sim.tasks[task]
      ensures sim.Valid() && state.offline == old(state.offline)
      ensures suffix.Planned? ==>
                && to == Some(n) && sim.FleetView() == old(sim.FleetView()) && sim.TaskViews() == old(sim.TaskViews())
                && state.View() == Joined(old(state.View()), n, start, now, pickup, suffix.steps)
      ensures suffix.Unplanned? ==>
                && to.None? && state.View() == old(state.View())
                && sim.FleetView() == old(sim.FleetView())[n := old(sim.robots[n].View()).Cleared()]
                && var freed := old(sim.tasks[task].View()).(status := Pending, assignedRobot := None);
                   sim.TaskViews() == old(sim.TaskViews())[task := freed]
    {
      hide Simulator.FleetView, Simulator.TaskViews, Simulator.Valid, Joined;
      to := None;
      if suffix.Unplanned? {
        HandBack(n, task);
        return;
      }
      Enter(state, n, start, now, pickup, suffix.steps);
      to := Some(n);
    }

    method Enter(state: RunState, n: string, start: Position, now: int, goal: Position, route: seq<TimedStep>)
      modifies state
      ensures state.View() == Joined(old(state.View()), n, start, now, goal, route)
               && state.joined == old(state.joined) + {n}
      ensures state.offline == old(state.offline)
    {
      state.paths := state.paths[n := route];
      state.goals := state.goals[n := goal];
      state.trace := state.trace[n := [TimedStep(start, now)]];
      state.moves := state.moves[n := 0];
      state.waits := state.waits[n := 0];
      state.joined := state.joined + {n};
    }

    /** Take the failed robot's task back and offer it to the rest of the fleet. */
    method RecoverTask(state: RunState, f: string, now: int, ghost cell: Position)
      returns (held: Option<string>, offered: bool, to: Option<string>, raised: bool, ghost c: Claims)
      requires sim.Valid() && planner.warehouse == sim.warehouse && planner.heuristic == SpatialPlanning.MANHATTAN
      requires f in sim.robots && sim.robots[f].status == Offline
      requires Disrupted(state.View(), sim.FleetView(), sim.warehouse.FloorPlan(), now, cell)
      requires f in Pins(state.View(), sim.FleetView()) && Pins(state.View(), sim.FleetView())[f] == cell
      requires Placed(sim.warehouse.FloorPlan(), sim.FleetView(), sim.TaskViews())
      modifies state, sim.robots.Values, sim.tasks.Values
      ensures sim.Valid()
      ensures !raised ==>
                f in old(sim.FleetView())
                && TaskHandled(old(state.View()), state.View(), old(sim.FleetView()), old(sim.TaskViews()),
                    sim.FleetView(), sim.TaskViews(), sim.warehouse.FloorPlan(), now, f, to, c)
                && (offered <==> IsOffered(old(sim.FleetView()), old(sim.TaskViews()), f))
                && held == (if HoldsRegistered(old(sim.FleetView()), old(sim.TaskViews()), f)
                    then old(sim.FleetView())[f].assignedTask else None)
      ensures raised ==>
                f in old(sim.FleetView())
                && SpareUpset(old(state.View()), old(sim.FleetView()), old(sim.TaskViews()), sim.warehouse.FloorPlan(),
                    now, f)
    {
      hide Simulator.FleetView, Simulator.TaskViews, Simulator.Valid, Disrupted, Warehouse.FloorPlan, Pins, FreedFleet,
           FreedTasks, Placed, SpareHandled, IsOffered, MayAssign, BestSpare, Buildable;
      ghost var fleet1, tasks := sim.FleetView(), sim.TaskViews();
      to, raised, c := None, false, Claims(map[], map[]);
      sim.Entries();
      ReleasedFacts(sim.warehouse.FloorPlan(), fleet1, tasks, f);
      held, offered := ReleaseFailedTask(sim, f);
      if !offered {
        return;
      }
      sim.Entries();
      StandingDisrupted(state.View(), fleet1, sim.FleetView(), sim.warehouse.FloorPlan(), now, cell);
      to, raised, c := OfferReleased(state, held.value, now, cell, f);
    }

    /** Offer a released task, and route whoever takes it. */
    method OfferReleased(state: RunState, task: string, now: int, ghost cell: Position, ghost f: string)
      returns (to: Option<string>, raised: bool, ghost c: Claims)
      requires sim.Valid() && planner.warehouse == sim.warehouse && planner.heuristic == SpatialPlanning.MANHATTAN
      requires task in sim.tasks && sim.tasks[task].status == Pending && sim.tasks[task].assignedRobot.None?
      requires Disrupted(state.View(), sim.FleetView(), sim.warehouse.FloorPlan(), now, cell)
      requires f in Pins(state.View(), sim.FleetView()) && Pins(state.View(), sim.FleetView())[f] == cell
      requires Placed(sim.warehouse.FloorPlan(), sim.FleetView(), sim.TaskViews())
      modifies state, sim.robots.Values, sim.tasks.Values
      ensures sim.Valid()
      ensures !raised ==>
                task in old(sim.TaskViews())
                && SpareHandled(old(state.View()), state.View(), old(sim.FleetView()), old(sim.TaskViews()),
                    sim.FleetView(), sim.TaskViews(), sim.warehouse.FloorPlan(), now, task, to, c)
      ensures raised ==>
                task in old(sim.TaskViews()) &&
                var spare := BestSpare(sim.warehouse.FloorPlan(), old(sim.FleetView()), old(sim.TaskViews())[task],
                    state.offline);
                && spare.Some? && MayAssign(old(sim.FleetView()), old(sim.TaskViews()), spare.value, task)
                && !Buildable(old(state.View()), AssignRobot(old(sim.FleetView()), spare.value, task), now,
                    {spare.value})
      ensures state.offline == old(state.offline)
    {
      hide Simulator.FleetView, Simulator.TaskViews, Simulator.Valid, Disrupted, Warehouse.FloorPlan, Pins, Placed,
           NobodyInTheWay, BestSpare, SpareRouted, SoundBut, Buildable, MayAssign, AssignRobot, AssignTask, Touching;
      ghost var s, fleet, tasks, floor := state.View(), sim.FleetView(), sim.TaskViews(), sim.warehouse.FloorPlan();
      to, raised, c := None, false, Claims(map[], map[]);
      sim.Entries();
      var spare := OfferTask(sim, task, state.offline);
      if spare.None? {
        return;
      }
      MayAssignKnown(fleet, tasks, spare.value, task);
      TakerReady(s, fleet, floor, now, cell, f, spare.value, task);
      to, raised, c := RouteTaker(state, spare.value, task, now, fleet, tasks, Touching(s, cell, now));
    }

    /** Route the robot that has just taken the task. */
    method RouteTaker(state: RunState, n: string, task: string, now: int, ghost fleet: Fleet, ghost tasks: Tasks,
            ghost rest: set<string>)
      returns (to: Option<string>, raised: bool, ghost c: Claims)
      requires sim.Valid() && planner.warehouse == sim.warehouse && planner.heuristic == SpatialPlanning.MANHATTAN
      requires MayAssign(fleet, tasks, n, task) && tasks[task].assignedRobot.None? && n !in state.offline
      requires sim.FleetView() == AssignRobot(fleet, n, task) && sim.TaskViews() == AssignTask(tasks, n, task)
      requires SoundBut(state.View(), sim.FleetView(), sim.warehouse.FloorPlan(), now, rest)
      modifies state, sim.robots.Values, sim.tasks.Values
      ensures sim.Valid()
      ensures !raised ==> SpareRouted(old(state.View()), state.View(), fleet, tasks, sim.FleetView(), sim.TaskViews(),
               sim.warehouse.FloorPlan(), now, task, n, to, c)
      ensures raised ==> !Buildable(old(state.View()), AssignRobot(fleet, n, task), now, {n})
      ensures state.offline == old(state.offline)
    {
      hide Simulator.FleetView, Simulator.TaskViews, Simulator.Valid, Warehouse.FloorPlan, SpareRoute, SpareRouted,
           SoundBut, Buildable;
      ghost var s, busy, taken := state.View(), sim.FleetView(), sim.TaskViews();
      sim.Entries();
      assert n in sim.FleetView() && task in sim.TaskViews();
      to, raised, c := RouteSpare(state, n, task, now, rest);
      if !raised {
        SpareRouteUndone(s, state.View(), fleet, tasks, busy, taken, sim.FleetView(), sim.TaskViews(),
            sim.warehouse.FloorPlan(), now, task, n, to, c);
      }
    }

    /** The robot goes offline where it stands. */
    method TakeOffline(state: RunState, f: string, ghost now: int) returns (cell: Position)
      requires sim.Valid() && f in sim.robots && Recorded(state.View(), sim.FleetView(), now)
      modifies state`offline, state`paths, sim.robots[f]
      ensures sim.Valid() && sim.robots[f].status == Offline && sim.TaskViews() == old(sim.TaskViews())
      ensures sim.FleetView() == FleetOffline(old(sim.FleetView()), f)
      ensures state.View() == AfterLoss(old(state.View()), f)
      ensures cell == old(sim.FleetView())[f].position
    {
      hide Simulator.FleetView, Simulator.TaskViews, Simulator.Valid, Recorded, AfterLoss, FleetOffline;
      sim.Entries();
      LastStandsThere(state.View(), sim.FleetView(), now, f);
      cell := sim.robots[f].position;
      if f in state.trace {
        cell := state.trace[f][|state.trace[f]| - 1].position;
      }
      SetOffline(f);
      RecordLoss(state, f);
    }

    method SetOffline(f: string)
      requires sim.Valid() && f in sim.robots
      modifies sim.robots[f]
      ensures sim.Valid() && sim.robots[f].status == Offline && sim.TaskViews() == old(sim.TaskViews())
      ensures sim.FleetView() == FleetOffline(old(sim.FleetView()), f)
    {
      sim.robots[f].SetStatus(Offline);
      sim.OnlyRobot(f);
    }

    /** What it has driven becomes its route. */
    method RecordLoss(state: RunState, f: string)
      modifies state`offline, state`paths
      ensures state.View() == AfterLoss(old(state.View()), f)
    {
      state.offline := state.offline + {f};
      if f in state.paths && f in state.trace {
        state.paths := state.paths[f := state.trace[f]];
      }
    }

    /** A robot fails. An unknown robot changes nothing. */
    method RecoverFailure(state: RunState, f: string, now: int)
      returns (report: EventReport, raised: bool, ghost s2: Snap, ghost c1: Claims, ghost c2: Claims)
      requires sim.Valid() && planner.warehouse == sim.warehouse && planner.heuristic == SpatialPlanning.MANHATTAN
      requires Going(state.View(), sim.FleetView(), sim.warehouse.FloorPlan(), now, recoveryEnabled)
      requires Placed(sim.warehouse.FloorPlan(), sim.FleetView(), sim.TaskViews()) && NoPinNames(sim.FleetView())
      modifies state, sim.robots.Values, sim.tasks.Values
      ensures sim.Valid() && (report.applied <==> f in old(sim.FleetView()))
      ensures !report.applied ==>
                !raised && state.View() == old(state.View()) && sim.FleetView() == old(sim.FleetView())
                    && sim.TaskViews() == old(sim.TaskViews())
      ensures report.applied && !raised ==>
                FailureHandled(old(state.View()), state.View(), old(sim.FleetView()), old(sim.TaskViews()),
                    sim.FleetView(), sim.TaskViews(),
                               sim.warehouse.FloorPlan(), now, f, recoveryEnabled, report.reassignedTo, s2, c1, c2)
                && FailureReported(old(state.View()), state.View(), s2, old(sim.FleetView()), old(sim.TaskViews()), now,
                    f, recoveryEnabled, report)
      ensures raised ==>
                && recoveryEnabled && report.applied
                && LossUpset(AfterLoss(old(state.View()), f), FleetOffline(old(sim.FleetView()), f),
                    old(sim.TaskViews()), sim.warehouse.FloorPlan(), now, f, old(sim.FleetView())[f].position)
      ensures !report.applied ==> report == EventReport(false, {}, None, None, false, false)
    {
      hide Simulator.FleetView, Simulator.TaskViews, Simulator.Valid, Sound, StepsClear, Warehouse.FloorPlan, Placed,
           NoPinNames, AfterLoss, FleetOffline, TaskHandled, RoutesHandled, Touching, Disrupted, Pins, IsOffered,
               HoldsRegistered, LossUpset;
      ghost var s, fleet, tasks := state.View(), sim.FleetView(), sim.TaskViews();
      s2, c1, c2 := s, Claims(map[], map[]), Claims(map[], map[]);
      raised := false;
      sim.Entries();
      if f !in sim.robots {
        return EventReport(false, {}, None, None, false, false), false, s2, c1, c2;
      }
      RecordsOfSound(s, fleet, sim.warehouse.FloorPlan(), now);
      var cell := TakeOffline(state, f, now);
      OfflineHoldsTheSame(fleet, tasks, f);
      if !recoveryEnabled {
        sim.Entries();
        return EventReport(true, {f}, sim.robots[f].assignedTask, None, false, true), false, s2, c1, c2;
      }
      FailureDisrupts(s, fleet, sim.warehouse.FloorPlan(), now, f);
      OfflineKeepsPlaces(sim.warehouse.FloorPlan(), fleet, tasks, f);
      report, raised, s2, c1, c2 := RecoverFromLoss(state, f, cell, now);
    }

    /** Replan everybody whose route still uses the failed robot's cell. */
    method ReplanThrough(state: RunState, cell: Position, now: int)
      returns (others: set<string>, allOk: bool, raised: bool, ghost c: Claims)
      requires sim.Valid() && planner.warehouse == sim.warehouse && planner.heuristic == SpatialPlanning.MANHATTAN
               && recoveryEnabled
      requires Disrupted(state.View(), sim.FleetView(), sim.warehouse.FloorPlan(), now, cell)
      modifies state`paths, state`safeStopped
      ensures !raised ==>
                RoutesHandled(old(state.View()), state.View(), sim.FleetView(), sim.warehouse.FloorPlan(), now, true,
                              Touching(old(state.View()), cell, now), c)
                && (allOk <==> state.safeStopped == old(state.safeStopped))
      ensures others == Touching(old(state.View()), cell, now)
      ensures raised ==>
                Touching(old(state.View()), cell, now) != {}
                && !Buildable(old(state.View()), sim.FleetView(), now, Touching(old(state.View()), cell, now))
    {
      hide Simulator.FleetView, Simulator.Valid, Warehouse.FloorPlan, RoutesHandled, Touching, Buildable, SoundBut,
           StepsClearBut;
      others := HitBy(state, cell, now);
      TouchingAreMovers(state.View(), cell, now);
      allOk, raised, c := HandleRoutes(state, others, now);
    }

    /** The failed robot is offline: its task first, then the routes through its cell. */
    method RecoverFromLoss(state: RunState, f: string, cell: Position, now: int)
      returns (report: EventReport, raised: bool, ghost s2: Snap, ghost c1: Claims, ghost c2: Claims)
      requires sim.Valid() && planner.warehouse == sim.warehouse && planner.heuristic == SpatialPlanning.MANHATTAN
               && recoveryEnabled
      requires f in sim.robots && sim.robots[f].status == Offline
      requires Disrupted(state.View(), sim.FleetView(), sim.warehouse.FloorPlan(), now, cell)
      requires f in Pins(state.View(), sim.FleetView()) && Pins(state.View(), sim.FleetView())[f] == cell
      requires Placed(sim.warehouse.FloorPlan(), sim.FleetView(), sim.TaskViews()) && NoPinNames(sim.FleetView())
      modifies state, sim.robots.Values, sim.tasks.Values
      ensures sim.Valid() && report.applied && f in old(sim.FleetView())
      ensures !raised ==>
                && TaskHandled(old(state.View()), s2, old(sim.FleetView()), old(sim.TaskViews()), sim.FleetView(),
                    sim.TaskViews(), sim.warehouse.FloorPlan(), now, f, report.reassignedTo, c1)
                && RoutesHandled(s2, state.View(), sim.FleetView(), sim.warehouse.FloorPlan(), now, true,
                    Touching(s2, cell, now), c2)
                && report.affected == {f} + Touching(s2, cell, now) && report.safeStop == !report.success
                && report.task == (if HoldsRegistered(old(sim.FleetView()), old(sim.TaskViews()), f)
                    then old(sim.FleetView())[f].assignedTask else None)
                && (report.success <==>
                      && state.safeStopped == old(state.safeStopped)
                      && (IsOffered(old(sim.FleetView()), old(sim.TaskViews()), f) ==> report.reassignedTo.Some?))
      ensures raised ==> LossUpset(old(state.View()), old(sim.FleetView()), old(sim.TaskViews()),
               sim.warehouse.FloorPlan(), now, f, cell)
    {
      hide Simulator.FleetView, Simulator.TaskViews, Simulator.Valid, Warehouse.FloorPlan, Placed, NoPinNames,
           TaskHandled, RoutesHandled, Touching, Disrupted, Pins, ParkedClear, IsOffered, HoldsRegistered, SpareUpset,
           Buildable, LossUpset;
      ghost var s1, fleet1, tasks := state.View(), sim.FleetView(), sim.TaskViews();
      sim.Entries();
      report := EventReport(true, {f}, None, None, false, true);
      c2 := Claims(map[], map[]);
      var held, offered, to;
      held, offered, to, raised, c1 := RecoverTask(state, f, now, cell);
      s2 := state.View();
      if raised {
        SpareUpsetsLoss(s1, fleet1, tasks, sim.warehouse.FloorPlan(), now, f, cell);
        return;
      }
      TaskHandledKeeps(s1, s2, fleet1, tasks, sim.FleetView(), sim.TaskViews(), sim.warehouse.FloorPlan(), now, f, to,
          c1, cell);
      ghost var fleet2, tasks2 := sim.FleetView(), sim.TaskViews();
      report, raised, c2 := FinishFailure(state, f, cell, now, held, offered, to);
      if raised {
        ThroughUpsetsLoss(s1, s2, fleet1, tasks, fleet2, tasks2, sim.warehouse.FloorPlan(), now, f, cell, to, c1);
      }
    }

    /** The last part of a failure: the routes through the cell, and the report. */
    method FinishFailure(state: RunState, f: string, cell: Position, now: int, held: Option<string>, offered: bool,
            to: Option<string>)
      returns (report: EventReport, raised: bool, ghost c: Claims)
      requires sim.Valid() && planner.warehouse == sim.warehouse && planner.heuristic == SpatialPlanning.MANHATTAN
               && recoveryEnabled
      requires Disrupted(state.View(), sim.FleetView(), sim.warehouse.FloorPlan(), now, cell)
      modifies state`paths, state`safeStopped
      ensures var s := old(state.View());
              && report == EventReport(true, {f} + Touching(s, cell, now), held, to, report.success, !report.success)
              && (!raised ==>
                    && RoutesHandled(s, state.View(), sim.FleetView(), sim.warehouse.FloorPlan(), now, true,
                                     Touching(s, cell, now), c)
                    && (report.success <==> state.safeStopped == s.safeStopped && (offered ==> to.Some?)))
              && (raised ==>
                    Touching(s, cell, now) != {} && !Buildable(s, sim.FleetView(), now, Touching(s, cell, now)))
    {
      hide Simulator.FleetView, Simulator.Valid, Warehouse.FloorPlan, RoutesHandled, Touching, Disrupted, Buildable;
      var others, allOk;
      others, allOk, raised, c := ReplanThrough(state, cell, now);
      var success := allOk && (offered ==> to.Some?);
      report := EventReport(true, {f} + others, held, to, success, !success);
    }

    /** The independent check after a recovery: in a sound run it never crashes
        and never finds a conflict. */
    method ScoreRecovery(state: RunState, now: int) returns (unresolved: seq<Conflicts.Problem>)
      requires Sound(state.View(), sim.FleetView(), sim.warehouse.FloorPlan(), now)
      ensures unresolved == []
    {
      hide Sound, Conflicts.PlanIsSafe, Conflicts.Crashes, Conflicts.DistinctIds, Conflicts.Routes, RemainingPaths,
           Sorted, Conflicts.InOrder;
      RemainingPlanIsSafe(state.View(), sim.FleetView(), sim.warehouse.FloorPlan(), now);
      var paths := RemainingPaths(state.View(), now);
      SortedFacts(paths.Keys);
      var report := Conflicts.FindCoordinationProblems(Conflicts.InOrder(paths, Sorted(paths.Keys)),
          sim.warehouse.FloorPlan(), map[], false);
      unresolved := report.list;
    }

    method HandBack(n: string, task: string)
      requires sim.Valid() && n in sim.robots && task in sim.tasks && sim.tasks[task].status == Assigned
      modifies sim.robots[n], sim.tasks[task]
      ensures sim.Valid()
      ensures sim.FleetView() == old(sim.FleetView())[n := old(sim.robots[n].View()).Cleared()]
      ensures sim.TaskViews() == old(sim.TaskViews())[task := old(sim.tasks[task].View()).(status := Pending,
               assignedRobot := None)]
    {
      var _ := sim.tasks[task].Unassign();
      sim.robots[n].ClearTask();
      sim.OnlyRobot(n);
      sim.OnlyTask(task);
    }

    /** Everything this run touches, as it stands. */
    ghost function Now(state: RunState): Moment
      reads state, sim`robots, sim`tasks, sim.robots.Values, sim.tasks.Values, sim.warehouse
    {
      Moment(state.View(), sim.FleetView(), sim.TaskViews(), sim.warehouse.SiteView())
    }

    /** React to one event, or raise over a table that cannot be built. */
    method HandleEvent(state: RunState, e: Event, now: int) returns (report: EventReport, raised: bool)
      requires sim.Valid() && sim.warehouse.Valid() && planner.warehouse == sim.warehouse
               && planner.heuristic == SpatialPlanning.MANHATTAN
      requires KeptAt(Now(state), now, recoveryEnabled)
      modifies state, sim.warehouse, sim.robots.Values, sim.tasks.Values
      ensures sim.Valid() && sim.warehouse.Valid()
      ensures !raised ==> Reacts(old(Now(state)), Now(state), now, recoveryEnabled, e, report)
      ensures raised ==> recoveryEnabled && Upset(old(Now(state)), now, e)
    {
      hide Simulator.FleetView, Simulator.TaskViews, Simulator.Valid, Warehouse.FloorPlan, Warehouse.SiteView, Kept,
           Reacts, Upset;
      match e
      case ObstacleAppears(_, cell, id) => report, raised := HandleObstacle(state, e, cell, id, now);
      case RobotFails(_, f) => report, raised := HandleFailure(state, e, f, now);
    }

    method HandleObstacle(state: RunState, ghost e: Event, cell: Position, id: string, now: int)
      returns (report: EventReport, raised: bool)
      requires sim.Valid() && sim.warehouse.Valid() && planner.warehouse == sim.warehouse
               && planner.heuristic == SpatialPlanning.MANHATTAN
      requires KeptAt(Now(state), now, recoveryEnabled)
      requires e.ObstacleAppears? && e.cell == cell && e.obstacleId == id
      modifies state`paths, state`safeStopped, sim.warehouse
      ensures sim.Valid() && sim.warehouse.Valid()
      ensures !raised ==> Reacts(old(Now(state)), Now(state), now, recoveryEnabled, e, report)
      ensures raised ==> recoveryEnabled && Upset(old(Now(state)), now, e)
    {
      hide Simulator.FleetView, Simulator.TaskViews, Simulator.Valid, Warehouse.FloorPlan, Warehouse.SiteView, Sound,
           StepsClear, NoPinNames, Placed, TracesApart, Buildable, ObstacleHandled, Touching, MayAppear;
      ghost var c;
      report, raised, c := RecoverObstacle(state, id, cell, now);
    }

    method HandleFailure(state: RunState, ghost e: Event, f: string, now: int)
      returns (report: EventReport, raised: bool)
      requires sim.Valid() && sim.warehouse.Valid() && planner.warehouse == sim.warehouse
               && planner.heuristic == SpatialPlanning.MANHATTAN
      requires KeptAt(Now(state), now, recoveryEnabled)
      requires e.RobotFails? && e.robot == f
      modifies state, sim.robots.Values, sim.tasks.Values
      ensures sim.Valid() && sim.warehouse.Valid()
      ensures !raised ==> Reacts(old(Now(state)), Now(state), now, recoveryEnabled, e, report)
      ensures raised ==> recoveryEnabled && Upset(old(Now(state)), now, e)
    {
      hide Simulator.FleetView, Simulator.TaskViews, Simulator.Valid, Warehouse.FloorPlan, Warehouse.SiteView, Sound,
           StepsClear, NoPinNames, Placed, TracesApart,
           FailureHandled, FailureReported, LossUpset, AfterLoss, FleetOffline;
      ghost var m := Now(state);
      ghost var s2, c1, c2;
      report, raised, s2, c1, c2 := RecoverFailure(state, f, now);
      assert report.applied && !raised ==> Loses(m, Now(state), now, recoveryEnabled, f, report, s2, c1, c2);
    }

    /** React to the events of one timestep, in order. */
    method HandleEvents(state: RunState, events: seq<Event>, now: int, ghost start: Moment, ghost before: seq<Link>)
      returns (reports: seq<EventReport>, raised: bool, ghost links: seq<Link>)
      requires sim.Valid() && sim.warehouse.Valid() && planner.warehouse == sim.warehouse
               && planner.heuristic == SpatialPlanning.MANHATTAN
      requires KeptAt(start, 0, recoveryEnabled) && Chain(start, before, recoveryEnabled)
               && Last(start, before) == Now(state) && Clock(before) == now
      modifies state, sim.warehouse, sim.robots.Values, sim.tasks.Values
      ensures sim.Valid() && sim.warehouse.Valid()
      ensures Chain(start, links, recoveryEnabled) && Clock(links) == now && Reports(links) == Reports(before) + reports
      ensures !raised ==> Last(start, links) == Now(state) && Deeds(links) == Deeds(before) + ReactTo(events)
      ensures raised ==>
                recoveryEnabled
                && exists k :: 0 <= k < |events| && Deeds(links) == Deeds(before) + ReactTo(events[..k])
                    && Upset(Last(start, links), now, events[k])
    {
      hide Simulator.FleetView, Simulator.TaskViews, Simulator.Valid, KeptAt, Chain, Last, Clock, Deeds, Reports,
           ReactTo, Reacts, Upset, Now;
      reports, raised, links := [], false, before;
      NoReactions(events);
      for k := 0 to |events|
        invariant sim.Valid() && sim.warehouse.Valid()
        invariant Chain(start, links, recoveryEnabled) && Last(start, links) == Now(state) && Clock(links) == now
        invariant Deeds(links) == Deeds(before) + ReactTo(events[..k]) && Reports(links) == Reports(before) + reports
      {
        ghost var m := Now(state);
        ChainKeeps(start, links, recoveryEnabled);
        var report;
        report, raised := HandleEvent(state, events[k], now);
        if raised {
          return;
        }
        NextReaction(start, links, events, k, report, m, Now(state), recoveryEnabled);
        reports := reports + [report];
        links := links + [Reacted(events[k], report, Now(state))];
      }
      assert events[..|events|] == events;
    }

    /** Is everybody under way on its goal? */
    method AllDone(state: RunState) returns (done: bool)
      requires sim.Valid() && state.View().Movers() <= sim.robots.Keys && state.paths.Keys <= state.goals.Keys
      ensures done <==> EverybodyHome(state.View(), sim.FleetView())
    {
      var left := state.paths.Keys - state.offline - state.safeStopped;
      while left != {}
        invariant left <= state.View().Movers()
        invariant forall id | id in state.View().Movers() - left :: sim.robots[id].position == state.goals[id]
        decreases |left|
      {
        var id :| id in left;
        if sim.robots[id].position != state.goals[id] {
          return false;
        }
        left := left - {id};
      }
      return true;
    }

    /** Record what everybody under way has just driven. */
    method RecordStep(state: RunState, t: int)
      requires Execution.Timed(state.paths) && Tallied(state.View()) && state.paths.Keys == state.trace.Keys
      modifies state`trace, state`moves, state`waits
      ensures state.View() == Advanced(old(state.View()), t)
    {
      hide At, WellTimed, Sorted, AdvancedSome, Advanced, Tallied, Execution.Timed;
      ghost var s := state.View();
      var order := Sorted(state.paths.Keys - state.offline - state.safeStopped);
      SortedFacts(state.paths.Keys - state.offline - state.safeStopped);
      RecordEnds(s, t);
      ghost var done: set<string> := {};
      for k := 0 to |order|
        invariant done == (set id | id in order[..k]) && done <= s.Movers()
        invariant state.View() == AdvancedSome(s, t, done)
      {
        assert order[..k + 1] == order[..k] + [order[k]] && order[k] in order && order[k] !in order[..k];
        RecordMover(state, order[k], t, s, done);
        done := done + {order[k]};
      }
      assert order[..|order|] == order;
      assert done == s.Movers();
    }

    method RecordMover(state: RunState, id: string, t: int, ghost s: Snap, ghost done: set<string>)
      requires Execution.Timed(s.paths) && Tallied(s) && id in s.paths && id in s.trace && done <= s.paths.Keys
               && id !in done
      requires state.View() == AdvancedSome(s, t, done)
      modifies state`trace, state`moves, state`waits
      ensures state.View() == AdvancedSome(s, t, done + {id})
    {
      hide At, AdvancedSome, Tallied;
      RecordNext(s, t, done, id);
      var from, to := At(state.paths[id], t - 1), At(state.paths[id], t);
      if from == to {
        if t <= ArrivalTime(state.paths[id]) {
          state.waits := state.waits[id := state.waits[id] + 1];
        } else {
          state.waits := state.waits[id := state.waits[id]];
        }
        state.moves := state.moves[id := state.moves[id]];
      } else {
        state.moves := state.moves[id := state.moves[id] + 1];
        state.waits := state.waits[id := state.waits[id]];
      }
      state.trace := state.trace[id := state.trace[id] + [TimedStep(to, t)]];
    }

    /** Who moves where in the next timestep. */
    method ChooseIntents(state: RunState, t: int) returns (order: seq<string>, intents: Intents)
      requires Execution.Timed(state.paths)
      ensures intents == StepIntents(state.View(), t) && intents.Keys == state.View().Movers()
      ensures Distinct(order) && forall id :: id in order <==> id in intents
    {
      hide At, WellTimed, Sorted;
      StepIntentsAt(state.View(), t);
      var plans := MoverPlans(state.View());
      intents := Execution.IntentsAt(plans, t);
      SortedFacts(plans.Keys);
      order := Sorted(plans.Keys);
    }

    /** One timestep: validate the joint step of everybody under way, and only
        then drive and record it. */
    method TakeStep(state: RunState, now: int) returns (stop: Option<StopReason>)
      requires sim.Valid() && Execution.Timed(state.paths) && Tallied(state.View())
               && state.paths.Keys == state.trace.Keys
      requires state.View().Movers() <= sim.FleetView().Keys && state.offline <= sim.FleetView().Keys
      modifies state`trace, state`moves, state`waits, sim.robots.Values
      ensures sim.Valid() && sim.TaskViews() == old(sim.TaskViews())
               && sim.warehouse.SiteView() == old(sim.warehouse.SiteView())
      ensures stop.None? <==>
                JointStepOk(old(sim.FleetView()), sim.warehouse.FloorPlan(), StepIntents(old(state.View()), now + 1),
                            Pins(old(state.View()), old(sim.FleetView())).Values)
      ensures stop.None? ==>
                && state.View() == Advanced(old(state.View()), now + 1)
                && sim.FleetView() == DriveAll(old(sim.FleetView()), StepIntents(old(state.View()), now + 1))
      ensures stop.Some? ==>
                && state.View() == old(state.View()) && sim.FleetView() == old(sim.FleetView())
                && Explained(sim.FleetView(), sim.warehouse.FloorPlan(), StepIntents(state.View(), now + 1),
                             Pins(state.View(), sim.FleetView()).Values, stop.value)
    {
      hide Simulator.Valid, Simulator.FleetView, Simulator.TaskViews, JointStepOk, DriveAll, Explained, WellTimed,
           Warehouse.FloorPlan, Advanced, StepIntents, Sorted, Tallied, Snap.Movers, Distinct, Execution.Timed;
      assert sim.FleetView().Keys == sim.robots.Keys by {
        sim.Entries();
      }
      var order, intents := ChooseIntents(state, now + 1);
      var pins := FailedCells(state.offline);
      stop := JointStep(sim, order, intents, pins.Values);
      if stop.None? {
        RecordStep(state, now + 1);
      }
    }

    /** The loop over timesteps: events first, then one joint step. */
    method Drive(state: RunState, schedule: seq<Event>, limit: int) returns (r: RunResult, ghost links: seq<Link>)
      requires sim.Valid() && sim.warehouse.Valid() && planner.warehouse == sim.warehouse
               && planner.heuristic == SpatialPlanning.MANHATTAN
      requires KeptAt(Now(state), 0, recoveryEnabled)
      modifies state, sim.warehouse, sim.robots.Values, sim.tasks.Values
      ensures sim.Valid()
      ensures r.Began() && RanAsTold(old(Now(state)), links, recoveryEnabled, schedule, limit, r)
      ensures r.Finished? ==> Last(old(Now(state)), links) == Now(state)
    {
      hide Simulator.Valid, KeptAt, Now, OnSchedule, RanAsTold, Last;
      ghost var start := Now(state);
      var t, reports := 1, [];
      links := [];
      NothingDone(start, recoveryEnabled, schedule);
      while t <= limit
        invariant sim.Valid() && sim.warehouse.Valid() && 1 <= t <= Max(0, limit) + 1
        invariant OnSchedule(start, links, recoveryEnabled, schedule, t - 1, reports, Now(state))
        decreases limit - t
      {
        var over;
        over, reports, links := DriveOn(state, schedule, t - 1, limit, start, links, reports);
        if over.Some? {
          return over.value, links;
        }
        t := t + 1;
      }
      EndsOnSchedule(start, links, recoveryEnabled, schedule, t - 1, limit, reports, Now(state));
      return Finished(t - 1, reports, None, 0, 0), links;
    }

    /** One timestep, and whether the run ends there. */
    method DriveOn(state: RunState, schedule: seq<Event>, now: int, limit: int, ghost start: Moment,
            ghost before: seq<Link>, reports: seq<EventReport>)
      returns (over: Option<RunResult>, all: seq<EventReport>, ghost links: seq<Link>)
      requires sim.Valid() && sim.warehouse.Valid() && planner.warehouse == sim.warehouse
               && planner.heuristic == SpatialPlanning.MANHATTAN
      requires KeptAt(start, 0, recoveryEnabled)
               && OnSchedule(start, before, recoveryEnabled, schedule, now, reports, Now(state)) && now < limit
      modifies state, sim.warehouse, sim.robots.Values, sim.tasks.Values
      ensures sim.Valid() && sim.warehouse.Valid()
      ensures over.None? ==> OnSchedule(start, links, recoveryEnabled, schedule, now + 1, all, Now(state))
      ensures over.Some? ==>
                && over.value.Began() && RanAsTold(start, links, recoveryEnabled, schedule, limit, over.value)
                && (over.value.Finished? ==> Last(start, links) == Now(state))
    {
      hide Simulator.Valid, KeptAt, Now, OnSchedule, Reacting, Broken, RanAsTold, EverybodyHome, MayStep, StoppedFor,
           Last;
      var done, stop, raised, more;
      done, stop, raised, more, links := OneTimestep(state, schedule, now, start, before, reports);
      all := reports + more;
      if raised {
        BreaksOff(start, links, schedule, now, limit, all);
        return Some(Interrupted(now, all)), all, links;
      }
      if !done && stop.None? {
        return None, all, links;
      }
      EndsReacting(start, links, recoveryEnabled, schedule, now, limit, all, Now(state), stop);
      over := Some(Finished(now, all, stop, if stop == Some(VertexClash) then 1 else 0,
                            if stop == Some(EdgeClash) then 1 else 0));
    }

    /** One timestep of the loop. */
    method OneTimestep(state: RunState, schedule: seq<Event>, now: int, ghost start: Moment, ghost before: seq<Link>,
            ghost reports: seq<EventReport>)
      returns (done: bool, stop: Option<StopReason>, raised: bool, more: seq<EventReport>, ghost links: seq<Link>)
      requires sim.Valid() && sim.warehouse.Valid() && planner.warehouse == sim.warehouse
               && planner.heuristic == SpatialPlanning.MANHATTAN
      requires KeptAt(start, 0, recoveryEnabled)
               && OnSchedule(start, before, recoveryEnabled, schedule, now, reports, Now(state))
      modifies state, sim.warehouse, sim.robots.Values, sim.tasks.Values
      ensures sim.Valid() && sim.warehouse.Valid()
      ensures raised ==> recoveryEnabled && Broken(start, links, schedule, now, reports + more)
      ensures !raised && (done || stop.Some?) ==>
                && Reacting(start, links, recoveryEnabled, schedule, now, reports + more, Now(state))
                && (stop.None? <==> EverybodyHome(Now(state).snap, Now(state).fleet))
                && (stop.Some? ==> !MayStep(Now(state), now) && StoppedFor(Now(state), now, stop.value))
      ensures !raised && !done && stop.None? ==>
                OnSchedule(start, links, recoveryEnabled, schedule, now + 1, reports + more, Now(state))
    {
      hide Simulator.Valid, KeptAt, Now, Chain, EverybodyHome, MayStep, StoppedFor, Steps, Upset, Script, Deeds,
           Reports, Last, Clock, ReactTo;
      done, stop := false, None;
      OnScheduleParts(start, before, recoveryEnabled, schedule, now, reports, Now(state));
      var events := EventsAt(InOrderOfTime(schedule), now);
      more, raised, links := HandleEvents(state, events, now, start, before);
      if raised {
        ghost var k :| 0 <= k < |events| && Deeds(links) == Deeds(before) + ReactTo(events[..k])
            && Upset(Last(start, links), now, events[k]);
        assert BreaksAt(start, links, schedule, k);
        return;
      }
      OnScheduleParts(start, links, recoveryEnabled, schedule, now, reports + more, Now(state));
      ghost var m := Now(state);
      done, stop := DoneOrStep(state, now);
      if !done && stop.None? {
        TimestepDone(start, links, recoveryEnabled, schedule, now, reports + more, m, Now(state));
        links := links + [Stepped(Now(state))];
      }
    }

    /** Unless everybody is home, validate the next joint step and take it. */
    method DoneOrStep(state: RunState, now: int) returns (done: bool, stop: Option<StopReason>)
      requires sim.Valid() && sim.warehouse.Valid() && KeptAt(Now(state), now, recoveryEnabled)
      modifies state`trace, state`moves, state`waits, sim.robots.Values
      ensures sim.Valid() && sim.warehouse.Valid()
      ensures done || stop.Some? ==> Now(state) == old(Now(state))
      ensures done <==> EverybodyHome(old(Now(state)).snap, old(Now(state)).fleet)
      ensures done ==> stop.None?
      ensures stop.Some? ==> !MayStep(old(Now(state)), now) && StoppedFor(old(Now(state)), now, stop.value)
      ensures !done && stop.None? ==> Steps(old(Now(state)), Now(state), now)
    {
      hide Simulator.FleetView, Simulator.TaskViews, Simulator.Valid, Warehouse.FloorPlan, Warehouse.SiteView,
           EverybodyHome, Advanced, DriveAll, StepIntents, Explained, Tallied, Pins, KeptAt, JointStepOk;
      stop := None;
      sim.Entries();
      KeptParts(Now(state), now, recoveryEnabled);
      done := AllDone(state);
      if !done {
        assert sim.warehouse.SiteView().floor == sim.warehouse.FloorPlan();
        stop := TakeStep(state, now);
      }
    }

    /** The plan's structure, checked before anything moves. Obstacles are left to
        the timestep they matter at. */
    method CheckPlan(paths: map<string, TimedPath>) returns (refusal: Option<RunResult>)
      requires Execution.Named(paths) && forall id | id in paths :: paths[id].Planned?
      ensures refusal.None? <==> Execution.CleanPlan(Execution.PlansOf(paths), sim.warehouse.FloorPlan())
      ensures refusal == Some(CheckCrashed) <==> exists id :: id in paths && Conflicts.Overruns(paths[id].steps)
      ensures refusal.Some? ==>
               refusal.value.CheckCrashed?
               || (refusal.value.PlanRefused? && refusal.value.problems != [])
    {
      hide Execution.CleanPlan, Conflicts.PlanIsSafe, Conflicts.Crashes, Conflicts.DistinctIds, Execution.Named,
           Sorted, Conflicts.Overruns, Conflicts.Routes, Conflicts.InOrder;
      var order := Sorted(paths.Keys);
      SortedFacts(paths.Keys);
      Execution.NamesAreDistinct(paths, order);
      Execution.SafeIsClean(paths, order, sim.warehouse.FloorPlan());
      Execution.CrashByName(paths, order);
      Conflicts.SafeDoesNotCrash(Conflicts.Routes(Conflicts.InOrder(paths, order)), sim.warehouse.FloorPlan(), map[],
          false);
      var problems := Conflicts.FindCoordinationProblems(Conflicts.InOrder(paths, order), sim.warehouse.FloorPlan(),
          map[], false);
      if problems.Crashed? {
        return Some(CheckCrashed);
      }
      return if problems.list == [] then None else Some(PlanRefused(problems.list));
    }

    /** Does every robot of the plan stand where the plan starts? */
    method CheckStarts(plans: Plans) returns (refusal: Option<RunResult>)
      requires sim.Valid() && Execution.Timed(plans)
      ensures refusal.Some? ==> refusal.value.UnknownRobotPlanned? || refusal.value.NotAtItsStart?
      ensures refusal.None? <==> forall id | id in plans ::
               id in sim.FleetView() && sim.FleetView()[id].position == plans[id][0].position
    {
      hide Simulator.Valid, Sorted;
      sim.Entries();
      var order := Sorted(plans.Keys);
      SortedFacts(plans.Keys);
      for k := 0 to |order|
        invariant forall id | id in order[..k] ::
                  id in sim.FleetView() && sim.FleetView()[id].position == plans[id][0].position
      {
        assert order[..k + 1] == order[..k] + [order[k]] && order[k] in order;
        if order[k] !in sim.robots {
          return Some(UnknownRobotPlanned(order[k]));
        }
        if sim.robots[order[k]].position != plans[order[k]][0].position {
          return Some(NotAtItsStart(order[k]));
        }
      }
      assert order[..|order|] == order;
      return None;
    }

    /** A run is refused exactly when it may not begin, and the reason given is true. */
    method Preflight(plan: map<string, TimedPath>) returns (refusal: Option<RunResult>)
      requires sim.Valid() && Execution.Named(plan)
      ensures refusal.Some? ==> !refusal.value.Began()
      ensures refusal.None? <==> MayBegin(plan, sim.FleetView(), sim.warehouse.FloorPlan())
      ensures refusal == Some(NothingToDrive) <==> Execution.PlansOf(plan) == map[]
      ensures refusal == Some(CheckCrashed) <==>
               exists id :: id in Execution.PlansOf(plan) && Conflicts.Overruns(Execution.PlansOf(plan)[id])
    {
      hide Simulator.FleetView, Simulator.Valid, Execution.Named, Warehouse.FloorPlan, Execution.NoConflicts,
           Conflicts.RouteOk, Conflicts.Overruns;
      var paths := Execution.Successful(plan);
      Execution.SuccessfulParts(plan);
      if paths == map[] {
        return Some(NothingToDrive);
      }
      refusal := CheckPlan(paths);
      if refusal.None? {
        Execution.CleanIsTimed(Execution.PlansOf(paths), sim.warehouse.FloorPlan());
        refusal := CheckStarts(Execution.PlansOf(paths));
      }
    }

    /** Execute a coordinated plan, reacting to the scheduled disruptions. A plan
        that may not begin moves nothing. Any other is run as told: a chain of
        reactions and joint steps that follows the schedule, from the plan's start to
        where everything now stands. */
    method Run(plan: map<string, TimedPath>, planHorizon: int, schedule: seq<Event>, extra: int, enabled: bool)
      returns (r: RunResult, ghost start: Moment, ghost links: seq<Link>)
      requires sim.Valid() && sim.warehouse.Valid() && planner.warehouse == sim.warehouse
               && planner.heuristic == SpatialPlanning.MANHATTAN
      requires Execution.Named(plan) && Placed(sim.warehouse.FloorPlan(), sim.FleetView(), sim.TaskViews())
               && NoPinNames(sim.FleetView())
      requires MadeForThis(plan, sim.FleetView(), sim.warehouse.FloorPlan(), RunHorizon(plan, planHorizon))
      modifies `recoveryEnabled, sim.warehouse, sim.robots.Values, sim.tasks.Values
      ensures sim.Valid()
      ensures r.Began() <==> MayBegin(plan, old(sim.FleetView()), old(sim.warehouse.FloorPlan()))
      ensures r == NothingToDrive <==> Execution.PlansOf(plan) == map[]
      ensures r == CheckCrashed <==> exists id ::
               id in Execution.PlansOf(plan)
               && Conflicts.Overruns(Execution.PlansOf(plan)[id])
      ensures !r.Began() ==>
                && sim.FleetView() == old(sim.FleetView()) && sim.TaskViews() == old(sim.TaskViews())
                && sim.warehouse.SiteView() == old(sim.warehouse.SiteView())
      ensures r.Began() ==>
                && Execution.Timed(Execution.PlansOf(plan)) && KeptAt(start, 0, enabled) && ClearAt(start, 0)
                && start == Moment(Starting(Execution.PlansOf(plan), if planHorizon != 0 then planHorizon
                    else 2 * (sim.warehouse.width + sim.warehouse.height) + 4 * |Execution.PlansOf(plan)|),
                    old(sim.FleetView()), old(sim.TaskViews()), old(sim.warehouse.SiteView()))
                && (forall last | IsLatest(schedule, last) ::
                      RanAsTold(start, links, enabled, schedule,
                          last + 4 * (sim.warehouse.width + sim.warehouse.height) + extra, r))
      ensures r.Finished? ==>
                Last(start, links)
                    == Moment(Last(start, links).snap, sim.FleetView(), sim.TaskViews(), sim.warehouse.SiteView())
      ensures r.Finished? && r.stop.None? && NoneBeforeTheStart(schedule) && extra >= 0
              && start.snap.horizon <= 4 * (sim.warehouse.width + sim.warehouse.height) ==>
                && OnTheirGoals(Last(start, links))
                && Execution.Timed(Execution.PlansOf(plan))
                && Delivered(Execution.PlansOf(plan), Last(start, links), links)
      ensures r.Finished? && r.stop.None? && !OnTheirGoals(Last(start, links)) ==>
                forall last | IsLatest(schedule, last) ::
                  r.now == Max(0, last + 4 * (sim.warehouse.width + sim.warehouse.height) + extra)
    {
      hide Simulator.FleetView, Simulator.TaskViews, Simulator.Valid, Warehouse.FloorPlan, Warehouse.SiteView,
           RanAsTold, KeptAt, ClearAt, Placed, NoPinNames,
           Execution.Named, MadeForThis, MayBegin, Starting, Last, Conflicts.Overruns, Execution.Timed, IsLatest,
           OnTheirGoals, Delivered, NoneBeforeTheStart, RunHorizon, Execution.PlansOf, Coordinator.DefaultHorizon;
      ghost var fleet, tasks, site := sim.FleetView(), sim.TaskViews(), sim.warehouse.SiteView();
      recoveryEnabled := enabled;
      start, links := Moment(Snap(map[], map[], map[], map[], map[], 0, {}, {}), fleet, tasks, site), [];
      assert sim.FleetView() == fleet && sim.TaskViews() == tasks && sim.warehouse.SiteView() == site;
      assert sim.warehouse.SiteView().floor == sim.warehouse.FloorPlan();
      var refusal := Preflight(plan);
      if refusal.Some? {
        return refusal.value, start, links;
      }
      var plans := Execution.PlansOf(plan);
      HorizonOfPlan(plan, planHorizon);
      ReadyToRun(plan, sim.FleetView(), sim.TaskViews(), sim.warehouse.SiteView(), RunHorizon(plan, planHorizon),
          enabled);
      r, start, links := Launch(plans, RunHorizon(plan, planHorizon), schedule, extra);
      if r.Finished? && r.stop.None? {
        UnstoppedRun(plans, fleet, tasks, site, RunHorizon(plan, planHorizon), links, enabled, schedule,
            4 * (sim.warehouse.width + sim.warehouse.height), extra, r);
      }
    }

    /** Drive the routes of a plan, for as long as the schedule and the floor allow. */
    method Launch(plans: Plans, horizon: int, schedule: seq<Event>, extra: int)
      returns (r: RunResult, ghost start: Moment, ghost links: seq<Link>)
      requires sim.Valid() && sim.warehouse.Valid() && planner.warehouse == sim.warehouse
               && planner.heuristic == SpatialPlanning.MANHATTAN
      requires Execution.Timed(plans)
      requires KeptAt(Moment(Starting(plans, horizon), sim.FleetView(), sim.TaskViews(), sim.warehouse.SiteView()), 0,
                   recoveryEnabled)
      modifies sim.warehouse, sim.robots.Values, sim.tasks.Values
      ensures sim.Valid() && r.Began()
      ensures start == Moment(Starting(plans, horizon), old(sim.FleetView()), old(sim.TaskViews()),
                           old(sim.warehouse.SiteView())) && start.snap.horizon == horizon
      ensures forall last | IsLatest(schedule, last) ::
                RanAsTold(start, links, recoveryEnabled, schedule,
                    last + 4 * (sim.warehouse.width + sim.warehouse.height) + extra, r)
      ensures r.Finished? ==>
                Last(start, links)
                    == Moment(Last(start, links).snap, sim.FleetView(), sim.TaskViews(), sim.warehouse.SiteView())
    {
      hide Simulator.FleetView, Simulator.TaskViews, Simulator.Valid, Warehouse.SiteView, RanAsTold, KeptAt, Starting,
           Last, Execution.Timed, IsLatest;
      var state := new RunState(plans, horizon);
      StartingParts(plans, horizon);
      start := Now(state);
      r, links := Drive(state, schedule, RunLimit(schedule, extra));
    }

    lemma HorizonOfPlan(plan: map<string, TimedPath>, planHorizon: int)
      requires Execution.PlansOf(plan) != map[]
      ensures RunHorizon(plan, planHorizon) == if planHorizon != 0 then planHorizon
                else 2 * (sim.warehouse.width + sim.warehouse.height) + 4 * |Execution.PlansOf(plan)|
    {
      assert Execution.PlansOf(plan).Keys == Execution.Successful(plan).Keys;
      assert |Execution.PlansOf(plan)| == |Execution.PlansOf(plan).Keys|;
      assert |Execution.Successful(plan)| == |Execution.Successful(plan).Keys|;
    }

    function RunHorizon(plan: map<string, TimedPath>, planHorizon: int): int {
      if planHorizon != 0 then planHorizon
      else Coordinator.DefaultHorizon(sim.warehouse.width, sim.warehouse.height, |Execution.Successful(plan)|)
    }

    function RunLimit(schedule: seq<Event>, extra: int): int {
      LastTimestep(schedule) + 4 * (sim.warehouse.width + sim.warehouse.height) + extra
    }
  }
}
