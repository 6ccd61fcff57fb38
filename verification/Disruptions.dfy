/** What each disruption does to a run, and what it keeps. */
module Disruptions {
  import opened Floors
  import opened TimedPaths
  import opened Reservations
  import opened SpaceTime
  import opened Simulation
  import opened Driving
  import opened Names
  import opened Replanning
  import opened Resilience
  import SpatialPlanning
  import Execution
  import opened TaskRecovery
  import opened Schedule
  import Sorting
  import Coordinator
  import Conflicts

  /** A table can be built: its routes arrive within the horizon and never meet
      before it, and failed robots are out of everybody's way. */
  ghost predicate Buildable(s: Snap, fleet: Fleet, now: int, exclude: set<string>) {
    var ids := Included(s, fleet, now, exclude);
    && Execution.Timed(s.paths)
    && InTime(s.paths, ids, s.horizon) && MeetNever(s.paths, ids, now, s.horizon)
    && PinsClear(s.paths, ids, Pins(s, fleet), now, s.horizon)
  }

  /** Nothing but a meeting or a failed robot can spoil the table: names are
      proper and the routes in it arrive within the horizon. */
  ghost predicate Foreseeable(s: Snap, fleet: Fleet, now: int, exclude: set<string>) {
    && NoPinNames(fleet) && s.paths.Keys + s.offline <= fleet.Keys
    && Execution.Timed(s.paths) && InTime(s.paths, Included(s, fleet, now, exclude), s.horizon)
  }

  /** What a batch of replans leads to: the fold of the specification over a
      table of everybody else's remaining routes. */
  ghost predicate ReplannedAround(s: Snap, s': Snap, fleet: Fleet, floor: Floor, now: int, affected: set<string>,
          c: Claims)
  {
    && Underway(s.paths, now) && IsFutureTable(c, s.paths, Included(s, fleet, now, affected), Pins(s, fleet), now,
        s.horizon)
    && Replannable(s, Sorted(affected))
    && s' == ReplanAll(s, floor, now, Sorted(affected), c).snap
  }

  /** What a run keeps, between events and between steps: it is sound, and while
      recovery is on no route has a step on a failed robot's cell. */
  ghost predicate Going(s: Snap, fleet: Fleet, floor: Floor, now: int, enabled: bool) {
    Sound(s, fleet, floor, now) && (enabled ==> StepsClear(s, fleet, now))
  }

  /** No robot goes by a name that pins another one's cell. */
  ghost predicate NoPinNames(fleet: Fleet) {
    PinNamesFree(fleet.Keys, fleet.Keys)
  }

  datatype EventReport = EventReport(applied: bool, affected: set<string>, task: Option<string>,
          reassignedTo: Option<string>, success: bool, safeStop: bool)

  lemma PinNamesSubset(fleet: Fleet, names: set<string>, offline: set<string>)
    requires NoPinNames(fleet) && names <= fleet.Keys && offline <= fleet.Keys
    ensures PinNamesFree(names, offline)
  {
  }

  /** A batch of replans leaves the run going, and nobody else is touched. */
  lemma ReplannedKeepsGoing(s: Snap, s': Snap, fleet: Fleet, floor: Floor, now: int, affected: set<string>, c: Claims)
    requires SoundBut(s, fleet, floor, now, affected) && StepsClearBut(s, fleet, now, affected)
             && affected <= s.Movers()
    requires ReplannedAround(s, s', fleet, floor, now, affected, c) && NoPinNames(fleet)
    ensures Going(s', fleet, floor, now, true) && ChangedOnly(s, s', affected)
    ensures ParkedClear(s, fleet, now) ==> ParkedClear(s', fleet, now)
  {
    hide SoundBut, StepsClearBut, IsFutureTable, ReplanAll, Replannable, PinNamesFree, ParkedClear, ChangedOnly,
         Sorted, Guards, Pinned, Snap.Movers;
    var order := Sorted(affected);
    SortedFacts(affected);
    assert SetOf(order) == affected && order[..|order|] == order;
    FutureTableGuards(s, fleet, floor, now, affected, affected, c);
    assert affected + affected == affected;
    MoversKnown(s, fleet, floor, now, affected);
    PinNamesSubset(fleet, affected, s.offline);
    BatchSound(s, fleet, floor, now, order, c, |order|);
    BatchKeepsClear(s, fleet, floor, now, order, c, |order|);
    BatchChangesOnly(s, fleet, floor, now, order, c, |order|);
    assert order[|order|..] == [];
    NobodyNamed();
  }

  /** A table that was built could be built. */
  lemma BuiltTable(s: Snap, fleet: Fleet, now: int, exclude: set<string>, c: Claims)
    requires Execution.Timed(s.paths)
    requires IsFutureTable(c, s.paths, Included(s, fleet, now, exclude), Pins(s, fleet), now, s.horizon)
    ensures Foreseeable(s, fleet, now, exclude) ==> Buildable(s, fleet, now, exclude)
  {
    hide IsFutureTable, PinsClear, InTime, MeetNever, TouchesPin, WellTimed;
    if NoPinNames(fleet) && s.paths.Keys + s.offline <= fleet.Keys {
      PinNamesSubset(fleet, s.paths.Keys, s.offline);
    }
    TableMeansClear(c, s.paths, Included(s, fleet, now, exclude), Pins(s, fleet), now, s.horizon);
  }

  /** And one that can be built exists. */
  lemma BuildableTable(s: Snap, fleet: Fleet, now: int, exclude: set<string>) returns (c: Claims)
    requires Underway(s.paths, now) && Buildable(s, fleet, now, exclude)
    ensures IsFutureTable(c, s.paths, Included(s, fleet, now, exclude), Pins(s, fleet), now, s.horizon)
  {
    hide IsFutureTable, PinsClear, InTime, MeetNever, TouchesPin, WellTimed;
    var ids, pins := Included(s, fleet, now, exclude), Pins(s, fleet);
    var unpinned := TableOf(s.paths, ids, now, s.horizon);
    c := PinnedTableOf(unpinned, s.paths, ids, pins, pins.Keys, now, s.horizon);
    assert PinsOf(pins, pins.Keys) == pins;
  }

  lemma MoversKnown(s: Snap, fleet: Fleet, floor: Floor, now: int, rest: set<string>)
    requires SoundBut(s, fleet, floor, now, rest)
    ensures s.Movers() <= fleet.Keys && s.offline <= fleet.Keys && s.Movers() <= s.paths.Keys
    ensures Underway(s.paths, now) && Execution.Timed(s.paths)
  {
    forall id | id in s.Movers()
      ensures id in fleet
    {
      SoundParts(s, fleet, floor, now, rest, id);
    }
  }

  /** Stopping robots leaves the run going too. */
  lemma StoppedKeepsGoing(s: Snap, fleet: Fleet, floor: Floor, now: int, affected: set<string>)
    requires SoundBut(s, fleet, floor, now, affected) && affected <= s.Movers()
    ensures Replannable(s, Sorted(affected))
    ensures var s' := StopAll(s, now, Sorted(affected));
            Sound(s', fleet, floor, now) && ChangedOnly(s, s', affected) && s'.safeStopped == s.safeStopped + affected
  {
    hide SoundBut, StopAll, Replannable, ChangedOnly, Sorted, Snap.Movers;
    var order := Sorted(affected);
    SortedFacts(affected);
    assert SetOf(order) == affected && order[..|order|] == order;
    StopAllSound(s, fleet, floor, now, order, |order|);
    assert order[|order|..] == [];
    NobodyNamed();
  }

  /** What an obstacle event does, case by case. */
  ghost predicate ObstacleHandled(s: Snap, s': Snap, fleet: Fleet, site: Site, site': Site, id: string, cell: Position,
                                  now: int, enabled: bool, report: EventReport, c: Claims)
  {
    && (report.applied <==> MayAppear(fleet, site, id, cell)) && report.task.None? && report.reassignedTo.None?
    && if !report.applied then
         site' == site && s' == s && report.affected == {} && report.success && !report.safeStop
       else
         && site' == site.With(id, cell)
         && report.affected == Touching(s, cell, now)
         && RoutesHandled(s, s', fleet, site'.floor, now, enabled, report.affected, c)
         && (report.success <==> s'.safeStopped == s.safeStopped) && report.safeStop == !report.success
  }

  /** Affected robots are replanned, or stopped when recovery is off. */
  ghost predicate RoutesHandled(s: Snap, s': Snap, fleet: Fleet, floor: Floor, now: int, enabled: bool,
          affected: set<string>, c: Claims)
  {
    if affected == {} then s' == s
    else if enabled then ReplannedAround(s, s', fleet, floor, now, affected, c)
    else Replannable(s, Sorted(affected)) && s' == StopAll(s, now, Sorted(affected))
  }

  lemma RoutesHandledKeepsGoing(s: Snap, s': Snap, fleet: Fleet, floor: Floor, now: int, enabled: bool,
          affected: set<string>, c: Claims)
    requires SoundBut(s, fleet, floor, now, affected) && affected <= s.Movers() && NoPinNames(fleet)
    requires enabled ==> StepsClearBut(s, fleet, now, affected)
    requires RoutesHandled(s, s', fleet, floor, now, enabled, affected, c)
    ensures Going(s', fleet, floor, now, enabled) && ChangedOnly(s, s', affected)
    ensures enabled && ParkedClear(s, fleet, now) ==> ParkedClear(s', fleet, now)
    ensures !enabled && affected != {} ==> s'.safeStopped != s.safeStopped
  {
    hide SoundBut, StepsClearBut, ReplannedAround, StopAll, Replannable, NoPinNames, ParkedClear, ChangedOnly, Sorted;
    if affected == {} {
      NothingChanged(s, {});
    } else if enabled {
      ReplannedKeepsGoing(s, s', fleet, floor, now, affected, c);
    } else {
      StoppedKeepsGoing(s, fleet, floor, now, affected);
      assert forall id | id in affected :: id !in s.safeStopped;
    }
  }

  /** An obstacle event keeps the run going; if every replan succeeded, nobody
      has stopped, and failed robots still are in nobody's way. */
  lemma ObstacleKeepsGoing(s: Snap, s': Snap, fleet: Fleet, site: Site, site': Site, id: string, cell: Position,
          now: int, enabled: bool, report: EventReport, c: Claims)
    requires Going(s, fleet, site.floor, now, enabled) && NoPinNames(fleet)
    requires ObstacleHandled(s, s', fleet, site, site', id, cell, now, enabled, report, c)
    ensures Going(s', fleet, site'.floor, now, enabled) && ChangedOnly(s, s', report.affected)
    ensures enabled && ParkedClear(s, fleet, now) ==> ParkedClear(s', fleet, now)
    ensures report.success ==> s'.safeStopped == s.safeStopped
  {
    hide Sound, NoPinNames, ParkedClear, ChangedOnly, RoutesHandled, SoundBut, Snap.Movers, RouteTouchesCell;
    if report.applied {
      ObstacleSparesOthers(s, fleet, site.floor, now, cell);
      TouchingAreMovers(s, cell, now);
      RoutesHandledKeepsGoing(s, s', fleet, site'.floor, now, enabled, report.affected, c);
    } else {
      NothingChanged(s, {});
    }
  }

  lemma TouchingAreMovers(s: Snap, cell: Position, now: int)
    ensures Touching(s, cell, now) <= s.Movers()
  {
  }

  // ---------- What a failure does ----------

  /** The released task goes to the best spare - if it can be routed to the pickup
      around everybody else. A spare that cannot is left without it. */
  ghost predicate SpareHandled(s1: Snap, s2: Snap, fleet1: Fleet, tasks1: Tasks, fleet2: Fleet, tasks2: Tasks,
          floor: Floor, now: int, task: string, to: Option<string>, c: Claims)
    requires task in tasks1
  {
    var spare := BestSpare(floor, fleet1, tasks1[task], s1.offline);
    if spare.None? then to.None? && s2 == s1 && fleet2 == fleet1 && tasks2 == tasks1
    else
      && spare.value !in s1.offline && MayAssign(fleet1, tasks1, spare.value, task)
      && SpareRouted(s1, s2, fleet1, tasks1, fleet2, tasks2, floor, now, task, spare.value, to, c)
  }

  ghost function SpareQuery(s: Snap, fleet: Fleet, tasks: Tasks, floor: Floor, now: int, task: string, n: string,
          c: Claims): Query
    requires n in fleet && task in tasks
  {
    Query(floor, c, n, fleet[n].position, now, tasks[task].pickup, s.horizon, SpatialPlanning.MANHATTAN)
  }

  ghost predicate SpareRouted(s1: Snap, s2: Snap, fleet1: Fleet, tasks1: Tasks, fleet2: Fleet, tasks2: Tasks,
          floor: Floor, now: int, task: string, n: string, to: Option<string>, c: Claims)
    requires n in fleet1 && task in tasks1
  {
    var busy := AssignRobot(fleet1, n, task);
    && Underway(s1.paths, now) && IsFutureTable(c, s1.paths, Included(s1, busy, now, {n}), Pins(s1, busy), now,
        s1.horizon)
    && var path := Plan(SpareQuery(s1, fleet1, tasks1, floor, now, task, n, c));
       if path.Planned? then
         && to == Some(n) && fleet2 == busy && tasks2 == AssignTask(tasks1, n, task)
         && s2 == Joined(s1, n, fleet1[n].position, now, tasks1[task].pickup, path.steps)
       else to.None? && s2 == s1 && fleet2 == fleet1 && tasks2 == tasks1
  }

  /** The whole of a failure event: the robot goes offline where it stands, its
      task is taken back and offered, and the routes through its cell are replanned. */
  ghost predicate FailureHandled(s: Snap, s': Snap, fleet: Fleet, tasks: Tasks, fleet': Fleet, tasks': Tasks,
          floor: Floor, now: int, f: string, enabled: bool, to: Option<string>, s2: Snap, c1: Claims, c2: Claims)
    requires f in fleet
  {
    var s1, fleet1 := AfterLoss(s, f), FleetOffline(fleet, f);
    if !enabled then s' == s1 && fleet' == fleet1 && tasks' == tasks && to.None?
    else
      && TaskHandled(s1, s2, fleet1, tasks, fleet', tasks', floor, now, f, to, c1)
      && RoutesHandled(s2, s', fleet', floor, now, true, Touching(s2, fleet[f].position, now), c2)
  }

  ghost predicate TaskHandled(s1: Snap, s2: Snap, fleet1: Fleet, tasks: Tasks, fleet': Fleet, tasks': Tasks,
          floor: Floor, now: int, f: string, to: Option<string>, c: Claims)
    requires f in fleet1
  {
    var freed, queued := FreedFleet(fleet1, tasks, f), FreedTasks(fleet1, tasks, f);
    if IsOffered(fleet1, tasks, f) then
      SpareHandled(s1, s2, freed, queued, fleet', tasks', floor, now, fleet1[f].assignedTask.value, to, c)
    else s2 == s1 && fleet' == freed && tasks' == queued && to.None?
  }

  /** What is reported of a failure: it is a success exactly when recovery is on,
      nobody had to stop, and a task that was offered found a new robot. */
  ghost predicate FailureReported(s: Snap, s': Snap, s2: Snap, fleet: Fleet, tasks: Tasks, now: int, f: string,
          enabled: bool, report: EventReport)
    requires f in fleet
  {
    && report.applied && report.safeStop == !report.success
    && report.affected == {f} + (if enabled then Touching(s2, fleet[f].position, now) else {})
    && report.task == (if enabled && !HoldsRegistered(fleet, tasks, f) then None else fleet[f].assignedTask)
    && (report.success <==>
          && enabled && s'.safeStopped == s.safeStopped
          && (IsOffered(fleet, tasks, f) ==> report.reassignedTo.Some?))
  }

  lemma OfflineHoldsTheSame(fleet: Fleet, tasks: Tasks, f: string)
    requires f in fleet
    ensures f in FleetOffline(fleet, f) && FleetOffline(fleet, f)[f].assignedTask == fleet[f].assignedTask
    ensures IsOffered(FleetOffline(fleet, f), tasks, f) <==> IsOffered(fleet, tasks, f)
    ensures HoldsRegistered(FleetOffline(fleet, f), tasks, f) <==> HoldsRegistered(fleet, tasks, f)
  {
  }

  /** A task that was assigned to the failed robot, and not begun, is queued again; it
      finds a new robot exactly when the first choice of the fleet can be routed to the
      pickup, and nobody else is tried. Any other task finds none. */
  lemma TaskFindsRobot(s1: Snap, s2: Snap, fleet1: Fleet, tasks: Tasks, fleet': Fleet, tasks': Tasks, floor: Floor,
          now: int, f: string, to: Option<string>, c: Claims, task: string)
    requires f in fleet1 && Named(fleet1) && fleet1[f].assignedTask == Some(task) && task in tasks
    requires TaskHandled(s1, s2, fleet1, tasks, fleet', tasks', floor, now, f, to, c)
    ensures tasks[task].status != Assigned ==> to.None?
    ensures tasks[task].status == Assigned ==>
              var freed := fleet1[f := fleet1[f].(assignedTask := None)];
              var queued := tasks[task := tasks[task].(status := Pending, assignedRobot := None)];
              forall n :: to == Some(n) <==>
                && FirstChoice(floor, freed, s1.offline, queued[task], n)
                && n in freed
                && Plan(Query(floor, c, n, freed[n].position, now, tasks[task].pickup, s1.horizon,
                       SpatialPlanning.MANHATTAN)).Planned?
  {
    hide CanTakeOver, FirstChoice, Plan, BestSpare, IsFutureTable, Included, AssignRobot, AssignTask, Joined, Pins;
    var freed, queued := FreedFleet(fleet1, tasks, f), FreedTasks(fleet1, tasks, f);
    if tasks[task].status == Assigned {
      BestSpareIsCheapest(floor, freed, queued[task], s1.offline);
    }
  }

  // ---------- When a table cannot be built ----------

  /** The table the best spare is routed around cannot be built. */
  ghost predicate SpareUpset(s1: Snap, fleet1: Fleet, tasks: Tasks, floor: Floor, now: int, f: string)
    requires f in fleet1
  {
    var freed, queued := FreedFleet(fleet1, tasks, f), FreedTasks(fleet1, tasks, f);
    IsOffered(fleet1, tasks, f) &&
    var task := fleet1[f].assignedTask.value;
    var spare := BestSpare(floor, freed, queued[task], s1.offline);
    && spare.Some? && MayAssign(freed, queued, spare.value, task)
    && !Buildable(s1, AssignRobot(freed, spare.value, task), now, {spare.value})
  }

  /** The table those in the failed robot's way are replanned around cannot be built. */
  ghost predicate ThroughUpset(s1: Snap, s2: Snap, fleet1: Fleet, tasks: Tasks, fleet': Fleet, tasks': Tasks,
          floor: Floor, now: int, f: string, cell: Position, to: Option<string>, c: Claims)
    requires f in fleet1
  {
    && TaskHandled(s1, s2, fleet1, tasks, fleet', tasks', floor, now, f, to, c)
    && Touching(s2, cell, now) != {} && !Buildable(s2, fleet', now, Touching(s2, cell, now))
  }

  ghost predicate LossUpset(s1: Snap, fleet1: Fleet, tasks: Tasks, floor: Floor, now: int, f: string, cell: Position)
    requires f in fleet1
  {
    || SpareUpset(s1, fleet1, tasks, floor, now, f)
    || exists s2, fleet', tasks', to, c ::
        ThroughUpset(s1, s2, fleet1, tasks, fleet', tasks', floor, now, f, cell, to, c)
  }

  lemma SpareUpsetsLoss(s1: Snap, fleet1: Fleet, tasks: Tasks, floor: Floor, now: int, f: string, cell: Position)
    requires f in fleet1 && SpareUpset(s1, fleet1, tasks, floor, now, f)
    ensures LossUpset(s1, fleet1, tasks, floor, now, f, cell)
  {
  }

  lemma ThroughUpsetsLoss(s1: Snap, s2: Snap, fleet1: Fleet, tasks: Tasks, fleet': Fleet, tasks': Tasks, floor: Floor,
          now: int, f: string, cell: Position, to: Option<string>, c: Claims)
    requires f in fleet1 && TaskHandled(s1, s2, fleet1, tasks, fleet', tasks', floor, now, f, to, c)
    requires Touching(s2, cell, now) != {} && !Buildable(s2, fleet', now, Touching(s2, cell, now))
    ensures LossUpset(s1, fleet1, tasks, floor, now, f, cell)
  {
    hide TaskHandled, Touching, Buildable, SpareUpset;
    assert ThroughUpset(s1, s2, fleet1, tasks, fleet', tasks', floor, now, f, cell, to, c);
  }

  /** Between the failure and the replans: sound but for the routes through the
      failed robot's cell. */
  ghost predicate Disrupted(s: Snap, fleet: Fleet, floor: Floor, now: int, cell: Position) {
    SoundBut(s, fleet, floor, now, Touching(s, cell, now)) && StepsClearBut(s, fleet, now, Touching(s, cell, now))
  }

  lemma FailureDisrupts(s: Snap, fleet: Fleet, floor: Floor, now: int, f: string)
    requires Going(s, fleet, floor, now, true) && f in fleet
    ensures Disrupted(AfterLoss(s, f), FleetOffline(fleet, f), floor, now, fleet[f].position)
    ensures f in Pins(AfterLoss(s, f), FleetOffline(fleet, f))
             && Pins(AfterLoss(s, f), FleetOffline(fleet, f))[f] == fleet[f].position
  {
    hide SoundBut, StepsClearBut, Touching, AfterLoss, FleetOffline, Pins;
    FailureKeepsSound(s, fleet, floor, now, f);
    FailurePins(s, fleet, floor, now, f);
    SoundButMore(AfterLoss(s, f), FleetOffline(fleet, f), floor, now, {},
        Touching(AfterLoss(s, f), fleet[f].position, now));
  }

  lemma StandingDisrupted(s: Snap, fleet: Fleet, fleet': Fleet, floor: Floor, now: int, cell: Position)
    requires Disrupted(s, fleet, floor, now, cell) && Standing(fleet, fleet')
    ensures Disrupted(s, fleet', floor, now, cell) && Pins(s, fleet') == Pins(s, fleet)
    ensures ParkedClear(s, fleet, now) ==> ParkedClear(s, fleet', now)
  {
    hide SoundBut, StepsClearBut, Touching, Pins, Standing, ParkedClear;
    StandingKeepsSound(s, fleet, fleet', floor, now, Touching(s, cell, now));
  }

  /** A spare that joins leaves the run disrupted by no more than before. */
  lemma SpareKeepsDisrupted(s: Snap, fleet: Fleet, floor: Floor, now: int, cell: Position, n: string, goal: Position,
          c: Claims, f: string)
    requires Disrupted(s, fleet, floor, now, cell) && f in Pins(s, fleet) && Pins(s, fleet)[f] == cell
    requires n in fleet && fleet[n].status != Offline && n !in s.offline && NoPinNames(fleet)
    requires Underway(s.paths, now)
             && IsFutureTable(c, s.paths, Included(s, fleet, now, {n}), Pins(s, fleet), now, s.horizon)
    ensures var path := Plan(Query(floor, c, n, fleet[n].position, now, goal, s.horizon, SpatialPlanning.MANHATTAN));
            path.Planned? ==>
              var s' := Joined(s, n, fleet[n].position, now, goal, path.steps);
              && Disrupted(s', fleet, floor, now, cell) && Pins(s', fleet) == Pins(s, fleet)
              && (ParkedClear(s, fleet, now) ==> ParkedClear(s', fleet, now))
  {
    hide SoundBut, StepsClearBut, Plan, LegalRoute, IsFutureTable, Guards, Pinned, ParkedClear, Joined, PinNamesFree,
         RouteTouchesCell, Pins, Touching, Snap.Movers;
    var q := Query(floor, c, n, fleet[n].position, now, goal, s.horizon, SpatialPlanning.MANHATTAN);
    var path, rest := Plan(q), Touching(s, cell, now);
    PlanIsCompleteAndEarliest(q);
    if path.Planned? {
      var s' := Joined(s, n, fleet[n].position, now, goal, path.steps);
      FutureTableGuards(s, fleet, floor, now, rest, {n}, c);
      MoversKnown(s, fleet, floor, now, rest);
      PinNamesSubset(fleet, {n}, s.offline);
      JoinKeepsSound(s, fleet, floor, now, rest, n, goal, c, path);
      JoinKeepsClear(s, fleet, floor, now, rest, n, goal, c, path);
      StillTouching(s, fleet, cell, now, n, goal, path.steps);
      SoundButMore(s', fleet, floor, now, rest - {n}, Touching(s', cell, now));
    }
  }

  lemma StillTouching(s: Snap, fleet: Fleet, cell: Position, now: int, n: string, goal: Position, route: seq<TimedStep>)
    requires n !in s.offline && n in fleet
    ensures var s' := Joined(s, n, fleet[n].position, now, goal, route);
            (Touching(s, cell, now) - {n}) * s'.Movers() <= Touching(s', cell, now)
  {
    hide RouteTouchesCell;
  }

  lemma FreedStands(fleet: Fleet, tasks: Tasks, f: string)
    requires f in fleet
    ensures Standing(fleet, FreedFleet(fleet, tasks, f))
  {
  }

  lemma BusyStands(fleet: Fleet, n: string, task: string)
    requires n in fleet
    ensures Standing(fleet, AssignRobot(fleet, n, task)) && AssignRobot(fleet, n, task)[n].status != Offline
    ensures AssignRobot(fleet, n, task)[n].position == fleet[n].position
  {
  }

  lemma SameNames(fleet: Fleet, fleet': Fleet)
    requires NoPinNames(fleet) && fleet'.Keys == fleet.Keys
    ensures NoPinNames(fleet')
  {
  }

  lemma SpareHandledKeeps(s1: Snap, s2: Snap, fleet1: Fleet, tasks1: Tasks, fleet2: Fleet, tasks2: Tasks, floor: Floor,
          now: int, task: string, n: string, to: Option<string>, c: Claims, cell: Position, f: string)
    requires n in fleet1 && task in tasks1 && n !in s1.offline
    requires SpareRouted(s1, s2, fleet1, tasks1, fleet2, tasks2, floor, now, task, n, to, c)
    requires Disrupted(s1, fleet1, floor, now, cell) && f in Pins(s1, fleet1) && Pins(s1, fleet1)[f] == cell
             && NoPinNames(fleet1)
    ensures Disrupted(s2, fleet2, floor, now, cell) && fleet2.Keys == fleet1.Keys
    ensures ParkedClear(s1, fleet1, now) ==> ParkedClear(s2, fleet2, now)
    ensures s2.safeStopped == s1.safeStopped && s2.offline == s1.offline && Pins(s2, fleet2) == Pins(s1, fleet1)
  {
    hide Disrupted, Plan, LegalRoute, IsFutureTable, ParkedClear, NoPinNames, Included, AssignRobot, Joined, Pins,
         Underway;
    var busy := AssignRobot(fleet1, n, task);
    BusyStands(fleet1, n, task);
    StandingDisrupted(s1, fleet1, busy, floor, now, cell);
    SameNames(fleet1, busy);
    SpareKeepsDisrupted(s1, busy, floor, now, cell, n, tasks1[task].pickup, c, f);
    var path := Plan(SpareQuery(s1, fleet1, tasks1, floor, now, task, n, c));
    if path.Planned? {
      JoinedParts(s1, busy, n, fleet1[n].position, now, tasks1[task].pickup, path.steps);
    }
  }

  lemma TaskHandledKeeps(s1: Snap, s2: Snap, fleet1: Fleet, tasks: Tasks, fleet': Fleet, tasks': Tasks, floor: Floor,
          now: int, f: string, to: Option<string>, c: Claims, cell: Position)
    requires f in fleet1 && TaskHandled(s1, s2, fleet1, tasks, fleet', tasks', floor, now, f, to, c)
    requires Disrupted(s1, fleet1, floor, now, cell) && f in Pins(s1, fleet1) && Pins(s1, fleet1)[f] == cell
             && NoPinNames(fleet1)
    ensures Disrupted(s2, fleet', floor, now, cell) && fleet'.Keys == fleet1.Keys
    ensures ParkedClear(s1, fleet1, now) ==> ParkedClear(s2, fleet', now)
    ensures s2.safeStopped == s1.safeStopped && s2.offline == s1.offline && Pins(s2, fleet') == Pins(s1, fleet1)
  {
    hide Disrupted, ParkedClear, NoPinNames, FreedFleet, SpareRouted, Pins, BestSpare, MayAssign;
    FreedStands(fleet1, tasks, f);
    var freed, queued := FreedFleet(fleet1, tasks, f), FreedTasks(fleet1, tasks, f);
    StandingDisrupted(s1, fleet1, freed, floor, now, cell);
    SameNames(fleet1, freed);
    if IsOffered(fleet1, tasks, f) {
      var task := fleet1[f].assignedTask.value;
      var spare := BestSpare(floor, freed, queued[task], s1.offline);
      if spare.Some? {
        assert spare.value in freed by {
          MayAssignKnown(freed, queued, spare.value, task);
        }
        SpareHandledKeeps(s1, s2, freed, queued, fleet', tasks', floor, now, task, spare.value, to, c, cell, f);
      }
    }
  }

  lemma MayAssignKnown(fleet: Fleet, tasks: Tasks, n: string, task: string)
    requires MayAssign(fleet, tasks, n, task)
    ensures n in fleet && task in tasks
  {
  }

  /** A failure event keeps the run going; and when every replan succeeded and the
      failed robot stood alone, nobody is in its way afterwards either. */
  lemma FailureKeepsGoing(s: Snap, s': Snap, fleet: Fleet, tasks: Tasks, fleet': Fleet, tasks': Tasks, floor: Floor,
          now: int, f: string, enabled: bool, to: Option<string>, s2: Snap, c1: Claims, c2: Claims)
    requires Going(s, fleet, floor, now, enabled) && f in fleet && NoPinNames(fleet)
    requires FailureHandled(s, s', fleet, tasks, fleet', tasks', floor, now, f, enabled, to, s2, c1, c2)
    ensures Going(s', fleet', floor, now, enabled) && fleet'.Keys == fleet.Keys
    ensures enabled && ParkedClear(s, fleet, now) && StandsAlone(s, fleet, now, f) ==> ParkedClear(s', fleet', now)
    ensures enabled ==> s.safeStopped <= s'.safeStopped
    ensures s'.offline == s.offline + {f}
  {
    hide Sound, StepsClear, SoundBut, StepsClearBut, TaskHandled, RoutesHandled, NoPinNames, ParkedClear, StandsAlone,
         Touching, ChangedOnly, Pins;
    var s1, fleet1, cell := AfterLoss(s, f), FleetOffline(fleet, f), fleet[f].position;
    if enabled {
      FailureDisrupts(s, fleet, floor, now, f);
      SameNames(fleet, fleet1);
      TaskHandledKeeps(s1, s2, fleet1, tasks, fleet', tasks', floor, now, f, to, c1, cell);
      SameNames(fleet1, fleet');
      TouchingAreMovers(s2, cell, now);
      RoutesHandledKeepsGoing(s2, s', fleet', floor, now, true, Touching(s2, cell, now), c2);
      ChangedOnlyParts(s2, s', Touching(s2, cell, now));
      if ParkedClear(s, fleet, now) {
        ParkedClearAfterFailure(s, fleet, floor, now, f);
      }
    } else {
      FailureKeepsSound(s, fleet, floor, now, f);
    }
  }

  lemma ChangedOnlyParts(s: Snap, s': Snap, ids: set<string>)
    requires ChangedOnly(s, s', ids)
    ensures s'.offline == s.offline && s.safeStopped <= s'.safeStopped
  {
  }

  // ---------- Task custody ----------

  lemma OfflineKeepsCustody(fleet: Fleet, tasks: Tasks, f: string)
    requires Custody(fleet, tasks) && f in fleet
    ensures Custody(FleetOffline(fleet, f), tasks)
  {
    forall t | t in tasks && tasks[t].IsLive()
      ensures HeldByItsRobot(FleetOffline(fleet, f), tasks, t)
    {
      assert HeldByItsRobot(fleet, tasks, t);
    }
  }

  /** Custody survives a failure: every live task is held by exactly the robot it
      names. With recovery on, the failed robot ends offline with no live task,
      and the task it held is queued again, failed, or held by the one spare. */
  lemma FailureKeepsCustody(s: Snap, s': Snap, fleet: Fleet, tasks: Tasks, fleet': Fleet, tasks': Tasks, floor: Floor,
          now: int, f: string, enabled: bool, to: Option<string>, s2: Snap, c1: Claims, c2: Claims)
    requires f in fleet && Custody(fleet, tasks)
    requires FailureHandled(s, s', fleet, tasks, fleet', tasks', floor, now, f, enabled, to, s2, c1, c2)
    ensures Custody(fleet', tasks')
    ensures enabled ==>
              && f in fleet' && fleet'[f].status == Offline && !HoldsLive(fleet', tasks', f)
              && (HoldsLive(fleet, tasks, f) ==> TaskEndsWell(fleet, tasks, fleet', tasks', f, to))
  {
    hide RoutesHandled, TaskHandled, Custody;
    OfflineKeepsCustody(fleet, tasks, f);
    if enabled {
      TaskHandledCustody(AfterLoss(s, f), s2, FleetOffline(fleet, f), tasks, fleet', tasks', floor, now, f, to, c1);
    }
  }

  ghost predicate TaskEndsWell(fleet: Fleet, tasks: Tasks, fleet': Fleet, tasks': Tasks, f: string, to: Option<string>)
    requires f in fleet && HoldsLive(fleet, tasks, f)
  {
    var t := fleet[f].assignedTask.value;
    && t in tasks'
    && (tasks[t].status == InProgress ==> tasks'[t].status == TaskStatus.Failed && to.None?)
    && (tasks[t].status == Assigned && to.None? ==> tasks'[t].status == Pending)
    && (tasks[t].status == Assigned && to.Some? ==>
          tasks'[t].status == Assigned && tasks'[t].assignedRobot == to && to != Some(f)
          && to.value in fleet' && fleet'[to.value].assignedTask == Some(t))
  }

  lemma TaskHandledCustody(s1: Snap, s2: Snap, fleet1: Fleet, tasks: Tasks, fleet': Fleet, tasks': Tasks, floor: Floor,
          now: int, f: string, to: Option<string>, c: Claims)
    requires f in fleet1 && fleet1[f].status == Offline && Custody(fleet1, tasks) && f in s1.offline
    requires TaskHandled(s1, s2, fleet1, tasks, fleet', tasks', floor, now, f, to, c)
    ensures Custody(fleet', tasks') && f in fleet' && fleet'[f].status == Offline && !HoldsLive(fleet', tasks', f)
    ensures HoldsLive(fleet1, tasks, f) ==> TaskEndsWell(fleet1, tasks, fleet', tasks', f, to)
  {
    hide Plan, IsFutureTable, Included, Pins, Joined, Custody, BestSpare, Underway;
    ReleaseKeepsCustody(fleet1, tasks, f);
    var freed, queued := FreedFleet(fleet1, tasks, f), FreedTasks(fleet1, tasks, f);
    if IsOffered(fleet1, tasks, f) {
      var task := fleet1[f].assignedTask.value;
      var spare := BestSpare(floor, freed, queued[task], s1.offline);
      if spare.Some? {
        AssignKeepsCustody(freed, queued, spare.value, task);
      }
    }
  }

  // ---------- The independent check of a recovered plan ----------

  /** What is left of the routes of everybody under way. */
  function RemainingPaths(s: Snap, now: int): map<string, TimedPath> {
    map id | id in s.Movers() && Remaining(s.paths[id], now) != [] :: Planned(id, Remaining(s.paths[id], now))
  }

  lemma RestIsRoute(floor: Floor, steps: seq<TimedStep>, rest: seq<TimedStep>, now: int, id: string)
    requires WellTimed(steps) && WellTimed(rest) && StartTime(rest) == now && Ahead(floor, steps, now)
    requires forall t | now <= t :: At(rest, t) == At(steps, t)
    ensures Conflicts.RouteOk(Conflicts.Route(id, rest), floor, map[], false)
  {
    hide At;
    StepsAt(rest);
    forall i | 0 <= i < |rest|
      ensures floor.InBounds(rest[i].position)
    {
      assert floor.Traversable(At(steps, now + i));
    }
    forall i | 0 <= i < |rest| - 1
      ensures Manhattan(rest[i].position, rest[i + 1].position) <= 1
    {
      assert floor.Traversable(At(steps, now + i));
      assert At(rest, now + (i + 1)) == At(steps, now + i + 1);
    }
  }

  lemma RestOfRouteOk(s: Snap, fleet: Fleet, floor: Floor, now: int, id: string)
    requires Sound(s, fleet, floor, now) && id in s.Movers() && Remaining(s.paths[id], now) != []
    ensures Conflicts.RouteOk(Conflicts.Route(id, Remaining(s.paths[id], now)), floor, map[], false)
    ensures var rest := Remaining(s.paths[id], now);
            WellTimed(rest) && StartTime(rest) == now && WellTimed(s.paths[id])
            && forall t | now <= t :: At(rest, t) == At(s.paths[id], t)
  {
    hide At, Moves, Waits, Apart, Sound, Remaining, Conflicts.RouteOk, RecordOk, Present;
    SoundMover(s, fleet, floor, now, id);
    SoundIsTimed(s, fleet, floor, now);
    RemainingIsSuffix(s.paths[id], now);
    RemainingAgrees(s.paths[id], now);
    RestIsRoute(floor, s.paths[id], Remaining(s.paths[id], now), now, id);
  }

  lemma StepsAt(steps: seq<TimedStep>)
    requires WellTimed(steps)
    ensures forall i | 0 <= i < |steps| :: steps[i].position == At(steps, StartTime(steps) + i)
  {
  }

  lemma RestsNeverMeet(s: Snap, fleet: Fleet, floor: Floor, now: int, a: string, b: string)
    requires Sound(s, fleet, floor, now) && a in s.Movers() && b in s.Movers() && a != b
    requires Remaining(s.paths[a], now) != [] && Remaining(s.paths[b], now) != []
    ensures WellTimed(Remaining(s.paths[a], now)) && WellTimed(Remaining(s.paths[b], now))
    ensures Conflicts.NeverMeet(Remaining(s.paths[a], now), Remaining(s.paths[b], now))
  {
    hide At, Moves, Waits, Sound, Remaining;
    RestOfRouteOk(s, fleet, floor, now, a);
    RestOfRouteOk(s, fleet, floor, now, b);
    MoversApart(s, fleet, floor, now, a, b);
    var ra, rb := Remaining(s.paths[a], now), Remaining(s.paths[b], now);
    var last := Max(ArrivalTime(ra), ArrivalTime(rb));
    forall t | now <= t <= last
      ensures NoMeeting(ra, rb, t) && NoSwap(ra, rb, t)
    {
      assert NoMeeting(s.paths[a], s.paths[b], t) && NoSwap(s.paths[a], s.paths[b], t);
      assert At(ra, t + 1) == At(s.paths[a], t + 1) && At(rb, t + 1) == At(s.paths[b], t + 1);
    }
    Conflicts.RangeSettles(ra, rb, now, last);
  }

  lemma MoversApart(s: Snap, fleet: Fleet, floor: Floor, now: int, a: string, b: string)
    requires Sound(s, fleet, floor, now) && a in s.Movers() && b in s.Movers() && a != b
    ensures WellTimed(s.paths[a]) && WellTimed(s.paths[b]) && Apart(s.paths[a], s.paths[b], now)
  {
    hide Apart, Moves, Waits, WellTimed, Present, Routed;
  }

  lemma RouteIsRest(s: Snap, now: int, r: Conflicts.Route)
    requires var paths := RemainingPaths(s, now); r in Conflicts.Routes(Conflicts.InOrder(paths, Sorted(paths.Keys)))
    ensures r.id in s.Movers() && Remaining(s.paths[r.id], now) == r.steps && r.steps != []
  {
    hide Remaining, Conflicts.Routes, Sorted;
    var paths := RemainingPaths(s, now);
    SortedFacts(paths.Keys);
    Conflicts.RoutesMember(Conflicts.InOrder(paths, Sorted(paths.Keys)), r);
  }

  lemma RestNames(s: Snap, now: int)
    ensures var paths := RemainingPaths(s, now);
            Conflicts.DistinctIds(Conflicts.Routes(Conflicts.InOrder(paths, Sorted(paths.Keys))))
  {
    hide Remaining, Conflicts.Routes, Conflicts.DistinctIds;
    var paths := RemainingPaths(s, now);
    SortedFacts(paths.Keys);
    Conflicts.RoutesDistinct(Conflicts.InOrder(paths, Sorted(paths.Keys)));
  }

  /** In a sound run the check of what is left finds nothing. */
  lemma RemainingPlanIsSafe(s: Snap, fleet: Fleet, floor: Floor, now: int)
    requires Sound(s, fleet, floor, now)
    ensures var paths := RemainingPaths(s, now);
            var routes := Conflicts.Routes(Conflicts.InOrder(paths, Sorted(paths.Keys)));
            Conflicts.DistinctIds(routes) && Conflicts.PlanIsSafe(routes, floor, map[], false)
  {
    hide Sound, Remaining, RemainingPaths, Conflicts.RouteOk, Conflicts.NeverMeet, Conflicts.Routes, WellTimed,
         Conflicts.DistinctIds, Conflicts.InOrder, Snap.Movers, At;
    var paths := RemainingPaths(s, now);
    var routes := Conflicts.Routes(Conflicts.InOrder(paths, Sorted(paths.Keys)));
    RestNames(s, now);
    forall r | r in routes
      ensures Conflicts.RouteOk(r, floor, map[], false)
    {
      RouteIsRest(s, now, r);
      RestOfRouteOk(s, fleet, floor, now, r.id);
      assert r == Conflicts.Route(r.id, r.steps);
    }
    forall i, j | 0 <= i < j < |routes|
      ensures Conflicts.NeverConflict(routes[i], routes[j])
    {
      Conflicts.IdsDiffer(routes, i, j);
      RouteIsRest(s, now, routes[i]);
      RouteIsRest(s, now, routes[j]);
      RestsNeverMeet(s, fleet, floor, now, routes[i].id, routes[j].id);
    }
  }

  /** What routing a spare does, once it holds the task. */
  ghost predicate SpareRoute(s1: Snap, s2: Snap, busy: Fleet, taken: Tasks, fleet2: Fleet, tasks2: Tasks, floor: Floor,
          now: int, task: string, n: string, to: Option<string>, c: Claims)
  {
    && n in busy && task in taken
    && Underway(s1.paths, now) && IsFutureTable(c, s1.paths, Included(s1, busy, now, {n}), Pins(s1, busy), now,
        s1.horizon)
    && var path := Plan(SpareQuery(s1, busy, taken, floor, now, task, n, c));
       if path.Planned? then
         && to == Some(n) && fleet2 == busy && tasks2 == taken
         && s2 == Joined(s1, n, busy[n].position, now, taken[task].pickup, path.steps)
       else
         && to.None? && s2 == s1 && fleet2 == busy[n := busy[n].Cleared()]
         && tasks2 == taken[task := taken[task].(status := Pending, assignedRobot := None)]
  }

  /** Nobody has stopped for safety, and no failed robot shares its cell with a
      robot that has arrived or with another failed one. */
  ghost predicate NobodyInTheWay(s: Snap, fleet: Fleet, now: int) {
    s.safeStopped == {} && ParkedClear(s, fleet, now)
  }

  lemma StandingInTheWay(s: Snap, fleet: Fleet, fleet': Fleet, now: int)
    requires Standing(fleet, fleet') && Pins(s, fleet') == Pins(s, fleet)
    ensures NobodyInTheWay(s, fleet, now) ==> NobodyInTheWay(s, fleet', now)
  {
    hide Pins, ParkedClear;
    if NobodyInTheWay(s, fleet, now) {
      ParkedStands(s, fleet, fleet', now);
    }
  }

  lemma DisruptedParts(s: Snap, fleet: Fleet, floor: Floor, now: int, cell: Position)
    requires Disrupted(s, fleet, floor, now, cell)
    ensures SoundBut(s, fleet, floor, now, Touching(s, cell, now))
             && StepsClearBut(s, fleet, now, Touching(s, cell, now))
  {
  }

  lemma ReleasedFacts(floor: Floor, fleet: Fleet, tasks: Tasks, f: string)
    requires f in fleet
    ensures Standing(fleet, FreedFleet(fleet, tasks, f))
    ensures Placed(floor, fleet, tasks) ==> Placed(floor, FreedFleet(fleet, tasks, f), FreedTasks(fleet, tasks, f))
    ensures IsOffered(fleet, tasks, f) ==>
              && HoldsRegistered(fleet, tasks, f)
              && fleet[f].assignedTask.value in FreedTasks(fleet, tasks, f)
              && FreedTasks(fleet, tasks, f)[fleet[f].assignedTask.value].status == Pending
              && FreedTasks(fleet, tasks, f)[fleet[f].assignedTask.value].assignedRobot.None?
  {
  }

  /** A task handed to an available spare and taken back leaves no trace. */
  lemma SpareRouteUndone(s1: Snap, s2: Snap, fleet1: Fleet, tasks1: Tasks, busy: Fleet, taken: Tasks, fleet2: Fleet,
          tasks2: Tasks, floor: Floor, now: int, task: string, n: string, to: Option<string>, c: Claims)
    requires MayAssign(fleet1, tasks1, n, task) && busy == AssignRobot(fleet1, n, task)
             && taken == AssignTask(tasks1, n, task)
    requires tasks1[task].assignedRobot.None?
    requires SpareRoute(s1, s2, busy, taken, fleet2, tasks2, floor, now, task, n, to, c)
    ensures SpareRouted(s1, s2, fleet1, tasks1, fleet2, tasks2, floor, now, task, n, to, c)
  {
    hide Plan, IsFutureTable, Included, Pins, Underway, Joined;
    assert SpareQuery(s1, busy, taken, floor, now, task, n, c)
        == SpareQuery(s1, fleet1, tasks1, floor, now, task, n, c);
    assert busy[n := busy[n].Cleared()] == fleet1;
    assert taken[task := taken[task].(status := Pending, assignedRobot := None)] == tasks1;
  }

  lemma TableBuilds(s: Snap, fleet: Fleet, floor: Floor, now: int, rest: set<string>, exclude: set<string>)
    requires SoundBut(s, fleet, floor, now, rest) && NobodyInTheWay(s, fleet, now)
    requires forall id | id in rest && id in s.paths && id !in exclude :: TouchesPin(s.paths[id], Pins(s, fleet), now)
    ensures Buildable(s, fleet, now, exclude)
  {
    hide SoundBut, ParkedClear, InTime, MeetNever, PinsClear, Included, Pins, TouchesPin;
    FutureTableBuilds(s, fleet, floor, now, rest, exclude);
  }

  lemma SpareTableBuilds(s: Snap, fleet: Fleet, busy: Fleet, floor: Floor, now: int, cell: Position, f: string,
          n: string)
    requires Disrupted(s, busy, floor, now, cell) && f in Pins(s, fleet) && Pins(s, fleet)[f] == cell
             && Standing(fleet, busy)
    requires Pins(s, busy) == Pins(s, fleet)
    ensures NobodyInTheWay(s, fleet, now) ==> Buildable(s, busy, now, {n})
  {
    hide SoundBut, StepsClearBut, Included, Buildable, RouteTouchesCell, Pins;
    if NobodyInTheWay(s, fleet, now) {
      ParkedStands(s, fleet, busy, now);
      TableBuilds(s, busy, floor, now, Touching(s, cell, now), {n});
    }
  }

  /** The robot that has taken the task is ready to be routed, and if nobody is in
      the way the table it is routed around can be built. */
  lemma TakerReady(s: Snap, fleet: Fleet, floor: Floor, now: int, cell: Position, f: string, n: string, task: string)
    requires Disrupted(s, fleet, floor, now, cell) && f in Pins(s, fleet) && Pins(s, fleet)[f] == cell && n in fleet
    ensures SoundBut(s, AssignRobot(fleet, n, task), floor, now, Touching(s, cell, now))
    ensures NobodyInTheWay(s, fleet, now) ==> Buildable(s, AssignRobot(fleet, n, task), now, {n})
  {
    hide SoundBut, Buildable, Touching, AssignRobot, Pins, Disrupted, NobodyInTheWay;
    var busy := AssignRobot(fleet, n, task);
    BusyStands(fleet, n, task);
    StandingDisrupted(s, fleet, busy, floor, now, cell);
    DisruptedParts(s, busy, floor, now, cell);
    SpareTableBuilds(s, fleet, busy, floor, now, cell, f, n);
  }

  lemma ParkedStands(s: Snap, fleet: Fleet, fleet': Fleet, now: int)
    requires ParkedClear(s, fleet, now) && Standing(fleet, fleet') && Pins(s, fleet') == Pins(s, fleet)
    ensures ParkedClear(s, fleet', now)
  {
    hide Pins;
  }

  lemma OfflineKeepsPlaces(floor: Floor, fleet: Fleet, tasks: Tasks, f: string)
    requires f in fleet && Placed(floor, fleet, tasks) && NoPinNames(fleet)
    ensures Placed(floor, FleetOffline(fleet, f), tasks) && NoPinNames(FleetOffline(fleet, f))
  {
    SameNames(fleet, FleetOffline(fleet, f));
  }

  lemma RecordsOfSound(s: Snap, fleet: Fleet, floor: Floor, now: int)
    requires Sound(s, fleet, floor, now)
    ensures Recorded(s, fleet, now)
  {
  }

  lemma LastStandsThere(s: Snap, fleet: Fleet, now: int, id: string)
    requires Recorded(s, fleet, now)
    ensures id in s.trace ==>
             id in s.paths && s.trace[id] != [] && id in fleet
             && s.trace[id][|s.trace[id]| - 1].position == fleet[id].position
    ensures id in s.paths ==> id in s.trace
  {
    if id in s.paths {
      assert RecordOk(s, fleet, now, id);
    }
  }

  lemma ClearOfSome(s: Snap, fleet: Fleet, now: int, rest: set<string>)
    ensures StepsClear(s, fleet, now) ==> StepsClearBut(s, fleet, now, rest)
  {
    hide RouteTouchesCell;
  }

  lemma StopsSomebody(s: Snap, fleet: Fleet, floor: Floor, now: int, affected: set<string>)
    requires SoundBut(s, fleet, floor, now, affected) && affected <= s.Movers() && affected != {}
    ensures Replannable(s, Sorted(affected)) && StopAll(s, now, Sorted(affected)).safeStopped != s.safeStopped
  {
    hide SoundBut, StopAll, Replannable, Sorted, ChangedOnly;
    StoppedKeepsGoing(s, fleet, floor, now, affected);
    var id :| id in affected;
    assert id !in s.safeStopped;
  }

  ghost function Through(paths: Plans, pins: map<string, Position>, now: int, order: seq<string>): set<string> {
    set id | id in order && id in paths && TouchesPin(paths[id], pins, now)
  }

  lemma ThroughSteps(paths: Plans, pins: map<string, Position>, now: int, order: seq<string>, k: nat)
    ensures Through(paths, pins, now, order[..0]) == {}
    ensures k < |order| && order[k] in paths ==>
              Through(paths, pins, now, order[..k + 1])
              == Through(paths, pins, now, order[..k]) + if TouchesPin(paths[order[k]], pins, now) then {order[k]}
                  else {}
  {
    hide TouchesPin;
    if k < |order| {
      assert order[..k + 1] == order[..k] + [order[k]];
    }
  }

  lemma ThroughAll(paths: Plans, pins: map<string, Position>, now: int, order: seq<string>, exclude: set<string>,
          offline: set<string>)
    requires forall id :: id in order <==> id in paths
    ensures paths.Keys - (exclude + offline + Through(paths, pins, now, order))
         == set id | id in paths && id !in exclude && id !in offline && !TouchesPin(paths[id], pins, now)
  {
    hide TouchesPin;
  }

  lemma UnderwayNow(s: Snap, fleet: Fleet, floor: Floor, now: int, rest: set<string>)
    requires SoundBut(s, fleet, floor, now, rest)
    ensures Underway(s.paths, now)
  {
  }

  lemma MoverRecorded(s: Snap, fleet: Fleet, floor: Floor, now: int, rest: set<string>, id: string)
    requires SoundBut(s, fleet, floor, now, rest) && id in s.Movers()
    ensures id in s.paths && id in s.trace && s.trace[id] != [] && id in s.goals
  {
    SoundParts(s, fleet, floor, now, rest, id);
  }

  lemma NothingStopped(s: Snap, now: int)
    ensures Replannable(s, []) && StopAll(s, now, []) == s
  {
  }

  lemma NextStop(s: Snap, now: int, order: seq<string>, k: nat)
    requires k < |order| && Replannable(s, order[..k]) && order[k] in s.trace && s.trace[order[k]] != []
             && order[k] in s.goals
    ensures Replannable(s, order[..k + 1])
    ensures StopAll(s, now, order[..k + 1])
             == Rerouted(StopAll(s, now, order[..k]), now, order[k], Unplanned(order[k], HorizonExceeded))
  {
    hide Rerouted;
    assert order[..k + 1][..k] == order[..k];
  }

  lemma RerouteUnplanned(s: Snap, now: int, id: string)
    requires id in s.trace && s.trace[id] != []
    ensures Rerouted(s, now, id, Unplanned(id, HorizonExceeded))
         == s.(paths := s.paths[id := Splice(s.trace[id], [TimedStep(Goal(s.trace[id]), now)])],
             safeStopped := s.safeStopped + {id})
  {
  }

  // ---------- One event, whatever it is ----------

  /** What the recovery manager relies on between any two things it does. */
  ghost predicate Kept(s: Snap, fleet: Fleet, tasks: Tasks, floor: Floor, now: int, enabled: bool) {
    Going(s, fleet, floor, now, enabled) && Placed(floor, fleet, tasks) && NoPinNames(fleet) && TracesApart(s)
  }

  /** After a failure nobody is in the way if and only if the robot stood alone. */
  lemma AloneStaysOutOfTheWay(s: Snap, fleet: Fleet, floor: Floor, now: int, f: string)
    requires Sound(s, fleet, floor, now) && f in fleet && NobodyInTheWay(s, fleet, now)
    ensures NobodyInTheWay(AfterLoss(s, f), FleetOffline(fleet, f), now) <==> StandsAlone(s, fleet, now, f)
  {
    hide Sound, ParkedClear, StandsAlone, FleetOffline;
    ParkedClearAfterFailure(s, fleet, floor, now, f);
  }

  /** A robot of the plan stands alone as long as nobody is in the way. */
  lemma PlannedStandsAlone(s: Snap, fleet: Fleet, floor: Floor, now: int, f: string)
    requires Going(s, fleet, floor, now, true) && f in fleet && f in s.paths && NobodyInTheWay(s, fleet, now)
    ensures StandsAlone(s, fleet, now, f)
  {
    hide Sound, StepsClear, ParkedClear, StandsAlone;
    assert f in s.Movers() || f in s.offline;
    CoordinatedRobotStandsAlone(s, fleet, floor, now, f);
  }

  lemma SparePlaces(s1: Snap, s2: Snap, fleet1: Fleet, tasks1: Tasks, fleet2: Fleet, tasks2: Tasks, floor: Floor,
          now: int, task: string, n: string, to: Option<string>, c: Claims)
    requires n in fleet1 && task in tasks1
             && SpareRouted(s1, s2, fleet1, tasks1, fleet2, tasks2, floor, now, task, n, to, c)
    requires Placed(floor, fleet1, tasks1)
    ensures Placed(floor, fleet2, tasks2)
  {
    hide Plan, IsFutureTable, Included, Pins, Underway, Joined;
  }

  lemma TaskHandledPlaces(s1: Snap, s2: Snap, fleet1: Fleet, tasks: Tasks, fleet': Fleet, tasks': Tasks, floor: Floor,
          now: int, f: string, to: Option<string>, c: Claims)
    requires f in fleet1 && TaskHandled(s1, s2, fleet1, tasks, fleet', tasks', floor, now, f, to, c)
             && Placed(floor, fleet1, tasks)
    ensures Placed(floor, fleet', tasks')
  {
    hide SpareRouted, BestSpare, MayAssign, FreedFleet, Placed;
    var freed, queued := FreedFleet(fleet1, tasks, f), FreedTasks(fleet1, tasks, f);
    ReleasedFacts(floor, fleet1, tasks, f);
    if IsOffered(fleet1, tasks, f) {
      var task := fleet1[f].assignedTask.value;
      var spare := BestSpare(floor, freed, queued[task], s1.offline);
      if spare.Some? {
        MayAssignKnown(freed, queued, spare.value, task);
        SparePlaces(s1, s2, freed, queued, fleet', tasks', floor, now, task, spare.value, to, c);
      }
    }
  }

  /** A failure event, as a whole. */
  lemma FailureKeeps(s: Snap, s': Snap, fleet: Fleet, tasks: Tasks, fleet': Fleet, tasks': Tasks, floor: Floor,
          now: int, f: string, enabled: bool, to: Option<string>, s2: Snap, c1: Claims, c2: Claims)
    requires Kept(s, fleet, tasks, floor, now, enabled) && f in fleet
    requires FailureHandled(s, s', fleet, tasks, fleet', tasks', floor, now, f, enabled, to, s2, c1, c2)
    ensures Kept(s', fleet', tasks', floor, now, enabled) && fleet'.Keys == fleet.Keys && s.paths.Keys <= s'.paths.Keys
    ensures Custody(fleet, tasks) ==> Custody(fleet', tasks')
    ensures enabled && NobodyInTheWay(s, fleet, now) && StandsAlone(s, fleet, now, f)
             && s'.safeStopped == s.safeStopped ==>
              NobodyInTheWay(s', fleet', now)
    ensures s'.offline == s.offline + {f} && s'.horizon == s.horizon
  {
    hide Sound, StepsClear, NoPinNames, Placed, Custody, FailureHandled, ParkedClear, StandsAlone, TracesApart;
    FailureKeepsGoing(s, s', fleet, tasks, fleet', tasks', floor, now, f, enabled, to, s2, c1, c2);
    FailurePlaces(s, s', fleet, tasks, fleet', tasks', floor, now, f, enabled, to, s2, c1, c2);
    FailureTraces(s, s', fleet, tasks, fleet', tasks', floor, now, f, enabled, to, s2, c1, c2);
    SameNames(fleet, fleet');
    if Custody(fleet, tasks) {
      FailureKeepsCustody(s, s', fleet, tasks, fleet', tasks', floor, now, f, enabled, to, s2, c1, c2);
    }
  }

  lemma FailurePlaces(s: Snap, s': Snap, fleet: Fleet, tasks: Tasks, fleet': Fleet, tasks': Tasks, floor: Floor,
          now: int, f: string, enabled: bool, to: Option<string>, s2: Snap, c1: Claims, c2: Claims)
    requires Kept(s, fleet, tasks, floor, now, enabled) && f in fleet
    requires FailureHandled(s, s', fleet, tasks, fleet', tasks', floor, now, f, enabled, to, s2, c1, c2)
    ensures Placed(floor, fleet', tasks') && s.paths.Keys <= s'.paths.Keys && s'.horizon == s.horizon
  {
    hide Sound, StepsClear, NoPinNames, TaskHandled, RoutesHandled, Placed, Touching, Disrupted;
    var s1, fleet1, cell := AfterLoss(s, f), FleetOffline(fleet, f), fleet[f].position;
    OfflineKeepsPlaces(floor, fleet, tasks, f);
    if enabled {
      TaskHandledPlaces(s1, s2, fleet1, tasks, fleet', tasks', floor, now, f, to, c1);
      TaskHandledPaths(s1, s2, fleet1, tasks, fleet', tasks', floor, now, f, to, c1);
      FailureDisrupts(s, fleet, floor, now, f);
      TaskHandledKeeps(s1, s2, fleet1, tasks, fleet', tasks', floor, now, f, to, c1, cell);
      SameNames(fleet1, fleet');
      DisruptedParts(s2, fleet', floor, now, cell);
      TouchingAreMovers(s2, cell, now);
      RoutesHandledKeepsGoing(s2, s', fleet', floor, now, true, Touching(s2, cell, now), c2);
      SamePaths(s2, s', Touching(s2, cell, now));
    }
  }

  lemma ChangedTraces(s: Snap, s': Snap, fleet: Fleet, floor: Floor, now: int, ids: set<string>)
    requires ChangedOnly(s, s', ids) && Sound(s', fleet, floor, now) && TracesApart(s)
    ensures TracesApart(s')
  {
    hide Sound, DroveApart, WellTimed;
    forall x | x in s'.Movers()
      ensures x in s.trace
    {
      SoundMover(s', fleet, floor, now, x);
    }
    EventKeepsTraces(s, s', fleet, floor, now, {});
  }

  /** The records after a failure: unchanged, but for a spare that has joined. */
  lemma FailureTraces(s: Snap, s': Snap, fleet: Fleet, tasks: Tasks, fleet': Fleet, tasks': Tasks, floor: Floor,
          now: int, f: string, enabled: bool, to: Option<string>, s2: Snap, c1: Claims, c2: Claims)
    requires Kept(s, fleet, tasks, floor, now, enabled) && f in fleet
    requires FailureHandled(s, s', fleet, tasks, fleet', tasks', floor, now, f, enabled, to, s2, c1, c2)
    requires Sound(s', fleet', floor, now)
    ensures TracesApart(s')
  {
    hide Sound, StepsClear, NoPinNames, RoutesHandled, Placed, FleetOffline, Touching, Disrupted, DroveApart,
         WellTimed, FreedFleet, FreedTasks, BestSpare, MayAssign, Plan, IsFutureTable, Included, Pins, Underway,
             TracesApart, TaskHandled;
    var s1, fleet1, cell := AfterLoss(s, f), FleetOffline(fleet, f), fleet[f].position;
    var newcomers := if enabled && to.Some? then {to.value} else {};
    if enabled {
      OfflineIsFleet(fleet, f);
      TaskHandledTraces(s1, s2, fleet1, tasks, fleet', tasks', floor, now, f, to, c1);
      DisruptionEnds(s, s', fleet, tasks, fleet', tasks', floor, now, f, to, s2, c1, c2);
    }
    forall x | x in s'.Movers()
      ensures x in s'.trace
    {
      SoundMover(s', fleet', floor, now, x);
    }
    EventKeepsTraces(s, s', fleet', floor, now, newcomers);
  }

  lemma OfflineIsFleet(fleet: Fleet, f: string)
    requires f in fleet
    ensures f in FleetOffline(fleet, f)
  {
  }

  lemma TaskHandledTraces(s1: Snap, s2: Snap, fleet1: Fleet, tasks: Tasks, fleet': Fleet, tasks': Tasks, floor: Floor,
          now: int, f: string, to: Option<string>, c: Claims)
    requires f in fleet1 && TaskHandled(s1, s2, fleet1, tasks, fleet', tasks', floor, now, f, to, c)
    ensures to.None? ==> s2 == s1
    ensures to.Some? ==>
              && s2.Movers() <= s1.Movers() + {to.value} && to.value in s2.trace && |s2.trace[to.value]| == 1
              && (forall x | x in s1.trace && x != to.value :: x in s2.trace && s2.trace[x] == s1.trace[x])
              && (forall x | x in s2.trace && x != to.value :: x in s1.trace)
  {
    hide BestSpare, MayAssign, FreedFleet, FreedTasks, Plan, IsFutureTable, Included, Pins, Underway;
  }

  /** From the task phase on, records stay and nobody becomes a mover. */
  lemma DisruptionEnds(s: Snap, s': Snap, fleet: Fleet, tasks: Tasks, fleet': Fleet, tasks': Tasks, floor: Floor,
          now: int, f: string, to: Option<string>, s2: Snap, c1: Claims, c2: Claims)
    requires Kept(s, fleet, tasks, floor, now, true) && f in fleet
    requires FailureHandled(s, s', fleet, tasks, fleet', tasks', floor, now, f, true, to, s2, c1, c2)
    ensures s'.trace == s2.trace && s'.Movers() <= s2.Movers()
  {
    hide Sound, StepsClear, NoPinNames, TaskHandled, RoutesHandled, Placed, Touching, Disrupted, TracesApart;
    var s1, fleet1, cell := AfterLoss(s, f), FleetOffline(fleet, f), fleet[f].position;
    FailureDisrupts(s, fleet, floor, now, f);
    SameNames(fleet, fleet1);
    TaskHandledKeeps(s1, s2, fleet1, tasks, fleet', tasks', floor, now, f, to, c1, cell);
    SameNames(fleet1, fleet');
    DisruptedParts(s2, fleet', floor, now, cell);
    TouchingAreMovers(s2, cell, now);
    RoutesHandledKeepsGoing(s2, s', fleet', floor, now, true, Touching(s2, cell, now), c2);
  }

  lemma SamePaths(s: Snap, s': Snap, ids: set<string>)
    requires ChangedOnly(s, s', ids)
    ensures s'.paths.Keys == s.paths.Keys && s'.offline == s.offline && s'.horizon == s.horizon
  {
  }

  lemma TaskHandledPaths(s1: Snap, s2: Snap, fleet1: Fleet, tasks: Tasks, fleet': Fleet, tasks': Tasks, floor: Floor,
          now: int, f: string, to: Option<string>, c: Claims)
    requires f in fleet1 && TaskHandled(s1, s2, fleet1, tasks, fleet', tasks', floor, now, f, to, c)
    ensures s1.paths.Keys <= s2.paths.Keys && s2.horizon == s1.horizon
  {
    hide BestSpare, MayAssign, FreedFleet, Plan, IsFutureTable, Included, Pins, Underway;
  }

  /** An obstacle event, as a whole. */
  lemma ObstacleKeeps(s: Snap, s': Snap, fleet: Fleet, tasks: Tasks, site: Site, site': Site, id: string,
          cell: Position, now: int, enabled: bool, report: EventReport, c: Claims)
    requires Kept(s, fleet, tasks, site.floor, now, enabled)
    requires ObstacleHandled(s, s', fleet, site, site', id, cell, now, enabled, report, c)
    ensures Kept(s', fleet, tasks, site'.floor, now, enabled) && s'.paths.Keys == s.paths.Keys
             && s'.offline == s.offline && s'.horizon == s.horizon
    ensures enabled && NobodyInTheWay(s, fleet, now) && (report.applied ==> report.success) ==>
             NobodyInTheWay(s', fleet, now)
  {
    hide Sound, StepsClear, NoPinNames, RoutesHandled, ParkedClear, Touching, ChangedOnly, TracesApart;
    ObstacleKeepsGoing(s, s', fleet, site, site', id, cell, now, enabled, report, c);
    SamePaths(s, s', report.affected);
    ChangedTraces(s, s', fleet, site'.floor, now, report.affected);
  }

  /** The table for replanning around an obstacle can be built when nobody is in
      the way. */
  lemma ObstacleTableBuilds(s: Snap, fleet: Fleet, floor: Floor, now: int, cell: Position)
    requires Sound(s, fleet, floor, now) && (forall r | r in fleet :: fleet[r].position != cell)
             && NobodyInTheWay(s, fleet, now)
    ensures Buildable(s, fleet, now, Touching(s, cell, now))
  {
    hide Sound, SoundBut, Buildable, NobodyInTheWay, TouchesPin, Touching;
    ObstacleSparesOthers(s, fleet, floor, now, cell);
    TableBuilds(s, fleet, floor.(blocked := floor.blocked + {cell}), now, Touching(s, cell, now),
        Touching(s, cell, now));
  }

  /** With nobody in the way, the failed robot included, no table is upset. */
  lemma AloneNeverUpsets(s: Snap, fleet: Fleet, tasks: Tasks, floor: Floor, now: int, f: string)
    requires Going(s, fleet, floor, now, true) && f in fleet && NoPinNames(fleet)
    requires NobodyInTheWay(s, fleet, now) && StandsAlone(s, fleet, now, f)
    ensures !LossUpset(AfterLoss(s, f), FleetOffline(fleet, f), tasks, floor, now, f, fleet[f].position)
  {
    hide Sound, StepsClear, NobodyInTheWay, StandsAlone, AfterLoss, FleetOffline, Disrupted, Pins, SpareUpset,
         ThroughUpset, NoPinNames;
    var s1, fleet1, cell := AfterLoss(s, f), FleetOffline(fleet, f), fleet[f].position;
    AloneStaysOutOfTheWay(s, fleet, floor, now, f);
    FailureDisrupts(s, fleet, floor, now, f);
    OfflineIsFleet(fleet, f);
    OfflineNames(fleet, f);
    SpareNotUpset(s1, fleet1, tasks, floor, now, f, cell);
    forall s2, fleet', tasks', to, c
      ensures !ThroughUpset(s1, s2, fleet1, tasks, fleet', tasks', floor, now, f, cell, to, c)
    {
      ThroughNotUpset(s1, s2, fleet1, tasks, fleet', tasks', floor, now, f, cell, to, c);
    }
  }

  lemma OfflineNames(fleet: Fleet, f: string)
    requires f in fleet && NoPinNames(fleet)
    ensures NoPinNames(FleetOffline(fleet, f))
  {
    SameNames(fleet, FleetOffline(fleet, f));
  }

  lemma SpareNotUpset(s1: Snap, fleet1: Fleet, tasks: Tasks, floor: Floor, now: int, f: string, cell: Position)
    requires f in fleet1 && Disrupted(s1, fleet1, floor, now, cell) && f in Pins(s1, fleet1)
             && Pins(s1, fleet1)[f] == cell
    requires NobodyInTheWay(s1, fleet1, now)
    ensures !SpareUpset(s1, fleet1, tasks, floor, now, f)
  {
    hide Disrupted, Pins, NobodyInTheWay, BestSpare, Buildable, AssignRobot, FreedFleet, FreedTasks;
    var freed, queued := FreedFleet(fleet1, tasks, f), FreedTasks(fleet1, tasks, f);
    FreedStands(fleet1, tasks, f);
    StandingDisrupted(s1, fleet1, freed, floor, now, cell);
    StandingInTheWay(s1, fleet1, freed, now);
    if SpareUpset(s1, fleet1, tasks, floor, now, f) {
      var task := fleet1[f].assignedTask.value;
      var spare := BestSpare(floor, freed, queued[task], s1.offline);
      TakerReady(s1, freed, floor, now, cell, f, spare.value, task);
    }
  }

  lemma ThroughNotUpset(s1: Snap, s2: Snap, fleet1: Fleet, tasks: Tasks, fleet': Fleet, tasks': Tasks, floor: Floor,
          now: int, f: string, cell: Position, to: Option<string>, c: Claims)
    requires f in fleet1 && Disrupted(s1, fleet1, floor, now, cell) && f in Pins(s1, fleet1)
             && Pins(s1, fleet1)[f] == cell
    requires NobodyInTheWay(s1, fleet1, now) && NoPinNames(fleet1)
    ensures !ThroughUpset(s1, s2, fleet1, tasks, fleet', tasks', floor, now, f, cell, to, c)
  {
    hide Disrupted, Pins, ParkedClear, Buildable, TaskHandled, Touching, SoundBut, StepsClearBut, NoPinNames,
         TouchesPin;
    if TaskHandled(s1, s2, fleet1, tasks, fleet', tasks', floor, now, f, to, c) {
      TaskHandledKeeps(s1, s2, fleet1, tasks, fleet', tasks', floor, now, f, to, c, cell);
      DisruptedParts(s2, fleet', floor, now, cell);
      TableBuilds(s2, fleet', floor, now, Touching(s2, cell, now), Touching(s2, cell, now));
    }
  }

  // ---------- One joint step ----------

  lemma DriveKeepsCustody(fleet: Fleet, tasks: Tasks, intents: Intents)
    requires Custody(fleet, tasks)
    ensures Custody(DriveAll(fleet, intents), tasks)
  {
    var fleet' := DriveAll(fleet, intents);
    assert forall r | r in fleet :: fleet'[r].assignedTask == fleet[r].assignedTask;
    forall t | t in tasks && tasks[t].IsLive()
      ensures HeldByItsRobot(fleet', tasks, t)
    {
      assert HeldByItsRobot(fleet, tasks, t);
    }
  }

  lemma DriveKeepsPlaces(s: Snap, fleet: Fleet, tasks: Tasks, floor: Floor, now: int)
    requires Sound(s, fleet, floor, now) && Placed(floor, fleet, tasks)
    ensures Execution.Timed(s.paths) && Tallied(s)
    ensures Placed(floor, DriveAll(fleet, StepIntents(s, now + 1)), tasks)
  {
    hide Sound, StepIntents, At, DriveAll, WellTimed, Moves, Waits;
    SoundIsTimed(s, fleet, floor, now);
    StepIntentsAt(s, now + 1);
    var fleet' := DriveAll(fleet, StepIntents(s, now + 1));
    DriveKeeps(fleet, StepIntents(s, now + 1));
    forall r | r in fleet'
      ensures floor.InBounds(fleet'[r].position)
    {
      if r in s.Movers() {
        StepKeepsRoute(s, fleet, floor, now, r);
        StandsOnFloor(Advanced(s, now + 1), fleet', floor, now + 1, r);
      }
    }
  }

  lemma StandsOnFloor(s: Snap, fleet: Fleet, floor: Floor, now: int, id: string)
    requires Routed(s, fleet, floor, now, id)
    ensures floor.InBounds(fleet[id].position)
  {
    assert floor.Traversable(At(s.paths[id], now));
  }

  /** A committed joint step keeps everything the recovery manager relies on. */
  lemma StepKeeps(s: Snap, fleet: Fleet, tasks: Tasks, floor: Floor, now: int, enabled: bool)
    requires Kept(s, fleet, tasks, floor, now, enabled)
    ensures Execution.Timed(s.paths) && Tallied(s)
    ensures var s', fleet' := Advanced(s, now + 1), DriveAll(fleet, StepIntents(s, now + 1));
            && Kept(s', fleet', tasks, floor, now + 1, enabled) && fleet'.Keys == fleet.Keys && s'.paths == s.paths
                && s'.horizon == s.horizon && s'.offline == s.offline
            && (Custody(fleet, tasks) ==> Custody(fleet', tasks))
            && (enabled && NobodyInTheWay(s, fleet, now) ==> NobodyInTheWay(s', fleet', now + 1))
  {
    hide Sound, StepsClear, Placed, NoPinNames, Custody, ParkedClear, DriveAll, StepIntents, At, TracesApart;
    StepKeepsSound(s, fleet, floor, now);
    StepKeepsTraces(s, fleet, floor, now);
    DriveKeepsPlaces(s, fleet, tasks, floor, now);
    DriveKeeps(fleet, StepIntents(s, now + 1));
    SameNames(fleet, DriveAll(fleet, StepIntents(s, now + 1)));
    if enabled {
      StepKeepsClear(s, fleet, floor, now);
    }
    if Custody(fleet, tasks) {
      DriveKeepsCustody(fleet, tasks, StepIntents(s, now + 1));
    }
  }
}
