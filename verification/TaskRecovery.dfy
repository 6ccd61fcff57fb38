/** What becomes of the task of a robot that fails. */
module TaskRecovery {
  import opened Floors
  import opened Simulation
  import opened Weights
  import opened Names
  import opened Sorting
  import opened Feasibility
  import opened Allocation
  import opened Commit

  // ---------- Taking the task back ----------

  ghost predicate HoldsRegistered(fleet: Fleet, tasks: Tasks, f: string)
    requires f in fleet
  {
    fleet[f].assignedTask.Some? && fleet[f].assignedTask.value in tasks
  }

  /** A task is only taken from a failed robot while it is live. */
  ghost predicate HoldsLive(fleet: Fleet, tasks: Tasks, f: string)
    requires f in fleet
  {
    HoldsRegistered(fleet, tasks, f) && tasks[fleet[f].assignedTask.value].IsLive()
  }

  ghost function FreedFleet(fleet: Fleet, tasks: Tasks, f: string): Fleet
    requires f in fleet
  {
    if HoldsLive(fleet, tasks, f) then fleet[f := fleet[f].(assignedTask := None)] else fleet
  }

  /** An assigned task is queued again; one already begun has failed. */
  ghost function FreedTasks(fleet: Fleet, tasks: Tasks, f: string): Tasks
    requires f in fleet
  {
    if HoldsLive(fleet, tasks, f) then
      var t := fleet[f].assignedTask.value;
      tasks[t := Released(tasks[t])]
    else tasks
  }

  ghost predicate IsOffered(fleet: Fleet, tasks: Tasks, f: string)
    requires f in fleet
  {
    HoldsRegistered(fleet, tasks, f) && tasks[fleet[f].assignedTask.value].status == Assigned
  }

  /** Take the task back from a robot that is offline. `offered` tells whether it
      is to be offered to the rest of the fleet. */
  method ReleaseFailedTask(sim: Simulator, f: string) returns (held: Option<string>, offered: bool)
    requires sim.Valid() && f in sim.robots && sim.robots[f].status == Offline
    modifies sim.robots[f], sim.tasks.Values
    ensures sim.Valid()
    ensures sim.FleetView() == FreedFleet(old(sim.FleetView()), old(sim.TaskViews()), f)
    ensures sim.TaskViews() == FreedTasks(old(sim.FleetView()), old(sim.TaskViews()), f)
    ensures offered <==> IsOffered(old(sim.FleetView()), old(sim.TaskViews()), f)
    ensures offered <==>
              && old(sim.robots[f].assignedTask).Some? && old(sim.robots[f].assignedTask).value in sim.tasks
              && old(sim.tasks[sim.robots[f].assignedTask.value].status) == Assigned
    ensures held == if HoldsRegistered(old(sim.FleetView()), old(sim.TaskViews()), f)
             then old(sim.robots[f].assignedTask) else None
  {
    hide Simulator.FleetView, Simulator.TaskViews;
    sim.Entries();
    var robot := sim.robots[f];
    if robot.assignedTask.None? || robot.assignedTask.value !in sim.tasks {
      return None, false;
    }
    var id := robot.assignedTask.value;
    offered := sim.tasks[id].status == Assigned;
    if !(sim.tasks[id].status == Assigned || sim.tasks[id].status == InProgress) {
      return Some(id), offered;
    }
    TakeBack(sim, id);
    FreeOffline(sim, f);
    return Some(id), offered;
  }

  method TakeBack(sim: Simulator, id: string)
    requires sim.Valid() && id in sim.tasks && sim.tasks[id].View().IsLive()
    modifies sim.tasks[id]
    ensures sim.Valid() && sim.FleetView() == old(sim.FleetView())
    ensures sim.TaskViews() == old(sim.TaskViews())[id := Released(old(sim.tasks[id].View()))]
  {
    if sim.tasks[id].status == Assigned {
      var _ := sim.tasks[id].Unassign();
    } else {
      var _ := sim.tasks[id].Fail();
    }
    sim.OnlyTask(id);
  }

  method FreeOffline(sim: Simulator, f: string)
    requires sim.Valid() && f in sim.robots
    modifies sim.robots[f]
    ensures sim.Valid() && sim.TaskViews() == old(sim.TaskViews())
    ensures sim.FleetView() == old(sim.FleetView())[f := old(sim.robots[f].View()).(assignedTask := None,
             status := Offline)]
  {
    sim.robots[f].ClearTask();
    sim.robots[f].SetStatus(Offline);
    sim.OnlyRobot(f);
  }

  /** Custody is kept, and the failed robot is left without a live task. */
  lemma ReleaseKeepsCustody(fleet: Fleet, tasks: Tasks, f: string)
    requires Custody(fleet, tasks) && f in fleet
    ensures Custody(FreedFleet(fleet, tasks, f), FreedTasks(fleet, tasks, f))
    ensures !HoldsLive(FreedFleet(fleet, tasks, f), FreedTasks(fleet, tasks, f), f)
    ensures HoldsLive(fleet, tasks, f) ==>
              var t := fleet[f].assignedTask.value;
              FreedTasks(fleet, tasks, f)[t].status == if tasks[t].status == InProgress then TaskStatus.Failed
                  else Pending
  {
    var fleet', tasks' := FreedFleet(fleet, tasks, f), FreedTasks(fleet, tasks, f);
    forall t | t in tasks' && tasks'[t].IsLive()
      ensures HeldByItsRobot(fleet', tasks', t)
    {
      assert HeldByItsRobot(fleet, tasks, t);
    }
  }

  // ---------- Offering it to the rest ----------

  function Pick(fleet: Fleet, names: seq<string>, offline: set<string>): seq<RobotView>
    requires forall n | n in names :: n in fleet
  {
    if names == [] then []
    else
      var r := fleet[names[|names| - 1]];
      Pick(fleet, names[..|names| - 1], offline) + if r.IsAvailable() && r.id !in offline then [r] else []
  }

  /** The robots that could take a task: available and not failed. */
  function Spares(fleet: Fleet, offline: set<string>): seq<RobotView> {
    Pick(fleet, Sorted(fleet.Keys), offline)
  }

  ghost predicate Named(fleet: Fleet) {
    forall r | r in fleet :: fleet[r].id == r
  }

  lemma {:induction false} PickedFrom(fleet: Fleet, names: seq<string>, offline: set<string>)
    requires (forall n | n in names :: n in fleet) && Named(fleet) && Distinct(names)
    ensures DistinctBy(ROBOT_ID, Pick(fleet, names, offline))
    ensures forall r | r in Pick(fleet, names, offline) :: r.id in names && fleet[r.id] == r && r.id !in offline
  {
    if names != [] {
      var n := |names| - 1;
      assert names == names[..n] + [names[n]] && names[n] !in names[..n];
      PickedFrom(fleet, names[..n], offline);
      var before := Pick(fleet, names[..n], offline);
      forall i | 0 <= i < |before|
        ensures ROBOT_ID(before[i]) != names[n]
      {
        assert before[i] in before;
      }
    }
  }

  lemma {:induction false} PicksAll(fleet: Fleet, names: seq<string>, offline: set<string>, id: string)
    requires (forall n | n in names :: n in fleet) && Named(fleet)
    requires id in names && fleet[id].IsAvailable() && id !in offline
    ensures fleet[id] in Pick(fleet, names, offline)
  {
    var n := |names| - 1;
    if id != names[n] {
      assert names == names[..n] + [names[n]];
      PicksAll(fleet, names[..n], offline, id);
    }
  }

  lemma {:induction false} PicksAvailable(fleet: Fleet, names: seq<string>, offline: set<string>)
    requires forall n | n in names :: n in fleet
    ensures forall r | r in Pick(fleet, names, offline) :: r.IsAvailable()
  {
    if names != [] {
      PicksAvailable(fleet, names[..|names| - 1], offline);
    }
  }

  /** Who may be asked: everybody who is available and has not failed, and nobody
      else. */
  lemma SparesExact(fleet: Fleet, offline: set<string>)
    requires Named(fleet)
    ensures forall r :: r in Spares(fleet, offline) <==>
              r.id in fleet && fleet[r.id] == r && r.status == Idle && r.assignedTask.None? && r.id !in offline
  {
    hide Pick, Sorted, DistinctBy;
    var names := Sorted(fleet.Keys);
    PickedFrom(fleet, names, offline);
    PicksAvailable(fleet, names, offline);
    forall r: RobotView | r.id in fleet && fleet[r.id] == r && r.IsAvailable() && r.id !in offline
      ensures r in Spares(fleet, offline)
    {
      PicksAll(fleet, names, offline, r.id);
    }
  }

  lemma SparesKnown(fleet: Fleet, offline: set<string>)
    requires Named(fleet)
    ensures DistinctBy(ROBOT_ID, Spares(fleet, offline))
    ensures forall r | r in Spares(fleet, offline) :: r.id in fleet && fleet[r.id] == r && r.id !in offline
  {
    hide DistinctBy;
    PickedFrom(fleet, Sorted(fleet.Keys), offline);
  }

  method CollectSpares(sim: Simulator, offline: set<string>) returns (list: seq<RobotView>)
    requires sim.Valid()
    ensures list == Spares(sim.FleetView(), offline)
  {
    var views := map id | id in sim.robots :: sim.robots[id].View();
    assert views == sim.FleetView();
    list := Spares(views, offline);
  }

  /** Who the greedy allocator hands the one task to. */
  ghost function BestSpare(f: Floor, fleet: Fleet, t: TaskView, offline: set<string>): Option<string> {
    var chosen := GreedyChoice(f, Spares(fleet, offline), [t]);
    if chosen == [] then None else Some(chosen[0].robot)
  }

  lemma OnePending(t: TaskView)
    requires t.status == Pending
    ensures PendingTasks([t]) == [t] && Ids([t]) == [t.id] && DistinctBy(TASK_ID, [t])
  {
    assert PendingOnly([t]) == [t];
    assert [t][..0] == [];
  }

  lemma GreedyForOne(pairs: seq<Pair>, id: string)
    ensures var pick := Allocation.Pick(pairs, id, {});
            Greedy(pairs, [id]) == if pick.Some? then [pick.value] else []
  {
    assert [id][..0] == [];
    assert RobotsOf([]) == {};
  }

  lemma SortOne(p: Pair)
    ensures SortBy(ByNames, [p]) == [p] && SortBy(ByNames, []) == []
  {
    assert [p][..0] == [];
  }

  /** With one task at most one robot is chosen: one that may take it. */
  lemma OneTaskChoice(f: Floor, fleet: Fleet, tasks: Tasks, id: string, offline: set<string>)
    requires Named(fleet) && id in tasks && tasks[id].id == id && tasks[id].status == Pending
    ensures var chosen := GreedyChoice(f, Spares(fleet, offline), [tasks[id]]);
            && |chosen| <= 1 && SortBy(ByNames, chosen) == chosen && AllAssignable(fleet, tasks, chosen)
            && (chosen != [] ==> chosen[0].task == id && chosen[0].robot in fleet && chosen[0].robot !in offline)
  {
    hide Candidates, EligibleRobots, PendingTasks, SortBy, Greedy, Spares, MayAssign, FirstFree, Allocation.Pick;
    var t := tasks[id];
    var pairs := Candidates(f, EligibleRobots(Spares(fleet, offline)), [t]);
    OnePending(t);
    SparesKnown(fleet, offline);
    GreedyForOne(pairs, id);
    PickIsCheapestFree(pairs, id, {});
    var pick := Allocation.Pick(pairs, id, {});
    SortOne(Pair("", "", 0, 0));
    if pick.Some? {
      SortOne(pick.value);
      CandidateIsAssignable(f, fleet, tasks, Spares(fleet, offline), [t], pick.value);
      CandidateRobotListed(f, EligibleRobots(Spares(fleet, offline)), [t], pick.value);
      EligibleExact(Spares(fleet, offline));
    }
  }

  lemma CandidateRobotListed(f: Floor, rs: seq<RobotView>, ts: seq<TaskView>, p: Pair)
    requires p in Candidates(f, rs, ts)
    ensures exists r | r in rs :: r.id == p.robot
  {
    hide IsCandidate;
    CandidatesExact(f, rs, ts, p);
    var r, t :| r in rs && t in ts && IsCandidate(f, p, r, t);
    CandidateName(f, p, r, t);
  }

  ghost predicate Placed(f: Floor, fleet: Fleet, tasks: Tasks) {
    && (forall r | r in fleet :: f.InBounds(fleet[r].position))
    && (forall t | t in tasks :: f.InBounds(tasks[t].pickup) && f.InBounds(tasks[t].dropoff))
  }

  lemma SparesOnMap(f: Floor, fleet: Fleet, tasks: Tasks, id: string, offline: set<string>)
    requires Placed(f, fleet, tasks) && Named(fleet) && id in tasks
    ensures OnMap(f, Spares(fleet, offline), [tasks[id]])
  {
    SparesKnown(fleet, offline);
  }

  method ChooseSpare(sim: Simulator, id: string, offline: set<string>) returns (allocation: AllocationResult)
    requires sim.Valid() && id in sim.tasks && sim.tasks[id].status == Pending
    requires Placed(sim.warehouse.FloorPlan(), sim.FleetView(), sim.TaskViews())
    ensures allocation.success
    ensures allocation.assignments
             == GreedyChoice(sim.warehouse.FloorPlan(), Spares(sim.FleetView(), offline), [sim.tasks[id].View()])
    ensures |allocation.assignments| <= 1 && AllAssignable(sim.FleetView(), sim.TaskViews(), allocation.assignments)
    ensures allocation.assignments != [] ==>
             allocation.assignments[0].task == id && allocation.assignments[0].robot !in offline
  {
    hide Simulator.FleetView, Simulator.TaskViews, Simulator.Valid, GreedyChoice, Spares, OnMap, Placed,
         Warehouse.FloorPlan, CostEstimator.Valid, Named, AllAssignable, Candidates, TotalCost, Outside, EligibleRobots,
             PendingTasks, SortBy, SomeUnpriceable;
    NamesHold(sim);
    OneTaskChoice(sim.warehouse.FloorPlan(), sim.FleetView(), sim.TaskViews(), id, offline);
    SparesOnMap(sim.warehouse.FloorPlan(), sim.FleetView(), sim.TaskViews(), id, offline);
    var estimator := new CostEstimator(sim.warehouse);
    var candidates := CollectSpares(sim, offline);
    var allocator := new GreedyAllocator(estimator);
    OnMapIsPriced(sim.warehouse.FloorPlan(), candidates, [sim.tasks[id].View()]);
    var raised;
    allocation, raised := allocator.Allocate(candidates, [sim.tasks[id].View()]);
  }

  /** Offer one pending task to the robots that are neither busy nor failed. It
      goes to the cheapest that may take it; the commit never fails. */
  method OfferTask(sim: Simulator, id: string, offline: set<string>) returns (spare: Option<string>)
    requires sim.Valid() && id in sim.tasks && sim.tasks[id].status == Pending
    requires Placed(sim.warehouse.FloorPlan(), sim.FleetView(), sim.TaskViews())
    modifies sim.robots.Values, sim.tasks.Values
    ensures sim.Valid() && sim.robots == old(sim.robots) && sim.tasks == old(sim.tasks)
    ensures spare == BestSpare(sim.warehouse.FloorPlan(), old(sim.FleetView()), old(sim.tasks[id].View()), offline)
    ensures spare.None? ==> forall n, a, b ::
              !CanTakeOver(sim.warehouse.FloorPlan(), old(sim.FleetView()), offline, old(sim.tasks[id].View()), n, a, b)
    ensures spare.Some? ==>
              FirstChoice(sim.warehouse.FloorPlan(), old(sim.FleetView()), offline, old(sim.tasks[id].View()),
                  spare.value)
    ensures spare.None? ==> sim.FleetView() == old(sim.FleetView()) && sim.TaskViews() == old(sim.TaskViews())
    ensures spare.Some? ==>
              && spare.value !in offline && MayAssign(old(sim.FleetView()), old(sim.TaskViews()), spare.value, id)
              && sim.FleetView() == AssignRobot(old(sim.FleetView()), spare.value, id)
              && sim.TaskViews() == AssignTask(old(sim.TaskViews()), spare.value, id)
  {
    hide Simulator.FleetView, Simulator.TaskViews, Simulator.Valid, GreedyChoice, Spares, Placed, Warehouse.FloorPlan,
         AllAssignable, DistinctRobotsAndTasks, FleetAssigned, TasksAssigned, CanTakeOver, FirstChoice, Named;
    NamesHold(sim);
    BestSpareIsCheapest(sim.warehouse.FloorPlan(), sim.FleetView(), sim.tasks[id].View(), offline);
    var allocation := ChooseSpare(sim, id, offline);
    if allocation.assignments == [] {
      return None;
    }
    OneAssigned(sim.FleetView(), sim.TaskViews(), allocation.assignments);
    var report, raised := CommitAllocation(sim, allocation);
    spare := Some(allocation.assignments[0].robot);
  }

  lemma NamesHold(sim: Simulator)
    requires sim.Valid()
    ensures Named(sim.FleetView())
    ensures forall id | id in sim.tasks :: id in sim.TaskViews() && sim.TaskViews()[id] == sim.tasks[id].View()
             && sim.TaskViews()[id].id == id
  {
  }

  lemma OneAssigned(fleet: Fleet, tasks: Tasks, list: seq<Pair>)
    requires AllAssignable(fleet, tasks, list) && |list| == 1
    ensures DistinctRobotsAndTasks(list) && list[0].robot in fleet && list[0].task in tasks
             && MayAssign(fleet, tasks, list[0].robot, list[0].task)
    ensures FleetAssigned(fleet, list) == AssignRobot(fleet, list[0].robot, list[0].task)
    ensures TasksAssigned(tasks, list) == AssignTask(tasks, list[0].robot, list[0].task)
  {
    assert list[0] in list && list[..0] == [];
  }

  /** Robot `n` is there to take over: it has nothing to do, it has not failed, and it
      can do the task for so many moves. */
  ghost predicate CanTakeOver(f: Floor, fleet: Fleet, offline: set<string>, t: TaskView, n: string, toPickup: nat,
          toDropoff: nat)
  {
    && n in fleet && n !in offline && fleet[n].status == Idle && fleet[n].assignedTask.None?
    && CanDo(f, Pair(n, t.id, toPickup, toDropoff), fleet[n], t)
  }

  lemma PairsTakeOver(f: Floor, fleet: Fleet, t: TaskView, offline: set<string>, p: Pair)
    requires Named(fleet) && t.status == Pending
    ensures p in Candidates(f, EligibleRobots(Spares(fleet, offline)), [t]) <==>
              p.task == t.id && CanTakeOver(f, fleet, offline, t, p.robot, p.toPickup, p.toDropoff)
  {
    hide Candidates, EligibleRobots, Spares, CanDo;
    var rs := EligibleRobots(Spares(fleet, offline));
    SparesExact(fleet, offline);
    EligibleExact(Spares(fleet, offline));
    CandidatesCanDo(f, rs, [t], p);
    if p in Candidates(f, rs, [t]) {
      var r, x :| r in rs && x in [t] && CanDo(f, p, r, x);
      DoneBy(f, p, r, t);
    }
    if p.task == t.id && CanTakeOver(f, fleet, offline, t, p.robot, p.toPickup, p.toDropoff) {
      assert fleet[p.robot] in rs && t in [t] && CanDo(f, p, fleet[p.robot], t);
    }
  }

  lemma DoneBy(f: Floor, p: Pair, r: RobotView, t: TaskView)
    requires CanDo(f, p, r, t)
    ensures p.robot == r.id && p.task == t.id && p == Pair(r.id, t.id, p.toPickup, p.toDropoff)
  {
  }

  /** Robot `n` can take over, and nobody else who can is cheaper, or as cheap with an
      earlier name. */
  ghost predicate FirstChoice(f: Floor, fleet: Fleet, offline: set<string>, t: TaskView, n: string) {
    exists a, b :: CanTakeOver(f, fleet, offline, t, n, a, b)
      && forall m, c, d | CanTakeOver(f, fleet, offline, t, m, c, d) ::
           a + b < c + d || (a + b == c + d && !Before(m, n))
  }

  /** There is at most one. */
  lemma OneFirstChoice(f: Floor, fleet: Fleet, offline: set<string>, t: TaskView, n: string, m: string)
    requires FirstChoice(f, fleet, offline, t, n) && FirstChoice(f, fleet, offline, t, m)
    ensures n == m
  {
    hide CanTakeOver;
    BeforeIsStrict(n, m);
  }

  /** A task stays without a robot just when nobody in the fleet can take it over;
      otherwise it goes to the first choice. */
  lemma BestSpareIsCheapest(f: Floor, fleet: Fleet, t: TaskView, offline: set<string>)
    requires Named(fleet) && t.status == Pending
    ensures BestSpare(f, fleet, t, offline).None? <==> forall n, a, b :: !CanTakeOver(f, fleet, offline, t, n, a, b)
    ensures forall n :: BestSpare(f, fleet, t, offline) == Some(n) <==> FirstChoice(f, fleet, offline, t, n)
  {
    hide Candidates, EligibleRobots, PendingTasks, Greedy, Spares, Allocation.Pick, CanTakeOver, FirstChoice;
    var pairs := Candidates(f, EligibleRobots(Spares(fleet, offline)), [t]);
    OnePending(t);
    GreedyForOne(pairs, t.id);
    PickIsCheapestFree(pairs, t.id, {});
    SortOne(Pair("", "", 0, 0));
    forall p
      ensures p in pairs <==> p.task == t.id && CanTakeOver(f, fleet, offline, t, p.robot, p.toPickup, p.toDropoff)
    {
      PairsTakeOver(f, fleet, t, offline, p);
    }
    forall n, a, b | CanTakeOver(f, fleet, offline, t, n, a, b)
      ensures Pair(n, t.id, a, b) in pairs
    {
    }
    var pick := Allocation.Pick(pairs, t.id, {});
    if pick.Some? {
      SortOne(pick.value);
      CheapestIsFirst(f, fleet, offline, t, pairs, pick.value);
    }
    forall n
      ensures BestSpare(f, fleet, t, offline) == Some(n) <==> FirstChoice(f, fleet, offline, t, n)
    {
      if FirstChoice(f, fleet, offline, t, n) {
        FirstChoiceCan(f, fleet, offline, t, n);
        OneFirstChoice(f, fleet, offline, t, n, pick.value.robot);
      }
    }
  }

  lemma FirstChoiceCan(f: Floor, fleet: Fleet, offline: set<string>, t: TaskView, n: string)
    requires FirstChoice(f, fleet, offline, t, n)
    ensures exists a, b :: CanTakeOver(f, fleet, offline, t, n, a, b)
  {
  }

  lemma CheapestIsFirst(f: Floor, fleet: Fleet, offline: set<string>, t: TaskView, pairs: seq<Pair>, p: Pair)
    requires p in pairs && forall q | q in pairs :: !ByCost(q, p)
    requires CanTakeOver(f, fleet, offline, t, p.robot, p.toPickup, p.toDropoff)
    requires forall m, c, d | CanTakeOver(f, fleet, offline, t, m, c, d) :: Pair(m, t.id, c, d) in pairs
    ensures FirstChoice(f, fleet, offline, t, p.robot)
  {
    hide CanTakeOver;
    forall m, c: nat, d: nat | CanTakeOver(f, fleet, offline, t, m, c, d)
      ensures p.toPickup + p.toDropoff < c + d || (p.toPickup + p.toDropoff == c + d && !Before(m, p.robot))
    {
      assert !ByCost(Pair(m, t.id, c, d), p);
    }
  }
}
