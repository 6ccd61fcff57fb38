/** Applying an allocation to the simulator: all of it or nothing. */
module Commit {
  import opened Floors
  import opened Simulation
  import opened Weights
  import opened Names
  import opened Sorting
  import opened Feasibility
  import opened Allocation

  datatype CommitReport = Committed(applied: seq<Pair>) | Refused

  /** Every pairing could be assigned in the world as it is. */
  ghost predicate AllAssignable(fleet: Fleet, tasks: Tasks, list: seq<Pair>) {
    forall p | p in list :: MayAssign(fleet, tasks, p.robot, p.task)
  }

  ghost function FleetAssigned(fleet: Fleet, list: seq<Pair>): (after: Fleet)
    requires forall p | p in list :: p.robot in fleet
    ensures after.Keys == fleet.Keys
  {
    if list == [] then fleet
    else AssignRobot(FleetAssigned(fleet, list[..|list| - 1]), list[|list| - 1].robot, list[|list| - 1].task)
  }

  ghost function TasksAssigned(tasks: Tasks, list: seq<Pair>): (after: Tasks)
    requires forall p | p in list :: p.task in tasks
    ensures after.Keys == tasks.Keys
  {
    if list == [] then tasks
    else AssignTask(TasksAssigned(tasks, list[..|list| - 1]), list[|list| - 1].robot, list[|list| - 1].task)
  }

  /** After some assignments the used robots are busy and the others as they were. */
  lemma {:induction false} RobotsAfterAssigning(fleet: Fleet, list: seq<Pair>)
    requires forall p | p in list :: p.robot in fleet
    ensures var fleet' := FleetAssigned(fleet, list);
            forall r | r in fleet :: if r in RobotsOf(list) then !fleet'[r].IsAvailable() else fleet'[r] == fleet[r]
  {
    if list != [] {
      var n := |list| - 1;
      assert list == list[..n] + [list[n]];
      RobotsAfterAssigning(fleet, list[..n]);
    }
  }

  /** The used tasks are taken and the others as they were. */
  lemma {:induction false} TasksAfterAssigning(tasks: Tasks, list: seq<Pair>)
    requires forall p | p in list :: p.task in tasks
    ensures var tasks' := TasksAssigned(tasks, list);
            forall t | t in tasks :: if t in TasksOf(list) then tasks'[t].status == Assigned else tasks'[t] == tasks[t]
  {
    if list != [] {
      var n := |list| - 1;
      assert list == list[..n] + [list[n]];
      TasksAfterAssigning(tasks, list[..n]);
    }
  }

  lemma NextAssignable(fleet: Fleet, tasks: Tasks, list: seq<Pair>, k: nat)
    requires AllAssignable(fleet, tasks, list) && k < |list|
    ensures AllAssignable(fleet, tasks, list[..k]) && list[k].robot in fleet && list[k].task in tasks
    ensures var p := list[k];
            MayAssign(FleetAssigned(fleet, list[..k]), TasksAssigned(tasks, list[..k]), p.robot, p.task)
            <==> p.robot !in RobotsOf(list[..k]) && p.task !in TasksOf(list[..k])
    ensures AllAssignable(fleet, tasks, list[..k + 1])
    ensures FleetAssigned(fleet, list[..k + 1])
             == AssignRobot(FleetAssigned(fleet, list[..k]), list[k].robot, list[k].task)
    ensures TasksAssigned(tasks, list[..k + 1])
             == AssignTask(TasksAssigned(tasks, list[..k]), list[k].robot, list[k].task)
  {
    assert list[..k + 1][..k] == list[..k];
    assert list[k] in list;
    RobotsAfterAssigning(fleet, list[..k]);
    TasksAfterAssigning(tasks, list[..k]);
  }

  /** Assigning a list of distinct robots and tasks keeps custody. */
  lemma {:induction false} CommitKeepsCustody(fleet: Fleet, tasks: Tasks, list: seq<Pair>)
    requires Custody(fleet, tasks) && AllAssignable(fleet, tasks, list) && DistinctRobotsAndTasks(list)
    ensures Custody(FleetAssigned(fleet, list), TasksAssigned(tasks, list))
  {
    hide Custody, MayAssign, AllAssignable, AssignRobot, AssignTask, RobotsOf, TasksOf, DistinctRobotsAndTasks;
    Assignable(fleet, tasks, list);
    if list != [] {
      var n := |list| - 1;
      NextAssignable(fleet, tasks, list, n);
      assert list[..n + 1] == list;
      LastIsFree(list);
      CommitKeepsCustody(fleet, tasks, list[..n]);
      AssignKeepsCustody(FleetAssigned(fleet, list[..n]), TasksAssigned(tasks, list[..n]), list[n].robot, list[n].task);
    }
  }

  lemma LastIsFree(list: seq<Pair>)
    requires DistinctRobotsAndTasks(list) && list != []
    ensures var n := |list| - 1;
            list[n].robot !in RobotsOf(list[..n]) && list[n].task !in TasksOf(list[..n])
                && DistinctRobotsAndTasks(list[..n])
  {
  }

  /** The first `k` use nobody twice. */
  lemma DistinctGrows(list: seq<Pair>, k: nat)
    requires k < |list| && DistinctRobotsAndTasks(list[..k])
    ensures DistinctRobotsAndTasks(list[..k + 1]) <==>
             list[k].robot !in RobotsOf(list[..k]) && list[k].task !in TasksOf(list[..k])
    ensures !DistinctRobotsAndTasks(list[..k + 1]) ==> !DistinctRobotsAndTasks(list)
  {
    assert list[..k + 1] == list[..k] + [list[k]];
    if DistinctRobotsAndTasks(list[..k + 1]) {
      LastIsFree(list[..k + 1]);
      assert list[..k + 1][..k] == list[..k];
    }
  }

  /** The dry run: nothing is changed. */
  method DryRun(sim: Simulator, list: seq<Pair>) returns (ok: bool)
    requires sim.Valid()
    ensures ok <==> AllAssignable(sim.FleetView(), sim.TaskViews(), list)
  {
    hide Simulator.Valid, Simulator.FleetView, Simulator.TaskViews, MayAssign;
    for k := 0 to |list|
      invariant forall p | p in list[..k] :: MayAssign(sim.FleetView(), sim.TaskViews(), p.robot, p.task)
    {
      assert list[..k + 1] == list[..k] + [list[k]];
      var reason := sim.WhyNotAssignable(list[k].task, list[k].robot);
      if reason.Some? {
        return false;
      }
    }
    assert list[..|list|] == list;
    return true;
  }

  method ApplyAll(sim: Simulator, list: seq<Pair>) returns (raised: Option<SimError>)
    requires sim.Valid() && AllAssignable(sim.FleetView(), sim.TaskViews(), list)
    modifies sim.robots.Values, sim.tasks.Values
    ensures sim.Valid() && sim.robots == old(sim.robots) && sim.tasks == old(sim.tasks)
    ensures raised.None? <==> DistinctRobotsAndTasks(list)
    ensures raised.None? ==>
              && sim.FleetView() == FleetAssigned(old(sim.FleetView()), list)
              && sim.TaskViews() == TasksAssigned(old(sim.TaskViews()), list)
  {
    hide Simulator.Valid, Simulator.FleetView, Simulator.TaskViews, MayAssign, DistinctRobotsAndTasks, AssignRobot,
         AssignTask, RobotsOf, TasksOf, AllAssignable;
    ghost var fleet, tasks := sim.FleetView(), sim.TaskViews();
    Assignable(fleet, tasks, list);
    assert list[..0] == [];
    for k := 0 to |list|
      invariant sim.Valid() && sim.robots == old(sim.robots) && sim.tasks == old(sim.tasks)
      invariant DistinctRobotsAndTasks(list[..k]) && AllAssignable(fleet, tasks, list)
      invariant (forall p | p in list[..k] :: p.robot in fleet && p.task in tasks)
      invariant sim.FleetView() == FleetAssigned(fleet, list[..k]) && sim.TaskViews() == TasksAssigned(tasks, list[..k])
    {
      NextAssignable(fleet, tasks, list, k);
      Assignable(fleet, tasks, list[..k + 1]);
      DistinctGrows(list, k);
      raised := sim.AssignTaskManually(list[k].task, list[k].robot);
      if raised.Some? {
        return;
      }
    }
    assert list[..|list|] == list;
    return None;
  }

  lemma Assignable(fleet: Fleet, tasks: Tasks, list: seq<Pair>)
    requires AllAssignable(fleet, tasks, list)
    ensures forall p | p in list :: p.robot in fleet && p.task in tasks
    ensures DistinctRobotsAndTasks([])
  {
  }

  /** Check everything, then apply everything. A refusal changes nothing; after a
      successful dry run no assignment raises, exactly when no robot and no task
      is named twice. */
  method CommitAllocation(sim: Simulator, result: AllocationResult)
    returns (report: CommitReport, raised: Option<SimError>)
    requires sim.Valid()
    modifies sim.robots.Values, sim.tasks.Values
    ensures sim.Valid() && sim.robots == old(sim.robots) && sim.tasks == old(sim.tasks)
    ensures var list, fleet, tasks := result.assignments, old(sim.FleetView()), old(sim.TaskViews());
            if !result.success || !AllAssignable(fleet, tasks, list) then
              report == Refused && raised.None? && sim.FleetView() == fleet && sim.TaskViews() == tasks
            else
              && (raised.None? <==> DistinctRobotsAndTasks(list))
              && (raised.None? ==>
                    report == Committed(list)
                    && sim.FleetView() == FleetAssigned(fleet, list) && sim.TaskViews() == TasksAssigned(tasks, list))
  {
    hide Simulator.Valid, Simulator.FleetView, Simulator.TaskViews, AllAssignable, DistinctRobotsAndTasks;
    if !result.success {
      return Refused, None;
    }
    NothingAssigned(sim.FleetView(), sim.TaskViews());
    if result.assignments == [] {
      return Committed([]), None;
    }
    var ok := DryRun(sim, result.assignments);
    if !ok {
      return Refused, None;
    }
    raised := ApplyAll(sim, result.assignments);
    report := Committed(result.assignments);
  }

  lemma NothingAssigned(fleet: Fleet, tasks: Tasks)
    ensures AllAssignable(fleet, tasks, []) && DistinctRobotsAndTasks([])
  {
  }

  // ---------- A fresh allocation always commits ----------

  /** The lists the allocator was given are the registered robots and tasks. */
  ghost predicate Registered(fleet: Fleet, tasks: Tasks, robots: seq<RobotView>, list: seq<TaskView>) {
    && (forall r | r in robots :: r.id in fleet && fleet[r.id] == r)
    && (forall t | t in list :: t.id in tasks && tasks[t.id] == t)
  }

  lemma CandidateIsAssignable(f: Floor, fleet: Fleet, tasks: Tasks, robots: seq<RobotView>, list: seq<TaskView>,
          p: Pair)
    requires Registered(fleet, tasks, robots, list)
    requires p in Candidates(f, EligibleRobots(robots), PendingTasks(list))
    ensures MayAssign(fleet, tasks, p.robot, p.task)
  {
    hide IsCandidate, Candidates, EligibleRobots, PendingTasks;
    CandidatesExact(f, EligibleRobots(robots), PendingTasks(list), p);
    var r, t :| r in EligibleRobots(robots) && t in PendingTasks(list) && IsCandidate(f, p, r, t);
    EligibleExact(robots);
    PendingExact(list);
    CandidateName(f, p, r, t);
    CandidateCarries(f, p, r, t);
  }

  lemma CandidateCarries(f: Floor, p: Pair, r: RobotView, t: TaskView)
    requires IsCandidate(f, p, r, t)
    ensures r.CanCarry(t.weight)
  {
  }

  /** Sorting a result changes neither who is in it nor that nobody is in it twice. */
  lemma SortedResult(chosen: seq<Pair>)
    ensures DistinctRobotsAndTasks(chosen) ==> DistinctRobotsAndTasks(SortBy(ByNames, chosen))
    ensures forall p :: p in SortBy(ByNames, chosen) <==> p in chosen
  {
    SortKeeps(ByNames, chosen);
    if DistinctRobotsAndTasks(chosen) {
      SortDistinct(ByNames, ROBOT_NAME, chosen);
      SortDistinct(ByNames, TASK_NAME, chosen);
      var s := SortBy(ByNames, chosen);
      forall i, j | 0 <= i < j < |s|
        ensures s[i].robot != s[j].robot && s[i].task != s[j].task
      {
        assert ROBOT_NAME(s[i]) != ROBOT_NAME(s[j]) && TASK_NAME(s[i]) != TASK_NAME(s[j]);
      }
    }
  }

  /** A fresh allocation in an unchanged world passes the dry run and names
      nobody twice, so it is committed whole. */
  lemma FreshResultCommits(f: Floor, fleet: Fleet, tasks: Tasks, robots: seq<RobotView>, list: seq<TaskView>,
          chosen: seq<Pair>, r: AllocationResult)
    requires Registered(fleet, tasks, robots, list) && MadeFrom(f, robots, list, chosen, true, r)
    requires DistinctRobotsAndTasks(chosen)
    requires forall p | p in chosen :: p in Candidates(f, EligibleRobots(robots), PendingTasks(list))
    ensures AllAssignable(fleet, tasks, r.assignments) && DistinctRobotsAndTasks(r.assignments)
  {
    hide Registered, Candidates, MayAssign, DistinctRobotsAndTasks, SortBy;
    SortedResult(chosen);
    forall p | p in chosen
      ensures MayAssign(fleet, tasks, p.robot, p.task)
    {
      CandidateIsAssignable(f, fleet, tasks, robots, list, p);
    }
  }

  lemma {:induction false} IdsDistinct(tasks: seq<TaskView>)
    requires DistinctBy(TASK_ID, tasks)
    ensures Distinct(Ids(tasks))
  {
    forall i, j | 0 <= i < j < |tasks|
      ensures Ids(tasks)[i] != Ids(tasks)[j]
    {
      assert TASK_ID(tasks[i]) != TASK_ID(tasks[j]);
    }
  }

  /** What the greedy allocator proposes for distinct robots and tasks. */
  lemma GreedyChoiceIsFresh(f: Floor, robots: seq<RobotView>, list: seq<TaskView>)
    requires DistinctBy(ROBOT_ID, robots) && DistinctBy(TASK_ID, list)
    ensures var pairs, order := Candidates(f, EligibleRobots(robots), PendingTasks(list)), Ids(PendingTasks(list));
            && DistinctKeys(pairs) && Distinct(order) && (forall p | p in pairs :: p.task in order)
            && DistinctRobotsAndTasks(GreedyChoice(f, robots, list))
            && (forall p | p in GreedyChoice(f, robots, list) :: p in pairs)
  {
    hide Candidates, EligibleRobots, PendingTasks, DistinctRobotsAndTasks, DistinctKeys, Greedy;
    StillDistinct(robots, list);
    CandidatesDistinct(f, EligibleRobots(robots), PendingTasks(list));
    IdsDistinct(PendingTasks(list));
    forall p | p in Candidates(f, EligibleRobots(robots), PendingTasks(list))
      ensures p.task in Ids(PendingTasks(list))
    {
      CandidateTaskListed(f, EligibleRobots(robots), PendingTasks(list), p);
    }
    GreedyIsMaximalMatching(Candidates(f, EligibleRobots(robots), PendingTasks(list)), Ids(PendingTasks(list)));
  }

  lemma CandidateTaskListed(f: Floor, rs: seq<RobotView>, ts: seq<TaskView>, p: Pair)
    requires p in Candidates(f, rs, ts)
    ensures p.task in Ids(ts)
  {
    CandidatesExact(f, rs, ts, p);
    var r, t :| r in rs && t in ts && IsCandidate(f, p, r, t);
    CandidateName(f, p, r, t);
    var i :| 0 <= i < |ts| && ts[i] == t;
    assert Ids(ts)[i] == t.id;
  }

  /** The greedy allocator against the optimiser, on the same robots and tasks:
      at least half of any matching, never more than an optimal one, and an
      optimal one of the same size is no dearer. */
  lemma GreedyAgainstOptimum(f: Floor, robots: seq<RobotView>, list: seq<TaskView>, a: Selection)
    requires DistinctBy(ROBOT_ID, robots) && DistinctBy(TASK_ID, list)
    ensures var pairs, g := Candidates(f, EligibleRobots(robots), PendingTasks(list)), GreedyChoice(f, robots, list);
            && (IsMatching(pairs, a) ==> |a| <= 2 * |g|)
            && (SolverOptimal(pairs, a) ==> |g| <= |Selected(pairs, a)|)
            && (SolverOptimal(pairs, a) && |Selected(pairs, a)| == |g| ==>
                TotalCost(Selected(pairs, a)) <= TotalCost(g))
  {
    hide Candidates, EligibleRobots, PendingTasks, DistinctRobotsAndTasks, DistinctKeys, Greedy, Selected, TotalCost,
         IsMatching;
    var pairs, order := Candidates(f, EligibleRobots(robots), PendingTasks(list)), Ids(PendingTasks(list));
    GreedyChoiceIsFresh(f, robots, list);
    if IsMatching(pairs, a) {
      GreedyIsAtLeastHalf(pairs, order, a);
    }
    if SolverOptimal(pairs, a) {
      OptimalBeatsGreedy(pairs, order, a);
      SelectionMeasures(pairs, a);
    }
  }

  lemma SelectionMeasures(pairs: seq<Pair>, a: Selection)
    requires IsMatching(pairs, a)
    ensures |Selected(pairs, a)| == |a| && TotalCost(Selected(pairs, a)) == Cost(pairs, a, |pairs|)
  {
    SelectedIsMatching(pairs, a, |pairs|);
    CountIsSize(a, |pairs|);
    assert pairs[..|pairs|] == pairs;
  }
}
