/** The independent check of an allocation, and why both allocators pass it. */
module AllocationCheck {
  import opened Floors
  import opened Simulation
  import opened Weights
  import opened Names
  import opened Sorting
  import opened Feasibility
  import opened Allocation
  import opened Commit

  datatype AllocationProblem =
    | AssignmentsOfFailure | TaskTwice | RobotTwice | UnknownRobotNamed | RobotNotEligible | UnknownTaskNamed
    | TaskNotCandidate | PayloadTooHeavy | NoRoute | BatteryTooLowFor | WrongPickupCost | WrongDropoffCost
    | WrongTotal | WrongUnassigned | WrongCount

  /** Looking an id up among records filed by id: the last one counts. */
  function LastRobot(robots: seq<RobotView>, id: string): Option<RobotView> {
    if robots == [] then None
    else if robots[|robots| - 1].id == id then Some(robots[|robots| - 1])
    else LastRobot(robots[..|robots| - 1], id)
  }

  function LastTask(tasks: seq<TaskView>, id: string): Option<TaskView> {
    if tasks == [] then None
    else if tasks[|tasks| - 1].id == id then Some(tasks[|tasks| - 1])
    else LastTask(tasks[..|tasks| - 1], id)
  }

  function RobotIds(robots: seq<RobotView>): seq<string> {
    seq(|robots|, i requires 0 <= i < |robots| => robots[i].id)
  }

  /** One assignment names an eligible robot and a pending task, may be carried,
      can be driven and paid for, and is priced truthfully. */
  ghost predicate AssignmentOk(f: Floor, robots: seq<RobotView>, tasks: seq<TaskView>, p: Pair) {
    var r, t := LastRobot(robots, p.robot), LastTask(tasks, p.task);
    && r.Some? && p.robot in RobotIds(EligibleRobots(robots))
    && t.Some? && p.task in Ids(PendingTasks(tasks))
    && Feasible(f, r.value, t.value)
    && Price(f, r.value.position, t.value.pickup, t.value.dropoff).value == Some(Legs(p.toPickup, p.toDropoff))
  }

  ghost predicate AllocationOk(f: Floor, robots: seq<RobotView>, tasks: seq<TaskView>, r: AllocationResult) {
    var order := Ids(PendingTasks(tasks));
    if !r.success then r.assignments == []
    else
      && DistinctRobotsAndTasks(r.assignments)
      && (forall p | p in r.assignments :: AssignmentOk(f, robots, tasks, p))
      && r.totalCost == TotalCost(r.assignments)
      && SortBy(Before, r.unassigned) == SortBy(Before, Outside(order, TasksOf(r.assignments)))
      && |r.assignments| + |r.unassigned| == |order|
  }

  /** An assignment in order is one that can be done, at its true price, by an
      available robot for a pending task. */
  lemma OkCanDo(f: Floor, robots: seq<RobotView>, tasks: seq<TaskView>, p: Pair)
    ensures AssignmentOk(f, robots, tasks, p) <==>
              && p.robot in RobotIds(EligibleRobots(robots)) && p.task in Ids(PendingTasks(tasks))
              && var r, t := LastRobot(robots, p.robot), LastTask(tasks, p.task);
                 r.Some? && t.Some? && CanDo(f, p, r.value, t.value)
  {
    hide EligibleRobots, PendingTasks, Price, CanDo, Feasible;
    LastRobotIn(robots, p.robot);
    LastTaskIn(tasks, p.task);
    var r, t := LastRobot(robots, p.robot), LastTask(tasks, p.task);
    if r.Some? && t.Some? {
      CandidateCanDo(f, p, r.value, t.value);
      CandidateIsPriced(f, p, r.value, t.value);
    }
  }

  lemma CandidateIsPriced(f: Floor, p: Pair, r: RobotView, t: TaskView)
    requires p.robot == r.id && p.task == t.id
    ensures IsCandidate(f, p, r, t) <==>
              && Feasible(f, r, t)
              && Price(f, r.position, t.pickup, t.dropoff).value == Some(Legs(p.toPickup, p.toDropoff))
  {
    hide Price, BatteryFeasible;
  }

  lemma {:induction false} LastRobotIn(robots: seq<RobotView>, id: string)
    ensures LastRobot(robots, id).Some? ==>
             LastRobot(robots, id).value in robots && LastRobot(robots, id).value.id == id
    ensures DistinctBy(ROBOT_ID, robots) ==> forall r | r in robots && r.id == id :: LastRobot(robots, id) == Some(r)
  {
    if robots != [] {
      var n := |robots| - 1;
      LastRobotIn(robots[..n], id);
      assert robots == robots[..n] + [robots[n]];
      if DistinctBy(ROBOT_ID, robots) {
        forall r | r in robots[..n]
          ensures r.id != robots[n].id
        {
          assert ROBOT_ID(r) != ROBOT_ID(robots[n]);
        }
      }
    }
  }

  lemma {:induction false} LastTaskIn(tasks: seq<TaskView>, id: string)
    ensures LastTask(tasks, id).Some? ==> LastTask(tasks, id).value in tasks && LastTask(tasks, id).value.id == id
    ensures DistinctBy(TASK_ID, tasks) ==> forall t | t in tasks && t.id == id :: LastTask(tasks, id) == Some(t)
  {
    if tasks != [] {
      var n := |tasks| - 1;
      LastTaskIn(tasks[..n], id);
      assert tasks == tasks[..n] + [tasks[n]];
      if DistinctBy(TASK_ID, tasks) {
        forall t | t in tasks[..n]
          ensures t.id != tasks[n].id
        {
          assert TASK_ID(t) != TASK_ID(tasks[n]);
        }
      }
    }
  }

  /** Looking at the assignment raises: it names a known robot and a known task, and
      pricing them does. */
  ghost predicate CannotBePriced(f: Floor, robots: seq<RobotView>, tasks: seq<TaskView>, p: Pair) {
    var r, t := LastRobot(robots, p.robot), LastTask(tasks, p.task);
    r.Some? && t.Some? && Price(f, r.value.position, t.value.pickup, t.value.dropoff).Raised?
  }

  /** What each problem says of an assignment of a known robot and a known task. */
  ghost predicate PriceFault(f: Floor, r: RobotView, t: TaskView, p: Pair, q: AllocationProblem) {
    var price := Price(f, r.position, t.pickup, t.dropoff);
    || (q == PayloadTooHeavy && !r.CanCarry(t.weight))
    || (price.Ok? && if price.value.None? then q == NoRoute
        else
          var legs := price.value.value;
          || (q == BatteryTooLowFor && !BatteryFeasible(r, legs.toPickup + legs.toDropoff))
          || (q == WrongPickupCost && p.toPickup != legs.toPickup)
          || (q == WrongDropoffCost && p.toDropoff != legs.toDropoff))
  }

  /** The same of any assignment. */
  ghost predicate PairFault(f: Floor, robots: seq<RobotView>, tasks: seq<TaskView>, p: Pair, q: AllocationProblem) {
    var r, t := LastRobot(robots, p.robot), LastTask(tasks, p.task);
    if r.None? then q == UnknownRobotNamed
    else
      || (q == RobotNotEligible && p.robot !in RobotIds(EligibleRobots(robots)))
      || (if t.None? then q == UnknownTaskNamed
          else (q == TaskNotCandidate && p.task !in Ids(PendingTasks(tasks))) || PriceFault(f, r.value, t.value, p, q))
  }

  ghost predicate SomeTaskTwice(list: seq<Pair>) {
    exists i, j :: 0 <= i < j < |list| && list[i].task == list[j].task
  }

  ghost predicate SomeRobotTwice(list: seq<Pair>) {
    exists i, j :: 0 <= i < j < |list| && list[i].robot == list[j].robot
  }

  ghost predicate ListFault(f: Floor, robots: seq<RobotView>, tasks: seq<TaskView>, list: seq<Pair>,
          q: AllocationProblem)
  {
    || (q == TaskTwice && SomeTaskTwice(list)) || (q == RobotTwice && SomeRobotTwice(list))
    || SomePairFault(f, robots, tasks, list, q)
  }

  ghost predicate SomePairFault(f: Floor, robots: seq<RobotView>, tasks: seq<TaskView>, list: seq<Pair>,
          q: AllocationProblem)
  {
    exists p :: p in list && PairFault(f, robots, tasks, p, q)
  }

  /** What each problem says of a whole allocation. */
  ghost predicate AllocationFault(f: Floor, robots: seq<RobotView>, tasks: seq<TaskView>, r: AllocationResult,
          q: AllocationProblem)
  {
    var order := Ids(PendingTasks(tasks));
    if !r.success then q == AssignmentsOfFailure && r.assignments != []
    else
      || ListFault(f, robots, tasks, r.assignments, q)
      || (q == WrongTotal && r.totalCost != TotalCost(r.assignments))
      || (q == WrongUnassigned
          && SortBy(Before, r.unassigned) != SortBy(Before, Outside(order, TasksOf(r.assignments))))
      || (q == WrongCount && |r.assignments| + |r.unassigned| != |order|)
  }

  lemma ListFaultGrows(f: Floor, robots: seq<RobotView>, tasks: seq<TaskView>, list: seq<Pair>, k: nat,
          q: AllocationProblem)
    requires k < |list|
    ensures ListFault(f, robots, tasks, list[..k + 1], q) <==>
              || ListFault(f, robots, tasks, list[..k], q)
              || (q == TaskTwice && list[k].task in TasksOf(list[..k]))
              || (q == RobotTwice && list[k].robot in RobotsOf(list[..k]))
              || PairFault(f, robots, tasks, list[k], q)
  {
    hide PairFault, SomeTaskTwice, SomeRobotTwice, TasksOf, RobotsOf;
    RepeatsGrow(list, k);
    assert list[..k + 1] == list[..k] + [list[k]];
  }

  lemma RepeatsGrow(list: seq<Pair>, k: nat)
    requires k < |list|
    ensures SomeTaskTwice(list[..k + 1]) <==> SomeTaskTwice(list[..k]) || list[k].task in TasksOf(list[..k])
    ensures SomeRobotTwice(list[..k + 1]) <==> SomeRobotTwice(list[..k]) || list[k].robot in RobotsOf(list[..k])
  {
    var before, now := list[..k], list[..k + 1];
    assert now[k] == list[k] && forall i | 0 <= i < k :: now[i] == before[i];
    if list[k].task in TasksOf(before) {
      var i :| 0 <= i < k && before[i].task == list[k].task;
      assert now[i].task == now[k].task;
    }
    if list[k].robot in RobotsOf(before) {
      var i :| 0 <= i < k && before[i].robot == list[k].robot;
      assert now[i].robot == now[k].robot;
    }
  }

  lemma NothingFaulty(f: Floor, robots: seq<RobotView>, tasks: seq<TaskView>, q: AllocationProblem)
    ensures !ListFault(f, robots, tasks, [], q)
  {
  }

  method PriceProblems(r: RobotView, t: TaskView, p: Pair, estimator: CostEstimator)
    returns (problems: seq<AllocationProblem>, raised: bool)
    requires estimator.Valid()
    modifies estimator`cache, estimator`plannerCalls
    ensures estimator.Valid()
    ensures var f := estimator.warehouse.FloorPlan();
            && (raised <==> Price(f, r.position, t.pickup, t.dropoff).Raised?)
            && (!raised ==>
                  (problems == [] <==>
                     && Feasible(f, r, t)
                     && Price(f, r.position, t.pickup, t.dropoff).value == Some(Legs(p.toPickup, p.toDropoff))))
            && (!raised ==> forall q :: q in problems <==> PriceFault(f, r, t, p, q))
  {
    hide CostEstimator.Valid, Price;
    problems, raised := if r.CanCarry(t.weight) then [] else [PayloadTooHeavy], false;
    var cost := estimator.Estimate(r, t);
    if cost.Raised? {
      return problems, true;
    }
    if cost.value.None? {
      return problems + [NoRoute], false;
    }
    var legs := cost.value.value;
    if !BatteryFeasible(r, legs.toPickup + legs.toDropoff) {
      problems := problems + [BatteryTooLowFor];
    }
    if p.toPickup != legs.toPickup {
      problems := problems + [WrongPickupCost];
    }
    if p.toDropoff != legs.toDropoff {
      problems := problems + [WrongDropoffCost];
    }
  }

  method AssignmentProblems(robots: seq<RobotView>, tasks: seq<TaskView>, p: Pair, estimator: CostEstimator)
    returns (problems: seq<AllocationProblem>, raised: bool)
    requires estimator.Valid()
    modifies estimator`cache, estimator`plannerCalls
    ensures estimator.Valid()
    ensures raised <==> CannotBePriced(estimator.warehouse.FloorPlan(), robots, tasks, p)
    ensures !raised ==> (problems == [] <==> AssignmentOk(estimator.warehouse.FloorPlan(), robots, tasks, p))
    ensures !raised ==>
              forall q :: q in problems <==> PairFault(estimator.warehouse.FloorPlan(), robots, tasks, p, q)
  {
    hide CostEstimator.Valid, Price, Feasible, PriceFault, LastRobot, LastTask, EligibleRobots, PendingTasks;
    var r, t := LastRobot(robots, p.robot), LastTask(tasks, p.task);
    if r.None? {
      return [UnknownRobotNamed], false;
    }
    problems := if p.robot in RobotIds(EligibleRobots(robots)) then [] else [RobotNotEligible];
    if t.None? {
      return problems + [UnknownTaskNamed], false;
    }
    if p.task !in Ids(PendingTasks(tasks)) {
      problems := problems + [TaskNotCandidate];
    }
    var more;
    more, raised := PriceProblems(r.value, t.value, p, estimator);
    problems := problems + more;
  }

  /** The repeats and the single-assignment problems, in one pass. */
  method ListProblems(robots: seq<RobotView>, tasks: seq<TaskView>, list: seq<Pair>, estimator: CostEstimator)
    returns (problems: seq<AllocationProblem>, seenTasks: set<string>, raised: bool)
    requires estimator.Valid()
    modifies estimator`cache, estimator`plannerCalls
    ensures estimator.Valid()
    ensures raised <==> exists p :: p in list && CannotBePriced(estimator.warehouse.FloorPlan(), robots, tasks, p)
    ensures !raised ==>
              seenTasks == TasksOf(list)
              && (problems == [] <==>
                    && DistinctRobotsAndTasks(list)
                    && forall p | p in list :: AssignmentOk(estimator.warehouse.FloorPlan(), robots, tasks, p))
              && forall q :: q in problems <==> ListFault(estimator.warehouse.FloorPlan(), robots, tasks, list, q)
  {
    hide CostEstimator.Valid, AssignmentOk, ListFault, PairFault, CannotBePriced, DistinctRobotsAndTasks,
         Warehouse.FloorPlan;
    ghost var f := estimator.warehouse.FloorPlan();
    var seenRobots: set<string> := {};
    problems, seenTasks, raised := [], {}, false;
    NothingAssigned(map[], map[]);
    forall q
      ensures !ListFault(f, robots, tasks, list[..0], q)
    {
      NothingFaulty(f, robots, tasks, q);
    }
    for k := 0 to |list|
      invariant estimator.Valid() && seenTasks == TasksOf(list[..k]) && seenRobots == RobotsOf(list[..k])
      invariant forall p | p in list[..k] :: !CannotBePriced(f, robots, tasks, p)
      invariant problems == [] <==> DistinctRobotsAndTasks(list[..k]) && forall p | p in list[..k] ::
                AssignmentOk(f, robots, tasks, p)
      invariant forall q :: q in problems <==> ListFault(f, robots, tasks, list[..k], q)
    {
      var p := list[k];
      forall q
        ensures ListFault(f, robots, tasks, list[..k + 1], q) <==>
                  || ListFault(f, robots, tasks, list[..k], q)
                  || (q == TaskTwice && p.task in TasksOf(list[..k]))
                  || (q == RobotTwice && p.robot in RobotsOf(list[..k]))
                  || PairFault(f, robots, tasks, p, q)
      {
        ListFaultGrows(f, robots, tasks, list, k, q);
      }
      assert list[..k + 1] == list[..k] + [p];
      DistinctPrefix(list, k);
      if p.task in seenTasks {
        problems := problems + [TaskTwice];
      }
      seenTasks := seenTasks + {p.task};
      if p.robot in seenRobots {
        problems := problems + [RobotTwice];
      }
      seenRobots := seenRobots + {p.robot};
      assert forall q :: q in problems <==>
        || ListFault(f, robots, tasks, list[..k], q)
        || (q == TaskTwice && p.task in TasksOf(list[..k])) || (q == RobotTwice && p.robot in RobotsOf(list[..k]));
      var more, stuck := AssignmentProblems(robots, tasks, p, estimator);
      if stuck {
        return problems, seenTasks, true;
      }
      assert forall q :: q in more <==> PairFault(f, robots, tasks, p, q);
      problems := problems + more;
    }
    assert list[..|list|] == list;
  }

  lemma DistinctPrefix(list: seq<Pair>, k: nat)
    requires k < |list|
    ensures DistinctRobotsAndTasks(list[..k + 1]) <==>
              DistinctRobotsAndTasks(list[..k]) && list[k].robot !in RobotsOf(list[..k])
                  && list[k].task !in TasksOf(list[..k])
  {
    assert list[..k + 1][..k] == list[..k];
    if DistinctRobotsAndTasks(list[..k]) {
      DistinctGrows(list, k);
    }
  }

  /** The checker is exact: it lists just the problems there are, none just when the
      allocation is in order. It raises exactly on an assignment that cannot be
      priced. */
  method FindAllocationProblems(result: AllocationResult, robots: seq<RobotView>, tasks: seq<TaskView>,
          estimator: CostEstimator)
    returns (problems: seq<AllocationProblem>, raised: bool)
    requires estimator.Valid()
    modifies estimator`cache, estimator`plannerCalls
    ensures estimator.Valid()
    ensures raised <==>
              result.success
              && exists p :: p in result.assignments
                  && CannotBePriced(estimator.warehouse.FloorPlan(), robots, tasks, p)
    ensures !raised ==> (problems == [] <==> AllocationOk(estimator.warehouse.FloorPlan(), robots, tasks, result))
    ensures !raised ==>
              forall q :: q in problems <==> AllocationFault(estimator.warehouse.FloorPlan(), robots, tasks, result, q)
  {
    hide CostEstimator.Valid, AssignmentOk, ListFault, CannotBePriced, DistinctRobotsAndTasks, SortBy, TotalCost,
         Outside, PendingTasks, TasksOf;
    if !result.success {
      return if result.assignments == [] then [] else [AssignmentsOfFailure], false;
    }
    var order := Ids(PendingTasks(tasks));
    var seenTasks;
    problems, seenTasks, raised := ListProblems(robots, tasks, result.assignments, estimator);
    if raised {
      return;
    }
    if result.totalCost != TotalCost(result.assignments) {
      problems := problems + [WrongTotal];
    }
    if SortBy(Before, result.unassigned) != SortBy(Before, Outside(order, seenTasks)) {
      problems := problems + [WrongUnassigned];
    }
    if |result.assignments| + |result.unassigned| != |order| {
      problems := problems + [WrongCount];
    }
  }

  // ---------- What the allocators produce is in order ----------

  lemma {:induction false} FrontCost(x: Pair, s: seq<Pair>)
    ensures TotalCost([x] + s) == x.Total() + TotalCost(s)
  {
    if s != [] {
      var n := |s| - 1;
      FrontCost(x, s[..n]);
      assert ([x] + s)[..n + 1] == [x] + s[..n];
    }
  }

  lemma {:induction false} InsertCost(x: Pair, s: seq<Pair>)
    ensures TotalCost(Insert(ByNames, x, s)) == x.Total() + TotalCost(s)
  {
    hide TotalCost;
    FrontCost(x, s);
    if s != [] {
      InsertCost(x, s[1..]);
      FrontCost(s[0], s[1..]);
      FrontCost(s[0], Insert(ByNames, x, s[1..]));
      assert s == [s[0]] + s[1..];
    }
  }

  /** Sorting does not change the total. */
  lemma {:induction false} SortedCost(s: seq<Pair>)
    ensures TotalCost(SortBy(ByNames, s)) == TotalCost(s)
  {
    if s != [] {
      SortedCost(s[..|s| - 1]);
      InsertCost(s[|s| - 1], SortBy(ByNames, s[..|s| - 1]));
    }
  }

  lemma {:induction false} OutsideCount(order: seq<string>, taken: set<string>)
    requires Distinct(order) && forall t | t in taken :: t in order
    ensures |Outside(order, taken)| + |taken| == |order|
  {
    if order == [] {
      assert taken == {};
    } else {
      var n := |order| - 1;
      assert order == order[..n] + [order[n]] && order[n] !in order[..n];
      OutsideCount(order[..n], taken - {order[n]});
      OutsideIgnores(order[..n], taken, order[n]);
    }
  }

  lemma {:induction false} OutsideIgnores(order: seq<string>, taken: set<string>, x: string)
    requires x !in order
    ensures Outside(order, taken) == Outside(order, taken - {x})
  {
    if order != [] {
      OutsideIgnores(order[..|order| - 1], taken, x);
    }
  }

  lemma {:induction false} TasksCounted(chosen: seq<Pair>)
    requires DistinctRobotsAndTasks(chosen)
    ensures |TasksOf(chosen)| == |chosen|
  {
    if chosen != [] {
      var n := |chosen| - 1;
      LastIsFree(chosen);
      TasksCounted(chosen[..n]);
      assert chosen == chosen[..n] + [chosen[n]];
      assert TasksOf(chosen) == TasksOf(chosen[..n]) + {chosen[n].task};
    }
  }

  lemma CandidateIsOk(f: Floor, robots: seq<RobotView>, tasks: seq<TaskView>, p: Pair)
    requires DistinctBy(ROBOT_ID, robots) && DistinctBy(TASK_ID, tasks)
    requires p in Candidates(f, EligibleRobots(robots), PendingTasks(tasks))
    ensures AssignmentOk(f, robots, tasks, p)
  {
    hide Feasible, Candidates, EligibleRobots, PendingTasks, Price, LastRobot, LastTask;
    CandidatesExact(f, EligibleRobots(robots), PendingTasks(tasks), p);
    var r, t :| r in EligibleRobots(robots) && t in PendingTasks(tasks) && IsCandidate(f, p, r, t);
    EligibleExact(robots);
    PendingExact(tasks);
    CandidateName(f, p, r, t);
    LastRobotIn(robots, p.robot);
    LastTaskIn(tasks, p.task);
    CandidateLegs(f, p, r, t);
    Listed(EligibleRobots(robots), PendingTasks(tasks), r, t);
  }

  lemma Listed(robots: seq<RobotView>, tasks: seq<TaskView>, r: RobotView, t: TaskView)
    requires r in robots && t in tasks
    ensures r.id in RobotIds(robots) && t.id in Ids(tasks)
  {
    var i :| 0 <= i < |robots| && robots[i] == r;
    assert RobotIds(robots)[i] == r.id;
    var j :| 0 <= j < |tasks| && tasks[j] == t;
    assert Ids(tasks)[j] == t.id;
  }

  lemma CandidateLegs(f: Floor, p: Pair, r: RobotView, t: TaskView)
    requires IsCandidate(f, p, r, t)
    ensures Price(f, r.position, t.pickup, t.dropoff).Ok?
    ensures Price(f, r.position, t.pickup, t.dropoff).value == Some(Legs(p.toPickup, p.toDropoff))
  {
  }

  /** Any matching of the candidates, reported as the allocators report it,
      passes the independent check. */
  lemma MatchingPassesCheck(f: Floor, robots: seq<RobotView>, tasks: seq<TaskView>, chosen: seq<Pair>, success: bool,
          r: AllocationResult)
    requires DistinctBy(ROBOT_ID, robots) && DistinctBy(TASK_ID, tasks)
    requires MadeFrom(f, robots, tasks, chosen, success, r) && (!success ==> chosen == [])
    requires DistinctRobotsAndTasks(chosen)
    requires forall p | p in chosen :: p in Candidates(f, EligibleRobots(robots), PendingTasks(tasks))
    ensures AllocationOk(f, robots, tasks, r)
  {
    hide Candidates, EligibleRobots, PendingTasks, DistinctRobotsAndTasks, SortBy, TotalCost, Outside, AssignmentOk,
         DistinctBy;
    var order := Ids(PendingTasks(tasks));
    SortedResult(chosen);
    SortedCost(chosen);
    forall p | p in chosen
      ensures AssignmentOk(f, robots, tasks, p) && p.task in order
    {
      CandidateIsOk(f, robots, tasks, p);
      CandidateTaskListed(f, EligibleRobots(robots), PendingTasks(tasks), p);
    }
    StillDistinct(robots, tasks);
    IdsDistinct(PendingTasks(tasks));
    TasksCounted(chosen);
    OutsideCount(order, TasksOf(chosen));
    SortKeeps(ByNames, chosen);
    assert TasksOf(SortBy(ByNames, chosen)) == TasksOf(chosen);
    EmptySort();
  }

  lemma EmptySort()
    ensures SortBy(ByNames, []) == []
  {
  }

  /** Every greedy result passes the check. */
  lemma GreedyPassesCheck(f: Floor, robots: seq<RobotView>, tasks: seq<TaskView>, r: AllocationResult)
    requires DistinctBy(ROBOT_ID, robots) && DistinctBy(TASK_ID, tasks)
    requires MadeFrom(f, robots, tasks, GreedyChoice(f, robots, tasks), true, r)
    ensures AllocationOk(f, robots, tasks, r)
  {
    hide MadeFrom, AllocationOk, DistinctRobotsAndTasks, GreedyChoice, DistinctBy, Candidates, EligibleRobots,
         PendingTasks;
    GreedyChoiceIsFresh(f, robots, tasks);
    MatchingPassesCheck(f, robots, tasks, GreedyChoice(f, robots, tasks), true, r);
  }

  /** Every matching the solver may return passes the check. */
  lemma SolverResultPassesCheck(f: Floor, robots: seq<RobotView>, tasks: seq<TaskView>, a: Selection,
          r: AllocationResult)
    requires DistinctBy(ROBOT_ID, robots) && DistinctBy(TASK_ID, tasks)
    requires IsMatching(Candidates(f, EligibleRobots(robots), PendingTasks(tasks)), a)
    requires MadeFrom(f, robots, tasks, Selected(Candidates(f, EligibleRobots(robots), PendingTasks(tasks)), a), true,
             r)
    ensures AllocationOk(f, robots, tasks, r)
  {
    hide MadeFrom, AllocationOk, DistinctRobotsAndTasks, DistinctBy, Candidates, EligibleRobots, PendingTasks,
         IsMatching, Selected;
    var pairs := Candidates(f, EligibleRobots(robots), PendingTasks(tasks));
    SelectedIsMatching(pairs, a, |pairs|);
    assert pairs[..|pairs|] == pairs;
    forall p | p in Selected(pairs, a)
      ensures p in pairs
    {
      SelectedExact(pairs, a, p);
    }
    MatchingPassesCheck(f, robots, tasks, Selected(pairs, a), true, r);
  }
}
