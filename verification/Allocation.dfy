/** Choosing who does what: the greedy baseline and the optimiser. */
module Allocation {
  import opened Floors
  import opened Simulation
  import opened Weights
  import opened Names
  import opened Sorting
  import opened Feasibility

  // ---------- Results ----------

  datatype AllocationResult = AllocationResult(success: bool, assignments: seq<Pair>, unassigned: seq<string>,
          totalCost: nat, eligiblePairs: nat, infeasiblePairs: nat)

  function TotalCost(chosen: seq<Pair>): nat {
    if chosen == [] then 0 else TotalCost(chosen[..|chosen| - 1]) + chosen[|chosen| - 1].Total()
  }

  function TasksOf(chosen: seq<Pair>): set<string> {
    set p | p in chosen :: p.task
  }

  function RobotsOf(chosen: seq<Pair>): set<string> {
    set p | p in chosen :: p.robot
  }

  /** The names of `ids` outside `taken`, in order. */
  function Outside(ids: seq<string>, taken: set<string>): (r: seq<string>)
    ensures forall x :: x in r <==> x in ids && x !in taken
  {
    if ids == [] then []
    else Outside(ids[..|ids| - 1], taken) + if ids[|ids| - 1] in taken then [] else [ids[|ids| - 1]]
  }

  predicate ByNames(a: Pair, b: Pair) {
    Before(a.robot, b.robot) || (a.robot == b.robot && Before(a.task, b.task))
  }

  /** Totals and leftovers are derived from the chosen pairs. */
  function BuildResult(success: bool, chosen: seq<Pair>, taskIds: seq<string>, eligible: nat,
          infeasible: nat): AllocationResult
  {
    AllocationResult(success, SortBy(ByNames, chosen), Outside(taskIds, TasksOf(chosen)), TotalCost(chosen), eligible,
        infeasible)
  }

  function Ids(tasks: seq<TaskView>): seq<string> {
    seq(|tasks|, i requires 0 <= i < |tasks| => tasks[i].id)
  }

  // ---------- The greedy choice ----------

  predicate ByCost(a: Pair, b: Pair) {
    a.Total() < b.Total() || (a.Total() == b.Total() && Before(a.robot, b.robot))
  }

  function ForTask(pairs: seq<Pair>, task: string): (r: seq<Pair>)
    ensures forall p :: p in r <==> p in pairs && p.task == task
  {
    if pairs == [] then []
    else
      var n := |pairs| - 1;
      assert pairs == pairs[..n] + [pairs[n]];
      ForTask(pairs[..n], task) + if pairs[n].task == task then [pairs[n]] else []
  }

  function FirstFree(list: seq<Pair>, used: set<string>): Option<Pair> {
    if list == [] then None
    else if list[0].robot !in used then Some(list[0])
    else FirstFree(list[1..], used)
  }

  function Pick(pairs: seq<Pair>, task: string, used: set<string>): Option<Pair> {
    FirstFree(SortBy(ByCost, ForTask(pairs, task)), used)
  }

  /** Task after task, in order: the first free robot on the task's sorted list. */
  function Greedy(pairs: seq<Pair>, order: seq<string>): seq<Pair> {
    if order == [] then []
    else
      var n := |order| - 1;
      var chosen := Greedy(pairs, order[..n]);
      var pick := Pick(pairs, order[n], RobotsOf(chosen));
      if pick.Some? then chosen + [pick.value] else chosen
  }

  lemma ByCostIsOrder()
    ensures KeyOrder(ByCost)
  {
    forall a: Pair, b: Pair
      ensures ByCost(a, b) ==> !ByCost(b, a)
    {
      BeforeIsStrict(a.robot, b.robot);
    }
    forall a: Pair, b: Pair, c: Pair | !ByCost(b, a) && !ByCost(c, b)
      ensures !ByCost(c, a)
    {
      BeforeIsStrict(a.robot, b.robot);
      BeforeIsStrict(b.robot, c.robot);
      BeforeIsStrict(a.robot, c.robot);
      if Before(a.robot, b.robot) && Before(b.robot, c.robot) {
        BeforeIsTransitive(a.robot, b.robot, c.robot);
      }
    }
  }

  lemma {:induction false} FirstFreeExact(list: seq<Pair>, used: set<string>)
    ensures var p := FirstFree(list, used);
            && (p.None? <==> forall q | q in list :: q.robot in used)
            && (p.Some? ==> p.value in list && p.value.robot !in used)
            && (p.Some? && Ascending(ByCost, list) ==> forall q | q in list && q.robot !in used :: !ByCost(q, p.value))
  {
    if list != [] && list[0].robot in used {
      FirstFreeExact(list[1..], used);
      assert list == [list[0]] + list[1..];
    } else if list != [] {
      ByCostIsOrder();
    }
  }

  /** A task gets a robot exactly when a robot that may take it is still free,
      and then no free robot is cheaper, or as cheap with an earlier name. */
  lemma PickIsCheapestFree(pairs: seq<Pair>, task: string, used: set<string>)
    ensures var p := Pick(pairs, task, used);
            && (p.None? <==> forall q | q in pairs && q.task == task :: q.robot in used)
            && (p.Some? ==>
                  && p.value in pairs && p.value.task == task && p.value.robot !in used
                  && forall q | q in pairs && q.task == task && q.robot !in used :: !ByCost(q, p.value))
  {
    hide ByCost, FirstFree, SortBy;
    var list := ForTask(pairs, task);
    ByCostIsOrder();
    SortAscends(ByCost, list);
    SortKeeps(ByCost, list);
    FirstFreeExact(SortBy(ByCost, list), used);
  }

  ghost predicate DistinctRobotsAndTasks(chosen: seq<Pair>) {
    forall i, j | 0 <= i < j < |chosen| :: chosen[i].robot != chosen[j].robot && chosen[i].task != chosen[j].task
  }

  /** Nobody is used twice, every task is tried once, and a task that was tried
      in vain had no free robot left. */
  lemma {:induction false} GreedyIsMaximalMatching(pairs: seq<Pair>, order: seq<string>)
    requires Distinct(order)
    ensures var g := Greedy(pairs, order);
            && DistinctRobotsAndTasks(g)
            && (forall p | p in g :: p in pairs && p.task in order)
            && (forall q | q in pairs && q.task in order :: q.robot in RobotsOf(g) || q.task in TasksOf(g))
  {
    hide Pick;
    if order != [] {
      var n := |order| - 1;
      var before := Greedy(pairs, order[..n]);
      GreedyIsMaximalMatching(pairs, order[..n]);
      PickIsCheapestFree(pairs, order[n], RobotsOf(before));
      assert order == order[..n] + [order[n]] && order[n] !in order[..n];
      var pick := Pick(pairs, order[n], RobotsOf(before));
      if pick.Some? {
        JoinsMatching(before, pick.value);
      }
    }
  }

  /** The robots that the tasks of `earlier` got. */
  ghost function TakenFor(chosen: seq<Pair>, earlier: seq<string>): set<string> {
    set p | p in chosen && p.task in earlier :: p.robot
  }

  /** Task by task, in order: a task gets a robot exactly when one that may take it was
      left by the tasks before it, and then one of the cheapest of those that were, the
      one with the first name among equals. */
  lemma {:induction false} EachTaskTakesTheCheapestLeft(pairs: seq<Pair>, order: seq<string>, k: nat)
    requires Distinct(order) && k < |order|
    ensures var g := Greedy(pairs, order);
            var taken := TakenFor(g, order[..k]);
            && (order[k] in TasksOf(g) <==> exists q :: q in pairs && q.task == order[k] && q.robot !in taken)
            && forall p | p in g && p.task == order[k] ::
                 && p in pairs && p.robot !in taken
                 && forall q | q in pairs && q.task == order[k] && q.robot !in taken ::
                      p.Total() < q.Total() || (p.Total() == q.Total() && !Before(q.robot, p.robot))
    decreases |order|
  {
    hide Pick, TasksOf, TakenFor;
    var n := |order| - 1;
    var before, g := Greedy(pairs, order[..n]), Greedy(pairs, order);
    var pick := Pick(pairs, order[n], RobotsOf(before));
    GreedyIsMaximalMatching(pairs, order[..n]);
    PickIsCheapestFree(pairs, order[n], RobotsOf(before));
    assert order == order[..n] + [order[n]] && order[n] !in order[..n];
    assert order[..n][..k] == order[..k];
    assert order[n] !in order[..k];
    OneMoreTaken(before, pick, order, k);
    if k < n {
      EachTaskTakesTheCheapestLeft(pairs, order[..n], k);
      assert order[..n][k] == order[k] && order[k] != order[n];
    }
  }

  lemma OneMoreTaken(before: seq<Pair>, pick: Option<Pair>, order: seq<string>, k: nat)
    requires Distinct(order) && k < |order| && forall p | p in before :: p.task in order[..|order| - 1]
    requires pick.Some? ==> pick.value.task == order[|order| - 1]
    ensures var n, g := |order| - 1, if pick.Some? then before + [pick.value] else before;
            && TakenFor(g, order[..k]) == TakenFor(before, order[..k])
            && TakenFor(before, order[..n]) == RobotsOf(before)
            && (k < n ==> (order[k] in TasksOf(g) <==> order[k] in TasksOf(before)))
            && (k == n ==> (order[k] in TasksOf(g) <==> pick.Some?))
            && (k == n ==> forall p | p in before :: p.task != order[k])
  {
    var n, g := |order| - 1, if pick.Some? then before + [pick.value] else before;
    assert order == order[..n] + [order[n]] && order[n] !in order[..n] && order[n] !in order[..k];
    if pick.Some? {
      assert pick.value in g;
    }
    forall p | p in g && p.task in order[..k]
      ensures p in before
    {
    }
  }

  lemma JoinsMatching(chosen: seq<Pair>, p: Pair)
    requires DistinctRobotsAndTasks(chosen) && p.robot !in RobotsOf(chosen) && forall q | q in chosen ::
             q.task != p.task
    ensures DistinctRobotsAndTasks(chosen + [p])
    ensures RobotsOf(chosen + [p]) == RobotsOf(chosen) + {p.robot}
             && TasksOf(chosen + [p]) == TasksOf(chosen) + {p.task}
  {
    assert forall q | q in chosen :: q.robot in RobotsOf(chosen);
  }

  // ---------- Greedy against every matching ----------

  ghost function Where(pairs: seq<Pair>, chosen: seq<Pair>): Selection {
    set i: nat | i < |pairs| && pairs[i] in chosen
  }

  /** The greedy choice, as indices into the list of candidates. */
  lemma GreedySelection(pairs: seq<Pair>, order: seq<string>)
    requires Distinct(order) && DistinctKeys(pairs) && forall p | p in pairs :: p.task in order
    ensures IsMaximal(pairs, Where(pairs, Greedy(pairs, order)))
  {
    hide Greedy, DistinctRobotsAndTasks;
    var g := Greedy(pairs, order);
    var w := Where(pairs, g);
    GreedyIsMaximalMatching(pairs, order);
    WhereIsMatching(pairs, g);
    forall i | 0 <= i < |pairs|
      ensures SharesRobot(pairs, w, i) || SharesTask(pairs, w, i)
    {
      assert pairs[i] in pairs;
      var p :| p in g && (p.robot == pairs[i].robot || p.task == pairs[i].task);
      assert p in pairs;
      var j: nat :| j < |pairs| && pairs[j] == p;
      assert j in w;
    }
  }

  lemma WhereIsMatching(pairs: seq<Pair>, chosen: seq<Pair>)
    requires DistinctKeys(pairs) && DistinctRobotsAndTasks(chosen)
    ensures IsMatching(pairs, Where(pairs, chosen))
  {
    forall i, j | i in Where(pairs, chosen) && j in Where(pairs, chosen) && i != j
      ensures pairs[i].robot != pairs[j].robot && pairs[i].task != pairs[j].task
    {
      assert pairs[i] != pairs[j] by {
        if i < j {} else {}
      }
      var a :| 0 <= a < |chosen| && chosen[a] == pairs[i];
      var b :| 0 <= b < |chosen| && chosen[b] == pairs[j];
      if a < b {} else {}
    }
  }

  lemma {:induction false} CostAddsUp(pairs: seq<Pair>, a: Selection, x: nat, k: nat)
    requires k <= |pairs| && x !in a && x < |pairs|
    ensures Cost(pairs, a + {x}, k) == Cost(pairs, a, k) + if x < k then pairs[x].Total() else 0
    ensures Count(a + {x}, k) == Count(a, k) + if x < k then 1 else 0
    decreases k
  {
    if k > 0 {
      CostAddsUp(pairs, a, x, k - 1);
    }
  }

  lemma {:induction false} EmptySelection(pairs: seq<Pair>, k: nat)
    requires k <= |pairs|
    ensures Cost(pairs, {}, k) == 0 && Count({}, k) == 0
    decreases k
  {
    if k > 0 {
      EmptySelection(pairs, k - 1);
    }
  }

  /** Counting and pricing a choice as indices or as pairs is the same. */
  lemma {:induction false} WhereMeasures(pairs: seq<Pair>, chosen: seq<Pair>)
    requires DistinctKeys(pairs) && DistinctRobotsAndTasks(chosen) && forall p | p in chosen :: p in pairs
    ensures Cost(pairs, Where(pairs, chosen), |pairs|) == TotalCost(chosen)
    ensures Count(Where(pairs, chosen), |pairs|) == |chosen| == |Where(pairs, chosen)|
  {
    if chosen == [] {
      assert Where(pairs, chosen) == {};
      EmptySelection(pairs, |pairs|);
    } else {
      var n := |chosen| - 1;
      assert chosen == chosen[..n] + [chosen[n]];
      WhereMeasures(pairs, chosen[..n]);
      assert chosen[n] in pairs;
      var x: nat :| x < |pairs| && pairs[x] == chosen[n];
      WhereGrows(pairs, chosen, x);
      CostAddsUp(pairs, Where(pairs, chosen[..n]), x, |pairs|);
    }
  }

  lemma WhereGrows(pairs: seq<Pair>, chosen: seq<Pair>, x: nat)
    requires DistinctKeys(pairs) && DistinctRobotsAndTasks(chosen) && chosen != []
    requires x < |pairs| && pairs[x] == chosen[|chosen| - 1]
    ensures var before := Where(pairs, chosen[..|chosen| - 1]);
            x !in before && Where(pairs, chosen) == before + {x}
  {
    var n := |chosen| - 1;
    assert chosen == chosen[..n] + [chosen[n]];
    forall i: nat | i < |pairs| && pairs[i] == chosen[n]
      ensures i == x
    {
      if i < x {} else {}
    }
    assert chosen[n] !in chosen[..n];
  }

  /** Whatever matching of the candidates is taken, the greedy choice is at least
      half as large. */
  lemma GreedyIsAtLeastHalf(pairs: seq<Pair>, order: seq<string>, m: Selection)
    requires Distinct(order) && DistinctKeys(pairs) && forall p | p in pairs :: p.task in order
    requires IsMatching(pairs, m)
    ensures |m| <= 2 * |Greedy(pairs, order)|
  {
    hide Greedy, IsMatching, IsMaximal, DistinctKeys;
    GreedySelection(pairs, order);
    GreedyIsMaximalMatching(pairs, order);
    WhereMeasures(pairs, Greedy(pairs, order));
    MaximalIsHalfOfAny(pairs, Where(pairs, Greedy(pairs, order)), m);
  }

  /** An optimal solution never assigns fewer tasks than greedy, and if it assigns
      as many it is no dearer. */
  lemma OptimalBeatsGreedy(pairs: seq<Pair>, order: seq<string>, a: Selection)
    requires Distinct(order) && DistinctKeys(pairs) && forall p | p in pairs :: p.task in order
    requires SolverOptimal(pairs, a)
    ensures |a| >= |Greedy(pairs, order)|
    ensures |a| == |Greedy(pairs, order)| ==> Cost(pairs, a, |pairs|) <= TotalCost(Greedy(pairs, order))
  {
    hide Greedy, DistinctKeys, Where, Cost, Count;
    var w := Where(pairs, Greedy(pairs, order));
    GreedySelection(pairs, order);
    GreedyIsMaximalMatching(pairs, order);
    WhereMeasures(pairs, Greedy(pairs, order));
    OptimalIsLexicographicallyBest(pairs, a, w);
    CountIsSize(a, |pairs|);
  }

  // ---------- The greedy allocator ----------

  type ByTask = map<string, seq<Pair>>

  /** Each task's pairs, in list order; a task without pairs has no entry. */
  ghost predicate IsIndex(byTask: ByTask, pairs: seq<Pair>) {
    && (forall t | t in byTask :: byTask[t] == ForTask(pairs, t))
    && (forall t: string | t !in byTask :: ForTask(pairs, t) == [])
  }

  lemma IndexGrows(byTask: ByTask, pairs: seq<Pair>, k: nat)
    requires k < |pairs| && IsIndex(byTask, pairs[..k])
    ensures var p := pairs[k];
            IsIndex(byTask[p.task := (if p.task in byTask then byTask[p.task] else []) + [p]], pairs[..k + 1])
  {
    assert pairs[..k + 1][..k] == pairs[..k];
  }

  method IndexByTask(pairs: seq<Pair>) returns (byTask: ByTask)
    ensures forall t | t in byTask :: byTask[t] == SortBy(ByCost, ForTask(pairs, t))
    ensures forall t | t !in byTask :: ForTask(pairs, t) == []
  {
    hide ForTask, SortBy, IsIndex;
    byTask := map[];
    assert IsIndex(byTask, pairs[..0]) by {
      EmptyIndex();
    }
    for k := 0 to |pairs|
      invariant IsIndex(byTask, pairs[..k])
    {
      var p := pairs[k];
      IndexGrows(byTask, pairs, k);
      byTask := byTask[p.task := (if p.task in byTask then byTask[p.task] else []) + [p]];
    }
    assert pairs[..|pairs|] == pairs;
    IndexRead(byTask, pairs);
    byTask := map t | t in byTask :: SortBy(ByCost, byTask[t]);
  }

  lemma EmptyIndex()
    ensures IsIndex(map[], [])
  {
  }

  lemma IndexRead(byTask: ByTask, pairs: seq<Pair>)
    requires IsIndex(byTask, pairs)
    ensures forall t | t in byTask :: byTask[t] == ForTask(pairs, t)
    ensures forall t: string | t !in byTask :: ForTask(pairs, t) == []
  {
  }

  method FirstUnused(list: seq<Pair>, used: set<string>) returns (p: Option<Pair>)
    ensures p == FirstFree(list, used)
  {
    assert list[0..] == list;
    for k := 0 to |list|
      invariant FirstFree(list, used) == FirstFree(list[k..], used)
    {
      assert list[k..][1..] == list[k + 1..];
      if list[k].robot in used {
        continue;
      }
      return Some(list[k]);
    }
    return None;
  }

  lemma NextPick(pairs: seq<Pair>, order: seq<string>, k: nat)
    requires k < |order|
    ensures var before := Greedy(pairs, order[..k]);
            var pick := Pick(pairs, order[k], RobotsOf(before));
            Greedy(pairs, order[..k + 1]) == if pick.Some? then before + [pick.value] else before
    ensures ForTask(pairs, order[k]) == [] ==> Pick(pairs, order[k], RobotsOf(Greedy(pairs, order[..k]))).None?
  {
    assert order[..k + 1][..k] == order[..k];
  }

  method ChooseGreedily(pairs: seq<Pair>, order: seq<string>) returns (chosen: seq<Pair>)
    ensures chosen == Greedy(pairs, order)
  {
    hide Greedy, FirstFree, SortBy, ForTask;
    var byTask := IndexByTask(pairs);
    var usedRobots: set<string> := {};
    chosen := [];
    NothingChosen(pairs);
    for k := 0 to |order|
      invariant chosen == Greedy(pairs, order[..k]) && usedRobots == RobotsOf(chosen)
    {
      NextPick(pairs, order, k);
      if order[k] in byTask {
        var pick := FirstUnused(byTask[order[k]], usedRobots);
        if pick.Some? {
          usedRobots := usedRobots + {pick.value.robot};
          chosen := chosen + [pick.value];
        }
      }
    }
    assert order[..|order|] == order;
  }

  lemma NothingChosen(pairs: seq<Pair>)
    ensures Greedy(pairs, []) == []
  {
  }

  /** What an allocation was made from. */
  ghost predicate MadeFrom(f: Floor, robots: seq<RobotView>, tasks: seq<TaskView>, chosen: seq<Pair>, success: bool,
          r: AllocationResult)
  {
    var pairs, order := Candidates(f, EligibleRobots(robots), PendingTasks(tasks)), Ids(PendingTasks(tasks));
    && r == BuildResult(success, chosen, order, |pairs|, r.infeasiblePairs)
    && r.success == success && r.eligiblePairs == |pairs| && r.totalCost == TotalCost(chosen)
    && multiset(r.assignments) == multiset(chosen)
    && r.eligiblePairs + r.infeasiblePairs == |EligibleRobots(robots)| * |PendingTasks(tasks)|
  }

  ghost function GreedyChoice(f: Floor, robots: seq<RobotView>, tasks: seq<TaskView>): seq<Pair> {
    Greedy(Candidates(f, EligibleRobots(robots), PendingTasks(tasks)), Ids(PendingTasks(tasks)))
  }

  /** The robot is free, not taken yet, and can do the task for so many moves. */
  ghost predicate IsLeft(f: Floor, robots: seq<RobotView>, taken: set<string>, t: TaskView, p: Pair) {
    p.robot !in taken && exists r :: r in robots && r.status == Idle && r.assignedTask.None? && CanDo(f, p, r, t)
  }

  lemma LeftIsCandidate(f: Floor, robots: seq<RobotView>, tasks: seq<TaskView>, i: nat, taken: set<string>, p: Pair)
    requires DistinctBy(TASK_ID, PendingTasks(tasks)) && i < |PendingTasks(tasks)|
    ensures var t := PendingTasks(tasks)[i];
            IsLeft(f, robots, taken, t, p) <==>
              && p in Candidates(f, EligibleRobots(robots), PendingTasks(tasks))
              && p.task == t.id && p.robot !in taken
  {
    hide CanDo, Candidates, EligibleRobots, PendingTasks;
    var rs, ts := EligibleRobots(robots), PendingTasks(tasks);
    CandidatesCanDo(f, rs, ts, p);
    EligibleExact(robots);
    if IsLeft(f, robots, taken, ts[i], p) {
      var r :| r in robots && r.status == Idle && r.assignedTask.None? && CanDo(f, p, r, ts[i]);
      NamedAfter(f, p, r, ts[i]);
      assert r in rs && ts[i] in ts && CanDo(f, p, r, ts[i]);
    }
    if p in Candidates(f, rs, ts) && p.task == ts[i].id {
      var r, t :| r in rs && t in ts && CanDo(f, p, r, t);
      NamedAfter(f, p, r, t);
      var j :| 0 <= j < |ts| && ts[j] == t;
      assert TASK_ID(ts[j]) == TASK_ID(ts[i]);
    }
  }

  lemma NamedAfter(f: Floor, p: Pair, r: RobotView, t: TaskView)
    requires CanDo(f, p, r, t)
    ensures p.robot == r.id && p.task == t.id
  {
  }

  /** The greedy allocator serves the pending tasks by urgency: each gets a robot
      exactly when one that can do it was left by the more urgent ones, and then one
      of the cheapest of those, the one with the first name among equals. */
  lemma UrgentTasksFirst(f: Floor, robots: seq<RobotView>, tasks: seq<TaskView>, i: nat)
    requires DistinctBy(ROBOT_ID, robots) && DistinctBy(TASK_ID, tasks) && i < |PendingTasks(tasks)|
    ensures var t, chosen := PendingTasks(tasks)[i], GreedyChoice(f, robots, tasks);
            var taken := TakenFor(chosen, Ids(PendingTasks(tasks)[..i]));
            && (t.id in TasksOf(chosen) <==> exists p :: IsLeft(f, robots, taken, t, p))
            && forall p | p in chosen && p.task == t.id ::
                 && IsLeft(f, robots, taken, t, p)
                 && forall q | IsLeft(f, robots, taken, t, q) ::
                      p.toPickup + p.toDropoff < q.toPickup + q.toDropoff
                      || (p.toPickup + p.toDropoff == q.toPickup + q.toDropoff && !Before(q.robot, p.robot))
  {
    hide Candidates, EligibleRobots, PendingTasks, IsLeft, Greedy, TakenFor, TasksOf;
    StillDistinct(robots, tasks);
    var ts := PendingTasks(tasks);
    var order := Ids(ts);
    assert Distinct(order) by {
      assert forall j, k | 0 <= j < k < |ts| :: TASK_ID(ts[j]) != TASK_ID(ts[k]);
    }
    assert order[..i] == Ids(ts[..i]);
    var pairs := Candidates(f, EligibleRobots(robots), ts);
    EachTaskTakesTheCheapestLeft(pairs, order, i);
    var taken := TakenFor(Greedy(pairs, order), order[..i]);
    forall p
      ensures IsLeft(f, robots, taken, ts[i], p) <==> p in pairs && p.task == order[i] && p.robot !in taken
    {
      LeftIsCandidate(f, robots, tasks, i, taken, p);
    }
  }

  class GreedyAllocator {
    const estimator: CostEstimator

    constructor (estimator: CostEstimator)
      ensures this.estimator == estimator
    {
      this.estimator := estimator;
    }

    /** Proposes assignments and changes neither robots nor tasks. It raises exactly
        when some pairing cannot be priced. */
    method Allocate(robots: seq<RobotView>, tasks: seq<TaskView>) returns (r: AllocationResult, raised: bool)
      requires estimator.Valid()
      modifies estimator`cache, estimator`plannerCalls
      ensures estimator.Valid()
      ensures raised <==> SomeUnpriceable(estimator.warehouse.FloorPlan(), EligibleRobots(robots), PendingTasks(tasks))
      ensures var f := estimator.warehouse.FloorPlan();
              !raised ==> r.success && MadeFrom(f, robots, tasks, GreedyChoice(f, robots, tasks), true, r)
    {
      hide CostEstimator.Valid, Candidates, EligibleRobots, PendingTasks, Greedy, SortBy, TotalCost, Outside, TasksOf,
           SomeUnpriceable;
      var feasible, infeasible;
      feasible, infeasible, raised := BuildCandidatePairs(robots, tasks, estimator);
      if raised {
        return BuildResult(false, [], [], 0, 0), true;
      }
      var candidateTaskIds := Ids(PendingTasks(tasks));
      var chosen := ChooseGreedily(feasible, candidateTaskIds);
      r := BuildResult(true, chosen, candidateTaskIds, |feasible|, infeasible);
    }
  }

  // ---------- The optimiser's model ----------

  /** Zero-one variables, numbered like the candidate pairs; groups of which at
      most one may be chosen; and the coefficients of the sum to maximise. */
  datatype CpModel = CpModel(taskGroups: map<string, set<nat>>, robotGroups: map<string, set<nat>>,
          coefficients: seq<int>)

  ghost predicate AtMostOne(group: set<nat>, a: Selection) {
    forall i, j | i in group && j in group && i in a && j in a :: i == j
  }

  ghost predicate Admits(m: CpModel, a: Selection) {
    && (forall i | i in a :: i < |m.coefficients|)
    && (forall t | t in m.taskGroups :: AtMostOne(m.taskGroups[t], a))
    && (forall r | r in m.robotGroups :: AtMostOne(m.robotGroups[r], a))
  }

  function Value(coefficients: seq<int>, a: Selection): int {
    if coefficients == [] then 0
    else
      var n := |coefficients| - 1;
      Value(coefficients[..n], a) + if n in a then coefficients[n] else 0
  }

  ghost predicate Maximises(m: CpModel, a: Selection) {
    Admits(m, a) && forall b | Admits(m, b) :: Value(m.coefficients, b) <= Value(m.coefficients, a)
  }

  datatype Solution = Optimal(chosen: Selection) | BestSoFar(chosen: Selection) | NoSolution

  /** The solver is trusted to say the truth: a solution satisfies the model, and
      one it calls optimal maximises it. */
  ghost predicate Truthful(solve: CpModel -> Solution) {
    forall m :: && (solve(m).Optimal? ==> Maximises(m, solve(m).chosen))
                && (solve(m).BestSoFar? ==> Admits(m, solve(m).chosen))
  }

  type Solver = solve: CpModel -> Solution | Truthful(solve) witness (m => NoSolution)

  ghost predicate GroupsByName(groups: map<string, set<nat>>, pairs: seq<Pair>, name: Pair -> string) {
    && (forall i: nat | i < |pairs| :: name(pairs[i]) in groups && i in groups[name(pairs[i])])
    && (forall n | n in groups :: forall i | i in groups[n] :: i < |pairs| && name(pairs[i]) == n)
  }

  const TASK_NAME: Pair -> string := (p: Pair) => p.task

  const ROBOT_NAME: Pair -> string := (p: Pair) => p.robot

  ghost predicate IsModelOf(m: CpModel, pairs: seq<Pair>) {
    && |m.coefficients| == |pairs|
    && (forall i: nat | i < |pairs| :: m.coefficients[i] == Reward(pairs) - EffectiveCost(pairs, i))
    && GroupsByName(m.taskGroups, pairs, TASK_NAME) && GroupsByName(m.robotGroups, pairs, ROBOT_NAME)
  }

  lemma GroupsSeparate(groups: map<string, set<nat>>, pairs: seq<Pair>, name: Pair -> string, a: Selection)
    requires GroupsByName(groups, pairs, name) && forall i | i in a :: i < |pairs|
    ensures (forall n | n in groups :: AtMostOne(groups[n], a))
       <==> (forall i, j | i in a && j in a && i != j :: name(pairs[i]) != name(pairs[j]))
  {
    if forall n | n in groups :: AtMostOne(groups[n], a) {
      forall i, j | i in a && j in a && i != j
        ensures name(pairs[i]) != name(pairs[j])
      {
        assert AtMostOne(groups[name(pairs[i])], a);
      }
    }
  }

  /** The constraints admit exactly the matchings. */
  lemma ModelAdmitsMatchings(m: CpModel, pairs: seq<Pair>, a: Selection)
    requires IsModelOf(m, pairs)
    ensures Admits(m, a) <==> IsMatching(pairs, a)
  {
    if forall i | i in a :: i < |pairs| {
      GroupsSeparate(m.taskGroups, pairs, TASK_NAME, a);
      GroupsSeparate(m.robotGroups, pairs, ROBOT_NAME, a);
    }
  }

  lemma {:induction false} ValueIsObjective(coefficients: seq<int>, pairs: seq<Pair>, a: Selection, k: nat)
    requires k == |coefficients| <= |pairs|
    requires forall i: nat | i < k :: coefficients[i] == Reward(pairs) - EffectiveCost(pairs, i)
    ensures Value(coefficients, a) == Objective(pairs, a, k)
  {
    hide Reward, EffectiveCost;
    if k > 0 {
      ValueIsObjective(coefficients[..k - 1], pairs, a, k - 1);
    }
  }

  /** Maximising the model is maximising the objective over all matchings. */
  lemma ModelMeansOptimal(m: CpModel, pairs: seq<Pair>, a: Selection)
    requires IsModelOf(m, pairs)
    ensures Maximises(m, a) <==> SolverOptimal(pairs, a)
  {
    hide IsModelOf, IsMatching, Objective, Value, Admits;
    assert |m.coefficients| == |pairs| by {
      ModelValue(m, pairs, a);
    }
    forall b: Selection
      ensures Admits(m, b) <==> IsMatching(pairs, b)
      ensures Value(m.coefficients, b) == Objective(pairs, b, |pairs|)
    {
      ModelAdmitsMatchings(m, pairs, b);
      ModelValue(m, pairs, b);
    }
  }

  lemma ModelValue(m: CpModel, pairs: seq<Pair>, a: Selection)
    requires IsModelOf(m, pairs)
    ensures |m.coefficients| == |pairs| && Value(m.coefficients, a) == Objective(pairs, a, |pairs|)
  {
    hide GroupsByName, Reward, EffectiveCost;
    ValueIsObjective(m.coefficients, pairs, a, |pairs|);
  }

  /** The chosen pairs, in list order. */
  function Selected(pairs: seq<Pair>, a: Selection): seq<Pair> {
    if pairs == [] then []
    else
      var n := |pairs| - 1;
      Selected(pairs[..n], a) + if n in a then [pairs[n]] else []
  }

  lemma {:induction false} SelectedExact(pairs: seq<Pair>, a: Selection, p: Pair)
    ensures p in Selected(pairs, a) <==> exists i: nat :: i < |pairs| && i in a && pairs[i] == p
  {
    if pairs != [] {
      var n := |pairs| - 1;
      SelectedExact(pairs[..n], a, p);
      assert forall i: nat | i < n :: pairs[..n][i] == pairs[i];
      if n in a && pairs[n] == p {
        assert p in [pairs[n]];
      }
    }
  }

  /** A matching selects every robot and every task at most once, and the result
      has the size and the cost of the selection. */
  lemma {:induction false} SelectedIsMatching(pairs: seq<Pair>, a: Selection, k: nat)
    requires k <= |pairs| && IsMatching(pairs, a)
    ensures DistinctRobotsAndTasks(Selected(pairs[..k], a))
    ensures |Selected(pairs[..k], a)| == Count(a, k) && TotalCost(Selected(pairs[..k], a)) == Cost(pairs, a, k)
  {
    hide Selected, TotalCost, DistinctRobotsAndTasks, IsMatching;
    NothingSelected(pairs, a);
    if k > 0 {
      SelectedIsMatching(pairs, a, k - 1);
      SelectedStep(pairs, a, k - 1);
      if k - 1 in a {
        NextSelected(pairs, a, k - 1);
        TotalCostGrows(Selected(pairs[..k - 1], a), pairs[k - 1]);
      }
    }
  }

  lemma NothingSelected(pairs: seq<Pair>, a: Selection)
    ensures Selected(pairs[..0], a) == [] && TotalCost([]) == 0 && DistinctRobotsAndTasks([])
  {
  }

  lemma SelectedStep(pairs: seq<Pair>, a: Selection, k: nat)
    requires k < |pairs|
    ensures Selected(pairs[..k + 1], a) == if k in a then Selected(pairs[..k], a) + [pairs[k]]
             else Selected(pairs[..k], a)
  {
    assert pairs[..k + 1][..k] == pairs[..k];
  }

  lemma TotalCostGrows(chosen: seq<Pair>, p: Pair)
    ensures TotalCost(chosen + [p]) == TotalCost(chosen) + p.Total()
  {
    assert (chosen + [p])[..|chosen|] == chosen;
  }

  lemma NextSelected(pairs: seq<Pair>, a: Selection, k: nat)
    requires k < |pairs| && IsMatching(pairs, a) && k in a && DistinctRobotsAndTasks(Selected(pairs[..k], a))
    ensures DistinctRobotsAndTasks(Selected(pairs[..k], a) + [pairs[k]])
  {
    var before := Selected(pairs[..k], a);
    forall p | p in before
      ensures p.robot != pairs[k].robot && p.task != pairs[k].task
    {
      SelectedExact(pairs[..k], a, p);
    }
  }

  ghost predicate GroupsSoFar(groups: map<string, set<nat>>, pairs: seq<Pair>, name: Pair -> string, k: nat)
    requires k <= |pairs|
  {
    GroupsByName(groups, pairs[..k], name)
  }

  lemma GroupGrows(groups: map<string, set<nat>>, pairs: seq<Pair>, name: Pair -> string, k: nat)
    requires k < |pairs| && GroupsSoFar(groups, pairs, name, k)
    ensures var n := name(pairs[k]);
            GroupsSoFar(groups[n := (if n in groups then groups[n] else {}) + {k}], pairs, name, k + 1)
  {
    assert forall i: nat | i < k :: pairs[..k + 1][i] == pairs[..k][i];
  }

  lemma GroupsDone(groups: map<string, set<nat>>, pairs: seq<Pair>, name: Pair -> string)
    ensures |pairs| == 0 ==> GroupsSoFar(map[], pairs, name, 0)
    ensures GroupsSoFar(map[], pairs, name, 0)
    ensures GroupsSoFar(groups, pairs, name, |pairs|) ==> GroupsByName(groups, pairs, name)
  {
    assert pairs[..|pairs|] == pairs;
  }

  method GroupPairs(pairs: seq<Pair>) returns (byTask: map<string, set<nat>>, byRobot: map<string, set<nat>>)
    ensures GroupsByName(byTask, pairs, TASK_NAME) && GroupsByName(byRobot, pairs, ROBOT_NAME)
  {
    hide GroupsSoFar, GroupsByName;
    byTask, byRobot := map[], map[];
    GroupsDone(map[], pairs, TASK_NAME);
    GroupsDone(map[], pairs, ROBOT_NAME);
    for k := 0 to |pairs|
      invariant GroupsSoFar(byTask, pairs, TASK_NAME, k) && GroupsSoFar(byRobot, pairs, ROBOT_NAME, k)
    {
      var p := pairs[k];
      GroupGrows(byTask, pairs, TASK_NAME, k);
      GroupGrows(byRobot, pairs, ROBOT_NAME, k);
      byTask := byTask[p.task := (if p.task in byTask then byTask[p.task] else {}) + {k}];
      byRobot := byRobot[p.robot := (if p.robot in byRobot then byRobot[p.robot] else {}) + {k}];
    }
    GroupsDone(byTask, pairs, TASK_NAME);
    GroupsDone(byRobot, pairs, ROBOT_NAME);
  }

  /** Effective costs and their sum, which is what the reward is built from. */
  method PriceVariables(pairs: seq<Pair>) returns (effective: seq<nat>, total: nat)
    ensures |effective| == |pairs| && total == EffectiveTotal(pairs, |pairs|)
    ensures forall i: nat | i < |pairs| :: effective[i] == EffectiveCost(pairs, i)
  {
    hide EffectiveCost;
    var scale := |pairs| * |pairs| + 1;
    effective, total := [], 0;
    for k := 0 to |pairs|
      invariant |effective| == k && total == EffectiveTotal(pairs, k)
      invariant forall i: nat | i < k :: effective[i] == EffectiveCost(pairs, i)
    {
      EffectiveFormula(pairs, k);
      var cost := pairs[k].Total() * scale + k;
      effective, total := effective + [cost], total + cost;
    }
  }

  lemma EffectiveFormula(pairs: seq<Pair>, k: nat)
    requires k < |pairs|
    ensures EffectiveCost(pairs, k) == pairs[k].Total() * (|pairs| * |pairs| + 1) + k
  {
  }

  method BuildModel(pairs: seq<Pair>) returns (m: CpModel)
    ensures IsModelOf(m, pairs)
  {
    hide EffectiveCost, EffectiveTotal, GroupsByName;
    var effective, total := PriceVariables(pairs);
    var byTask, byRobot := GroupPairs(pairs);
    var reward: int := total + 1;
    var coefficients: seq<int> := [];
    for k := 0 to |pairs|
      invariant |coefficients| == k && forall i: nat | i < k ::
                coefficients[i] == Reward(pairs) - EffectiveCost(pairs, i)
    {
      coefficients := coefficients + [reward - effective[k]];
    }
    m := CpModel(byTask, byRobot, coefficients);
  }

  method ReadSolution(pairs: seq<Pair>, a: Selection) returns (chosen: seq<Pair>)
    ensures chosen == Selected(pairs, a)
  {
    chosen := [];
    for k := 0 to |pairs|
      invariant chosen == Selected(pairs[..k], a)
    {
      SelectedStep(pairs, a, k);
      if k in a {
        chosen := chosen + [pairs[k]];
      }
    }
    assert pairs[..|pairs|] == pairs;
  }

  class CpSatAllocator {
    const estimator: CostEstimator
    const solve: Solver

    constructor (estimator: CostEstimator, solve: Solver)
      ensures this.estimator == estimator && this.solve == solve
    {
      this.estimator, this.solve := estimator, solve;
    }

    /** A successful result is a matching of the candidates; when the solver
        proved it optimal, no matching has a greater objective. Success and
        optimality are the solver's own answer on the model of the candidates;
        without candidates there is nothing to ask it. */
    method Allocate(robots: seq<RobotView>, tasks: seq<TaskView>)
      returns (r: AllocationResult, optimal: bool, raised: bool, ghost a: Selection, ghost m: CpModel)
      requires estimator.Valid()
      modifies estimator`cache, estimator`plannerCalls
      ensures estimator.Valid()
      ensures raised <==> SomeUnpriceable(estimator.warehouse.FloorPlan(), EligibleRobots(robots), PendingTasks(tasks))
      ensures var f := estimator.warehouse.FloorPlan();
              var pairs := Candidates(f, EligibleRobots(robots), PendingTasks(tasks));
              !raised ==>
                && (r.success ==> IsMatching(pairs, a) && MadeFrom(f, robots, tasks, Selected(pairs, a), true, r))
                && (!r.success ==> MadeFrom(f, robots, tasks, [], false, r))
                && (optimal ==> r.success && SolverOptimal(pairs, a))
                && (if pairs == [] then r.success && optimal else AnswerOf(pairs, m, a, r.success, optimal))
    {
      hide CostEstimator.Valid, Candidates, EligibleRobots, PendingTasks, SortBy, TotalCost, Outside, TasksOf,
           IsMatching, Maximises, Admits, IsModelOf, SolverOptimal, SomeUnpriceable;
      var feasible, infeasible;
      feasible, infeasible, raised := BuildCandidatePairs(robots, tasks, estimator);
      var candidateTaskIds := Ids(PendingTasks(tasks));
      a, optimal, m := {}, false, CpModel(map[], map[], []);
      if raised {
        r := BuildResult(false, [], [], 0, 0);
        return;
      }
      if feasible == [] {
        NothingToAssign();
        r, optimal := BuildResult(true, [], candidateTaskIds, 0, infeasible), true;
        return;
      }
      var model := BuildModel(feasible);
      m := model;
      var solution := solve(model);
      if solution.NoSolution? {
        r := BuildResult(false, [], candidateTaskIds, |feasible|, infeasible);
        return;
      }
      SolutionMeans(solve, model, feasible);
      var chosen := ReadSolution(feasible, solution.chosen);
      r, optimal, a := BuildResult(true, chosen, candidateTaskIds, |feasible|, infeasible), solution.Optimal?,
          solution.chosen;
    }

    /** What came back is what the solver said about the model of these pairs. */
    ghost predicate AnswerOf(pairs: seq<Pair>, m: CpModel, a: Selection, success: bool, optimal: bool) {
      && IsModelOf(m, pairs)
      && (success <==> !solve(m).NoSolution?) && (optimal <==> solve(m).Optimal?)
      && (success ==> a == solve(m).chosen)
    }
  }

  lemma NothingToAssign()
    ensures SolverOptimal([], {}) && IsMatching([], {}) && Selected([], {}) == []
  {
    forall b: Selection | IsMatching([], b)
      ensures Objective([], b, 0) <= Objective([], {}, 0)
    {
    }
  }

  lemma SolutionMeans(solve: Solver, m: CpModel, pairs: seq<Pair>)
    requires IsModelOf(m, pairs) && !solve(m).NoSolution?
    ensures IsMatching(pairs, solve(m).chosen)
    ensures solve(m).Optimal? ==> SolverOptimal(pairs, solve(m).chosen)
  {
    hide IsModelOf, IsMatching, SolverOptimal, Admits;
    var a := solve(m).chosen;
    ModelAdmitsMatchings(m, pairs, a);
    ModelMeansOptimal(m, pairs, a);
  }
}
