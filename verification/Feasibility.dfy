/** Which robot may take which task, and what it would cost. */
module Feasibility {
  import opened Floors
  import opened SpatialPlanning
  import opened Simulation
  import opened Weights
  import opened Names
  import opened Sorting
  import Execution

  // ---------- Prices ----------

  /** The number of moves the planner reports between two cells. */
  ghost function GridCost(f: Floor, a: Position, b: Position): Floors.Outcome<Option<nat>, WarehouseError> {
    var r := Answer(f, a, b, MANHATTAN);
    if r.Raised? then Raised(r.error)
    else if r.value.Found? then
      AnswerIsShortest(f, a, b, MANHATTAN);
      Ok(Some(r.value.totalCost))
    else Ok(None)
  }

  /** Between cells of the floor it is the length of a shortest route, and there
      is none exactly when there is no route. */
  lemma GridCostIsDistance(f: Floor, a: Position, b: Position)
    requires f.InBounds(a) && f.InBounds(b)
    ensures GridCost(f, a, b).Ok?
    ensures GridCost(f, a, b).value.Some? <==> Connected(f, a, b)
    ensures GridCost(f, a, b).value.Some? ==>
             exists p :: IsShortest(f, p, a, b) && GridCost(f, a, b).value.value == |p| - 1
  {
    AnswerIsShortest(f, a, b, MANHATTAN);
    if Connected(f, a, b) {
      var p := Answer(f, a, b, MANHATTAN).value.path;
      assert IsShortest(f, p, a, b);
    }
  }

  /** Both legs of a job, priced one after the other. */
  datatype Legs = Legs(toPickup: nat, toDropoff: nat)

  ghost function Price(f: Floor, from: Position, pickup: Position,
          dropoff: Position): Floors.Outcome<Option<Legs>, WarehouseError>
  {
    var first := GridCost(f, from, pickup);
    if first.Raised? then Raised(first.error)
    else if first.value.None? then Ok(None)
    else
      var second := GridCost(f, pickup, dropoff);
      if second.Raised? then Raised(second.error)
      else if second.value.None? then Ok(None)
      else Ok(Some(Legs(first.value.value, second.value.value)))
  }

  /** A job has a price exactly when both of its legs can be walked, and each leg
      costs its distance. */
  lemma PriceIsDistances(f: Floor, from: Position, pickup: Position, dropoff: Position)
    ensures var price := Price(f, from, pickup, dropoff);
            && (price.Ok? && price.value.Some? <==> Connected(f, from, pickup) && Connected(f, pickup, dropoff))
            && (price.Ok? && price.value.Some? ==>
                  && IsDistance(f, from, pickup, price.value.value.toPickup)
                  && IsDistance(f, pickup, dropoff, price.value.value.toDropoff))
  {
    hide Connected, IsShortest, GridCost;
    EndsTraversable(f, from, pickup);
    EndsTraversable(f, pickup, dropoff);
    LegIsDistance(f, from, pickup);
    LegIsDistance(f, pickup, dropoff);
  }

  lemma LegIsDistance(f: Floor, a: Position, b: Position)
    ensures GridCost(f, a, b).Ok? <==> f.InBounds(a) && f.InBounds(b)
    ensures GridCost(f, a, b).Ok? ==> (GridCost(f, a, b).value.Some? <==> Connected(f, a, b))
    ensures GridCost(f, a, b).Ok? && GridCost(f, a, b).value.Some? ==>
              IsDistance(f, a, b, GridCost(f, a, b).value.value)
  {
    hide IsShortest, Connected;
    if f.InBounds(a) && f.InBounds(b) {
      GridCostIsDistance(f, a, b);
    }
  }

  class CostEstimator {
    const warehouse: Warehouse
    var cache: map<(Position, Position), Option<nat>>
    var plannerCalls: nat

    /** Every remembered cost is the true cost on the floor as it is. */
    ghost predicate Valid()
      reads this, warehouse
    {
      forall k | k in cache :: GridCost(warehouse.FloorPlan(), k.0, k.1) == Ok(cache[k])
    }

    constructor (warehouse: Warehouse)
      ensures Valid() && this.warehouse == warehouse && cache == map[] && plannerCalls == 0
    {
      this.warehouse, cache, plannerCalls := warehouse, map[], 0;
    }

    /** The planner runs only for a pair of cells not priced before. */
    method PathCost(start: Position, goal: Position) returns (r: Floors.Outcome<Option<nat>, WarehouseError>)
      requires Valid()
      modifies `cache, `plannerCalls
      ensures Valid() && r == GridCost(warehouse.FloorPlan(), start, goal)
      ensures plannerCalls == old(plannerCalls) + if (start, goal) in old(cache) then 0 else 1
      ensures cache == if r.Ok? then old(cache)[(start, goal) := r.value] else old(cache)
    {
      var key := (start, goal);
      if key !in cache {
        plannerCalls := plannerCalls + 1;
        var planned := AStar(start, goal, warehouse, MANHATTAN);
        if planned.Raised? {
          return Raised(planned.error);
        }
        if planned.value.Found? {
          AnswerIsShortest(warehouse.FloorPlan(), start, goal, MANHATTAN);
          cache := cache[key := Some(planned.value.totalCost)];
        } else {
          cache := cache[key := None];
        }
      }
      assert GridCost(warehouse.FloorPlan(), key.0, key.1) == Ok(cache[key]);
      return Ok(cache[key]);
    }

    method Estimate(robot: RobotView, task: TaskView) returns (r: Floors.Outcome<Option<Legs>, WarehouseError>)
      requires Valid()
      modifies `cache, `plannerCalls
      ensures Valid() && r == Price(warehouse.FloorPlan(), robot.position, task.pickup, task.dropoff)
      ensures r.Ok? && r.value.Some? <==>
                && Connected(warehouse.FloorPlan(), robot.position, task.pickup)
                && Connected(warehouse.FloorPlan(), task.pickup, task.dropoff)
      ensures r.Ok? && r.value.Some? ==>
                && IsDistance(warehouse.FloorPlan(), robot.position, task.pickup, r.value.value.toPickup)
                && IsDistance(warehouse.FloorPlan(), task.pickup, task.dropoff, r.value.value.toDropoff)
    {
      hide CostEstimator.Valid, GridCost, Connected, IsDistance, Warehouse.FloorPlan;
      PriceIsDistances(warehouse.FloorPlan(), robot.position, task.pickup, task.dropoff);
      var toPickup := PathCost(robot.position, task.pickup);
      if toPickup.Raised? {
        return Raised(toPickup.error);
      }
      if toPickup.value.None? {
        return Ok(None);
      }
      var toDropoff := PathCost(task.pickup, task.dropoff);
      if toDropoff.Raised? {
        return Raised(toDropoff.error);
      }
      if toDropoff.value.None? {
        return Ok(None);
      }
      return Ok(Some(Legs(toPickup.value.value, toDropoff.value.value)));
    }
  }

  // ---------- Which pairings are allowed ----------

  predicate ByRobotId(a: RobotView, b: RobotView) {
    Before(a.id, b.id)
  }

  /** Most urgent first, then by name. */
  predicate ByUrgency(a: TaskView, b: TaskView) {
    a.priority > b.priority || (a.priority == b.priority && Before(a.id, b.id))
  }

  function Available(robots: seq<RobotView>): (r: seq<RobotView>)
    ensures forall x :: x in r <==> x in robots && x.IsAvailable()
  {
    if robots == [] then []
    else (if robots[0].IsAvailable() then [robots[0]] else []) + Available(robots[1..])
  }

  function PendingOnly(tasks: seq<TaskView>): (r: seq<TaskView>)
    ensures forall x :: x in r <==> x in tasks && x.status == Pending
  {
    if tasks == [] then []
    else (if tasks[0].status == Pending then [tasks[0]] else []) + PendingOnly(tasks[1..])
  }

  function EligibleRobots(robots: seq<RobotView>): seq<RobotView> {
    SortBy(ByRobotId, Available(robots))
  }

  function PendingTasks(tasks: seq<TaskView>): seq<TaskView> {
    SortBy(ByUrgency, PendingOnly(tasks))
  }

  /** The charge pays for every move of the route; a robot that drains nothing
      can go any distance. */
  predicate BatteryFeasible(r: RobotView, moves: nat) {
    r.drain <= 0.0 || moves as real <= r.battery / r.drain
  }

  ghost predicate OnMap(f: Floor, robots: seq<RobotView>, tasks: seq<TaskView>) {
    && (forall r | r in robots :: f.InBounds(r.position))
    && (forall t | t in tasks :: f.InBounds(t.pickup) && f.InBounds(t.dropoff))
  }

  ghost predicate Feasible(f: Floor, r: RobotView, t: TaskView) {
    var price := Price(f, r.position, t.pickup, t.dropoff);
    r.CanCarry(t.weight) && price.Ok? && price.value.Some?
    && BatteryFeasible(r, price.value.value.toPickup + price.value.value.toDropoff)
  }

  /** Pricing the pairing raises: an end of a leg that is looked at is off the floor. */
  ghost predicate Unpriceable(f: Floor, r: RobotView, t: TaskView) {
    r.CanCarry(t.weight) && Price(f, r.position, t.pickup, t.dropoff).Raised?
  }

  ghost predicate SomeUnpriceable(f: Floor, rs: seq<RobotView>, ts: seq<TaskView>) {
    exists r, t :: r in rs && t in ts && Unpriceable(f, r, t)
  }

  /** The second leg is only looked at when there is a first one. */
  lemma UnpriceableExactly(f: Floor, r: RobotView, t: TaskView)
    ensures Unpriceable(f, r, t) <==>
              && r.CanCarry(t.weight)
              && (!f.InBounds(r.position) || !f.InBounds(t.pickup)
                  || (Connected(f, r.position, t.pickup) && !f.InBounds(t.dropoff)))
  {
    hide Connected;
    if f.InBounds(r.position) && f.InBounds(t.pickup) {
      GridCostIsDistance(f, r.position, t.pickup);
      if f.InBounds(t.dropoff) {
        GridCostIsDistance(f, t.pickup, t.dropoff);
      }
    }
  }

  ghost function PairOf(f: Floor, r: RobotView, t: TaskView): Pair
    requires Feasible(f, r, t)
  {
    var legs := Price(f, r.position, t.pickup, t.dropoff).value.value;
    Pair(r.id, t.id, legs.toPickup, legs.toDropoff)
  }

  ghost function CandidatesOf(f: Floor, r: RobotView, ts: seq<TaskView>): seq<Pair> {
    if ts == [] then []
    else CandidatesOf(f, r, ts[..|ts| - 1]) + if Feasible(f, r, ts[|ts| - 1]) then [PairOf(f, r, ts[|ts| - 1])] else []
  }

  ghost function Candidates(f: Floor, rs: seq<RobotView>, ts: seq<TaskView>): seq<Pair> {
    if rs == [] then [] else Candidates(f, rs[..|rs| - 1], ts) + CandidatesOf(f, rs[|rs| - 1], ts)
  }

  ghost predicate IsCandidate(f: Floor, p: Pair, r: RobotView, t: TaskView) {
    Feasible(f, r, t) && p == PairOf(f, r, t)
  }

  lemma {:induction false} CandidatesOfExact(f: Floor, r: RobotView, ts: seq<TaskView>, p: Pair)
    ensures p in CandidatesOf(f, r, ts) <==> exists t | t in ts :: IsCandidate(f, p, r, t)
  {
    hide Feasible, PairOf;
    if ts != [] {
      var n := |ts| - 1;
      CandidatesOfExact(f, r, ts[..n], p);
      assert ts == ts[..n] + [ts[n]];
      if Feasible(f, r, ts[n]) {
        assert IsCandidate(f, PairOf(f, r, ts[n]), r, ts[n]);
      }
    }
  }

  /** The list holds exactly the feasible pairings, each priced as planned. */
  lemma {:induction false} CandidatesExact(f: Floor, rs: seq<RobotView>, ts: seq<TaskView>, p: Pair)
    ensures p in Candidates(f, rs, ts) <==> exists r, t | r in rs && t in ts :: IsCandidate(f, p, r, t)
  {
    hide IsCandidate, CandidatesOf;
    if rs != [] {
      var n := |rs| - 1;
      CandidatesExact(f, rs[..n], ts, p);
      CandidatesOfExact(f, rs[n], ts, p);
      assert rs == rs[..n] + [rs[n]];
    }
  }

  /** What it takes for `r` to do `t` at the price of `p`: it can carry the load, both
      legs are as long as the price says, and its charge outlasts them. */
  ghost predicate CanDo(f: Floor, p: Pair, r: RobotView, t: TaskView) {
    && p.robot == r.id && p.task == t.id
    && t.weight + r.payload <= r.capacity
    && IsDistance(f, r.position, t.pickup, p.toPickup) && IsDistance(f, t.pickup, t.dropoff, p.toDropoff)
    && (r.drain > 0.0 ==> r.battery >= Execution.Spent(r.drain, p.toPickup + p.toDropoff))
  }

  /** The charge is enough exactly when that many moves do not use it up. */
  lemma ChargeLasts(r: RobotView, moves: nat)
    ensures BatteryFeasible(r, moves) <==> (r.drain > 0.0 ==> r.battery >= Execution.Spent(r.drain, moves))
  {
    Execution.SpentIsProduct(r.drain, moves);
    if r.drain > 0.0 {
      var n, most := moves as real, r.battery / r.drain;
      assert r.drain * most == r.battery;
      if n <= most {
        TimesKeeps(n, most, r.drain);
      } else {
        TimesKeeps(most, n, r.drain);
      }
    }
  }

  lemma TimesKeeps(a: real, b: real, d: real)
    requires a <= b && d > 0.0
    ensures d * a <= d * b && (d * a == d * b ==> a == b)
  {
  }

  lemma CandidateCanDo(f: Floor, p: Pair, r: RobotView, t: TaskView)
    ensures IsCandidate(f, p, r, t) <==> CanDo(f, p, r, t)
  {
    hide Price, IsDistance, Connected, BatteryFeasible, Execution.Spent;
    PriceIsDistances(f, r.position, t.pickup, t.dropoff);
    if CanDo(f, p, r, t) {
      OneDistance(f, r.position, t.pickup, p.toPickup, p.toPickup);
      OneDistance(f, t.pickup, t.dropoff, p.toDropoff, p.toDropoff);
    }
    var price := Price(f, r.position, t.pickup, t.dropoff);
    if price.Ok? && price.value.Some? {
      var legs := price.value.value;
      ChargeLasts(r, legs.toPickup + legs.toDropoff);
      if CanDo(f, p, r, t) {
        OneDistance(f, r.position, t.pickup, p.toPickup, legs.toPickup);
        OneDistance(f, t.pickup, t.dropoff, p.toDropoff, legs.toDropoff);
      }
    }
  }

  /** The list holds exactly the pairings that can be done, at their true price. */
  lemma CandidatesCanDo(f: Floor, rs: seq<RobotView>, ts: seq<TaskView>, p: Pair)
    ensures p in Candidates(f, rs, ts) <==> exists r, t :: r in rs && t in ts && CanDo(f, p, r, t)
  {
    hide IsCandidate, CanDo, Candidates;
    CandidatesExact(f, rs, ts, p);
    forall r, t
      ensures IsCandidate(f, p, r, t) <==> CanDo(f, p, r, t)
    {
      CandidateCanDo(f, p, r, t);
    }
  }

  const ROBOT_ID: RobotView -> string := (r: RobotView) => r.id

  const TASK_ID: TaskView -> string := (t: TaskView) => t.id

  ghost predicate DistinctKeys(pairs: seq<Pair>) {
    forall i, j | 0 <= i < j < |pairs| :: pairs[i].robot != pairs[j].robot || pairs[i].task != pairs[j].task
  }

  lemma {:induction false} CandidatesOfDistinct(f: Floor, r: RobotView, ts: seq<TaskView>)
    requires DistinctBy(TASK_ID, ts)
    ensures DistinctKeys(CandidatesOf(f, r, ts)) && forall p | p in CandidatesOf(f, r, ts) :: p.robot == r.id
  {
    hide Feasible;
    if ts != [] {
      var n := |ts| - 1;
      CandidatesOfDistinct(f, r, ts[..n]);
      var before := CandidatesOf(f, r, ts[..n]);
      forall i | 0 <= i < |before|
        ensures before[i].task != ts[n].id
      {
        CandidatesOfExact(f, r, ts[..n], before[i]);
        var t :| t in ts[..n] && IsCandidate(f, before[i], r, t);
        assert TASK_ID(t) != TASK_ID(ts[n]);
      }
    }
  }

  /** One entry per robot and task. */
  lemma {:induction false} CandidatesDistinct(f: Floor, rs: seq<RobotView>, ts: seq<TaskView>)
    requires DistinctBy(ROBOT_ID, rs) && DistinctBy(TASK_ID, ts)
    ensures DistinctKeys(Candidates(f, rs, ts))
  {
    hide IsCandidate, CandidatesOf;
    if rs != [] {
      var n := |rs| - 1;
      CandidatesDistinct(f, rs[..n], ts);
      CandidatesOfDistinct(f, rs[n], ts);
      var before := Candidates(f, rs[..n], ts);
      forall i | 0 <= i < |before|
        ensures before[i].robot != rs[n].id
      {
        CandidatesExact(f, rs[..n], ts, before[i]);
        assert before[i] in before;
        var r, t :| r in rs[..n] && t in ts && IsCandidate(f, before[i], r, t);
        CandidateName(f, before[i], r, t);
        assert ROBOT_ID(r) != ROBOT_ID(rs[n]);
      }
    }
  }

  lemma CandidateName(f: Floor, p: Pair, r: RobotView, t: TaskView)
    requires IsCandidate(f, p, r, t)
    ensures p.robot == r.id && p.task == t.id
  {
  }

  lemma NextCandidate(f: Floor, r: RobotView, ts: seq<TaskView>, k: nat)
    requires k < |ts|
    ensures CandidatesOf(f, r, ts[..k + 1])
         == CandidatesOf(f, r, ts[..k]) + if Feasible(f, r, ts[k]) then [PairOf(f, r, ts[k])] else []
  {
    assert ts[..k + 1][..k] == ts[..k];
  }

  method WhyFeasible(r: RobotView, t: TaskView, estimator: CostEstimator) returns (p: Option<Pair>, raised: bool)
    requires estimator.Valid()
    modifies estimator`cache, estimator`plannerCalls
    ensures estimator.Valid()
    ensures var f := estimator.warehouse.FloorPlan();
            && (raised <==> Unpriceable(f, r, t))
            && (!raised ==> (p.Some? <==> Feasible(f, r, t)))
                && (p.Some? ==> Feasible(f, r, t) && p.value == PairOf(f, r, t))
  {
    hide CostEstimator.Valid, Price;
    if !r.CanCarry(t.weight) {
      return None, false;
    }
    var cost := estimator.Estimate(r, t);
    if cost.Raised? {
      return None, true;
    }
    if cost.value.None? {
      return None, false;
    }
    var legs := cost.value.value;
    if !BatteryFeasible(r, legs.toPickup + legs.toDropoff) {
      return None, false;
    }
    return Some(Pair(r.id, t.id, legs.toPickup, legs.toDropoff)), false;
  }

  method CandidatesForRobot(r: RobotView, ts: seq<TaskView>, estimator: CostEstimator)
    returns (feasible: seq<Pair>, infeasible: nat, raised: bool)
    requires estimator.Valid()
    modifies estimator`cache, estimator`plannerCalls
    ensures estimator.Valid()
    ensures raised <==> exists t :: t in ts && Unpriceable(estimator.warehouse.FloorPlan(), r, t)
    ensures !raised ==>
             feasible == CandidatesOf(estimator.warehouse.FloorPlan(), r, ts)
             && |feasible| + infeasible == |ts|
  {
    hide CostEstimator.Valid, Feasible, PairOf, Unpriceable;
    feasible, infeasible, raised := [], 0, false;
    ghost var f := estimator.warehouse.FloorPlan();
    for k := 0 to |ts|
      invariant estimator.Valid() && feasible == CandidatesOf(f, r, ts[..k])
      invariant forall t | t in ts[..k] :: !Unpriceable(f, r, t)
      invariant |feasible| + infeasible == k
    {
      NextCandidate(f, r, ts, k);
      var p, stuck := WhyFeasible(r, ts[k], estimator);
      if stuck {
        return feasible, infeasible, true;
      }
      if p.None? {
        infeasible := infeasible + 1;
      } else {
        feasible := feasible + [p.value];
      }
      assert ts[..k + 1] == ts[..k] + [ts[k]];
    }
    assert ts[..|ts|] == ts;
  }

  lemma OnMapIsPriced(f: Floor, robots: seq<RobotView>, tasks: seq<TaskView>)
    requires OnMap(f, robots, tasks)
    ensures !SomeUnpriceable(f, EligibleRobots(robots), PendingTasks(tasks))
  {
    hide EligibleRobots, PendingTasks, Unpriceable;
    EligibleExact(robots);
    PendingExact(tasks);
    forall r, t | r in EligibleRobots(robots) && t in PendingTasks(tasks)
      ensures !Unpriceable(f, r, t)
    {
      UnpriceableExactly(f, r, t);
    }
  }

  lemma NextRobot(f: Floor, rs: seq<RobotView>, ts: seq<TaskView>, k: nat)
    requires k < |rs|
    ensures Candidates(f, rs[..k + 1], ts) == Candidates(f, rs[..k], ts) + CandidatesOf(f, rs[k], ts)
  {
    hide CandidatesOf;
    assert rs[..k + 1][..k] == rs[..k];
  }

  lemma OneMoreRow(k: nat, n: nat)
    ensures (k + 1) * n == k * n + n
  {
  }

  /** Every eligible robot with every pending task is either a candidate pair or
      counted as infeasible. A pairing that cannot be priced raises. */
  method BuildCandidatePairs(robots: seq<RobotView>, tasks: seq<TaskView>, estimator: CostEstimator)
    returns (feasible: seq<Pair>, infeasible: nat, raised: bool)
    requires estimator.Valid()
    modifies estimator`cache, estimator`plannerCalls
    ensures estimator.Valid()
    ensures raised <==> SomeUnpriceable(estimator.warehouse.FloorPlan(), EligibleRobots(robots), PendingTasks(tasks))
    ensures !raised ==>
              && feasible == Candidates(estimator.warehouse.FloorPlan(), EligibleRobots(robots), PendingTasks(tasks))
              && |feasible| + infeasible == |EligibleRobots(robots)| * |PendingTasks(tasks)|
  {
    hide CostEstimator.Valid, CandidatesOf, EligibleRobots, PendingTasks, Warehouse.FloorPlan, Unpriceable;
    var rs, ts := EligibleRobots(robots), PendingTasks(tasks);
    ghost var f := estimator.warehouse.FloorPlan();
    feasible, infeasible, raised := [], 0, false;
    for k := 0 to |rs|
      invariant estimator.Valid() && feasible == Candidates(f, rs[..k], ts)
      invariant forall r, t | r in rs[..k] && t in ts :: !Unpriceable(f, r, t)
      invariant |feasible| + infeasible == k * |ts|
    {
      NextRobot(f, rs, ts, k);
      OneMoreRow(k, |ts|);
      var more, ruledOut, stuck := CandidatesForRobot(rs[k], ts, estimator);
      if stuck {
        return feasible, infeasible, true;
      }
      feasible, infeasible := feasible + more, infeasible + ruledOut;
      assert rs[..k + 1] == rs[..k] + [rs[k]];
    }
    assert rs[..|rs|] == rs;
  }

  lemma ByRobotIdIsOrder()
    ensures KeyOrder(ByRobotId)
  {
    forall a: RobotView, b: RobotView
      ensures ByRobotId(a, b) ==> !ByRobotId(b, a)
    {
      BeforeIsStrict(a.id, b.id);
    }
    forall a: RobotView, b: RobotView, c: RobotView | !ByRobotId(b, a) && !ByRobotId(c, b)
      ensures !ByRobotId(c, a)
    {
      NotAfter(a.id, b.id, c.id);
    }
  }

  lemma ByUrgencyIsOrder()
    ensures KeyOrder(ByUrgency)
  {
    forall a: TaskView, b: TaskView
      ensures ByUrgency(a, b) ==> !ByUrgency(b, a)
    {
      BeforeIsStrict(a.id, b.id);
    }
    forall a: TaskView, b: TaskView, c: TaskView | !ByUrgency(b, a) && !ByUrgency(c, b)
      ensures !ByUrgency(c, a)
    {
      if a.priority == b.priority == c.priority {
        NotAfter(a.id, b.id, c.id);
      }
    }
  }

  /** The available robots, each as often as it is listed, by name. */
  lemma EligibleExact(robots: seq<RobotView>)
    ensures forall r :: r in EligibleRobots(robots) <==> r in robots && r.IsAvailable()
    ensures Ascending(ByRobotId, EligibleRobots(robots))
             && multiset(EligibleRobots(robots)) == multiset(Available(robots))
    ensures forall i, j | 0 <= i < j < |EligibleRobots(robots)| ::
              !Before(EligibleRobots(robots)[j].id, EligibleRobots(robots)[i].id)
  {
    SortKeeps(ByRobotId, Available(robots));
    ByRobotIdIsOrder();
    SortAscends(ByRobotId, Available(robots));
  }

  /** The pending tasks, each as often as it is listed, most urgent first. */
  lemma PendingExact(tasks: seq<TaskView>)
    ensures forall t :: t in PendingTasks(tasks) <==> t in tasks && t.status == Pending
    ensures Ascending(ByUrgency, PendingTasks(tasks)) && multiset(PendingTasks(tasks)) == multiset(PendingOnly(tasks))
    ensures forall i, j | 0 <= i < j < |PendingTasks(tasks)| ::
              var a, b := PendingTasks(tasks)[i], PendingTasks(tasks)[j];
              a.priority > b.priority || (a.priority == b.priority && !Before(b.id, a.id))
  {
    SortKeeps(ByUrgency, PendingOnly(tasks));
    ByUrgencyIsOrder();
    SortAscends(ByUrgency, PendingOnly(tasks));
  }

  lemma {:induction false} AvailableDistinct(robots: seq<RobotView>)
    requires DistinctBy(ROBOT_ID, robots)
    ensures DistinctBy(ROBOT_ID, Available(robots))
  {
    if robots != [] {
      AvailableDistinct(robots[1..]);
      forall y | y in robots[1..]
        ensures ROBOT_ID(y) != ROBOT_ID(robots[0])
      {
      }
    }
  }

  lemma {:induction false} PendingOnlyDistinct(tasks: seq<TaskView>)
    requires DistinctBy(TASK_ID, tasks)
    ensures DistinctBy(TASK_ID, PendingOnly(tasks))
  {
    if tasks != [] {
      PendingOnlyDistinct(tasks[1..]);
      forall y | y in tasks[1..]
        ensures TASK_ID(y) != TASK_ID(tasks[0])
      {
      }
    }
  }

  lemma StillDistinct(robots: seq<RobotView>, tasks: seq<TaskView>)
    requires DistinctBy(ROBOT_ID, robots) && DistinctBy(TASK_ID, tasks)
    ensures DistinctBy(ROBOT_ID, EligibleRobots(robots)) && DistinctBy(TASK_ID, PendingTasks(tasks))
  {
    AvailableDistinct(robots);
    PendingOnlyDistinct(tasks);
    SortDistinct(ByRobotId, ROBOT_ID, Available(robots));
    SortDistinct(ByUrgency, TASK_ID, PendingOnly(tasks));
  }
}
