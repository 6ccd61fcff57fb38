/** Space-time A*: one robot's earliest route around everyone else's claims. */
module SpaceTime {
  import opened Floors
  import opened BestFirst
  import opened TimedPaths
  import opened Reservations
  import opened SpatialPlanning

  type State = (Position, int)

  /** One planning request: the floor and the table as they are, and the wish. */
  datatype Query = Query(floor: Floor, claims: Claims, robot: string, start: Position, startTime: int,
                         goal: Position, horizon: int, h: Heuristic)

  // ---------- Reference meaning ----------

  /** From `from` to `to` the route uses nothing another robot has claimed. */
  ghost predicate ClearOf(c: Claims, robot: string, steps: seq<TimedStep>, from: int, to: int)
    requires WellTimed(steps)
  {
    && (forall t | from <= t <= to :: c.VertexFree(At(steps, t), t, robot))
    && (forall t | from <= t < to && At(steps, t) != At(steps, t + 1) ::
        !c.Swaps(At(steps, t), At(steps, t + 1), t, robot))
  }

  /** A route the request allows: it waits or moves on traversable cells from the
      start to the goal, arrives within the horizon, and - parked on the goal from
      then on - stays clear of every foreign claim through the horizon. */
  ghost predicate LegalRoute(q: Query, steps: seq<TimedStep>) {
    && WellTimed(steps)
    && steps[0] == TimedStep(q.start, q.startTime) && Goal(steps) == q.goal
    && ArrivalTime(steps) <= q.horizon
    && Drivable(q.floor, steps)
    && ClearOf(q.claims, q.robot, steps, q.startTime, q.horizon)
  }

  ghost predicate HoldFree(q: Query, from: int) {
    forall t | from <= t <= q.horizon :: q.claims.VertexFree(q.goal, t, q.robot)
  }

  // ---------- Parking on the goal ----------

  /** Scan back from the horizon to the latest foreign claim on the goal. */
  function EarliestHold(q: Query): int
    decreases q.horizon - q.startTime + 1
  {
    if q.horizon < q.startTime then q.startTime
    else if !q.claims.VertexFree(q.goal, q.horizon, q.robot) then q.horizon + 1
    else EarliestHold(q.(horizon := q.horizon - 1))
  }

  /** The scan characterises the legal arrival times exactly. */
  lemma {:induction false} EarliestHoldExact(q: Query, arrival: int)
    requires q.startTime <= arrival
    ensures arrival <= q.horizon ==> (HoldFree(q, arrival) <==> EarliestHold(q) <= arrival)
    ensures q.startTime <= EarliestHold(q) <= Max(q.startTime, q.horizon + 1)
    decreases q.horizon - q.startTime + 1
  {
    if q.startTime <= q.horizon && q.claims.VertexFree(q.goal, q.horizon, q.robot) {
      var shorter := q.(horizon := q.horizon - 1);
      EarliestHoldExact(shorter, arrival);
      if arrival == q.horizon {
        EarliestHoldExact(shorter, q.startTime);
      } else if arrival < q.horizon {
        assert HoldFree(q, arrival) <==> HoldFree(shorter, arrival);
      }
    }
  }

  // ---------- The search problem ----------

  function AllowedMoves(c: Claims, robot: string, s: State, ns: seq<Position>): seq<State> {
    if ns == [] then []
    else (if c.MoveAllowed(s.0, ns[0], s.1, robot) then [(ns[0], s.1 + 1)] else []) + AllowedMoves(c, robot, s, ns[1..])
  }

  /** Wait first, then the neighbours; nothing at the horizon. */
  function TimedMoves(q: Query, s: State): seq<State> {
    if s.1 >= q.horizon then []
    else
      (if q.claims.VertexFree(s.0, s.1 + 1, q.robot) && q.floor.Traversable(s.0) then [(s.0, s.1 + 1)] else [])
      + AllowedMoves(q.claims, q.robot, s, q.floor.Neighbours(s.0))
  }

  /** One timestep of a legal route. */
  ghost predicate LegalStep(q: Query, s: State, w: State) {
    && s.1 < q.horizon && w.1 == s.1 + 1
    && q.floor.Traversable(w.0) && q.claims.VertexFree(w.0, w.1, q.robot)
    && (s.0 == w.0 || (Adjacent(s.0, w.0) && !q.claims.Swaps(s.0, w.0, s.1, q.robot)))
  }

  lemma {:induction false} AllowedMovesMembers(c: Claims, robot: string, s: State, ns: seq<Position>, w: State)
    ensures w in AllowedMoves(c, robot, s, ns) <==> w.0 in ns && w.1 == s.1 + 1 && c.MoveAllowed(s.0, w.0, s.1, robot)
  {
    if ns != [] {
      AllowedMovesMembers(c, robot, s, ns[1..], w);
      assert w.0 in ns <==> w.0 == ns[0] || w.0 in ns[1..];
    }
  }

  lemma TimedMovesExact(q: Query, s: State, w: State)
    ensures w in TimedMoves(q, s) <==> LegalStep(q, s, w)
  {
    AllowedMovesMembers(q.claims, q.robot, s, q.floor.Neighbours(s.0), w);
    NeighboursExact(q.floor, s.0, w.0);
  }

  function Space(q: Query): set<State> {
    set c, t | c in q.floor.Cells() && q.startTime <= t <= q.horizon :: (c, t)
  }

  function TimedProblem(q: Query): Problem<State> {
    Problem((q.start, q.startTime), s => TimedMoves(q, s), (s: State) => q.h(s.0, q.goal),
            (s: State) => s.0 == q.goal && s.1 >= EarliestHold(q), Space(q))
  }

  ghost predicate Searchable(q: Query) {
    && q.floor.Traversable(q.start) && q.startTime <= q.horizon
    && q.claims.VertexFree(q.start, q.startTime, q.robot)
  }

  lemma InSpace(q: Query, s: State)
    ensures s in Space(q) <==> q.floor.InBounds(s.0) && q.startTime <= s.1 <= q.horizon
  {
    assert q.floor.InBounds(s.0) ==> s.0 == Position(s.0.row, s.0.col);
  }

  lemma TimedProblemParts(q: Query)
    ensures var P := TimedProblem(q);
            && P.start == (q.start, q.startTime) && P.space == Space(q)
            && (forall s: State :: P.succ(s) == TimedMoves(q, s) && P.h(s) == q.h(s.0, q.goal)
                                   && P.goal(s) == (s.0 == q.goal && s.1 >= EarliestHold(q)))
  {
  }

  lemma TimedConsistent(q: Query)
    requires Searchable(q)
    ensures Consistent(TimedProblem(q))
  {
    hide TimedProblem, Space, TimedMoves;
    TimedProblemParts(q);
    var P := TimedProblem(q);
    InSpace(q, P.start);
    forall u, w | u in P.space && w in P.succ(u)
      ensures w in P.space && P.h(u) <= 1 + P.h(w)
    {
      TimedMovesExact(q, u, w);
      InSpace(q, u);
      InSpace(q, w);
    }
  }

  // ---------- Walks of the search are routes ----------

  function StepsOf(p: seq<State>): seq<TimedStep> {
    seq(|p|, i requires 0 <= i < |p| => TimedStep(p[i].0, p[i].1))
  }

  function StatesOf(steps: seq<TimedStep>): seq<State> {
    seq(|steps|, i requires 0 <= i < |steps| => (steps[i].position, steps[i].timestep))
  }

  ghost predicate LegalSteps(q: Query, p: seq<State>) {
    && |p| > 0 && p[0] == (q.start, q.startTime)
    && forall i | 0 <= i < |p| - 1 :: LegalStep(q, p[i], p[i + 1])
  }

  lemma WalksAreLegalSteps(q: Query, p: seq<State>)
    ensures IsWalk(TimedProblem(q), p) <==> LegalSteps(q, p)
  {
    hide TimedProblem, TimedMoves, LegalStep;
    TimedProblemParts(q);
    forall i | 0 <= i < |p| - 1
      ensures p[i + 1] in TimedProblem(q).succ(p[i]) <==> LegalStep(q, p[i], p[i + 1])
    {
      TimedMovesExact(q, p[i], p[i + 1]);
    }
  }

  lemma {:induction false} LegalStepsTimed(q: Query, p: seq<State>, i: nat)
    requires LegalSteps(q, p) && i < |p| && Searchable(q)
    ensures p[i].1 == q.startTime + i && q.floor.Traversable(p[i].0) && q.claims.VertexFree(p[i].0, p[i].1, q.robot)
    ensures p[i].1 <= q.horizon
  {
    if i > 0 {
      LegalStepsTimed(q, p, i - 1);
      assert LegalStep(q, p[i - 1], p[i - 1 + 1]);
    }
  }

  lemma LegalStepsDrive(q: Query, p: seq<State>)
    requires Searchable(q) && LegalSteps(q, p)
    ensures var steps := StepsOf(p);
            && WellTimed(steps) && Drivable(q.floor, steps)
            && ArrivalTime(steps) == Last(p).1 == q.startTime + |p| - 1
            && forall t | q.startTime <= t <= Last(p).1 :: At(steps, t) == p[t - q.startTime].0
  {
    hide Floor.Traversable, Searchable;
    var steps := StepsOf(p);
    forall i | 0 <= i < |p|
      ensures p[i].1 == q.startTime + i && q.floor.Traversable(p[i].0)
    {
      LegalStepsTimed(q, p, i);
    }
    forall i | 0 <= i < |steps| - 1
      ensures Manhattan(steps[i].position, steps[i + 1].position) <= 1
    {
      assert LegalStep(q, p[i], p[i + 1]);
    }
  }

  /** A walk that ends where the robot may park is a legal route. */
  lemma LegalStepsAreRoute(q: Query, p: seq<State>)
    requires Searchable(q) && LegalSteps(q, p)
    requires Last(p).0 == q.goal && Last(p).1 >= EarliestHold(q)
    ensures LegalRoute(q, StepsOf(p)) && ArrivalTime(StepsOf(p)) == Last(p).1 == q.startTime + |p| - 1
  {
    hide Drivable, WellTimed, Floor.Traversable;
    var steps := StepsOf(p);
    LegalStepsDrive(q, p);
    LegalStepsTimed(q, p, |p| - 1);
    EarliestHoldExact(q, Last(p).1);
    forall t | q.startTime <= t <= q.horizon
      ensures q.claims.VertexFree(At(steps, t), t, q.robot)
    {
      if t <= Last(p).1 {
        LegalStepsTimed(q, p, t - q.startTime);
      }
    }
    forall t | q.startTime <= t < q.horizon && At(steps, t) != At(steps, t + 1)
      ensures !q.claims.Swaps(At(steps, t), At(steps, t + 1), t, q.robot)
    {
      var i := t - q.startTime;
      LegalStepsTimed(q, p, i);
      assert LegalStep(q, p[i], p[i + 1]);
    }
  }

  /** And every legal route is such a walk. */
  lemma RouteIsLegalSteps(q: Query, steps: seq<TimedStep>)
    requires LegalRoute(q, steps)
    ensures Searchable(q) && LegalSteps(q, StatesOf(steps)) && |StatesOf(steps)| == |steps|
    ensures Last(StatesOf(steps)) == (q.goal, ArrivalTime(steps)) && EarliestHold(q) <= ArrivalTime(steps) <= q.horizon
  {
    var p := StatesOf(steps);
    assert At(steps, q.startTime) == q.start;
    forall i | 0 <= i < |p| - 1
      ensures LegalStep(q, p[i], p[i + 1])
    {
      var t := q.startTime + i;
      assert At(steps, t) == p[i].0 && At(steps, t + 1) == p[i + 1].0;
      assert q.claims.VertexFree(At(steps, t + 1), t + 1, q.robot);
      assert Manhattan(steps[i].position, steps[i + 1].position) <= 1;
    }
    forall t | ArrivalTime(steps) <= t <= q.horizon
      ensures q.claims.VertexFree(q.goal, t, q.robot)
    {
      assert q.claims.VertexFree(At(steps, t), t, q.robot);
    }
    assert HoldFree(q, ArrivalTime(steps));
    EarliestHoldExact(q, ArrivalTime(steps));
  }

  // ---------- The planner as a function of its request ----------

  ghost function SearchTimed(q: Query): (r: BestFirst.Outcome<State>)
    requires Searchable(q)
    ensures Answers(TimedProblem(q), r)
  {
    TimedConsistent(q);
    InitialInv(TimedProblem(q));
    RunAnswers(TimedProblem(q), Initial(TimedProblem(q)));
    Run(TimedProblem(q), Initial(TimedProblem(q)))
  }

  ghost function SearchedRoute(q: Query): TimedPath
    requires Searchable(q)
  {
    var r := SearchTimed(q);
    if r.Reached? then Planned(q.robot, StepsOf(Trail(TimedProblem(q), r.search, r.state)))
    else Unplanned(q.robot, HorizonExceeded)
  }

  ghost function Plan(q: Query): TimedPath {
    if !q.floor.InBounds(q.start) then Unplanned(q.robot, StartOutOfBounds)
    else if !q.floor.InBounds(q.goal) then Unplanned(q.robot, GoalOutOfBounds)
    else if !q.floor.Traversable(q.start) then Unplanned(q.robot, StartCellBlocked)
    else if !q.floor.Traversable(q.goal) then Unplanned(q.robot, GoalCellBlocked)
    else if !q.claims.VertexFree(q.start, q.startTime, q.robot) then Unplanned(q.robot, StartReserved)
    else if Answer(q.floor, q.start, q.goal, MANHATTAN).value.NotFound? then Unplanned(q.robot, SpatiallyUnreachable)
    else if EarliestHold(q) > q.horizon then Unplanned(q.robot, GoalHeld)
    else
      EarliestHoldExact(q, q.startTime);
      SearchedRoute(q)
  }

  // ---------- What the planner promises ----------

  lemma ReachedIsLegal(q: Query)
    requires Searchable(q) && SearchTimed(q).Reached?
    ensures var r := SearchTimed(q);
            && LegalRoute(q, SearchedRoute(q).steps)
            && r.state in r.search.best && ArrivalTime(SearchedRoute(q).steps) == q.startTime + r.search.best[r.state]
            && r.state.0 == q.goal
  {
    hide TimedProblem, LegalSteps, LegalRoute, StepsOf, IsWalk, Optimal, SearchTimed;
    TimedProblemParts(q);
    var P, r := TimedProblem(q), SearchTimed(q);
    var p := Trail(P, r.search, r.state);
    WalksAreLegalSteps(q, p);
    LegalStepsAreRoute(q, p);
  }

  lemma LegalIsNoEarlier(q: Query, other: seq<TimedStep>)
    requires Searchable(q) && LegalRoute(q, other)
    ensures var r := SearchTimed(q);
            && r.Reached? && r.state in r.search.best
            && q.startTime + r.search.best[r.state] <= ArrivalTime(other)
  {
    hide TimedProblem, LegalSteps, LegalRoute, StatesOf, IsWalk, Optimal, SearchTimed;
    TimedProblemParts(q);
    var P, r := TimedProblem(q), SearchTimed(q);
    var w := StatesOf(other);
    RouteIsLegalSteps(q, other);
    WalksAreLegalSteps(q, w);
    ArrivalIsLength(q, w);
    assert IsWalk(P, w) && P.goal(Last(w));
  }

  /** A finished search has found a legal route that arrives first, or there is none. */
  lemma SearchIsEarliest(q: Query)
    requires Searchable(q)
    ensures var r := SearchedRoute(q);
            && r.robotId == q.robot
            && (r.Planned? ==> LegalRoute(q, r.steps))
            && (forall other | LegalRoute(q, other) :: r.Planned? && ArrivalTime(r.steps) <= ArrivalTime(other))
  {
    hide Drivable, ClearOf, SearchTimed, Answers;
    if SearchTimed(q).Reached? {
      ReachedIsLegal(q);
    }
    forall other | LegalRoute(q, other)
      ensures SearchedRoute(q).Planned? && ArrivalTime(SearchedRoute(q).steps) <= ArrivalTime(other)
    {
      LegalIsNoEarlier(q, other);
    }
  }

  lemma ArrivalIsLength(q: Query, p: seq<State>)
    requires Searchable(q) && LegalSteps(q, p)
    ensures |p| > 0 && Last(p).1 == q.startTime + |p| - 1
  {
    LegalStepsTimed(q, p, |p| - 1);
  }

  /** A timed route projects to a drivable route with one cell per move. */
  lemma {:induction false} RouteProjects(f: Floor, steps: seq<TimedStep>) returns (p: seq<Position>)
    requires |steps| > 0 && Drivable(f, steps)
    ensures IsRoute(f, p, steps[0].position, Goal(steps)) && |p| == Moves(steps) + 1
  {
    var before := steps[..|steps| - 1];
    if before == [] {
      p := [steps[0].position];
    } else {
      p := RouteProjects(f, before);
      assert Manhattan(steps[|steps| - 2].position, steps[|steps| - 2 + 1].position) <= 1;
      if steps[|steps| - 2].position != Goal(steps) {
        p := p + [Goal(steps)];
      }
    }
  }

  lemma LegalImpliesConnected(q: Query)
    ensures (exists steps :: LegalRoute(q, steps)) ==>
              && Searchable(q) && q.floor.Traversable(q.goal) && Connected(q.floor, q.start, q.goal)
              && EarliestHold(q) <= q.horizon
  {
    if exists steps :: LegalRoute(q, steps) {
      var steps: seq<TimedStep> :| LegalRoute(q, steps);
      var p := RouteProjects(q.floor, steps);
      RouteIsLegalSteps(q, steps);
      assert q.floor.Traversable(steps[|steps| - 1].position);
    }
  }

  /** Space-time planning is complete and time-optimal: it succeeds exactly when
      a legal route exists, and then its route is legal and none arrives earlier. */
  lemma PlanIsCompleteAndEarliest(q: Query)
    ensures Plan(q).robotId == q.robot
    ensures Plan(q).Planned? <==> exists steps :: LegalRoute(q, steps)
    ensures Plan(q).Planned? ==> LegalRoute(q, Plan(q).steps)
    ensures Plan(q).Planned? ==> forall other | LegalRoute(q, other) :: ArrivalTime(Plan(q).steps) <= ArrivalTime(other)
  {
    hide LegalRoute, SearchedRoute, Answer, EarliestHold, IsShortest;
    LegalImpliesConnected(q);
    if q.floor.InBounds(q.start) && q.floor.InBounds(q.goal) {
      AnswerIsShortest(q.floor, q.start, q.goal, MANHATTAN);
      EarliestHoldExact(q, q.startTime);
      if Searchable(q) {
        SearchIsEarliest(q);
      }
    }
  }

  /** Both ends are free floor, and nobody else has claimed the start. */
  ghost predicate EndsFree(q: Query) {
    q.floor.Traversable(q.start) && q.floor.Traversable(q.goal) && q.claims.VertexFree(q.start, q.startTime, q.robot)
  }

  /** What each failure reason means for the request, for every request. */
  lemma FailureReasons(q: Query)
    ensures Plan(q) == Unplanned(q.robot, StartOutOfBounds) <==> !q.floor.InBounds(q.start)
    ensures Plan(q) == Unplanned(q.robot, GoalOutOfBounds) <==> q.floor.InBounds(q.start) && !q.floor.InBounds(q.goal)
    ensures Plan(q) == Unplanned(q.robot, StartCellBlocked) <==>
              q.floor.InBounds(q.start) && q.floor.InBounds(q.goal) && q.start in q.floor.blocked
    ensures Plan(q) == Unplanned(q.robot, GoalCellBlocked) <==>
              q.floor.Traversable(q.start) && q.floor.InBounds(q.goal) && q.goal in q.floor.blocked
    ensures Plan(q) == Unplanned(q.robot, StartReserved) <==>
              && q.floor.Traversable(q.start) && q.floor.Traversable(q.goal)
              && !q.claims.VertexFree(q.start, q.startTime, q.robot)
    ensures Plan(q) == Unplanned(q.robot, SpatiallyUnreachable) <==> EndsFree(q) && !Connected(q.floor, q.start, q.goal)
    ensures Plan(q) == Unplanned(q.robot, GoalHeld) <==>
              && EndsFree(q) && Connected(q.floor, q.start, q.goal)
              && forall t | q.startTime <= t <= q.horizon :: !HoldFree(q, t)
    ensures Plan(q) == Unplanned(q.robot, HorizonExceeded) <==>
              && EndsFree(q) && Connected(q.floor, q.start, q.goal)
              && (exists t :: q.startTime <= t <= q.horizon && HoldFree(q, t))
              && !exists steps :: LegalRoute(q, steps)
  {
    hide LegalRoute, SearchTimed, Answer, EarliestHold, IsShortest, HoldFree, Claims.VertexFree, Connected;
    if EndsFree(q) {
      FreeEndsFailure(q);
    }
  }

  lemma FreeEndsFailure(q: Query)
    requires EndsFree(q)
    ensures Plan(q).Unplanned? ==>
              Plan(q).reason == SpatiallyUnreachable || Plan(q).reason == GoalHeld || Plan(q).reason == HorizonExceeded
    ensures Plan(q) == Unplanned(q.robot, SpatiallyUnreachable) <==> !Connected(q.floor, q.start, q.goal)
    ensures Plan(q) == Unplanned(q.robot, GoalHeld) <==>
              Connected(q.floor, q.start, q.goal) && forall t | q.startTime <= t <= q.horizon :: !HoldFree(q, t)
    ensures Plan(q) == Unplanned(q.robot, HorizonExceeded) <==>
              && Connected(q.floor, q.start, q.goal)
              && (exists t :: q.startTime <= t <= q.horizon && HoldFree(q, t))
              && !exists steps :: LegalRoute(q, steps)
  {
    hide LegalRoute, SearchTimed, Answer, EarliestHold, IsShortest, HoldFree;
    AnswerIsShortest(q.floor, q.start, q.goal, MANHATTAN);
    PlanIsCompleteAndEarliest(q);
    EarliestHoldExact(q, q.startTime);
    forall t | q.startTime <= t <= q.horizon
      ensures HoldFree(q, t) <==> EarliestHold(q) <= t
    {
      EarliestHoldExact(q, t);
    }
    assert EarliestHold(q) <= q.horizon ==> HoldFree(q, EarliestHold(q)) || EarliestHold(q) < q.startTime;
  }

  // ---------- The top-priority robot gets its shortest route ----------

  function Straight(p: seq<Position>, startTime: int): seq<TimedStep> {
    seq(|p|, i requires 0 <= i < |p| => TimedStep(p[i], startTime + i))
  }

  /** Around an empty table, and when the horizon admits the shortest distance,
      the timed route arrives after exactly that many steps and never waits. */
  lemma UnreservedPlanIsSpatial(q: Query)
    requires q.claims == Claims(map[], map[])
    requires q.floor.InBounds(q.start) && q.floor.InBounds(q.goal)
    requires var a := Answer(q.floor, q.start, q.goal, MANHATTAN).value;
             a.Found? && q.startTime + a.totalCost <= q.horizon
    ensures var a := Answer(q.floor, q.start, q.goal, MANHATTAN).value;
            && Plan(q).Planned?
            && ArrivalTime(Plan(q).steps) == q.startTime + a.totalCost
            && Moves(Plan(q).steps) == a.totalCost && Waits(Plan(q).steps) == 0
  {
    hide Answer, Plan;
    AnswerIsShortest(q.floor, q.start, q.goal, MANHATTAN);
    var path := Answer(q.floor, q.start, q.goal, MANHATTAN).value.path;
    var steps := Straight(path, q.startTime);
    assert LegalRoute(q, steps) by {
      assert forall i | 0 <= i < |steps| - 1 :: Adjacent(path[i], path[i + 1]);
    }
    PlanIsCompleteAndEarliest(q);
    var p := RouteProjects(q.floor, Plan(q).steps);
    MovesAndWaits(Plan(q).steps);
  }

  // ---------- The planner as it runs ----------

  /** In this graph the cost of a state is the time since the start. */
  lemma CostIsElapsedTime(q: Query, s: Search<State>, x: State)
    requires Searchable(q) && Tree(TimedProblem(q), s) && x in s.best
    ensures s.best[x] == x.1 - q.startTime
  {
    hide TimedProblem, LegalSteps, IsWalk, Tree;
    var p := Trail(TimedProblem(q), s, x);
    WalksAreLegalSteps(q, p);
    ArrivalIsLength(q, p);
  }

  /** What the search loop needs to know about its problem. */
  lemma TimedSearchParts(q: Query)
    requires Searchable(q)
    ensures var P := TimedProblem(q);
            && P.start == (q.start, q.startTime)
            && (forall s: State :: P.succ(s) == TimedMoves(q, s) && P.h(s) == q.h(s.0, q.goal)
                                   && P.goal(s) == (s.0 == q.goal && s.1 >= EarliestHold(q)))
            && (forall s: State :: s in P.space ==> q.floor.InBounds(s.0))
            && Inv(P, Initial(P)) && Run(P, Initial(P)) == SearchTimed(q)
  {
    TimedConsistent(q);
    InitialInv(TimedProblem(q));
    forall s: State | s in Space(q)
      ensures q.floor.InBounds(s.0)
    {
      InSpace(q, s);
    }
  }

  lemma TimedMovesAt(q: Query, s: State)
    ensures s.1 >= q.horizon ==> TimedMoves(q, s) == []
    ensures s.1 < q.horizon ==>
              var all, moves := TimedMoves(q, s), AllowedMoves(q.claims, q.robot, s, q.floor.Neighbours(s.0));
              if q.claims.VertexFree(s.0, s.1 + 1, q.robot) && q.floor.Traversable(s.0) then
                |all| > 0 && all[0] == (s.0, s.1 + 1) && all[1..] == moves
              else all == moves
  {
  }

  lemma AllowedMovesStep(c: Claims, robot: string, s: State, ns: seq<Position>, i: nat)
    requires i < |ns|
    ensures var moves, rest := AllowedMoves(c, robot, s, ns[i..]), AllowedMoves(c, robot, s, ns[i + 1..]);
            if c.MoveAllowed(s.0, ns[i], s.1, robot) then |moves| > 0 && moves[0] == (ns[i], s.1 + 1)
                && moves[1..] == rest
            else moves == rest
  {
    assert ns[i..][1..] == ns[i + 1..];
  }

  class SpaceTimePlanner {
    const warehouse: Warehouse
    const heuristic: Heuristic

    constructor (warehouse: Warehouse, heuristic: Heuristic)
      ensures this.warehouse == warehouse && this.heuristic == heuristic
    {
      this.warehouse, this.heuristic := warehouse, heuristic;
    }

    function Request(start: Position, goal: Position, claims: Claims, robot: string, startTime: int,
            horizon: int): Query
      reads warehouse
    {
      Query(warehouse.FloorPlan(), claims, robot, start, startTime, goal, horizon, heuristic)
    }

    /** Plan one robot around a table. Only the table's query counter changes. */
    method PlanRoute(start: Position, goal: Position, reservations: ReservationTable, robot: string,
                     startTime: int, horizon: Option<int>)
      returns (path: TimedPath)
      modifies reservations`queryCount
      ensures path == Plan(Request(start, goal, reservations.Contents(), robot, startTime,
                                   if horizon.Some? then horizon.value else 4 * (warehouse.width + warehouse.height)))
    {
      var limit := if horizon.Some? then horizon.value else 4 * (warehouse.width + warehouse.height);
      ghost var q := Request(start, goal, reservations.Contents(), robot, startTime, limit);
      var floor := warehouse.FloorPlan();
      if !floor.InBounds(start) {
        return Unplanned(robot, StartOutOfBounds);
      }
      if !floor.InBounds(goal) {
        return Unplanned(robot, GoalOutOfBounds);
      }
      if !floor.Traversable(start) {
        return Unplanned(robot, StartCellBlocked);
      }
      if !floor.Traversable(goal) {
        return Unplanned(robot, GoalCellBlocked);
      }
      var free := reservations.IsVertexFree(start, startTime, robot);
      if !free {
        return Unplanned(robot, StartReserved);
      }
      var spatial := AStar(start, goal, warehouse, MANHATTAN);
      if spatial.value.NotFound? {
        return Unplanned(robot, SpatiallyUnreachable);
      }
      var hold := EarliestGoalHold(q, goal, reservations, robot, startTime, limit);
      if hold > limit {
        return Unplanned(robot, GoalHeld);
      }
      EarliestHoldExact(q, startTime);
      path := SearchRoute(q, start, goal, reservations, robot, startTime, limit, hold);
    }

    method EarliestGoalHold(ghost q: Query, goal: Position, reservations: ReservationTable, robot: string,
                            startTime: int, horizon: int)
      returns (t: int)
      requires q == Request(q.start, goal, reservations.Contents(), robot, startTime, horizon)
      modifies reservations`queryCount
      ensures t == EarliestHold(q)
    {
      t := horizon;
      while t >= startTime
        invariant EarliestHold(q) == EarliestHold(q.(horizon := t))
        invariant reservations.Contents() == q.claims
        decreases t - startTime
      {
        var owner := reservations.VertexReserver(goal, t);
        if owner.Some? && owner.value != robot {
          return t + 1;
        }
        t := t - 1;
      }
      return startTime;
    }

    /** Offer a state its cost, unless it is already known at least as cheaply. */
    static method Offer(neighbour: State, current: State, tentative: nat, h: nat,
          from: map<State, State>, best: map<State, nat>, open: set<Entry<State>>, tie: nat, ghost P: Problem<State>,
              ghost s: Search<State>)
      returns (from': map<State, State>, best': map<State, nat>, open': set<Entry<State>>, tie': nat)
      requires s == Search(best, from, s.closed, open, tie)
      requires current in best && tentative == best[current] + 1 && h == P.h(neighbour)
      ensures Search(best', from', s.closed, open', tie') == Relax(P, s, current, neighbour)
    {
      from', best', open', tie' := from, best, open, tie;
      if neighbour !in best || tentative < best[neighbour] {
        best' := best[neighbour := tentative];
        from' := from[neighbour := current];
        open' := open + {Entry(tentative + h, h, tie, neighbour)};
        tie' := tie + 1;
      }
    }

    /** The wait and every allowed move from `(cell, t)`. */
    method Expand(ghost q: Query, cell: Position, t: int, goal: Position, reservations: ReservationTable, robot: string,
          startTime: int, from: map<State, State>, best: map<State, nat>, open: set<Entry<State>>, tie: nat,
              ghost s: Search<State>)
      returns (from': map<State, State>, best': map<State, nat>, open': set<Entry<State>>, tie': nat)
      requires q == Request(q.start, goal, reservations.Contents(), robot, startTime, q.horizon)
      requires Searchable(q) && t < q.horizon && q.floor.InBounds(cell)
      requires s == Search(best, from, s.closed, open, tie)
      requires Expanding(TimedProblem(q), s, (cell, t), TimedMoves(q, (cell, t)))
      modifies reservations`queryCount
      ensures Search(best', from', s.closed, open', tie')
               == RelaxAll(TimedProblem(q), s, (cell, t), TimedMoves(q, (cell, t)))
    {
      hide Expanding, RelaxAll, TimedProblem, TimedMoves, AllowedMoves, Tree, Inv, Relax, Floor.Neighbours, Searchable;
      ghost var P := TimedProblem(q);
      var state := (cell, t);
      TimedSearchParts(q);
      TimedMovesAt(q, state);
      ExpandingCost(q, s, state, TimedMoves(q, state));
      from', best', open', tie' := from, best, open, tie;
      var canWait := reservations.IsVertexFree(cell, t + 1, robot);
      ghost var now, todo := s, TimedMoves(q, state);
      if canWait && warehouse.FloorPlan().Traversable(cell) {
        RelaxStep(P, s, state, todo);
        from', best', open', tie' := Offer((cell, t + 1), state, t + 1 - startTime, heuristic(cell, goal), from', best',
            open', tie', P, s);
        now, todo := Relax(P, s, state, todo[0]), todo[1..];
      }
      from', best', open', tie' := OfferMoves(q, cell, t, goal, reservations, robot, startTime, from', best', open',
          tie', now);
    }

    method OfferMoves(ghost q: Query, cell: Position, t: int, goal: Position, reservations: ReservationTable,
            robot: string,
          startTime: int, from: map<State, State>, best: map<State, nat>, open: set<Entry<State>>, tie: nat,
              ghost s: Search<State>)
      returns (from': map<State, State>, best': map<State, nat>, open': set<Entry<State>>, tie': nat)
      requires q == Request(q.start, goal, reservations.Contents(), robot, startTime, q.horizon)
      requires Searchable(q) && q.floor.InBounds(cell)
      requires s == Search(best, from, s.closed, open, tie)
      requires Expanding(TimedProblem(q), s, (cell, t),
               AllowedMoves(q.claims, q.robot, (cell, t), q.floor.Neighbours(cell)))
      modifies reservations`queryCount
      ensures Search(best', from', s.closed, open', tie')
           == RelaxAll(TimedProblem(q), s, (cell, t),
               AllowedMoves(q.claims, q.robot, (cell, t), q.floor.Neighbours(cell)))
    {
      hide Expanding, RelaxAll, TimedProblem, AllowedMoves, Tree, Inv, Relax, Floor.Neighbours, Claims.MoveAllowed,
           Searchable;
      ghost var P := TimedProblem(q);
      var state := (cell, t);
      TimedSearchParts(q);
      from', best', open', tie' := from, best, open, tie;
      var neighbours := warehouse.Neighbours(cell);
      var list := neighbours.value;
      ghost var now, all := s, AllowedMoves(q.claims, robot, state, list);
      ghost var todo := all;
      ExpandingCost(q, s, state, todo);
      assert list[0..] == list;
      for i := 0 to |list|
        invariant now == Search(best', from', s.closed, open', tie')
        invariant todo == AllowedMoves(q.claims, robot, state, list[i..])
        invariant Expanding(P, now, state, todo) && state in now.best && now.best[state] == t - startTime
        invariant RelaxAll(P, now, state, todo) == RelaxAll(P, s, state, all)
        invariant reservations.Contents() == q.claims
      {
        AllowedMovesStep(q.claims, robot, state, list, i);
        var allowed := reservations.IsMoveAllowed(cell, list[i], t, robot);
        if allowed {
          RelaxStep(P, now, state, todo);
          from', best', open', tie' :=
            Offer((list[i], t + 1), state, t + 1 - startTime, heuristic(list[i], goal), from', best', open', tie', P,
                now);
          now, todo := Relax(P, now, state, todo[0]), todo[1..];
        }
      }
      NoMovesLeft(q.claims, robot, state);
      assert list[|list|..] == [];
      ExpansionEnds(P, now, state, todo);
    }

    method SearchRoute(ghost q: Query, start: Position, goal: Position, reservations: ReservationTable, robot: string,
                       startTime: int, horizon: int, earliestHold: int)
      returns (path: TimedPath)
      requires q == Request(start, goal, reservations.Contents(), robot, startTime, horizon)
      requires Searchable(q) && earliestHold == EarliestHold(q)
      modifies reservations`queryCount
      ensures path == SearchedRoute(q)
    {
      hide Inv, Expanding, RelaxAll, Run, Answers, Tree, Optimal, Thrifty, UniqueOrders, Pop, TimedProblem,
           SearchTimed, TimedMoves, EarliestHold;
      ghost var P := TimedProblem(q);
      TimedSearchParts(q);

      var startState := (start, startTime);
      var cameFrom: map<State, State> := map[];
      var bestG: map<State, nat> := map[startState := 0];
      var closed: set<State> := {};
      var tie := 1;
      var frontier := {Entry(heuristic(start, goal), heuristic(start, goal), 0, startState)};
      ghost var s := Search(bestG, cameFrom, closed, frontier, tie);
      assert s == Initial(P);

      while frontier != {}
        invariant s == Search(bestG, cameFrom, closed, frontier, tie)
        invariant Inv(P, s) && Run(P, s) == SearchTimed(q)
        invariant reservations.Contents() == q.claims
        decreases P.space - closed, frontier
      {
        PopStep(P, s);
        var top := Top(frontier);
        frontier := frontier - {top};
        var state := top.state;
        if state in closed {
          s := Pop(P, s);
          continue;
        }
        closed := closed + {state};
        s := Close(s, top);
        if state.0 == goal && state.1 >= earliestHold {
          var chain := Reconstruct(cameFrom, startState, state, P, s);
          return Planned(robot, StepsOf(chain));
        }
        TimedMovesAt(q, state);
        if state.1 >= horizon {
          ExpansionEnds(P, s, state, TimedMoves(q, state));
          continue;
        }
        cameFrom, bestG, frontier, tie := Expand(q, state.0, state.1, goal, reservations, robot, startTime, cameFrom,
            bestG, frontier, tie, s);
        s := RelaxAll(P, s, state, TimedMoves(q, state));
      }
      RunStops(P, s);
      return Unplanned(robot, HorizonExceeded);
    }
  }

  lemma ExpandingCost(q: Query, s: Search<State>, x: State, todo: seq<State>)
    requires Searchable(q) && Expanding(TimedProblem(q), s, x, todo)
    ensures x in s.best && s.best[x] == x.1 - q.startTime
  {
    hide TimedProblem, Optimal, Thrifty, Frontier;
    CostIsElapsedTime(q, s, x);
  }

  lemma NoMovesLeft(c: Claims, robot: string, s: State)
    ensures AllowedMoves(c, robot, s, []) == []
  {
  }
}
