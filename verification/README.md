# Multi-robot warehouse, verified

A Dafny model of a warehouse fleet on a finite four-connected grid, and proofs
about it. The model follows the stack layer by layer:

- **Floor and fleet.** `Floors` (cells, static and dynamic obstacles),
  `Simulation` (robots, tasks and the simulator that owns them).
- **Planning.** `BestFirst` is the theory of the closed-set best-first search
  with stale entries that all three planners share; `SpatialPlanning` is A* and
  Dijkstra, `SpaceTime` is A* over cell and time with waiting.
- **Coordination.** `Reservations` (who has claimed which cell and edge when),
  `Coordinator` (plan one robot, reserve its route, plan the next), `Priorities`
  (what the order is worth), `Totals`, `Conflicts` (the independent checker),
  `TimedPaths`.
- **Execution.** `Driving` (validate a joint step, then commit it), `Execution`
  (the coordinated executor), `RouteDriving` (one robot along one route),
  `EndToEnd` (from coordinator to executor).
- **Allocation.** `Feasibility` (prices, cache, candidate pairs), `Weights` and
  `Allocation` (greedy and the optimiser's model), `AllocationCheck`, `Commit`.
- **Recovery.** `Schedule`, `Replanning`, `Resilience` (what holds at every
  moment), `TaskRecovery`, `Disruptions` (what each event does and keeps),
  `Reroutes` (what a robot gets that is sent another way),
  `Runs` (whole runs: chains of reactions and joint steps), `Recovery` (the
  recovery manager), `TaskHistory` (custody over every history).
- **What is not so.** `Limits` (two runs that recovery does not save),
  `Admissibility` (a heuristic that misleads A*).

Code that changes state is modelled by classes and methods with loops, each
proved against a function or predicate on snapshots of the state; the theorems
are about those. `dafny verify dfyconfig.toml` checks the project.

## The central results

- *Conflict-free by construction* (`Coordinator.PlansAreConflictFree`,
  `Conflicts.CheckIsExact`).
- *Space-time planning is complete and time-optimal*
  (`SpaceTime.PlanIsCompleteAndEarliest`).
- *A\* and Dijkstra agree, and A\* never expands more*
  (`SpatialPlanning.AnswerIsShortest`, `AStarExpandsNoMore`).
- *The conflict checker is exact* (`Conflicts.FindCoordinationProblems`).
- *Conflict-free plans are driven to the end* (`EndToEnd.PlanAndDrive`): the run
  happens, succeeds, and every planned robot ends on its goal.
- *Every moment of a resilient run is sound*. `Recovery.RecoveryManager.Run` ties
  a run to its plan and its schedule: it begins exactly when it may, and is a
  chain of reactions and joint steps that follows the schedule. About every such
  chain: remaining routes are well-formed, on free cells, off failed robots' cells
  and pairwise free of vertex, swap and goal-hold conflicts, and what was driven
  never met (`Runs.ChainKeeps`); no vertex or edge conflict is ever counted
  (`Runs.EveryRunIsSafe`); and while every recovery succeeds and whoever fails
  stands alone - as robots of the plan always do - nothing raises and only an
  empty battery stops the run (`Runs.CalmRunGoesOn`, `Runs.PlannedRunGoesOn`).
- *An undisturbed or recovered run gets home*. With room for its horizon a run
  that is not stopped ends with every robot of the plan on its planned goal, but
  for those that failed, had to stop or took over a task (`Runs.UnstoppedRun`).
- *Priority is honoured, and nothing is given away*: each robot gets the earliest
  of all routes that fit in with those planned before it
  (`Priorities.EachTakesTheEarliest`); a robot sent another way has to stop only
  where no route fits, and otherwise gets the earliest that does
  (`Reroutes.EachGetsTheEarliestWayOn`); each task gets the cheapest robot that
  more urgent ones left (`Allocation.UrgentTasksFirst`); the task of a failed robot
  goes to the cheapest of the whole fleet (`TaskRecovery.BestSpareIsCheapest`).
- *Task custody over every history* (`TaskHistory.CustodyAlways`).
- *Lexicographic weights, greedy against optimum*
  (`Weights.WeightsAreLexicographic`, `Commit.GreedyAgainstOptimum`).

## Where the code does less than it says

Each of these is in the model as the code has it, with the exact condition.

- A robot that stops for safety is not kept out of the others' way: while its
  batch is replanned it is not in the table, and later its cell may lie on another
  robot's route, so that the next table cannot be built. With routes in time
  building a table raises exactly when two of its routes meet or a failed robot is
  in the way (`Recovery.RecoveryManager.FutureTable`). `Limits.SafeStopBreaksTheRun`
  is a run broken off in its first timestep.
- A robot that has already arrived is not replanned when a robot fails on its
  cell. With recovery on, that is the one way, besides an empty battery, in which a
  joint step is refused, and the refusal is exact (`Runs.StepIsTakenExactly`). It
  needs a failing robot outside the plan, or one stopped for safety;
  `Limits.ParkedOnAFailedRobot` is such a run, and its recovery reports success.
  A failure keeps everybody out of the way exactly when the robot stands alone
  (`Resilience.ParkedClearAfterFailure`); two failed robots on one cell refuse no
  joint step, but no table can pin them both.
- A failed robot's cell is claimed under the name `__failed__` + id. A robot of
  that very name would not be kept off it, so the run assumes that no robot is
  called so.
- A spare may be a robot that has stopped for safety but never moved; it is given
  the task and a route but stays excluded from driving (`Resilience.Joined` keeps
  it in `safeStopped`).
- The independent conflict checker is documented to report structural problems,
  but raises an index error on a route without steps and on one that spans more
  time than it has steps (`Conflicts.Overruns`, `Conflicts.GapsCrashTheCheck`).
- Admissibility is documented to guarantee a shortest route. A cell is closed the
  first time it is popped, so an injected heuristic also has to be consistent:
  `Admissibility.AdmissibleIsNotEnough` is an admissible one that makes A* take
  seven moves where five are enough. Both heuristics of the repository are
  consistent, and with any consistent one the answer is shortest
  (`SpatialPlanning.AnswerIsShortest`).
- Removing a static obstacle clears its grid cell even when a second one stands
  there (`Floors.Warehouse.RemoveStaticObstacle`). `validate_move` asks the
  obstacles and not the grid; `Floors.Warehouse.ObstacleMap` is what it sees.
- Planning with a horizon before the start time reports a held goal
  (`SpaceTime.FailureReasons`).
- The duplicate check on a priority order is unreachable: an order that passes
  the permutation test has no duplicate.
- A remaining route of one step is never reported as blocked
  (`Replanning.RemainingPathProblem`).
- Applying an allocation is all-or-nothing exactly when it names no robot and no
  task twice (`Commit.CommitAllocation`).

## Model

| member | source | states |
|---|---|---|
| Floors.NeighboursExact | robotics/warehouse/grid.py:178-195 | the neighbour list holds exactly the traversable cells one orthogonal step away |
| Floors.Warehouse.Neighbours | robotics/warehouse/warehouse.py:327-338 | out of bounds raises; otherwise the loop yields that list |
| Floors.Warehouse.AddStaticObstacle | robotics/warehouse/warehouse.py:189-219 | accepted exactly for a cell on the floor without a functional role, under an unused name; grid and walls go on agreeing, and no functional cell gets a wall |
| Floors.Warehouse.MarkLocation | robotics/warehouse/warehouse.py:116-137 | a role is given exactly to a cell on the floor, a functional one only where no wall stands; all other roles stay |
| Floors.Warehouse.RemoveStaticObstacle | robotics/warehouse/warehouse.py:221-232 | the cell is cleared in the grid; where grid and walls agreed before they agree afterwards if and only if no other wall stood on the same cell |
| Floors.Warehouse.AddDynamicObstacle | robotics/warehouse/warehouse.py:247-277 | accepted exactly for a cell on the floor without a wall under an unused name, and then blocks just that cell |
| BestFirst.TopBound | robotics/planning/astar.py:180-216 | whatever is not finalised yet cannot be reached more cheaply than the popped entry promises, stale entries included |
| BestFirst.RunAnswers | robotics/planning/astar.py:180-216 | the pop-close-relax loop terminates having reached a goal at least cost, or having finalised everything reachable |
| BestFirst.Reconstruct | robotics/planning/path_result.py:168-210 | following predecessors and reversing gives the tree walk to the goal |
| SpatialPlanning.SpatialConsistent | robotics/planning/heuristics.py:40-54 | with a consistent heuristic (Manhattan and zero are) one step lowers the estimate by at most its cost |
| SpatialPlanning.CheckPlanningRequest | robotics/planning/validation.py:36-80 | out of bounds raises; a blocked end is an answer, start before goal |
| SpatialPlanning.AStar | robotics/planning/astar.py:102-225 | the imperative A* loop, stale entries and tie-breaks included, returns the answer that AnswerIsShortest, AnswerReasons and ExpansionsCounted describe |
| SpatialPlanning.Dijkstra | robotics/planning/dijkstra.py:52-172 | the imperative Dijkstra loop returns that answer for the zero heuristic |
| SpatialPlanning.AnswerIsShortest | robotics/planning/astar.py:162-225 | total correctness: a route is found exactly when one exists, it is shortest, and the cost is its number of moves |
| SpatialPlanning.AnswerReasons | robotics/planning/validation.py:36-80 | for every request: raises exactly off the floor; otherwise the reason for having no route is the blocked start, else the blocked goal, else that there is none |
| SpatialPlanning.ClosedIsReached | robotics/planning/astar.py:180-216 | what is finalised can be reached; without a route it is everything that can be; with one it includes the whole route |
| SpatialPlanning.ExpansionsCounted | robotics/planning/astar.py:185-223 | between different free ends the reported count is, without a route, the number of cells that can be reached, and with one at least the length of the path and at most that number |
| SpatialPlanning.SearchIsShortest | robotics/planning/dijkstra.py:105-172 | the same of the search alone, and of the predecessor tree it leaves |
| SpatialPlanning.FinalisedSubset | robotics/planning/astar.py:180-216 | every cell A* finalises is finalised by Dijkstra; the sets are equal when the goal is unreachable |
| SpatialPlanning.AStarExpandsNoMore | robotics/planning/dijkstra.py:125-161 | A* and Dijkstra agree on success and cost, and A* never reports more expanded cells; what each reports is the size of the set it finalised |
| Admissibility.AdmissibleIsNotEnough | robotics/planning/heuristics.py:40-52 | counterexample: with an admissible heuristic that is not consistent the search pops the goal at cost seven where five moves are enough |
| TimedPaths.MovesAndWaits | robotics/coordination/timed_path.py:101-121 | moves plus waits are the makespan, one per timestep |
| TimedPaths.ApartFromHorizon | robotics/coordination/timed_path.py:123-136 | routes that keep apart up to a horizon both arrive by keep apart for good, because a robot stays on its goal |
| TimedPaths.AtDrivable | robotics/coordination/timed_path.py:123-136 | every timestep of a drivable route, before departure and after arrival too, is a move or a wait on free cells |
| Reservations.ReservationTable.ReserveVertex | robotics/coordination/reservation_table.py:57-71 | claims the cell unless it is another robot's; then nothing changes |
| Reservations.ReservationTable.ReserveEdge | robotics/coordination/reservation_table.py:73-84 | claims the edge unless it is another robot's |
| Reservations.ReservationTable.ReserveTimedPath | robotics/coordination/reservation_table.py:86-115 | raises exactly for an unsuccessful or empty path or a key of another robot; otherwise adds the route, its moves and its goal hold; never touches other claims |
| Reservations.ReservationTable.BlockCell | robotics/coordination/reservation_table.py:193-206 | claims a cell over a range, or raises at the first foreign claim |
| Reservations.ReservationTable.VertexReserver | robotics/coordination/reservation_table.py:120-123 | the owner of a cell; only the query counter changes |
| Reservations.ReservationTable.IsSwapConflict | robotics/coordination/reservation_table.py:139-148 | another robot has claimed the opposite edge |
| Reservations.ReservationTable.IsMoveAllowed | robotics/coordination/reservation_table.py:150-166 | the target is free one step later and no swap results |
| Reservations.ReservationTable.ReleaseRobot | robotics/coordination/reservation_table.py:177-191 | removes exactly the robot's claims and counts them |
| Reservations.VertexKeysAt | robotics/coordination/reservation_table.py:86-115 | a route claims one cell per timestep, where the robot then is, through the horizon |
| Reservations.ReservedIsHeld | robotics/coordination/reservation_table.py:86-115 | a reserved route is wholly in the table, and edge owners still own both ends |
| Reservations.StillHeld | robotics/coordination/reservation_table.py:86-115 | reserving for one robot disturbs nothing another one holds |
| Reservations.RouteReservationCount | robotics/recovery/recovery_manager.py:695-708 | a route makes steps + moves + goal-hold reservations |
| Reservations.ReserveReleaseRoundTrip | robotics/coordination/reservation_table.py:177-191 | reserve then release restores the table, releasing steps + moves + goal hold |
| SpaceTime.EarliestHoldExact | robotics/coordination/space_time_planner.py:141-158 | arriving at t is legal exactly from the scanned time on, for every t up to the horizon |
| SpaceTime.TimedMovesExact | robotics/coordination/space_time_planner.py:196-215 | the successors are exactly the legal waits and moves |
| SpaceTime.LegalStepsAreRoute | robotics/coordination/space_time_planner.py:161-217 | a search walk that may park is a legal route |
| SpaceTime.RouteIsLegalSteps | robotics/coordination/space_time_planner.py:161-217 | every legal route is such a walk |
| SpaceTime.PlanIsCompleteAndEarliest | robotics/coordination/space_time_planner.py:106-138 | planning succeeds exactly when some wait/move route respecting the table arrives by the horizon with the goal free from then on; the route is legal and none arrives earlier |
| SpaceTime.FailureReasons | robotics/coordination/space_time_planner.py:109-138 | what each of the eight failure reasons means for the request, both directions, for every request |
| SpaceTime.UnreservedPlanIsSpatial | robotics/coordination/space_time_planner.py:121-138 | around an empty table, when the horizon admits the grid distance, the route has no wait and arrives after exactly the A* cost |
| SpaceTime.RouteProjects | robotics/coordination/space_time_planner.py:121-127 | why the spatial pre-check is sound: dropping the waits of a timed route leaves a grid route with one cell per move |
| SpaceTime.SpaceTimePlanner.PlanRoute | robotics/coordination/space_time_planner.py:80-138 | the imperative planner returns the specified plan and changes only the query counter |
| SpaceTime.SpaceTimePlanner.EarliestGoalHold | robotics/coordination/space_time_planner.py:141-158 | the backward scan computes the specified time |
| SpaceTime.SpaceTimePlanner.Offer | robotics/coordination/space_time_planner.py:219-237 | one relaxation of the search |
| SpaceTime.SpaceTimePlanner.Expand | robotics/coordination/space_time_planner.py:199-215 | the wait and all allowed moves are offered |
| SpaceTime.SpaceTimePlanner.SearchRoute | robotics/coordination/space_time_planner.py:161-217 | the frontier loop runs the specified search |
| Conflicts.FindCoordinationProblems | robotics/coordination/conflicts.py:45-170 | crashes exactly on a route that has no steps or spans more time than it has steps; with distinct ids the list is empty exactly when every route is sound and no two ever meet or swap; whatever is listed is true of the robots, cells and times it names, and every fault of a single route is listed |
| Conflicts.OverrunIsIndexError | robotics/coordination/timed_path.py:123-136 | a lookup by time offset runs past the end at some inspected time exactly when arrival minus start exceeds the number of steps |
| Conflicts.GapsCrashTheCheck | robotics/coordination/conflicts.py:121-134 | counterexample: a route that leaves out three timesteps crashes the check, one that leaves out one does not |
| Conflicts.CheckIsExact | robotics/coordination/conflicts.py:117-168 | the per-timestep scans over the finite range decide safety for all time, and the goal check follows from the vertex check |
| Conflicts.ApartKeepsGoal | robotics/coordination/conflicts.py:153-168 | routes that never share a cell keep off each other's goals |
| Conflicts.RouteProblems | robotics/coordination/conflicts.py:73-115 | the per-route section lists exactly the faults of the route, so it is empty exactly for a sound one |
| Conflicts.VertexProblemsAt | robotics/coordination/conflicts.py:121-134 | although the dictionary keeps one robot per cell, a timestep is clean exactly when no two routes share a cell |
| Conflicts.SwapProblemsAt | robotics/coordination/conflicts.py:136-151 | although moves overwrite each other in the dictionary, a timestep is clean exactly when its recorded moves contain no trade |
| Conflicts.SafeHasNoConflict | robotics/coordination/conflicts.py:121-151 | routes that never meet leave every dictionary scan clean |
| Coordinator.MultiRobotCoordinator.ValidateRequest | robotics/coordination/coordinator.py:161-194 | rejects exactly: no robots, differing ids, a shared start, an order that is no permutation |
| Coordinator.MultiRobotCoordinator.PlanFleet | robotics/coordination/coordinator.py:74-144 | a well-formed request is planned in the order the caller gave, or else by name, with the given horizon, or else twice the span of the floor and four steps a robot |
| Names.BeforeIsDictionaryOrder | robotics/coordination/coordinator.py:110 | the order of names is dictionary order: the first difference, or the end of the shorter one, decides |
| Coordinator.MultiRobotCoordinator.PlanInOrder | robotics/coordination/coordinator.py:114-135 | the plan-then-reserve loop; reserving a found path never raises |
| Coordinator.LegalRouteApart | robotics/coordination/coordinator.py:118-130 | a route planned around the table keeps clear for good of every route the table holds |
| Coordinator.LegalRouteGranted | robotics/coordination/coordinator.py:118-130 | such a route can always be reserved |
| Coordinator.NextRobotSafe | robotics/coordination/coordinator.py:114-135 | one more robot keeps the plan conflict-free and the table holding it |
| Coordinator.PlanAllSafe | robotics/coordination/coordinator.py:114-135 | after the pass all successful paths are legal and pairwise apart, and the table holds them |
| Coordinator.PlansAreConflictFree | robotics/coordination/coordinator.py:7-8 | conflict-free by construction: for all floors, starts, goals, orders and horizons the independent checker, with starts and obstacles, finds nothing |
| Coordinator.EarlierUnaffected | robotics/coordination/coordinator.py:118-135 | the first k paths do not depend on later robots |
| Priorities.TableIsRoutes | robotics/coordination/coordinator.py:114-135 | during a pass the table holds the routes planned so far and nothing else |
| Priorities.FittingIsLegal | robotics/coordination/coordinator.py:118-131 | for the robot planned next the table allows exactly the routes that never meet, or trade places with, those planned before it |
| Priorities.EachTakesTheEarliest | robotics/coordination/coordinator.py:110-135 | each robot, in priority order, gets a route exactly when one fits in with those before it, and then none that fits in arrives earlier; no table in the statement |
| Priorities.FirstGoesStraight | robotics/coordination/coordinator.py:110-126 | the first robot in priority order takes a shortest route without a wait, exactly when the horizon admits it |
| Coordinator.FailureIsolation | robotics/coordination/coordinator.py:118-135 | deleting the robots that failed leaves the table and every successful path unchanged |
| Coordinator.CostIsMovesAndWaits | robotics/coordination/coordination_result.py:84-124 | the space-time cost is moves plus waits |
| Totals.TotalsAreCounts | robotics/coordination/coordination_result.py:97-101 | total moves and waits are the numbers of steps at which some route moves or waits; the planned count and the makespan, attained by some route, likewise |
| Simulation.Robot.MoveTo | robotics/robots/robot.py:128-166 | refused exactly off-adjacent or without charge; otherwise position, odometer and battery change by one move |
| Simulation.Robot.AssignTask | robotics/robots/robot.py:247-260 | accepted exactly when available |
| Simulation.Robot.ClearTask | robotics/robots/robot.py:262-265 | back to idle without a task |
| Simulation.Robot.SetStatus | robotics/robots/robot.py:233-245 | only the status changes |
| Simulation.Task.TransitionTo | robotics/tasks/task.py:82-89 | exactly the allowed lifecycle changes, listed outright |
| Simulation.Task.AssignTo | robotics/tasks/task.py:153-156 | only a pending task is assigned |
| Simulation.Task.Unassign | robotics/tasks/task.py:158-161 | only an assigned task is queued again |
| Simulation.Task.Start | robotics/tasks/task.py:163-169 | only an assigned task with a robot starts |
| Simulation.Task.Complete | robotics/tasks/task.py:171-173 | only a task in progress completes |
| Simulation.Task.Fail | robotics/tasks/task.py:175-178 | any open task fails, and keeps its robot's name |
| Simulation.Simulator.AddRobot | robotics/simulation/simulator.py:90-121 | accepted exactly with a new name on a free traversable cell |
| Simulation.Simulator.AddTask | robotics/simulation/simulator.py:291-322 | accepted exactly with a new name and both ends on the floor off walls |
| Simulation.Simulator.RobotAt | robotics/simulation/simulator.py:147-163 | finds a robot on the cell exactly when there is one |
| Simulation.Simulator.ValidateMove | robotics/simulation/simulator.py:172-232 | accepts exactly the legal single steps |
| Simulation.Simulator.MoveRobot | robotics/simulation/simulator.py:234-260 | one legal step, or nothing changes |
| Simulation.Simulator.AddDynamicObstacle | robotics/simulation/simulator.py:374-392 | accepted exactly where no robot stands and the warehouse accepts it; then just that cell is blocked and that name is taken |
| Simulation.Simulator.AssignTaskManually | robotics/simulation/simulator.py:324-361 | accepted exactly for a pending task and an available robot that can carry it; links both ways |
| Simulation.Simulator.RemoveRobot | robotics/simulation/simulator.py:123-145 | removes the robot and releases its task, or changes nothing |
| Simulation.OneHolder | robotics/simulation/simulator.py:356-361 | under custody a live task has exactly one holder |
| Simulation.AssignKeepsCustody | robotics/simulation/simulator.py:324-361 | assigning keeps custody |
| Simulation.RemoveKeepsCustody | robotics/simulation/simulator.py:123-145 | removal is never refused under custody, and keeps it; an assigned task is queued again, one begun has failed, everything else stays |
| Simulation.ProgressKeepsCustody | robotics/tasks/task.py:82-88 | starting, completing and failing keep custody |
| Driving.ValidateJointStep | robotics/coordination/coordinated_executor.py:338-422 | accepts exactly the joint steps in which everybody may step, nobody enters a failed robot's cell, and no two want one cell or trade; a refusal names a true reason |
| Driving.CommitMoves | robotics/coordination/coordinated_executor.py:248-261 | after validation no move is refused, and exactly the movers move |
| Driving.JointStep | robotics/coordination/coordinated_executor.py:240-263 | validate-then-commit: the step is taken whole or not at all |
| Driving.NoClashReason | robotics/coordination/coordinated_executor.py:338-422 | pairwise separate intents are never refused for a vertex or edge conflict |
| Execution.CoordinatedExecutor.Execute | robotics/coordination/coordinated_executor.py:147-212 | runs exactly the plans that pass the check with their robots online at their starts, as specified and with the trace checked; raises exactly on an overrunning route; otherwise nothing moves |
| Execution.SafeIsClean | robotics/coordination/coordinated_executor.py:147-160 | the list the pre-flight check walks is safe exactly when, robot by robot, every route is timed, stepwise and on the floor and no two ever meet or swap |
| Execution.Makespan | robotics/coordination/coordinated_executor.py:217 | the latest arrival, attained by some robot |
| Execution.CoordinatedExecutor.Drive | robotics/coordination/coordinated_executor.py:237-263 | as many joint steps as reported, each of them allowed; stops at the first that is not, never for a conflict |
| Execution.CoordinatedExecutor.OneTimestep | robotics/coordination/coordinated_executor.py:237-263 | a refused timestep changes neither robots nor records |
| Execution.RobotAfter | robotics/coordination/coordinated_executor.py:248-261 | after n timesteps a robot stands where its route says; odometer and battery changed by exactly its moves |
| Execution.OthersAfter | robotics/coordination/coordinated_executor.py:161-162 | robots outside the plan are untouched |
| Execution.NeverClashes | robotics/coordination/coordinated_executor.py:338-422 | in a checked plan no joint step has a vertex or edge conflict |
| Execution.EveryStepOk | robotics/coordination/coordinated_executor.py:240-246 | with charge and an unchanged floor every joint step of a checked plan is accepted |
| Execution.MovesByPrefix | robotics/coordination/coordinated_executor.py:252-260 | counted moves and waits are those of the driven prefix, and the planned totals at the end |
| Execution.DrivenTraceIsSafe | robotics/coordination/coordinated_executor.py:293-299 | what was driven passes the independent check |
| Execution.CoordinatedRunCompletes | robotics/coordination/coordinated_executor.py:215-324 | a ready, checked plan runs to the end: everybody on its goal, counts as planned, charge spent as planned, clean final check |
| EndToEnd.CoordinatedPlanIsReady | robotics/coordination/coordinator.py:118-135 | what the coordinator returns is a plan both executors can take up |
| EndToEnd.CoordinatedPlansComplete | robotics/coordination/coordinated_executor.py:215-324 | a run of a coordinated plan brings every planned robot to its requested goal after its planned moves and waits |
| EndToEnd.PlanAndDrive | robotics/coordination/coordinated_executor.py:147-212 | planning and then executing: for every well-formed request, with the fleet where it says and charged, the run happens, succeeds and delivers every planned robot to its goal |
| Feasibility.GridCostIsDistance | robotics/allocation/cost_estimator.py:87-98 | a price is the length of a shortest route, and absent exactly when there is no route |
| Feasibility.CostEstimator.PathCost | robotics/allocation/cost_estimator.py:87-98 | the cache always agrees with true distances; the planner runs just on a miss |
| Feasibility.CostEstimator.Estimate | robotics/allocation/cost_estimator.py:103-122 | a price exists exactly when both legs can be walked, and is the distance to the pickup and from there to the drop-off |
| Feasibility.PriceIsDistances | robotics/allocation/cost_estimator.py:110-122 | the same for every floor and every three cells |
| Feasibility.ChargeLasts | robotics/allocation/feasibility.py:61-80 | the battery test is that so many moves do not use up the charge |
| Feasibility.CandidatesCanDo | robotics/allocation/feasibility.py:83-122 | the list holds exactly the pairings that can be done - load carried, both legs at their true distance, charge for them - at that price |
| Feasibility.CandidatesDistinct | robotics/allocation/feasibility.py:83-122 | with unique ids no robot and task are paired twice |
| Feasibility.BuildCandidatePairs | robotics/allocation/feasibility.py:95-122 | every eligible robot with every pending task is a candidate or counted infeasible; raises exactly when some pairing cannot be priced |
| Feasibility.UnpriceableExactly | robotics/allocation/cost_estimator.py:103-122 | pricing raises exactly for a robot or pickup off the floor, or a dropoff off the floor behind a reachable pickup |
| Feasibility.EligibleExact | robotics/allocation/feasibility.py:42-46 | exactly the available robots, each as often as listed, in order of their names |
| Feasibility.PendingExact | robotics/allocation/feasibility.py:49-58 | exactly the pending tasks, each as often as listed, by falling priority and then by name |
| Sorting.SortAscends | robotics/allocation/feasibility.py:49-58 | the sort by a key order is ascending |
| Weights.WeightsAreLexicographic | robotics/allocation/cp_sat_allocator.py:144-166 | comparing the weighted sums of any two selections is comparing count up, cost down, creation indices down |
| Weights.EffectiveBelowReward | robotics/allocation/cp_sat_allocator.py:144-163 | no selection costs as much as the reward for one assignment |
| Weights.IndicesSmall | robotics/allocation/cp_sat_allocator.py:141-148 | creation indices never add up to the scale |
| Weights.OptimalIsLexicographicallyBest | robotics/allocation/cp_sat_allocator.py:160-166 | an optimum has as many assignments as any matching, and at equal count no higher cost |
| Weights.MaximalIsHalfOfAny | robotics/allocation/greedy_allocator.py:76-92 | a maximal matching is at least half as large as any matching |
| Allocation.PickIsCheapestFree | robotics/allocation/greedy_allocator.py:70-92 | a task gets the cheapest free robot, ties by name, and none only if none is free |
| Allocation.EachTaskTakesTheCheapestLeft | robotics/allocation/greedy_allocator.py:79-92 | in the order of the list a task gets a robot exactly when a candidate was left by the tasks before it, and then a cheapest one, the first name among equals |
| Allocation.UrgentTasksFirst | robotics/allocation/greedy_allocator.py:65-92 | the same of the whole allocator in terms of robots, tasks and distances: by urgency, each task takes the cheapest available robot that can do it and was left |
| Allocation.GreedyIsMaximalMatching | robotics/allocation/greedy_allocator.py:76-92 | the greedy choice is a matching to which no candidate can be added |
| Allocation.GreedyIsAtLeastHalf | robotics/allocation/greedy_allocator.py:76-92 | twice its size is at least that of any matching of the candidates |
| Allocation.OptimalBeatsGreedy | robotics/allocation/cp_sat_allocator.py:160-166 | an optimal solution assigns at least as many, and at equal count costs no more |
| Allocation.GreedyAllocator.Allocate | robotics/allocation/greedy_allocator.py:59-105 | the nested loops return the greedy choice with derived totals, changing neither robots nor tasks; raises exactly when some pairing cannot be priced |
| Allocation.ModelAdmitsMatchings | robotics/allocation/cp_sat_allocator.py:150-158 | the at-most-one constraints admit exactly the matchings |
| Allocation.ModelMeansOptimal | robotics/allocation/cp_sat_allocator.py:144-166 | maximising the built model is maximising the objective over all matchings |
| Allocation.BuildModel | robotics/allocation/cp_sat_allocator.py:131-166 | the loops build that model |
| Allocation.SelectedIsMatching | robotics/allocation/cp_sat_allocator.py:191-203 | reading a matching back gives distinct robots and tasks, its size and its cost |
| Allocation.CpSatAllocator.Allocate | robotics/allocation/cp_sat_allocator.py:110-215 | success and optimality are the solver's own answer on the model of the candidates, and given without asking when there are none; a success is a matching, maximal in the objective if optimal; a failure assigns nothing |
| Commit.CommitAllocation | robotics/allocation/commit.py:68-105 | all or nothing: a refusal changes nothing, and after the dry run no assignment raises exactly when no robot and no task is named twice |
| Commit.CommitKeepsCustody | robotics/allocation/commit.py:99-105 | a committed list keeps custody |
| Commit.FreshResultCommits | robotics/allocation/commit.py:85-105 | a fresh result on an unchanged world is committed whole |
| Commit.GreedyAgainstOptimum | robotics/allocation/cp_sat_allocator.py:110-215 | on the same robots and tasks: greedy is at least half of any matching, an optimum never has fewer, and at equal count is no dearer |
| AllocationCheck.FindAllocationProblems | robotics/allocation/validation.py:29-141 | the checker is exact: it lists just the problems there are, none exactly for an allocation in order; raises exactly on an assignment that cannot be priced |
| AllocationCheck.OkCanDo | robotics/allocation/validation.py:75-120 | an assignment in order is one that an available robot can do for a pending task, at its true price |
| AllocationCheck.GreedyPassesCheck | robotics/allocation/greedy_allocator.py:59-105 | every greedy result passes the independent check |
| AllocationCheck.SolverResultPassesCheck | robotics/allocation/cp_sat_allocator.py:191-215 | every matching the solver may return passes it |
| AllocationCheck.MatchingPassesCheck | robotics/allocation/allocation_result.py:121-153 | any matching, reported with derived totals, passes: legs, eligibility, totals, assigned + unassigned = pending |
| Replanning.RemainingAgrees | robotics/recovery/dynamic_replanner.py:64-65 | the rest of a route stands where the whole route does |
| Replanning.TouchesExact | robotics/recovery/dynamic_replanner.py:135-142 | a route touches a cell exactly when it stands there at some time up to its arrival |
| Replanning.SpliceJoins | robotics/recovery/dynamic_replanner.py:148-162 | history and new route join without a gap into one route |
| Replanning.BuildFutureReservations | robotics/recovery/dynamic_replanner.py:43-83 | the table holds exactly the remaining routes; it raises only if two of them meet |
| Replanning.TableMeansClear | robotics/recovery/dynamic_replanner.py:43-83 | and a table that was built proves that no two meet and failed cells are avoided |
| Replanning.RemainingCountIsBooked | robotics/recovery/recovery_manager.py:695-708 | the reported count is exactly what is booked for a robot that has not arrived |
| Replanning.RemainingPathProblem | robotics/recovery/dynamic_replanner.py:89-132 | reports nothing exactly for a planned path of which at most one step is left or all of the rest is free and unclaimed |
| Replanning.PinFailed | robotics/recovery/recovery_manager.py:687-692 | every failed robot's cell is claimed to the horizon, unless a route in the table or another failed robot is there |
| Schedule.EventsAt | robotics/recovery/disruption.py:110-112 | exactly the events of that timestep |
| Schedule.EventsInOrder | robotics/recovery/disruption.py:97-112 | they come failures first, by name, then obstacles, by row and column, each as often as it is scheduled |
| Schedule.LastTimestep | robotics/recovery/disruption.py:114-116 | the one timestep that is the latest of the schedule, 0 without events |
| Resilience.RerouteOne | robotics/recovery/recovery_manager.py:501-536 | replanning one robot keeps the run sound whatever the planner answers, the table keeps guarding it, and reserving never clashes |
| Resilience.NewRouteOffPins | robotics/recovery/recovery_manager.py:687-692 | a new route keeps off every failed robot's cell |
| Resilience.BatchSound | robotics/recovery/recovery_manager.py:499-536 | so does a whole batch, one robot after the other |
| Resilience.BatchKeepsClear | robotics/recovery/recovery_manager.py:499-536 | a batch keeps every remaining step off failed robots' cells |
| Resilience.StopAllSound | robotics/recovery/recovery_manager.py:255-268 | with recovery off the affected robots stop and the run stays sound |
| Resilience.ObstacleSparesOthers | robotics/recovery/recovery_manager.py:711-720 | a new obstacle spoils exactly the routes found to touch it |
| Resilience.TouchingExact | robotics/recovery/recovery_manager.py:711-720 | exactly the robots still under way that will stand on the cell, from now up to their arrival |
| Resilience.FailureKeepsSound | robotics/recovery/recovery_manager.py:300-307 | a robot going offline leaves everybody else's routes good and apart |
| Resilience.ParkedClearAfterFailure | robotics/recovery/recovery_manager.py:296-303 | a failed robot is in nobody's way if and only if no arrived robot and no other failed robot stands on its cell |
| Resilience.CoordinatedRobotStandsAlone | robotics/recovery/recovery_manager.py:296-303 | which always holds when the failing robot is under way or has failed before |
| Resilience.JoinKeepsSound | robotics/recovery/recovery_manager.py:424-464 | a spare with a legal route joins a sound run |
| Resilience.FutureTableBuilds | robotics/recovery/recovery_manager.py:659-692 | while nobody has stopped for safety and failed robots are in nobody's way, the table can be built |
| Resilience.StepKeepsSound | robotics/recovery/recovery_manager.py:628-638 | a committed joint step keeps the run sound and the records exact |
| Resilience.StepKeepsClear | robotics/recovery/recovery_manager.py:628-638 | and everybody off failed robots' cells |
| Resilience.OnlyReasonsToStop | robotics/recovery/recovery_manager.py:582-626 | a joint step of a sound run is refused only for a low battery or a failed robot in the way, never for a vertex or edge conflict |
| Resilience.StepAcceptedExactly | robotics/recovery/recovery_manager.py:582-626 | while routes keep off failed cells a joint step is accepted if and only if everybody who moves has the charge and nobody has arrived on a failed robot's cell |
| Resilience.StepKeepsTraces | robotics/recovery/recovery_manager.py:628-638 | what any two robots under way have driven never met or swapped |
| Resilience.ArrivedIsAtGoal | robotics/recovery/recovery_manager.py:650-657 | past the horizon everybody under way is on its goal |
| TaskRecovery.ReleaseFailedTask | robotics/recovery/recovery_manager.py:375-402 | an assigned task is queued again and offered, one begun fails, nothing else is offered, and the robot ends offline |
| TaskRecovery.ReleaseKeepsCustody | robotics/recovery/recovery_manager.py:390-402 | custody is kept and the failed robot has no live task |
| TaskRecovery.OfferTask | robotics/recovery/recovery_manager.py:408-425 | the task goes to the first choice of the fleet, committed without fail, and stays queued only when nobody can take over |
| TaskRecovery.SparesExact | robotics/recovery/recovery_manager.py:411-414 | the robots asked are all that are available and have not failed, and no others |
| TaskRecovery.BestSpareIsCheapest | robotics/recovery/recovery_manager.py:410-416 | of the whole fleet: no spare exactly when no idle robot that has not failed can do the task; otherwise the one spare that nobody else who can is cheaper than, ties by name |
| Disruptions.TaskFindsRobot | robotics/recovery/recovery_manager.py:370-478 | a task assigned to the failed robot finds a new one exactly when the first choice of the fleet can be routed to the pickup; any other finds none |
| Reroutes.SpareKeepsTaskIfItFits | robotics/recovery/recovery_manager.py:427-466 | which is exactly when a route to the pickup fits around the routes of the others and off failed robots' cells |
| Recovery.RecoveryManager.FutureTable | robotics/recovery/recovery_manager.py:659-692 | builds the table of everybody else's routes around pinned failed robots; with routes in time it raises exactly when two meet or a failed robot is in the way |
| Recovery.RecoveryManager.ReplanAffected | robotics/recovery/recovery_manager.py:481-546 | the batch runs as specified; success means nobody stopped |
| Reroutes.LegalIsFitting | robotics/recovery/dynamic_replanner.py:175-205 | around a table of remaining routes the planner may use exactly the routes that keep off those routes and off failed robots' cells |
| Reroutes.EachGetsTheEarliestWayOn | robotics/recovery/recovery_manager.py:481-546 | robots sent another way take turns by name: each stops exactly when no route fits around the others, and otherwise goes on along one than which none that fits arrives earlier |
| Reroutes.ObstacleSendsAround | robotics/recovery/recovery_manager.py:231-277 | a new obstacle sends the robots it hits another way in such a batch |
| Reroutes.FailureSendsAround | robotics/recovery/recovery_manager.py:327-338 | a failed robot sends those whose route leads through its cell another way in such a batch |
| Recovery.RecoveryManager.RecoverObstacle | robotics/recovery/recovery_manager.py:231-277 | placed exactly where it may appear; the robots under way whose route uses the cell are replanned around everybody else, or stopped; success exactly when nobody stopped; raises only over a table that cannot be built |
| Recovery.RecoveryManager.RecoverTask | robotics/recovery/recovery_manager.py:370-478 | what becomes of the task and of the spare; raises only when the table the best spare is routed around cannot be built |
| Recovery.RecoveryManager.RouteSpare | robotics/recovery/recovery_manager.py:424-464 | a routed spare joins; one that cannot be routed hands the task back |
| Disruptions.SpareRouteUndone | robotics/recovery/recovery_manager.py:456-462 | handing back leaves robots and tasks exactly as before the offer |
| Recovery.RecoveryManager.RecoverFailure | robotics/recovery/recovery_manager.py:280-367 | offline, task, routes through the cell, in this order; success exactly when recovery is on, nobody stopped and an offered task was taken; raises only over a table that cannot be built |
| Recovery.RecoveryManager.ScoreRecovery | robotics/recovery/recovery_manager.py:549-570 | the independent check after a recovery never crashes and finds nothing |
| Disruptions.RemainingPlanIsSafe | robotics/recovery/recovery_manager.py:549-570 | because what is left of a sound run is a safe plan |
| Disruptions.ReplannedKeepsGoing | robotics/recovery/recovery_manager.py:481-546 | a batch of replans leaves a sound run, and touches nobody else |
| Disruptions.ObstacleKeepsGoing | robotics/recovery/recovery_manager.py:231-277 | an obstacle event keeps the run sound; if all replans succeed nobody has stopped and nobody is in the way |
| Disruptions.FailureKeepsGoing | robotics/recovery/recovery_manager.py:280-367 | a failure event keeps the run sound; if the failed robot stood alone nobody is in the way afterwards |
| Disruptions.FailureKeepsCustody | robotics/recovery/recovery_manager.py:370-478 | custody survives: the failed robot ends offline without a live task, which is queued, failed or held by the one spare |
| Disruptions.StepKeeps | robotics/recovery/recovery_manager.py:628-638 | one joint step keeps soundness, custody and what was driven apart |
| Recovery.RecoveryManager.HandleEvent | robotics/recovery/recovery_manager.py:219-228 | every event is reacted to as specified, or a table the reaction needs cannot be built |
| Recovery.RecoveryManager.TakeStep | robotics/recovery/recovery_manager.py:190-210 | taken exactly when the joint step of everybody under way is fine, and then driven and recorded; otherwise nothing changes and the reason given is true |
| Recovery.RecoveryManager.RecordStep | robotics/recovery/recovery_manager.py:628-638 | traces, moves and waits after a step |
| Recovery.RecoveryManager.AllDone | robotics/recovery/recovery_manager.py:650-657 | everybody under way is on its goal |
| Recovery.RecoveryManager.Drive | robotics/recovery/recovery_manager.py:171-208 | the loop is a chain of reactions and joint steps that follows the schedule timestep by timestep, until everybody is home, a step is refused, a table cannot be built or time is up |
| Recovery.RecoveryManager.Run | robotics/recovery/recovery_manager.py:105-214 | begins exactly with a non-empty plan that passes the check and has its robots at its starts, and is then such a chain from there to where everything now stands; otherwise nothing has changed. Allowed are four spans of the floor and the extra timesteps after the last event: an unstopped run whose horizon fits in brings everybody home, and one that does not went on until exactly then |
| Runs.SoundStart | robotics/recovery/recovery_manager.py:135-170 | a checked plan with its robots at their starts is a sound start, with nobody in the way |
| Runs.ChainKeeps | robotics/recovery/recovery_manager.py:171-208 | the recovery invariant: at every moment of every run everything relied on holds, nobody is forgotten and custody is kept |
| Runs.ReactionKeeps | robotics/recovery/recovery_manager.py:219-367 | every event keeps it; with nobody in the way before, success and a failed robot that stood alone nobody is in the way afterwards |
| Runs.EventsTakeEffect | robotics/recovery/recovery_manager.py:231-307 | a known robot that failed is on record as failed ever after, and a placed obstacle stays |
| Runs.ScriptIsSchedule | robotics/recovery/recovery_manager.py:171-180 | what a run is to do in its first n timesteps contains exactly the scheduled events of those timesteps |
| Runs.EverythingReactedTo | robotics/recovery/recovery_manager.py:171-180 | a finished run has reacted to every event of the timesteps it went through |
| Runs.ScheduledOnly | robotics/recovery/recovery_manager.py:171-180 | and to nothing that was not scheduled |
| Runs.EveryRunIsSafe | robotics/recovery/recovery_manager.py:171-208 | no run counts a vertex or edge conflict; one stops only for an empty battery, or for a failed robot under one that has arrived |
| Runs.StepIsTakenExactly | robotics/recovery/recovery_manager.py:582-626 | at every moment of a recovering run the joint step is refused exactly for want of charge or for a robot that has arrived on a failed one |
| Runs.ChainStaysCalm | robotics/recovery/recovery_manager.py:171-228 | while every recovery succeeds and whoever fails stands alone, nobody has stopped and nobody is in the way |
| Runs.PlannedFailuresAreAlone | robotics/recovery/recovery_manager.py:296-303 | and a robot that has a route when it fails, a spare that has joined included, always stands alone |
| Runs.CalmIsNeverUpset | robotics/recovery/recovery_manager.py:659-692 | then every table the reaction to an event needs can be built |
| Runs.CalmRunGoesOn | robotics/recovery/recovery_manager.py:171-228 | so such a run is never interrupted, unless by a failure that does not stand alone, and stops for nothing but an empty battery |
| Runs.PlannedRunGoesOn | robotics/recovery/recovery_manager.py:171-228 | in particular when only robots of the plan are scheduled to fail: it is not interrupted at all |
| Runs.UpsettingObstacle | robotics/recovery/recovery_manager.py:494-500 | an obstacle whose table cannot be built has no reaction: the run cannot get past it |
| Disruptions.BuildableTable | robotics/recovery/recovery_manager.py:659-692 | a table can be built whenever its routes arrive in time and never meet and failed robots are out of the way |
| Disruptions.AloneNeverUpsets | robotics/recovery/recovery_manager.py:280-367 | a failure that stands alone, with nobody in the way, upsets no table |
| Limits.SafeStopBreaksTheRun | robotics/recovery/recovery_manager.py:529-536 | counterexample: from a good plan of three robots, two boxes that fall at once break the run off, because the robot the first one stopped stands in another's way in the table for the second |
| Limits.ParkedOnAFailedRobot | robotics/recovery/recovery_manager.py:605-617 | counterexample: a robot outside the plan fails under one that has arrived; the recovery reports success and the next joint step is refused |
| Runs.InTimeEverybodyIsHome | robotics/recovery/recovery_manager.py:171-208 | with time for the horizon an unstopped run brings everybody under way home |
| Runs.UnstoppedRun | robotics/recovery/recovery_manager.py:179-208 | so an unstopped run with room for its horizon ends with every robot of the plan on its planned goal, but for those that failed, had to stop or took over a task |
| Runs.GoalKept | robotics/recovery/recovery_manager.py:466-468 | only a robot that takes over a task changes its goal |
| Runs.StepsOnlyWhileAway | robotics/recovery/recovery_manager.py:189-190 | a joint step is taken only while somebody is away from its goal |
| Runs.ChargeIsNeverOverdrawn | robotics/robots/robot.py:117-164 | at no moment of a run has a robot been driven on charge it did not have |
| Resilience.StepIsCountedOnce | robotics/recovery/recovery_manager.py:628-638 | every joint step counts once for a robot until it arrives, as a move or as a wait, and then no more |
| TaskHistory.CustodyAlways | robotics/simulation/simulator.py:324-361 | over every history of registrations, assignments, commits, progress, removals and failures each live task has exactly one holder, linked both ways |
| TaskHistory.DeedLetsTasksLive | robotics/tasks/task.py:82-89 | whatever is done, no task is lost or takes a step outside its life cycle |
| TaskHistory.OverIsOver | robotics/tasks/task.py:82-89 | over every history a task that is completed or has failed stays exactly as it is |
| TaskHistory.FailureIsLoss | robotics/recovery/recovery_manager.py:370-478 | a failure event is one of those deeds |
| RouteDriving.FindPathProblems | robotics/planning/validation.py:83-157 | the checker is exact: it lists just the problems there are, none exactly for an answer in order |
| RouteDriving.ShortestIsSimple | robotics/planning/validation.py:141-149 | a shortest route visits no cell twice |
| RouteDriving.AnswersPassCheck | robotics/planning/astar.py:162-225 | every planner answer passes the checker |
| RouteDriving.ResolvePath | robotics/execution/route_executor.py:187-223 | accepts exactly the non-empty, stepwise, simple routes |
| RouteDriving.RouteExecutor.Execute | robotics/execution/route_executor.py:58-181 | rejections move nothing; otherwise the driven part is as specified |
| RouteDriving.DriveIsPrefix | robotics/execution/route_executor.py:138-181 | the driven cells are a prefix of the route; distance and charge are those of exactly that many moves; others are untouched |
| RouteDriving.PlannedRouteIsDriven | robotics/execution/route_executor.py:138-181 | a planned route, free and charged for, is driven to the end after exactly the promised moves |

## Left out

- `heapq` as a data structure: the frontier is a set of entries with unique insertion numbers, and popping takes the least.
- SpatialPlanning.AStar: takes stepwise consistent heuristics only; what an inconsistent one can do is shown by `Admissibility.AdmissibleIsNotEnough`, but for which floors it then still finds a shortest route is not characterised.
- Message texts, wall-clock times, latencies, JSON and the query counter as a metric: no property depends on them.
- Floating-point rounding: battery, drain, payload and capacity are reals; the odometer counts unit moves.
- The clamp of a battery at zero is in `Simulation.Robot.MoveTo` but never acts, because a move is refused without its charge.
- CP-SAT's search and time limit: `Allocation.Solver` is any solver that tells the truth about the model it is given; a feasible or missing answer is allowed.
- The names of charging, storage and other locations as lists, charging, payload loading, obstacle descriptions and `last_error`.
- The final summary of a resilient run (`_finalise`): it checks the whole trace against the final warehouse, so a cell crossed before an obstacle landed on it is flagged; the model states instead that what was driven never met, for robots still under way.
- Reservation counters, waits introduced and other report fields of a recovery event, beyond affected robots, reassignment and success; the counting formula itself is `Replanning.RemainingReservationCount`.
- Injected planners of the cost estimator: prices come from A*.
- The HTTP API, services, persistence, front end, renderer, scenarios and benchmarks.
- Global optimality or completeness of prioritised planning, and collision claims about robots that have stopped for safety or are not planned: the code does not provide them.
- Replanning.BuildFutureReservations: assumes well-timed routes that have started, which every run guarantees.
- Recovery.RecoveryManager.Run: assumes a plan that fits the floor and the horizon with its robots online, which the coordinator's plans do (EndToEnd.CoordinatedPlanIsReady); a robot offline at its start would only be noticed at the first joint step.
- TaskHistory.CustodyAlways: a bare `unassign` outside removal and recovery, which would leave the robot's link behind, is not among the deeds.
- Names of robots and tasks are strings ordered by character code.
