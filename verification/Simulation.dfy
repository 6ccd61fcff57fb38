/** Robots, tasks and the simulator that owns them. */
module Simulation {
  import opened Floors

  datatype RobotStatus = Idle | AssignedTo | Moving | Picking | Dropping | Charging | Blocked | Offline

  datatype TaskStatus = Pending | Assigned | InProgress | Completed | Failed

  datatype SimError =
    | UnknownRobot | UnknownTask | TaskNotPending | RobotNotAvailable | TooHeavy
    | IllegalTransition | NotAdjacent | BatteryTooLow | CellOccupied | IsOffline | NotOnFloor | CellBlocked
    | DuplicateRobot | DuplicateTask | WarehouseRefused(why: WarehouseError)

  // ---------- Snapshots ----------

  datatype RobotView = RobotView(id: string, position: Position, battery: real, drain: real, capacity: real,
          payload: real, status: RobotStatus, assignedTask: Option<string>, distance: nat, steps: nat) {
    predicate IsAvailable() {
      status == Idle && assignedTask.None?
    }

    predicate CanCarry(weight: real) {
      weight <= capacity - payload
    }

    predicate HasBatteryForMove() {
      battery >= drain
    }

    predicate CanMoveTo(cell: Position) {
      Adjacent(position, cell) && HasBatteryForMove()
    }

    /** One move further: odometer and battery change by one move's worth. */
    function MovedTo(cell: Position): RobotView {
      this.(position := cell, steps := steps + 1, distance := distance + 1, battery := battery - drain,
          status := Moving)
    }

    function WithTask(task: string): RobotView {
      this.(assignedTask := Some(task), status := AssignedTo)
    }

    function Cleared(): RobotView {
      this.(assignedTask := None, status := Idle)
    }
  }

  datatype TaskView = TaskView(id: string, pickup: Position, dropoff: Position, priority: int, weight: real,
                               status: TaskStatus, assignedRobot: Option<string>) {
    predicate IsOpen() {
      status != Completed && status != Failed
    }

    predicate IsLive() {
      status == Assigned || status == InProgress
    }
  }

  /** The lifecycle: which status changes a task accepts. */
  predicate AllowedTransition(from: TaskStatus, to: TaskStatus) {
    match from
    case Pending => to == Assigned || to == Failed
    case Assigned => to == InProgress || to == Pending || to == Failed
    case InProgress => to == Completed || to == Failed
    case Completed => false
    case Failed => false
  }

  // ---------- One robot ----------

  class Robot {
    const robotId: string
    const drain: real
    const capacity: real
    var position: Position
    var battery: real
    var payload: real
    var status: RobotStatus
    var assignedTask: Option<string>
    var distance: nat
    var stepsTaken: nat

    constructor (id: string, position: Position, battery: real, capacity: real, payload: real, drain: real)
      requires id != "" && 0.0 <= battery <= 100.0 && 0.0 <= payload <= capacity && drain >= 0.0
      ensures View() == RobotView(id, position, battery, drain, capacity, payload, Idle, None, 0, 0)
    {
      robotId, this.position, this.battery, this.capacity, this.payload, this.drain := id, position, battery, capacity,
          payload, drain;
      status, assignedTask, distance, stepsTaken := Idle, None, 0, 0;
    }

    function View(): RobotView
      reads this
    {
      RobotView(robotId, position, battery, drain, capacity, payload, status, assignedTask, distance, stepsTaken)
    }

    /** Drain is clamped at zero, which a robot that may move never reaches. */
    method MoveTo(cell: Position) returns (raised: Option<SimError>)
      modifies this
      ensures raised.None? <==> old(View()).CanMoveTo(cell)
      ensures drain >= 0.0 || raised.Some? ==> View() == if raised.None? then old(View()).MovedTo(cell) else old(View())
      ensures old(battery) >= 0.0 ==> battery >= 0.0
    {
      if !Adjacent(position, cell) {
        return Some(NotAdjacent);
      }
      if battery < drain {
        return Some(BatteryTooLow);
      }
      position := cell;
      stepsTaken := stepsTaken + 1;
      distance := distance + 1;
      battery := if battery - drain < 0.0 then 0.0 else battery - drain;
      status := Moving;
      return None;
    }

    method SetStatus(s: RobotStatus)
      modifies this
      ensures View() == old(View()).(status := s)
    {
      status := s;
    }

    method AssignTask(task: string) returns (raised: Option<SimError>)
      modifies this
      ensures raised.None? <==> old(View()).IsAvailable()
      ensures View() == if raised.None? then old(View()).WithTask(task) else old(View())
    {
      if !(status == Idle && assignedTask.None?) {
        return Some(RobotNotAvailable);
      }
      assignedTask := Some(task);
      status := AssignedTo;
      return None;
    }

    method ClearTask()
      modifies this
      ensures View() == old(View()).Cleared()
    {
      assignedTask := None;
      status := Idle;
    }
  }

  // ---------- One task ----------

  class Task {
    const taskId: string
    const pickup: Position
    const dropoff: Position
    const priority: int
    const weight: real
    var status: TaskStatus
    var assignedRobot: Option<string>

    constructor (id: string, pickup: Position, dropoff: Position, priority: int, weight: real)
      requires id != "" && weight > 0.0 && pickup != dropoff
      ensures View() == TaskView(id, pickup, dropoff, priority, weight, Pending, None)
    {
      taskId, this.pickup, this.dropoff, this.priority, this.weight := id, pickup, dropoff, priority, weight;
      status, assignedRobot := Pending, None;
    }

    function View(): TaskView
      reads this
    {
      TaskView(taskId, pickup, dropoff, priority, weight, status, assignedRobot)
    }

    method TransitionTo(to: TaskStatus) returns (raised: Option<SimError>)
      modifies this
      ensures raised.None? <==>
                || (old(status) == Pending && to == Assigned) || (old(status) == Assigned && to == Pending)
                || (old(status) == Assigned && to == InProgress) || (old(status) == InProgress && to == Completed)
                || (to == Failed && (old(status) == Pending || old(status) == Assigned || old(status) == InProgress))
      ensures View() == if raised.None? then old(View()).(status := to) else old(View())
    {
      if !AllowedTransition(status, to) {
        return Some(IllegalTransition);
      }
      status := to;
      return None;
    }

    method AssignTo(robot: string) returns (raised: Option<SimError>)
      modifies this
      ensures raised.None? <==> old(status) == Pending
      ensures View() == if raised.None? then old(View()).(status := Assigned, assignedRobot := Some(robot))
               else old(View())
    {
      raised := TransitionTo(Assigned);
      if raised.None? {
        assignedRobot := Some(robot);
      }
    }

    method Unassign() returns (raised: Option<SimError>)
      modifies this
      ensures raised.None? <==> old(status) == Assigned
      ensures View() == if raised.None? then old(View()).(status := Pending, assignedRobot := None) else old(View())
    {
      raised := TransitionTo(Pending);
      if raised.None? {
        assignedRobot := None;
      }
    }

    method Start() returns (raised: Option<SimError>)
      modifies this
      ensures raised.None? <==> old(status) == Assigned && old(assignedRobot).Some?
      ensures View() == if raised.None? then old(View()).(status := InProgress) else old(View())
    {
      if assignedRobot.None? {
        return Some(IllegalTransition);
      }
      raised := TransitionTo(InProgress);
    }

    method Complete() returns (raised: Option<SimError>)
      modifies this
      ensures raised.None? <==> old(status) == InProgress
      ensures View() == if raised.None? then old(View()).(status := Completed) else old(View())
    {
      raised := TransitionTo(Completed);
    }

    /** Failing a task keeps the name of the robot it was assigned to. */
    method Fail() returns (raised: Option<SimError>)
      modifies this
      ensures raised.None? <==> old(View()).IsOpen()
      ensures View() == if raised.None? then old(View()).(status := Failed) else old(View())
    {
      raised := TransitionTo(Failed);
    }
  }

  // ---------- The simulator ----------

  type Fleet = map<string, RobotView>

  type Tasks = map<string, TaskView>

  /** An obstacle may appear on an empty cell that the warehouse accepts it on. */
  ghost predicate MayAppear(fleet: Fleet, site: Site, id: string, cell: Position) {
    site.Accepts(id, cell) && forall r | r in fleet :: fleet[r].position != cell
  }

  class Simulator {
    const warehouse: Warehouse
    var robots: map<string, Robot>
    var tasks: map<string, Task>

    constructor (warehouse: Warehouse)
      ensures this.warehouse == warehouse && robots == map[] && tasks == map[]
      ensures Valid()
    {
      this.warehouse := warehouse;
      robots, tasks := map[], map[];
    }

    ghost predicate Valid()
      reads this`robots, this`tasks, robots.Values, tasks.Values
    {
      && (forall id | id in robots :: robots[id].robotId == id && robots[id].drain >= 0.0)
      && (forall id | id in tasks :: tasks[id].taskId == id)
    }

    ghost function FleetView(): Fleet
      reads this`robots, robots.Values
    {
      map id | id in robots :: robots[id].View()
    }

    ghost function TaskViews(): Tasks
      reads this`tasks, tasks.Values
    {
      map id | id in tasks :: tasks[id].View()
    }

    /** The robot standing on a cell, if any. */
    method RobotAt(cell: Position) returns (id: Option<string>)
      requires Valid()
      ensures id.None? <==> forall r | r in FleetView() :: FleetView()[r].position != cell
      ensures id.Some? ==> id.value in robots && FleetView()[id.value].position == cell
    {
      var left := robots.Keys;
      while left != {}
        invariant left <= robots.Keys
        invariant forall r | r in robots && r !in left :: robots[r].position != cell
        decreases |left|
      {
        var r :| r in left;
        if robots[r].position == cell {
          assert FleetView()[r].position == cell;
          return Some(r);
        }
        left := left - {r};
      }
      return None;
    }

    /** A robot joins the map on a free, traversable cell. */
    method AddRobot(robot: Robot) returns (raised: Option<SimError>)
      requires Valid() && robot.drain >= 0.0
      modifies this`robots
      ensures Valid()
      ensures raised.None? <==>
                && robot.robotId !in old(FleetView())
                && warehouse.FloorPlan().Traversable(robot.position)
                && (forall r | r in old(FleetView()) :: old(FleetView())[r].position != robot.position)
      ensures robots == if raised.None? then old(robots)[robot.robotId := robot] else old(robots)
    {
      if robot.robotId in robots {
        return Some(DuplicateRobot);
      }
      var floor := warehouse.FloorPlan();
      if !floor.InBounds(robot.position) {
        return Some(NotOnFloor);
      }
      if !floor.Traversable(robot.position) {
        return Some(CellBlocked);
      }
      var occupant := RobotAt(robot.position);
      assert FleetView() == old(FleetView());
      if occupant.Some? {
        assert occupant.value in old(FleetView()) && old(FleetView())[occupant.value].position == robot.position;
        return Some(CellOccupied);
      }
      robots := robots[robot.robotId := robot];
      return None;
    }

    /** A task joins the queue if both its ends are on the floor and no wall
        stands there. */
    method AddTask(task: Task) returns (raised: Option<SimError>)
      requires Valid()
      modifies this`tasks
      ensures Valid()
      ensures raised.None? <==>
                && task.taskId !in old(tasks)
                && warehouse.FloorPlan().InBounds(task.pickup) && warehouse.FloorPlan().InBounds(task.dropoff)
                && task.pickup !in warehouse.staticObstacles.Values && task.dropoff !in warehouse.staticObstacles.Values
      ensures tasks == if raised.None? then old(tasks)[task.taskId := task] else old(tasks)
    {
      if task.taskId in tasks {
        return Some(DuplicateTask);
      }
      var ends := [task.pickup, task.dropoff];
      assert ends[0] == task.pickup && ends[1] == task.dropoff;
      for k := 0 to |ends|
        invariant forall i | 0 <= i < k ::
                  warehouse.FloorPlan().InBounds(ends[i])
                  && ends[i] !in warehouse.staticObstacles.Values
      {
        if !warehouse.FloorPlan().InBounds(ends[k]) {
          return Some(NotOnFloor);
        }
        if ends[k] in warehouse.staticObstacles.Values {
          return Some(CellBlocked);
        }
      }
      tasks := tasks[task.taskId := task];
      return None;
    }

    /** A dynamic obstacle may not land on a robot. */
    method AddDynamicObstacle(id: string, cell: Position) returns (raised: Option<SimError>)
      requires Valid() && warehouse.Valid()
      modifies warehouse`dynamicObstacles
      ensures Valid() && warehouse.Valid()
      ensures raised.None? <==> MayAppear(old(FleetView()), old(warehouse.SiteView()), id, cell)
      ensures warehouse.SiteView() == if raised.None? then old(warehouse.SiteView()).With(id, cell)
               else old(warehouse.SiteView())
    {
      hide FleetView, Valid, Warehouse.SiteView, Site.Accepts, Site.With;
      Entries();
      var occupant := RobotAt(cell);
      assert FleetView() == old(FleetView());
      if occupant.Some? {
        return Some(CellOccupied);
      }
      var r := warehouse.AddDynamicObstacle(id, cell);
      return if r.Ok? then None else Some(WarehouseRefused(r.error));
    }

    /** Why one move is refused, in the order the checks are made. */
    method ValidateMove(id: string, cell: Position) returns (refused: Option<SimError>)
      requires Valid()
      ensures refused.None? <==> id in robots && MoveIsLegal(FleetView(), warehouse.ObstacleMap(), id, cell)
    {
      if id !in robots {
        return Some(UnknownRobot);
      }
      var robot := robots[id];
      if robot.status == Offline {
        return Some(IsOffline);
      }
      var floor := warehouse.ObstacleMap();
      if !floor.InBounds(cell) {
        return Some(NotOnFloor);
      }
      if !Adjacent(robot.position, cell) {
        return Some(NotAdjacent);
      }
      if cell in warehouse.staticObstacles.Values {
        return Some(CellBlocked);
      }
      if cell in warehouse.dynamicObstacles.Values {
        return Some(CellBlocked);
      }
      var occupant := RobotAt(cell);
      if occupant.Some? {
        return Some(CellOccupied);
      }
      if !(robot.battery >= robot.drain) {
        return Some(BatteryTooLow);
      }
      return None;
    }

    /** One legal step, or nothing at all. */
    method MoveRobot(id: string, cell: Position) returns (refused: Option<SimError>)
      requires Valid()
      modifies robots.Values
      ensures Valid() && robots == old(robots)
      ensures refused.None? <==> id in robots && MoveIsLegal(old(FleetView()), warehouse.ObstacleMap(), id, cell)
      ensures FleetView() == if refused.None? then old(FleetView())[id := old(FleetView())[id].MovedTo(cell)]
               else old(FleetView())
    {
      refused := ValidateMove(id, cell);
      if refused.Some? {
        return;
      }
      var raised := robots[id].MoveTo(cell);
      assert forall r | r in robots && r != id :: robots[r] != robots[id];
    }

    /** Only one robot has changed: so has only its entry of the snapshot. */
    twostate lemma OnlyRobot(id: string)
      requires old(Valid()) && robots == old(robots) && id in robots
      requires forall r | r in robots.Values && r != robots[id] :: r.View() == old(r.View())
      ensures FleetView() == old(FleetView())[id := robots[id].View()]
    {
      assert forall x | x in robots && x != id :: robots[x] != robots[id];
    }

    twostate lemma OnlyTask(id: string)
      requires old(Valid()) && tasks == old(tasks) && id in tasks
      requires forall t | t in tasks.Values && t != tasks[id] :: t.View() == old(t.View())
      ensures TaskViews() == old(TaskViews())[id := tasks[id].View()]
    {
      assert forall x | x in tasks && x != id :: tasks[x] != tasks[id];
    }

    lemma Entries()
      ensures FleetView().Keys == robots.Keys && TaskViews().Keys == tasks.Keys
      ensures forall id | id in robots :: FleetView()[id] == robots[id].View()
      ensures forall id | id in tasks :: TaskViews()[id] == tasks[id].View()
    {
    }

    /** Why an assignment is refused. */
    method WhyNotAssignable(task: string, robot: string) returns (reason: Option<SimError>)
      requires Valid()
      ensures reason.None? <==> MayAssign(FleetView(), TaskViews(), robot, task)
    {
      if task !in tasks {
        return Some(UnknownTask);
      }
      if robot !in robots {
        return Some(UnknownRobot);
      }
      var t, r := tasks[task], robots[robot];
      if t.status != Pending {
        return Some(TaskNotPending);
      }
      if !(r.status == Idle && r.assignedTask.None?) {
        return Some(RobotNotAvailable);
      }
      if !(t.weight <= r.capacity - r.payload) {
        return Some(TooHeavy);
      }
      return None;
    }

    /** Hand one pending task to one available robot. */
    method AssignTaskManually(task: string, robot: string) returns (raised: Option<SimError>)
      requires Valid()
      modifies robots.Values, tasks.Values
      ensures Valid() && robots == old(robots) && tasks == old(tasks)
      ensures raised.None? <==> MayAssign(old(FleetView()), old(TaskViews()), robot, task)
      ensures FleetView() == if raised.None? then AssignRobot(old(FleetView()), robot, task) else old(FleetView())
      ensures TaskViews() == if raised.None? then AssignTask(old(TaskViews()), robot, task) else old(TaskViews())
    {
      hide Simulator.FleetView, Simulator.TaskViews;
      raised := WhyNotAssignable(task, robot);
      if raised.Some? {
        return;
      }
      Entries();
      var t, r := tasks[task], robots[robot];
      var _ := r.AssignTask(task);
      var _ := t.AssignTo(robot);
      OnlyRobot(robot);
      OnlyTask(task);
    }

    /** Take a robot out of the fleet, releasing the task it holds. */
    method RemoveRobot(robot: string) returns (raised: Option<SimError>)
      requires Valid()
      modifies this`robots, robots.Values, tasks.Values
      ensures Valid() && tasks == old(tasks)
      ensures robot !in old(robots) ==> raised.Some?
      ensures robot in old(robots) ==> (raised.None? <==> MayRelease(old(FleetView()), old(TaskViews()), robot))
      ensures raised.Some? ==>
               robots == old(robots) && TaskViews() == old(TaskViews())
               && FleetView() == old(FleetView())
      ensures raised.None? ==> FleetView() == old(FleetView()) - {robot}
      ensures raised.None? ==> TaskViews() == ReleaseTaskOf(old(FleetView()), old(TaskViews()), robot)
    {
      hide MayRelease, ReleaseTaskOf, Simulator.TaskViews;
      if robot !in robots {
        return Some(UnknownRobot);
      }
      raised := ReleaseHeldTask(robot);
      if raised.Some? {
        return;
      }
      ForgetRobot(robot);
    }

    method ForgetRobot(robot: string)
      requires Valid()
      modifies this`robots
      ensures Valid() && FleetView() == old(FleetView()) - {robot} && TaskViews() == old(TaskViews())
    {
      robots := robots - {robot};
    }

    method ReleaseHeldTask(robot: string) returns (raised: Option<SimError>)
      requires Valid() && robot in robots
      modifies robots[robot], tasks.Values
      ensures Valid() && tasks == old(tasks)
      ensures raised.None? <==> MayRelease(old(FleetView()), old(TaskViews()), robot)
      ensures raised.Some? ==> TaskViews() == old(TaskViews()) && FleetView() == old(FleetView())
      ensures raised.None? ==> TaskViews() == ReleaseTaskOf(old(FleetView()), old(TaskViews()), robot)
      ensures FleetView() - {robot} == old(FleetView()) - {robot}
    {
      hide Simulator.FleetView, Simulator.TaskViews;
      Entries();
      var r := robots[robot];
      if r.assignedTask.None? {
        return None;
      }
      var id := r.assignedTask.value;
      if id in tasks {
        raised := ReleaseTask(id);
        if raised.Some? {
          return;
        }
      }
      r.ClearTask();
      OnlyRobot(robot);
      return None;
    }

    /** A task whose robot is gone: failed if begun, queued again if not. */
    method ReleaseTask(id: string) returns (raised: Option<SimError>)
      requires Valid() && id in tasks
      modifies tasks[id]
      ensures Valid()
      ensures raised.None? <==> old(TaskViews())[id].status != Pending
      ensures TaskViews() == old(TaskViews())[id := if raised.None? then Released(old(TaskViews())[id])
               else old(TaskViews())[id]]
    {
      if tasks[id].View().IsOpen() {
        if tasks[id].status == InProgress {
          raised := tasks[id].Fail();
        } else {
          raised := tasks[id].Unassign();
        }
      } else {
        raised := None;
      }
      OnlyTask(id);
    }
  }

  // ---------- What the operations do, on snapshots ----------

  ghost predicate MoveIsLegal(fleet: Fleet, floor: Floor, id: string, cell: Position)
    requires id in fleet
  {
    && fleet[id].status != Offline && floor.Traversable(cell) && fleet[id].CanMoveTo(cell)
    && forall r | r in fleet :: fleet[r].position != cell
  }

  ghost predicate MayAssign(fleet: Fleet, tasks: Tasks, robot: string, task: string) {
    && robot in fleet && task in tasks
    && tasks[task].status == Pending && fleet[robot].IsAvailable() && fleet[robot].CanCarry(tasks[task].weight)
  }

  ghost function AssignRobot(fleet: Fleet, robot: string, task: string): Fleet
    requires robot in fleet
  {
    fleet[robot := fleet[robot].WithTask(task)]
  }

  ghost function AssignTask(tasks: Tasks, robot: string, task: string): Tasks
    requires task in tasks
  {
    tasks[task := tasks[task].(status := Assigned, assignedRobot := Some(robot))]
  }

  /** Unassigning is refused by a task that is open but not assigned. */
  ghost predicate MayRelease(fleet: Fleet, tasks: Tasks, robot: string)
    requires robot in fleet
  {
    var held := fleet[robot].assignedTask;
    held.Some? && held.value in tasks ==> tasks[held.value].status != Pending
  }

  /** An assigned task goes back to the queue; one already begun fails. */
  function Released(task: TaskView): TaskView {
    if !task.IsOpen() then task
    else if task.status == InProgress then task.(status := Failed)
    else task.(status := Pending, assignedRobot := None)
  }

  ghost function ReleaseTaskOf(fleet: Fleet, tasks: Tasks, robot: string): Tasks
    requires robot in fleet
  {
    var held := fleet[robot].assignedTask;
    if held.None? || held.value !in tasks then tasks else tasks[held.value := Released(tasks[held.value])]
  }

  // ---------- Who holds which task ----------

  /** Every live task is held by the robot it names, and a robot that names a
      registered task is the one that task names. */
  ghost predicate Custody(fleet: Fleet, tasks: Tasks) {
    && (forall t | t in tasks && tasks[t].IsLive() :: HeldByItsRobot(fleet, tasks, t))
    && (forall r | r in fleet && fleet[r].assignedTask.Some? && fleet[r].assignedTask.value in tasks ::
          var t := tasks[fleet[r].assignedTask.value]; t.status != Pending && t.assignedRobot == Some(r))
  }

  ghost predicate HeldByItsRobot(fleet: Fleet, tasks: Tasks, t: string)
    requires t in tasks
  {
    tasks[t].assignedRobot.Some? && tasks[t].assignedRobot.value in fleet
    && fleet[tasks[t].assignedRobot.value].assignedTask == Some(t)
  }

  /** A live task has exactly one holder. */
  lemma OneHolder(fleet: Fleet, tasks: Tasks, t: string)
    requires Custody(fleet, tasks) && t in tasks && tasks[t].IsLive()
    ensures exists r :: r in fleet && fleet[r].assignedTask == Some(t)
                        && forall other | other in fleet && fleet[other].assignedTask == Some(t) :: other == r
  {
    assert HeldByItsRobot(fleet, tasks, t);
  }

  lemma AssignKeepsCustody(fleet: Fleet, tasks: Tasks, robot: string, task: string)
    requires Custody(fleet, tasks) && MayAssign(fleet, tasks, robot, task)
    ensures Custody(AssignRobot(fleet, robot, task), AssignTask(tasks, robot, task))
  {
    var fleet', tasks' := AssignRobot(fleet, robot, task), AssignTask(tasks, robot, task);
    forall t | t in tasks' && tasks'[t].IsLive()
      ensures HeldByItsRobot(fleet', tasks', t)
    {
      if t != task {
        assert HeldByItsRobot(fleet, tasks, t);
      }
    }
  }

  /** Under custody a removal is never refused, and it keeps custody. A task only
      assigned to the robot is queued again, one already begun has failed, and nothing
      else changes. */
  lemma RemoveKeepsCustody(fleet: Fleet, tasks: Tasks, robot: string)
    requires Custody(fleet, tasks) && robot in fleet
    ensures MayRelease(fleet, tasks, robot)
    ensures Custody(fleet - {robot}, ReleaseTaskOf(fleet, tasks, robot))
    ensures ReleaseTaskOf(fleet, tasks, robot).Keys == tasks.Keys
    ensures forall t | t in tasks ::
              var now := ReleaseTaskOf(fleet, tasks, robot)[t];
              if tasks[t].assignedRobot != Some(robot) then now == tasks[t]
              else if tasks[t].status == Assigned then now == tasks[t].(status := Pending, assignedRobot := None)
              else if tasks[t].status == InProgress then now == tasks[t].(status := Failed)
              else now == tasks[t]
  {
    var fleet', tasks' := fleet - {robot}, ReleaseTaskOf(fleet, tasks, robot);
    forall t | t in tasks' && tasks'[t].IsLive()
      ensures HeldByItsRobot(fleet', tasks', t)
    {
      assert HeldByItsRobot(fleet, tasks, t);
    }
  }

  /** Starting, completing or failing a task keeps custody. */
  lemma ProgressKeepsCustody(fleet: Fleet, tasks: Tasks, task: string, to: TaskStatus)
    requires Custody(fleet, tasks) && task in tasks
    requires AllowedTransition(tasks[task].status, to) && to != Pending && to != Assigned
    ensures Custody(fleet, tasks[task := tasks[task].(status := to)])
  {
    var tasks' := tasks[task := tasks[task].(status := to)];
    forall t | t in tasks' && tasks'[t].IsLive()
      ensures HeldByItsRobot(fleet, tasks', t)
    {
      assert HeldByItsRobot(fleet, tasks, t);
    }
  }
}
