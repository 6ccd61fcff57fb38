/** Who holds which task, over every history of the warehouse. */
module TaskHistory {
  import opened Floors
  import opened Simulation
  import opened Weights
  import opened Allocation
  import opened Commit
  import opened TaskRecovery
  import opened Disruptions
  import Resilience
  import Reservations

  datatype World = World(fleet: Fleet, tasks: Tasks)

  /** Everything that may happen to robots and tasks, whether or not it is allowed. */
  datatype Deed =
    | Register(newcomer: RobotView)
    | Announce(order: TaskView)
    | Hand(robot: string, task: string)
    | CommitAll(list: seq<Pair>)
    | Progress(task: string, to: TaskStatus)
    | Dismiss(robot: string)
    | Lose(robot: string, recover: bool, spare: Option<string>)

  /** A robot or a task as it is made. */
  ghost predicate IsNewRobot(r: RobotView) {
    r.status == Idle && r.assignedTask.None?
  }

  ghost predicate IsNewTask(t: TaskView) {
    t.status == Pending && t.assignedRobot.None?
  }

  /** What the system lets happen. */
  ghost predicate Allowed(w: World, d: Deed) {
    match d
    case Register(r) => r.id !in w.fleet && IsNewRobot(r)
    case Announce(t) => t.id !in w.tasks && IsNewTask(t)
    case Hand(r, t) => MayAssign(w.fleet, w.tasks, r, t)
    case CommitAll(list) => AllAssignable(w.fleet, w.tasks, list) && DistinctRobotsAndTasks(list)
    case Progress(t, to) => t in w.tasks && AllowedTransition(w.tasks[t].status, to) && to != Pending && to != Assigned
    case Dismiss(r) => r in w.fleet && MayRelease(w.fleet, w.tasks, r)
    case Lose(r, recover, spare) =>
      && r in w.fleet
      && (spare.Some? ==> recover && MayTakeOver(w, r, spare.value))
  }

  /** A spare may take over what a lost robot held once it has been queued again. */
  ghost predicate MayTakeOver(w: World, lost: string, spare: string)
    requires lost in w.fleet
  {
    var off := Resilience.FleetOffline(w.fleet, lost);
    && IsOffered(off, w.tasks, lost)
    && MayAssign(FreedFleet(off, w.tasks, lost), FreedTasks(off, w.tasks, lost), spare, off[lost].assignedTask.value)
  }

  /** The world after a deed; one that is not allowed changes nothing. */
  ghost function Done(w: World, d: Deed): World {
    if !Allowed(w, d) then w
    else
      match d
      case Register(r) => World(w.fleet[r.id := r], w.tasks)
      case Announce(t) => World(w.fleet, w.tasks[t.id := t])
      case Hand(r, t) => World(AssignRobot(w.fleet, r, t), AssignTask(w.tasks, r, t))
      case CommitAll(list) => Committed(w, list)
      case Progress(t, to) => World(w.fleet, w.tasks[t := w.tasks[t].(status := to)])
      case Dismiss(r) => World(w.fleet - {r}, ReleaseTaskOf(w.fleet, w.tasks, r))
      case Lose(r, recover, spare) => Lost(w, r, recover, spare)
  }

  ghost function Committed(w: World, list: seq<Pair>): World
    requires AllAssignable(w.fleet, w.tasks, list)
  {
    Assignable(w.fleet, w.tasks, list);
    World(FleetAssigned(w.fleet, list), TasksAssigned(w.tasks, list))
  }

  ghost function Lost(w: World, r: string, recover: bool, spare: Option<string>): World
    requires r in w.fleet && (spare.Some? ==> recover && MayTakeOver(w, r, spare.value))
  {
    var off := Resilience.FleetOffline(w.fleet, r);
    if !recover then World(off, w.tasks)
    else
      var freed, queued := FreedFleet(off, w.tasks, r), FreedTasks(off, w.tasks, r);
      if spare.None? then World(freed, queued)
      else
        var t := off[r].assignedTask.value;
        World(AssignRobot(freed, spare.value, t), AssignTask(queued, spare.value, t))
  }

  /** A failure event is such a loss, with the spare it reports. */
  lemma FailureIsLoss(s: Resilience.Snap, s': Resilience.Snap, w: World, w': World, floor: Floor, now: int, f: string,
          enabled: bool, to: Option<string>, s2: Resilience.Snap, c1: Reservations.Claims, c2: Reservations.Claims)
    requires f in w.fleet
    requires FailureHandled(s, s', w.fleet, w.tasks, w'.fleet, w'.tasks, floor, now, f, enabled, to, s2, c1, c2)
    ensures Allowed(w, Lose(f, enabled, to)) && w' == Done(w, Lose(f, enabled, to))
  {
    hide RoutesHandled, BestSpare, Resilience.Joined, Resilience.Pins, Resilience.Included;
  }

  /** Custody, and no robot names a task nobody knows. */
  ghost predicate Linked(w: World) {
    && Custody(w.fleet, w.tasks)
    && forall r | r in w.fleet && w.fleet[r].assignedTask.Some? :: w.fleet[r].assignedTask.value in w.tasks
  }

  lemma DeedKeepsLinks(w: World, d: Deed)
    requires Linked(w) && Allowed(w, d)
    ensures Linked(Done(w, d))
  {
    hide Custody, MayAssign, AllAssignable, MayRelease;
    match d
    case Register(r) => NewcomersKeepCustody(w, d);
    case Announce(t) => NewcomersKeepCustody(w, d);
    case Hand(r, t) =>
      MayAssignKnown(w.fleet, w.tasks, r, t);
      AssignKeepsCustody(w.fleet, w.tasks, r, t);
    case CommitAll(list) => CommitKeepsLinks(w, list);
    case Progress(t, to) => ProgressKeepsCustody(w.fleet, w.tasks, t, to);
    case Dismiss(r) => RemoveKeepsCustody(w.fleet, w.tasks, r);
    case Lose(r, recover, spare) => LossKeepsLinks(w, r, recover, spare);
  }

  lemma NewcomersKeepCustody(w: World, d: Deed)
    requires Linked(w) && Allowed(w, d) && (d.Register? || d.Announce?)
    ensures Linked(Done(w, d))
  {
    var w' := Done(w, d);
    forall t | t in w'.tasks && w'.tasks[t].IsLive()
      ensures HeldByItsRobot(w'.fleet, w'.tasks, t)
    {
      assert HeldByItsRobot(w.fleet, w.tasks, t);
    }
  }

  lemma {:induction false} CommitKeepsLinks(w: World, list: seq<Pair>)
    requires Linked(w) && AllAssignable(w.fleet, w.tasks, list) && DistinctRobotsAndTasks(list)
    ensures Linked(Committed(w, list))
  {
    hide Custody, MayAssign;
    Assignable(w.fleet, w.tasks, list);
    CommitKeepsCustody(w.fleet, w.tasks, list);
    CommitNamesKnown(w.fleet, w.tasks, list);
  }

  lemma {:induction false} CommitNamesKnown(fleet: Fleet, tasks: Tasks, list: seq<Pair>)
    requires forall p | p in list :: p.robot in fleet && p.task in tasks
    requires forall r | r in fleet && fleet[r].assignedTask.Some? :: fleet[r].assignedTask.value in tasks
    ensures forall r | r in FleetAssigned(fleet, list) && FleetAssigned(fleet, list)[r].assignedTask.Some? ::
              FleetAssigned(fleet, list)[r].assignedTask.value in TasksAssigned(tasks, list)
  {
    if list != [] {
      CommitNamesKnown(fleet, tasks, list[..|list| - 1]);
      assert list[|list| - 1] in list;
    }
  }

  lemma LossKeepsLinks(w: World, r: string, recover: bool, spare: Option<string>)
    requires Linked(w) && r in w.fleet && (spare.Some? ==> recover && MayTakeOver(w, r, spare.value))
    ensures Linked(Lost(w, r, recover, spare))
  {
    hide Custody;
    OfflineKeepsCustody(w.fleet, w.tasks, r);
    var off := Resilience.FleetOffline(w.fleet, r);
    ReleaseKeepsCustody(off, w.tasks, r);
    if spare.Some? {
      AssignKeepsCustody(FreedFleet(off, w.tasks, r), FreedTasks(off, w.tasks, r), spare.value,
          off[r].assignedTask.value);
    }
  }

  ghost function AfterAll(w: World, deeds: seq<Deed>): World {
    if deeds == [] then w else Done(AfterAll(w, deeds[..|deeds| - 1]), deeds[|deeds| - 1])
  }

  /** Over every history that starts with an empty warehouse, at every moment each
      live task is held by exactly the robot it names, and each robot that names a
      task is the one that task names. */
  lemma {:induction false} CustodyAlways(deeds: seq<Deed>)
    ensures var w := AfterAll(World(map[], map[]), deeds);
            && Linked(w)
            && forall t | t in w.tasks && w.tasks[t].IsLive() :: HeldByExactlyOne(w, t)
  {
    hide Linked, Done, Allowed;
    NothingIsLinked();
    if deeds != [] {
      var n := |deeds| - 1;
      CustodyAlways(deeds[..n]);
      var before := AfterAll(World(map[], map[]), deeds[..n]);
      if Allowed(before, deeds[n]) {
        DeedKeepsLinks(before, deeds[n]);
      } else {
        RefusedChangesNothing(before, deeds[n]);
      }
    }
    var w := AfterAll(World(map[], map[]), deeds);
    forall t | t in w.tasks && w.tasks[t].IsLive()
      ensures HeldByExactlyOne(w, t)
    {
      LinkedMeansCustody(w);
      OneHolder(w.fleet, w.tasks, t);
    }
  }

  /** The steps a task can take in its life. */
  ghost predicate LifeStep(before: TaskStatus, after: TaskStatus) {
    || after == before
    || (before == Pending && after == Assigned) || (before == Assigned && after == Pending)
    || (before == Assigned && after == InProgress) || (before == InProgress && after == Completed)
    || (after == Failed && before != Completed)
  }

  /** Whatever is done, no task is lost, none takes another step, and one that is over
      is left alone. */
  lemma DeedLetsTasksLive(w: World, d: Deed, t: string)
    requires t in w.tasks
    ensures var w' := Done(w, d);
            && t in w'.tasks && LifeStep(w.tasks[t].status, w'.tasks[t].status)
            && (!w.tasks[t].IsOpen() ==> w'.tasks[t] == w.tasks[t])
  {
    hide RobotView.CanCarry, DistinctRobotsAndTasks;
    if Allowed(w, d) && d.CommitAll? {
      Assignable(w.fleet, w.tasks, d.list);
      TasksAfterAssigning(w.tasks, d.list);
    }
  }

  /** A task that is completed, or has failed, stays so for good. */
  lemma {:induction false} OverIsOver(w: World, deeds: seq<Deed>, t: string)
    requires t in w.tasks && !w.tasks[t].IsOpen()
    ensures t in AfterAll(w, deeds).tasks && AfterAll(w, deeds).tasks[t] == w.tasks[t]
  {
    hide Done;
    if deeds != [] {
      OverIsOver(w, deeds[..|deeds| - 1], t);
      DeedLetsTasksLive(AfterAll(w, deeds[..|deeds| - 1]), deeds[|deeds| - 1], t);
    }
  }

  ghost predicate HeldByExactlyOne(w: World, t: string) {
    exists r :: r in w.fleet && w.fleet[r].assignedTask == Some(t)
                && forall other | other in w.fleet && w.fleet[other].assignedTask == Some(t) :: other == r
  }

  lemma NothingIsLinked()
    ensures Linked(World(map[], map[])) && AfterAll(World(map[], map[]), []) == World(map[], map[])
  {
  }

  lemma RefusedChangesNothing(w: World, d: Deed)
    requires !Allowed(w, d)
    ensures Done(w, d) == w
  {
  }

  lemma LinkedMeansCustody(w: World)
    requires Linked(w)
    ensures Custody(w.fleet, w.tasks)
  {
  }
}
