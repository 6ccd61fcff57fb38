/** One synchronised timestep: validate the whole joint move, then commit it. */
module Driving {
  import opened Floors
  import opened TimedPaths
  import opened Simulation
  import opened Names

  /** Where each robot stands and where it wants to be one timestep later. */
  datatype Intent = Intent(from: Position, to: Position)

  type Intents = map<string, Intent>

  datatype StopReason =
    | RobotOffline | OutOfPlace | CannotHold | OffFloor | NextCellBlocked | NotOneStep | NoBattery
    | OntoFailedRobot | VertexClash | EdgeClash

  // ---------- When a joint step may be taken ----------

  ghost predicate StepOk(r: RobotView, floor: Floor, i: Intent) {
    && r.status != Offline && r.position == i.from
    && if i.from == i.to then floor.Traversable(i.from)
       else floor.Traversable(i.to) && Adjacent(i.from, i.to) && r.HasBatteryForMove()
  }

  ghost predicate Separate(a: Intent, b: Intent) {
    a.to != b.to && !Trade(a, b)
  }

  ghost predicate Trade(a: Intent, b: Intent) {
    a.from != a.to && b.from != b.to && a.from == b.to && a.to == b.from
  }

  ghost predicate JointStepOk(fleet: Fleet, floor: Floor, intents: Intents, failedCells: set<Position>) {
    && intents.Keys <= fleet.Keys
    && (forall id | id in intents :: StepOk(fleet[id], floor, intents[id]) && intents[id].to !in failedCells)
    && (forall a, b | a in intents && b in intents && a != b :: Separate(intents[a], intents[b]))
  }

  /** What a committed joint step does: movers move, everybody else is as before. */
  ghost function DriveAll(fleet: Fleet, intents: Intents): Fleet {
    map id | id in fleet :: if id in intents && intents[id].from != intents[id].to
        then fleet[id].MovedTo(intents[id].to) else fleet[id]
  }

  // ---------- Phase 1 ----------

  method WhyNotStep(robot: Robot, floor: Floor, i: Intent) returns (stop: Option<StopReason>)
    ensures stop.None? <==> StepOk(robot.View(), floor, i)
    ensures stop.Some? ==> stop.value != VertexClash && stop.value != EdgeClash && stop.value != OntoFailedRobot
    ensures stop == Some(NoBattery) ==> !robot.View().HasBatteryForMove()
    ensures stop == Some(RobotOffline) ==> robot.status == Offline
    ensures stop.Some? && stop.value != RobotOffline && stop.value != NoBattery ==>
              robot.position != i.from || !floor.Traversable(i.to) || (i.from != i.to && !Adjacent(i.from, i.to))
  {
    if robot.status == Offline {
      return Some(RobotOffline);
    }
    if robot.position != i.from {
      return Some(OutOfPlace);
    }
    if i.from == i.to {
      return if floor.Traversable(i.from) then None else Some(CannotHold);
    }
    if !floor.InBounds(i.to) {
      return Some(OffFloor);
    }
    if !floor.Traversable(i.to) {
      return Some(NextCellBlocked);
    }
    if !Adjacent(i.from, i.to) {
      return Some(NotOneStep);
    }
    if !(robot.battery >= robot.drain) {
      return Some(NoBattery);
    }
    return None;
  }

  ghost predicate AllStepsOk(fleet: Fleet, floor: Floor, order: seq<string>, intents: Intents) {
    forall id | id in order :: id in fleet && id in intents && StepOk(fleet[id], floor, intents[id])
  }

  method StepProblem(sim: Simulator, floor: Floor, order: seq<string>, intents: Intents)
    returns (stop: Option<StopReason>, ghost who: string)
    requires sim.Valid() && forall id | id in order :: id in intents && id in sim.robots
    ensures stop.None? <==> AllStepsOk(sim.FleetView(), floor, order, intents)
    ensures stop.Some? ==> who in order && WhyStopped(sim.FleetView(), floor, intents, who, stop.value)
  {
    who := "";
    for k := 0 to |order|
      invariant forall id | id in order[..k] :: StepOk(sim.FleetView()[id], floor, intents[id])
    {
      assert order[..k + 1] == order[..k] + [order[k]];
      stop := WhyNotStep(sim.robots[order[k]], floor, intents[order[k]]);
      if stop.Some? {
        return stop, order[k];
      }
    }
    assert order[..|order|] == order;
    return None, who;
  }

  ghost predicate DestinationsOk(order: seq<string>, intents: Intents, failedCells: set<Position>)
    requires forall id | id in order :: id in intents
  {
    && (forall id | id in order :: intents[id].to !in failedCells)
    && (forall a, b | a in order && b in order && a != b :: intents[a].to != intents[b].to)
  }

  ghost predicate NoTrades(order: seq<string>, intents: Intents)
    requires forall id | id in order :: id in intents
  {
    forall a, b | a in order && b in order && a != b :: !Trade(intents[a], intents[b])
  }

  ghost predicate ClashExplained(order: seq<string>, intents: Intents, failedCells: set<Position>, stop: StopReason)
    requires forall id | id in order :: id in intents
  {
    || (stop == VertexClash && exists a, b :: a in order && b in order && a != b && intents[a].to == intents[b].to)
    || (stop == EdgeClash && exists a, b :: a in order && b in order && a != b && Trade(intents[a], intents[b]))
    || (stop == OntoFailedRobot && exists id :: id in order && intents[id].to in failedCells)
  }

  /** Two robots that want the same cell, or one that wants a failed robot's. */
  method DestinationProblem(order: seq<string>, intents: Intents, failedCells: set<Position>)
    returns (stop: Option<StopReason>)
    requires Distinct(order) && forall id | id in order :: id in intents
    ensures stop.None? <==> DestinationsOk(order, intents, failedCells)
    ensures stop.Some? ==> ClashExplained(order, intents, failedCells, stop.value)
  {
    var dests: map<Position, string> := map[];
    for k := 0 to |order|
      invariant forall id | id in order[..k] ::
                intents[id].to !in failedCells && intents[id].to in dests && dests[intents[id].to] == id
      invariant forall cell | cell in dests :: dests[cell] in order[..k] && intents[dests[cell]].to == cell
    {
      var id := order[k];
      assert order[..k + 1] == order[..k] + [id] && id !in order[..k];
      var cell := intents[id].to;
      if cell in failedCells {
        return Some(OntoFailedRobot);
      }
      if cell in dests {
        assert dests[cell] in order && dests[cell] != id;
        return Some(VertexClash);
      }
      dests := dests[cell := id];
    }
    assert order[..|order|] == order;
    return None;
  }

  /** Two robots that would trade places, each pair looked at once. */
  method SwapProblem(order: seq<string>, intents: Intents) returns (stop: Option<StopReason>)
    requires forall id | id in order :: id in intents
    ensures stop.None? <==> NoTrades(order, intents)
    ensures stop.Some? ==> ClashExplained(order, intents, {}, stop.value)
  {
    for k := 0 to |order|
      invariant forall a, b | a in order[..k] && b in order && Before(a, b) :: !Trade(intents[a], intents[b])
    {
      var a := order[k];
      assert order[..k + 1] == order[..k] + [a];
      for l := 0 to |order|
        invariant forall b | b in order[..l] && Before(a, b) :: !Trade(intents[a], intents[b])
      {
        var b := order[l];
        assert order[..l + 1] == order[..l] + [b];
        var ia, ib := intents[a], intents[b];
        if Before(a, b) && ia.from != ia.to && ib.from != ib.to && ia.from == ib.to && ia.to == ib.from {
          BeforeIsStrict(a, b);
          assert a in order && b in order && Trade(intents[a], intents[b]);
          return Some(EdgeClash);
        }
      }
      assert order[..|order|] == order;
    }
    assert order[..|order|] == order;
    forall a, b | a in order && b in order && a != b
      ensures !Trade(intents[a], intents[b])
    {
      BeforeIsStrict(a, b);
      assert Trade(intents[a], intents[b]) == Trade(intents[b], intents[a]);
    }
    return None;
  }

  lemma ExplainedByStep(fleet: Fleet, floor: Floor, intents: Intents, failedCells: set<Position>, who: string,
          stop: StopReason)
    requires WhyStopped(fleet, floor, intents, who, stop)
    ensures stop != VertexClash && stop != EdgeClash && stop != OntoFailedRobot
             && Explained(fleet, floor, intents, failedCells, stop)
  {
  }

  lemma PhasesDecide(fleet: Fleet, floor: Floor, order: seq<string>, intents: Intents, failedCells: set<Position>)
    requires (forall id :: id in order <==> id in intents) && intents.Keys <= fleet.Keys
    ensures JointStepOk(fleet, floor, intents, failedCells) <==>
              && AllStepsOk(fleet, floor, order, intents)
              && DestinationsOk(order, intents, failedCells) && NoTrades(order, intents)
    ensures forall stop | ClashExplained(order, intents, failedCells, stop)
             || ClashExplained(order, intents, {}, stop) ::
              Explained(fleet, floor, intents, failedCells, stop)
  {
    hide StepOk, Trade;
  }

  /** The whole check of one joint step. Nothing is moved. */
  method ValidateJointStep(sim: Simulator, order: seq<string>, intents: Intents, failedCells: set<Position>)
    returns (stop: Option<StopReason>)
    requires sim.Valid() && Distinct(order) && (forall id :: id in order <==> id in intents)
             && intents.Keys <= sim.robots.Keys
    ensures stop.None? <==> JointStepOk(sim.FleetView(), sim.warehouse.FloorPlan(), intents, failedCells)
    ensures stop.Some? ==> Explained(sim.FleetView(), sim.warehouse.FloorPlan(), intents, failedCells, stop.value)
  {
    hide StepOk, Trade, AllStepsOk, JointStepOk, Distinct, WhyStopped, DestinationsOk, NoTrades, ClashExplained,
         Explained, Simulator.FleetView, Simulator.Valid;
    assert sim.FleetView().Keys == sim.robots.Keys by {
      sim.Entries();
    }
    PhasesDecide(sim.FleetView(), sim.warehouse.FloorPlan(), order, intents, failedCells);
    ghost var who;
    stop, who := StepProblem(sim, sim.warehouse.FloorPlan(), order, intents);
    if stop.Some? {
      ExplainedByStep(sim.FleetView(), sim.warehouse.FloorPlan(), intents, failedCells, who, stop.value);
      return;
    }
    stop := DestinationProblem(order, intents, failedCells);
    if stop.Some? {
      return;
    }
    stop := SwapProblem(order, intents);
  }

  /** The robot a step was refused for, and what was wrong with it. */
  ghost predicate WhyStopped(fleet: Fleet, floor: Floor, intents: Intents, id: string, stop: StopReason) {
    && id in fleet && id in intents && !StepOk(fleet[id], floor, intents[id])
    && stop != VertexClash && stop != EdgeClash && stop != OntoFailedRobot
    && (stop == NoBattery ==> !fleet[id].HasBatteryForMove())
    && (stop == RobotOffline ==> fleet[id].status == Offline)
    && (stop != RobotOffline && stop != NoBattery ==>
          fleet[id].position != intents[id].from || !floor.Traversable(intents[id].to)
          || (intents[id].from != intents[id].to && !Adjacent(intents[id].from, intents[id].to)))
  }

  /** A refused joint step names something that really is wrong. */
  ghost predicate Explained(fleet: Fleet, floor: Floor, intents: Intents, failedCells: set<Position>,
          stop: StopReason)
  {
    match stop
    case VertexClash => exists a, b :: a in intents && b in intents && a != b && intents[a].to == intents[b].to
    case EdgeClash => exists a, b :: a in intents && b in intents && a != b && Trade(intents[a], intents[b])
    case OntoFailedRobot => exists id :: id in intents && intents[id].to in failedCells
    case _ => exists id :: id in intents && WhyStopped(fleet, floor, intents, id, stop)
  }

  /** Intents that are pairwise separate and off failed cells never clash. */
  lemma NoClashReason(fleet: Fleet, floor: Floor, intents: Intents, failedCells: set<Position>, stop: StopReason)
    requires Explained(fleet, floor, intents, failedCells, stop)
    requires forall a, b | a in intents && b in intents && a != b :: Separate(intents[a], intents[b])
    ensures stop != VertexClash && stop != EdgeClash
    ensures (forall id | id in intents :: intents[id].to !in failedCells) ==> stop != OntoFailedRobot
  {
  }

  // ---------- Phase 2 ----------

  ghost function Driven(r: RobotView, i: Intent): RobotView {
    if i.from != i.to then r.MovedTo(i.to) else r
  }

  ghost function DriveSome(fleet: Fleet, intents: Intents, ids: seq<string>): Fleet
    requires forall id | id in ids :: id in intents
  {
    map id | id in fleet :: if id in ids then Driven(fleet[id], intents[id]) else fleet[id]
  }

  method DriveOne(sim: Simulator, id: string, i: Intent)
    requires sim.Valid() && id in sim.robots
    requires i.from != i.to ==> sim.FleetView()[id].CanMoveTo(i.to)
    modifies sim.robots.Values
    ensures sim.Valid() && sim.robots == old(sim.robots) && sim.TaskViews() == old(sim.TaskViews())
    ensures sim.FleetView() == old(sim.FleetView())[id := Driven(old(sim.FleetView())[id], i)]
  {
    if i.from != i.to {
      var raised := sim.robots[id].MoveTo(i.to);
      sim.OnlyRobot(id);
    }
  }

  /** Move every robot that wants to move. After phase 1 no move is refused. */
  method CommitMoves(sim: Simulator, order: seq<string>, intents: Intents)
    requires sim.Valid() && Distinct(order) && (forall id :: id in order <==> id in intents)
             && intents.Keys <= sim.robots.Keys
    requires forall id | id in intents && intents[id].from != intents[id].to ::
             sim.FleetView()[id].CanMoveTo(intents[id].to)
    modifies sim.robots.Values
    ensures sim.Valid() && sim.robots == old(sim.robots) && sim.TaskViews() == old(sim.TaskViews())
    ensures sim.FleetView() == DriveAll(old(sim.FleetView()), intents)
  {
    hide Simulator.FleetView, Simulator.TaskViews, Simulator.Valid;
    assert sim.FleetView().Keys == sim.robots.Keys by {
      sim.Entries();
    }
    for k := 0 to |order|
      invariant sim.Valid() && sim.robots == old(sim.robots) && sim.TaskViews() == old(sim.TaskViews())
      invariant sim.FleetView() == DriveSome(old(sim.FleetView()), intents, order[..k])
    {
      var id := order[k];
      assert order[..k + 1] == order[..k] + [id] && id !in order[..k];
      DriveOne(sim, id, intents[id]);
    }
    assert order[..|order|] == order;
  }

  lemma StepMayMove(fleet: Fleet, floor: Floor, intents: Intents, failedCells: set<Position>)
    requires JointStepOk(fleet, floor, intents, failedCells)
    ensures forall id | id in intents && intents[id].from != intents[id].to ::
             id in fleet && fleet[id].CanMoveTo(intents[id].to)
  {
  }

  /** Validate first, commit second: a joint step is taken whole or not at all. */
  method JointStep(sim: Simulator, order: seq<string>, intents: Intents, failedCells: set<Position>)
    returns (stop: Option<StopReason>)
    requires sim.Valid() && Distinct(order) && (forall id :: id in order <==> id in intents)
             && intents.Keys <= sim.robots.Keys
    modifies sim.robots.Values
    ensures sim.Valid() && sim.robots == old(sim.robots) && sim.TaskViews() == old(sim.TaskViews())
    ensures sim.warehouse.FloorPlan() == old(sim.warehouse.FloorPlan())
    ensures stop.None? <==> JointStepOk(old(sim.FleetView()), sim.warehouse.FloorPlan(), intents, failedCells)
    ensures sim.FleetView() == if stop.None? then DriveAll(old(sim.FleetView()), intents) else old(sim.FleetView())
    ensures stop.Some? ==> Explained(old(sim.FleetView()), sim.warehouse.FloorPlan(), intents, failedCells, stop.value)
  {
    hide Simulator.Valid, Simulator.FleetView, Simulator.TaskViews, JointStepOk, DriveAll, Explained;
    stop := ValidateJointStep(sim, order, intents, failedCells);
    if stop.None? {
      assert sim.FleetView().Keys == sim.robots.Keys by {
        sim.Entries();
      }
      StepMayMove(sim.FleetView(), sim.warehouse.FloorPlan(), intents, failedCells);
      CommitMoves(sim, order, intents);
    }
  }
}
