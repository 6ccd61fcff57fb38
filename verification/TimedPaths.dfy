/** Routes through space and time. */
module TimedPaths {
  import opened Floors

  datatype TimedStep = TimedStep(position: Position, timestep: int)

  datatype PlanFailure =
    | StartOutOfBounds | GoalOutOfBounds | StartCellBlocked | GoalCellBlocked
    | StartReserved | SpatiallyUnreachable | GoalHeld | HorizonExceeded

  datatype TimedPath =
    | Planned(robotId: string, steps: seq<TimedStep>)
    | Unplanned(robotId: string, reason: PlanFailure)

  /** Step `i` of a route is at time `start + i`. */
  predicate WellTimed(steps: seq<TimedStep>) {
    && |steps| > 0
    && forall i | 0 <= i < |steps| :: steps[i].timestep == steps[0].timestep + i
  }

  function StartTime(steps: seq<TimedStep>): int
    requires |steps| > 0
  {
    steps[0].timestep
  }

  function ArrivalTime(steps: seq<TimedStep>): int
    requires |steps| > 0
  {
    steps[|steps| - 1].timestep
  }

  function Goal(steps: seq<TimedStep>): Position
    requires |steps| > 0
  {
    steps[|steps| - 1].position
  }

  datatype Lookup = Nowhere | Cell(position: Position) | IndexError

  /** Where the robot is at `t`: the start cell before it leaves, the goal cell
      once it has arrived. The step list is indexed by the time offset, so a
      route whose timesteps have gaps can be indexed past its end. */
  function PositionAt(steps: seq<TimedStep>, t: int): Lookup {
    if steps == [] then Nowhere
    else if t <= StartTime(steps) then Cell(steps[0].position)
    else if t >= ArrivalTime(steps) then Cell(Goal(steps))
    else if t - StartTime(steps) < |steps| then Cell(steps[t - StartTime(steps)].position)
    else IndexError
  }

  /** The same for a well-timed route, where it always is a cell. */
  function At(steps: seq<TimedStep>, t: int): Position
    requires WellTimed(steps)
  {
    PositionAt(steps, t).position
  }

  function Moves(steps: seq<TimedStep>): nat {
    if |steps| < 2 then 0
    else Moves(steps[..|steps| - 1]) + if steps[|steps| - 2].position != steps[|steps| - 1].position then 1 else 0
  }

  function Waits(steps: seq<TimedStep>): nat {
    if |steps| < 2 then 0
    else Waits(steps[..|steps| - 1]) + if steps[|steps| - 2].position == steps[|steps| - 1].position then 1 else 0
  }

  /** Every timestep between departure and arrival is a move or a wait. */
  lemma {:induction false} MovesAndWaits(steps: seq<TimedStep>)
    requires WellTimed(steps)
    ensures Moves(steps) + Waits(steps) == ArrivalTime(steps) - StartTime(steps) == |steps| - 1
  {
    if |steps| > 1 {
      MovesAndWaits(steps[..|steps| - 1]);
    }
  }

  // ---------- Safety of one route and of a pair ----------

  /** Every cell can be stood on, and every step is one move or a wait. */
  ghost predicate Drivable(f: Floor, steps: seq<TimedStep>) {
    && (forall i | 0 <= i < |steps| :: f.Traversable(steps[i].position))
    && Stepwise(steps)
  }

  ghost predicate Stepwise(steps: seq<TimedStep>) {
    forall i | 0 <= i < |steps| - 1 :: Manhattan(steps[i].position, steps[i + 1].position) <= 1
  }

  ghost predicate NoMeeting(a: seq<TimedStep>, b: seq<TimedStep>, t: int)
    requires WellTimed(a) && WellTimed(b)
  {
    At(a, t) != At(b, t)
  }

  ghost predicate NoSwap(a: seq<TimedStep>, b: seq<TimedStep>, t: int)
    requires WellTimed(a) && WellTimed(b)
  {
    !(At(a, t) == At(b, t + 1) && At(a, t + 1) == At(b, t))
  }

  /** From `from` on, the two never share a cell and never trade cells. */
  ghost predicate Apart(a: seq<TimedStep>, b: seq<TimedStep>, from: int)
    requires WellTimed(a) && WellTimed(b)
  {
    forall t | from <= t :: NoMeeting(a, b, t) && NoSwap(a, b, t)
  }

  /** After both have arrived nothing changes, so a horizon settles the rest. */
  lemma ApartFromHorizon(a: seq<TimedStep>, b: seq<TimedStep>, from: int, horizon: int)
    requires WellTimed(a) && WellTimed(b)
    requires ArrivalTime(a) <= horizon && ArrivalTime(b) <= horizon && from <= horizon
    requires forall t | from <= t <= horizon :: NoMeeting(a, b, t)
    requires forall t | from <= t < horizon :: NoSwap(a, b, t)
    ensures Apart(a, b, from)
  {
    forall t | from <= t
      ensures NoMeeting(a, b, t) && NoSwap(a, b, t)
    {
      if t >= horizon {
        assert NoMeeting(a, b, horizon);
      }
    }
  }

  lemma ApartSymmetric(a: seq<TimedStep>, b: seq<TimedStep>, from: int)
    requires WellTimed(a) && WellTimed(b) && Apart(a, b, from)
    ensures Apart(b, a, from)
  {
    forall t | from <= t
      ensures NoMeeting(b, a, t) && NoSwap(b, a, t)
    {
      assert NoMeeting(a, b, t) && NoSwap(a, b, t);
    }
  }

  /** One timestep of a drivable route is one move or a wait on the floor. */
  lemma AtDrivable(f: Floor, steps: seq<TimedStep>, t: int)
    requires WellTimed(steps) && Drivable(f, steps)
    ensures f.Traversable(At(steps, t)) && Manhattan(At(steps, t), At(steps, t + 1)) <= 1
  {
    var i := t - StartTime(steps);
    if 0 <= i < |steps| - 1 {
      assert Manhattan(steps[i].position, steps[i + 1].position) <= 1;
    }
  }
}
