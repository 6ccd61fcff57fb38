/** What holds at every moment of a run with disruptions. */
module Resilience {
  import opened Floors
  import opened TimedPaths
  import opened Reservations
  import opened SpaceTime
  import opened Simulation
  import opened Driving
  import opened Names
  import opened Replanning
  import SpatialPlanning
  import Execution
  import Coordinator

  // ---------- The state of a run ----------

  /** A snapshot of the run: the routes being driven and the goals they lead to,
      what has been driven, who has failed and who has stopped for safety. */
  datatype Snap = Snap(paths: Plans, goals: map<string, Position>, trace: Plans, moves: map<string, nat>,
          waits: map<string, nat>, horizon: int, offline: set<string>, safeStopped: set<string>)
  {
    function Live(): set<string> {
      paths.Keys - offline
    }

    function Movers(): set<string> {
      Live() - safeStopped
    }
  }

  /** The records of one coordinated robot agree with where it is. */
  ghost predicate RecordOk(s: Snap, fleet: Fleet, now: int, id: string) {
    && id in s.paths && id in s.trace && id in s.goals && id in s.moves && id in s.waits && id in fleet
    && WellTimed(s.trace[id]) && ArrivalTime(s.trace[id]) <= now && Goal(s.trace[id]) == fleet[id].position
    && s.moves[id] == Moves(s.trace[id]) && s.waits[id] <= Waits(s.trace[id])
  }

  ghost predicate Recorded(s: Snap, fleet: Fleet, now: int) {
    && Underway(s.paths, now) && s.trace.Keys == s.paths.Keys && s.offline <= fleet.Keys
    && forall id | id in s.paths :: RecordOk(s, fleet, now, id)
  }

  /** A robot that is still under way has been recorded up to now. */
  ghost predicate Present(s: Snap, fleet: Fleet, now: int, id: string) {
    id in fleet && id in s.trace && s.trace[id] != [] && fleet[id].status != Offline && ArrivalTime(s.trace[id]) == now
  }

  /** From now on every timestep is one move or a wait on cells that are free. */
  ghost predicate Ahead(floor: Floor, steps: seq<TimedStep>, now: int)
    requires WellTimed(steps)
  {
    forall t | now <= t :: floor.Traversable(At(steps, t)) && Manhattan(At(steps, t), At(steps, t + 1)) <= 1
  }

  /** Its route leads from where it is to its goal, in time and on free cells. */
  ghost predicate Routed(s: Snap, fleet: Fleet, floor: Floor, now: int, id: string) {
    && id in s.paths && id in s.goals && id in fleet && WellTimed(s.paths[id])
    && ArrivalTime(s.paths[id]) <= s.horizon && Goal(s.paths[id]) == s.goals[id]
    && At(s.paths[id], now) == fleet[id].position
    && Ahead(floor, s.paths[id], now)
  }

  /** The run is sound but for the robots of `rest`, which await a new route:
      records agree, everybody under way is online and has a good route, and no
      two of those routes meet or swap from now on. */
  ghost predicate SoundBut(s: Snap, fleet: Fleet, floor: Floor, now: int, rest: set<string>) {
    && Recorded(s, fleet, now)
    && (forall id | id in s.Movers() :: Present(s, fleet, now, id))
    && (forall id | id in s.Movers() - rest :: Routed(s, fleet, floor, now, id))
    && AllApart(s.paths, s.Movers() - rest, now)
  }

  ghost predicate Sound(s: Snap, fleet: Fleet, floor: Floor, now: int) {
    SoundBut(s, fleet, floor, now, {})
  }

  ghost function Pins(s: Snap, fleet: Fleet): map<string, Position> {
    map o | o in s.offline && o in fleet :: fleet[o].position
  }

  /** No route still to be driven has a step on a failed robot's cell. */
  ghost predicate StepsClearBut(s: Snap, fleet: Fleet, now: int, rest: set<string>) {
    forall id, o | id in s.Movers() - rest && o in Pins(s, fleet) ::
        !RouteTouchesCell(s.paths[id], Pins(s, fleet)[o], now)
  }

  ghost predicate StepsClear(s: Snap, fleet: Fleet, now: int) {
    StepsClearBut(s, fleet, now, {})
  }

  /** Nobody under way has arrived on a failed robot's cell. */
  ghost predicate ArrivedClear(s: Snap, fleet: Fleet, now: int) {
    forall id, o | id in s.Movers() && o in Pins(s, fleet) && s.paths[id] != [] && ArrivalTime(s.paths[id]) < now ::
      id in fleet && fleet[id].position != Pins(s, fleet)[o]
  }

  /** Nobody who has already arrived shares its cell with a failed robot, and no
      two failed robots share one. */
  ghost predicate ParkedClear(s: Snap, fleet: Fleet, now: int) {
    && ArrivedClear(s, fleet, now)
    && (forall a, b | a in Pins(s, fleet) && b in Pins(s, fleet) && a != b :: Pins(s, fleet)[a] != Pins(s, fleet)[b])
  }

  // ---------- Replanning one robot ----------

  ghost function QueryOf(s: Snap, floor: Floor, now: int, id: string, c: Claims): Query
    requires id in s.trace && s.trace[id] != [] && id in s.goals
  {
    Query(floor, c, id, Goal(s.trace[id]), now, s.goals[id], s.horizon, SpatialPlanning.MANHATTAN)
  }

  /** A new route continues what was driven; without one the robot stays put. */
  ghost function Rerouted(s: Snap, now: int, id: string, path: TimedPath): Snap
    requires id in s.trace && s.trace[id] != []
  {
    if path.Planned? then s.(paths := s.paths[id := Splice(s.trace[id], path.steps)])
    else s.(paths := s.paths[id := Splice(s.trace[id], [TimedStep(Goal(s.trace[id]), now)])],
        safeStopped := s.safeStopped + {id})
  }

  /** The table keeps a newcomer clear of everybody who has a route. */
  ghost predicate Guards(c: Claims, s: Snap, now: int, rest: set<string>)
    requires Execution.Timed(s.paths)
  {
    c.Anchored() && HoldsAll(c, s.paths, s.Movers() - rest, now, s.horizon)
  }

  lemma SoundParts(s: Snap, fleet: Fleet, floor: Floor, now: int, rest: set<string>, id: string)
    requires SoundBut(s, fleet, floor, now, rest) && id in s.Movers()
    ensures Execution.Timed(s.paths) && RecordOk(s, fleet, now, id) && Present(s, fleet, now, id)
    ensures id !in rest ==> Routed(s, fleet, floor, now, id)
  {
  }

  /** A legal new route, spliced on, is a good route that keeps clear of the rest. */
  lemma NewRouteIsGood(s: Snap, fleet: Fleet, floor: Floor, now: int, id: string, c: Claims, path: TimedPath)
    requires RecordOk(s, fleet, now, id) && Present(s, fleet, now, id)
    requires path.Planned? && LegalRoute(QueryOf(s, floor, now, id, c), path.steps)
    ensures var s' := Rerouted(s, now, id, path);
            && Routed(s', fleet, floor, now, id) && StartTime(s'.paths[id]) <= now <= ArrivalTime(s'.paths[id])
            && WellTimed(path.steps) && StartTime(path.steps) == now
            && forall t | now <= t :: At(s'.paths[id], t) == At(path.steps, t)
  {
    hide Moves, Waits, At;
    SpliceJoins(s.trace[id], path.steps);
    assert Ahead(floor, path.steps, now) by {
      forall t | now <= t
        ensures floor.Traversable(At(path.steps, t)) && Manhattan(At(path.steps, t), At(path.steps, t + 1)) <= 1
      {
        AtDrivable(floor, path.steps, t);
      }
    }
    StartIsThere(path.steps, now);
  }

  lemma StartIsThere(steps: seq<TimedStep>, now: int)
    requires WellTimed(steps) && StartTime(steps) == now
    ensures At(steps, now) == steps[0].position
  {
  }

  /** What matters of a route from now on. */
  lemma SameFutureApart(a: seq<TimedStep>, a': seq<TimedStep>, b: seq<TimedStep>, now: int)
    requires WellTimed(a) && WellTimed(a') && WellTimed(b)
    requires forall t | now <= t :: At(a', t) == At(a, t)
    requires Apart(a, b, now)
    ensures Apart(a', b, now) && Apart(b, a', now)
  {
    hide At, WellTimed;
    forall t | now <= t
      ensures NoMeeting(a', b, t) && NoSwap(a', b, t)
    {
      assert NoMeeting(a, b, t) && NoSwap(a, b, t);
    }
    ApartSymmetric(a', b, now);
  }

  lemma SameFutureHeld(c: Claims, id: string, a: seq<TimedStep>, a': seq<TimedStep>, now: int, horizon: int)
    requires WellTimed(a) && WellTimed(a') && c.Holds(id, a, now, horizon)
    requires forall t | now <= t :: At(a', t) == At(a, t)
    ensures c.Holds(id, a', now, horizon)
  {
    hide At, WellTimed;
  }

  lemma NewcomerApart(s: Snap, fleet: Fleet, floor: Floor, now: int, rest: set<string>, id: string, c: Claims,
          path: TimedPath, other: string)
    requires SoundBut(s, fleet, floor, now, rest) && id in s.Movers() && id in rest && other in s.Movers() - rest
    requires Guards(c, s, now, rest) && path.Planned? && LegalRoute(QueryOf(s, floor, now, id, c), path.steps)
    ensures var s' := Rerouted(s, now, id, path);
            && id in s'.paths && other in s'.paths && WellTimed(s'.paths[id]) && WellTimed(s'.paths[other])
            && Apart(s'.paths[id], s'.paths[other], now) && Apart(s'.paths[other], s'.paths[id], now)
  {
    hide LegalRoute, Moves, Waits, At, Splice, WellTimed, Claims.Holds, Apart, RouteTouchesCell, Claims.Anchored, Ahead;
    SoundParts(s, fleet, floor, now, rest, id);
    SoundParts(s, fleet, floor, now, rest, other);
    NewRouteIsGood(s, fleet, floor, now, id, c, path);
    Coordinator.LegalRouteApart(QueryOf(s, floor, now, id, c), path.steps, other, s.paths[other]);
    SameFutureApart(path.steps, Rerouted(s, now, id, path).paths[id], s.paths[other], now);
  }

  lemma ReroutedRecords(s: Snap, fleet: Fleet, floor: Floor, now: int, id: string, c: Claims, path: TimedPath)
    requires Recorded(s, fleet, now) && id in s.paths && Present(s, fleet, now, id)
    requires path.Planned? ==> LegalRoute(QueryOf(s, floor, now, id, c), path.steps)
    ensures Recorded(Rerouted(s, now, id, path), fleet, now)
  {
    hide LegalRoute, Moves, Waits, At, Splice, Ahead, RouteTouchesCell;
    assert RecordOk(s, fleet, now, id);
    var s' := Rerouted(s, now, id, path);
    if path.Planned? {
      NewRouteIsGood(s, fleet, floor, now, id, c, path);
      assert WellTimed(s'.paths[id]);
    } else {
      SpliceStop(s.trace[id]);
      LastStep(s.trace[id]);
      assert s'.paths[id] == s.trace[id];
    }
    forall x | x in s'.paths
      ensures WellTimed(s'.paths[x]) && StartTime(s'.paths[x]) <= now && RecordOk(s', fleet, now, x)
    {
      assert RecordOk(s, fleet, now, x);
    }
  }

  lemma LastStep(steps: seq<TimedStep>)
    requires WellTimed(steps)
    ensures steps[|steps| - 1] == TimedStep(Goal(steps), ArrivalTime(steps)) && StartTime(steps) <= ArrivalTime(steps)
  {
  }

  /** A robot that got a route joins those that have one. */
  lemma RerouteSucceeds(s: Snap, fleet: Fleet, floor: Floor, now: int, rest: set<string>, id: string, c: Claims,
          path: TimedPath)
    requires SoundBut(s, fleet, floor, now, rest) && id in s.Movers() && id in rest
    requires Guards(c, s, now, rest) && path.Planned? && LegalRoute(QueryOf(s, floor, now, id, c), path.steps)
    ensures SoundBut(Rerouted(s, now, id, path), fleet, floor, now, rest - {id})
  {
    hide LegalRoute, Moves, Waits, At, Splice, WellTimed, Claims.Holds, Apart, RouteTouchesCell, Claims.Anchored,
         Ahead, RecordOk, Underway, Guards;
    var s' := Rerouted(s, now, id, path);
    SoundParts(s, fleet, floor, now, rest, id);
    ReroutedRecords(s, fleet, floor, now, id, c, path);
    NewRouteIsGood(s, fleet, floor, now, id, c, path);
    assert s'.Movers() - (rest - {id}) == (s.Movers() - rest) + {id};
    forall x | x in s.Movers() - rest
      ensures Routed(s', fleet, floor, now, x)
    {
      SoundParts(s, fleet, floor, now, rest, x);
    }
    forall a, b | a in s'.Movers() - (rest - {id}) && b in s'.Movers() - (rest - {id}) && a != b
      ensures WellTimed(s'.paths[a]) && WellTimed(s'.paths[b]) && Apart(s'.paths[a], s'.paths[b], now)
    {
      if a == id {
        NewcomerApart(s, fleet, floor, now, rest, id, c, path, b);
      } else if b == id {
        NewcomerApart(s, fleet, floor, now, rest, id, c, path, a);
      } else {
        SoundParts(s, fleet, floor, now, rest, a);
        SoundParts(s, fleet, floor, now, rest, b);
      }
    }
  }

  /** A robot that got none leaves the robots under way. */
  lemma RerouteFails(s: Snap, fleet: Fleet, floor: Floor, now: int, rest: set<string>, id: string, c: Claims,
          path: TimedPath)
    requires SoundBut(s, fleet, floor, now, rest) && id in s.Movers() && id in rest && path.Unplanned?
    ensures SoundBut(Rerouted(s, now, id, path), fleet, floor, now, rest - {id})
  {
    hide Moves, Waits, At, Splice, Apart, RouteTouchesCell, Ahead, RecordOk, Underway, Rerouted, WellTimed;
    var s' := Rerouted(s, now, id, path);
    SoundParts(s, fleet, floor, now, rest, id);
    ReroutedRecords(s, fleet, floor, now, id, c, path);
    ReroutedParts(s, now, id, path);
    assert s'.Movers() - (rest - {id}) == s.Movers() - rest;
    forall x | x in s.Movers() - rest
      ensures Routed(s', fleet, floor, now, x)
    {
      SoundParts(s, fleet, floor, now, rest, x);
    }
    forall x | x in s'.Movers()
      ensures Present(s', fleet, now, x)
    {
      SoundParts(s, fleet, floor, now, rest, x);
    }
    forall a, b | a in s.Movers() - rest && b in s.Movers() - rest && a != b
      ensures WellTimed(s'.paths[a]) && WellTimed(s'.paths[b]) && Apart(s'.paths[a], s'.paths[b], now)
    {
      SoundParts(s, fleet, floor, now, rest, a);
      SoundParts(s, fleet, floor, now, rest, b);
    }
  }

  /** The table after reserving a new route guards the next robot. */
  lemma ReserveKeepsGuard(s: Snap, fleet: Fleet, floor: Floor, now: int, rest: set<string>, id: string, c: Claims,
          path: TimedPath)
    requires SoundBut(s, fleet, floor, now, rest) && id in s.Movers() && id in rest
    requires Guards(c, s, now, rest) && path.robotId == id
    requires path.Planned? && LegalRoute(QueryOf(s, floor, now, id, c), path.steps)
    ensures path.steps != [] && c.Grants(id, VertexKeys(path.steps, s.horizon), EdgeKeys(path.steps, |path.steps| - 1))
    ensures var s', c' := Rerouted(s, now, id, path), Coordinator.Reserved(c, path, s.horizon);
            && Execution.Timed(s'.paths) && Guards(c', s', now, rest - {id})
            && Extends(c.vertices, c'.vertices, id)
  {
    hide LegalRoute, Moves, Waits, At, Splice, Claims.Holds, Apart, RouteTouchesCell, Claims.Anchored, Ahead,
         VertexKeys, EdgeKeys, Extends, Claims.With, Claims.Grants, WellTimed, RecordOk, Rerouted;
    var s', c' := Rerouted(s, now, id, path), Coordinator.Reserved(c, path, s.horizon);
    SoundParts(s, fleet, floor, now, rest, id);
    ReroutedRecords(s, fleet, floor, now, id, c, path);
    var q := QueryOf(s, floor, now, id, c);
    Coordinator.LegalStartsInTime(q, path.steps);
    Coordinator.LegalRouteGranted(q, path.steps);
    Coordinator.ReservedCases(c, path, s.horizon);
    ReservedIsHeld(c, id, path.steps, s.horizon);
    NewRouteIsGood(s, fleet, floor, now, id, c, path);
    ReroutedParts(s, now, id, path);
    SameFutureHeld(c', id, path.steps, s'.paths[id], now, s.horizon);
    assert s'.Movers() - (rest - {id}) == (s.Movers() - rest) + {id};
    forall x | x in s.Movers() - rest
      ensures c'.Holds(x, s'.paths[x], now, s.horizon)
    {
      StillHeld(c, c', id, x, s.paths[x], now, s.horizon);
    }
  }

  lemma ReroutedParts(s: Snap, now: int, id: string, path: TimedPath)
    requires id in s.trace && s.trace[id] != [] && id in s.paths
    ensures var s' := Rerouted(s, now, id, path);
            && s'.paths.Keys == s.paths.Keys && (forall x | x in s.paths && x != id :: s'.paths[x] == s.paths[x])
            && s'.goals == s.goals && s'.trace == s.trace && s'.moves == s.moves && s'.waits == s.waits
                && s'.horizon == s.horizon && s'.offline == s.offline
            && s'.safeStopped == (if path.Planned? then s.safeStopped else s.safeStopped + {id})
            && s'.Movers() == (if path.Planned? then s.Movers() else s.Movers() - {id})
  {
  }

  /** A failure reserves nothing and leaves the table guarding the rest. */
  lemma FailureKeepsGuard(s: Snap, fleet: Fleet, floor: Floor, now: int, rest: set<string>, id: string, c: Claims,
          path: TimedPath)
    requires SoundBut(s, fleet, floor, now, rest) && id in s.Movers() && id in rest
    requires Guards(c, s, now, rest) && path.Unplanned?
    ensures var s' := Rerouted(s, now, id, path);
            && Coordinator.Reserved(c, path, s.horizon) == c
            && Execution.Timed(s'.paths) && Guards(c, s', now, rest - {id})
  {
    hide Moves, Waits, At, Splice, Claims.Holds, Apart, RouteTouchesCell, Claims.Anchored, Ahead, WellTimed, RecordOk,
         Rerouted;
    SoundParts(s, fleet, floor, now, rest, id);
    ReroutedRecords(s, fleet, floor, now, id, c, path);
    ReroutedParts(s, now, id, path);
    Coordinator.ReservedCases(c, path, s.horizon);
    assert Rerouted(s, now, id, path).Movers() - (rest - {id}) == s.Movers() - rest;
  }

  /** Replanning one robot: whatever the planner answers, the rest of the run
      stays sound and the table keeps guarding it; reserving never clashes. */
  lemma RerouteOne(s: Snap, fleet: Fleet, floor: Floor, now: int, rest: set<string>, id: string, c: Claims)
    requires SoundBut(s, fleet, floor, now, rest) && id in s.Movers() && id in rest && Guards(c, s, now, rest)
    ensures id in s.trace && s.trace[id] != [] && id in s.goals
    ensures var path := Plan(QueryOf(s, floor, now, id, c));
            var s', c' := Rerouted(s, now, id, path), Coordinator.Reserved(c, path, s.horizon);
            && path.robotId == id
            && (path.Planned? ==>
                  path.steps != [] && LegalRoute(QueryOf(s, floor, now, id, c), path.steps)
                  && c.Grants(id, VertexKeys(path.steps, s.horizon), EdgeKeys(path.steps, |path.steps| - 1)))
            && SoundBut(s', fleet, floor, now, rest - {id}) && Guards(c', s', now, rest - {id})
            && Extends(c.vertices, c'.vertices, id)
  {
    hide SoundBut, Guards, LegalRoute, Plan, Rerouted, VertexKeys, EdgeKeys, Extends, Claims.Grants,
         Coordinator.Reserved;
    SoundParts(s, fleet, floor, now, rest, id);
    assert RecordOk(s, fleet, now, id) && Present(s, fleet, now, id);
    var q := QueryOf(s, floor, now, id, c);
    var path := Plan(q);
    PlanIsCompleteAndEarliest(q);
    if path.Planned? {
      RerouteSucceeds(s, fleet, floor, now, rest, id, c, path);
      ReserveKeepsGuard(s, fleet, floor, now, rest, id, c, path);
    } else {
      RerouteFails(s, fleet, floor, now, rest, id, c, path);
      FailureKeepsGuard(s, fleet, floor, now, rest, id, c, path);
      ExtendsItself(c.vertices, id);
    }
  }

  /** A new route keeps off every pinned cell. */
  lemma NewRouteOffPins(s: Snap, fleet: Fleet, floor: Floor, now: int, id: string, c: Claims, path: TimedPath,
          pins: map<string, Position>)
    requires RecordOk(s, fleet, now, id) && Present(s, fleet, now, id)
    requires path.Planned? && LegalRoute(QueryOf(s, floor, now, id, c), path.steps)
    requires Pinned(c, pins, now, s.horizon) && forall o | o in pins :: PinName(o) != id
    ensures forall o | o in pins :: !RouteTouchesCell(Rerouted(s, now, id, path).paths[id], pins[o], now)
  {
    hide Moves, Waits, At, Splice, PinName, RouteTouchesCell, Rerouted;
    NewRouteIsGood(s, fleet, floor, now, id, c, path);
    ReroutedParts(s, now, id, path);
    var whole := Rerouted(s, now, id, path).paths[id];
    forall o | o in pins
      ensures !RouteTouchesCell(whole, pins[o], now)
    {
      TouchesExact(whole, pins[o], now);
      forall t | now <= t <= ArrivalTime(whole)
        ensures At(whole, t) != pins[o]
      {
        assert c.VertexFree(At(path.steps, t), t, id);
      }
    }
  }

  // ---------- Replanning a batch ----------

  datatype Replans = Replans(snap: Snap, claims: Claims)

  ghost predicate Replannable(s: Snap, order: seq<string>) {
    forall id | id in order :: id in s.trace && s.trace[id] != [] && id in s.goals
  }

  /** One after the other: plan around the table, reserve what was found. */
  ghost function ReplanAll(s: Snap, floor: Floor, now: int, order: seq<string>, c: Claims): (r: Replans)
    requires Replannable(s, order)
    ensures r.snap.trace == s.trace && r.snap.goals == s.goals && r.snap.moves == s.moves && r.snap.waits == s.waits
             && r.snap.horizon == s.horizon
    ensures r.snap.offline == s.offline
  {
    if order == [] then Replans(s, c)
    else
      var n := |order| - 1;
      var before := ReplanAll(s, floor, now, order[..n], c);
      var path := Plan(QueryOf(before.snap, floor, now, order[n], before.claims));
      Replans(Rerouted(before.snap, now, order[n], path), Coordinator.Reserved(before.claims, path, s.horizon))
  }

  function SetOf(order: seq<string>): set<string> {
    set id | id in order
  }

  lemma {:induction false} BatchSound(s: Snap, fleet: Fleet, floor: Floor, now: int, order: seq<string>, c: Claims,
          k: nat)
    requires Distinct(order) && SetOf(order) <= s.Movers() && k <= |order|
    requires SoundBut(s, fleet, floor, now, SetOf(order)) && Guards(c, s, now, SetOf(order))
    ensures Replannable(s, order[..k])
    ensures var r := ReplanAll(s, floor, now, order[..k], c);
            && SoundBut(r.snap, fleet, floor, now, SetOf(order[k..]))
                && Guards(r.claims, r.snap, now, SetOf(order[k..]))
            && SetOf(order[k..]) <= r.snap.Movers() && r.snap.Movers() <= s.Movers()
            && r.snap.paths.Keys == s.paths.Keys
            && (forall x | x in s.paths && x !in order[..k] :: r.snap.paths[x] == s.paths[x])
            && s.safeStopped <= r.snap.safeStopped
  {
    hide SoundBut, Guards, Plan, Rerouted, Coordinator.Reserved, Snap.Movers, Extends, Claims.Grants;
    assert order[0..] == order && order[..0] == [];
    if k > 0 {
      BatchSound(s, fleet, floor, now, order, c, k - 1);
      BatchStep(s, fleet, floor, now, order, c, k - 1);
    }
  }

  lemma BatchStep(s: Snap, fleet: Fleet, floor: Floor, now: int, order: seq<string>, c: Claims, k: nat)
    requires Distinct(order) && k < |order| && Replannable(s, order[..k])
    requires var r := ReplanAll(s, floor, now, order[..k], c);
             && SoundBut(r.snap, fleet, floor, now, SetOf(order[k..]))
                 && Guards(r.claims, r.snap, now, SetOf(order[k..]))
             && SetOf(order[k..]) <= r.snap.Movers() && r.snap.paths.Keys == s.paths.Keys
    ensures Replannable(s, order[..k + 1])
    ensures var before, r := ReplanAll(s, floor, now, order[..k], c), ReplanAll(s, floor, now, order[..k + 1], c);
            && SoundBut(r.snap, fleet, floor, now, SetOf(order[k + 1..]))
                && Guards(r.claims, r.snap, now, SetOf(order[k + 1..]))
            && SetOf(order[k + 1..]) <= r.snap.Movers() <= before.snap.Movers()
            && r.snap.paths.Keys == s.paths.Keys
            && (forall x | x in s.paths && x != order[k] :: r.snap.paths[x] == before.snap.paths[x])
            && before.snap.safeStopped <= r.snap.safeStopped
  {
    hide SoundBut, Guards, Plan, Rerouted, Coordinator.Reserved, Snap.Movers, Extends, Claims.Grants, LegalRoute,
         Distinct;
    var id := order[k];
    var before := ReplanAll(s, floor, now, order[..k], c);
    RestShrinks(order, k);
    assert order[..k + 1][..k] == order[..k];
    RerouteOne(before.snap, fleet, floor, now, SetOf(order[k..]), id, before.claims);
    assert order[..k + 1] == order[..k] + [id];
    var path := Plan(QueryOf(before.snap, floor, now, id, before.claims));
    InPaths(before.snap, id);
    ReroutedParts(before.snap, now, id, path);
  }

  lemma InPaths(s: Snap, id: string)
    requires id in s.Movers()
    ensures id in s.paths && id !in s.offline && id !in s.safeStopped
  {
  }

  lemma RestShrinks(order: seq<string>, k: nat)
    requires Distinct(order) && k < |order|
    ensures order[k] in SetOf(order[k..]) && SetOf(order[k + 1..]) == SetOf(order[k..]) - {order[k]}
  {
    assert order[k..] == [order[k]] + order[k + 1..];
  }

  /** No robot goes by the name under which a failed robot's cell is claimed. */
  ghost predicate PinNamesFree(names: set<string>, offline: set<string>) {
    forall id, o | id in names && o in offline :: PinName(o) != id
  }

  ghost predicate BatchClear(s: Snap, fleet: Fleet, now: int, rest: set<string>, c: Claims) {
    && StepsClearBut(s, fleet, now, rest) && Pinned(c, Pins(s, fleet), now, s.horizon)
  }

  lemma PinnedStays(c: Claims, c': Claims, owner: string, pins: map<string, Position>, from: int, horizon: int)
    requires Pinned(c, pins, from, horizon) && Extends(c.vertices, c'.vertices, owner)
    ensures Pinned(c', pins, from, horizon)
  {
  }

  /** A new route keeps the steps clear of failed robots, and the pins in place. */
  lemma RerouteKeepsClear(s: Snap, fleet: Fleet, floor: Floor, now: int, rest: set<string>, id: string, c: Claims)
    requires SoundBut(s, fleet, floor, now, rest) && id in s.Movers() && id in rest && Guards(c, s, now, rest)
    requires BatchClear(s, fleet, now, rest, c) && PinNamesFree({id}, s.offline)
    ensures id in s.trace && s.trace[id] != [] && id in s.goals
    ensures var path := Plan(QueryOf(s, floor, now, id, c));
            BatchClear(Rerouted(s, now, id, path), fleet, now, rest - {id}, Coordinator.Reserved(c, path, s.horizon))
    ensures var s' := Rerouted(s, now, id, Plan(QueryOf(s, floor, now, id, c)));
            ParkedClear(s, fleet, now) ==> ParkedClear(s', fleet, now)
  {
    hide SoundBut, Guards, LegalRoute, Plan, Rerouted, VertexKeys, EdgeKeys, Extends, Claims.Grants,
         Coordinator.Reserved, Pinned, PinName, Moves, Waits, RouteTouchesCell, Splice, Routed, WellTimed, At, RecordOk,
             Present, PinNamesFree;
    SoundParts(s, fleet, floor, now, rest, id);
    RerouteOne(s, fleet, floor, now, rest, id, c);
    var path := Plan(QueryOf(s, floor, now, id, c));
    var s' := Rerouted(s, now, id, path);
    ReroutedParts(s, now, id, path);
    PinnedStays(c, Coordinator.Reserved(c, path, s.horizon), id, Pins(s, fleet), now, s.horizon);
    assert Pins(s', fleet) == Pins(s, fleet);
    if path.Planned? {
      RerouteOffPins(s, fleet, floor, now, id, c, path);
    }
  }

  lemma RerouteOffPins(s: Snap, fleet: Fleet, floor: Floor, now: int, id: string, c: Claims, path: TimedPath)
    requires RecordOk(s, fleet, now, id) && Present(s, fleet, now, id)
    requires path.Planned? && LegalRoute(QueryOf(s, floor, now, id, c), path.steps)
    requires Pinned(c, Pins(s, fleet), now, s.horizon) && PinNamesFree({id}, s.offline)
    ensures var whole := Rerouted(s, now, id, path).paths[id];
            && whole != [] && ArrivalTime(whole) >= now
            && forall o | o in Pins(s, fleet) :: !RouteTouchesCell(whole, Pins(s, fleet)[o], now)
  {
    hide LegalRoute, Pinned, PinName, Moves, Waits, RouteTouchesCell, Splice, At, Ahead;
    NewRouteIsGood(s, fleet, floor, now, id, c, path);
    NewRouteOffPins(s, fleet, floor, now, id, c, path, Pins(s, fleet));
  }

  lemma {:induction false} BatchKeepsClear(s: Snap, fleet: Fleet, floor: Floor, now: int, order: seq<string>, c: Claims,
          k: nat)
    requires Distinct(order) && SetOf(order) <= s.Movers() && k <= |order|
    requires SoundBut(s, fleet, floor, now, SetOf(order)) && Guards(c, s, now, SetOf(order))
    requires BatchClear(s, fleet, now, SetOf(order), c) && PinNamesFree(SetOf(order), s.offline)
    ensures Replannable(s, order[..k])
    ensures var r := ReplanAll(s, floor, now, order[..k], c);
            && BatchClear(r.snap, fleet, now, SetOf(order[k..]), r.claims)
            && (ParkedClear(s, fleet, now) ==> ParkedClear(r.snap, fleet, now))
  {
    hide SoundBut, Guards, Plan, Rerouted, Coordinator.Reserved, Snap.Movers, BatchClear, ParkedClear;
    assert order[0..] == order && order[..0] == [];
    BatchSound(s, fleet, floor, now, order, c, k);
    if k > 0 {
      BatchKeepsClear(s, fleet, floor, now, order, c, k - 1);
      BatchSound(s, fleet, floor, now, order, c, k - 1);
      var before, id := ReplanAll(s, floor, now, order[..k - 1], c), order[k - 1];
      RestShrinks(order, k - 1);
      assert order[..k][..k - 1] == order[..k - 1];
      assert id in SetOf(order);
      RerouteKeepsClear(before.snap, fleet, floor, now, SetOf(order[k - 1..]), id, before.claims);
    }
  }

  // ---------- One joint step ----------

  function MoverPlans(s: Snap): Plans {
    map id | id in s.Movers() :: s.paths[id]
  }

  ghost function StepIntents(s: Snap, t: int): Intents
    requires Execution.Timed(s.paths)
  {
    Execution.IntentsAt(MoverPlans(s), t)
  }

  ghost predicate Tallied(s: Snap) {
    s.paths.Keys <= s.moves.Keys && s.paths.Keys <= s.waits.Keys
  }

  /** The records after a joint step. */
  ghost function Advanced(s: Snap, t: int): Snap
    requires Execution.Timed(s.paths) && Tallied(s)
  {
    s.(trace := map id | id in s.trace :: if id in s.Movers() then s.trace[id] + [TimedStep(At(s.paths[id], t), t)]
        else s.trace[id], moves := map id | id in s.moves ::
         s.moves[id] + (if id in s.Movers() && At(s.paths[id], t - 1) != At(s.paths[id], t) then 1 else 0),
       waits := map id | id in s.waits ::
         s.waits[id] + if id in s.Movers() && At(s.paths[id], t - 1) == At(s.paths[id], t)
             && t <= ArrivalTime(s.paths[id]) then 1 else 0)
  }

  /** The same when only some of the robots have been recorded yet. */
  ghost function AdvancedSome(s: Snap, t: int, done: set<string>): Snap
    requires Execution.Timed(s.paths) && Tallied(s) && done <= s.paths.Keys
  {
    s.(trace := map id | id in s.trace :: if id in done then s.trace[id] + [TimedStep(At(s.paths[id], t), t)]
        else s.trace[id], moves := map id | id in s.moves ::
         s.moves[id] + (if id in done && At(s.paths[id], t - 1) != At(s.paths[id], t) then 1 else 0),
       waits := map id | id in s.waits ::
         s.waits[id] + if id in done && At(s.paths[id], t - 1) == At(s.paths[id], t) && t <= ArrivalTime(s.paths[id])
             then 1 else 0)
  }

  lemma RecordNext(s: Snap, t: int, done: set<string>, id: string)
    requires Execution.Timed(s.paths) && Tallied(s) && done + {id} <= s.paths.Keys && id !in done && id in s.trace
    ensures var before, after := AdvancedSome(s, t, done), AdvancedSome(s, t, done + {id});
            && id in before.trace && id in before.moves && id in before.waits
            && after == before.(trace := before.trace[id := before.trace[id] + [TimedStep(At(s.paths[id], t), t)]],
                                moves := before.moves[id := before.moves[id]
                                    + if At(s.paths[id], t - 1) != At(s.paths[id], t) then 1 else 0],
                                waits := before.waits[id := before.waits[id] +
                                  if At(s.paths[id], t - 1) == At(s.paths[id], t) && t <= ArrivalTime(s.paths[id])
                                      then 1 else 0])
            && before.paths == s.paths && before.goals == s.goals && before.horizon == s.horizon
                && before.offline == s.offline
            && before.safeStopped == s.safeStopped
  {
    hide At;
  }

  lemma RecordEnds(s: Snap, t: int)
    requires Execution.Timed(s.paths) && Tallied(s)
    ensures AdvancedSome(s, t, {}) == s && AdvancedSome(s, t, s.Movers()) == Advanced(s, t)
  {
    hide At;
  }

  lemma StepIntentsAt(s: Snap, t: int)
    requires Execution.Timed(s.paths)
    ensures StepIntents(s, t).Keys == s.Movers()
    ensures forall id | id in s.Movers() ::
             id in s.paths && StepIntents(s, t)[id] == Intent(At(s.paths[id], t - 1), At(s.paths[id], t))
  {
  }

  /** No two robots under way want the same cell or each other's. */
  lemma StepsSeparate(s: Snap, fleet: Fleet, floor: Floor, now: int)
    requires Sound(s, fleet, floor, now)
    ensures var i := StepIntents(s, now + 1);
            forall a, b | a in i && b in i && a != b :: Separate(i[a], i[b])
  {
    hide WellTimed, At, Moves;
    var i := StepIntents(s, now + 1);
    StepIntentsAt(s, now + 1);
    forall a, b | a in i && b in i && a != b
      ensures Separate(i[a], i[b])
    {
      assert Apart(s.paths[a], s.paths[b], now);
      assert NoMeeting(s.paths[a], s.paths[b], now + 1) && NoSwap(s.paths[a], s.paths[b], now);
    }
  }

  /** In a sound run one robot's next step is fine unless its battery is too low. */
  lemma StepIsOk(s: Snap, fleet: Fleet, floor: Floor, now: int, id: string)
    requires Sound(s, fleet, floor, now) && id in s.Movers()
    ensures id in fleet && id in StepIntents(s, now + 1)
    ensures var i := StepIntents(s, now + 1)[id];
            && fleet[id].status != Offline && fleet[id].position == i.from
            && floor.Traversable(i.from) && floor.Traversable(i.to) && (i.from != i.to ==> Adjacent(i.from, i.to))
            && (fleet[id].HasBatteryForMove() ==> StepOk(fleet[id], floor, i))
  {
    hide WellTimed, At, Moves, Apart;
    StepIntentsAt(s, now + 1);
    SoundParts(s, fleet, floor, now, {}, id);
  }

  /** Nobody under way ever stands on a failed robot's cell. */
  ghost predicate FailedCellsClear(s: Snap, fleet: Fleet, now: int)
    requires Execution.Timed(s.paths)
  {
    forall id, t | id in s.Movers() && now <= t :: At(s.paths[id], t) !in Pins(s, fleet).Values
  }

  lemma ClearForGood(s: Snap, fleet: Fleet, floor: Floor, now: int)
    requires Sound(s, fleet, floor, now) && StepsClear(s, fleet, now) && ArrivedClear(s, fleet, now)
    ensures FailedCellsClear(s, fleet, now)
  {
    hide RouteTouchesCell, At, Moves, Apart;
    forall id, t | id in s.Movers() && now <= t
      ensures At(s.paths[id], t) !in Pins(s, fleet).Values
    {
      SoundParts(s, fleet, floor, now, {}, id);
      var cell := At(s.paths[id], t);
      if cell in Pins(s, fleet).Values {
        var o :| o in Pins(s, fleet) && Pins(s, fleet)[o] == cell;
        NeverOn(s.paths[id], cell, now);
      }
    }
  }

  /** A refused joint step of a sound run: a battery, or a failed robot in the
      way - and, when no failed robot is in the way, a battery. */
  lemma OnlyReasonsToStop(s: Snap, fleet: Fleet, floor: Floor, now: int, stop: StopReason)
    requires Sound(s, fleet, floor, now)
    requires Explained(fleet, floor, StepIntents(s, now + 1), Pins(s, fleet).Values, stop)
    ensures stop == NoBattery || stop == OntoFailedRobot
    ensures stop == NoBattery ==> exists id :: id in s.Movers() && id in fleet && !fleet[id].HasBatteryForMove()
    ensures StepsClear(s, fleet, now) && ArrivedClear(s, fleet, now) ==> stop == NoBattery
  {
    hide At, Moves, Apart, Sound, RouteTouchesCell, Pins, StepIntents, Separate;
    SoundIsTimed(s, fleet, floor, now);
    StepIntentsAt(s, now + 1);
    StepsSeparate(s, fleet, floor, now);
    NoClashReason(fleet, floor, StepIntents(s, now + 1), Pins(s, fleet).Values, stop);
    if stop != OntoFailedRobot {
      var id :| id in StepIntents(s, now + 1) && WhyStopped(fleet, floor, StepIntents(s, now + 1), id, stop);
      StepIsOk(s, fleet, floor, now, id);
    } else if StepsClear(s, fleet, now) && ArrivedClear(s, fleet, now) {
      ClearForGood(s, fleet, floor, now);
      IntentsOffPins(s, fleet, now);
    }
  }

  lemma SoundIsTimed(s: Snap, fleet: Fleet, floor: Floor, now: int)
    requires Sound(s, fleet, floor, now)
    ensures Execution.Timed(s.paths) && Underway(s.paths, now) && Tallied(s) && s.Movers() <= fleet.Keys
    ensures s.paths.Keys <= fleet.Keys && s.paths.Keys == s.trace.Keys && s.paths.Keys <= s.goals.Keys
             && s.offline <= fleet.Keys
  {
    forall id | id in s.paths
      ensures id in fleet && id in s.moves && id in s.waits && id in s.goals
    {
      assert RecordOk(s, fleet, now, id);
    }
  }

  lemma IntentsOffPins(s: Snap, fleet: Fleet, now: int)
    requires Execution.Timed(s.paths) && FailedCellsClear(s, fleet, now)
    ensures var i := StepIntents(s, now + 1);
            forall id | id in i :: i[id].to !in Pins(s, fleet).Values
  {
    hide At, Pins;
    StepIntentsAt(s, now + 1);
  }

  /** Everybody who is to move next has the charge for it. */
  ghost predicate Charged(s: Snap, fleet: Fleet, now: int)
    requires Execution.Timed(s.paths)
  {
    forall id | id in s.Movers() && At(s.paths[id], now) != At(s.paths[id], now + 1) ::
        id in fleet && fleet[id].battery >= fleet[id].drain
  }

  /** A joint step is counted for everybody under way, once: as a move, as a wait, or,
      when the route is at its end, not at all. */
  lemma StepIsCountedOnce(s: Snap, t: int, id: string)
    requires Execution.Timed(s.paths) && Tallied(s) && id in s.paths && id in s.moves && id in s.waits
    ensures var s' := Advanced(s, t);
            && id in s'.moves && id in s'.waits
            && s'.moves[id] - s.moves[id] + s'.waits[id] - s.waits[id]
                 == (if id in s.Movers() && t <= ArrivalTime(s.paths[id]) then 1 else 0)
            && (s'.moves[id] > s.moves[id] <==>
                  id in s.Movers() && At(s.paths[id], t - 1) != At(s.paths[id], t))
  {
    assert WellTimed(s.paths[id]);
    hide At, WellTimed, Execution.Timed;
    if t - 1 >= ArrivalTime(s.paths[id]) {
      ParkedAt(s.paths[id], t - 1);
    }
  }

  /** A sound joint step is accepted exactly when everybody who moves has the
      charge and nobody has arrived on a failed robot's cell. */
  lemma StepAcceptedExactly(s: Snap, fleet: Fleet, floor: Floor, now: int)
    requires Sound(s, fleet, floor, now) && StepsClear(s, fleet, now)
    ensures Execution.Timed(s.paths)
    ensures JointStepOk(fleet, floor, StepIntents(s, now + 1), Pins(s, fleet).Values) <==>
             Charged(s, fleet, now) && ArrivedClear(s, fleet, now)
  {
    hide At, Moves, Apart, Sound, RouteTouchesCell, Pins, StepIntents, StepsClear, ArrivedClear, JointStepOk;
    SoundIsTimed(s, fleet, floor, now);
    if Charged(s, fleet, now) && ArrivedClear(s, fleet, now) {
      SoundStepAccepted(s, fleet, floor, now);
    }
    if JointStepOk(fleet, floor, StepIntents(s, now + 1), Pins(s, fleet).Values) {
      AcceptedMeansCharged(s, fleet, floor, now);
      AcceptedMeansClear(s, fleet, floor, now);
    }
  }

  /** With enough charge, and no failed robot in the way, the step is accepted. */
  lemma SoundStepAccepted(s: Snap, fleet: Fleet, floor: Floor, now: int)
    requires Sound(s, fleet, floor, now) && StepsClear(s, fleet, now) && ArrivedClear(s, fleet, now)
    requires Execution.Timed(s.paths) && Charged(s, fleet, now)
    ensures JointStepOk(fleet, floor, StepIntents(s, now + 1), Pins(s, fleet).Values)
  {
    hide At, Moves, Apart, Sound, RouteTouchesCell, Pins, StepIntents, Separate, StepsClear, ArrivedClear,
         FailedCellsClear;
    SoundIsTimed(s, fleet, floor, now);
    StepIntentsAt(s, now + 1);
    StepsSeparate(s, fleet, floor, now);
    ClearForGood(s, fleet, floor, now);
    IntentsOffPins(s, fleet, now);
    forall id | id in StepIntents(s, now + 1)
      ensures id in fleet && StepOk(fleet[id], floor, StepIntents(s, now + 1)[id])
    {
      StepIsOk(s, fleet, floor, now, id);
    }
  }

  lemma AcceptedMeansCharged(s: Snap, fleet: Fleet, floor: Floor, now: int)
    requires Execution.Timed(s.paths) && JointStepOk(fleet, floor, StepIntents(s, now + 1), Pins(s, fleet).Values)
    ensures Charged(s, fleet, now)
  {
    hide At, Pins, StepIntents;
    StepIntentsAt(s, now + 1);
  }

  /** An arrived robot stays where it is, and no step may end on a failed robot. */
  lemma AcceptedMeansClear(s: Snap, fleet: Fleet, floor: Floor, now: int)
    requires Sound(s, fleet, floor, now)
    requires Execution.Timed(s.paths) && JointStepOk(fleet, floor, StepIntents(s, now + 1), Pins(s, fleet).Values)
    ensures ArrivedClear(s, fleet, now)
  {
    hide At, Moves, Apart, Sound, Pins, StepIntents, StepOk, Separate, WellTimed;
    StepIntentsAt(s, now + 1);
    forall id, o | id in s.Movers() && o in Pins(s, fleet) && s.paths[id] != [] && ArrivalTime(s.paths[id]) < now
      ensures id in fleet && fleet[id].position != Pins(s, fleet)[o]
    {
      SoundMover(s, fleet, floor, now, id);
      ParkedAt(s.paths[id], now);
      assert StepIntents(s, now + 1)[id].to == fleet[id].position;
    }
  }

  lemma TraceGrows(trace: seq<TimedStep>, cell: Position)
    requires WellTimed(trace)
    ensures var longer := trace + [TimedStep(cell, ArrivalTime(trace) + 1)];
            && WellTimed(longer) && ArrivalTime(longer) == ArrivalTime(trace) + 1 && Goal(longer) == cell
            && Moves(longer) == Moves(trace) + (if Goal(trace) != cell then 1 else 0)
            && Waits(longer) == Waits(trace) + (if Goal(trace) == cell then 1 else 0)
  {
    var longer := trace + [TimedStep(cell, ArrivalTime(trace) + 1)];
    assert longer[..|longer| - 1] == trace;
  }

  /** The record of one robot after a joint step. */
  lemma StepKeepsRecord(s: Snap, fleet: Fleet, floor: Floor, now: int, id: string)
    requires Sound(s, fleet, floor, now) && id in s.paths
    requires Execution.Timed(s.paths) && Tallied(s)
    ensures RecordOk(Advanced(s, now + 1), DriveAll(fleet, StepIntents(s, now + 1)), now + 1, id)
    ensures id in s.Movers() ==> Present(Advanced(s, now + 1), DriveAll(fleet, StepIntents(s, now + 1)), now + 1, id)
  {
    hide Moves, Waits, At, Apart, Sound, StepIntents;
    StepIntentsAt(s, now + 1);
    SoundRecord(s, fleet, floor, now, id);
    if id in s.Movers() {
      SoundMover(s, fleet, floor, now, id);
      TraceGrows(s.trace[id], At(s.paths[id], now + 1));
    }
  }

  lemma SoundMover(s: Snap, fleet: Fleet, floor: Floor, now: int, id: string)
    requires Sound(s, fleet, floor, now) && id in s.Movers()
    ensures Execution.Timed(s.paths) && RecordOk(s, fleet, now, id) && Present(s, fleet, now, id)
             && Routed(s, fleet, floor, now, id)
  {
    SoundParts(s, fleet, floor, now, {}, id);
  }

  lemma SoundRecord(s: Snap, fleet: Fleet, floor: Floor, now: int, id: string)
    requires Sound(s, fleet, floor, now) && id in s.paths
    ensures RecordOk(s, fleet, now, id)
  {
  }

  lemma StepKeepsRoute(s: Snap, fleet: Fleet, floor: Floor, now: int, id: string)
    requires Sound(s, fleet, floor, now) && id in s.Movers()
    requires Execution.Timed(s.paths) && Tallied(s)
    ensures Routed(Advanced(s, now + 1), DriveAll(fleet, StepIntents(s, now + 1)), floor, now + 1, id)
  {
    hide Moves, Waits, At, Apart, Sound, StepIntents, WellTimed;
    StepIntentsAt(s, now + 1);
    SoundMover(s, fleet, floor, now, id);
  }

  lemma ApartLater(a: seq<TimedStep>, b: seq<TimedStep>, from: int, later: int)
    requires WellTimed(a) && WellTimed(b) && Apart(a, b, from) && from <= later
    ensures Apart(a, b, later)
  {
    hide NoMeeting, NoSwap, WellTimed;
  }

  lemma AllApartLater(paths: Plans, ids: set<string>, from: int, later: int)
    requires ids <= paths.Keys && Execution.Timed(paths) && AllApart(paths, ids, from) && from <= later
    ensures AllApart(paths, ids, later)
  {
    hide Apart, WellTimed;
    forall a, b | a in ids && b in ids && a != b
      ensures Apart(paths[a], paths[b], later)
    {
      ApartLater(paths[a], paths[b], from, later);
    }
  }

  /** A committed joint step keeps the run sound. */
  lemma StepKeepsSound(s: Snap, fleet: Fleet, floor: Floor, now: int)
    requires Sound(s, fleet, floor, now)
    ensures Execution.Timed(s.paths) && Tallied(s)
    ensures Sound(Advanced(s, now + 1), DriveAll(fleet, StepIntents(s, now + 1)), floor, now + 1)
  {
    hide Moves, Waits, At, Apart, StepIntents, WellTimed, RecordOk, Present, Routed, DriveAll, RouteTouchesCell;
    SoundIsTimed(s, fleet, floor, now);
    var s', fleet' := Advanced(s, now + 1), DriveAll(fleet, StepIntents(s, now + 1));
    assert fleet'.Keys == fleet.Keys by {
      DriveKeeps(fleet, StepIntents(s, now + 1));
    }
    forall id | id in s'.paths
      ensures RecordOk(s', fleet', now + 1, id)
    {
      StepKeepsRecord(s, fleet, floor, now, id);
    }
    forall id | id in s'.Movers()
      ensures Present(s', fleet', now + 1, id) && Routed(s', fleet', floor, now + 1, id)
    {
      StepKeepsRecord(s, fleet, floor, now, id);
      StepKeepsRoute(s, fleet, floor, now, id);
    }
    AllApartLater(s.paths, s.Movers(), now, now + 1);
  }

  lemma DriveKeeps(fleet: Fleet, intents: Intents)
    ensures DriveAll(fleet, intents).Keys == fleet.Keys
    ensures forall id | id in fleet && id !in intents :: DriveAll(fleet, intents)[id] == fleet[id]
  {
  }

  lemma TouchesLater(steps: seq<TimedStep>, cell: Position, from: int, later: int)
    requires from <= later && !RouteTouchesCell(steps, cell, from)
    ensures !RouteTouchesCell(steps, cell, later)
  {
  }

  lemma TouchesAtArrival(steps: seq<TimedStep>, cell: Position)
    requires WellTimed(steps) && !RouteTouchesCell(steps, cell, ArrivalTime(steps))
    ensures At(steps, ArrivalTime(steps)) != cell && At(steps, ArrivalTime(steps) + 1) != cell
  {
    assert steps[|steps| - 1].timestep == ArrivalTime(steps);
  }

  /** A joint step keeps everybody off the failed robots' cells. */
  lemma StepKeepsClear(s: Snap, fleet: Fleet, floor: Floor, now: int)
    requires Sound(s, fleet, floor, now) && StepsClear(s, fleet, now)
    ensures Execution.Timed(s.paths) && Tallied(s)
    ensures var s', fleet' := Advanced(s, now + 1), DriveAll(fleet, StepIntents(s, now + 1));
            && Pins(s', fleet') == Pins(s, fleet)
            && StepsClear(s', fleet', now + 1)
            && (ParkedClear(s, fleet, now) ==> ParkedClear(s', fleet', now + 1))
  {
    hide Moves, Waits, At, Apart, StepIntents, WellTimed, RecordOk, Present, DriveAll, RouteTouchesCell, Sound, Ahead;
    SoundIsTimed(s, fleet, floor, now);
    var s', fleet' := Advanced(s, now + 1), DriveAll(fleet, StepIntents(s, now + 1));
    DriveKeeps(fleet, StepIntents(s, now + 1));
    StepIntentsAt(s, now + 1);
    assert Pins(s', fleet') == Pins(s, fleet);
    forall id, o | id in s.Movers() && o in Pins(s, fleet)
      ensures !RouteTouchesCell(s.paths[id], Pins(s, fleet)[o], now + 1)
    {
      TouchesLater(s.paths[id], Pins(s, fleet)[o], now, now + 1);
    }
    if ParkedClear(s, fleet, now) {
      forall id, o | id in s'.Movers() && o in Pins(s', fleet') && s'.paths[id] != []
          && ArrivalTime(s'.paths[id]) < now + 1
        ensures id in fleet' && fleet'[id].position != Pins(s', fleet')[o]
      {
        ParkedStaysClear(s, fleet, floor, now, id, Pins(s, fleet)[o]);
      }
    }
  }

  lemma ParkedStaysClear(s: Snap, fleet: Fleet, floor: Floor, now: int, id: string, cell: Position)
    requires Sound(s, fleet, floor, now) && id in s.Movers() && Execution.Timed(s.paths) && Tallied(s)
    requires ArrivalTime(s.paths[id]) <= now && !RouteTouchesCell(s.paths[id], cell, now)
    requires ArrivalTime(s.paths[id]) < now ==> id in fleet && fleet[id].position != cell
    ensures id in DriveAll(fleet, StepIntents(s, now + 1))
             && DriveAll(fleet, StepIntents(s, now + 1))[id].position != cell
  {
    hide Moves, Waits, At, Apart, StepIntents, RouteTouchesCell, Sound;
    SoundMover(s, fleet, floor, now, id);
    StepKeepsRoute(s, fleet, floor, now, id);
    ParkedAt(s.paths[id], now);
    if ArrivalTime(s.paths[id]) == now {
      TouchesAtArrival(s.paths[id], cell);
    }
  }

  lemma ParkedAt(steps: seq<TimedStep>, now: int)
    requires WellTimed(steps) && ArrivalTime(steps) <= now
    ensures At(steps, now + 1) == At(steps, now)
  {
  }

  // ---------- A new obstacle ----------

  /** The robots under way whose route still uses a cell. */
  ghost function Touching(s: Snap, cell: Position, now: int): set<string> {
    set id | id in s.Movers() && RouteTouchesCell(s.paths[id], cell, now)
  }

  /** Exactly the robots that are still under way and that will stand on the cell, from
      now on or on arrival. */
  lemma TouchingExact(s: Snap, cell: Position, now: int, id: string)
    requires Underway(s.paths, now)
    ensures id in Touching(s, cell, now) <==>
              && id in s.paths && id !in s.offline && id !in s.safeStopped
              && exists t :: now <= t <= ArrivalTime(s.paths[id]) && At(s.paths[id], t) == cell
  {
    hide At, RouteTouchesCell;
    if id in s.paths {
      TouchesExact(s.paths[id], cell, now);
    }
  }

  /** An obstacle on a cell no robot stands on spoils just the routes that touch it. */
  lemma ObstacleSparesOthers(s: Snap, fleet: Fleet, floor: Floor, now: int, cell: Position)
    requires Sound(s, fleet, floor, now) && forall r | r in fleet :: fleet[r].position != cell
    ensures SoundBut(s, fleet, floor.(blocked := floor.blocked + {cell}), now, Touching(s, cell, now))
  {
    hide Moves, Waits, At, Apart, WellTimed, RecordOk, Present, RouteTouchesCell, Sound;
    var floor' := floor.(blocked := floor.blocked + {cell});
    SoundIsTimed(s, fleet, floor, now);
    SoundFacts(s, fleet, floor, now);
    forall id | id in s.Movers() - Touching(s, cell, now)
      ensures Routed(s, fleet, floor', now, id)
    {
      SoundMover(s, fleet, floor, now, id);
      NeverOn(s.paths[id], cell, now);
    }
  }

  lemma SoundFacts(s: Snap, fleet: Fleet, floor: Floor, now: int)
    requires Sound(s, fleet, floor, now)
    ensures Recorded(s, fleet, now) && (forall id | id in s.Movers() :: Present(s, fleet, now, id))
    ensures forall rest: set<string> :: AllApart(s.paths, s.Movers() - rest, now)
  {
    hide Moves, Waits, At, Apart, WellTimed, RecordOk, Present, Routed;
    assert s.Movers() - {} == s.Movers();
  }

  // ---------- A robot fails ----------

  ghost function FleetOffline(fleet: Fleet, f: string): Fleet
    requires f in fleet
  {
    fleet[f := fleet[f].(status := Offline)]
  }

  /** The failed robot keeps what it has driven as its route. */
  ghost function AfterLoss(s: Snap, f: string): Snap {
    s.(offline := s.offline + {f}, paths := if f in s.paths && f in s.trace then s.paths[f := s.trace[f]] else s.paths)
  }

  lemma FailureKeepsSound(s: Snap, fleet: Fleet, floor: Floor, now: int, f: string)
    requires Sound(s, fleet, floor, now) && f in fleet
    ensures Sound(AfterLoss(s, f), FleetOffline(fleet, f), floor, now)
  {
    hide Moves, Waits, At, Apart, WellTimed, RouteTouchesCell, Ahead;
    SoundIsTimed(s, fleet, floor, now);
    var s', fleet' := AfterLoss(s, f), FleetOffline(fleet, f);
    assert s'.Movers() == s.Movers() - {f};
    FailureKeepsRecords(s, fleet, floor, now, f);
    forall id | id in s'.Movers()
      ensures Present(s', fleet', now, id) && Routed(s', fleet', floor, now, id)
    {
      SoundMover(s, fleet, floor, now, id);
    }
  }

  lemma FailureKeepsRecords(s: Snap, fleet: Fleet, floor: Floor, now: int, f: string)
    requires Sound(s, fleet, floor, now) && f in fleet
    ensures Recorded(AfterLoss(s, f), FleetOffline(fleet, f), now)
  {
    hide Moves, Waits, At, Apart, RouteTouchesCell, Ahead, Sound;
    SoundIsTimed(s, fleet, floor, now);
    var s', fleet' := AfterLoss(s, f), FleetOffline(fleet, f);
    forall id | id in s'.paths
      ensures RecordOk(s', fleet', now, id) && WellTimed(s'.paths[id]) && StartTime(s'.paths[id]) <= now
    {
      SoundRecord(s, fleet, floor, now, id);
    }
  }

  /** After a failure the steps are clear but for the routes that touch the
      failed robot's cell. */
  lemma FailurePins(s: Snap, fleet: Fleet, floor: Floor, now: int, f: string)
    requires Sound(s, fleet, floor, now) && f in fleet && StepsClear(s, fleet, now)
    ensures var s', fleet' := AfterLoss(s, f), FleetOffline(fleet, f);
            && Pins(s', fleet') == Pins(s, fleet)[f := fleet[f].position]
            && StepsClearBut(s', fleet', now, Touching(s', fleet[f].position, now))
  {
    hide Moves, Waits, At, Apart, RouteTouchesCell, Ahead, Sound, WellTimed, RecordOk;
    var s', fleet' := AfterLoss(s, f), FleetOffline(fleet, f);
    var pins := Pins(s, fleet);
    assert Pins(s', fleet') == pins[f := fleet[f].position];
    forall id, o | id in s'.Movers() - Touching(s', fleet[f].position, now) && o in Pins(s', fleet')
      ensures !RouteTouchesCell(s'.paths[id], Pins(s', fleet')[o], now)
    {
      assert id in s.Movers() && s'.paths[id] == s.paths[id];
      assert o != f ==> o in pins;
    }
  }

  ghost predicate StandsAlone(s: Snap, fleet: Fleet, now: int, f: string)
    requires f in fleet
  {
    && (forall id | id in s.Movers() && id != f && s.paths[id] != [] && ArrivalTime(s.paths[id]) < now ::
          id in fleet && fleet[id].position != fleet[f].position)
    && (forall o | o in Pins(s, fleet) && o != f :: Pins(s, fleet)[o] != fleet[f].position)
  }

  lemma AfterFailure(s: Snap, fleet: Fleet, floor: Floor, now: int, f: string)
    requires Sound(s, fleet, floor, now) && f in fleet
    ensures var s', fleet' := AfterLoss(s, f), FleetOffline(fleet, f);
            && Pins(s', fleet') == Pins(s, fleet)[f := fleet[f].position]
            && s'.Movers() == s.Movers() - {f}
                && (forall id | id in s'.Movers() :: id in s.paths && id in s'.paths && s'.paths[id] == s.paths[id])
            && (forall id | id in s'.Movers() ::
                id in fleet && id in fleet'
                && fleet'[id].position == fleet[id].position)
  {
    hide Sound, RecordOk;
    SoundIsTimed(s, fleet, floor, now);
  }

  /** Exactly when it breaks: a failed robot shares its cell with one that has
      arrived, or with another failed robot. */
  lemma ParkedClearAfterFailure(s: Snap, fleet: Fleet, floor: Floor, now: int, f: string)
    requires Sound(s, fleet, floor, now) && f in fleet && ParkedClear(s, fleet, now)
    ensures ParkedClear(AfterLoss(s, f), FleetOffline(fleet, f), now) <==> StandsAlone(s, fleet, now, f)
  {
    hide Sound, Pins, AfterLoss, FleetOffline, Snap.Movers;
    AfterFailure(s, fleet, floor, now, f);
    var s', fleet', pins := AfterLoss(s, f), FleetOffline(fleet, f), Pins(s, fleet);
    if ParkedClear(s', fleet', now) {
      forall o | o in pins && o != f
        ensures pins[o] != fleet[f].position
      {
        assert o in Pins(s', fleet') && f in Pins(s', fleet');
      }
      forall id | id in s.Movers() && id != f && s.paths[id] != [] && ArrivalTime(s.paths[id]) < now
        ensures id in fleet && fleet[id].position != fleet[f].position
      {
        assert id in s'.Movers() && f in Pins(s', fleet');
      }
    }
  }

  /** It never breaks when the robot that fails is under way, or has failed before. */
  lemma CoordinatedRobotStandsAlone(s: Snap, fleet: Fleet, floor: Floor, now: int, f: string)
    requires Sound(s, fleet, floor, now) && StepsClear(s, fleet, now) && ParkedClear(s, fleet, now)
    requires f in fleet && (f in s.Movers() || f in s.offline)
    ensures StandsAlone(s, fleet, now, f)
  {
    hide Moves, Waits, At, Apart, RouteTouchesCell, Ahead, Sound, WellTimed, RecordOk, StepsClear;
    SoundIsTimed(s, fleet, floor, now);
    if f in s.Movers() {
      SoundMover(s, fleet, floor, now, f);
      ClearForGood(s, fleet, floor, now);
      assert At(s.paths[f], now) !in Pins(s, fleet).Values;
      forall id | id in s.Movers() && id != f
        ensures id in fleet && fleet[id].position != fleet[f].position
      {
        SoundMover(s, fleet, floor, now, id);
        MoversStandApart(s, fleet, floor, now, id, f);
      }
    } else {
      assert Pins(s, fleet)[f] == fleet[f].position;
    }
  }

  lemma MoversStandApart(s: Snap, fleet: Fleet, floor: Floor, now: int, a: string, b: string)
    requires Sound(s, fleet, floor, now) && a in s.Movers() && b in s.Movers() && a != b
    ensures a in fleet && b in fleet && fleet[a].position != fleet[b].position
  {
    hide Moves, Waits, At, Ahead, WellTimed, RecordOk;
    SoundParts(s, fleet, floor, now, {}, a);
    SoundParts(s, fleet, floor, now, {}, b);
    assert Apart(s.paths[a], s.paths[b], now);
    assert NoMeeting(s.paths[a], s.paths[b], now);
  }

  // ---------- Robots whose tasks change, and a spare that joins ----------

  /** Nobody has moved and nobody has gone offline. */
  ghost predicate Standing(fleet: Fleet, fleet': Fleet) {
    && fleet'.Keys == fleet.Keys
    && (forall id | id in fleet ::
        fleet'[id].position == fleet[id].position
        && (fleet[id].status != Offline ==> fleet'[id].status != Offline))
  }

  lemma StandingKeepsSound(s: Snap, fleet: Fleet, fleet': Fleet, floor: Floor, now: int, rest: set<string>)
    requires SoundBut(s, fleet, floor, now, rest) && Standing(fleet, fleet')
    ensures SoundBut(s, fleet', floor, now, rest) && Pins(s, fleet') == Pins(s, fleet)
    ensures StepsClearBut(s, fleet, now, rest) ==> StepsClearBut(s, fleet', now, rest)
    ensures ParkedClear(s, fleet, now) ==> ParkedClear(s, fleet', now)
  {
    hide Moves, Waits, At, Apart, WellTimed, RouteTouchesCell, Ahead, AllApart;
    assert Pins(s, fleet') == Pins(s, fleet);
    forall id | id in s.paths
      ensures RecordOk(s, fleet', now, id)
    {
      assert RecordOk(s, fleet, now, id);
    }
    forall id | id in s.Movers()
      ensures Present(s, fleet', now, id) && (id !in rest ==> Routed(s, fleet', floor, now, id))
    {
      assert Present(s, fleet, now, id) && (id !in rest ==> Routed(s, fleet, floor, now, id));
    }
  }

  /** A spare enters the records, with a route still to be found. */
  ghost function Enlisted(s: Snap, id: string, cell: Position, now: int, goal: Position): Snap {
    var here := [TimedStep(cell, now)];
    s.(paths := s.paths[id := here], goals := s.goals[id := goal], trace := s.trace[id := here],
        moves := s.moves[id := 0], waits := s.waits[id := 0])
  }

  /** What the recovery manager records for a spare with a route. */
  ghost function Joined(s: Snap, id: string, cell: Position, now: int, goal: Position, route: seq<TimedStep>): Snap {
    s.(paths := s.paths[id := route], goals := s.goals[id := goal],
       trace := s.trace[id := [TimedStep(cell, now)]], moves := s.moves[id := 0], waits := s.waits[id := 0])
  }

  /** Joining is enlisting and then being routed. */
  lemma JoinIsEnlistAndRoute(s: Snap, id: string, cell: Position, now: int, goal: Position, path: TimedPath)
    requires path.Planned? && path.steps != [] && path.steps[0] == TimedStep(cell, now)
    ensures Joined(s, id, cell, now, goal, path.steps) == Rerouted(Enlisted(s, id, cell, now, goal), now, id, path)
  {
    assert [TimedStep(cell, now)] + path.steps[1..] == path.steps;
    assert s.paths[id := [TimedStep(cell, now)]][id := path.steps] == s.paths[id := path.steps];
  }

  lemma OneStepTrace(cell: Position, now: int)
    ensures var here := [TimedStep(cell, now)];
            WellTimed(here) && ArrivalTime(here) == StartTime(here) == now && Goal(here) == cell && Moves(here) == 0
                && Waits(here) == 0
  {
  }

  lemma EnlistKeepsRecords(s: Snap, fleet: Fleet, now: int, id: string, goal: Position)
    requires Recorded(s, fleet, now) && id in fleet && fleet[id].status != Offline
    ensures var s' := Enlisted(s, id, fleet[id].position, now, goal);
            Recorded(s', fleet, now) && id in s'.paths && Present(s', fleet, now, id)
  {
    hide At, Apart, RouteTouchesCell, Ahead, Moves, Waits;
    var s' := Enlisted(s, id, fleet[id].position, now, goal);
    OneStepTrace(fleet[id].position, now);
    forall x | x in s'.paths
      ensures RecordOk(s', fleet, now, x) && WellTimed(s'.paths[x]) && StartTime(s'.paths[x]) <= now
    {
      assert x != id ==> RecordOk(s, fleet, now, x);
    }
  }

  lemma EnlistedParts(s: Snap, id: string, cell: Position, now: int, goal: Position)
    ensures var s' := Enlisted(s, id, cell, now, goal);
            && (forall x | x in s.paths && x != id :: x in s'.paths && s'.paths[x] == s.paths[x])
            && (forall x | x in s'.paths && x != id :: x in s.paths)
            && (forall x | x in s.goals && x != id :: x in s'.goals && s'.goals[x] == s.goals[x])
            && (forall x | x in s.trace && x != id :: x in s'.trace && s'.trace[x] == s.trace[x])
            && id in s'.paths && id in s'.goals && s'.goals[id] == goal && id in s'.trace
                && s'.trace[id] == [TimedStep(cell, now)]
            && s'.horizon == s.horizon && s'.offline == s.offline && s'.safeStopped == s.safeStopped
            && s'.Movers() == (if id in s.offline + s.safeStopped then s.Movers() else s.Movers() + {id})
  {
  }

  lemma EnlistKeepsSound(s: Snap, fleet: Fleet, floor: Floor, now: int, rest: set<string>, id: string, goal: Position)
    requires SoundBut(s, fleet, floor, now, rest) && id in fleet && fleet[id].status != Offline && id !in s.offline
    ensures var s' := Enlisted(s, id, fleet[id].position, now, goal);
            SoundBut(s', fleet, floor, now, rest + {id}) && s'.Movers() - (rest + {id}) == s.Movers() - (rest + {id})
            && RecordOk(s', fleet, now, id) && Present(s', fleet, now, id)
  {
    hide At, Apart, RouteTouchesCell, Ahead, Moves, Waits, WellTimed, RecordOk, Enlisted;
    var s' := Enlisted(s, id, fleet[id].position, now, goal);
    EnlistKeepsRecords(s, fleet, now, id, goal);
    EnlistedParts(s, id, fleet[id].position, now, goal);
    forall x | x in s'.Movers()
      ensures Present(s', fleet, now, x) && (x !in rest + {id} ==> Routed(s', fleet, floor, now, x))
    {
      if x != id {
        SoundParts(s, fleet, floor, now, rest, x);
      }
    }
    forall a, b | a in s'.Movers() - (rest + {id}) && b in s'.Movers() - (rest + {id}) && a != b
      ensures WellTimed(s'.paths[a]) && WellTimed(s'.paths[b]) && Apart(s'.paths[a], s'.paths[b], now)
    {
      SoundParts(s, fleet, floor, now, rest, a);
      SoundParts(s, fleet, floor, now, rest, b);
      assert Apart(s.paths[a], s.paths[b], now);
    }
  }

  /** A bystander - a robot stopped for safety that is handed a route - changes
      nothing for the robots under way. */
  lemma BystanderKeepsSound(s: Snap, fleet: Fleet, floor: Floor, now: int, rest: set<string>, id: string, c: Claims,
          path: TimedPath)
    requires SoundBut(s, fleet, floor, now, rest + {id}) && id in s.paths && id !in s.Movers()
             && Present(s, fleet, now, id) && id in s.goals
    requires path.Planned? && LegalRoute(QueryOf(s, floor, now, id, c), path.steps)
    ensures SoundBut(Rerouted(s, now, id, path), fleet, floor, now, rest - {id})
  {
    hide Moves, Waits, At, Splice, Apart, RouteTouchesCell, Ahead, Rerouted, WellTimed, LegalRoute;
    var s' := Rerouted(s, now, id, path);
    assert RecordOk(s, fleet, now, id);
    ReroutedRecords(s, fleet, floor, now, id, c, path);
    ReroutedParts(s, now, id, path);
    assert s'.Movers() - (rest - {id}) == s.Movers() - (rest + {id});
    forall x | x in s'.Movers()
      ensures Present(s', fleet, now, x)
    {
      assert Present(s, fleet, now, x);
    }
    forall x | x in s.Movers() - (rest + {id})
      ensures Routed(s', fleet, floor, now, x)
    {
      assert Routed(s, fleet, floor, now, x);
    }
    forall a, b | a in s.Movers() - (rest + {id}) && b in s.Movers() - (rest + {id}) && a != b
      ensures WellTimed(s'.paths[a]) && WellTimed(s'.paths[b]) && Apart(s'.paths[a], s'.paths[b], now)
    {
      assert Apart(s.paths[a], s.paths[b], now);
    }
  }

  /** A spare with a legal route around the others joins a sound run. */
  lemma JoinKeepsSound(s: Snap, fleet: Fleet, floor: Floor, now: int, rest: set<string>, id: string, goal: Position,
          c: Claims, path: TimedPath)
    requires SoundBut(s, fleet, floor, now, rest) && id in fleet && fleet[id].status != Offline && id !in s.offline
    requires Guards(c, s, now, rest + {id})
    requires path.Planned? && LegalRoute(Query(floor, c, id, fleet[id].position, now, goal, s.horizon,
             SpatialPlanning.MANHATTAN), path.steps)
    ensures SoundBut(Joined(s, id, fleet[id].position, now, goal, path.steps), fleet, floor, now, rest - {id})
  {
    hide Moves, Waits, At, Splice, Apart, RouteTouchesCell, Ahead, Rerouted, WellTimed, LegalRoute, SoundBut, Joined,
         Claims.Holds, Claims.Anchored;
    var s1 := Enlisted(s, id, fleet[id].position, now, goal);
    EnlistKeepsSound(s, fleet, floor, now, rest, id, goal);
    Coordinator.LegalStartsInTime(QueryOf(s1, floor, now, id, c), path.steps);
    LegalStart(QueryOf(s1, floor, now, id, c), path.steps);
    JoinIsEnlistAndRoute(s, id, fleet[id].position, now, goal, path);
    if id in s1.Movers() {
      EnlistGuards(s, fleet, floor, now, rest, id, goal, c);
      RerouteSucceeds(s1, fleet, floor, now, rest + {id}, id, c, path);
      assert rest + {id} - {id} == rest - {id};
    } else {
      BystanderKeepsSound(s1, fleet, floor, now, rest, id, c, path);
    }
  }

  lemma LegalStart(q: Query, steps: seq<TimedStep>)
    requires LegalRoute(q, steps)
    ensures steps[0] == TimedStep(q.start, q.startTime)
  {
  }

  lemma EnlistGuards(s: Snap, fleet: Fleet, floor: Floor, now: int, rest: set<string>, id: string, goal: Position,
          c: Claims)
    requires SoundBut(s, fleet, floor, now, rest) && id in fleet && fleet[id].status != Offline && id !in s.offline
    requires Guards(c, s, now, rest + {id})
    ensures var s1 := Enlisted(s, id, fleet[id].position, now, goal);
            Execution.Timed(s1.paths) && Guards(c, s1, now, rest + {id})
  {
    hide At, Apart, RouteTouchesCell, Ahead, Claims.Holds, Claims.Anchored;
    EnlistKeepsSound(s, fleet, floor, now, rest, id, goal);
  }

  lemma JoinedParts(s: Snap, fleet: Fleet, id: string, cell: Position, now: int, goal: Position, route: seq<TimedStep>)
    requires id !in s.offline
    ensures var s' := Joined(s, id, cell, now, goal, route);
            && Pins(s', fleet) == Pins(s, fleet) && s'.offline == s.offline && s'.safeStopped == s.safeStopped
                && s'.horizon == s.horizon
            && s'.paths == s.paths[id := route] && s'.goals == s.goals[id := goal]
                && s'.trace == s.trace[id := [TimedStep(cell, now)]]
            && s'.Movers() == (if id in s.safeStopped then s.Movers() else s.Movers() + {id})
  {
  }

  lemma JoinKeepsClear(s: Snap, fleet: Fleet, floor: Floor, now: int, rest: set<string>, id: string, goal: Position,
          c: Claims, path: TimedPath)
    requires SoundBut(s, fleet, floor, now, rest) && id in fleet && fleet[id].status != Offline && id !in s.offline
    requires path.Planned? && LegalRoute(Query(floor, c, id, fleet[id].position, now, goal, s.horizon,
             SpatialPlanning.MANHATTAN), path.steps)
    requires Pinned(c, Pins(s, fleet), now, s.horizon) && PinNamesFree({id}, s.offline)
    requires StepsClearBut(s, fleet, now, rest)
    ensures var s' := Joined(s, id, fleet[id].position, now, goal, path.steps);
            && Pins(s', fleet) == Pins(s, fleet) && StepsClearBut(s', fleet, now, rest - {id})
            && (ParkedClear(s, fleet, now) ==> ParkedClear(s', fleet, now))
  {
    hide Moves, Waits, At, RouteTouchesCell, WellTimed, LegalRoute, SoundBut, PinName, Joined, Snap.Movers, Pins;
    JoinedParts(s, fleet, id, fleet[id].position, now, goal, path.steps);
    JoinOffPins(s, fleet, floor, now, rest, id, goal, c, path);
  }

  lemma JoinOffPins(s: Snap, fleet: Fleet, floor: Floor, now: int, rest: set<string>, id: string, goal: Position,
          c: Claims, path: TimedPath)
    requires SoundBut(s, fleet, floor, now, rest) && id in fleet && fleet[id].status != Offline && id !in s.offline
    requires path.Planned? && LegalRoute(Query(floor, c, id, fleet[id].position, now, goal, s.horizon,
             SpatialPlanning.MANHATTAN), path.steps)
    requires Pinned(c, Pins(s, fleet), now, s.horizon) && PinNamesFree({id}, s.offline)
    ensures forall o | o in Pins(s, fleet) :: !RouteTouchesCell(path.steps, Pins(s, fleet)[o], now)
    ensures path.steps != [] && ArrivalTime(path.steps) >= now
  {
    hide Moves, Waits, At, Splice, Apart, RouteTouchesCell, Ahead, Rerouted, LegalRoute, SoundBut, Pinned, Routed,
         PinName;
    var s1 := Enlisted(s, id, fleet[id].position, now, goal);
    EnlistKeepsSound(s, fleet, floor, now, rest, id, goal);
    Coordinator.LegalStartsInTime(QueryOf(s1, floor, now, id, c), path.steps);
    LegalStart(QueryOf(s1, floor, now, id, c), path.steps);
    JoinIsEnlistAndRoute(s, id, fleet[id].position, now, goal, path);
    NewRouteOffPins(s1, fleet, floor, now, id, c, path, Pins(s, fleet));
  }

  // ---------- The table a replan is made around ----------

  ghost predicate TouchesPin(steps: seq<TimedStep>, pins: map<string, Position>, now: int) {
    exists o :: o in pins && RouteTouchesCell(steps, pins[o], now)
  }

  /** Whose routes go into the table: not those being replanned, not failed
      robots, and not routes through a failed robot's cell. */
  ghost function Included(s: Snap, fleet: Fleet, now: int, exclude: set<string>): set<string> {
    set id | id in s.paths && id !in exclude && id !in s.offline && !TouchesPin(s.paths[id], Pins(s, fleet), now)
  }

  /** The table guards everybody under way that has a route. */
  lemma FutureTableGuards(s: Snap, fleet: Fleet, floor: Floor, now: int, rest: set<string>, exclude: set<string>,
          c: Claims)
    requires SoundBut(s, fleet, floor, now, rest) && StepsClearBut(s, fleet, now, rest)
    requires Underway(s.paths, now)
             && IsFutureTable(c, s.paths, Included(s, fleet, now, exclude), Pins(s, fleet), now, s.horizon)
    ensures Guards(c, s, now, rest + exclude) && Pinned(c, Pins(s, fleet), now, s.horizon)
  {
    hide Moves, Waits, At, Apart, RouteTouchesCell, Ahead, WellTimed, RecordOk, Present, Routed, NothingElse, Pinned,
         Claims.Anchored, Claims.Holds;
    forall id | id in s.Movers() - (rest + exclude)
      ensures id in Included(s, fleet, now, exclude)
    {
    }
  }

  /** While nobody has stopped for safety, and failed robots stand alone, the
      table can always be built. */
  lemma FutureTableBuilds(s: Snap, fleet: Fleet, floor: Floor, now: int, rest: set<string>, exclude: set<string>)
    requires SoundBut(s, fleet, floor, now, rest) && s.safeStopped == {} && ParkedClear(s, fleet, now)
    requires forall id | id in rest && id in s.paths && id !in exclude :: TouchesPin(s.paths[id], Pins(s, fleet), now)
    ensures Underway(s.paths, now) && Execution.Timed(s.paths)
    ensures var ids := Included(s, fleet, now, exclude);
            && InTime(s.paths, ids, s.horizon) && MeetNever(s.paths, ids, now, s.horizon)
            && PinsClear(s.paths, ids, Pins(s, fleet), now, s.horizon)
  {
    hide Moves, Waits, At, RouteTouchesCell, Ahead, RecordOk, Present, NoMeeting, NoSwap;
    var ids, pins := Included(s, fleet, now, exclude), Pins(s, fleet);
    assert ids <= s.Movers() - rest;
    forall id | id in ids
      ensures s.paths[id] != [] && ArrivalTime(s.paths[id]) <= s.horizon
    {
      SoundParts(s, fleet, floor, now, rest, id);
    }
    forall a, b, t | a in ids && b in ids && a != b && now <= t <= s.horizon
      ensures NoMeeting(s.paths[a], s.paths[b], t)
    {
      assert Apart(s.paths[a], s.paths[b], now);
    }
    forall id, t | id in ids && now <= t <= s.horizon
      ensures At(s.paths[id], t) !in pins.Values
    {
      SoundParts(s, fleet, floor, now, rest, id);
      if o :| o in pins && pins[o] == At(s.paths[id], t) {
        StaysOff(s, fleet, floor, now, id, pins[o], o);
      }
    }
  }

  lemma StaysOff(s: Snap, fleet: Fleet, floor: Floor, now: int, id: string, cell: Position, o: string)
    requires Routed(s, fleet, floor, now, id) && Underway(s.paths, now) && ParkedClear(s, fleet, now)
    requires id in s.Movers() && o in Pins(s, fleet) && Pins(s, fleet)[o] == cell
             && !TouchesPin(s.paths[id], Pins(s, fleet), now)
    ensures forall t | now <= t :: At(s.paths[id], t) != cell
  {
    hide At, RouteTouchesCell, Ahead, Pins;
    assert !RouteTouchesCell(s.paths[id], cell, now);
    NeverOn(s.paths[id], cell, now);
  }

  // ---------- What a batch of replans, or of stops, leads to ----------

  /** Only routes of `ids` have changed, and only `ids` may have stopped. */
  ghost predicate ChangedOnly(s: Snap, s': Snap, ids: set<string>) {
    && s'.paths.Keys == s.paths.Keys && (forall x | x in s.paths && x !in ids :: s'.paths[x] == s.paths[x])
    && s'.goals == s.goals && s'.trace == s.trace && s'.moves == s.moves && s'.waits == s.waits
    && s'.horizon == s.horizon && s'.offline == s.offline
    && s.safeStopped <= s'.safeStopped <= s.safeStopped + ids
  }

  lemma ChangedOnlyOn(a: Snap, b: Snap, c: Snap, ids: set<string>, more: set<string>)
    requires ChangedOnly(a, b, ids) && ChangedOnly(b, c, more)
    ensures ChangedOnly(a, c, ids + more)
  {
  }

  lemma NothingChanged(s: Snap, ids: set<string>)
    ensures ChangedOnly(s, s, ids)
  {
  }

  lemma RerouteChangesOnly(s: Snap, now: int, id: string, path: TimedPath)
    requires id in s.trace && s.trace[id] != [] && id in s.paths
    ensures ChangedOnly(s, Rerouted(s, now, id, path), {id})
  {
    ReroutedParts(s, now, id, path);
  }

  lemma SetOfLast(order: seq<string>, k: nat)
    requires 0 < k <= |order|
    ensures SetOf(order[..k]) == SetOf(order[..k - 1]) + {order[k - 1]}
    ensures order[..k][..k - 1] == order[..k - 1] && order[..k] == order[..k - 1] + [order[k - 1]]
             && SetOf(order[..0]) == {}
  {
    assert order[..k] == order[..k - 1] + [order[k - 1]];
  }

  lemma NothingReplanned(s: Snap, floor: Floor, now: int, c: Claims)
    ensures Replannable(s, []) && ReplanAll(s, floor, now, [], c) == Replans(s, c)
  {
  }

  lemma NextReplan(s: Snap, floor: Floor, now: int, order: seq<string>, c: Claims, k: nat)
    requires k < |order| && Replannable(s, order[..k]) && order[k] in s.trace && s.trace[order[k]] != []
             && order[k] in s.goals
    ensures Replannable(s, order[..k + 1])
    ensures var before := ReplanAll(s, floor, now, order[..k], c);
            var path := Plan(QueryOf(before.snap, floor, now, order[k], before.claims));
            ReplanAll(s, floor, now, order[..k + 1], c) ==
              Replans(Rerouted(before.snap, now, order[k], path), Coordinator.Reserved(before.claims, path, s.horizon))
  {
    hide Plan, Rerouted, Coordinator.Reserved;
    assert order[..k + 1][..k] == order[..k];
  }

  lemma {:induction false} BatchChangesOnly(s: Snap, fleet: Fleet, floor: Floor, now: int, order: seq<string>,
          c: Claims, k: nat)
    requires Distinct(order) && SetOf(order) <= s.Movers() && k <= |order|
    requires SoundBut(s, fleet, floor, now, SetOf(order)) && Guards(c, s, now, SetOf(order))
    ensures Replannable(s, order[..k])
             && ChangedOnly(s, ReplanAll(s, floor, now, order[..k], c).snap, SetOf(order[..k]))
  {
    hide SoundBut, Guards, Plan, Rerouted, Coordinator.Reserved, Snap.Movers, Distinct, ChangedOnly, SetOf, ReplanAll,
         Replannable;
    BatchSound(s, fleet, floor, now, order, c, k);
    assert order[..0] == [];
    NothingReplanned(s, floor, now, c);
    NothingChanged(s, SetOf(order[..0]));
    if k > 0 {
      BatchChangesOnly(s, fleet, floor, now, order, c, k - 1);
      BatchSound(s, fleet, floor, now, order, c, k - 1);
      var before, id := ReplanAll(s, floor, now, order[..k - 1], c).snap, order[k - 1];
      SetOfLast(order, k);
      RestShrinks(order, k - 1);
      SoundParts(before, fleet, floor, now, SetOf(order[k - 1..]), id);
      NextReplan(s, floor, now, order, c, k - 1);
      var path := Plan(QueryOf(before, floor, now, id, ReplanAll(s, floor, now, order[..k - 1], c).claims));
      RerouteChangesOnly(before, now, id, path);
      ChangedOnlyOn(s, before, Rerouted(before, now, id, path), SetOf(order[..k - 1]), {id});
    }
  }

  /** Recovery switched off: every robot of `order` stops where it is. */
  ghost function StopAll(s: Snap, now: int, order: seq<string>): (r: Snap)
    requires Replannable(s, order)
    ensures r.trace == s.trace && r.goals == s.goals
  {
    if order == [] then s
    else Rerouted(StopAll(s, now, order[..|order| - 1]), now, order[|order| - 1],
        Unplanned(order[|order| - 1], HorizonExceeded))
  }

  lemma {:induction false} StopAllSound(s: Snap, fleet: Fleet, floor: Floor, now: int, order: seq<string>, k: nat)
    requires Distinct(order) && SetOf(order) <= s.Movers() && k <= |order|
    requires SoundBut(s, fleet, floor, now, SetOf(order))
    ensures Replannable(s, order[..k])
    ensures var r := StopAll(s, now, order[..k]);
            && SoundBut(r, fleet, floor, now, SetOf(order[k..])) && SetOf(order[k..]) <= r.Movers()
            && ChangedOnly(s, r, SetOf(order[..k])) && r.safeStopped == s.safeStopped + SetOf(order[..k])
  {
    hide SoundBut, Rerouted, Snap.Movers, Distinct, ChangedOnly, SetOf;
    assert order[0..] == order && order[..0] == [];
    NothingChanged(s, SetOf(order[..0]));
    NobodyNamed();
    if k > 0 {
      StopAllSound(s, fleet, floor, now, order, k - 1);
      var before, id := StopAll(s, now, order[..k - 1]), order[k - 1];
      SetOfLast(order, k);
      RestShrinks(order, k - 1);
      StopOne(before, fleet, floor, now, SetOf(order[k - 1..]), id);
      ChangedOnlyOn(s, before, StopAll(s, now, order[..k]), SetOf(order[..k - 1]), {id});
    }
  }

  lemma NobodyNamed()
    ensures SetOf([]) == {}
  {
  }

  lemma StopOne(s: Snap, fleet: Fleet, floor: Floor, now: int, rest: set<string>, id: string)
    requires SoundBut(s, fleet, floor, now, rest) && id in rest && rest <= s.Movers()
    ensures id in s.trace && s.trace[id] != [] && id in s.goals && id in s.paths
    ensures var s' := Rerouted(s, now, id, Unplanned(id, HorizonExceeded));
            SoundBut(s', fleet, floor, now, rest - {id}) && rest - {id} <= s'.Movers() && ChangedOnly(s, s', {id})
            && s'.safeStopped == s.safeStopped + {id}
  {
    hide SoundBut, Rerouted;
    var path := Unplanned(id, HorizonExceeded);
    SoundParts(s, fleet, floor, now, rest, id);
    RerouteFails(s, fleet, floor, now, rest, id, Claims(map[], map[]), path);
    ReroutedParts(s, now, id, path);
  }

  /** Leaving more robots out asks for less. */
  lemma SoundButMore(s: Snap, fleet: Fleet, floor: Floor, now: int, rest: set<string>, more: set<string>)
    requires SoundBut(s, fleet, floor, now, rest) && rest * s.Movers() <= more
    ensures SoundBut(s, fleet, floor, now, more)
    ensures StepsClearBut(s, fleet, now, rest) ==> StepsClearBut(s, fleet, now, more)
  {
    hide Apart, RecordOk, Present, Routed, RouteTouchesCell, Underway;
  }

  /** Once it has arrived a robot under way stands on its goal. */
  lemma ArrivedIsAtGoal(s: Snap, fleet: Fleet, floor: Floor, now: int, id: string)
    requires Sound(s, fleet, floor, now) && id in s.Movers() && s.horizon <= now
    ensures id in fleet && id in s.goals && fleet[id].position == s.goals[id]
  {
    hide Apart, Moves, Waits, RecordOk, Present, Ahead, Sound;
    SoundMover(s, fleet, floor, now, id);
  }

  // ---------- What was actually driven ----------

  /** While both were driving the two never shared a cell and never traded cells. */
  ghost predicate DroveApart(a: seq<TimedStep>, b: seq<TimedStep>)
    requires WellTimed(a) && WellTimed(b)
  {
    && (forall t | Max(StartTime(a), StartTime(b)) <= t && t <= ArrivalTime(a) && t <= ArrivalTime(b) ::
        NoMeeting(a, b, t))
    && (forall t | Max(StartTime(a), StartTime(b)) <= t && t < ArrivalTime(a) && t < ArrivalTime(b) :: NoSwap(a, b, t))
  }

  /** So it was with any two robots that are still under way. */
  ghost predicate TracesApart(s: Snap) {
    forall a, b | a in s.Movers() && b in s.Movers() && a != b ::
      a in s.trace && b in s.trace && WellTimed(s.trace[a]) && WellTimed(s.trace[b])
          && DroveApart(s.trace[a], s.trace[b])
  }

  lemma LongerTrace(trace: seq<TimedStep>, cell: Position)
    requires WellTimed(trace)
    ensures var longer := trace + [TimedStep(cell, ArrivalTime(trace) + 1)];
            && WellTimed(longer) && StartTime(longer) == StartTime(trace)
                && ArrivalTime(longer) == ArrivalTime(trace) + 1
            && At(longer, ArrivalTime(longer)) == cell
            && forall t | t <= ArrivalTime(trace) :: At(longer, t) == At(trace, t)
  {
  }

  lemma PairStepsOn(a: seq<TimedStep>, b: seq<TimedStep>, ca: Position, cb: Position)
    requires WellTimed(a) && WellTimed(b) && ArrivalTime(a) == ArrivalTime(b) && DroveApart(a, b)
    requires ca != cb && !(Goal(a) == cb && ca == Goal(b))
    ensures var a', b' := a + [TimedStep(ca, ArrivalTime(a) + 1)], b + [TimedStep(cb, ArrivalTime(b) + 1)];
            WellTimed(a') && WellTimed(b') && DroveApart(a', b')
  {
    hide At;
    var now := ArrivalTime(a);
    var a', b' := a + [TimedStep(ca, now + 1)], b + [TimedStep(cb, now + 1)];
    LongerTrace(a, ca);
    LongerTrace(b, cb);
    LastAt(a);
    LastAt(b);
    forall t | Max(StartTime(a'), StartTime(b')) <= t && t <= now + 1
      ensures NoMeeting(a', b', t)
    {
      if t <= now {
        assert NoMeeting(a, b, t);
      }
    }
    forall t | Max(StartTime(a'), StartTime(b')) <= t && t < now + 1
      ensures NoSwap(a', b', t)
    {
      if t < now {
        assert NoSwap(a, b, t);
        assert At(a', t + 1) == At(a, t + 1) && At(b', t + 1) == At(b, t + 1);
      }
    }
  }

  lemma LastAt(steps: seq<TimedStep>)
    requires WellTimed(steps)
    ensures At(steps, ArrivalTime(steps)) == Goal(steps)
  {
  }

  lemma StepKeepsTraces(s: Snap, fleet: Fleet, floor: Floor, now: int)
    requires Sound(s, fleet, floor, now) && TracesApart(s)
    ensures Execution.Timed(s.paths) && Tallied(s) && TracesApart(Advanced(s, now + 1))
  {
    hide At, Moves, Waits, WellTimed, DroveApart, Sound, Apart, Ahead;
    SoundIsTimed(s, fleet, floor, now);
    var s' := Advanced(s, now + 1);
    forall a, b | a in s'.Movers() && b in s'.Movers() && a != b
      ensures a in s'.trace && b in s'.trace && WellTimed(s'.trace[a]) && WellTimed(s'.trace[b])
               && DroveApart(s'.trace[a], s'.trace[b])
    {
      SoundMover(s, fleet, floor, now, a);
      SoundMover(s, fleet, floor, now, b);
      NextCellsDiffer(s, fleet, floor, now, a, b);
      PairStepsOn(s.trace[a], s.trace[b], At(s.paths[a], now + 1), At(s.paths[b], now + 1));
    }
  }

  lemma NextCellsDiffer(s: Snap, fleet: Fleet, floor: Floor, now: int, a: string, b: string)
    requires Sound(s, fleet, floor, now) && a in s.Movers() && b in s.Movers() && a != b
    ensures WellTimed(s.paths[a]) && WellTimed(s.paths[b]) && a in fleet && b in fleet
    ensures At(s.paths[a], now + 1) != At(s.paths[b], now + 1)
    ensures !(fleet[a].position == At(s.paths[b], now + 1) && At(s.paths[a], now + 1) == fleet[b].position)
  {
    hide At, Moves, Waits, WellTimed, RecordOk, Present, Ahead;
    SoundParts(s, fleet, floor, now, {}, a);
    SoundParts(s, fleet, floor, now, {}, b);
    assert Apart(s.paths[a], s.paths[b], now);
    assert NoMeeting(s.paths[a], s.paths[b], now + 1) && NoSwap(s.paths[a], s.paths[b], now);
  }

  /** A robot whose record begins now has met nobody, if it stands apart now. */
  lemma NewcomerDroveApart(a: seq<TimedStep>, b: seq<TimedStep>)
    requires WellTimed(a) && WellTimed(b) && |a| == 1 && ArrivalTime(b) == ArrivalTime(a) && Goal(a) != Goal(b)
    ensures DroveApart(a, b) && DroveApart(b, a)
  {
    hide At, WellTimed;
    LastAt(a);
    LastAt(b);
    assert StartTime(a) == ArrivalTime(a);
  }

  /** An event keeps it: whoever is under way afterwards was before, or has just
      joined, and no record has changed but the newcomers'. */
  lemma EventKeepsTraces(s: Snap, s': Snap, fleet': Fleet, floor': Floor, now: int, newcomers: set<string>)
    requires TracesApart(s) && Sound(s', fleet', floor', now)
    requires s'.Movers() <= s.Movers() + newcomers
    requires forall x | x in s'.Movers() && x !in newcomers ::
             x in s.Movers() && x in s.trace && x in s'.trace && s'.trace[x] == s.trace[x]
    requires forall x | x in newcomers :: x in s'.trace && |s'.trace[x]| == 1
    ensures TracesApart(s')
  {
    hide At, Moves, Waits, WellTimed, DroveApart, Sound, Apart, Ahead;
    forall a, b | a in s'.Movers() && b in s'.Movers() && a != b
      ensures a in s'.trace && b in s'.trace && WellTimed(s'.trace[a]) && WellTimed(s'.trace[b])
               && DroveApart(s'.trace[a], s'.trace[b])
    {
      SoundMover(s', fleet', floor', now, a);
      SoundMover(s', fleet', floor', now, b);
      MoversStandApart(s', fleet', floor', now, a, b);
      if a in newcomers {
        NewcomerDroveApart(s'.trace[a], s'.trace[b]);
      } else if b in newcomers {
        NewcomerDroveApart(s'.trace[b], s'.trace[a]);
      } else {
        assert DroveApart(s.trace[a], s.trace[b]);
      }
    }
  }
}
