/** What a robot gets that is sent another way: the earliest route that leaves the
    others alone. It has to stop only where there is none. */
module Reroutes {
  import opened Floors
  import opened TimedPaths
  import opened Reservations
  import opened SpaceTime
  import opened Simulation
  import opened Names
  import opened Replanning
  import opened Resilience
  import opened Disruptions
  import Coordinator
  import SpatialPlanning
  import Execution

  // ---------- Routes and the table of what is left of them ----------

  ghost predicate KeepsOff(a: seq<TimedStep>, b: seq<TimedStep>, from: int, to: int)
    requires WellTimed(a) && WellTimed(b)
  {
    && (forall t | from <= t <= to :: NoMeeting(a, b, t))
    && (forall t | from <= t < to :: NoSwap(a, b, t))
  }

  ghost predicate OffPins(steps: seq<TimedStep>, pins: map<string, Position>, from: int, to: int)
    requires WellTimed(steps)
  {
    forall o, t | o in pins && from <= t <= to :: At(steps, t) != pins[o]
  }

  /** A route that answers the request and, until the horizon, keeps off the routes of
      `others` and off the cells of failed robots. No table is looked at. */
  ghost predicate FitsAround(q: Query, paths: Plans, others: set<string>, pins: map<string, Position>,
          steps: seq<TimedStep>)
    requires others <= paths.Keys && Execution.Timed(paths)
  {
    && WellTimed(steps)
    && steps[0] == TimedStep(q.start, q.startTime) && Goal(steps) == q.goal
    && ArrivalTime(steps) <= q.horizon && Drivable(q.floor, steps)
    && (forall o | o in others :: KeepsOff(steps, paths[o], q.startTime, q.horizon))
    && OffPins(steps, pins, q.startTime, q.horizon)
  }

  ghost predicate TableFor(q: Query, paths: Plans, others: set<string>, pins: map<string, Position>) {
    && others <= paths.Keys && Execution.Timed(paths) && q.robot !in others
    && (forall o | o in pins :: PinName(o) != q.robot)
    && IsFutureTable(q.claims, paths, others, pins, q.startTime, q.horizon)
  }

  lemma LegalKeepsOff(q: Query, paths: Plans, others: set<string>, pins: map<string, Position>,
          steps: seq<TimedStep>)
    requires TableFor(q, paths, others, pins) && LegalRoute(q, steps)
    ensures FitsAround(q, paths, others, pins, steps)
  {
    hide Drivable, At, NothingElse, Claims.Anchored;
    forall o | o in others
      ensures KeepsOff(steps, paths[o], q.startTime, q.horizon)
    {
      HeldIsOff(q, steps, o, paths[o]);
    }
    forall o, t | o in pins && q.startTime <= t <= q.horizon
      ensures At(steps, t) != pins[o]
    {
      assert q.claims.VertexFree(At(steps, t), t, q.robot);
    }
  }

  lemma HeldIsOff(q: Query, steps: seq<TimedStep>, other: string, theirs: seq<TimedStep>)
    requires LegalRoute(q, steps) && WellTimed(theirs) && other != q.robot
    requires q.claims.Holds(other, theirs, q.startTime, q.horizon)
    ensures KeepsOff(steps, theirs, q.startTime, q.horizon)
  {
    hide Drivable, At, WellTimed;
    forall t | q.startTime <= t <= q.horizon
      ensures NoMeeting(steps, theirs, t)
    {
      assert q.claims.VertexFree(At(steps, t), t, q.robot);
    }
    forall t | q.startTime <= t < q.horizon
      ensures NoSwap(steps, theirs, t)
    {
      Coordinator.NoSwapWithHolder(q, steps, other, theirs, t);
    }
  }

  lemma OffIsClear(q: Query, paths: Plans, others: set<string>, pins: map<string, Position>, steps: seq<TimedStep>)
    requires TableFor(q, paths, others, pins) && FitsAround(q, paths, others, pins, steps)
    ensures ClearOf(q.claims, q.robot, steps, q.startTime, q.horizon)
  {
    hide Drivable, At, Claims.Anchored, Claims.Holds, WellTimed, Pinned, HoldsAll;
    var c := q.claims;
    forall t | q.startTime <= t <= q.horizon
      ensures (At(steps, t), t) !in c.vertices
    {
      assert forall o | o in others :: NoMeeting(steps, paths[o], t);
      NotAccounted(paths, others, pins, steps, t);
    }
    forall t | q.startTime <= t < q.horizon
      ensures (At(steps, t + 1), At(steps, t), t) !in c.edges
    {
      assert forall o | o in others :: NoSwap(steps, paths[o], t);
    }
  }

  lemma NotAccounted(paths: Plans, others: set<string>, pins: map<string, Position>, steps: seq<TimedStep>, t: int)
    requires others <= paths.Keys && Execution.Timed(paths) && WellTimed(steps)
    requires forall o | o in others :: NoMeeting(steps, paths[o], t)
    requires forall o | o in pins :: At(steps, t) != pins[o]
    ensures forall owner :: !AccountedVertex(paths, others, pins, (At(steps, t), t), owner)
  {
    hide At, WellTimed;
  }

  /** What the table allows is what fits. */
  lemma LegalIsFitting(q: Query, paths: Plans, others: set<string>, pins: map<string, Position>,
          steps: seq<TimedStep>)
    requires TableFor(q, paths, others, pins)
    ensures LegalRoute(q, steps) <==> FitsAround(q, paths, others, pins, steps)
  {
    hide IsFutureTable, ClearOf, Drivable, KeepsOff, OffPins;
    if LegalRoute(q, steps) {
      LegalKeepsOff(q, paths, others, pins, steps);
    }
    if FitsAround(q, paths, others, pins, steps) {
      OffIsClear(q, paths, others, pins, steps);
    }
  }

  // ---------- The table while a batch is replanned ----------

  /** Reserving a legal route adds that route to the table, and nothing else. */
  lemma TableGrows(q: Query, paths: Plans, paths': Plans, others: set<string>, pins: map<string, Position>,
          steps: seq<TimedStep>)
    requires TableFor(q, paths, others, pins) && LegalRoute(q, steps)
    requires paths'.Keys == paths.Keys && q.robot in paths && Execution.Timed(paths')
    requires forall x | x in others :: paths'[x] == paths[x]
    requires forall t | q.startTime <= t :: At(paths'[q.robot], t) == At(steps, t)
    ensures var c' := Coordinator.Reserved(q.claims, Planned(q.robot, steps), q.horizon);
            IsFutureTable(c', paths', others + {q.robot}, pins, q.startTime, q.horizon)
  {
    hide At, VertexKeys, EdgeKeys, Claims.Anchored, Claims.Holds, Claims.Grants, ClearOf, Drivable, NothingElse,
         Extends, Pinned, Claims.With;
    var c, id := q.claims, q.robot;
    Coordinator.LegalStartsInTime(q, steps);
    Coordinator.LegalRouteGranted(q, steps);
    ReservedIsHeld(c, id, steps, q.horizon);
    var c' := c.With(id, VertexKeys(steps, q.horizon), EdgeKeys(steps, |steps| - 1));
    SameFutureHeld(c', id, steps, paths'[id], q.startTime, q.horizon);
    forall o | o in others
      ensures c'.Holds(o, paths'[o], q.startTime, q.horizon)
    {
      StillHeld(c, c', id, o, paths[o], q.startTime, q.horizon);
    }
    PinnedStays(c, c', id, pins, q.startTime, q.horizon);
    NothingElseGrows(q, paths, paths', others, pins, steps);
  }

  lemma NothingElseGrows(q: Query, paths: Plans, paths': Plans, others: set<string>, pins: map<string, Position>,
          steps: seq<TimedStep>)
    requires others <= paths.Keys && Execution.Timed(paths)
    requires WellTimed(steps) && steps != [] && StartTime(steps) == q.startTime
    requires paths'.Keys == paths.Keys && q.robot in paths && Execution.Timed(paths')
    requires forall x | x in others :: paths'[x] == paths[x]
    requires forall t | q.startTime <= t :: At(paths'[q.robot], t) == At(steps, t)
    requires NothingElse(q.claims, paths, others, pins, q.startTime)
    ensures NothingElse(q.claims.With(q.robot, VertexKeys(steps, q.horizon), EdgeKeys(steps, |steps| - 1)), paths',
                others + {q.robot}, pins, q.startTime)
  {
    hide At, VertexKeys, EdgeKeys, WellTimed;
    var c, id, vs, es := q.claims, q.robot, VertexKeys(steps, q.horizon), EdgeKeys(steps, |steps| - 1);
    var c' := c.With(id, vs, es);
    forall k | k in vs
      ensures q.startTime <= k.1 && At(paths'[id], k.1) == k.0
    {
      VertexKeysAt(steps, q.horizon);
    }
    forall k | k in c'.vertices
      ensures q.startTime <= k.1 && AccountedVertex(paths', others + {id}, pins, k, c'.vertices[k])
    {
      if k !in vs {
        assert AccountedVertex(paths, others, pins, k, c.vertices[k]);
      }
    }
    forall k | k in c'.edges
      ensures q.startTime <= k.2 && AccountedEdge(paths', others + {id}, k, c'.edges[k])
    {
      if k in es {
        EdgeEndsClaimed(steps, q.horizon, k);
        assert (k.0, k.2) in vs && (k.1, k.2 + 1) in vs;
      } else {
        assert AccountedEdge(paths, others, k, c.edges[k]);
      }
    }
  }

  /** Who keeps a route while robot `order[k]` is replanned: everybody in the table, and
      those before it that found a new one. */
  ghost function Settled(s: Snap, fleet: Fleet, now: int, order: seq<string>, k: nat, before: Snap): set<string>
    requires k <= |order|
  {
    Included(s, fleet, now, SetOf(order)) + (SetOf(order[..k]) - before.safeStopped)
  }

  /** The moment at which a batch is replanned. */
  ghost predicate BatchReady(s: Snap, fleet: Fleet, floor: Floor, now: int, order: seq<string>, c: Claims) {
    && Distinct(order) && SetOf(order) <= s.Movers() && PinNamesFree(SetOf(order), s.offline)
    && SoundBut(s, fleet, floor, now, SetOf(order)) && StepsClearBut(s, fleet, now, SetOf(order))
    && Underway(s.paths, now)
    && IsFutureTable(c, s.paths, Included(s, fleet, now, SetOf(order)), Pins(s, fleet), now, s.horizon)
  }

  lemma ReadyIsGuarded(s: Snap, fleet: Fleet, floor: Floor, now: int, order: seq<string>, c: Claims)
    requires BatchReady(s, fleet, floor, now, order, c)
    ensures Guards(c, s, now, SetOf(order))
  {
    hide SoundBut, StepsClearBut, IsFutureTable, Guards;
    FutureTableGuards(s, fleet, floor, now, SetOf(order), SetOf(order), c);
    assert SetOf(order) + SetOf(order) == SetOf(order);
  }

  ghost predicate TableAt(s: Snap, fleet: Fleet, now: int, order: seq<string>, k: nat, r: Replans)
    requires k <= |order|
  {
    var others := Settled(s, fleet, now, order, k, r.snap);
    && others <= r.snap.paths.Keys && Execution.Timed(r.snap.paths)
    && IsFutureTable(r.claims, r.snap.paths, others, Pins(s, fleet), now, s.horizon)
  }

  lemma FirstTable(s: Snap, fleet: Fleet, floor: Floor, now: int, order: seq<string>, c: Claims)
    requires BatchReady(s, fleet, floor, now, order, c)
    ensures TableAt(s, fleet, now, order, 0, Replans(s, c))
  {
    hide SoundBut, StepsClearBut, IsFutureTable, TouchesPin;
    assert order[..0] == [] && SetOf(order[..0]) == {};
    assert Settled(s, fleet, now, order, 0, s) == Included(s, fleet, now, SetOf(order));
  }

  lemma {:induction false} BatchTable(s: Snap, fleet: Fleet, floor: Floor, now: int, order: seq<string>, c: Claims,
          k: nat)
    requires BatchReady(s, fleet, floor, now, order, c) && k <= |order|
    ensures Replannable(s, order[..k])
    ensures TableAt(s, fleet, now, order, k, ReplanAll(s, floor, now, order[..k], c))
  {
    hide BatchReady, TableAt, ReplanAll, Replannable;
    if k == 0 {
      FirstTable(s, fleet, floor, now, order, c);
      assert order[..0] == [];
      NothingReplanned(s, floor, now, c);
    } else {
      BatchTable(s, fleet, floor, now, order, c, k - 1);
      NextTable(s, fleet, floor, now, order, c, k - 1);
    }
  }

  /** The request of the robot whose turn it is. */
  lemma TurnRequest(s: Snap, fleet: Fleet, floor: Floor, now: int, order: seq<string>, c: Claims, k: nat)
    requires BatchReady(s, fleet, floor, now, order, c) && k < |order| && Replannable(s, order[..k])
    requires TableAt(s, fleet, now, order, k, ReplanAll(s, floor, now, order[..k], c))
    ensures var r, id := ReplanAll(s, floor, now, order[..k], c), order[k];
            && id in r.snap.paths && id in r.snap.trace && r.snap.trace[id] != [] && id in r.snap.goals
            && id !in r.snap.safeStopped && RecordOk(r.snap, fleet, now, id) && Present(r.snap, fleet, now, id)
            && r.snap.horizon == s.horizon
            && TableFor(QueryOf(r.snap, floor, now, id, r.claims), r.snap.paths,
                   Settled(s, fleet, now, order, k, r.snap), Pins(s, fleet))
  {
    hide SoundBut, StepsClearBut, IsFutureTable, Guards, ReplanAll, Replannable, RecordOk, Present, Underway;
    ReadyIsGuarded(s, fleet, floor, now, order, c);
    BatchSound(s, fleet, floor, now, order, c, k);
    var r, id := ReplanAll(s, floor, now, order[..k], c), order[k];
    RestShrinks(order, k);
    SoundParts(r.snap, fleet, floor, now, SetOf(order[k..]), id);
    PresentParts(r.snap, fleet, now, id);
    assert id in SetOf(order) && id !in SetOf(order[..k]);
  }

  lemma PresentParts(s: Snap, fleet: Fleet, now: int, id: string)
    requires RecordOk(s, fleet, now, id) && Present(s, fleet, now, id)
    ensures id in s.paths && id in s.trace && s.trace[id] != [] && id in s.goals
  {
  }

  lemma NextTable(s: Snap, fleet: Fleet, floor: Floor, now: int, order: seq<string>, c: Claims, k: nat)
    requires BatchReady(s, fleet, floor, now, order, c) && k < |order| && Replannable(s, order[..k])
    requires TableAt(s, fleet, now, order, k, ReplanAll(s, floor, now, order[..k], c))
    ensures Replannable(s, order[..k + 1])
    ensures TableAt(s, fleet, now, order, k + 1, ReplanAll(s, floor, now, order[..k + 1], c))
  {
    hide BatchReady, Replannable, ReplanAll, RecordOk, Present, Rerouted, Coordinator.Reserved, Plan, IsFutureTable,
         Settled, LegalRoute;
    TurnRequest(s, fleet, floor, now, order, c, k);
    var r, id := ReplanAll(s, floor, now, order[..k], c), order[k];
    NextReplan(s, floor, now, order, c, k);
    var q := QueryOf(r.snap, floor, now, id, r.claims);
    var path := Plan(q);
    PlanIsCompleteAndEarliest(q);
    SettledGrows(s, fleet, floor, now, order, c, k);
    TimedAfter(s, fleet, floor, now, order, c, k + 1);
    ReroutedParts(r.snap, now, id, path);
    var others, paths' := Settled(s, fleet, now, order, k, r.snap), Rerouted(r.snap, now, id, path).paths;
    if path.Planned? {
      NewRouteIsGood(r.snap, fleet, floor, now, id, r.claims, path);
      TableGrows(q, r.snap.paths, paths', others, Pins(s, fleet), path.steps);
      assert path == Planned(id, path.steps);
    } else {
      Coordinator.ReservedCases(r.claims, path, s.horizon);
      SameTable(r.claims, r.snap.paths, paths', others, Pins(s, fleet), now, s.horizon);
    }
  }

  lemma SettledGrows(s: Snap, fleet: Fleet, floor: Floor, now: int, order: seq<string>, c: Claims, k: nat)
    requires BatchReady(s, fleet, floor, now, order, c) && k < |order| && Replannable(s, order[..k])
    requires var r, id := ReplanAll(s, floor, now, order[..k], c), order[k];
             id in r.snap.paths && id in r.snap.trace && r.snap.trace[id] != [] && id in r.snap.goals
             && id !in r.snap.safeStopped
    ensures var r, id := ReplanAll(s, floor, now, order[..k], c), order[k];
            var path := Plan(QueryOf(r.snap, floor, now, id, r.claims));
            var before := Settled(s, fleet, now, order, k, r.snap);
            Settled(s, fleet, now, order, k + 1, Rerouted(r.snap, now, id, path))
              == if path.Planned? then before + {id} else before
  {
    hide SoundBut, StepsClearBut, IsFutureTable, ReplanAll, Replannable, Rerouted, Plan, Underway, Included;
    var r, id := ReplanAll(s, floor, now, order[..k], c), order[k];
    var path := Plan(QueryOf(r.snap, floor, now, id, r.claims));
    ReroutedParts(r.snap, now, id, path);
    SetOfLast(order, k + 1);
    assert id !in SetOf(order[..k]);
  }

  lemma TimedAfter(s: Snap, fleet: Fleet, floor: Floor, now: int, order: seq<string>, c: Claims, k: nat)
    requires BatchReady(s, fleet, floor, now, order, c) && k <= |order|
    ensures Replannable(s, order[..k])
    ensures var r := ReplanAll(s, floor, now, order[..k], c);
            Execution.Timed(r.snap.paths) && r.snap.paths.Keys == s.paths.Keys
  {
    hide Guards, ReplanAll, Replannable, RecordOk, Present, Routed, AllApart, StepsClearBut, IsFutureTable;
    ReadyIsGuarded(s, fleet, floor, now, order, c);
    BatchSound(s, fleet, floor, now, order, c, k);
  }

  lemma SameTable(c: Claims, paths: Plans, paths': Plans, others: set<string>, pins: map<string, Position>, from: int,
          horizon: int)
    requires others <= paths.Keys && Execution.Timed(paths) && IsFutureTable(c, paths, others, pins, from, horizon)
    requires paths'.Keys == paths.Keys && Execution.Timed(paths') && forall x | x in others :: paths'[x] == paths[x]
    ensures IsFutureTable(c, paths', others, pins, from, horizon)
  {
    hide Claims.Anchored, Claims.Holds, WellTimed, At, Pinned;
    forall k | k in c.vertices
      ensures AccountedVertex(paths', others, pins, k, c.vertices[k])
    {
      assert AccountedVertex(paths, others, pins, k, c.vertices[k]);
    }
    forall k | k in c.edges
      ensures AccountedEdge(paths', others, k, c.edges[k])
    {
      assert AccountedEdge(paths, others, k, c.edges[k]);
    }
  }

  // ---------- What each of them gets ----------

  /** What is decided for a robot in its turn is not touched later. */
  lemma {:induction false} TurnIsFinal(s: Snap, floor: Floor, now: int, order: seq<string>, c: Claims, k: nat)
    requires Distinct(order) && k < |order| && Replannable(s, order) && order[k] in s.paths
    ensures Replannable(s, order[..k + 1])
    ensures var turn, end := ReplanAll(s, floor, now, order[..k + 1], c).snap, ReplanAll(s, floor, now, order, c).snap;
            && order[k] in turn.paths && order[k] in end.paths && end.paths[order[k]] == turn.paths[order[k]]
            && (order[k] in end.safeStopped <==> order[k] in turn.safeStopped)
    decreases |order|
  {
    hide Plan, Rerouted, Coordinator.Reserved;
    StillKnown(s, floor, now, order, c, order[k]);
    var n := |order| - 1;
    if k < n {
      TurnIsFinal(s, floor, now, order[..n], c, k);
      assert order[..n][..k + 1] == order[..k + 1] && order[..n][k] == order[k];
      StillKnown(s, floor, now, order[..n], c, order[k]);
      var before := ReplanAll(s, floor, now, order[..n], c);
      OthersUntouched(before.snap, now, order[n], Plan(QueryOf(before.snap, floor, now, order[n], before.claims)),
          order[k]);
    } else {
      assert order[..k + 1] == order;
    }
  }

  lemma OthersUntouched(s: Snap, now: int, id: string, path: TimedPath, other: string)
    requires id in s.trace && s.trace[id] != [] && other in s.paths && other != id
    ensures var s' := Rerouted(s, now, id, path);
            && other in s'.paths && s'.paths[other] == s.paths[other]
            && (other in s'.safeStopped <==> other in s.safeStopped)
  {
    hide Splice;
  }

  lemma {:induction false} StillKnown(s: Snap, floor: Floor, now: int, order: seq<string>, c: Claims, id: string)
    requires Replannable(s, order) && id in s.paths
    ensures id in ReplanAll(s, floor, now, order, c).snap.paths
  {
    hide Plan, Splice, Coordinator.Reserved;
    if order != [] {
      StillKnown(s, floor, now, order[..|order| - 1], c, id);
    }
  }

  /** From `now` on the route is where the other one is. */
  ghost predicate GoesOnAs(a: seq<TimedStep>, b: seq<TimedStep>, now: int) {
    WellTimed(a) && WellTimed(b) && forall t | now <= t :: At(a, t) == At(b, t)
  }

  /** Robots sent another way take turns, by name. Each has to stop just when no route
      from where it is to its goal fits around the others; otherwise it goes on along
      one that does, and none that does arrives earlier. */
  lemma EachGetsTheEarliestWayOn(s: Snap, fleet: Fleet, floor: Floor, now: int, order: seq<string>, c: Claims, k: nat)
    requires BatchReady(s, fleet, floor, now, order, c) && k < |order|
    ensures Replannable(s, order[..k]) && Replannable(s, order)
    ensures var id, before := order[k], ReplanAll(s, floor, now, order[..k], c);
            var end := ReplanAll(s, floor, now, order, c);
            var others := Settled(s, fleet, now, order, k, before.snap);
            && others <= before.snap.paths.Keys && Execution.Timed(before.snap.paths)
            && id in s.trace && s.trace[id] != [] && id in s.goals && id in end.snap.paths
            && var q := Query(floor, c, id, Goal(s.trace[id]), now, s.goals[id], s.horizon, SpatialPlanning.MANHATTAN);
               && (id in end.snap.safeStopped <==>
                     !exists steps :: FitsAround(q, before.snap.paths, others, Pins(s, fleet), steps))
               && (id !in end.snap.safeStopped ==>
                     exists steps :: FitsAround(q, before.snap.paths, others, Pins(s, fleet), steps)
                       && GoesOnAs(end.snap.paths[id], steps, now)
                       && forall other | FitsAround(q, before.snap.paths, others, Pins(s, fleet), other) ::
                            ArrivalTime(steps) <= ArrivalTime(other))
  {
    hide BatchReady, ReplanAll, Replannable, RecordOk, Present, Rerouted, Coordinator.Reserved, Plan, IsFutureTable,
         Settled, LegalRoute, FitsAround, TableAt;
    var id := order[k];
    BatchTable(s, fleet, floor, now, order, c, k);
    TurnRequest(s, fleet, floor, now, order, c, k);
    TimedAfter(s, fleet, floor, now, order, c, |order|);
    assert order[..|order|] == order;
    NextReplan(s, floor, now, order, c, k);
    ReadyIsDistinct(s, fleet, floor, now, order, c, id);
    TurnIsFinal(s, floor, now, order, c, k);
    var r := ReplanAll(s, floor, now, order[..k], c);
    var others := Settled(s, fleet, now, order, k, r.snap);
    var q := QueryOf(r.snap, floor, now, id, r.claims);
    var path := Plan(q);
    var wish := Query(floor, c, id, Goal(s.trace[id]), now, s.goals[id], s.horizon, SpatialPlanning.MANHATTAN);
    assert q.(claims := c) == wish;
    PlanIsCompleteAndEarliest(q);
    ReroutedParts(r.snap, now, id, path);
    forall steps
      ensures LegalRoute(q, steps) <==>
                FitsAround(wish, r.snap.paths, others, Pins(s, fleet), steps)
    {
      LegalIsFitting(q, r.snap.paths, others, Pins(s, fleet), steps);
      NoTableNeeded(q, c, r.snap.paths, others, Pins(s, fleet), steps);
    }
    if path.Planned? {
      NewRouteIsGood(r.snap, fleet, floor, now, id, r.claims, path);
    }
  }

  lemma NoTableNeeded(q: Query, c: Claims, paths: Plans, others: set<string>, pins: map<string, Position>,
          steps: seq<TimedStep>)
    requires others <= paths.Keys && Execution.Timed(paths)
    ensures FitsAround(q, paths, others, pins, steps) <==> FitsAround(q.(claims := c), paths, others, pins, steps)
  {
    hide KeepsOff, OffPins, Drivable;
  }

  lemma ReadyIsDistinct(s: Snap, fleet: Fleet, floor: Floor, now: int, order: seq<string>, c: Claims, id: string)
    requires BatchReady(s, fleet, floor, now, order, c) && id in order
    ensures Distinct(order) && id in s.paths
  {
    hide SoundBut, StepsClearBut, IsFutureTable, Underway;
    assert id in SetOf(order);
  }

  // ---------- During a run ----------

  lemma AroundIsReady(s: Snap, s': Snap, fleet: Fleet, floor: Floor, now: int, affected: set<string>, c: Claims)
    requires SoundBut(s, fleet, floor, now, affected) && StepsClearBut(s, fleet, now, affected)
    requires affected <= s.Movers() && NoPinNames(fleet)
    requires ReplannedAround(s, s', fleet, floor, now, affected, c)
    ensures var order := Sorted(affected);
            && BatchReady(s, fleet, floor, now, order, c) && Replannable(s, order)
            && s' == ReplanAll(s, floor, now, order, c).snap
  {
    hide StepsClearBut, IsFutureTable, ReplanAll, PinNamesFree, RecordOk, Present, Routed, AllApart;
    var order := Sorted(affected);
    assert SetOf(order) == affected;
    forall id | id in affected
      ensures id in fleet
    {
      SoundParts(s, fleet, floor, now, affected, id);
      KnownRobot(s, fleet, now, id);
    }
    PinNamesSubset(fleet, affected, s.offline);
  }

  lemma KnownRobot(s: Snap, fleet: Fleet, now: int, id: string)
    requires Present(s, fleet, now, id)
    ensures id in fleet
  {
  }

  /** In a run with recovery on, those whose route an obstacle blocks are sent another
      way in such a batch, on the floor as it now is. */
  lemma ObstacleSendsAround(s: Snap, s': Snap, fleet: Fleet, site: Site, site': Site, id: string, cell: Position,
          now: int, report: EventReport, c: Claims)
    requires Going(s, fleet, site.floor, now, true) && NoPinNames(fleet)
    requires ObstacleHandled(s, s', fleet, site, site', id, cell, now, true, report, c) && report.affected != {}
    ensures var order := Sorted(report.affected);
            && BatchReady(s, fleet, site'.floor, now, order, c) && Replannable(s, order)
            && s' == ReplanAll(s, site'.floor, now, order, c).snap
            && site'.floor.blocked == site.floor.blocked + {cell}
            && (forall r | r in fleet :: fleet[r].position != cell)
  {
    hide Sound, SoundBut, ReplannedAround, BatchReady, Replannable, ReplanAll, NoPinNames, Touching, StepsClearBut;
    ObstacleSparesOthers(s, fleet, site.floor, now, cell);
    TouchingAreMovers(s, cell, now);
    StepsClearAll(s, fleet, now, report.affected);
    AroundIsReady(s, s', fleet, site'.floor, now, report.affected, c);
  }

  lemma StepsClearAll(s: Snap, fleet: Fleet, now: int, rest: set<string>)
    requires StepsClear(s, fleet, now)
    ensures StepsClearBut(s, fleet, now, rest)
  {
    hide RouteTouchesCell;
  }

  /** And so are those whose route leads through the cell a robot has failed on. */
  lemma FailureSendsAround(s: Snap, s': Snap, fleet: Fleet, tasks: Tasks, fleet': Fleet, tasks': Tasks, floor: Floor,
          now: int, f: string, to: Option<string>, s2: Snap, c1: Claims, c2: Claims)
    requires Going(s, fleet, floor, now, true) && f in fleet && NoPinNames(fleet)
    requires FailureHandled(s, s', fleet, tasks, fleet', tasks', floor, now, f, true, to, s2, c1, c2)
    requires Touching(s2, fleet[f].position, now) != {}
    ensures var order := Sorted(Touching(s2, fleet[f].position, now));
            && BatchReady(s2, fleet', floor, now, order, c2) && Replannable(s2, order)
            && s' == ReplanAll(s2, floor, now, order, c2).snap
  {
    hide Going, SoundBut, StepsClearBut, TaskHandled, ReplannedAround, NoPinNames, BatchReady, Replannable, ReplanAll,
         Touching, AfterLoss, Pins;
    var s1, fleet1, cell := AfterLoss(s, f), FleetOffline(fleet, f), fleet[f].position;
    FailureDisrupts(s, fleet, floor, now, f);
    SameNames(fleet, fleet1);
    TaskHandledKeeps(s1, s2, fleet1, tasks, fleet', tasks', floor, now, f, to, c1, cell);
    SameNames(fleet1, fleet');
    TouchingAreMovers(s2, cell, now);
    AroundIsReady(s2, s', fleet', floor, now, Touching(s2, cell, now), c2);
  }

  /** A spare that has been handed a task keeps it just when a route to the pickup fits
      around the others. */
  lemma SpareKeepsTaskIfItFits(s1: Snap, s2: Snap, fleet1: Fleet, tasks1: Tasks, fleet2: Fleet, tasks2: Tasks,
          floor: Floor, now: int, task: string, n: string, to: Option<string>, c: Claims)
    requires n in fleet1 && task in tasks1 && NoPinNames(fleet1)
    requires SpareRouted(s1, s2, fleet1, tasks1, fleet2, tasks2, floor, now, task, n, to, c)
    ensures var busy := AssignRobot(fleet1, n, task);
            var others := Included(s1, busy, now, {n});
            && others <= s1.paths.Keys && Execution.Timed(s1.paths)
            && var q := Query(floor, c, n, fleet1[n].position, now, tasks1[task].pickup, s1.horizon,
                   SpatialPlanning.MANHATTAN);
               to == Some(n) <==> exists steps :: FitsAround(q, s1.paths, others, Pins(s1, busy), steps)
  {
    hide IsFutureTable, Plan, LegalRoute, FitsAround, TouchesPin, Joined, AssignRobot, AssignTask;
    var busy := AssignRobot(fleet1, n, task);
    var others, q := Included(s1, busy, now, {n}), SpareQuery(s1, fleet1, tasks1, floor, now, task, n, c);
    PinsAreNames(s1, fleet1, n, task);
    PlanIsCompleteAndEarliest(q);
    forall steps
      ensures LegalRoute(q, steps) <==> FitsAround(q, s1.paths, others, Pins(s1, busy), steps)
    {
      LegalIsFitting(q, s1.paths, others, Pins(s1, busy), steps);
    }
  }

  lemma PinsAreNames(s: Snap, fleet: Fleet, n: string, task: string)
    requires NoPinNames(fleet) && n in fleet
    ensures forall o | o in Pins(s, AssignRobot(fleet, n, task)) :: PinName(o) != n
  {
    hide PinName;
  }
}
