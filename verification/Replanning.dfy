/** Replanning a robot in the middle of a run: what is left of the routes, the
    reservations they still need, and how a new route joins the old one. */
module Replanning {
  import opened Floors
  import opened TimedPaths
  import opened Reservations
  import opened Names
  import Execution

  type Plans = Execution.Plans

  // ---------- What is left of a route ----------

  function Remaining(steps: seq<TimedStep>, from: int): seq<TimedStep> {
    if steps == [] then []
    else Remaining(steps[..|steps| - 1], from) + if steps[|steps| - 1].timestep >= from then [steps[|steps| - 1]]
        else []
  }

  lemma {:induction false} RemainingOfFirst(steps: seq<TimedStep>, from: int, n: nat)
    requires WellTimed(steps) && StartTime(steps) <= from && n <= |steps|
    ensures var k := from - StartTime(steps);
            Remaining(steps[..n], from) == if n <= k then [] else steps[k..n]
  {
    if n > 0 {
      RemainingOfFirst(steps, from, n - 1);
      assert steps[..n][..n - 1] == steps[..n - 1];
      assert steps[..n][n - 1].timestep == StartTime(steps) + n - 1;
      var k := from - StartTime(steps);
      if k < n {
        assert (if n - 1 <= k then [] else steps[k..n - 1]) + [steps[n - 1]] == steps[k..n];
      }
    }
  }

  lemma RemainingIsSuffix(steps: seq<TimedStep>, from: int)
    requires WellTimed(steps) && StartTime(steps) <= from
    ensures Remaining(steps, from) == if ArrivalTime(steps) < from then [] else steps[from - StartTime(steps)..]
  {
    RemainingOfFirst(steps, from, |steps|);
    assert steps[..|steps|] == steps;
  }

  /** The rest of a route is a route: it stands where the whole one does. */
  lemma RemainingAgrees(steps: seq<TimedStep>, from: int)
    requires WellTimed(steps) && StartTime(steps) <= from <= ArrivalTime(steps)
    ensures var rest := Remaining(steps, from);
            && WellTimed(rest) && StartTime(rest) == from && ArrivalTime(rest) == ArrivalTime(steps)
            && (forall t | from <= t :: At(rest, t) == At(steps, t))
  {
    RemainingIsSuffix(steps, from);
  }

  predicate RouteTouchesCell(steps: seq<TimedStep>, cell: Position, from: int) {
    exists i | 0 <= i < |steps| :: steps[i].position == cell && steps[i].timestep >= from
  }

  lemma TouchesExact(steps: seq<TimedStep>, cell: Position, from: int)
    requires WellTimed(steps) && StartTime(steps) <= from
    ensures RouteTouchesCell(steps, cell, from) <==> exists t | from <= t <= ArrivalTime(steps) :: At(steps, t) == cell
  {
    if RouteTouchesCell(steps, cell, from) {
      var i :| 0 <= i < |steps| && steps[i].position == cell && steps[i].timestep >= from;
      assert At(steps, steps[i].timestep) == cell;
    }
    if t :| from <= t <= ArrivalTime(steps) && At(steps, t) == cell {
      assert steps[t - StartTime(steps)].position == cell;
    }
  }

  /** Once parked a robot stays: missing the cell now and on every later step is
      missing it for good. */
  lemma NeverOn(steps: seq<TimedStep>, cell: Position, from: int)
    requires WellTimed(steps) && StartTime(steps) <= from && !RouteTouchesCell(steps, cell, from)
    requires ArrivalTime(steps) < from ==> At(steps, from) != cell
    ensures forall t | from <= t :: At(steps, t) != cell
  {
    TouchesExact(steps, cell, from);
    if ArrivalTime(steps) >= from {
      assert At(steps, ArrivalTime(steps)) != cell;
    }
  }

  // ---------- Splicing ----------

  function Splice(history: seq<TimedStep>, future: seq<TimedStep>): seq<TimedStep> {
    if history != [] && future != [] && history[|history| - 1] == future[0] then history + future[1..]
    else history + future
  }

  /** A route that starts where the history ends continues it without a gap. */
  lemma SpliceJoins(history: seq<TimedStep>, future: seq<TimedStep>)
    requires WellTimed(history) && WellTimed(future) && history[|history| - 1] == future[0]
    ensures var whole := Splice(history, future);
            && WellTimed(whole) && StartTime(whole) == StartTime(history)
            && ArrivalTime(whole) == ArrivalTime(future) && Goal(whole) == Goal(future)
            && (forall t | t <= StartTime(future) :: At(whole, t) == At(history, t))
            && (forall t | StartTime(future) <= t :: At(whole, t) == At(future, t))
  {
    var whole := Splice(history, future);
    assert forall i | 0 <= i < |future| :: whole[|history| - 1 + i] == future[i];
  }

  /** Stopping on the spot leaves just the history. */
  lemma SpliceStop(history: seq<TimedStep>)
    requires history != []
    ensures Splice(history, [history[|history| - 1]]) == history
  {
  }

  // ---------- The keys a route still needs ----------

  ghost function FutureVertices(steps: seq<TimedStep>, from: int, horizon: int): set<VertexKey>
    requires WellTimed(steps)
  {
    var rest := Remaining(steps, from);
    if rest == [] then HoldKeys(At(steps, from), from, horizon) else VertexKeys(rest, horizon)
  }

  ghost function FutureEdges(steps: seq<TimedStep>, from: int): set<EdgeKey> {
    var rest := Remaining(steps, from);
    if rest == [] then {} else EdgeKeys(rest, |rest| - 1)
  }

  /** One key per timestep, where the robot will be then. */
  lemma FutureVerticesAt(steps: seq<TimedStep>, from: int, horizon: int)
    requires WellTimed(steps) && StartTime(steps) <= from
    ensures FutureVertices(steps, from, horizon) == set t | from <= t <= Max(ArrivalTime(steps), horizon) ::
             (At(steps, t), t)
  {
    RemainingIsSuffix(steps, from);
    if ArrivalTime(steps) >= from {
      var rest := Remaining(steps, from);
      RemainingAgrees(steps, from);
      VertexKeysAt(rest, horizon);
    } else {
      var cell, all := At(steps, from), set t | from <= t <= Max(ArrivalTime(steps), horizon) :: (At(steps, t), t);
      assert forall t | from <= t :: At(steps, t) == cell;
      forall k: VertexKey
        ensures k in HoldKeys(cell, from, horizon) <==> k in all
      {
        if k in all {
          assert k == (cell, k.1);
        }
        if k in HoldKeys(cell, from, horizon) {
          assert k == (At(steps, k.1), k.1);
        }
      }
    }
  }

  lemma FutureEdgesAt(steps: seq<TimedStep>, from: int, k: EdgeKey)
    requires WellTimed(steps) && StartTime(steps) <= from
    ensures k in FutureEdges(steps, from) <==>
              from <= k.2 && k.0 != k.1 && k.0 == At(steps, k.2) && k.1 == At(steps, k.2 + 1)
  {
    hide EdgeKeys;
    RemainingIsSuffix(steps, from);
    if ArrivalTime(steps) >= from {
      var rest := Remaining(steps, from);
      RemainingAgrees(steps, from);
      EdgeKeyAt(rest, k);
      assert from <= k.2 ==> At(rest, k.2) == At(steps, k.2) && At(rest, k.2 + 1) == At(steps, k.2 + 1);
    }
  }

  lemma EdgeKeyAt(steps: seq<TimedStep>, k: EdgeKey)
    requires WellTimed(steps)
    ensures k in EdgeKeys(steps, |steps| - 1) <==>
              StartTime(steps) <= k.2 && k.0 != k.1 && k.0 == At(steps, k.2) && k.1 == At(steps, k.2 + 1)
  {
    if k in EdgeKeys(steps, |steps| - 1) {
      var i :| 0 <= i < |steps| - 1 && IsMove(steps, i) && MoveKey(steps, i) == k;
      assert steps[i].timestep == StartTime(steps) + i;
    } else if StartTime(steps) <= k.2 && k.0 != k.1 && k.0 == At(steps, k.2) && k.1 == At(steps, k.2 + 1) {
      MoveKeyAt(steps, k.2);
    }
  }

  /** How many reservations a remaining route stands for. */
  function RemainingReservationCount(steps: seq<TimedStep>, from: int, horizon: int): nat {
    var rest := Remaining(steps, from);
    if rest == [] then 0 else |rest| + Moves(rest) + Max(0, horizon - rest[|rest| - 1].timestep)
  }

  /** That is exactly what is booked for a robot that has not arrived yet. */
  lemma RemainingCountIsBooked(steps: seq<TimedStep>, from: int, horizon: int)
    requires WellTimed(steps) && StartTime(steps) <= from <= ArrivalTime(steps)
    ensures |FutureVertices(steps, from, horizon)| + |FutureEdges(steps, from)|
             == RemainingReservationCount(steps, from, horizon)
  {
    hide VertexKeys, EdgeKeys;
    RemainingAgrees(steps, from);
    RouteReservationCount(Remaining(steps, from), horizon);
  }

  // ---------- A table of remaining routes ----------

  /** The owner a failed robot's cell is claimed under. */
  function PinName(robot: string): string {
    "__failed__" + robot
  }

  ghost predicate AccountedVertex(paths: Plans, ids: set<string>, pins: map<string, Position>, k: VertexKey,
          owner: string)
    requires ids <= paths.Keys && Execution.Timed(paths)
  {
    || (owner in ids && At(paths[owner], k.1) == k.0)
    || (exists o :: o in pins && owner == PinName(o) && pins[o] == k.0)
  }

  ghost predicate AccountedEdge(paths: Plans, ids: set<string>, k: EdgeKey, owner: string)
    requires ids <= paths.Keys && Execution.Timed(paths)
  {
    owner in ids && At(paths[owner], k.2) == k.0 && At(paths[owner], k.2 + 1) == k.1
  }

  /** Nothing is claimed but what the routes of `ids` and the pinned cells need. */
  ghost predicate NothingElse(c: Claims, paths: Plans, ids: set<string>, pins: map<string, Position>, from: int)
    requires ids <= paths.Keys && Execution.Timed(paths)
  {
    && (forall k | k in c.vertices :: from <= k.1 && AccountedVertex(paths, ids, pins, k, c.vertices[k]))
    && (forall k | k in c.edges :: from <= k.2 && AccountedEdge(paths, ids, k, c.edges[k]))
  }

  ghost predicate Pinned(c: Claims, pins: map<string, Position>, from: int, horizon: int) {
    forall o, t | o in pins && from <= t <= horizon ::
        (pins[o], t) in c.vertices && c.vertices[(pins[o], t)] == PinName(o)
  }

  ghost predicate HoldsAll(c: Claims, paths: Plans, ids: set<string>, from: int, horizon: int)
    requires ids <= paths.Keys && Execution.Timed(paths)
  {
    forall id | id in ids :: c.Holds(id, paths[id], from, horizon)
  }

  /** The table of remaining routes: from `from` to the horizon it holds every
      route of `ids` and every pinned cell, and nothing else. */
  ghost predicate IsFutureTable(c: Claims, paths: Plans, ids: set<string>, pins: map<string, Position>, from: int,
          horizon: int)
    requires ids <= paths.Keys && Execution.Timed(paths)
  {
    && c.Anchored() && HoldsAll(c, paths, ids, from, horizon) && Pinned(c, pins, from, horizon)
    && NothingElse(c, paths, ids, pins, from)
  }

  ghost predicate AllApart(paths: Plans, ids: set<string>, from: int)
    requires ids <= paths.Keys && Execution.Timed(paths)
  {
    forall a, b | a in ids && b in ids && a != b :: Apart(paths[a], paths[b], from)
  }

  /** From `from` to the horizon no two of the routes share a cell. */
  ghost predicate MeetNever(paths: Plans, ids: set<string>, from: int, horizon: int)
    requires ids <= paths.Keys && Execution.Timed(paths)
  {
    forall a, b, t | a in ids && b in ids && a != b && from <= t <= horizon :: NoMeeting(paths[a], paths[b], t)
  }

  ghost predicate InTime(paths: Plans, ids: set<string>, horizon: int)
    requires ids <= paths.Keys && Execution.Timed(paths)
  {
    forall id | id in ids :: ArrivalTime(paths[id]) <= horizon
  }

  ghost predicate Underway(paths: Plans, from: int)
  {
    forall id | id in paths :: WellTimed(paths[id]) && StartTime(paths[id]) <= from
  }

  lemma EmptyTable(paths: Plans, from: int, horizon: int)
    requires Execution.Timed(paths)
    ensures IsFutureTable(Claims(map[], map[]), paths, {}, map[], from, horizon)
  {
  }

  /** One of the routes is where route `id` is, at a time route `id` still books. */
  ghost predicate MeetsOne(paths: Plans, ids: set<string>, id: string, from: int, horizon: int)
    requires ids <= paths.Keys && Execution.Timed(paths) && id in paths
  {
    exists a, t :: a in ids && from <= t <= Max(ArrivalTime(paths[id]), horizon) && !NoMeeting(paths[a], paths[id], t)
  }

  /** Keys two routes both need are a meeting. */
  lemma ClashIsMeeting(c: Claims, paths: Plans, ids: set<string>, from: int, horizon: int, id: string)
    requires Underway(paths, from) && ids <= paths.Keys && id in paths && id !in ids
    requires NothingElse(c, paths, ids, map[], from)
    requires !c.Grants(id, FutureVertices(paths[id], from, horizon), FutureEdges(paths[id], from))
    ensures MeetsOne(paths, ids, id, from, horizon)
  {
    hide FutureVertices, FutureEdges, WellTimed, At;
    FutureVerticesAt(paths[id], from, horizon);
    if k :| k in FutureVertices(paths[id], from, horizon) && k in c.vertices && c.vertices[k] != id {
      var a := c.vertices[k];
      assert AccountedVertex(paths, ids, map[], k, a);
      assert !NoMeeting(paths[a], paths[id], k.1);
    } else {
      var k :| k in FutureEdges(paths[id], from) && k in c.edges && c.edges[k] != id;
      FutureEdgesAt(paths[id], from, k);
      MovesBeforeArrival(paths[id], k.2);
      var a := c.edges[k];
      assert AccountedEdge(paths, ids, k, a);
      assert !NoMeeting(paths[a], paths[id], k.2);
    }
  }

  /** Booking one more route. */
  lemma BookedRouteHeld(c: Claims, id: string, steps: seq<TimedStep>, from: int, horizon: int)
    requires WellTimed(steps) && StartTime(steps) <= from && c.Anchored()
    requires c.Grants(id, FutureVertices(steps, from, horizon), FutureEdges(steps, from))
    ensures var c' := c.With(id, FutureVertices(steps, from, horizon), FutureEdges(steps, from));
            && c'.Holds(id, steps, from, horizon) && c'.Anchored()
            && Extends(c.vertices, c'.vertices, id) && Extends(c.edges, c'.edges, id)
  {
    hide FutureVertices, FutureEdges, WellTimed, At;
    var vs, es := FutureVertices(steps, from, horizon), FutureEdges(steps, from);
    FutureVerticesAt(steps, from, horizon);
    GiveExtends(c.vertices, vs, id);
    GiveExtends(c.edges, es, id);
    forall t | from <= t < horizon && At(steps, t) != At(steps, t + 1)
      ensures (At(steps, t), At(steps, t + 1), t) in es
    {
      FutureEdgesAt(steps, from, (At(steps, t), At(steps, t + 1), t));
    }
    BookedAnchored(c, id, steps, from, horizon);
  }

  lemma BookedAnchored(c: Claims, id: string, steps: seq<TimedStep>, from: int, horizon: int)
    requires WellTimed(steps) && StartTime(steps) <= from && c.Anchored()
    requires c.Grants(id, FutureVertices(steps, from, horizon), FutureEdges(steps, from))
    ensures c.With(id, FutureVertices(steps, from, horizon), FutureEdges(steps, from)).Anchored()
  {
    hide FutureVertices, FutureEdges, WellTimed, At;
    var vs, es := FutureVertices(steps, from, horizon), FutureEdges(steps, from);
    var c' := c.With(id, vs, es);
    FutureVerticesAt(steps, from, horizon);
    forall a, b, t | (a, b, t) in c'.edges
      ensures (a, t) in c'.vertices && c'.vertices[(a, t)] == c'.edges[(a, b, t)]
      ensures (b, t + 1) in c'.vertices && c'.vertices[(b, t + 1)] == c'.edges[(a, b, t)]
    {
      if (a, b, t) in es {
        FutureEdgesAt(steps, from, (a, b, t));
        MovesBeforeArrival(steps, t);
        assert (a, t) in vs && (b, t + 1) in vs;
      } else {
        assert (a, b, t) in c.edges;
      }
    }
  }

  lemma MovesBeforeArrival(steps: seq<TimedStep>, t: int)
    requires WellTimed(steps) && At(steps, t) != At(steps, t + 1)
    ensures t < ArrivalTime(steps)
  {
  }

  lemma NothingElseBooked(c: Claims, paths: Plans, ids: set<string>, id: string, from: int, horizon: int)
    requires Underway(paths, from) && ids <= paths.Keys && id in paths
    requires NothingElse(c, paths, ids, map[], from)
    ensures NothingElse(c.With(id, FutureVertices(paths[id], from, horizon), FutureEdges(paths[id], from)), paths,
             ids + {id}, map[], from)
  {
    hide FutureVertices, FutureEdges, WellTimed, At;
    var vs, es := FutureVertices(paths[id], from, horizon), FutureEdges(paths[id], from);
    var c' := c.With(id, vs, es);
    FutureVerticesAt(paths[id], from, horizon);
    forall k | k in c'.vertices
      ensures from <= k.1 && AccountedVertex(paths, ids + {id}, map[], k, c'.vertices[k])
    {
      if k !in vs {
        assert AccountedVertex(paths, ids, map[], k, c.vertices[k]);
      }
    }
    forall k | k in c'.edges
      ensures from <= k.2 && AccountedEdge(paths, ids + {id}, k, c'.edges[k])
    {
      if k in es {
        FutureEdgesAt(paths[id], from, k);
      } else {
        assert AccountedEdge(paths, ids, k, c.edges[k]);
      }
    }
  }

  lemma BookNext(c: Claims, paths: Plans, ids: set<string>, id: string, from: int, horizon: int)
    requires Underway(paths, from) && ids <= paths.Keys && id in paths && id !in ids
    requires IsFutureTable(c, paths, ids, map[], from, horizon)
    ensures var vs, es := FutureVertices(paths[id], from, horizon), FutureEdges(paths[id], from);
            if c.Grants(id, vs, es) then IsFutureTable(c.With(id, vs, es), paths, ids + {id}, map[], from, horizon)
            else MeetsOne(paths, ids, id, from, horizon)
  {
    hide FutureVertices, FutureEdges, WellTimed, At, Claims.Grants, Claims.With, Claims.Anchored, Claims.Holds,
         NothingElse, MeetsOne, Extends;
    var vs, es := FutureVertices(paths[id], from, horizon), FutureEdges(paths[id], from);
    if c.Grants(id, vs, es) {
      BookedRouteHeld(c, id, paths[id], from, horizon);
      NothingElseBooked(c, paths, ids, id, from, horizon);
      forall other | other in ids
        ensures c.With(id, vs, es).Holds(other, paths[other], from, horizon)
      {
        StillHeld(c, c.With(id, vs, es), id, other, paths[other], from, horizon);
      }
    } else {
      ClashIsMeeting(c, paths, ids, from, horizon, id);
    }
  }

  lemma ParkedBooking(c: Claims, id: string, steps: seq<TimedStep>, from: int, horizon: int)
    requires WellTimed(steps) && Remaining(steps, from) == []
    ensures var hold := HoldKeys(At(steps, from), from, horizon);
            && FutureVertices(steps, from, horizon) == hold && FutureEdges(steps, from) == {}
            && (c.Grants(id, hold, {}) <==> Free(c.vertices, hold, id))
            && c.With(id, hold, {}) == Claims(Give(c.vertices, hold, id), c.edges)
  {
    GiveNothing(c.edges, id);
  }

  /** Reserve what is left of one route. */
  method ReserveRemaining(table: ReservationTable, id: string, steps: seq<TimedStep>, from: int, horizon: int)
    returns (ok: bool)
    requires WellTimed(steps)
    modifies table`vertices, table`edges
    ensures var vs, es := FutureVertices(steps, from, horizon), FutureEdges(steps, from);
            && ok == old(table.Contents()).Grants(id, vs, es)
            && (ok ==> table.Contents() == old(table.Contents()).With(id, vs, es))
  {
    hide Remaining, HoldKeys, VertexKeys, EdgeKeys, Free, Give, Extends, WellTimed;
    var rest := Remaining(steps, from);
    if rest == [] {
      ParkedBooking(table.Contents(), id, steps, from, horizon);
      var added;
      ok, added := table.BlockCell(At(steps, from), from, horizon, id);
    } else {
      ok := table.ReserveRoute(rest, id, horizon);
    }
  }

  lemma MeetingSpoils(paths: Plans, some: set<string>, all: set<string>, id: string, from: int, horizon: int)
    requires all <= paths.Keys && Execution.Timed(paths) && some <= all && id in all && id !in some
    requires MeetsOne(paths, some, id, from, horizon)
    ensures !(InTime(paths, all, horizon) && MeetNever(paths, all, from, horizon))
  {
    hide At, WellTimed;
  }

  /** Routes that arrive in time and never meet can all be booked. */
  lemma {:induction false} TableOf(paths: Plans, ids: set<string>, from: int, horizon: int) returns (c: Claims)
    requires Underway(paths, from) && ids <= paths.Keys && InTime(paths, ids, horizon)
             && MeetNever(paths, ids, from, horizon)
    ensures IsFutureTable(c, paths, ids, map[], from, horizon)
    decreases |ids|
  {
    hide IsFutureTable, FutureVertices, FutureEdges, WellTimed, Claims.Grants, Claims.With, MeetsOne, At;
    if ids == {} {
      c := Claims(map[], map[]);
      EmptyTable(paths, from, horizon);
    } else {
      var id :| id in ids;
      var before := TableOf(paths, ids - {id}, from, horizon);
      BookNext(before, paths, ids - {id}, id, from, horizon);
      if MeetsOne(paths, ids - {id}, id, from, horizon) {
        MeetingSpoils(paths, ids - {id}, ids, id, from, horizon);
      }
      c := before.With(id, FutureVertices(paths[id], from, horizon), FutureEdges(paths[id], from));
      assert ids - {id} + {id} == ids;
    }
  }

  /** A fresh table of every listed robot's route from `from` on. When the routes
      arrive within the horizon it raises exactly if two of them meet. */
  method BuildFutureReservations(paths: Plans, from: int, horizon: int, exclude: set<string>)
    returns (table: ReservationTable, raised: bool)
    requires Underway(paths, from)
    ensures fresh(table)
    ensures !raised ==> IsFutureTable(table.Contents(), paths, paths.Keys - exclude, map[], from, horizon)
    ensures raised ==>
             !(InTime(paths, paths.Keys - exclude, horizon)
             && MeetNever(paths, paths.Keys - exclude, from, horizon))
  {
    hide IsFutureTable, FutureVertices, FutureEdges, WellTimed, Claims.Grants, Claims.With, InTime, MeetNever,
         MeetsOne, Sorted;
    table := new ReservationTable();
    var order := Sorted(paths.Keys);
    SortedFacts(paths.Keys);
    EmptyTable(paths, from, horizon);
    ghost var ids: set<string> := {};
    for k := 0 to |order|
      invariant ids == (set x | x in order[..k] && x !in exclude)
      invariant ids <= paths.Keys && fresh(table)
      invariant IsFutureTable(table.Contents(), paths, ids, map[], from, horizon)
    {
      var id := order[k];
      assert order[..k + 1] == order[..k] + [id] && id in order && id !in order[..k];
      if id in exclude {
        continue;
      }
      BookNext(table.Contents(), paths, ids, id, from, horizon);
      var ok := ReserveRemaining(table, id, paths[id], from, horizon);
      if !ok {
        MeetingSpoils(paths, ids, paths.Keys - exclude, id, from, horizon);
        return table, true;
      }
      ids := ids + {id};
    }
    assert order[..|order|] == order;
    assert ids == paths.Keys - exclude;
    return table, false;
  }

  lemma SortedFacts(ids: set<string>)
    ensures Distinct(Sorted(ids)) && forall x :: x in Sorted(ids) <==> x in ids
  {
  }

  // ---------- Pinning failed robots ----------

  /** No route uses a pinned cell, and no two pins share one. */
  ghost predicate PinsClear(paths: Plans, ids: set<string>, pins: map<string, Position>, from: int, horizon: int)
    requires ids <= paths.Keys && Execution.Timed(paths)
  {
    from <= horizon ==>
      && (forall id, t | id in ids && from <= t <= horizon :: At(paths[id], t) !in pins.Values)
      && (forall a, b | a in pins && b in pins && a != b :: pins[a] != pins[b])
  }

  function PinsOf(pins: map<string, Position>, names: set<string>): map<string, Position> {
    map o | o in pins && o in names :: pins[o]
  }

  lemma PinNext(c: Claims, paths: Plans, ids: set<string>, pins: map<string, Position>, done: set<string>, o: string,
          from: int, horizon: int)
    requires ids <= paths.Keys && Execution.Timed(paths) && o in pins && o !in done
    requires IsFutureTable(c, paths, ids, PinsOf(pins, done), from, horizon)
    ensures var hold := HoldKeys(pins[o], from, horizon);
            if Free(c.vertices, hold, PinName(o)) then
              IsFutureTable(Claims(Give(c.vertices, hold, PinName(o)), c.edges), paths, ids, PinsOf(pins, done + {o}),
                  from, horizon)
            else !PinsClear(paths, ids, pins, from, horizon)
  {
    hide WellTimed, At;
    var hold := HoldKeys(pins[o], from, horizon);
    if Free(c.vertices, hold, PinName(o)) {
      PinnedTable(c, paths, ids, pins, done, o, from, horizon);
    } else {
      var k :| k in hold && k in c.vertices && c.vertices[k] != PinName(o);
      assert AccountedVertex(paths, ids, PinsOf(pins, done), k, c.vertices[k]);
      assert pins[o] in pins.Values;
    }
  }

  lemma PinnedTable(c: Claims, paths: Plans, ids: set<string>, pins: map<string, Position>, done: set<string>,
          o: string, from: int, horizon: int)
    requires ids <= paths.Keys && Execution.Timed(paths) && o in pins && o !in done
    requires IsFutureTable(c, paths, ids, PinsOf(pins, done), from, horizon)
    requires Free(c.vertices, HoldKeys(pins[o], from, horizon), PinName(o))
    ensures var c' := Claims(Give(c.vertices, HoldKeys(pins[o], from, horizon), PinName(o)), c.edges);
            IsFutureTable(c', paths, ids, PinsOf(pins, done + {o}), from, horizon)
  {
    hide WellTimed, At, Claims.Holds, Claims.Anchored, Extends, NothingElse, Pinned;
    var hold, owner := HoldKeys(pins[o], from, horizon), PinName(o);
    var c' := Claims(Give(c.vertices, hold, owner), c.edges);
    GiveExtends(c.vertices, hold, owner);
    ExtendsItself(c.edges, owner);
    forall id | id in ids
      ensures c'.Holds(id, paths[id], from, horizon)
    {
      StillHeld(c, c', owner, id, paths[id], from, horizon);
    }
    PinnedMore(c, pins, done, o, from, horizon);
    PinnedNothingElse(c, paths, ids, pins, done, o, from, horizon);
    PinnedAnchored(c, hold, owner);
  }

  lemma PinnedAnchored(c: Claims, hold: set<VertexKey>, owner: string)
    requires c.Anchored() && Free(c.vertices, hold, owner)
    ensures Claims(Give(c.vertices, hold, owner), c.edges).Anchored()
  {
  }

  lemma PinnedMore(c: Claims, pins: map<string, Position>, done: set<string>, o: string, from: int, horizon: int)
    requires o in pins && Pinned(c, PinsOf(pins, done), from, horizon)
             && Free(c.vertices, HoldKeys(pins[o], from, horizon), PinName(o))
    ensures Pinned(Claims(Give(c.vertices, HoldKeys(pins[o], from, horizon), PinName(o)), c.edges),
             PinsOf(pins, done + {o}), from, horizon)
  {
    hide PinName;
    var hold := HoldKeys(pins[o], from, horizon);
    var c' := Claims(Give(c.vertices, hold, PinName(o)), c.edges);
    forall x, t | x in PinsOf(pins, done + {o}) && from <= t <= horizon
      ensures (pins[x], t) in c'.vertices && c'.vertices[(pins[x], t)] == PinName(x)
    {
      if x == o {
        assert (pins[o], t) in hold;
      } else {
        assert (PinsOf(pins, done)[x], t) in c.vertices;
      }
    }
  }

  lemma PinnedNothingElse(c: Claims, paths: Plans, ids: set<string>, pins: map<string, Position>, done: set<string>,
          o: string, from: int, horizon: int)
    requires ids <= paths.Keys && Execution.Timed(paths) && o in pins
    requires NothingElse(c, paths, ids, PinsOf(pins, done), from)
    ensures NothingElse(Claims(Give(c.vertices, HoldKeys(pins[o], from, horizon), PinName(o)), c.edges), paths, ids,
             PinsOf(pins, done + {o}), from)
  {
    hide WellTimed, At, PinName;
    var hold, before, after := HoldKeys(pins[o], from, horizon), PinsOf(pins, done), PinsOf(pins, done + {o});
    var c' := Claims(Give(c.vertices, hold, PinName(o)), c.edges);
    forall k | k in c'.vertices
      ensures from <= k.1 && AccountedVertex(paths, ids, after, k, c'.vertices[k])
    {
      if k in hold {
        assert o in after && after[o] == k.0;
      } else {
        assert AccountedVertex(paths, ids, before, k, c.vertices[k]);
        assert forall x | x in before :: x in after && after[x] == before[x];
      }
    }
  }

  /** Out of the way of a table's routes and of each other, failed robots can all
      be pinned. */
  lemma {:induction false} PinnedTableOf(c: Claims, paths: Plans, ids: set<string>, pins: map<string, Position>,
          done: set<string>, from: int, horizon: int) returns (c': Claims)
    requires ids <= paths.Keys && Execution.Timed(paths) && done <= pins.Keys
             && PinsClear(paths, ids, pins, from, horizon)
    requires IsFutureTable(c, paths, ids, map[], from, horizon)
    ensures IsFutureTable(c', paths, ids, PinsOf(pins, done), from, horizon)
    decreases |done|
  {
    hide IsFutureTable, HoldKeys, Free, Give, PinsClear, Execution.Timed;
    if done == {} {
      c' := c;
      assert PinsOf(pins, {}) == map[];
    } else {
      var o :| o in done;
      var before := PinnedTableOf(c, paths, ids, pins, done - {o}, from, horizon);
      PinNext(before, paths, ids, pins, done - {o}, o, from, horizon);
      c' := Claims(Give(before.vertices, HoldKeys(pins[o], from, horizon), PinName(o)), before.edges);
      assert done - {o} + {o} == done;
    }
  }

  /** Pin every failed robot in place. It raises only if a failed robot stands
      on a cell that a route in the table still needs, or on another one's. */
  method PinFailed(table: ReservationTable, pins: map<string, Position>, now: int, horizon: int, ghost paths: Plans,
          ghost ids: set<string>)
    returns (raised: bool)
    requires ids <= paths.Keys && Execution.Timed(paths)
    requires IsFutureTable(table.Contents(), paths, ids, map[], now, horizon)
    modifies table`vertices
    ensures !raised ==> IsFutureTable(table.Contents(), paths, ids, pins, now, horizon)
    ensures raised ==> !PinsClear(paths, ids, pins, now, horizon)
  {
    hide IsFutureTable, HoldKeys, Free, Give, PinsClear, Sorted, Extends, Execution.Timed;
    var order := Sorted(pins.Keys);
    SortedFacts(pins.Keys);
    ghost var done: set<string> := {};
    assert PinsOf(pins, {}) == map[];
    for k := 0 to |order|
      invariant done == (set x | x in order[..k])
      invariant IsFutureTable(table.Contents(), paths, ids, PinsOf(pins, done), now, horizon)
    {
      var o := order[k];
      assert order[..k + 1] == order[..k] + [o] && o in order && o !in order[..k];
      PinNext(table.Contents(), paths, ids, pins, done, o, now, horizon);
      var ok, _ := table.BlockCell(pins[o], now, horizon, PinName(o));
      if !ok {
        return true;
      }
      done := done + {o};
    }
    assert order[..|order|] == order;
    assert PinsOf(pins, done) == pins;
    return false;
  }

  /** A table that could be built proves that no two of its routes meet, and that
      they keep off the pinned cells. */
  lemma TableMeansClear(c: Claims, paths: Plans, ids: set<string>, pins: map<string, Position>, from: int, horizon: int)
    requires ids <= paths.Keys && Execution.Timed(paths) && IsFutureTable(c, paths, ids, pins, from, horizon)
    ensures MeetNever(paths, ids, from, horizon)
    ensures (forall id, o | id in ids && o in pins :: PinName(o) != id) ==> PinsClear(paths, ids, pins, from, horizon)
  {
    hide At, WellTimed, NothingElse, Claims.Anchored;
    forall a, b, t | a in ids && b in ids && a != b && from <= t <= horizon
      ensures NoMeeting(paths[a], paths[b], t)
    {
      assert c.Holds(a, paths[a], from, horizon) && c.Holds(b, paths[b], from, horizon);
    }
    if from <= horizon {
      forall a, b | a in pins && b in pins && a != b
        ensures pins[a] != pins[b]
      {
        PinNamesDiffer(a, b);
        assert (pins[a], from) in c.vertices && (pins[b], from) in c.vertices;
      }
      if forall id, o | id in ids && o in pins :: PinName(o) != id {
        forall id, t | id in ids && from <= t <= horizon
          ensures At(paths[id], t) !in pins.Values
        {
          assert c.Holds(id, paths[id], from, horizon);
          forall o | o in pins
            ensures pins[o] != At(paths[id], t)
          {
            assert (pins[o], t) in c.vertices && c.vertices[(pins[o], t)] == PinName(o);
          }
        }
      }
    }
  }

  lemma PinNamesDiffer(a: string, b: string)
    requires a != b
    ensures PinName(a) != PinName(b)
  {
    assert PinName(a)[|"__failed__"|..] == a && PinName(b)[|"__failed__"|..] == b;
  }

  // ---------- Is the rest of a route still safe? ----------

  datatype RouteProblem = NeverPlanned | StepOffFloor | StepBlocked | StepReserved | StepSwaps

  ghost predicate RestClear(c: Claims, robot: string, rest: seq<TimedStep>) {
    && (forall i | 0 <= i < |rest| :: c.VertexFree(rest[i].position, rest[i].timestep, robot))
    && (forall i | 0 <= i < |rest| - 1 && IsMove(rest, i) ::
        !c.Swaps(rest[i].position, rest[i + 1].position, rest[i].timestep, robot))
  }

  /** A robot with nothing left to drive is never reported, whatever has become
      of the cell it stands on. */
  ghost predicate RestIsSafe(f: Floor, c: Option<Claims>, robot: string, rest: seq<TimedStep>) {
    |rest| > 1 ==>
      && (forall i | 0 <= i < |rest| :: f.Traversable(rest[i].position))
      && (c.Some? ==> RestClear(c.value, robot, rest))
  }

  /** A path that was never planned is a problem; of any other the rest is looked at. */
  method RemainingPathProblem(path: TimedPath, from: int, floor: Floor, reservations: ReservationTable?)
    returns (problem: Option<RouteProblem>)
    modifies if reservations == null then {} else {reservations}
    ensures reservations != null ==> reservations.Contents() == old(reservations.Contents())
    ensures problem.None? <==>
              && path.Planned?
              && RestIsSafe(floor, if reservations == null then None
                  else Some(reservations.Contents()), path.robotId, Remaining(path.steps, from))
    ensures problem == Some(NeverPlanned) <==> path.Unplanned?
  {
    if path.Unplanned? {
      return Some(NeverPlanned);
    }
    var robot, rest := path.robotId, Remaining(path.steps, from);
    if |rest| <= 1 {
      return None;
    }
    for k := 0 to |rest|
      invariant forall i | 0 <= i < k :: floor.Traversable(rest[i].position)
    {
      if !floor.InBounds(rest[k].position) {
        return Some(StepOffFloor);
      }
      if !floor.Traversable(rest[k].position) {
        return Some(StepBlocked);
      }
    }
    if reservations != null {
      problem := RestProblem(robot, rest, reservations);
    } else {
      problem := None;
    }
  }

  method RestProblem(robot: string, rest: seq<TimedStep>, reservations: ReservationTable)
    returns (problem: Option<RouteProblem>)
    requires |rest| > 0
    modifies reservations`queryCount
    ensures problem.None? <==> RestClear(reservations.Contents(), robot, rest)
    ensures problem != Some(NeverPlanned)
  {
    for k := 0 to |rest|
      invariant forall i | 0 <= i < k :: reservations.Contents().VertexFree(rest[i].position, rest[i].timestep, robot)
    {
      var reserver := reservations.VertexReserver(rest[k].position, rest[k].timestep);
      if reserver.Some? && reserver.value != robot {
        return Some(StepReserved);
      }
    }
    for k := 0 to |rest| - 1
      invariant forall i | 0 <= i < k && IsMove(rest, i) ::
                  !reservations.Contents().Swaps(rest[i].position, rest[i + 1].position, rest[i].timestep, robot)
    {
      if rest[k].position != rest[k + 1].position {
        var swap := reservations.IsSwapConflict(rest[k].position, rest[k + 1].position, rest[k].timestep, robot);
        if swap {
          assert IsMove(rest, k);
          return Some(StepSwaps);
        }
      }
    }
    return None;
  }
}
