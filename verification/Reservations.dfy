/** Who has claimed which cell and which edge, and when. */
module Reservations {
  import opened Floors
  import opened TimedPaths

  type VertexKey = (Position, int)
  type EdgeKey = (Position, Position, int)

  /** The contents of a reservation table. An edge is keyed by its earlier
      timestep. */
  datatype Claims = Claims(vertices: map<VertexKey, string>, edges: map<EdgeKey, string>) {
    predicate VertexFree(cell: Position, t: int, robot: string) {
      (cell, t) in vertices ==> vertices[(cell, t)] == robot
    }

    /** Moving `a` to `b` at `t` would trade places with another robot. */
    predicate Swaps(a: Position, b: Position, t: int, robot: string) {
      (b, a, t) in edges && edges[(b, a, t)] != robot
    }

    predicate MoveAllowed(a: Position, b: Position, t: int, robot: string) {
      VertexFree(b, t + 1, robot) && (a == b || !Swaps(a, b, t, robot))
    }

    /** The keys may be given to `robot`: none belongs to another robot. */
    ghost predicate Grants(robot: string, vs: set<VertexKey>, es: set<EdgeKey>) {
      Free(vertices, vs, robot) && Free(edges, es, robot)
    }

    ghost function With(robot: string, vs: set<VertexKey>, es: set<EdgeKey>): Claims {
      Claims(Give(vertices, vs, robot), Give(edges, es, robot))
    }

    ghost function Without(robot: string): Claims {
      Claims(Drop(vertices, robot), Drop(edges, robot))
    }

    function Owned(robot: string): nat {
      |OwnedKeys(vertices, robot)| + |OwnedKeys(edges, robot)|
    }

    /** Whoever owns an edge also owns both of its ends. */
    ghost predicate Anchored() {
      forall a, b, t | (a, b, t) in edges ::
        && (a, t) in vertices && vertices[(a, t)] == edges[(a, b, t)]
        && (b, t + 1) in vertices && vertices[(b, t + 1)] == edges[(a, b, t)]
    }

    /** The table holds the whole of a route from `from` to `to`. */
    ghost predicate Holds(robot: string, steps: seq<TimedStep>, from: int, to: int)
      requires WellTimed(steps)
    {
      && (forall t | from <= t <= to :: (At(steps, t), t) in vertices && vertices[(At(steps, t), t)] == robot)
      && (forall t | from <= t < to && At(steps, t) != At(steps, t + 1) ::
            (At(steps, t), At(steps, t + 1), t) in edges && edges[(At(steps, t), At(steps, t + 1), t)] == robot)
    }
  }

  // ---------- One map of claims ----------

  ghost predicate Free<K(!new)>(m: map<K, string>, ks: set<K>, robot: string) {
    forall k | k in ks && k in m :: m[k] == robot
  }

  ghost function Give<K>(m: map<K, string>, ks: set<K>, robot: string): map<K, string> {
    m + map k | k in ks :: robot
  }

  function Drop<K>(m: map<K, string>, robot: string): map<K, string> {
    map k | k in m && m[k] != robot :: m[k]
  }

  function OwnedKeys<K(==)>(m: map<K, string>, robot: string): set<K> {
    set k | k in m && m[k] == robot
  }

  /** `m'` adds to `m` nothing but claims of `robot`. */
  ghost predicate Extends<K(!new)>(m: map<K, string>, m': map<K, string>, robot: string) {
    && (forall k | k in m :: k in m' && m'[k] == m[k])
    && (forall k | k in m' && k !in m :: m'[k] == robot)
  }

  lemma GiveNothing<K(!new)>(m: map<K, string>, robot: string)
    ensures Give(m, {}, robot) == m && Free(m, {}, robot)
  {
  }

  /** One more claim on top of those in `ks`, where `all` is the whole job. */
  lemma GiveOneMore<K(!new)>(m: map<K, string>, ks: set<K>, k: K, all: set<K>, robot: string)
    requires Free(m, ks, robot) && ks + {k} <= all
    ensures Give(m, ks, robot)[k := robot] == Give(m, ks + {k}, robot)
    ensures var g := Give(m, ks, robot);
            if k in g && g[k] != robot then !Free(m, all, robot) else Free(m, ks + {k}, robot)
    ensures Extends(m, Give(m, ks, robot), robot)
  {
    var g := Give(m, ks, robot);
    assert k in g && g[k] != robot ==> k in m && m[k] != robot && k in all;
  }

  lemma GiveExtends<K(!new)>(m: map<K, string>, ks: set<K>, robot: string)
    requires Free(m, ks, robot)
    ensures Extends(m, Give(m, ks, robot), robot)
  {
  }

  lemma GiveMore<K(!new)>(m: map<K, string>, ks: set<K>, more: set<K>, robot: string)
    ensures Give(Give(m, ks, robot), more, robot) == Give(m, ks + more, robot)
    ensures Free(m, ks, robot) ==> (Free(Give(m, ks, robot), more, robot) <==> Free(m, ks + more, robot))
    ensures Free(m, ks + more, robot) ==> Free(m, ks, robot)
  {
    FreeMore(m, ks, more, robot);
    var g, a := Give(m, ks, robot), map k | k in more :: robot;
    assert g + a == m + map k | k in ks + more :: robot;
  }

  lemma FreeMore<K(!new)>(m: map<K, string>, ks: set<K>, more: set<K>, robot: string)
    ensures Free(m, ks, robot) ==> (Free(Give(m, ks, robot), more, robot) <==> Free(m, ks + more, robot))
    ensures Free(m, ks + more, robot) ==> Free(m, ks, robot)
  {
    var g := Give(m, ks, robot);
    if Free(m, ks, robot) && Free(g, more, robot) {
      forall k | k in ks + more && k in m
        ensures m[k] == robot
      {
        assert k in g;
      }
    }
  }

  lemma ExtendsItself<K(!new)>(m: map<K, string>, robot: string)
    ensures Extends(m, m, robot)
  {
  }

  lemma ExtendsOn<K(!new)>(a: map<K, string>, b: map<K, string>, c: map<K, string>, robot: string)
    requires Extends(a, b, robot) && Extends(b, c, robot)
    ensures Extends(a, c, robot)
  {
  }

  /** Taking back what a newcomer was given restores the map. */
  lemma GiveThenDrop<K(!new)>(m: map<K, string>, ks: set<K>, robot: string)
    requires Free(m, ks, robot) && robot !in m.Values
    ensures Drop(Give(m, ks, robot), robot) == m && OwnedKeys(Give(m, ks, robot), robot) == ks
  {
    assert forall k | k in m :: m[k] in m.Values;
  }

  // ---------- What a route claims ----------

  lemma KeysGrow(steps: seq<TimedStep>, n: nat)
    requires n <= |steps|
    ensures n == 0 ==> StepKeys(steps, n) == {}
    ensures n < |steps| ==>
              && StepKeys(steps, n + 1) == StepKeys(steps, n) + {StepKey(steps[n])}
              && StepKeys(steps, n) + {StepKey(steps[n])} <= StepKeys(steps, |steps|)
    ensures n == 0 < |steps| ==> EdgeKeys(steps, n) == {}
    ensures n < |steps| - 1 ==>
              && (IsMove(steps, n) ==> EdgeKeys(steps, n + 1) == EdgeKeys(steps, n) + {MoveKey(steps, n)})
              && (IsMove(steps, n) ==> EdgeKeys(steps, n) + {MoveKey(steps, n)} <= EdgeKeys(steps, |steps| - 1))
              && (!IsMove(steps, n) ==> EdgeKeys(steps, n + 1) == EdgeKeys(steps, n))
  {
  }

  lemma HoldGrows(cell: Position, from: int, t: int, to: int)
    ensures t < from ==> HoldKeys(cell, from, t) == {}
    ensures from <= t <= to ==>
              && HoldKeys(cell, from, t) == HoldKeys(cell, from, t - 1) + {(cell, t)}
              && HoldKeys(cell, from, t - 1) + {(cell, t)} <= HoldKeys(cell, from, to)
  {
  }

  function StepKey(step: TimedStep): VertexKey {
    (step.position, step.timestep)
  }

  ghost function StepKeys(steps: seq<TimedStep>, n: nat): set<VertexKey>
    requires n <= |steps|
  {
    set i | 0 <= i < n :: StepKey(steps[i])
  }

  ghost function HoldKeys(cell: Position, from: int, to: int): set<VertexKey> {
    set t | from <= t <= to :: (cell, t)
  }

  /** The cells of the route, and its goal from arrival to the horizon. */
  ghost function VertexKeys(steps: seq<TimedStep>, horizon: int): set<VertexKey>
    requires |steps| > 0
  {
    StepKeys(steps, |steps|) + HoldKeys(Goal(steps), ArrivalTime(steps) + 1, horizon)
  }

  predicate IsMove(steps: seq<TimedStep>, i: nat)
    requires i + 1 < |steps|
  {
    steps[i].position != steps[i + 1].position
  }

  function MoveKey(steps: seq<TimedStep>, i: nat): EdgeKey
    requires i + 1 < |steps|
  {
    (steps[i].position, steps[i + 1].position, steps[i].timestep)
  }

  /** The moves of the route; a wait claims no edge. */
  ghost function EdgeKeys(steps: seq<TimedStep>, n: nat): set<EdgeKey>
    requires n < |steps|
  {
    set i | 0 <= i < n && IsMove(steps, i) :: MoveKey(steps, i)
  }

  datatype ReserveError = NotSuccessful | NoSteps | Clash

  class ReservationTable {
    var vertices: map<VertexKey, string>
    var edges: map<EdgeKey, string>
    var queryCount: nat

    function Contents(): Claims
      reads this
    {
      Claims(vertices, edges)
    }

    constructor ()
      ensures Contents() == Claims(map[], map[]) && queryCount == 0
    {
      vertices, edges, queryCount := map[], map[], 0;
    }

    // ----- Writing -----

    method ReserveVertex(cell: Position, t: int, robot: string) returns (ok: bool)
      modifies `vertices
      ensures ok == old(Contents()).VertexFree(cell, t, robot)
      ensures vertices == if ok then old(vertices)[(cell, t) := robot] else old(vertices)
    {
      if (cell, t) in vertices && vertices[(cell, t)] != robot {
        return false;
      }
      vertices := vertices[(cell, t) := robot];
      return true;
    }

    method ReserveEdge(a: Position, b: Position, t: int, robot: string) returns (ok: bool)
      modifies `edges
      ensures ok <==> (a, b, t) in old(edges) ==> old(edges)[(a, b, t)] == robot
      ensures edges == if ok then old(edges)[(a, b, t) := robot] else old(edges)
    {
      if (a, b, t) in edges && edges[(a, b, t)] != robot {
        return false;
      }
      edges := edges[(a, b, t) := robot];
      return true;
    }

    method ReserveCells(steps: seq<TimedStep>, robot: string) returns (ok: bool)
      modifies `vertices
      ensures ok == Free(old(vertices), StepKeys(steps, |steps|), robot)
      ensures ok ==> vertices == Give(old(vertices), StepKeys(steps, |steps|), robot)
      ensures Extends(old(vertices), vertices, robot)
    {
      hide Give, Free, StepKeys, Extends;
      GiveNothing(vertices, robot);
      KeysGrow(steps, 0);
      for i := 0 to |steps|
        invariant Free(old(vertices), StepKeys(steps, i), robot)
        invariant vertices == Give(old(vertices), StepKeys(steps, i), robot)
      {
        KeysGrow(steps, i);
        GiveOneMore(old(vertices), StepKeys(steps, i), StepKey(steps[i]), StepKeys(steps, |steps|), robot);
        ok := ReserveVertex(steps[i].position, steps[i].timestep, robot);
        if !ok {
          return false;
        }
      }
      GiveExtends(old(vertices), StepKeys(steps, |steps|), robot);
      return true;
    }

    method ReserveMoves(steps: seq<TimedStep>, robot: string) returns (ok: bool)
      requires |steps| > 0
      modifies `edges
      ensures ok == Free(old(edges), EdgeKeys(steps, |steps| - 1), robot)
      ensures ok ==> edges == Give(old(edges), EdgeKeys(steps, |steps| - 1), robot)
      ensures Extends(old(edges), edges, robot)
    {
      hide Give, Free, EdgeKeys, Extends;
      GiveNothing(edges, robot);
      KeysGrow(steps, 0);
      for i := 0 to |steps| - 1
        invariant Free(old(edges), EdgeKeys(steps, i), robot)
        invariant edges == Give(old(edges), EdgeKeys(steps, i), robot)
      {
        KeysGrow(steps, i);
        if steps[i].position != steps[i + 1].position {
          GiveOneMore(old(edges), EdgeKeys(steps, i), MoveKey(steps, i), EdgeKeys(steps, |steps| - 1), robot);
          ok := ReserveEdge(steps[i].position, steps[i + 1].position, steps[i].timestep, robot);
          if !ok {
            return false;
          }
        }
      }
      GiveExtends(old(edges), EdgeKeys(steps, |steps| - 1), robot);
      return true;
    }

    /** Claim `cell` at every timestep of the range; raises at the first clash. */
    method BlockCell(cell: Position, from: int, to: int, owner: string) returns (ok: bool, added: nat)
      modifies `vertices
      ensures ok == Free(old(vertices), HoldKeys(cell, from, to), owner)
      ensures ok ==> vertices == Give(old(vertices), HoldKeys(cell, from, to), owner) && added == Max(0, to + 1 - from)
      ensures Extends(old(vertices), vertices, owner)
    {
      hide Give, Free, HoldKeys, Extends;
      GiveNothing(vertices, owner);
      HoldGrows(cell, from, from - 1, to);
      added := 0;
      while from + added <= to
        invariant from + added <= Max(from, to + 1)
        invariant Free(old(vertices), HoldKeys(cell, from, from + added - 1), owner)
        invariant vertices == Give(old(vertices), HoldKeys(cell, from, from + added - 1), owner)
      {
        var t := from + added;
        HoldGrows(cell, from, t, to);
        GiveOneMore(old(vertices), HoldKeys(cell, from, t - 1), (cell, t), HoldKeys(cell, from, to), owner);
        ok := ReserveVertex(cell, t, owner);
        if !ok {
          return false, added;
        }
        added := added + 1;
      }
      HoldGrows(cell, from, from + added - 1, to);
      HoldGrows(cell, from, to, to);
      GiveExtends(old(vertices), HoldKeys(cell, from, to), owner);
      return true, added;
    }

    /** Claim a whole successful route and its goal hold. Raises exactly when the
        path carries no route or some key belongs to another robot. */
    method ReserveTimedPath(path: TimedPath, horizon: int) returns (raised: Option<ReserveError>)
      modifies `vertices, `edges
      ensures raised.None? <==> path.Planned? && path.steps != []
                                && old(Contents()).Grants(path.robotId, VertexKeys(path.steps, horizon),
                                    EdgeKeys(path.steps, |path.steps| - 1))
      ensures raised.None? ==>
                Contents() == old(Contents()).With(path.robotId, VertexKeys(path.steps, horizon),
                    EdgeKeys(path.steps, |path.steps| - 1))
      ensures Extends(old(vertices), vertices, path.robotId) && Extends(old(edges), edges, path.robotId)
    {
      hide Give, Free, StepKeys, EdgeKeys, HoldKeys, Extends;
      ExtendsItself(vertices, path.robotId);
      ExtendsItself(edges, path.robotId);
      if path.Unplanned? {
        return Some(NotSuccessful);
      }
      if path.steps == [] {
        return Some(NoSteps);
      }
      var ok := ReserveRoute(path.steps, path.robotId, horizon);
      return if ok then None else Some(Clash);
    }

    method ReserveRoute(steps: seq<TimedStep>, robot: string, horizon: int) returns (ok: bool)
      requires steps != []
      modifies `vertices, `edges
      ensures ok == old(Contents()).Grants(robot, VertexKeys(steps, horizon), EdgeKeys(steps, |steps| - 1))
      ensures ok ==> Contents() == old(Contents()).With(robot, VertexKeys(steps, horizon), EdgeKeys(steps, |steps| - 1))
      ensures Extends(old(vertices), vertices, robot) && Extends(old(edges), edges, robot)
    {
      hide Give, Free, StepKeys, EdgeKeys, HoldKeys, Extends;
      ghost var cells, held := StepKeys(steps, |steps|), HoldKeys(Goal(steps), ArrivalTime(steps) + 1, horizon);
      GiveMore(vertices, cells, held, robot);
      ExtendsItself(edges, robot);
      ok := ReserveCells(steps, robot);
      if !ok {
        return false;
      }
      ok := ReserveMoves(steps, robot);
      if !ok {
        return false;
      }
      assert vertices == Give(old(vertices), cells, robot);
      var added;
      ok, added := BlockCell(Goal(steps), ArrivalTime(steps) + 1, horizon, robot);
      ExtendsOn(old(vertices), Give(old(vertices), cells, robot), vertices, robot);
    }

    // ----- Reading: every lookup is counted -----

    method VertexReserver(cell: Position, t: int) returns (owner: Option<string>)
      modifies `queryCount
      ensures queryCount == old(queryCount) + 1
      ensures owner == if (cell, t) in vertices then Some(vertices[(cell, t)]) else None
    {
      queryCount := queryCount + 1;
      owner := if (cell, t) in vertices then Some(vertices[(cell, t)]) else None;
    }

    method EdgeReserver(a: Position, b: Position, t: int) returns (owner: Option<string>)
      modifies `queryCount
      ensures queryCount == old(queryCount) + 1
      ensures owner == if (a, b, t) in edges then Some(edges[(a, b, t)]) else None
    {
      queryCount := queryCount + 1;
      owner := if (a, b, t) in edges then Some(edges[(a, b, t)]) else None;
    }

    method IsVertexFree(cell: Position, t: int, robot: string) returns (free: bool)
      modifies `queryCount
      ensures free == Contents().VertexFree(cell, t, robot)
    {
      var owner := VertexReserver(cell, t);
      free := owner.None? || owner.value == robot;
    }

    method IsSwapConflict(a: Position, b: Position, t: int, robot: string) returns (swap: bool)
      modifies `queryCount
      ensures swap == Contents().Swaps(a, b, t, robot)
    {
      var owner := EdgeReserver(b, a, t);
      swap := owner.Some? && owner.value != robot;
    }

    method IsMoveAllowed(a: Position, b: Position, t: int, robot: string) returns (allowed: bool)
      modifies `queryCount
      ensures allowed == Contents().MoveAllowed(a, b, t, robot)
    {
      allowed := IsVertexFree(b, t + 1, robot);
      if a == b || !allowed {
        return;
      }
      var swap := IsSwapConflict(a, b, t, robot);
      allowed := !swap;
    }

    // ----- Releasing -----

    function ReservationsOwnedBy(robot: string): nat
      reads this
    {
      Contents().Owned(robot)
    }

    method ReleaseRobot(robot: string) returns (released: nat)
      modifies `vertices, `edges
      ensures released == old(ReservationsOwnedBy(robot))
      ensures Contents() == old(Contents()).Without(robot)
    {
      released := ReservationsOwnedBy(robot);
      vertices := Drop(vertices, robot);
      edges := Drop(edges, robot);
    }
  }

  // ---------- What reserving and releasing do to the table ----------

  /** On a well-timed route the claimed cells are where the robot is, one per
      timestep, through the horizon. */
  lemma VertexKeysAt(steps: seq<TimedStep>, horizon: int)
    requires WellTimed(steps)
    ensures VertexKeys(steps, horizon) == set t | StartTime(steps) <= t <= Max(ArrivalTime(steps), horizon) ::
             (At(steps, t), t)
  {
    var all := set t | StartTime(steps) <= t <= Max(ArrivalTime(steps), horizon) :: (At(steps, t), t);
    forall k | k in VertexKeys(steps, horizon)
      ensures k in all
    {
      assert k == (At(steps, k.1), k.1);
    }
    forall k | k in all
      ensures k in VertexKeys(steps, horizon)
    {
      if k.1 <= ArrivalTime(steps) {
        assert k == StepKey(steps[k.1 - StartTime(steps)]);
      }
    }
  }

  /** Reserving a route puts it in the table, and keeps edges anchored. */
  lemma ReservedIsHeld(c: Claims, robot: string, steps: seq<TimedStep>, horizon: int)
    requires WellTimed(steps)
    requires c.Grants(robot, VertexKeys(steps, horizon), EdgeKeys(steps, |steps| - 1))
    ensures var c' := c.With(robot, VertexKeys(steps, horizon), EdgeKeys(steps, |steps| - 1));
            && c'.Holds(robot, steps, StartTime(steps), horizon)
            && (c.Anchored() ==> c'.Anchored())
            && Extends(c.vertices, c'.vertices, robot) && Extends(c.edges, c'.edges, robot)
  {
    hide Claims.Anchored, Claims.Holds, VertexKeys, EdgeKeys, Extends, Give, Free;
    GiveExtends(c.vertices, VertexKeys(steps, horizon), robot);
    GiveExtends(c.edges, EdgeKeys(steps, |steps| - 1), robot);
    GivenRouteHeld(c, robot, steps, horizon);
    if c.Anchored() {
      GivenRouteAnchored(c, robot, steps, horizon);
    }
  }

  lemma GivenRouteHeld(c: Claims, robot: string, steps: seq<TimedStep>, horizon: int)
    requires WellTimed(steps)
    ensures c.With(robot, VertexKeys(steps, horizon), EdgeKeys(steps, |steps| - 1)).Holds(robot, steps,
             StartTime(steps), horizon)
  {
    hide VertexKeys, EdgeKeys;
    VertexKeysAt(steps, horizon);
    forall t | StartTime(steps) <= t < horizon && At(steps, t) != At(steps, t + 1)
      ensures (At(steps, t), At(steps, t + 1), t) in EdgeKeys(steps, |steps| - 1)
    {
      MoveKeyAt(steps, t);
    }
  }

  lemma MoveKeyAt(steps: seq<TimedStep>, t: int)
    requires WellTimed(steps) && StartTime(steps) <= t && At(steps, t) != At(steps, t + 1)
    ensures (At(steps, t), At(steps, t + 1), t) in EdgeKeys(steps, |steps| - 1)
  {
    var i := t - StartTime(steps);
    assert IsMove(steps, i) && MoveKey(steps, i) == (At(steps, t), At(steps, t + 1), t);
  }

  lemma EdgeEndsClaimed(steps: seq<TimedStep>, horizon: int, k: EdgeKey)
    requires WellTimed(steps) && k in EdgeKeys(steps, |steps| - 1)
    ensures (k.0, k.2) in VertexKeys(steps, horizon) && (k.1, k.2 + 1) in VertexKeys(steps, horizon)
  {
    var i :| 0 <= i < |steps| - 1 && IsMove(steps, i) && MoveKey(steps, i) == k;
    assert StepKey(steps[i]) == (k.0, k.2) && StepKey(steps[i + 1]) == (k.1, k.2 + 1);
  }

  lemma GivenRouteAnchored(c: Claims, robot: string, steps: seq<TimedStep>, horizon: int)
    requires WellTimed(steps) && c.Anchored()
    requires c.Grants(robot, VertexKeys(steps, horizon), EdgeKeys(steps, |steps| - 1))
    ensures c.With(robot, VertexKeys(steps, horizon), EdgeKeys(steps, |steps| - 1)).Anchored()
  {
    hide VertexKeys, EdgeKeys;
    var vs, es := VertexKeys(steps, horizon), EdgeKeys(steps, |steps| - 1);
    var c' := c.With(robot, vs, es);
    forall a, b, t | (a, b, t) in c'.edges
      ensures (a, t) in c'.vertices && c'.vertices[(a, t)] == c'.edges[(a, b, t)]
      ensures (b, t + 1) in c'.vertices && c'.vertices[(b, t + 1)] == c'.edges[(a, b, t)]
    {
      if (a, b, t) in es {
        EdgeEndsClaimed(steps, horizon, (a, b, t));
      } else {
        assert (a, b, t) in c.edges;
      }
    }
  }

  /** A claim made for another robot does not disturb what `robot` holds. */
  lemma StillHeld(c: Claims, c': Claims, other: string, robot: string, steps: seq<TimedStep>, from: int, to: int)
    requires WellTimed(steps) && c.Holds(robot, steps, from, to)
    requires Extends(c.vertices, c'.vertices, other) && Extends(c.edges, c'.edges, other)
    ensures c'.Holds(robot, steps, from, to)
  {
  }

  /** How many reservations a route makes: its steps, its moves, its goal hold. */
  lemma {:induction false} StepKeyCount(steps: seq<TimedStep>, n: nat)
    requires WellTimed(steps) && n <= |steps|
    ensures |StepKeys(steps, n)| == n
  {
    hide StepKeys, EdgeKeys;
    if n > 0 {
      StepKeyCount(steps, n - 1);
      KeysGrow(steps, n - 1);
      LaterStepIsNew(steps, n - 1);
    } else {
      KeysGrow(steps, 0);
    }
  }

  lemma {:induction false} HoldKeyCount(cell: Position, from: int, to: int)
    ensures |HoldKeys(cell, from, to)| == Max(0, to + 1 - from)
    decreases Max(0, to + 1 - from)
  {
    if from <= to {
      HoldKeyCount(cell, from, to - 1);
      HoldGrows(cell, from, to, to);
      assert (cell, to) !in HoldKeys(cell, from, to - 1);
    } else {
      HoldGrows(cell, from, to, to);
    }
  }

  lemma LaterStepIsNew(steps: seq<TimedStep>, n: nat)
    requires WellTimed(steps) && n < |steps|
    ensures StepKey(steps[n]) !in StepKeys(steps, n)
  {
  }

  lemma LaterMoveIsNew(steps: seq<TimedStep>, n: nat)
    requires WellTimed(steps) && n < |steps| - 1
    ensures MoveKey(steps, n) !in EdgeKeys(steps, n)
  {
  }

  lemma {:induction false} EdgeKeyCount(steps: seq<TimedStep>, n: nat)
    requires WellTimed(steps) && n < |steps|
    ensures |EdgeKeys(steps, n)| == Moves(steps[..n + 1])
  {
    hide EdgeKeys;
    if n > 0 {
      EdgeKeyCount(steps, n - 1);
      KeysGrow(steps, n - 1);
      assert steps[..n + 1][..n] == steps[..n];
      LaterMoveIsNew(steps, n - 1);
    } else {
      KeysGrow(steps, 0);
    }
  }

  lemma {:induction false} RouteReservationCount(steps: seq<TimedStep>, horizon: int)
    requires WellTimed(steps)
    ensures |VertexKeys(steps, horizon)| + |EdgeKeys(steps, |steps| - 1)|
         == |steps| + Moves(steps) + Max(0, horizon - ArrivalTime(steps))
  {
    var held := HoldKeys(Goal(steps), ArrivalTime(steps) + 1, horizon);
    StepKeyCount(steps, |steps|);
    HoldKeyCount(Goal(steps), ArrivalTime(steps) + 1, horizon);
    EdgeKeyCount(steps, |steps| - 1);
    assert steps[..|steps|] == steps;
    assert StepKeys(steps, |steps|) !! held;
  }

  /** Reserving a route for a robot that owned nothing, and then releasing the
      robot, restores the table; the count released is the recovery manager's
      formula for a remaining route. */
  lemma ReserveReleaseRoundTrip(c: Claims, robot: string, steps: seq<TimedStep>, horizon: int)
    requires WellTimed(steps) && robot !in c.vertices.Values && robot !in c.edges.Values
    requires c.Grants(robot, VertexKeys(steps, horizon), EdgeKeys(steps, |steps| - 1))
    ensures var c' := c.With(robot, VertexKeys(steps, horizon), EdgeKeys(steps, |steps| - 1));
            && c'.Without(robot) == c
            && c'.Owned(robot) == |steps| + Moves(steps) + Max(0, horizon - ArrivalTime(steps))
  {
    GiveThenDrop(c.vertices, VertexKeys(steps, horizon), robot);
    GiveThenDrop(c.edges, EdgeKeys(steps, |steps| - 1), robot);
    RouteReservationCount(steps, horizon);
  }
}
