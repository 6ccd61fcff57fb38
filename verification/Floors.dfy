/** The floor: cells, obstacles and what a robot may stand on. */
module Floors {

  datatype Position = Position(row: int, col: int)

  datatype Option<+T> = None | Some(value: T)

  /** A call that either succeeds or raises, leaving a reason behind. */
  datatype Outcome<+T, +E> = Ok(value: T) | Raised(error: E)

  function Abs(x: int): nat {
    if x < 0 then -x else x
  }

  function Max(a: int, b: int): int {
    if a < b then b else a
  }

  function Manhattan(a: Position, b: Position): nat {
    Abs(a.row - b.row) + Abs(a.col - b.col)
  }

  predicate Adjacent(a: Position, b: Position) {
    Manhattan(a, b) == 1
  }

  /** The four cells one step away: up, down, left, right. */
  function StepsFrom(p: Position): seq<Position> {
    [Position(p.row - 1, p.col), Position(p.row + 1, p.col), Position(p.row, p.col - 1), Position(p.row, p.col + 1)]
  }

  /** A snapshot of the floor plan: what planners and validators look at. */
  datatype Floor = Floor(width: int, height: int, blocked: set<Position>) {
    predicate InBounds(p: Position) {
      0 <= p.row < height && 0 <= p.col < width
    }

    predicate Traversable(p: Position) {
      InBounds(p) && p !in blocked
    }

    function Cells(): set<Position> {
      set r, c | 0 <= r < height && 0 <= c < width :: Position(r, c)
    }

    function Walkable(ps: seq<Position>): seq<Position> {
      if ps == [] then []
      else
        var last := ps[|ps| - 1];
        Walkable(ps[..|ps| - 1]) + if Traversable(last) then [last] else []
    }

    function Neighbours(p: Position): seq<Position> {
      Walkable(StepsFrom(p))
    }
  }

  lemma {:induction false} WalkableMembers(f: Floor, ps: seq<Position>, q: Position)
    ensures q in f.Walkable(ps) <==> q in ps && f.Traversable(q)
  {
    if ps != [] {
      WalkableMembers(f, ps[..|ps| - 1], q);
      assert ps == ps[..|ps| - 1] + [ps[|ps| - 1]];
    }
  }

  /** The neighbour list holds exactly the traversable cells one step away. */
  lemma NeighboursExact(f: Floor, p: Position, q: Position)
    ensures q in f.Neighbours(p) <==> f.Traversable(q) && Adjacent(p, q)
  {
    WalkableMembers(f, StepsFrom(p), q);
    if Adjacent(p, q) {
      assert q == StepsFrom(p)[0] || q == StepsFrom(p)[1] || q == StepsFrom(p)[2] || q == StepsFrom(p)[3];
    }
  }

  datatype WarehouseError = OutOfBounds | AlreadyBlocked | ObstacleIdInUse | NoSuchObstacle | HasARole | BehindAWall

  /** What a cell is for. Robots stop at the functional ones. */
  datatype LocationType = Aisle | Storage | PickUp | DropOff | ChargingStation {
    predicate IsFunctional() {
      this != Aisle
    }
  }

  /** The floor, and what decides whether a new obstacle may be put on it: where
      walls stand, and which obstacle names are taken. */
  datatype Site = Site(floor: Floor, walls: set<Position>, names: set<string>) {
    predicate Accepts(id: string, cell: Position) {
      floor.InBounds(cell) && id !in names && cell !in walls
    }

    function With(id: string, cell: Position): Site {
      Site(floor.(blocked := floor.blocked + {cell}), walls, names + {id})
    }
  }

  /** The warehouse as the rest of the system changes it. Static obstacles are
      pushed into the grid's blocked cells; dynamic ones are looked up by name. */
  class Warehouse {
    const width: int
    const height: int
    var blockedCells: set<Position>
    var staticObstacles: map<string, Position>
    var dynamicObstacles: map<string, Position>
    var locations: map<Position, LocationType>

    ghost predicate Valid()
      reads this
    {
      width > 0 && height > 0
    }

    /** The grid blocks exactly the cells that carry a static obstacle. */
    ghost predicate GridMatchesWalls()
      reads this
    {
      blockedCells == staticObstacles.Values
    }

    /** No robot is ever sent to a cell with a wall on it. */
    ghost predicate RolesReachable()
      reads this
    {
      forall cell | cell in locations && locations[cell].IsFunctional() :: cell !in staticObstacles.Values
    }

    function FloorPlan(): Floor
      reads this
    {
      Floor(width, height, blockedCells + dynamicObstacles.Values)
    }

    function SiteView(): (site: Site)
      reads this
      ensures site.floor == FloorPlan()
    {
      Site(FloorPlan(), staticObstacles.Values, staticObstacles.Keys + dynamicObstacles.Keys)
    }

    function RoleOf(cell: Position): LocationType
      reads this
    {
      if cell in locations then locations[cell] else Aisle
    }

    /** The floor as the obstacles themselves say it is. It is the same while the
        grid matches the walls. */
    function ObstacleMap(): (f: Floor)
      reads this
      ensures GridMatchesWalls() ==> f == FloorPlan()
    {
      Floor(width, height, staticObstacles.Values + dynamicObstacles.Values)
    }

    constructor (width: int, height: int)
      requires width > 0 && height > 0
      ensures Valid() && GridMatchesWalls() && RolesReachable()
      ensures FloorPlan() == Floor(width, height, {})
    {
      this.width, this.height := width, height;
      blockedCells, staticObstacles, dynamicObstacles, locations := {}, map[], map[], map[];
    }

    /** Give a cell a role. A functional role is refused behind a wall. */
    method MarkLocation(cell: Position, role: LocationType) returns (r: Outcome<(), WarehouseError>)
      modifies this`locations
      ensures r.Ok? <==> FloorPlan().InBounds(cell) && (role.IsFunctional() ==> cell !in staticObstacles.Values)
      ensures forall c :: RoleOf(c) == if r.Ok? && c == cell then role else old(RoleOf(c))
      ensures old(RolesReachable()) ==> RolesReachable()
    {
      if !FloorPlan().InBounds(cell) {
        return Raised(OutOfBounds);
      }
      if role.IsFunctional() && cell in staticObstacles.Values {
        return Raised(BehindAWall);
      }
      locations := if role == Aisle then locations - {cell} else locations[cell := role];
      return Ok(());
    }

    method Neighbours(p: Position) returns (r: Outcome<seq<Position>, WarehouseError>)
      ensures r == if FloorPlan().InBounds(p) then Ok(FloorPlan().Neighbours(p)) else Raised(OutOfBounds)
    {
      if !(0 <= p.row < height && 0 <= p.col < width) {
        return Raised(OutOfBounds);
      }
      var list := [];
      var steps := StepsFrom(p);
      for i := 0 to |steps|
        invariant list == FloorPlan().Walkable(steps[..i])
      {
        var candidate := steps[i];
        assert steps[..i + 1][..i] == steps[..i];
        if 0 <= candidate.row < height && 0 <= candidate.col < width
           && candidate !in blockedCells && candidate !in dynamicObstacles.Values
        {
          list := list + [candidate];
        }
      }
      assert steps[..|steps|] == steps;
      r := Ok(list);
    }

    method AddStaticObstacle(id: string, cell: Position) returns (r: Outcome<(), WarehouseError>)
      requires Valid()
      modifies this`staticObstacles, this`blockedCells
      ensures r.Ok? <==>
                && FloorPlan().InBounds(cell) && id !in old(staticObstacles) && id !in dynamicObstacles
                && !RoleOf(cell).IsFunctional()
      ensures r.Ok? ==>
               staticObstacles == old(staticObstacles)[id := cell]
               && blockedCells == old(blockedCells) + {cell}
      ensures r.Raised? ==> staticObstacles == old(staticObstacles) && blockedCells == old(blockedCells)
      ensures old(GridMatchesWalls()) ==> GridMatchesWalls()
      ensures old(RolesReachable()) ==> RolesReachable()
    {
      if !FloorPlan().InBounds(cell) {
        return Raised(OutOfBounds);
      }
      if id in staticObstacles || id in dynamicObstacles {
        return Raised(ObstacleIdInUse);
      }
      if RoleOf(cell).IsFunctional() {
        return Raised(HasARole);
      }
      staticObstacles := staticObstacles[id := cell];
      blockedCells := blockedCells + {cell};
      assert forall k | k in old(staticObstacles) :: staticObstacles[k] == old(staticObstacles)[k];
      assert staticObstacles[id] == cell;
      return Ok(());
    }

    /** Removing a wall clears its cell in the grid even when a second wall
        stands on the same cell: if grid and walls agreed before, they agree
        afterwards exactly when no other wall shares the cell. */
    method RemoveStaticObstacle(id: string) returns (r: Outcome<Position, WarehouseError>)
      requires Valid()
      modifies this`staticObstacles, this`blockedCells
      ensures id !in old(staticObstacles) ==>
                r == Raised(NoSuchObstacle) && staticObstacles == old(staticObstacles)
                    && blockedCells == old(blockedCells)
      ensures id in old(staticObstacles) ==>
                && r == Ok(old(staticObstacles)[id])
                && staticObstacles == old(staticObstacles) - {id}
                && blockedCells == old(blockedCells) - {r.value}
                && (old(GridMatchesWalls()) ==>
                      (GridMatchesWalls() <==> forall k | k in old(staticObstacles) && k != id ::
                          old(staticObstacles)[k] != r.value))
      ensures old(RolesReachable()) ==> RolesReachable()
    {
      if id !in staticObstacles {
        return Raised(NoSuchObstacle);
      }
      var cell := staticObstacles[id];
      staticObstacles := staticObstacles - {id};
      blockedCells := blockedCells - {cell};
      assert forall k | k in staticObstacles ::
          staticObstacles[k] == old(staticObstacles)[k] && staticObstacles[k] in staticObstacles.Values;
      return Ok(cell);
    }

    method AddDynamicObstacle(id: string, cell: Position) returns (r: Outcome<(), WarehouseError>)
      requires Valid()
      modifies this`dynamicObstacles
      ensures r.Ok? <==> old(SiteView()).Accepts(id, cell)
      ensures dynamicObstacles == if r.Ok? then old(dynamicObstacles)[id := cell] else old(dynamicObstacles)
      ensures SiteView() == if r.Ok? then old(SiteView()).With(id, cell) else old(SiteView())
    {
      if !FloorPlan().InBounds(cell) {
        return Raised(OutOfBounds);
      }
      if id in staticObstacles || id in dynamicObstacles {
        return Raised(ObstacleIdInUse);
      }
      if cell in staticObstacles.Values {
        return Raised(AlreadyBlocked);
      }
      dynamicObstacles := dynamicObstacles[id := cell];
      assert forall k | k in old(dynamicObstacles) :: dynamicObstacles[k] == old(dynamicObstacles)[k];
      assert dynamicObstacles[id] == cell;
      return Ok(());
    }
  }
}
