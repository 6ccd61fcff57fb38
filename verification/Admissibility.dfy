/** An admissible heuristic is not enough: A* closes a cell the first time it is
    popped, so an estimate that never exceeds the distance, but drops by more than
    one in a step, can cost it the shortest route. */
module Admissibility {
  import opened Floors
  import opened BestFirst
  import opened SpatialPlanning

  ghost predicate Admissible(f: Floor, h: (Position, Position) -> nat, goal: Position) {
    forall c, p | IsRoute(f, p, c, goal) :: h(c, goal) < |p|
  }

  // ---------- The search, whatever the heuristic ----------

  /** A neighbour that has been finalised is not looked at again. */
  function Offer(P: Problem<Position>, s: Search<Position>, u: Position, w: Position): Search<Position> {
    if w in s.closed || u !in s.best then s else Relax(P, s, u, w)
  }

  function OfferAll(P: Problem<Position>, s: Search<Position>, u: Position, ws: seq<Position>): Search<Position>
    decreases |ws|
  {
    if ws == [] then s else OfferAll(P, Offer(P, s, u, ws[0]), u, ws[1..])
  }

  ghost function PopOne(P: Problem<Position>, s: Search<Position>): Search<Position> {
    if s.open == {} || !UniqueOrders(s.open) then s
    else
      var e := Top(s.open);
      if e.state in s.closed then s.(open := s.open - {e})
      else OfferAll(P, Close(s, e), e.state, P.succ(e.state))
  }

  ghost function AfterPops(P: Problem<Position>, n: nat): Search<Position> {
    if n == 0 then Initial(P) else PopOne(P, AfterPops(P, n - 1))
  }

  ghost predicate PopsNext(s: Search<Position>, c: Position) {
    s.open != {} && UniqueOrders(s.open) && Top(s.open).state == c
  }

  lemma TopIs(open: set<Entry<Position>>, e: Entry<Position>)
    requires IsTop(open, e) && UniqueOrders(open)
    ensures Top(open) == e
  {
    assert IsTop(open, Top(open));
  }

  // ---------- A detour that is taken ----------

  /** Two rows of six; the upper right is blocked. From the lower left corner the
      goal in the lower right one is five moves away, straight on. */
  const DETOUR := Floor(6, 2, {Position(0, 3), Position(0, 4), Position(0, 5)})

  const HERE := Position(1, 0)
  const THERE := Position(1, 5)

  /** Exact on the second cell of the straight route, and nothing elsewhere. */
  function Lopsided(a: Position, b: Position): nat {
    if a == Position(1, 1) && b == THERE then 4 else 0
  }

  function DetourProblem(): Problem<Position> {
    Problem(HERE, c => DETOUR.Neighbours(c), c => Lopsided(c, THERE), c => c == THERE, DETOUR.Cells())
  }

  lemma {:induction false} RouteIsLongEnough(f: Floor, p: seq<Position>, a: Position, b: Position)
    requires IsRoute(f, p, a, b)
    ensures Manhattan(a, b) < |p|
    decreases |p|
  {
    if |p| > 1 {
      assert Adjacent(p[0], p[1]);
      assert IsRoute(f, p[1..], p[1], b);
      RouteIsLongEnough(f, p[1..], p[1], b);
    }
  }

  lemma LopsidedIsAdmissible()
    ensures Admissible(DETOUR, Lopsided, THERE)
  {
    hide IsRoute;
    forall c, p | IsRoute(DETOUR, p, c, THERE)
      ensures Lopsided(c, THERE) < |p|
    {
      RouteIsLongEnough(DETOUR, p, c, THERE);
    }
  }

  lemma NeighboursOf(p: Position)
    ensures var steps := StepsFrom(p);
            DETOUR.Neighbours(p) == (if DETOUR.Traversable(steps[0]) then [steps[0]] else [])
                                    + (if DETOUR.Traversable(steps[1]) then [steps[1]] else [])
                                    + (if DETOUR.Traversable(steps[2]) then [steps[2]] else [])
                                    + (if DETOUR.Traversable(steps[3]) then [steps[3]] else [])
  {
    var steps := StepsFrom(p);
    assert steps[..3] + [steps[3]] == steps && steps[..2] + [steps[2]] == steps[..3];
    assert steps[..1] + [steps[1]] == steps[..2] && steps[..0] + [steps[0]] == steps[..1];
    assert DETOUR.Walkable(steps[..0]) == [];
    WalkableStep(steps, 0);
    WalkableStep(steps, 1);
    WalkableStep(steps, 2);
    WalkableStep(steps, 3);
    assert steps[..4] == steps;
  }

  lemma WalkableStep(ps: seq<Position>, k: nat)
    requires k < |ps|
    ensures DETOUR.Walkable(ps[..k + 1]) == DETOUR.Walkable(ps[..k]) + if DETOUR.Traversable(ps[k]) then [ps[k]] else []
  {
    assert ps[..k + 1][..k] == ps[..k];
  }

  /** What matters of a search: not where a cell was reached from. */
  datatype View = View(open: set<Entry<Position>>, closed: set<Position>, best: map<Position, nat>, next: nat)

  function ViewOf(s: Search<Position>): View {
    View(s.open, s.closed, s.best, s.next)
  }

  function Offered(v: View, u: Position, w: Position): View {
    if w in v.closed || u !in v.best || (w in v.best && v.best[w] <= v.best[u] + 1) then v
    else
      var g, h := v.best[u] + 1, Lopsided(w, THERE);
      View(v.open + {Entry(g + h, h, v.next, w)}, v.closed, v.best[w := g], v.next + 1)
  }

  lemma OfferView(s: Search<Position>, u: Position, w: Position)
    ensures ViewOf(Offer(DetourProblem(), s, u, w)) == Offered(ViewOf(s), u, w)
  {
  }

  /** Offering a cell's neighbours one after the other. */
  function OfferedAll(v: View, u: Position, ws: seq<Position>): View
    decreases |ws|
  {
    if ws == [] then v else OfferedAll(Offered(v, u, ws[0]), u, ws[1..])
  }

  lemma {:induction false} OfferAllView(s: Search<Position>, u: Position, ws: seq<Position>)
    ensures ViewOf(OfferAll(DetourProblem(), s, u, ws)) == OfferedAll(ViewOf(s), u, ws)
    decreases |ws|
  {
    hide DetourProblem, Offer, Offered, ViewOf;
    if ws != [] {
      OfferView(s, u, ws[0]);
      OfferAllView(Offer(DetourProblem(), s, u, ws[0]), u, ws[1..]);
    }
  }

  /** What the search knows after `n` pops. */
  ghost function Known(n: nat): View {
    ViewOf(AfterPops(DetourProblem(), n))
  }

  /** One pop of an open cell: the least entry leaves, and the cell's neighbours are
      offered in turn. */
  lemma NextPop(n: nat, e: Entry<Position>, ws: seq<Position>)
    requires var v := Known(n); IsTop(v.open, e) && UniqueOrders(v.open) && e.state !in v.closed
    requires DETOUR.Neighbours(e.state) == ws
    ensures var v := Known(n);
             Known(n + 1)
             == OfferedAll(v.(open := v.open - {e}, closed := v.closed + {e.state}), e.state, ws)
  {
    hide DetourProblem, OfferAll, OfferedAll, IsTop, UniqueOrders;
    var s := AfterPops(DetourProblem(), n);
    TopIs(s.open, e);
    NeighboursKnown(e.state);
    OfferAllView(Close(s, e), e.state, ws);
  }

  lemma NeighboursKnown(c: Position)
    ensures DetourProblem().succ(c) == DETOUR.Neighbours(c)
  {
  }

  lemma TwoOffered(v: View, u: Position, a: Position, b: Position)
    ensures OfferedAll(v, u, [a, b]) == Offered(Offered(v, u, a), u, b)
  {
    hide Offered;
    assert [a, b][1..] == [b] && [b][1..] == [];
    assert OfferedAll(Offered(v, u, a), u, [b]) == OfferedAll(Offered(Offered(v, u, a), u, b), u, []);
  }

  lemma ThreeOffered(v: View, u: Position, a: Position, b: Position, c: Position)
    ensures OfferedAll(v, u, [a, b, c]) == Offered(Offered(Offered(v, u, a), u, b), u, c)
  {
    hide Offered;
    assert [a, b, c][1..] == [b, c];
    TwoOffered(Offered(v, u, a), u, b, c);
  }

  lemma TopOfOne(e: Entry<Position>)
    ensures IsTop({e}, e) && UniqueOrders({e})
  {
  }

  lemma TopOfTwo(e: Entry<Position>, x: Entry<Position>)
    requires BestFirst.Earlier(e, x) && e.order != x.order
    ensures IsTop({e, x}, e) && UniqueOrders({e, x})
  {
  }

  /** What is known after each pop. */
  function Expected(n: nat): View
    requires n <= 8
  {
    match n
    case 0 => View({Entry(0, 0, 0, Position(1, 0))},
                   {},
                   map[Position(1, 0) := 0],
                   1)
    case 1 => View({Entry(1, 0, 1, Position(0, 0)), Entry(5, 4, 2, Position(1, 1))},
                   {Position(1, 0)},
                   map[Position(1, 0) := 0, Position(0, 0) := 1, Position(1, 1) := 1],
                   3)
    case 2 => View({Entry(2, 0, 3, Position(0, 1)), Entry(5, 4, 2, Position(1, 1))},
                   {Position(1, 0), Position(0, 0)},
                   map[Position(1, 0) := 0, Position(0, 0) := 1, Position(1, 1) := 1, Position(0, 1) := 2],
                   4)
    case 3 => View({Entry(3, 0, 4, Position(0, 2)), Entry(5, 4, 2, Position(1, 1))},
                   {Position(1, 0), Position(0, 0), Position(0, 1)},
                   map[Position(1, 0) := 0, Position(0, 0) := 1, Position(1, 1) := 1, Position(0, 1) := 2,
                       Position(0, 2) := 3],
                   5)
    case 4 => View({Entry(4, 0, 5, Position(1, 2)), Entry(5, 4, 2, Position(1, 1))},
                   {Position(1, 0), Position(0, 0), Position(0, 1), Position(0, 2)},
                   map[Position(1, 0) := 0, Position(0, 0) := 1, Position(1, 1) := 1, Position(0, 1) := 2,
                       Position(0, 2) := 3, Position(1, 2) := 4],
                   6)
    case 5 => View({Entry(5, 0, 6, Position(1, 3)), Entry(5, 4, 2, Position(1, 1))},
                   {Position(1, 0), Position(0, 0), Position(0, 1), Position(0, 2),
                    Position(1, 2)},
                   map[Position(1, 0) := 0, Position(0, 0) := 1, Position(1, 1) := 1, Position(0, 1) := 2,
                       Position(0, 2) := 3, Position(1, 2) := 4, Position(1, 3) := 5],
                   7)
    case 6 => View({Entry(5, 4, 2, Position(1, 1)), Entry(6, 0, 7, Position(1, 4))},
                   {Position(1, 0), Position(0, 0), Position(0, 1), Position(0, 2),
                    Position(1, 2), Position(1, 3)},
                   map[Position(1, 0) := 0, Position(0, 0) := 1, Position(1, 1) := 1, Position(0, 1) := 2,
                       Position(0, 2) := 3, Position(1, 2) := 4, Position(1, 3) := 5, Position(1, 4) := 6],
                   8)
    case 7 => View({Entry(6, 0, 7, Position(1, 4))},
                   {Position(1, 0), Position(0, 0), Position(0, 1), Position(0, 2),
                    Position(1, 2), Position(1, 3), Position(1, 1)},
                   map[Position(1, 0) := 0, Position(0, 0) := 1, Position(1, 1) := 1, Position(0, 1) := 2,
                       Position(0, 2) := 3, Position(1, 2) := 4, Position(1, 3) := 5, Position(1, 4) := 6],
                   8)
    case _ => View({Entry(7, 0, 8, Position(1, 5))},
                   {Position(1, 0), Position(0, 0), Position(0, 1), Position(0, 2),
                    Position(1, 2), Position(1, 3), Position(1, 1), Position(1, 4)},
                   map[Position(1, 0) := 0, Position(0, 0) := 1, Position(1, 1) := 1, Position(0, 1) := 2,
                       Position(0, 2) := 3, Position(1, 2) := 4, Position(1, 3) := 5, Position(1, 4) := 6,
                       Position(1, 5) := 7],
                   9)
  }

  lemma AroundS()
    ensures DETOUR.Neighbours(Position(1, 0)) == [Position(0, 0), Position(1, 1)]
  {
    hide Floor.Neighbours;
    NeighboursOf(Position(1, 0));
  }

  lemma AroundB()
    ensures DETOUR.Neighbours(Position(0, 0)) == [Position(1, 0), Position(0, 1)]
  {
    hide Floor.Neighbours;
    NeighboursOf(Position(0, 0));
  }

  lemma AroundC()
    ensures DETOUR.Neighbours(Position(0, 1)) == [Position(1, 1), Position(0, 0), Position(0, 2)]
  {
    hide Floor.Neighbours;
    NeighboursOf(Position(0, 1));
  }

  lemma AroundD()
    ensures DETOUR.Neighbours(Position(0, 2)) == [Position(1, 2), Position(0, 1)]
  {
    hide Floor.Neighbours;
    NeighboursOf(Position(0, 2));
  }

  lemma AroundX()
    ensures DETOUR.Neighbours(Position(1, 2)) == [Position(0, 2), Position(1, 1), Position(1, 3)]
  {
    hide Floor.Neighbours;
    NeighboursOf(Position(1, 2));
  }

  lemma AroundN()
    ensures DETOUR.Neighbours(Position(1, 3)) == [Position(1, 2), Position(1, 4)]
  {
    hide Floor.Neighbours;
    NeighboursOf(Position(1, 3));
  }

  lemma AroundA()
    ensures DETOUR.Neighbours(Position(1, 1)) == [Position(0, 1), Position(1, 0), Position(1, 2)]
  {
    hide Floor.Neighbours;
    NeighboursOf(Position(1, 1));
  }

  lemma AroundM()
    ensures DETOUR.Neighbours(Position(1, 4)) == [Position(1, 3), Position(1, 5)]
  {
    hide Floor.Neighbours;
    NeighboursOf(Position(1, 4));
  }

  lemma Pops0()
    ensures Known(0) == Expected(0)
  {
  }

  lemma Pops1()
    ensures Known(1) == Expected(1)
  {
    hide Known, IsTop, UniqueOrders, OfferedAll, Floor.Neighbours, DETOUR;
    Pops0();
    TopOfOne(Entry(0, 0, 0, Position(1, 0)));
    AroundS();
    NextPop(0, Entry(0, 0, 0, Position(1, 0)), [Position(0, 0), Position(1, 1)]);
    var v := Known(0).(open := Known(0).open - {Entry(0, 0, 0, Position(1, 0))},
        closed := Known(0).closed + {Position(1, 0)});
    TwoOffered(v, Position(1, 0), Position(0, 0), Position(1, 1));
  }

  lemma Pops2()
    ensures Known(2) == Expected(2)
  {
    hide Known, IsTop, UniqueOrders, OfferedAll, Floor.Neighbours, DETOUR;
    Pops1();
    TopOfTwo(Entry(1, 0, 1, Position(0, 0)), Entry(5, 4, 2, Position(1, 1)));
    AroundB();
    NextPop(1, Entry(1, 0, 1, Position(0, 0)), [Position(1, 0), Position(0, 1)]);
    var v := Known(1).(open := Known(1).open - {Entry(1, 0, 1, Position(0, 0))},
        closed := Known(1).closed + {Position(0, 0)});
    TwoOffered(v, Position(0, 0), Position(1, 0), Position(0, 1));
  }

  lemma Pops3()
    ensures Known(3) == Expected(3)
  {
    hide Known, IsTop, UniqueOrders, OfferedAll, Floor.Neighbours, DETOUR;
    Pops2();
    TopOfTwo(Entry(2, 0, 3, Position(0, 1)), Entry(5, 4, 2, Position(1, 1)));
    AroundC();
    NextPop(2, Entry(2, 0, 3, Position(0, 1)), [Position(1, 1), Position(0, 0), Position(0, 2)]);
    var v := Known(2).(open := Known(2).open - {Entry(2, 0, 3, Position(0, 1))},
        closed := Known(2).closed + {Position(0, 1)});
    ThreeOffered(v, Position(0, 1), Position(1, 1), Position(0, 0), Position(0, 2));
  }

  lemma Pops4()
    ensures Known(4) == Expected(4)
  {
    hide Known, IsTop, UniqueOrders, OfferedAll, Floor.Neighbours, DETOUR;
    Pops3();
    TopOfTwo(Entry(3, 0, 4, Position(0, 2)), Entry(5, 4, 2, Position(1, 1)));
    AroundD();
    NextPop(3, Entry(3, 0, 4, Position(0, 2)), [Position(1, 2), Position(0, 1)]);
    var v := Known(3).(open := Known(3).open - {Entry(3, 0, 4, Position(0, 2))},
        closed := Known(3).closed + {Position(0, 2)});
    TwoOffered(v, Position(0, 2), Position(1, 2), Position(0, 1));
  }

  lemma Pops5()
    ensures Known(5) == Expected(5)
  {
    hide Known, IsTop, UniqueOrders, OfferedAll, Floor.Neighbours, DETOUR;
    Pops4();
    TopOfTwo(Entry(4, 0, 5, Position(1, 2)), Entry(5, 4, 2, Position(1, 1)));
    AroundX();
    NextPop(4, Entry(4, 0, 5, Position(1, 2)), [Position(0, 2), Position(1, 1), Position(1, 3)]);
    var v := Known(4).(open := Known(4).open - {Entry(4, 0, 5, Position(1, 2))},
        closed := Known(4).closed + {Position(1, 2)});
    ThreeOffered(v, Position(1, 2), Position(0, 2), Position(1, 1), Position(1, 3));
  }

  lemma Pops6()
    ensures Known(6) == Expected(6)
  {
    hide Known, IsTop, UniqueOrders, OfferedAll, Floor.Neighbours, DETOUR;
    Pops5();
    TopOfTwo(Entry(5, 0, 6, Position(1, 3)), Entry(5, 4, 2, Position(1, 1)));
    AroundN();
    NextPop(5, Entry(5, 0, 6, Position(1, 3)), [Position(1, 2), Position(1, 4)]);
    var v := Known(5).(open := Known(5).open - {Entry(5, 0, 6, Position(1, 3))},
        closed := Known(5).closed + {Position(1, 3)});
    TwoOffered(v, Position(1, 3), Position(1, 2), Position(1, 4));
  }

  lemma Pops7()
    ensures Known(7) == Expected(7)
  {
    hide Known, IsTop, UniqueOrders, OfferedAll, Floor.Neighbours, DETOUR;
    Pops6();
    TopOfTwo(Entry(5, 4, 2, Position(1, 1)), Entry(6, 0, 7, Position(1, 4)));
    AroundA();
    NextPop(6, Entry(5, 4, 2, Position(1, 1)), [Position(0, 1), Position(1, 0), Position(1, 2)]);
    var v := Known(6).(open := Known(6).open - {Entry(5, 4, 2, Position(1, 1))},
        closed := Known(6).closed + {Position(1, 1)});
    ThreeOffered(v, Position(1, 1), Position(0, 1), Position(1, 0), Position(1, 2));
  }

  lemma Pops8()
    ensures Known(8) == Expected(8)
  {
    hide Known, IsTop, UniqueOrders, OfferedAll, Floor.Neighbours, DETOUR;
    Pops7();
    TopOfOne(Entry(6, 0, 7, Position(1, 4)));
    AroundM();
    NextPop(7, Entry(6, 0, 7, Position(1, 4)), [Position(1, 3), Position(1, 5)]);
    var v := Known(7).(open := Known(7).open - {Entry(6, 0, 7, Position(1, 4))},
        closed := Known(7).closed + {Position(1, 4)});
    TwoOffered(v, Position(1, 4), Position(1, 3), Position(1, 5));
  }

  /** In one step the estimate drops from four to nothing. */
  lemma LopsidedDrops()
    ensures Position(1, 2) in DETOUR.Neighbours(Position(1, 1))
    ensures Lopsided(Position(1, 1), THERE) == 4 && Lopsided(Position(1, 2), THERE) == 0
  {
    hide Floor.Neighbours;
    AroundA();
  }

  /** The straight route. */
  function Straight(): seq<Position> {
    [HERE, Position(1, 1), Position(1, 2), Position(1, 3), Position(1, 4), THERE]
  }

  lemma StraightIsShortest()
    ensures IsShortest(DETOUR, Straight(), HERE, THERE)
  {
    hide IsRoute;
    StraightIsRoute();
    forall q | IsRoute(DETOUR, q, HERE, THERE)
      ensures |Straight()| <= |q|
    {
      RouteIsLongEnough(DETOUR, q, HERE, THERE);
    }
  }

  lemma StraightIsRoute()
    ensures IsRoute(DETOUR, Straight(), HERE, THERE)
  {
  }

  /** With an admissible heuristic the search pops the goal at cost seven, although
      a route of five moves exists. */
  lemma AdmissibleIsNotEnough()
    ensures Admissible(DETOUR, Lopsided, THERE)
    ensures Position(1, 2) in DETOUR.Neighbours(Position(1, 1))
    ensures Lopsided(Position(1, 1), THERE) == 4 && Lopsided(Position(1, 2), THERE) == 0
    ensures var s := AfterPops(DetourProblem(), 8); PopsNext(s, THERE) && THERE in s.best && s.best[THERE] == 7
    ensures forall n | 0 <= n < 8 :: PopsNext(AfterPops(DetourProblem(), n), PoppedAt(n)) && PoppedAt(n) != THERE
    ensures IsShortest(DETOUR, Straight(), HERE, THERE) && |Straight()| - 1 == 5
  {
    hide Admissible, IsShortest, Floor.Neighbours, PopsNext, AfterPops, DetourProblem;
    LopsidedIsAdmissible();
    LopsidedDrops();
    StraightIsShortest();
    PopsInTurn();
    GoalCost();
  }

  function PoppedAt(n: nat): Position {
    match n
    case 0 => HERE
    case 1 => Position(0, 0)
    case 2 => Position(0, 1)
    case 3 => Position(0, 2)
    case 4 => Position(1, 2)
    case 5 => Position(1, 3)
    case 6 => Position(1, 1)
    case 7 => Position(1, 4)
    case _ => THERE
  }

  lemma NextIs(n: nat, e: Entry<Position>)
    requires IsTop(Known(n).open, e) && UniqueOrders(Known(n).open)
    ensures PopsNext(AfterPops(DetourProblem(), n), e.state)
  {
    hide IsTop, UniqueOrders;
    TopIs(Known(n).open, e);
  }

  lemma PopsInTurn()
    ensures forall n | 0 <= n <= 8 :: PopsNext(AfterPops(DetourProblem(), n), PoppedAt(n))
  {
    hide Known, IsTop, UniqueOrders, PopsNext, AfterPops, DetourProblem;
    forall n | 0 <= n <= 8
      ensures PopsNext(AfterPops(DetourProblem(), n), PoppedAt(n))
    {
      Popped(n);
    }
  }

  lemma Popped(n: nat)
    requires n <= 8
    ensures PopsNext(AfterPops(DetourProblem(), n), PoppedAt(n))
  {
    hide Known, IsTop, UniqueOrders, PopsNext, AfterPops, DetourProblem;
    match n
    case 0 =>
      Pops0();
      TopOfOne(Entry(0, 0, 0, Position(1, 0)));
      NextIs(0, Entry(0, 0, 0, Position(1, 0)));
    case 1 =>
      Pops1();
      TopOfTwo(Entry(1, 0, 1, Position(0, 0)), Entry(5, 4, 2, Position(1, 1)));
      NextIs(1, Entry(1, 0, 1, Position(0, 0)));
    case 2 =>
      Pops2();
      TopOfTwo(Entry(2, 0, 3, Position(0, 1)), Entry(5, 4, 2, Position(1, 1)));
      NextIs(2, Entry(2, 0, 3, Position(0, 1)));
    case 3 =>
      Pops3();
      TopOfTwo(Entry(3, 0, 4, Position(0, 2)), Entry(5, 4, 2, Position(1, 1)));
      NextIs(3, Entry(3, 0, 4, Position(0, 2)));
    case 4 =>
      Pops4();
      TopOfTwo(Entry(4, 0, 5, Position(1, 2)), Entry(5, 4, 2, Position(1, 1)));
      NextIs(4, Entry(4, 0, 5, Position(1, 2)));
    case 5 =>
      Pops5();
      TopOfTwo(Entry(5, 0, 6, Position(1, 3)), Entry(5, 4, 2, Position(1, 1)));
      NextIs(5, Entry(5, 0, 6, Position(1, 3)));
    case 6 =>
      Pops6();
      TopOfTwo(Entry(5, 4, 2, Position(1, 1)), Entry(6, 0, 7, Position(1, 4)));
      NextIs(6, Entry(5, 4, 2, Position(1, 1)));
    case 7 =>
      Pops7();
      TopOfOne(Entry(6, 0, 7, Position(1, 4)));
      NextIs(7, Entry(6, 0, 7, Position(1, 4)));
    case _ =>
      Pops8();
      TopOfOne(Entry(7, 0, 8, Position(1, 5)));
      NextIs(8, Entry(7, 0, 8, Position(1, 5)));
  }

  lemma GoalCost()
    ensures var s := AfterPops(DetourProblem(), 8); THERE in s.best && s.best[THERE] == 7
  {
    Pops8();
  }
}
