/** Best-first search over a finite graph whose edges all cost one.

The three searches of the system (the two spatial planners and the space-time
planner) differ in their states, their successor lists and their heuristic; the
bookkeeping - best cost, predecessor, closed set, a frontier that keeps stale
entries - is the same. This module states that bookkeeping once, as functions,
and proves what it guarantees when the heuristic is consistent. */
module BestFirst {

  /** One heap entry: priority, heuristic tie-break, insertion order, state. */
  datatype Entry<+S> = Entry(f: nat, h: nat, order: nat, state: S)

  predicate Earlier<S>(a: Entry<S>, b: Entry<S>) {
    || a.f < b.f
    || (a.f == b.f && a.h < b.h)
    || (a.f == b.f && a.h == b.h && a.order < b.order)
  }

  predicate UniqueOrders<S(==)>(open: set<Entry<S>>) {
    forall a, b | a in open && b in open && a.order == b.order :: a == b
  }

  ghost predicate IsTop<S>(open: set<Entry<S>>, e: Entry<S>) {
    e in open && forall x | x in open && x != e :: Earlier(e, x)
  }

  lemma {:induction false} TopExists<S>(open: set<Entry<S>>) returns (top: Entry<S>)
    requires open != {} && UniqueOrders(open)
    ensures IsTop(open, top)
    decreases |open|
  {
    var e :| e in open;
    var rest := open - {e};
    assert open == rest + {e};
    if rest == {} {
      top := e;
    } else {
      var m := TopExists(rest);
      top := if Earlier(e, m) then e else m;
    }
  }

  /** What a heap pop returns: the least entry. Insertion orders are unique, so
      there is exactly one. */
  function Top<S(!new, ==)>(open: set<Entry<S>>): (e: Entry<S>)
    requires open != {} && UniqueOrders(open)
    ensures e in open
    ensures IsTop(open, e)
  {
    assert exists e :: IsTop(open, e) by { var _ := TopExists(open); }
    var e :| e in open && forall x | x in open && x != e :: Earlier(e, x);
    e
  }

  /** A search problem. `space` is a finite set that holds every state reachable
      from `start`. */
  datatype Problem<!S> = Problem(start: S, succ: S -> seq<S>, h: S -> nat, goal: S -> bool, space: set<S>)

  /** Successors stay in the space, and the heuristic is consistent: one step
      lowers the estimate by at most the cost of the step. */
  ghost predicate Consistent<S(!new)>(P: Problem<S>) {
    && P.start in P.space
    && forall u, w | u in P.space && w in P.succ(u) :: w in P.space && P.h(u) <= 1 + P.h(w)
  }

  ghost predicate IsWalk<S(!new)>(P: Problem<S>, p: seq<S>) {
    && |p| > 0
    && p[0] == P.start
    && forall i | 0 <= i < |p| - 1 :: p[i + 1] in P.succ(p[i])
  }

  function Last<S>(p: seq<S>): S
    requires |p| > 0
  {
    p[|p| - 1]
  }

  // ---------- The search itself ----------

  datatype Search<S> = Search(best: map<S, nat>, from: map<S, S>, closed: set<S>, open: set<Entry<S>>, next: nat)

  function Initial<S(!new, ==)>(P: Problem<S>): Search<S> {
    Search(map[P.start := 0], map[], {}, {Entry(P.h(P.start), P.h(P.start), 0, P.start)}, 1)
  }

  /** Offer the successor `w` of the closed state `u` its cost through `u`. */
  function Relax<S(!new, ==)>(P: Problem<S>, s: Search<S>, u: S, w: S): Search<S>
    requires u in s.best
  {
    var g := s.best[u] + 1;
    if w in s.best && s.best[w] <= g then s
    else
      Search(s.best[w := g], s.from[w := u], s.closed,
             s.open + {Entry(g + P.h(w), P.h(w), s.next, w)}, s.next + 1)
  }

  function RelaxAll<S(!new, ==)>(P: Problem<S>, s: Search<S>, u: S, ws: seq<S>): Search<S>
    requires u in s.best
    decreases |ws|
  {
    if ws == [] then s else RelaxAll(P, Relax(P, s, u, ws[0]), u, ws[1..])
  }

  function Close<S(!new, ==)>(s: Search<S>, e: Entry<S>): Search<S> {
    s.(open := s.open - {e}, closed := s.closed + {e.state})
  }

  /** One pop that does not end the search. A stale entry is dropped. */
  function Pop<S(!new, ==)>(P: Problem<S>, s: Search<S>): Search<S>
    requires s.open != {} && UniqueOrders(s.open)
    requires forall e | e in s.open :: e.state in s.best
  {
    var e := Top(s.open);
    if e.state in s.closed then s.(open := s.open - {e})
    else RelaxAll(P, Close(s, e), e.state, P.succ(e.state))
  }

  ghost predicate PopsGoal<S(!new)>(P: Problem<S>, s: Search<S>)
    requires s.open != {} && UniqueOrders(s.open)
  {
    var e := Top(s.open);
    e.state !in s.closed && P.goal(e.state)
  }

  // ---------- The invariant ----------

  ghost predicate Fresh<S(!new)>(P: Problem<S>, s: Search<S>, w: S)
    requires w in s.best
  {
    exists e :: e in s.open && e.state == w && e.f == s.best[w] + P.h(w)
  }

  ghost predicate Frontier<S(!new)>(P: Problem<S>, s: Search<S>) {
    && UniqueOrders(s.open)
    && (forall e | e in s.open :: e.order < s.next && e.state in s.best && e.f >= s.best[e.state] + P.h(e.state))
    && (forall w | w in s.best && w !in s.closed :: Fresh(P, s, w))
  }

  ghost predicate Tree<S(!new)>(P: Problem<S>, s: Search<S>) {
    && s.closed <= s.best.Keys <= P.space
    && P.start in s.best && s.best[P.start] == 0
    && (forall w | w in s.best && w != P.start :: w in s.from && Parent(P, s, w, s.from[w]))
  }

  ghost predicate Parent<S(!new)>(P: Problem<S>, s: Search<S>, w: S, u: S)
    requires w in s.best && s.closed <= s.best.Keys
  {
    u in s.closed && s.best[w] == s.best[u] + 1 && w in P.succ(u)
  }

  /** Closed states carry their true distance. */
  ghost predicate Optimal<S(!new)>(P: Problem<S>, s: Search<S>)
    requires s.closed <= s.best.Keys
  {
    forall p | IsWalk(P, p) && Last(p) in s.closed :: s.best[Last(p)] <= |p| - 1
  }

  /** No closed state is worse than the best complete route to a goal. */
  ghost predicate Thrifty<S(!new)>(P: Problem<S>, s: Search<S>)
    requires s.closed <= s.best.Keys
  {
    && (forall v | v in s.closed :: !P.goal(v))
    && (forall p, v | IsWalk(P, p) && P.goal(Last(p)) && v in s.closed ::
          s.best[v] + P.h(v) <= |p| - 1 + P.h(Last(p)))
  }

  /** Every successor of `v` outside `todo` has been offered its cost through `v`. */
  ghost predicate Expanded<S(!new)>(P: Problem<S>, s: Search<S>, v: S, todo: seq<S>)
    requires v in s.best
  {
    forall w | w in P.succ(v) :: w in todo || (w in s.best && s.best[w] <= s.best[v] + 1)
  }

  /** The invariant while `u` is being expanded and `todo` is left to do. */
  ghost predicate Expanding<S(!new)>(P: Problem<S>, s: Search<S>, u: S, todo: seq<S>) {
    && Consistent(P) && Frontier(P, s) && Tree(P, s) && Optimal(P, s) && Thrifty(P, s)
    && u in s.closed
    && (forall w | w in todo :: w in P.succ(u))
    && (forall v | v in s.closed :: Expanded(P, s, v, if v == u then todo else []))
  }

  ghost predicate Inv<S(!new)>(P: Problem<S>, s: Search<S>) {
    && Consistent(P) && Frontier(P, s) && Tree(P, s) && Optimal(P, s) && Thrifty(P, s)
    && (forall v | v in s.closed :: Expanded(P, s, v, []))
  }

  /** Walking the predecessor map back from `x`: a walk of exactly its cost. */
  ghost function Trail<S(!new)>(P: Problem<S>, s: Search<S>, x: S): (p: seq<S>)
    requires Tree(P, s) && x in s.best
    ensures IsWalk(P, p) && Last(p) == x && |p| == s.best[x] + 1
    ensures forall i | 0 <= i < |p| :: p[i] in s.best && s.best[p[i]] == i
    decreases s.best[x]
  {
    if x == P.start then [x]
    else
      assert Parent(P, s, x, s.from[x]);
      Trail(P, s, s.from[x]) + [x]
  }

  lemma InitialInv<S(!new)>(P: Problem<S>)
    requires Consistent(P)
    ensures Inv(P, Initial(P))
  {
    var s := Initial(P);
    assert Entry(P.h(P.start), P.h(P.start), 0, P.start) in s.open;
    assert Fresh(P, s, P.start);
  }

  /** A walk never leaves the space, and along it the heuristic is consistent. */
  lemma {:induction false} WalkEstimate<S(!new)>(P: Problem<S>, p: seq<S>, i: nat)
    requires Consistent(P) && IsWalk(P, p) && i < |p|
    ensures p[i] in P.space && P.h(p[i]) <= |p| - 1 - i + P.h(Last(p))
    decreases |p| - i
  {
    WalkInSpace(P, p, i);
    if i < |p| - 1 {
      WalkEstimate(P, p, i + 1);
    }
  }

  lemma {:induction false} WalkInSpace<S(!new)>(P: Problem<S>, p: seq<S>, i: nat)
    requires Consistent(P) && IsWalk(P, p) && i < |p|
    ensures p[i] in P.space
  {
    if i > 0 {
      WalkInSpace(P, p, i - 1);
    }
  }

  lemma PrefixWalk<S(!new)>(P: Problem<S>, p: seq<S>, k: nat)
    requires IsWalk(P, p) && 0 < k <= |p|
    ensures IsWalk(P, p[..k]) && Last(p[..k]) == p[k - 1]
    ensures k < |p| ==> p[k] in P.succ(p[k - 1])
  {
    if k < |p| {
      assert p[k - 1 + 1] in P.succ(p[k - 1]);
    }
  }

  /** Stepping from a closed state reaches a state no dearer than the walk. */
  lemma OffersAlongWalk<S(!new)>(P: Problem<S>, s: Search<S>, p: seq<S>, i: nat)
    requires Inv(P, s) && IsWalk(P, p) && i < |p| && (i > 0 ==> p[i - 1] in s.closed)
    ensures p[i] in s.best && s.best[p[i]] <= i
  {
    hide Frontier, Thrifty, Consistent, IsWalk;
    if i > 0 {
      PrefixWalk(P, p, i);
      assert s.best[Last(p[..i])] <= i - 1;
      assert Expanded(P, s, p[i - 1], []);
    } else {
      StartOfWalk(P, p);
    }
  }

  lemma StartOfWalk<S(!new)>(P: Problem<S>, p: seq<S>)
    requires IsWalk(P, p)
    ensures p[0] == P.start
  {
  }

  /** A walk that ends outside the closed set crosses the frontier at a state
      whose recorded cost is no more than the walk paid to get there. */
  lemma CrossesFrontier<S(!new)>(P: Problem<S>, s: Search<S>, p: seq<S>) returns (i: nat)
    requires Inv(P, s) && IsWalk(P, p) && Last(p) !in s.closed
    ensures i < |p| && p[i] in s.best && p[i] !in s.closed && s.best[p[i]] <= i
  {
    hide Inv;
    assert |p| > 0;
    hide IsWalk;
    i := 0;
    while p[i] in s.closed
      invariant i < |p|
      invariant forall j | 0 <= j < i :: p[j] in s.closed
      decreases |p| - i
    {
      i := i + 1;
    }
    OffersAlongWalk(P, s, p, i);
  }

  /** The least entry bounds every walk that ends outside the closed set. */
  lemma TopBound<S(!new)>(P: Problem<S>, s: Search<S>, p: seq<S>)
    requires Inv(P, s) && s.open != {}
    requires IsWalk(P, p) && Last(p) !in s.closed
    ensures var x := Top(s.open).state; s.best[x] + P.h(x) <= |p| - 1 + P.h(Last(p))
  {
    var i := CrossesFrontier(P, s, p);
    assert Fresh(P, s, p[i]);
    WalkEstimate(P, p, i);
  }

  lemma OpenOrClosed<S(!new)>(P: Problem<S>, s: Search<S>, p: seq<S>)
    requires Inv(P, s) && IsWalk(P, p)
    ensures Last(p) in s.closed || s.open != {}
  {
    if Last(p) !in s.closed {
      var i := CrossesFrontier(P, s, p);
      assert Fresh(P, s, p[i]);
    }
  }

  lemma RelaxKeeps<S(!new)>(P: Problem<S>, s: Search<S>, u: S, todo: seq<S>)
    requires |todo| > 0 && Expanding(P, s, u, todo)
    ensures Expanding(P, Relax(P, s, u, todo[0]), u, todo[1..])
  {
    hide Frontier, Consistent, Expanded;
    var w := todo[0];
    var s' := Relax(P, s, u, w);
    RelaxExpanded(P, s, u, todo);
    if s' != s {
      assert w in P.succ(u);
      ClosedNotImproved(P, s, u, w);
      RelaxFrontier(P, s, u, w);
      RelaxTree(P, s, u, w);
      assert forall v | v in s.closed :: s'.best[v] == s.best[v];
    }
  }

  lemma RelaxExpanded<S(!new)>(P: Problem<S>, s: Search<S>, u: S, todo: seq<S>)
    requires |todo| > 0 && Expanding(P, s, u, todo)
    ensures var s' := Relax(P, s, u, todo[0]);
            forall v | v in s'.closed :: v in s'.best && Expanded(P, s', v, if v == u then todo[1..] else [])
  {
    hide Frontier, Consistent, Optimal, Thrifty;
    var s' := Relax(P, s, u, todo[0]);
    assert s'.best == s.best || todo[0] !in s.closed by {
      assert todo[0] in P.succ(u);
      ClosedNotImproved(P, s, u, todo[0]);
    }
    forall v | v in s'.closed
      ensures v in s'.best && Expanded(P, s', v, if v == u then todo[1..] else [])
    {
      assert Expanded(P, s, v, if v == u then todo else []);
      assert forall x | x in todo :: x == todo[0] || x in todo[1..];
    }
  }

  /** The cost through `u` never beats the cost of a closed state. */
  lemma ClosedNotImproved<S(!new)>(P: Problem<S>, s: Search<S>, u: S, w: S)
    requires Tree(P, s) && Optimal(P, s) && u in s.closed && w in P.succ(u)
    ensures w in s.closed ==> s.best[w] <= s.best[u] + 1
  {
    if w in s.closed {
      var p := Trail(P, s, u) + [w];
      assert IsWalk(P, p) && Last(p) == w;
    }
  }

  lemma RelaxFrontier<S(!new)>(P: Problem<S>, s: Search<S>, u: S, w: S)
    requires Frontier(P, s) && Tree(P, s) && u in s.closed && w !in s.closed
    requires w !in s.best || s.best[u] + 1 < s.best[w]
    ensures Frontier(P, Relax(P, s, u, w))
  {
    var s' := Relax(P, s, u, w);
    var e := Entry(s.best[u] + 1 + P.h(w), P.h(w), s.next, w);
    assert e in s'.open;
    forall x | x in s'.best && x !in s'.closed
      ensures Fresh(P, s', x)
    {
      if x != w {
        assert Fresh(P, s, x);
        var old_e :| old_e in s.open && old_e.state == x && old_e.f == s.best[x] + P.h(x);
        assert old_e in s'.open;
      }
    }
  }

  lemma RelaxTree<S(!new)>(P: Problem<S>, s: Search<S>, u: S, w: S)
    requires Consistent(P) && Tree(P, s) && u in s.closed && w in P.succ(u) && w !in s.closed && w != P.start
    requires w !in s.best || s.best[u] + 1 < s.best[w]
    ensures Tree(P, Relax(P, s, u, w))
  {
    var s' := Relax(P, s, u, w);
    forall x | x in s'.best && x != P.start
      ensures x in s'.from && Parent(P, s', x, s'.from[x])
    {
      if x != w {
        assert Parent(P, s, x, s.from[x]);
      }
    }
  }

  lemma {:induction false} RelaxAllKeeps<S(!new)>(P: Problem<S>, s: Search<S>, u: S, todo: seq<S>)
    requires Expanding(P, s, u, todo)
    ensures var s' := RelaxAll(P, s, u, todo);
            Inv(P, s') && s'.closed == s.closed
    decreases |todo|
  {
    if todo == [] {
      forall v | v in s.closed
        ensures Expanded(P, s, v, [])
      {
        assert Expanded(P, s, v, if v == u then todo else []);
      }
    } else {
      RelaxKeeps(P, s, u, todo);
      RelaxAllKeeps(P, Relax(P, s, u, todo[0]), u, todo[1..]);
    }
  }

  lemma CloseKeeps<S(!new)>(P: Problem<S>, s: Search<S>)
    requires Inv(P, s) && s.open != {}
    requires Top(s.open).state !in s.closed && !P.goal(Top(s.open).state)
    ensures var e := Top(s.open);
            Expanding(P, Close(s, e), e.state, P.succ(e.state))
  {
    var e := Top(s.open);
    var u := e.state;
    var s' := Close(s, e);
    forall p | IsWalk(P, p) && Last(p) in s'.closed
      ensures s'.best[Last(p)] <= |p| - 1
    {
      if Last(p) !in s.closed {
        TopBound(P, s, p);
      }
    }
    forall p, v | IsWalk(P, p) && P.goal(Last(p)) && v in s'.closed
      ensures s'.best[v] + P.h(v) <= |p| - 1 + P.h(Last(p))
    {
      if v == u {
        TopBound(P, s, p);
      }
    }
    DropKeepsFrontier(P, s, e, s');
    forall w | w in s'.best && w != P.start
      ensures w in s'.from && Parent(P, s', w, s'.from[w])
    {
      assert Parent(P, s, w, s.from[w]);
    }
    forall v | v in s'.closed
      ensures Expanded(P, s', v, if v == u then P.succ(u) else [])
    {
      if v != u {
        assert Expanded(P, s, v, []);
      }
    }
  }

  /** Removing an entry whose state is closed afterwards loses no live entry. */
  lemma DropKeepsFrontier<S(!new)>(P: Problem<S>, s: Search<S>, e: Entry<S>, s': Search<S>)
    requires Frontier(P, s)
    requires s'.best == s.best && s'.next == s.next && s'.open == s.open - {e}
    requires s.closed <= s'.closed && e.state in s'.closed
    ensures Frontier(P, s')
  {
    forall w | w in s'.best && w !in s'.closed
      ensures Fresh(P, s', w)
    {
      assert Fresh(P, s, w);
      var x :| x in s.open && x.state == w && x.f == s.best[w] + P.h(w);
      assert x in s'.open;
    }
  }

  lemma PopKeeps<S(!new)>(P: Problem<S>, s: Search<S>)
    requires Inv(P, s) && s.open != {} && !PopsGoal(P, s)
    ensures Inv(P, Pop(P, s))
    ensures Pop(P, s).closed == s.closed + {Top(s.open).state}
    ensures Top(s.open).state in s.closed ==> Pop(P, s).open < s.open
    ensures Top(s.open).state in P.space
  {
    var e := Top(s.open);
    if e.state in s.closed {
      var s' := Pop(P, s);
      DropKeepsFrontier(P, s, e, s');
      forall w | w in s'.best && w != P.start
        ensures w in s'.from && Parent(P, s', w, s'.from[w])
      {
        assert Parent(P, s, w, s.from[w]);
      }
      forall v | v in s'.closed
        ensures Expanded(P, s', v, [])
      {
        assert Expanded(P, s, v, []);
      }
      assert Pop(P, s).closed == s.closed + {e.state};
    } else {
      CloseKeeps(P, s);
      RelaxAllKeeps(P, Close(s, e), e.state, P.succ(e.state));
    }
  }

  // ---------- The whole run ----------

  datatype Outcome<S> = Reached(state: S, search: Search<S>) | Exhausted(search: Search<S>)

  /** Pop until a goal state is closed or the frontier is empty. */
  ghost function Run<S(!new)>(P: Problem<S>, s: Search<S>): (r: Outcome<S>)
    requires Inv(P, s)
    decreases P.space - s.closed, s.open
  {
    if s.open == {} then Exhausted(s)
    else if PopsGoal(P, s) then Reached(Top(s.open).state, Close(s, Top(s.open)))
    else
      PopKeeps(P, s);
      Run(P, Pop(P, s))
  }

  /** What a finished search knows.

      Reached: the goal state found is joined to the start by a walk of its
      recorded cost; no walk to a goal is shorter; any state left open is at
      least as expensive; and no closed state was estimated dearer than the goal.
      Exhausted: the closed states are exactly the reachable ones, and none of
      them is a goal. */
  ghost predicate Answers<S(!new)>(P: Problem<S>, r: Outcome<S>) {
    && Tree(P, r.search)
    && Optimal(P, r.search)
    && match r
       case Reached(x, s) =>
         && x in s.closed && P.goal(x)
         && (forall p | IsWalk(P, p) && P.goal(Last(p)) :: s.best[x] + P.h(x) <= |p| - 1 + P.h(Last(p)))
         && (forall p | IsWalk(P, p) :: Last(p) in s.closed || s.best[x] + P.h(x) <= |p| - 1 + P.h(Last(p)))
         && (forall v | v in s.closed :: s.best[v] + P.h(v) <= s.best[x] + P.h(x))
       case Exhausted(s) =>
         && (forall v | v in s.closed :: !P.goal(v))
         && (forall p | IsWalk(P, p) :: Last(p) in s.closed)
  }

  lemma {:induction false} RunAnswers<S(!new)>(P: Problem<S>, s: Search<S>)
    requires Inv(P, s)
    ensures Answers(P, Run(P, s))
    decreases P.space - s.closed, s.open
  {
    if s.open == {} {
      forall p | IsWalk(P, p)
        ensures Last(p) in s.closed
      {
        OpenOrClosed(P, s, p);
      }
    } else if PopsGoal(P, s) {
      GoalAnswers(P, s);
    } else {
      PopKeeps(P, s);
      RunAnswers(P, Pop(P, s));
    }
  }

  lemma GoalAnswers<S(!new)>(P: Problem<S>, s: Search<S>)
    requires Inv(P, s) && s.open != {} && PopsGoal(P, s)
    ensures Answers(P, Reached(Top(s.open).state, Close(s, Top(s.open))))
  {
    var e := Top(s.open);
    var x := e.state;
    var s' := Close(s, e);
    GoalTree(P, s);
    forall p | IsWalk(P, p) && Last(p) !in s.closed
      ensures s.best[x] + P.h(x) <= |p| - 1 + P.h(Last(p))
    {
      TopBound(P, s, p);
    }
    var q := Trail(P, s, x);
    forall v | v in s'.closed
      ensures s.best[v] + P.h(v) <= s.best[x] + P.h(x)
    {
      assert IsWalk(P, q) && P.goal(Last(q));
    }
  }

  lemma GoalTree<S(!new)>(P: Problem<S>, s: Search<S>)
    requires Inv(P, s) && s.open != {}
    ensures Tree(P, Close(s, Top(s.open)))
  {
    hide Fresh, Thrifty, Optimal, Expanded, Consistent;
    var s' := Close(s, Top(s.open));
    assert Top(s.open).state in s.best by {
      TopKnown(P, s);
    }
    forall w | w in s'.best && w != P.start
      ensures w in s'.from && Parent(P, s', w, s'.from[w])
    {
      assert Parent(P, s, w, s.from[w]);
    }
  }

  lemma TopKnown<S(!new)>(P: Problem<S>, s: Search<S>)
    requires Inv(P, s) && s.open != {}
    ensures Top(s.open).state in s.best
  {
  }

  /** What the loop of a planner needs to know about one pop. */
  lemma PopStep<S(!new)>(P: Problem<S>, s: Search<S>)
    requires Inv(P, s) && s.open != {}
    ensures UniqueOrders(s.open) && forall e | e in s.open :: e.state in s.best
    ensures var e := Top(s.open);
            && e.state in s.best && e.state in P.space
            && (PopsGoal(P, s) ==> Run(P, s) == Reached(e.state, Close(s, e)) && Answers(P, Run(P, s)))
            && (!PopsGoal(P, s) ==>
                  && Inv(P, Pop(P, s)) && Run(P, s) == Run(P, Pop(P, s))
                  && (e.state in s.closed ==> Pop(P, s) == s.(open := s.open - {e}))
                  && (e.state !in s.closed ==>
                        && Expanding(P, Close(s, e), e.state, P.succ(e.state))
                        && Pop(P, s) == RelaxAll(P, Close(s, e), e.state, P.succ(e.state))
                        && Pop(P, s).closed == s.closed + {e.state}))
  {
    if PopsGoal(P, s) {
      GoalAnswers(P, s);
    } else {
      PopKeeps(P, s);
      if Top(s.open).state !in s.closed {
        CloseKeeps(P, s);
      }
    }
  }

  lemma RunStops<S(!new)>(P: Problem<S>, s: Search<S>)
    requires Inv(P, s) && s.open == {}
    ensures Run(P, s) == Exhausted(s)
  {
  }

  /** What an expansion knows at its start and at its end. */
  lemma ExpansionEnds<S(!new)>(P: Problem<S>, s: Search<S>, u: S, todo: seq<S>)
    requires Expanding(P, s, u, todo)
    ensures u in s.best && RelaxAll(P, s, u, []) == s
  {
  }

  /** What the loop over successors needs to know about one of them. */
  lemma RelaxStep<S(!new)>(P: Problem<S>, s: Search<S>, u: S, todo: seq<S>)
    requires |todo| > 0 && Expanding(P, s, u, todo)
    ensures u in s.best && Expanding(P, Relax(P, s, u, todo[0]), u, todo[1..])
    ensures RelaxAll(P, s, u, todo) == RelaxAll(P, Relax(P, s, u, todo[0]), u, todo[1..])
    ensures Relax(P, s, u, todo[0]).closed == s.closed
    ensures u in Relax(P, s, u, todo[0]).best && Relax(P, s, u, todo[0]).best[u] == s.best[u]
    ensures todo[0] in s.closed ==> Relax(P, s, u, todo[0]) == s
  {
    RelaxKeeps(P, s, u, todo);
    ClosedNotImproved(P, s, u, todo[0]);
  }

  // ---------- Reading a route off the predecessor map ----------

  function Reversed<T>(p: seq<T>): (r: seq<T>)
    ensures |r| == |p|
  {
    if p == [] then [] else [p[|p| - 1]] + Reversed(p[..|p| - 1])
  }

  lemma TrailStep<S(!new)>(P: Problem<S>, s: Search<S>, x: S)
    requires Tree(P, s) && x in s.best
    ensures x == P.start ==> Trail(P, s, x) == [x]
    ensures x != P.start ==>
              && x in s.from && s.from[x] in s.best && s.best[s.from[x]] < s.best[x]
              && Trail(P, s, x) == Trail(P, s, s.from[x]) + [x]
  {
    if x != P.start {
      assert Parent(P, s, x, s.from[x]);
    }
  }

  /** Follow predecessors from `goal` back to `start`, then reverse. */
  method Reconstruct<S(!new, ==)>(from: map<S, S>, start: S, goal: S, ghost P: Problem<S>, ghost s: Search<S>)
    returns (path: seq<S>)
    requires Tree(P, s) && goal in s.best && from == s.from && start == P.start
    ensures path == Trail(P, s, goal)
  {
    hide Tree, Trail, IsWalk;
    path := [goal];
    var current := goal;
    while current != start
      invariant current in s.best && |path| > 0 && path[|path| - 1] == current
      invariant Trail(P, s, goal) == Trail(P, s, current) + Reversed(path[..|path| - 1])
      decreases s.best[current]
    {
      TrailStep(P, s, current);
      current := from[current];
      assert (path + [current])[..|path|] == path;
      path := path + [current];
    }
    TrailStep(P, s, current);
    path := Reversed(path);
  }
}
