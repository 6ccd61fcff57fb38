/** The assignment objective: what maximising one weighted sum means. */
module Weights {

  /** One pairing and its price in moves: to the pickup, then to the drop-off. */
  datatype Pair = Pair(robot: string, task: string, toPickup: nat, toDropoff: nat) {
    function Total(): nat {
      toPickup + toDropoff
    }
  }

  type Selection = set<nat>

  /** No robot and no task is used twice. */
  ghost predicate IsMatching(pairs: seq<Pair>, a: Selection) {
    && (forall i | i in a :: i < |pairs|)
    && (forall i, j | i in a && j in a && i != j :: pairs[i].robot != pairs[j].robot && pairs[i].task != pairs[j].task)
  }

  // ---------- The coefficients ----------

  /** Larger than any sum of creation indices. */
  function Scale(pairs: seq<Pair>): nat {
    |pairs| * |pairs| + 1
  }

  function EffectiveCost(pairs: seq<Pair>, i: nat): nat
    requires i < |pairs|
  {
    pairs[i].Total() * Scale(pairs) + i
  }

  function EffectiveTotal(pairs: seq<Pair>, k: nat): nat
    requires k <= |pairs|
  {
    if k == 0 then 0 else EffectiveTotal(pairs, k - 1) + EffectiveCost(pairs, k - 1)
  }

  function Reward(pairs: seq<Pair>): nat {
    EffectiveTotal(pairs, |pairs|) + 1
  }

  // ---------- Sums over a selection ----------

  function Objective(pairs: seq<Pair>, a: Selection, k: nat): int
    requires k <= |pairs|
  {
    if k == 0 then 0
    else Objective(pairs, a, k - 1) + if k - 1 in a then Reward(pairs) - EffectiveCost(pairs, k - 1) else 0
  }

  function Count(a: Selection, k: nat): nat {
    if k == 0 then 0 else Count(a, k - 1) + if k - 1 in a then 1 else 0
  }

  function Cost(pairs: seq<Pair>, a: Selection, k: nat): nat
    requires k <= |pairs|
  {
    if k == 0 then 0 else Cost(pairs, a, k - 1) + if k - 1 in a then pairs[k - 1].Total() else 0
  }

  function Indices(a: Selection, k: nat): nat {
    if k == 0 then 0 else Indices(a, k - 1) + if k - 1 in a then k - 1 else 0
  }

  /** More assignments; then lower total cost; then lower creation indices. */
  ghost predicate Better(pairs: seq<Pair>, a: Selection, b: Selection) {
    var n := |pairs|;
    || Count(a, n) > Count(b, n)
    || (Count(a, n) == Count(b, n) && Cost(pairs, a, n) < Cost(pairs, b, n))
    || (Count(a, n) == Count(b, n) && Cost(pairs, a, n) == Cost(pairs, b, n) && Indices(a, n) < Indices(b, n))
  }

  lemma {:induction false} ObjectiveSplits(pairs: seq<Pair>, a: Selection, k: nat)
    requires k <= |pairs|
    ensures Objective(pairs, a, k)
         == Count(a, k) * Reward(pairs) - (Cost(pairs, a, k) * Scale(pairs) + Indices(a, k))
  {
    hide Reward, Scale;
    if k > 0 {
      ObjectiveSplits(pairs, a, k - 1);
      if k - 1 in a {
        Distribute(Count(a, k - 1), 1, Reward(pairs));
        Distribute(Cost(pairs, a, k - 1), pairs[k - 1].Total(), Scale(pairs));
      }
    }
  }

  lemma Distribute(x: int, y: int, z: int)
    ensures (x + y) * z == x * z + y * z
  {
  }

  lemma {:induction false} AtLeastOnce(n: int, x: nat)
    requires n > 0
    ensures n * x >= x
    decreases n
  {
    if n > 1 {
      AtLeastOnce(n - 1, x);
      Distribute(n - 1, 1, x);
    }
  }

  lemma {:induction false} IndicesSmall(a: Selection, k: nat)
    ensures Indices(a, k) <= k * k
  {
    if k > 0 {
      IndicesSmall(a, k - 1);
      assert (k - 1) * (k - 1) + (k - 1) <= k * k;
    }
  }

  /** No selection costs as much as the reward for one assignment. */
  lemma {:induction false} EffectiveBelowReward(pairs: seq<Pair>, a: Selection, k: nat)
    requires k <= |pairs|
    ensures Cost(pairs, a, k) * Scale(pairs) + Indices(a, k) <= EffectiveTotal(pairs, k)
  {
    if k > 0 {
      EffectiveBelowReward(pairs, a, k - 1);
      Distribute(Cost(pairs, a, k - 1), pairs[k - 1].Total(), Scale(pairs));
    }
  }

  /** One unit more of a large weight outdoes anything smaller than the weight. */
  lemma UnitOutweighs(a: nat, b: nat, weight: nat, x: int, y: int)
    requires a > b && x < weight && y >= 0
    ensures a * weight - x > b * weight - y
  {
    AtLeastOnce(a - b, weight);
    Distribute(a - b, b, weight);
  }

  lemma BetterScoresMore(pairs: seq<Pair>, a: Selection, b: Selection)
    requires Better(pairs, a, b)
    ensures Objective(pairs, a, |pairs|) > Objective(pairs, b, |pairs|)
  {
    hide Reward, Scale, Count, Cost, Indices, Objective;
    var n := |pairs|;
    WeightBounds(pairs, a);
    ObjectiveSplits(pairs, a, n);
    ObjectiveSplits(pairs, b, n);
    var r, s := Reward(pairs), Scale(pairs);
    var ea, eb := Cost(pairs, a, n) * s + Indices(a, n), Cost(pairs, b, n) * s + Indices(b, n);
    if Count(a, n) > Count(b, n) {
      UnitOutweighs(Count(a, n), Count(b, n), r, ea, eb);
    } else if Cost(pairs, a, n) < Cost(pairs, b, n) {
      UnitOutweighs(Cost(pairs, b, n), Cost(pairs, a, n), s, Indices(a, n), Indices(b, n));
    }
  }

  lemma WeightBounds(pairs: seq<Pair>, a: Selection)
    ensures Indices(a, |pairs|) < Scale(pairs)
    ensures Cost(pairs, a, |pairs|) * Scale(pairs) + Indices(a, |pairs|) < Reward(pairs)
  {
    IndicesSmall(a, |pairs|);
    EffectiveBelowReward(pairs, a, |pairs|);
  }

  /** Lexicographic weights: for any two selections whatever, comparing the
      weighted sum is comparing (assignments up, then cost down, then creation
      indices down). */
  lemma WeightsAreLexicographic(pairs: seq<Pair>, a: Selection, b: Selection)
    ensures Objective(pairs, a, |pairs|) > Objective(pairs, b, |pairs|) <==> Better(pairs, a, b)
  {
    hide Objective, Count, Cost, Indices;
    if Better(pairs, a, b) {
      BetterScoresMore(pairs, a, b);
    } else if Better(pairs, b, a) {
      BetterScoresMore(pairs, b, a);
    } else {
      ObjectiveSplits(pairs, a, |pairs|);
      ObjectiveSplits(pairs, b, |pairs|);
    }
  }

  /** What the solver is asked for: a matching of greatest objective. */
  ghost predicate SolverOptimal(pairs: seq<Pair>, a: Selection) {
    && IsMatching(pairs, a)
    && forall b | IsMatching(pairs, b) :: Objective(pairs, b, |pairs|) <= Objective(pairs, a, |pairs|)
  }

  /** An optimal selection assigns as many tasks as any matching can, and among
      those that assign as many it has the least total cost. */
  lemma OptimalIsLexicographicallyBest(pairs: seq<Pair>, a: Selection, b: Selection)
    requires SolverOptimal(pairs, a) && IsMatching(pairs, b)
    ensures var n := |pairs|;
            && Count(a, n) >= Count(b, n)
            && (Count(a, n) == Count(b, n) ==> Cost(pairs, a, n) <= Cost(pairs, b, n))
  {
    WeightsAreLexicographic(pairs, b, a);
  }

  lemma {:induction false} CountIsSize(a: Selection, k: nat)
    requires forall i | i in a :: i < k
    ensures Count(a, k) == |a|
    decreases k
  {
    if k == 0 {
      assert a == {};
    } else if k - 1 in a {
      CountIsSize(a - {k - 1}, k - 1);
      CountIgnoresLarger(a, k - 1, k - 1);
    } else {
      CountIsSize(a, k - 1);
    }
  }

  lemma {:induction false} CountIgnoresLarger(a: Selection, x: nat, k: nat)
    requires k <= x
    ensures Count(a, k) == Count(a - {x}, k)
    decreases k
  {
    if k > 0 {
      CountIgnoresLarger(a, x, k - 1);
    }
  }

  // ---------- Maximal matchings ----------

  ghost predicate SharesRobot(pairs: seq<Pair>, g: Selection, i: nat) {
    i < |pairs| && exists j :: j in g && j < |pairs| && pairs[j].robot == pairs[i].robot
  }

  ghost predicate SharesTask(pairs: seq<Pair>, g: Selection, i: nat) {
    i < |pairs| && exists j :: j in g && j < |pairs| && pairs[j].task == pairs[i].task
  }

  /** Nothing can be added: every pair shares a robot or a task with `g`. */
  ghost predicate IsMaximal(pairs: seq<Pair>, g: Selection) {
    && IsMatching(pairs, g)
    && forall i | 0 <= i < |pairs| :: SharesRobot(pairs, g, i) || SharesTask(pairs, g, i)
  }

  lemma {:induction false} InjectiveImage(a: Selection, f: nat -> string, image: set<string>)
    requires forall i | i in a :: f(i) in image
    requires forall i, j | i in a && j in a && i != j :: f(i) != f(j)
    ensures |a| <= |image|
    decreases |a|
  {
    if a != {} {
      var i :| i in a;
      InjectiveImage(a - {i}, f, image - {f(i)});
      assert |image - {f(i)}| == |image| - 1;
    }
  }

  lemma {:induction false} ImageSize(g: Selection, f: nat -> string)
    ensures |set j | j in g :: f(j)| <= |g|
    decreases |g|
  {
    if g != {} {
      var i :| i in g;
      ImageSize(g - {i}, f);
      var rest := set j | j in g - {i} :: f(j);
      assert (set j | j in g :: f(j)) == rest + {f(i)};
    }
  }

  /** A maximal matching is at least half as large as any matching. */
  lemma MaximalIsHalfOfAny(pairs: seq<Pair>, g: Selection, m: Selection)
    requires IsMaximal(pairs, g) && IsMatching(pairs, m)
    ensures |m| <= 2 * |g|
  {
    hide SharesRobot, SharesTask;
    var byRobot := set i | i in m && SharesRobot(pairs, g, i);
    var byTask := m - byRobot;
    SharedRobots(pairs, g, byRobot);
    SharedTasks(pairs, g, byTask);
    assert m == byRobot + byTask;
  }

  lemma SharedRobots(pairs: seq<Pair>, g: Selection, m: Selection)
    requires IsMatching(pairs, g) && IsMatching(pairs, m) && forall i | i in m :: SharesRobot(pairs, g, i)
    ensures |m| <= |g|
  {
    var f := (i: nat) => if i < |pairs| then pairs[i].robot else "";
    ImageSize(g, f);
    InjectiveImage(m, f, set j | j in g :: f(j));
  }

  lemma SharedTasks(pairs: seq<Pair>, g: Selection, m: Selection)
    requires IsMatching(pairs, g) && IsMatching(pairs, m) && forall i | i in m :: SharesTask(pairs, g, i)
    ensures |m| <= |g|
  {
    var f := (i: nat) => if i < |pairs| then pairs[i].task else "";
    ImageSize(g, f);
    InjectiveImage(m, f, set j | j in g :: f(j));
  }
}
