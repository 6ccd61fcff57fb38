/** What the summary numbers of a coordination pass count. */
module Totals {
  import opened Floors
  import opened TimedPaths
  import opened Reservations
  import opened Coordinator

  function StepsOf(p: TimedPath): seq<TimedStep> {
    if p.Planned? then p.steps else []
  }

  /** Between its steps `k` and `k + 1` the route moves - or, if not `moving`, waits. */
  ghost predicate Happens(steps: seq<TimedStep>, k: nat, moving: bool) {
    k + 1 < |steps| && IsMove(steps, k) == moving
  }

  ghost function During(steps: seq<TimedStep>, moving: bool): set<nat> {
    set k: nat | k < |steps| && Happens(steps, k, moving)
  }

  /** Which route of a list moves, or waits, at which of its steps. */
  ghost function Occasions(paths: seq<TimedPath>, moving: bool): set<(nat, nat)> {
    set i: nat, k: nat | i < |paths| && k < |StepsOf(paths[i])| && Happens(StepsOf(paths[i]), k, moving) :: (i, k)
  }

  lemma {:induction false} StepsCounted(steps: seq<TimedStep>)
    ensures |During(steps, true)| == Moves(steps) && |During(steps, false)| == Waits(steps)
  {
    if |steps| < 2 {
      assert During(steps, true) == {} == During(steps, false);
    } else {
      StepsCounted(steps[..|steps| - 1]);
      LastCounted(steps, true);
      LastCounted(steps, false);
    }
  }

  lemma LastCounted(steps: seq<TimedStep>, moving: bool)
    requires |steps| > 1
    ensures var last := |steps| - 2;
            |During(steps, moving)|
                == |During(steps[..|steps| - 1], moving)| + if IsMove(steps, last) == moving then 1 else 0
  {
    var n := |steps| - 1;
    forall k: nat
      ensures Happens(steps, k, moving) <==>
                Happens(steps[..n], k, moving) || (k == n - 1 && IsMove(steps, k) == moving)
    {
    }
    var before := During(steps[..n], moving);
    assert n - 1 !in before;
    assert During(steps, moving) == if IsMove(steps, n - 1) == moving then before + {n - 1} else before;
  }

  ghost function Row(i: nat, ks: set<nat>): set<(nat, nat)> {
    set k | k in ks :: (i, k)
  }

  lemma {:induction false} RowSize(i: nat, ks: set<nat>)
    ensures |Row(i, ks)| == |ks|
    decreases |ks|
  {
    if |ks| > 0 {
      var k :| k in ks;
      RowSize(i, ks - {k});
      assert Row(i, ks) == Row(i, ks - {k}) + {(i, k)};
    }
  }

  lemma OccasionsGrow(paths: seq<TimedPath>, moving: bool)
    requires paths != []
    ensures var n := |paths| - 1;
            |Occasions(paths, moving)| == |Occasions(paths[..n], moving)| + |During(StepsOf(paths[n]), moving)|
  {
    hide Happens;
    var n := |paths| - 1;
    var before, mine := Occasions(paths[..n], moving), Row(n, During(StepsOf(paths[n]), moving));
    RowSize(n, During(StepsOf(paths[n]), moving));
    assert Occasions(paths, moving) == before + mine;
    assert before !! mine;
  }

  /** The makespan is the latest arrival of a planned robot, 0 without one. */
  ghost predicate IsLatestArrival(paths: seq<TimedPath>, t: int) {
    && (forall p | p in paths && StepsOf(p) != [] :: ArrivalTime(p.steps) <= t)
    && ((exists p :: p in paths && StepsOf(p) != [] && ArrivalTime(p.steps) == t)
        || (t == 0 && forall p | p in paths :: StepsOf(p) == []))
  }

  /** The totals are what happens: as many moves, and waits, as there are occasions on
      which somebody moves, or waits; and the latest arrival of all. */
  lemma {:induction false} TotalsAreCounts(paths: seq<TimedPath>)
    ensures var t := Summarise(paths);
            && t.moves == |Occasions(paths, true)| && t.waits == |Occasions(paths, false)|
            && t.planned == |set i: nat | i < |paths| && StepsOf(paths[i]) != []|
            && IsLatestArrival(paths, t.makespan) && (t.planned == 0 <==> NoneHasSteps(paths))
  {
    hide Occasions, During, IsLatestArrival, NoneHasSteps;
    if paths == [] {
      NoOccasions(paths);
      NobodyArrives();
    } else {
      var n := |paths| - 1;
      TotalsAreCounts(paths[..n]);
      OccasionsGrow(paths, true);
      OccasionsGrow(paths, false);
      StepsCounted(StepsOf(paths[n]));
      PlannedGrow(paths);
      LatestGrows(paths);
    }
  }

  lemma NoOccasions(paths: seq<TimedPath>)
    requires paths == []
    ensures |Occasions(paths, true)| == 0 == |Occasions(paths, false)|
  {
    assert Occasions(paths, true) == {} == Occasions(paths, false);
  }

  lemma PlannedGrow(paths: seq<TimedPath>)
    requires paths != []
    ensures var n := |paths| - 1;
            |set i: nat | i < |paths| && StepsOf(paths[i]) != []|
                == |set i: nat | i < n && StepsOf(paths[..n][i]) != []| + if StepsOf(paths[n]) != [] then 1 else 0
  {
    var n := |paths| - 1;
    var was := set i: nat | i < n && StepsOf(paths[..n][i]) != [];
    var now := set i: nat | i < |paths| && StepsOf(paths[i]) != [];
    assert now == if StepsOf(paths[n]) != [] then was + {n} else was;
  }

  lemma NobodyArrives()
    ensures IsLatestArrival([], 0) && NoneHasSteps([])
  {
  }

  ghost predicate NoneHasSteps(paths: seq<TimedPath>) {
    forall p | p in paths :: StepsOf(p) == []
  }

  lemma LatestGrows(paths: seq<TimedPath>)
    requires paths != []
    requires var t := Summarise(paths[..|paths| - 1]);
             IsLatestArrival(paths[..|paths| - 1], t.makespan)
             && (t.planned == 0 <==> NoneHasSteps(paths[..|paths| - 1]))
    ensures IsLatestArrival(paths, Summarise(paths).makespan)
    ensures Summarise(paths).planned == 0 <==> NoneHasSteps(paths)
  {
    hide Moves, Waits, Summarise, IsLatestArrival;
    var n := |paths| - 1;
    LastSummed(paths);
    assert paths == paths[..n] + [paths[n]];
    LaterOf(paths[..n], paths[n], Summarise(paths[..n]).makespan, NoneHasSteps(paths[..n]));
  }

  lemma LastSummed(paths: seq<TimedPath>)
    requires paths != []
    ensures var t, last, now := Summarise(paths[..|paths| - 1]), paths[|paths| - 1], Summarise(paths);
            if StepsOf(last) == [] then now == t
            else
              && now.planned == t.planned + 1
              && now.makespan == if t.planned == 0 then ArrivalTime(last.steps)
                                 else Max(t.makespan, ArrivalTime(last.steps))
  {
    hide Moves, Waits;
  }

  lemma LaterOf(before: seq<TimedPath>, last: TimedPath, t: int, none: bool)
    requires IsLatestArrival(before, t) && (none <==> NoneHasSteps(before))
    ensures NoneHasSteps(before + [last]) <==> none && StepsOf(last) == []
    ensures StepsOf(last) == [] ==> IsLatestArrival(before + [last], t)
    ensures StepsOf(last) != [] ==>
              IsLatestArrival(before + [last], if none then ArrivalTime(last.steps)
                                               else Max(t, ArrivalTime(last.steps)))
  {
    var all := before + [last];
    assert last in all && forall p | p in before :: p in all;
  }
}
