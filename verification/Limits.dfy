/** Two runs that show what recovery does not promise: each starts from a good
    plan, and each is the shortest of its kind. */
module Limits {
  import opened Floors
  import opened TimedPaths
  import opened Reservations
  import opened SpaceTime
  import opened Simulation
  import opened Driving
  import opened Names
  import opened Replanning
  import opened Resilience
  import opened TaskRecovery
  import opened Disruptions
  import opened Schedule
  import opened Runs
  import Coordinator
  import Conflicts
  import Execution
  import Sorting

  /** One move at time 0. */
  function Hop(from: Position, to: Position): seq<TimedStep> {
    [TimedStep(from, 0), TimedStep(to, 1)]
  }

  lemma HopParts(from: Position, to: Position)
    ensures WellTimed(Hop(from, to)) && StartTime(Hop(from, to)) == 0 && ArrivalTime(Hop(from, to)) == 1
             && Goal(Hop(from, to)) == to
    ensures forall t :: At(Hop(from, to), t) == if t <= 0 then from else to
  {
  }

  lemma HopsApart(a: Position, b: Position, c: Position, d: Position)
    requires a != c && b != d && !(a == d && b == c)
    ensures WellTimed(Hop(a, b)) && WellTimed(Hop(c, d)) && Conflicts.NeverMeet(Hop(a, b), Hop(c, d))
  {
    hide At;
    HopParts(a, b);
    HopParts(c, d);
    forall t: int
      ensures NoMeeting(Hop(a, b), Hop(c, d), t) && NoSwap(Hop(a, b), Hop(c, d), t)
    {
    }
  }

  lemma HopDrivable(f: Floor, from: Position, to: Position)
    requires f.Traversable(from) && f.Traversable(to) && Adjacent(from, to)
    ensures Drivable(f, Hop(from, to))
  {
  }

  function Standstill(id: string, cell: Position): RobotView {
    RobotView(id, cell, 100.0, 1.0, 10.0, 0.0, Idle, None, 0, 0)
  }

  lemma ShortNamesUnlikePins(fleet: Fleet)
    requires forall id | id in fleet :: |id| == 1
    ensures NoPinNames(fleet)
  {
    forall id, o | id in fleet && o in fleet
      ensures PinName(o) != id
    {
      assert |PinName(o)| == |"__failed__"| + |o|;
    }
  }

  // ---------- A robot stopped for safety breaks the run off ----------

  /** Three robots, two cells each. A follows B; C drives elsewhere. */
  const CROWD := map["A" := Hop(Position(0, 0), Position(0, 1)), "B" := Hop(Position(0, 1), Position(1, 1)),
                     "C" := Hop(Position(2, 0), Position(2, 1))]

  const CROWDED_FLOOR := Floor(2, 3, {})

  const CROWD_FLEET := map["A" := Standstill("A", Position(0, 0)), "B" := Standstill("B", Position(0, 1)),
                           "C" := Standstill("C", Position(2, 0))]

  /** Two boxes fall at once: on B's goal, and on C's. */
  const BOX_BEFORE_B := ObstacleAppears(0, Position(1, 1), "box1")
  const BOX_BEFORE_C := ObstacleAppears(0, Position(2, 1), "box2")

  lemma CrowdIsTimed()
    ensures Execution.Timed(CROWD) && forall id | id in CROWD ::
             StartTime(CROWD[id]) == 0 && ArrivalTime(CROWD[id]) == 1
  {
    hide Hop, WellTimed;
    HopParts(Position(0, 0), Position(0, 1));
    HopParts(Position(0, 1), Position(1, 1));
    HopParts(Position(2, 0), Position(2, 1));
  }

  ghost function CrowdStart(): Moment {
    CrowdIsTimed();
    Moment(Starting(CROWD, 5), CROWD_FLEET, map[], Site(CROWDED_FLOOR, {}, {}))
  }

  lemma CrowdNeverMeets()
    ensures Execution.Timed(CROWD) && Execution.NoConflicts(CROWD)
  {
    hide Hop, WellTimed, Conflicts.NeverMeet;
    CrowdIsTimed();
    HopsApart(Position(0, 0), Position(0, 1), Position(0, 1), Position(1, 1));
    HopsApart(Position(0, 0), Position(0, 1), Position(2, 0), Position(2, 1));
    HopsApart(Position(0, 1), Position(1, 1), Position(0, 0), Position(0, 1));
    HopsApart(Position(0, 1), Position(1, 1), Position(2, 0), Position(2, 1));
    HopsApart(Position(2, 0), Position(2, 1), Position(0, 0), Position(0, 1));
    HopsApart(Position(2, 0), Position(2, 1), Position(0, 1), Position(1, 1));
  }

  /** It is a run that may begin. */
  lemma CrowdMayStart()
    ensures KeptAt(CrowdStart(), 0, true) && ClearAt(CrowdStart(), 0)
  {
    hide Kept, NobodyInTheWay, NoPinNames, Execution.NoConflicts;
    CrowdIsTimed();
    CrowdNeverMeets();
    ShortNamesUnlikePins(CROWD_FLEET);
    CrowdFits();
    SoundStart(CROWD, CROWD_FLEET, map[], CROWDED_FLOOR, 5, true);
  }

  lemma CrowdFits()
    ensures Execution.Timed(CROWD) && PlanFits(CROWD, CROWDED_FLOOR, 5)
    ensures Execution.AtStarts(CROWD_FLEET, CROWD) && Placed(CROWDED_FLOOR, CROWD_FLEET, map[])
  {
    hide WellTimed, Drivable;
    CrowdIsTimed();
    HopDrivable(CROWDED_FLOOR, Position(0, 0), Position(0, 1));
    HopDrivable(CROWDED_FLOOR, Position(0, 1), Position(1, 1));
    HopDrivable(CROWDED_FLOOR, Position(2, 0), Position(2, 1));
  }

  lemma HopTouches(from: Position, to: Position, cell: Position)
    ensures RouteTouchesCell(Hop(from, to), cell, 0) <==> cell == from || cell == to
  {
    if cell == from {
      assert Hop(from, to)[0].position == cell;
    } else if cell == to {
      assert Hop(from, to)[1].position == cell;
    }
  }

  lemma SortedOne(id: string)
    ensures Sorted({id}) == [id]
  {
    var s := Sorted({id});
    assert |s| == 1 && s[0] in s;
  }

  /** After the first box: B has nowhere to go and stays - on the cell A is to
      enter next. */
  ghost function CrowdBlocked(): Moment {
    var start := CrowdStart();
    Moment(start.snap.(paths := start.snap.paths["B" := [TimedStep(Position(0, 1), 0)]], safeStopped := {"B"}),
           CROWD_FLEET, map[], start.site.With("box1", Position(1, 1)))
  }

  const B_STOPPED := EventReport(true, {"B"}, None, None, false, true)

  lemma TouchingCrowd(cell: Position)
    ensures Touching(CrowdStart().snap, cell, 0) ==
              (if cell in {Position(0, 0), Position(0, 1)} then {"A"} else {})
              + (if cell in {Position(0, 1), Position(1, 1)} then {"B"} else {})
              + (if cell in {Position(2, 0), Position(2, 1)} then {"C"} else {})
  {
    hide Hop, RouteTouchesCell;
    HopTouches(Position(0, 0), Position(0, 1), cell);
    HopTouches(Position(0, 1), Position(1, 1), cell);
    HopTouches(Position(2, 0), Position(2, 1), cell);
    assert CrowdStart().snap.Movers() == {"A", "B", "C"};
  }

  /** B cannot be replanned, whatever the table says: its goal is blocked. */
  lemma BCannotBeReplanned(c: Claims)
    ensures var s, floor := CrowdStart().snap, CrowdBlocked().site.floor;
            Replannable(s, ["B"]) && ReplanAll(s, floor, 0, ["B"], c).snap == CrowdBlocked().snap
  {
    hide Hop, Plan;
    var s, floor := CrowdStart().snap, CrowdBlocked().site.floor;
    HopParts(Position(0, 1), Position(1, 1));
    assert ["B"][..0] == [];
    NothingReplanned(s, floor, 0, c);
    NextReplan(s, floor, 0, ["B"], c, 0);
    assert ["B"][..1] == ["B"];
    BGoalIsBlocked(c);
    assert Splice([TimedStep(Position(0, 1), 0)], [TimedStep(Position(0, 1), 0)]) == [TimedStep(Position(0, 1), 0)];
  }

  lemma BGoalIsBlocked(c: Claims)
    ensures var s, floor := CrowdStart().snap, CrowdBlocked().site.floor;
            "B" in s.trace && s.trace["B"] == [TimedStep(Position(0, 1), 0)] && "B" in s.goals
            && Plan(QueryOf(s, floor, 0, "B", c)).Unplanned?
  {
    HopParts(Position(0, 1), Position(1, 1));
    FailureReasons(QueryOf(CrowdStart().snap, CrowdBlocked().site.floor, 0, "B", c));
  }

  lemma FirstBox()
    ensures Reacts(CrowdStart(), CrowdBlocked(), 0, true, BOX_BEFORE_B, B_STOPPED)
  {
    hide Hop, IsFutureTable, ReplanAll, Replannable, Touching, Included, MayAppear, Underway, Site.With;
    var m, m' := CrowdStart(), CrowdBlocked();
    BoxesMayAppear();
    TouchingCrowd(Position(1, 1));
    assert Touching(m.snap, Position(1, 1), 0) == {"B"};
    SortedOne("B");
    var c := FirstTable();
    BCannotBeReplanned(c);
    assert ReplannedAround(m.snap, m'.snap, m.fleet, m'.site.floor, 0, {"B"}, c);
    assert ObstacleHandled(m.snap, m'.snap, m.fleet, m.site, m'.site, "box1", Position(1, 1), 0, true, B_STOPPED, c);
  }

  lemma FirstTable() returns (c: Claims)
    ensures var s := CrowdStart().snap;
            Underway(s.paths, 0) && IsFutureTable(c, s.paths, Included(s, CROWD_FLEET, 0, {"B"}), Pins(s, CROWD_FLEET),
                0, s.horizon)
  {
    hide NobodyInTheWay, Hop, IsFutureTable, Touching, Included, Buildable, StepsClear, Placed, TracesApart, NoPinNames;
    var m := CrowdStart();
    CrowdMayStart();
    TouchingCrowd(Position(1, 1));
    assert Touching(m.snap, Position(1, 1), 0) == {"B"};
    ObstacleTableBuilds(m.snap, CROWD_FLEET, CROWDED_FLOOR, 0, Position(1, 1));
    UnderwayNow(m.snap, CROWD_FLEET, CROWDED_FLOOR, 0, {});
    c := BuildableTable(m.snap, CROWD_FLEET, 0, {"B"});
  }

  lemma BoxesMayAppear()
    ensures MayAppear(CROWD_FLEET, CrowdStart().site, "box1", Position(1, 1))
    ensures MayAppear(CROWD_FLEET, CrowdBlocked().site, "box2", Position(2, 1))
  {
  }

  lemma TouchingBlocked()
    ensures Touching(CrowdBlocked().snap, Position(2, 1), 0) == {"C"}
  {
    hide Hop, RouteTouchesCell;
    HopTouches(Position(0, 0), Position(0, 1), Position(2, 1));
    HopTouches(Position(2, 0), Position(2, 1), Position(2, 1));
    assert CrowdBlocked().snap.Movers() == {"A", "C"};
  }

  lemma BlockedPaths()
    ensures var s := CrowdBlocked().snap;
            && Execution.Timed(s.paths) && s.paths.Keys == {"A", "B", "C"} && s.offline == {} && s.horizon == 5
            && (forall id | id in s.paths :: ArrivalTime(s.paths[id]) <= 1)
            && At(s.paths["A"], 1) == At(s.paths["B"], 1) == Position(0, 1)
  {
    hide Hop;
    HopParts(Position(0, 0), Position(0, 1));
    HopParts(Position(2, 0), Position(2, 1));
  }

  /** In the table around C, A and the stopped B meet. */
  lemma TableAroundC()
    ensures var m := CrowdBlocked(); Foreseeable(m.snap, m.fleet, 0, {"C"}) && !Buildable(m.snap, m.fleet, 0, {"C"})
  {
    hide Hop, PinName, WellTimed, At, CrowdBlocked;
    var m := CrowdBlocked();
    BlockedPaths();
    BlockedFleet();
    ShortNamesUnlikePins(CROWD_FLEET);
    assert Included(m.snap, m.fleet, 0, {"C"}) == {"A", "B"};
    assert !NoMeeting(m.snap.paths["A"], m.snap.paths["B"], 1);
  }

  lemma BlockedFleet()
    ensures CrowdBlocked().fleet == CROWD_FLEET && Pins(CrowdBlocked().snap, CROWD_FLEET) == map[]
  {
  }

  /** The second box has no reaction: the table around C would hold both A, on its
      way to the cell B stands on, and B. */
  lemma SecondBoxUpsets(after: Moment, report: EventReport)
    ensures Upset(CrowdBlocked(), 0, BOX_BEFORE_C) && !Reacts(CrowdBlocked(), after, 0, true, BOX_BEFORE_C, report)
  {
    hide Foreseeable, Buildable, Touching, MayAppear, Reacts;
    BoxesMayAppear();
    TouchingBlocked();
    TableAroundC();
    UpsettingObstacle(CrowdBlocked(), after, 0, BOX_BEFORE_C, report);
  }

  lemma BothBoxesAtOnce()
    ensures EventsAt(InOrderOfTime([BOX_BEFORE_B, BOX_BEFORE_C]), 0) == [BOX_BEFORE_B, BOX_BEFORE_C]
  {
    var both := [BOX_BEFORE_B, BOX_BEFORE_C];
    assert both[..1] == [BOX_BEFORE_B] && [BOX_BEFORE_B][..0] == [];
    assert Sorting.SortBy(Earlier, []) == [];
    assert Sorting.SortBy(Earlier, [BOX_BEFORE_B]) == [BOX_BEFORE_B];
    assert Sorting.SortBy(Earlier, both) == both;
    assert EventsAt([BOX_BEFORE_B], 0) == [BOX_BEFORE_B];
  }

  /** A robot that stops for safety is not kept out of the others' way: from a good
      start, two boxes that fall at once break the run off in its first timestep. */
  lemma SafeStopBreaksTheRun(limit: int) returns (links: seq<Link>, r: RunResult)
    requires limit > 0
    ensures KeptAt(CrowdStart(), 0, true) && ClearAt(CrowdStart(), 0)
    ensures RanAsTold(CrowdStart(), links, true, [BOX_BEFORE_B, BOX_BEFORE_C], limit, r)
    ensures r == Interrupted(0, [B_STOPPED]) && Last(CrowdStart(), links) == CrowdBlocked()
  {
    hide KeptAt, ClearAt, Reacts, Upset, CrowdStart, CrowdBlocked, InOrderOfTime, EventsAt;
    var start, schedule := CrowdStart(), [BOX_BEFORE_B, BOX_BEFORE_C];
    CrowdMayStart();
    FirstBox();
    SecondBoxUpsets(start, B_STOPPED);
    BothBoxesAtOnce();
    Beginning(start, true);
    NoReactions(schedule);
    NextReaction(start, [], schedule, 0, B_STOPPED, start, CrowdBlocked(), true);
    links, r := [Reacted(BOX_BEFORE_B, B_STOPPED, CrowdBlocked())], Interrupted(0, [B_STOPPED]);
    assert [] + links == links;
    assert Script(schedule, 0) + ReactTo(schedule[..1]) == ReactTo(schedule[..1]);
    assert BreaksAt(start, links, schedule, 1);
  }

  // ---------- A robot outside the plan fails under one that has arrived ----------

  const LONG := [TimedStep(Position(1, 0), 0), TimedStep(Position(1, 1), 1), TimedStep(Position(1, 2), 2),
      TimedStep(Position(1, 3), 3)]

  /** A needs one move, B three. D is not part of the plan and stands on A's goal,
      which no check minds. */
  const PAIR := map["A" := Hop(Position(0, 0), Position(0, 1)), "B" := LONG]

  const PAIR_FLOOR := Floor(4, 2, {})

  const PAIR_FLEET := map["A" := Standstill("A", Position(0, 0)), "B" := Standstill("B", Position(1, 0)),
                          "D" := Standstill("D", Position(0, 1))]

  /** D fails once A has come to stand on its cell. */
  const D_FAILS := RobotFails(2, "D")

  lemma LongParts()
    ensures WellTimed(LONG) && StartTime(LONG) == 0 && ArrivalTime(LONG) == 3 && Goal(LONG) == Position(1, 3)
    ensures At(LONG, 0) == Position(1, 0) && At(LONG, 1) == Position(1, 1) && At(LONG, 2) == Position(1, 2)
    ensures forall t :: At(LONG, t).row == 1
  {
  }

  lemma LongDrivable()
    ensures Drivable(PAIR_FLOOR, LONG)
  {
  }

  lemma PairIsTimed()
    ensures Execution.Timed(PAIR) && Execution.NoConflicts(PAIR)
    ensures forall id | id in PAIR :: StartTime(PAIR[id]) == 0 && ArrivalTime(PAIR[id]) <= 3
  {
    hide Hop, WellTimed, At;
    HopParts(Position(0, 0), Position(0, 1));
    LongParts();
    forall a, b, t: int | a in PAIR && b in PAIR && a != b
      ensures NoMeeting(PAIR[a], PAIR[b], t) && NoSwap(PAIR[a], PAIR[b], t)
    {
    }
  }

  ghost function PairStart(): Moment {
    PairIsTimed();
    Moment(Starting(PAIR, 5), PAIR_FLEET, map[], Site(PAIR_FLOOR, {}, {}))
  }

  lemma PairMayStart()
    ensures KeptAt(PairStart(), 0, true) && ClearAt(PairStart(), 0)
  {
    hide Kept, NobodyInTheWay, NoPinNames, Execution.NoConflicts, WellTimed, Drivable, LONG;
    PairIsTimed();
    ShortNamesUnlikePins(PAIR_FLEET);
    HopDrivable(PAIR_FLOOR, Position(0, 0), Position(0, 1));
    LongDrivable();
    PairStands();
    SoundStart(PAIR, PAIR_FLEET, map[], PAIR_FLOOR, 5, true);
  }

  lemma PairStands()
    ensures Execution.AtStarts(PAIR_FLEET, PAIR) && Placed(PAIR_FLOOR, PAIR_FLEET, map[])
  {
  }

  /** Everybody has the charge for `n` moves. */
  ghost predicate HasCharge(fleet: Fleet, n: real) {
    forall id | id in fleet :: fleet[id].drain == 1.0 && fleet[id].battery >= n
  }

  /** Both are still under way, after `now` steps; D has not moved. */
  ghost predicate PairDriving(m: Moment, now: int) {
    && KeptAt(m, now, true) && m.snap.paths == PAIR && m.snap.offline == {} && m.snap.safeStopped == {}
    && m.snap.goals == map["A" := Position(0, 1), "B" := Position(1, 3)] && m.site == Site(PAIR_FLOOR, {}, {})
        && m.tasks == map[]
    && m.fleet.Keys == {"A", "B", "D"} && m.fleet["D"].position == Position(0, 1) && m.fleet["D"].assignedTask.None?
  }

  ghost function Onward(m: Moment, now: int): Moment
    requires Execution.Timed(m.snap.paths) && Tallied(m.snap)
  {
    Moment(Advanced(m.snap, now + 1), DriveAll(m.fleet, StepIntents(m.snap, now + 1)), m.tasks, m.site)
  }

  lemma PairParts(m: Moment, now: int)
    requires 0 <= now <= 2 && PairDriving(m, now)
    ensures Execution.Timed(m.snap.paths) && Tallied(m.snap) && m.snap.Movers() == {"A", "B"}
    ensures m.fleet["B"].position == LONG[now].position
             && m.fleet["A"].position == At(Hop(Position(0, 0), Position(0, 1)), now)
    ensures !EverybodyHome(m.snap, m.fleet)
  {
    hide Hop, At, WellTimed, TracesApart, Placed, NoPinNames, StepsClear, Sound;
    KeptParts(m, now, true);
    SoundMover(m.snap, m.fleet, PAIR_FLOOR, now, "A");
    SoundMover(m.snap, m.fleet, PAIR_FLOOR, now, "B");
    LongParts();
  }

  lemma ChargeLeft(fleet: Fleet, intents: Intents, n: real)
    requires HasCharge(fleet, n)
    ensures HasCharge(DriveAll(fleet, intents), n - 1.0)
    ensures forall id | id in fleet && id !in intents :: DriveAll(fleet, intents)[id] == fleet[id]
    ensures DriveAll(fleet, intents).Keys == fleet.Keys
  {
  }

  lemma PairStep(m: Moment, now: int, n: real)
    requires 0 <= now <= 1 && PairDriving(m, now) && HasCharge(m.fleet, n) && n >= 1.0
    ensures Execution.Timed(m.snap.paths) && Tallied(m.snap)
    ensures Steps(m, Onward(m, now), now) && PairDriving(Onward(m, now), now + 1)
             && HasCharge(Onward(m, now).fleet, n - 1.0)
  {
    hide At, WellTimed, KeptAt, JointStepOk, StepIntents, DriveAll, EverybodyHome, Advanced, LONG, Tallied;
    PairParts(m, now);
    NobodyPinned(m.snap, m.fleet, now);
    StepIsTakenExactly(m, now);
    JointStepKeeps(m, Onward(m, now), now, true);
    ChargeLeft(m.fleet, StepIntents(m.snap, now + 1), n);
    StepIntentsAt(m.snap, now + 1);
    AdvancedParts(m.snap, now + 1);
  }

  lemma NobodyPinned(s: Snap, fleet: Fleet, now: int)
    requires s.offline == {}
    ensures ArrivedClear(s, fleet, now)
  {
  }

  lemma AdvancedParts(s: Snap, t: int)
    requires Execution.Timed(s.paths) && Tallied(s)
    ensures var s' := Advanced(s, t);
            && s'.paths == s.paths && s'.goals == s.goals && s'.offline == s.offline && s'.safeStopped == s.safeStopped
                && s'.horizon == s.horizon
  {
  }

  lemma PairBegins()
    ensures PairDriving(PairStart(), 0) && HasCharge(PairStart().fleet, 100.0)
  {
    hide KeptAt, Hop, LONG, WellTimed;
    PairMayStart();
    PairIsTimed();
    PairGoals();
  }

  lemma PairGoals()
    ensures Execution.Timed(PAIR) && Starting(PAIR, 5).goals == map["A" := Position(0, 1), "B" := Position(1, 3)]
  {
    hide WellTimed;
    PairIsTimed();
  }

  /** After the failure: D is offline, and nothing else has changed. */
  ghost function DLost(m: Moment): Moment
    requires "D" in m.fleet
  {
    Moment(AfterLoss(m.snap, "D"), FleetOffline(m.fleet, "D"), m.tasks, m.site)
  }

  const D_LOST := EventReport(true, {"D"}, None, None, true, false)

  lemma NobodyToReplan(m: Moment)
    requires PairDriving(m, 2)
    ensures Touching(AfterLoss(m.snap, "D"), Position(0, 1), 2) == {}
  {
    hide KeptAt;
  }

  /** The loss of D is handled with success: nobody needs to be replanned. */
  lemma DIsHandled(m: Moment)
    requires PairDriving(m, 2)
    ensures Reacts(m, DLost(m), 2, true, D_FAILS, D_LOST)
  {
    hide KeptAt, Touching, SpareHandled, AfterLoss;
    var c := Claims(map[], map[]);
    NobodyToReplan(m);
    assert RoutesHandled(DLost(m).snap, DLost(m).snap, DLost(m).fleet, m.site.floor, 2, true, {}, c);
    OfflineHoldsTheSame(m.fleet, m.tasks, "D");
    assert TaskHandled(DLost(m).snap, DLost(m).snap, DLost(m).fleet, m.tasks, DLost(m).fleet, m.tasks, m.site.floor, 2,
        "D", None, c);
    SameStops(m.snap, "D");
    assert Loses(m, DLost(m), 2, true, "D", D_LOST, DLost(m).snap, c, c);
  }

  lemma SameStops(s: Snap, f: string)
    ensures AfterLoss(s, f).safeStopped == s.safeStopped
  {
  }

  /** Where D was lost A has arrived: it may not even stay where it is. */
  lemma DIsInTheWay(m: Moment)
    requires PairDriving(m, 2)
    ensures var m' := DLost(m);
            && KeptAt(m', 2, true) && !EverybodyHome(m'.snap, m'.fleet)
            && !MayStep(m', 2) && StoppedFor(m', 2, OntoFailedRobot)
  {
    hide KeptAt, WellTimed, At, Hop, LONG, Reacts, JointStepOk, StepIntents, EverybodyHome;
    var m' := DLost(m);
    DIsHandled(m);
    ReactionKeeps(m, m', 2, true, D_FAILS, D_LOST);
    StepIsTakenExactly(m', 2);
    PairParts(m, 2);
    DLostParts(m);
    HopParts(Position(0, 0), Position(0, 1));
    StepIntentsAt(m'.snap, 3);
    assert "A" in m'.snap.Movers() && "D" in Pins(m'.snap, m'.fleet);
    assert StepIntents(m'.snap, 3)["A"].to == Pins(m'.snap, m'.fleet)["D"];
  }

  lemma DLostParts(m: Moment)
    requires PairDriving(m, 2)
    ensures var m' := DLost(m);
            && m'.snap.paths == PAIR && m'.snap.offline == {"D"} && m'.snap.Movers() == {"A", "B"}
            && "A" in m'.fleet && m'.fleet["A"].position == m.fleet["A"].position && "D" in Pins(m'.snap, m'.fleet)
            && Pins(m'.snap, m'.fleet)["D"] == Position(0, 1)
    ensures EverybodyHome(DLost(m).snap, DLost(m).fleet) ==> EverybodyHome(m.snap, m.fleet)
  {
    hide KeptAt, Hop, LONG;
  }

  lemma OneLateEvent()
    ensures ReactionsAt([D_FAILS], 0) == [] && ReactionsAt([D_FAILS], 1) == []
             && ReactionsAt([D_FAILS], 2) == [React(D_FAILS)]
    ensures Script([D_FAILS], 2) == [Step, Step]
    ensures EventsAt(InOrderOfTime([D_FAILS]), 2) == [D_FAILS]
  {
    assert [D_FAILS][..0] == [];
    assert Sorting.SortBy(Earlier, []) == [];
    assert InOrderOfTime([D_FAILS]) == [D_FAILS];
    assert EventsAt([D_FAILS], 0) == [] && EventsAt([D_FAILS], 1) == [] && EventsAt([D_FAILS], 2) == [D_FAILS];
    assert Script([D_FAILS], 1) == [Step];
  }

  /** A failure outside the plan, under a robot that has arrived: the recovery
      reports success, and the run stops at the next joint step. */
  lemma ParkedOnAFailedRobot(limit: int) returns (links: seq<Link>, r: RunResult)
    requires limit > 2
    ensures KeptAt(PairStart(), 0, true) && ClearAt(PairStart(), 0)
    ensures RanAsTold(PairStart(), links, true, [D_FAILS], limit, r)
    ensures r == Finished(2, [D_LOST], Some(OntoFailedRobot), 0, 0) && AllFine(r.reports)
  {
    hide KeptAt, ClearAt, Reacts, PairDriving, Steps, HasCharge, ReactionsAt, InOrderOfTime, EventsAt, PairStart,
         Onward, DLost, MayStep, EverybodyHome, StoppedFor, Chain, Last, Clock, Reports, Deeds, Reacting;
    var start, schedule := PairStart(), [D_FAILS];
    PairMayStart();
    PairBegins();
    PairStep(start, 0, 100.0);
    var m1 := Onward(start, 0);
    PairStep(m1, 1, 99.0);
    var m2 := Onward(m1, 1);
    PairHasD(m2);
    var m3 := DLost(m2);
    DIsHandled(m2);
    DIsInTheWay(m2);
    links := PairLinks(start, m1, m2, m3);
    EndsReacting(start, links, true, schedule, 2, limit, [D_LOST], m3, Some(OntoFailedRobot));
    r := Finished(2, [D_LOST], Some(OntoFailedRobot), 0, 0);
  }

  lemma PairHasD(m: Moment)
    requires PairDriving(m, 2)
    ensures "D" in m.fleet
  {
  }

  lemma PairLinks(start: Moment, m1: Moment, m2: Moment, m3: Moment) returns (links: seq<Link>)
    requires Steps(start, m1, 0) && Steps(m1, m2, 1) && Reacts(m2, m3, 2, true, D_FAILS, D_LOST)
    ensures Reacting(start, links, true, [D_FAILS], 2, [D_LOST], m3)
  {
    hide Steps, Reacts, Chain, Last, Clock, Reports, Deeds, ReactionsAt, InOrderOfTime, EventsAt;
    var schedule := [D_FAILS];
    OneLateEvent();
    Beginning(start, true);
    NextStepTaken(start, [], start, m1, true);
    NextStepTaken(start, [] + [Stepped(m1)], m1, m2, true);
    var driven := [] + [Stepped(m1)] + [Stepped(m2)];
    NextReaction(start, driven, schedule, 0, D_LOST, m2, m3, true);
    links := driven + [Reacted(D_FAILS, D_LOST, m3)];
  }
}
