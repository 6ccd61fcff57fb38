/** A whole resilient run: what is done in which order, what it keeps, and how it
    can end. */
module Runs {
  import opened Floors
  import opened TimedPaths
  import opened Reservations
  import opened Simulation
  import opened Driving
  import opened Names
  import opened Replanning
  import opened Resilience
  import opened TaskRecovery
  import opened Disruptions
  import opened Schedule
  import Execution
  import Conflicts
  import Sorting

  /** Everything a run touches, at one moment. */
  datatype Moment = Moment(snap: Snap, fleet: Fleet, tasks: Tasks, site: Site)

  // ---------- One thing a run does ----------

  /** The reaction to one event. */
  ghost predicate Reacts(m: Moment, m': Moment, now: int, enabled: bool, e: Event, report: EventReport) {
    if e.ObstacleAppears? then
      && m'.fleet == m.fleet && m'.tasks == m.tasks
      && exists c :: ObstacleHandled(m.snap, m'.snap, m.fleet, m.site, m'.site, e.obstacleId, e.cell, now, enabled,
          report, c)
    else if e.robot !in m.fleet then m' == m && report == EventReport(false, {}, None, None, false, false)
    else m'.site == m.site && exists s2, c1, c2 :: Loses(m, m', now, enabled, e.robot, report, s2, c1, c2)
  }

  ghost predicate Loses(m: Moment, m': Moment, now: int, enabled: bool, f: string, report: EventReport, s2: Snap,
          c1: Claims, c2: Claims)
  {
    && f in m.fleet
    && FailureHandled(m.snap, m'.snap, m.fleet, m.tasks, m'.fleet, m'.tasks, m.site.floor, now, f, enabled,
        report.reassignedTo, s2, c1, c2)
    && FailureReported(m.snap, m'.snap, s2, m.fleet, m.tasks, now, f, enabled, report)
  }

  /** A table the reaction needs cannot be built. */
  ghost predicate Upset(m: Moment, now: int, e: Event) {
    if e.ObstacleAppears? then
      && MayAppear(m.fleet, m.site, e.obstacleId, e.cell)
      && Touching(m.snap, e.cell, now) != {} && !Buildable(m.snap, m.fleet, now, Touching(m.snap, e.cell, now))
    else
      && e.robot in m.fleet
      && LossUpset(AfterLoss(m.snap, e.robot), FleetOffline(m.fleet, e.robot), m.tasks, m.site.floor, now, e.robot,
          m.fleet[e.robot].position)
  }

  /** Is everybody under way on its goal? */
  ghost predicate EverybodyHome(s: Snap, fleet: Fleet) {
    forall id | id in s.Movers() && id in fleet && id in s.goals :: fleet[id].position == s.goals[id]
  }

  ghost predicate MayStep(m: Moment, now: int) {
    && Execution.Timed(m.snap.paths)
    && JointStepOk(m.fleet, m.site.floor, StepIntents(m.snap, now + 1), Pins(m.snap, m.fleet).Values)
  }

  /** One joint step, taken only while somebody is still to arrive. */
  ghost predicate Steps(m: Moment, m': Moment, now: int) {
    && !EverybodyHome(m.snap, m.fleet) && MayStep(m, now) && Tallied(m.snap)
    && m' == Moment(Advanced(m.snap, now + 1), DriveAll(m.fleet, StepIntents(m.snap, now + 1)), m.tasks, m.site)
  }

  // ---------- One thing after the other ----------

  datatype Link = Reacted(event: Event, report: EventReport, after: Moment) | Stepped(after: Moment)

  datatype Deed = React(event: Event) | Step

  /** The number of joint steps taken is the time. */
  function Clock(links: seq<Link>): nat {
    if links == [] then 0 else Clock(links[..|links| - 1]) + if links[|links| - 1].Stepped? then 1 else 0
  }

  function Last(start: Moment, links: seq<Link>): Moment {
    if links == [] then start else links[|links| - 1].after
  }

  function Reports(links: seq<Link>): seq<EventReport> {
    if links == [] then []
    else
      var link := links[|links| - 1];
      Reports(links[..|links| - 1]) + if link.Reacted? then [link.report] else []
  }

  function DeedOf(link: Link): Deed {
    if link.Reacted? then React(link.event) else Step
  }

  function Deeds(links: seq<Link>): seq<Deed> {
    seq(|links|, i requires 0 <= i < |links| => DeedOf(links[i]))
  }

  ghost predicate Follows(m: Moment, link: Link, now: int, enabled: bool) {
    if link.Reacted? then Reacts(m, link.after, now, enabled, link.event, link.report) else Steps(m, link.after, now)
  }

  /** Every link follows from the moment before it. */
  ghost predicate Chain(start: Moment, links: seq<Link>, enabled: bool) {
    links == [] ||
    var before := links[..|links| - 1];
    Chain(start, before, enabled) && Follows(Last(start, before), links[|links| - 1], Clock(before), enabled)
  }

  lemma Longer(start: Moment, links: seq<Link>, link: Link, enabled: bool)
    requires Chain(start, links, enabled) && Follows(Last(start, links), link, Clock(links), enabled)
    ensures var longer := links + [link];
            && Chain(start, longer, enabled) && Last(start, longer) == link.after
            && Clock(longer) == Clock(links) + (if link.Stepped? then 1 else 0)
            && Reports(longer) == Reports(links) + (if link.Reacted? then [link.report] else [])
            && Deeds(longer) == Deeds(links) + [DeedOf(link)]
  {
    hide Follows;
    assert (links + [link])[..|links|] == links;
  }

  lemma Beginning(start: Moment, enabled: bool)
    ensures Chain(start, [], enabled) && Last(start, []) == start && Clock([]) == 0 && Reports([]) == []
             && Deeds([]) == []
  {
  }

  // ---------- What the schedule asks for ----------

  function ReactTo(events: seq<Event>): seq<Deed> {
    seq(|events|, i requires 0 <= i < |events| => React(events[i]))
  }

  function ReactionsAt(schedule: seq<Event>, t: int): seq<Deed> {
    ReactTo(EventsAt(InOrderOfTime(schedule), t))
  }

  lemma NoReactions(events: seq<Event>)
    ensures ReactTo(events[..0]) == []
  {
  }

  /** One more event reacted to. */
  lemma NextReaction(start: Moment, links: seq<Link>, events: seq<Event>, k: nat, report: EventReport, m: Moment,
          m': Moment, enabled: bool)
    requires Chain(start, links, enabled) && Last(start, links) == m && k < |events|
    requires Reacts(m, m', Clock(links), enabled, events[k], report)
    ensures var longer := links + [Reacted(events[k], report, m')];
            && Chain(start, longer, enabled) && Last(start, longer) == m' && Clock(longer) == Clock(links)
            && Reports(longer) == Reports(links) + [report] && Deeds(longer) == Deeds(links) + [React(events[k])]
    ensures ReactTo(events[..k + 1]) == ReactTo(events[..k]) + [React(events[k])]
  {
    hide Reacts, Chain, Last, Clock, Reports, Deeds;
    Longer(start, links, Reacted(events[k], report, m'), enabled);
  }

  /** One more joint step taken. */
  lemma NextStepTaken(start: Moment, links: seq<Link>, m: Moment, m': Moment, enabled: bool)
    requires Chain(start, links, enabled) && Last(start, links) == m && Steps(m, m', Clock(links))
    ensures var longer := links + [Stepped(m')];
            && Chain(start, longer, enabled) && Last(start, longer) == m' && Clock(longer) == Clock(links) + 1
            && Reports(longer) == Reports(links) && Deeds(longer) == Deeds(links) + [Step]
  {
    hide Steps, Chain, Last, Clock, Reports, Deeds;
    Longer(start, links, Stepped(m'), enabled);
  }

  /** The first `n` timesteps: the events of each, in order, then one joint step. */
  function Script(schedule: seq<Event>, n: nat): seq<Deed> {
    if n == 0 then [] else Script(schedule, n - 1) + ReactionsAt(schedule, n - 1) + [Step]
  }

  lemma InSchedule(schedule: seq<Event>, e: Event, t: int)
    ensures React(e) in ReactionsAt(schedule, t) <==> e in schedule && e.timestep == t
  {
    Sorting.SortKeeps(Earlier, schedule);
    var events := EventsAt(InOrderOfTime(schedule), t);
    if e in events {
      var i :| 0 <= i < |events| && events[i] == e;
      assert ReactTo(events)[i] == React(e);
    }
  }

  /** No scheduled event is left out and none is made up. */
  lemma {:induction false} ScriptIsSchedule(schedule: seq<Event>, n: nat, e: Event)
    ensures React(e) in Script(schedule, n) <==> e in schedule && 0 <= e.timestep < n
  {
    hide ReactionsAt;
    if n > 0 {
      ScriptIsSchedule(schedule, n - 1, e);
      InSchedule(schedule, e, n - 1);
    }
  }

  // ---------- What every run keeps ----------

  ghost predicate KeptAt(m: Moment, now: int, enabled: bool) {
    Kept(m.snap, m.fleet, m.tasks, m.site.floor, now, enabled)
  }

  ghost predicate ClearAt(m: Moment, now: int) {
    NobodyInTheWay(m.snap, m.fleet, now)
  }

  /** What one thing done keeps of what came before: nobody is forgotten, failed
      robots stay failed, obstacles stay, and custody is kept. */
  ghost predicate Preserved(m: Moment, m': Moment) {
    && m'.fleet.Keys == m.fleet.Keys && m.snap.paths.Keys <= m'.snap.paths.Keys
    && m'.snap.horizon == m.snap.horizon && m.snap.offline <= m'.snap.offline
        && m.site.floor.blocked <= m'.site.floor.blocked
    && (Custody(m.fleet, m.tasks) ==> Custody(m'.fleet, m'.tasks))
  }

  lemma PreservedOn(a: Moment, b: Moment, c: Moment)
    requires Preserved(a, b) && Preserved(b, c)
    ensures Preserved(a, c)
  {
    hide Custody;
  }

  ghost predicate AloneAt(m: Moment, now: int, e: Event) {
    e.RobotFails? && e.robot in m.fleet ==> StandsAlone(m.snap, m.fleet, now, e.robot)
  }

  /** The reaction to any event keeps the run; and if it succeeds, and a robot that
      failed stood alone, it leaves nobody in the way. */
  lemma ReactionKeeps(m: Moment, m': Moment, now: int, enabled: bool, e: Event, report: EventReport)
    requires KeptAt(m, now, enabled) && Reacts(m, m', now, enabled, e, report)
    ensures KeptAt(m', now, enabled) && Preserved(m, m')
    ensures enabled && ClearAt(m, now) && AloneAt(m, now, e) && (report.applied ==> report.success) ==> ClearAt(m', now)
    ensures e.RobotFails? && e.robot in m.fleet ==> e.robot in m'.snap.offline
    ensures e.ObstacleAppears? && report.applied ==> e.cell in m'.site.floor.blocked
  {
    hide Kept, NobodyInTheWay, StandsAlone, ObstacleHandled, FailureHandled, Custody, FailureReported;
    if e.ObstacleAppears? {
      ObstacleReactionKeeps(m, m', now, enabled, e, report);
    } else if e.robot in m.fleet {
      FailureReactionKeeps(m, m', now, enabled, e, report);
    }
  }

  lemma ObstacleReactionKeeps(m: Moment, m': Moment, now: int, enabled: bool, e: Event, report: EventReport)
    requires KeptAt(m, now, enabled) && Reacts(m, m', now, enabled, e, report) && e.ObstacleAppears?
    ensures KeptAt(m', now, enabled) && Preserved(m, m')
    ensures enabled && ClearAt(m, now) && (report.applied ==> report.success) ==> ClearAt(m', now)
    ensures report.applied ==> e.cell in m'.site.floor.blocked
  {
    hide Kept, NobodyInTheWay, Custody, RoutesHandled, MayAppear;
    var c :| ObstacleHandled(m.snap, m'.snap, m.fleet, m.site, m'.site, e.obstacleId, e.cell, now, enabled, report, c);
    ObstacleKeeps(m.snap, m'.snap, m.fleet, m.tasks, m.site, m'.site, e.obstacleId, e.cell, now, enabled, report, c);
  }

  lemma FailureReactionKeeps(m: Moment, m': Moment, now: int, enabled: bool, e: Event, report: EventReport)
    requires KeptAt(m, now, enabled) && Reacts(m, m', now, enabled, e, report) && e.RobotFails? && e.robot in m.fleet
    ensures KeptAt(m', now, enabled) && Preserved(m, m') && e.robot in m'.snap.offline
    ensures enabled && ClearAt(m, now) && AloneAt(m, now, e) && report.success ==> ClearAt(m', now)
    ensures report.applied
  {
    hide Kept, NobodyInTheWay, Custody, StandsAlone, FailureHandled;
    var s2, c1, c2 :| Loses(m, m', now, enabled, e.robot, report, s2, c1, c2);
    FailureKeeps(m.snap, m'.snap, m.fleet, m.tasks, m'.fleet, m'.tasks, m.site.floor, now, e.robot, enabled,
        report.reassignedTo, s2, c1, c2);
  }

  lemma JointStepKeeps(m: Moment, m': Moment, now: int, enabled: bool)
    requires KeptAt(m, now, enabled) && Steps(m, m', now)
    ensures KeptAt(m', now + 1, enabled) && Preserved(m, m')
    ensures enabled && ClearAt(m, now) ==> ClearAt(m', now + 1)
  {
    hide Kept, NobodyInTheWay, Custody, JointStepOk, DriveAll, StepIntents, EverybodyHome;
    StepKeeps(m.snap, m.fleet, m.tasks, m.site.floor, now, enabled);
  }

  lemma LinkKeeps(m: Moment, link: Link, now: int, enabled: bool)
    requires KeptAt(m, now, enabled) && Follows(m, link, now, enabled)
    ensures KeptAt(link.after, if link.Stepped? then now + 1 else now, enabled) && Preserved(m, link.after)
  {
    hide KeptAt, Reacts, Steps, Preserved;
    if link.Reacted? {
      ReactionKeeps(m, link.after, now, enabled, link.event, link.report);
    } else {
      JointStepKeeps(m, link.after, now, enabled);
    }
  }

  /** At every moment of every run everything relied on holds. */
  lemma {:induction false} ChainKeeps(start: Moment, links: seq<Link>, enabled: bool)
    requires KeptAt(start, 0, enabled) && Chain(start, links, enabled)
    ensures KeptAt(Last(start, links), Clock(links), enabled) && Preserved(start, Last(start, links))
  {
    hide KeptAt, Follows, Preserved;
    NothingForgotten(start);
    if links != [] {
      var n := |links| - 1;
      ChainKeeps(start, links[..n], enabled);
      LinkKeeps(Last(start, links[..n]), links[n], Clock(links[..n]), enabled);
      PreservedOn(start, Last(start, links[..n]), links[n].after);
    }
  }

  lemma NothingForgotten(m: Moment)
    ensures Preserved(m, m)
  {
  }

  /** A known robot that has failed is on record as failed ever after, and an
      obstacle that was placed stays. */
  lemma {:induction false} EventsTakeEffect(start: Moment, links: seq<Link>, enabled: bool, link: Link)
    requires KeptAt(start, 0, enabled) && Chain(start, links, enabled) && link in links && link.Reacted?
    ensures var end := Last(start, links);
            && (link.event.RobotFails? && link.event.robot in start.fleet ==> link.event.robot in end.snap.offline)
            && (link.event.ObstacleAppears? && link.report.applied ==> link.event.cell in end.site.floor.blocked)
  {
    hide KeptAt, Follows, Preserved;
    var n := |links| - 1;
    var before, last := links[..n], links[n];
    ChainKeeps(start, before, enabled);
    NamesPreserved(start, Last(start, before));
    if link in before {
      EventsTakeEffect(start, before, enabled, link);
      LinkKeeps(Last(start, before), last, Clock(before), enabled);
      EffectsPreserved(Last(start, before), last.after);
    } else {
      assert links == before + [last];
      LinkReacts(Last(start, before), last, Clock(before), enabled);
      ReactionKeeps(Last(start, before), last.after, Clock(before), enabled, last.event, last.report);
    }
  }

  lemma NamesPreserved(m: Moment, m': Moment)
    requires Preserved(m, m')
    ensures m'.fleet.Keys == m.fleet.Keys
  {
  }

  lemma EffectsPreserved(m: Moment, m': Moment)
    requires Preserved(m, m')
    ensures m.snap.offline <= m'.snap.offline && m.site.floor.blocked <= m'.site.floor.blocked
  {
  }

  lemma LinkReacts(m: Moment, link: Link, now: int, enabled: bool)
    requires Follows(m, link, now, enabled) && link.Reacted?
    ensures Reacts(m, link.after, now, enabled, link.event, link.report)
  {
  }

  // ---------- Calm runs ----------

  predicate AllFine(reports: seq<EventReport>) {
    forall r | r in reports :: r.applied ==> r.success
  }

  /** Every robot that failed stood alone when it did. */
  ghost predicate AllAlone(start: Moment, links: seq<Link>) {
    links == [] ||
    var before := links[..|links| - 1];
    AllAlone(start, before)
    && (links[|links| - 1].Reacted? ==> AloneAt(Last(start, before), Clock(before), links[|links| - 1].event))
  }

  ghost predicate PlannedAt(m: Moment, e: Event) {
    e.RobotFails? && e.robot in m.fleet ==> e.robot in m.snap.paths
  }

  /** Every robot that failed had a route then: it was planned from the start, or
      had joined as a spare. */
  ghost predicate OnlyPlannedFail(start: Moment, links: seq<Link>) {
    links == [] ||
    var before := links[..|links| - 1];
    OnlyPlannedFail(start, before)
    && (links[|links| - 1].Reacted? ==> PlannedAt(Last(start, before), links[|links| - 1].event))
  }

  lemma FineBefore(reports: seq<EventReport>, more: seq<EventReport>)
    requires AllFine(reports + more)
    ensures AllFine(reports) && AllFine(more)
  {
    assert forall r | r in reports :: r in reports + more;
    assert forall r | r in more :: r in reports + more;
  }

  lemma LinkStaysCalm(m: Moment, link: Link, now: int)
    requires KeptAt(m, now, true) && Follows(m, link, now, true) && ClearAt(m, now)
    requires link.Reacted? ==> AloneAt(m, now, link.event) && AllFine([link.report])
    ensures ClearAt(link.after, if link.Stepped? then now + 1 else now)
  {
    hide KeptAt, Reacts, Steps, ClearAt, AloneAt;
    if link.Reacted? {
      assert link.report in [link.report];
      ReactionKeeps(m, link.after, now, true, link.event, link.report);
    } else {
      JointStepKeeps(m, link.after, now, true);
    }
  }

  /** While every recovery succeeds and whoever fails stands alone, nobody has
      stopped for safety and failed robots are in nobody's way. */
  lemma {:induction false} ChainStaysCalm(start: Moment, links: seq<Link>)
    requires KeptAt(start, 0, true) && ClearAt(start, 0) && Chain(start, links, true)
    requires AllFine(Reports(links)) && AllAlone(start, links)
    ensures ClearAt(Last(start, links), Clock(links))
  {
    hide KeptAt, Follows, ClearAt, AloneAt, AllFine;
    if links != [] {
      var n := |links| - 1;
      FineBefore(Reports(links[..n]), if links[n].Reacted? then [links[n].report] else []);
      ChainStaysCalm(start, links[..n]);
      ChainKeeps(start, links[..n], true);
      LinkStaysCalm(Last(start, links[..n]), links[n], Clock(links[..n]));
    }
  }

  /** As long as every recovery succeeds a robot with a route always stands alone. */
  lemma {:induction false} PlannedFailuresAreAlone(start: Moment, links: seq<Link>)
    requires KeptAt(start, 0, true) && ClearAt(start, 0) && Chain(start, links, true)
    requires AllFine(Reports(links)) && OnlyPlannedFail(start, links)
    ensures AllAlone(start, links)
  {
    hide KeptAt, Follows, ClearAt, AloneAt, AllFine, PlannedAt;
    if links != [] {
      var n := |links| - 1;
      FineBefore(Reports(links[..n]), if links[n].Reacted? then [links[n].report] else []);
      PlannedFailuresAreAlone(start, links[..n]);
      ChainStaysCalm(start, links[..n]);
      ChainKeeps(start, links[..n], true);
      if links[n].Reacted? {
        PlannedIsAlone(Last(start, links[..n]), Clock(links[..n]), links[n].event);
      }
    }
  }

  lemma PlannedIsAlone(m: Moment, now: int, e: Event)
    requires KeptAt(m, now, true) && ClearAt(m, now) && PlannedAt(m, e)
    ensures AloneAt(m, now, e)
  {
    hide Sound, StepsClear, NoPinNames, Placed, TracesApart, NobodyInTheWay, StandsAlone;
    if e.RobotFails? && e.robot in m.fleet {
      PlannedStandsAlone(m.snap, m.fleet, m.site.floor, now, e.robot);
    }
  }

  /** Who was planned from the start has a route ever after. */
  lemma StaysPlanned(start: Moment, m: Moment, e: Event)
    requires Preserved(start, m) && PlannedAt(start, e)
    ensures PlannedAt(m, e)
  {
    hide Custody;
  }

  lemma {:induction false} PlannedFromTheStart(start: Moment, links: seq<Link>, enabled: bool)
    requires KeptAt(start, 0, enabled) && Chain(start, links, enabled)
    requires forall link | link in links && link.Reacted? :: PlannedAt(start, link.event)
    ensures OnlyPlannedFail(start, links)
  {
    hide KeptAt, Follows, PlannedAt, Preserved;
    if links != [] {
      var n := |links| - 1;
      PlannedFromTheStart(start, links[..n], enabled);
      ChainKeeps(start, links[..n], enabled);
      assert links[n] in links;
      if links[n].Reacted? {
        StaysPlanned(start, Last(start, links[..n]), links[n].event);
      }
    }
  }

  /** A calm moment is never upset: with nobody in the way, the failing robot
      included, every table the reaction needs can be built. */
  lemma CalmIsNeverUpset(m: Moment, now: int, e: Event)
    requires KeptAt(m, now, true) && ClearAt(m, now) && AloneAt(m, now, e)
    ensures !Upset(m, now, e)
  {
    hide Sound, StepsClear, NoPinNames, Placed, TracesApart, NobodyInTheWay, StandsAlone, Touching, Buildable,
         LossUpset, AfterLoss, FleetOffline;
    if e.ObstacleAppears? {
      if MayAppear(m.fleet, m.site, e.obstacleId, e.cell) {
        ObstacleTableBuilds(m.snap, m.fleet, m.site.floor, now, e.cell);
      }
    } else if e.robot in m.fleet {
      AloneNeverUpsets(m.snap, m.fleet, m.tasks, m.site.floor, now, e.robot);
    }
  }

  /** No reaction gets around a table that cannot be built: while the routes in it
      are in time, an upsetting obstacle has no reaction. */
  lemma UpsettingObstacle(m: Moment, m': Moment, now: int, e: Event, report: EventReport)
    requires e.ObstacleAppears? && Upset(m, now, e) && Foreseeable(m.snap, m.fleet, now, Touching(m.snap, e.cell, now))
    ensures !Reacts(m, m', now, true, e, report)
  {
    hide Foreseeable, Buildable, Touching, MayAppear, IsFutureTable, ReplanAll, Replannable, Included;
    if Reacts(m, m', now, true, e, report) {
      var c :| ObstacleHandled(m.snap, m'.snap, m.fleet, m.site, m'.site, e.obstacleId, e.cell, now, true, report, c);
      ForeseeableIsTimed(m.snap, m.fleet, now, Touching(m.snap, e.cell, now));
      BuiltTable(m.snap, m.fleet, now, Touching(m.snap, e.cell, now), c);
    }
  }

  lemma ForeseeableIsTimed(s: Snap, fleet: Fleet, now: int, exclude: set<string>)
    requires Foreseeable(s, fleet, now, exclude)
    ensures Execution.Timed(s.paths)
  {
  }

  // ---------- How a run ends ----------

  datatype RunResult =
    | NothingToDrive
    | CheckCrashed
    | PlanRefused(problems: seq<Conflicts.Problem>)
    | UnknownRobotPlanned(robot: string)
    | NotAtItsStart(robot: string)
    | Interrupted(now: int, reports: seq<EventReport>)
    | Finished(now: int, reports: seq<EventReport>, stop: Option<StopReason>, vertexConflicts: nat, edgeConflicts: nat)
  {
    predicate Began() {
      Finished? || Interrupted?
    }
  }

  /** The run did what the schedule asks for, timestep by timestep, until it was
      told to stop: by a table that could not be built, by everybody being home, by
      a joint step that may not be taken, or by the limit. */
  ghost predicate RanAsTold(start: Moment, links: seq<Link>, enabled: bool, schedule: seq<Event>, limit: int,
          r: RunResult)
  {
    && Chain(start, links, enabled) && r.Began() && r.now == Clock(links) && r.reports == Reports(links)
    && if r.Interrupted? then BrokenOff(start, links, enabled, schedule, limit)
        else Ended(start, links, schedule, limit, r)
  }

  /** `now` timesteps have been gone through as the schedule asks for. */
  ghost predicate OnSchedule(start: Moment, links: seq<Link>, enabled: bool, schedule: seq<Event>, now: int,
          reports: seq<EventReport>, m: Moment)
  {
    && Chain(start, links, enabled) && Last(start, links) == m && Reports(links) == reports
    && Clock(links) == now && Deeds(links) == Script(schedule, Clock(links))
  }

  /** So they have, and the events of the next timestep have been reacted to. */
  ghost predicate Reacting(start: Moment, links: seq<Link>, enabled: bool, schedule: seq<Event>, now: int,
          reports: seq<EventReport>, m: Moment)
  {
    && Chain(start, links, enabled) && Last(start, links) == m && Reports(links) == reports
    && Clock(links) == now && Deeds(links) == Script(schedule, Clock(links)) + ReactionsAt(schedule, now)
  }

  lemma TimestepDone(start: Moment, links: seq<Link>, enabled: bool, schedule: seq<Event>, now: int,
          reports: seq<EventReport>, m: Moment, m': Moment)
    requires Reacting(start, links, enabled, schedule, now, reports, m) && Steps(m, m', now)
    ensures OnSchedule(start, links + [Stepped(m')], enabled, schedule, now + 1, reports, m')
  {
    hide Steps, Chain, Last, Reports, Deeds, ReactionsAt, Clock;
    NextStepTaken(start, links, m, m', enabled);
  }

  lemma OnScheduleParts(start: Moment, links: seq<Link>, enabled: bool, schedule: seq<Event>, now: int,
          reports: seq<EventReport>, m: Moment)
    requires KeptAt(start, 0, enabled)
    requires OnSchedule(start, links, enabled, schedule, now, reports, m)
             || Reacting(start, links, enabled, schedule, now, reports, m)
    ensures now >= 0 && KeptAt(m, now, enabled)
  {
    hide KeptAt, Chain, Last, Reports, Deeds, ReactionsAt, Script, Preserved;
    ChainKeeps(start, links, enabled);
  }

  lemma KeptParts(m: Moment, now: int, enabled: bool)
    requires KeptAt(m, now, enabled)
    ensures Execution.Timed(m.snap.paths) && Tallied(m.snap) && m.snap.paths.Keys == m.snap.trace.Keys
             && m.snap.paths.Keys <= m.snap.goals.Keys
    ensures m.snap.Movers() <= m.fleet.Keys && m.snap.offline <= m.fleet.Keys
  {
    hide Sound, StepsClear, Placed, NoPinNames, TracesApart;
    SoundIsTimed(m.snap, m.fleet, m.site.floor, now);
  }

  /** Between two events of a timestep: the next one needs a table that cannot be built. */
  ghost predicate BrokenOff(start: Moment, links: seq<Link>, enabled: bool, schedule: seq<Event>, limit: int) {
    && enabled && Clock(links) < limit
    && exists k :: BreaksAt(start, links, schedule, k)
  }

  ghost predicate BreaksAt(start: Moment, links: seq<Link>, schedule: seq<Event>, k: int) {
    var now := Clock(links);
    var events := EventsAt(InOrderOfTime(schedule), now);
    && 0 <= k < |events| && Deeds(links) == Script(schedule, now) + ReactTo(events[..k])
    && Upset(Last(start, links), now, events[k])
  }

  ghost predicate Broken(start: Moment, links: seq<Link>, schedule: seq<Event>, now: int, reports: seq<EventReport>) {
    && Chain(start, links, true) && Clock(links) == now && Reports(links) == reports
    && exists k :: BreaksAt(start, links, schedule, k)
  }

  ghost predicate Ended(start: Moment, links: seq<Link>, schedule: seq<Event>, limit: int, r: RunResult)
    requires r.Finished?
  {
    var now, end := Clock(links), Last(start, links);
    && r.vertexConflicts == (if r.stop == Some(VertexClash) then 1 else 0)
    && r.edgeConflicts == (if r.stop == Some(EdgeClash) then 1 else 0)
    && if now >= limit then now == Max(0, limit) && Deeds(links) == Script(schedule, now) && r.stop.None?
       else
         && Deeds(links) == Script(schedule, now) + ReactionsAt(schedule, now)
         && (r.stop.None? <==> EverybodyHome(end.snap, end.fleet))
         && (r.stop.Some? ==> !MayStep(end, now) && StoppedFor(end, now, r.stop.value))
  }

  ghost predicate StoppedFor(m: Moment, now: int, stop: StopReason) {
    && Execution.Timed(m.snap.paths)
    && Explained(m.fleet, m.site.floor, StepIntents(m.snap, now + 1), Pins(m.snap, m.fleet).Values, stop)
  }

  /** Somebody who is to move next has no charge left. */
  ghost predicate OutOfCharge(m: Moment) {
    exists id :: id in m.snap.Movers() && id in m.fleet && m.fleet[id].battery < m.fleet[id].drain
  }

  /** Whatever happens, a run keeps what it relies on, never counts a vertex or an
      edge conflict, and stops only for an empty battery or a failed robot in the
      way of one that has arrived. */
  lemma EveryRunIsSafe(start: Moment, links: seq<Link>, enabled: bool, schedule: seq<Event>, limit: int, r: RunResult)
    requires KeptAt(start, 0, enabled) && RanAsTold(start, links, enabled, schedule, limit, r)
    ensures KeptAt(Last(start, links), r.now, enabled) && Preserved(start, Last(start, links))
    ensures r.Finished? ==> r.vertexConflicts == 0 && r.edgeConflicts == 0
    ensures r.Finished? && r.stop.Some? ==> r.stop == Some(NoBattery) || r.stop == Some(OntoFailedRobot)
    ensures r.Finished? && r.stop == Some(NoBattery) ==> OutOfCharge(Last(start, links))
    ensures r.Finished? && r.stop == Some(OntoFailedRobot) && enabled ==>
              !ArrivedClear(Last(start, links).snap, Last(start, links).fleet, r.now)
  {
    hide KeptAt, Chain, Preserved, BrokenOff, Script, ReactionsAt, MayStep, ArrivedClear, EverybodyHome, Deeds;
    ChainKeeps(start, links, enabled);
    if r.Finished? && r.stop.Some? {
      WhyItStopped(Last(start, links), r.now, enabled, r.stop.value);
    }
  }

  lemma WhyItStopped(m: Moment, now: int, enabled: bool, stop: StopReason)
    requires KeptAt(m, now, enabled) && StoppedFor(m, now, stop)
    ensures stop == NoBattery || stop == OntoFailedRobot
    ensures stop == NoBattery ==> OutOfCharge(m)
    ensures enabled && ArrivedClear(m.snap, m.fleet, now) ==> stop == NoBattery
  {
    hide Sound, StepsClear, Placed, NoPinNames, ArrivedClear, StepIntents, Explained, Pins, TracesApart;
    OnlyReasonsToStop(m.snap, m.fleet, m.site.floor, now, stop);
  }

  /** With recovery on, a joint step is refused exactly for want of charge or for
      a failed robot in the way of one that has arrived. */
  lemma StepIsTakenExactly(m: Moment, now: int)
    requires KeptAt(m, now, true)
    ensures Execution.Timed(m.snap.paths)
    ensures MayStep(m, now) <==> Charged(m.snap, m.fleet, now) && ArrivedClear(m.snap, m.fleet, now)
  {
    hide Sound, StepsClear, Placed, NoPinNames, ArrivedClear, StepIntents, Pins, TracesApart, Charged, JointStepOk;
    StepAcceptedExactly(m.snap, m.fleet, m.site.floor, now);
  }

  /** When every recovery succeeded and whoever failed stood alone, the run was not
      interrupted - unless the very next robot to fail does not stand alone - and
      stopped for nothing but an empty battery. */
  lemma CalmRunGoesOn(start: Moment, links: seq<Link>, schedule: seq<Event>, limit: int, r: RunResult)
    requires KeptAt(start, 0, true) && ClearAt(start, 0) && RanAsTold(start, links, true, schedule, limit, r)
    requires AllFine(r.reports) && AllAlone(start, links)
    ensures ClearAt(Last(start, links), r.now)
    ensures r.Interrupted? ==> exists e ::
             e in schedule && e.timestep == r.now
             && !AloneAt(Last(start, links), r.now, e)
    ensures r.Finished? ==> r.stop.None? || (r.stop == Some(NoBattery) && OutOfCharge(Last(start, links)))
  {
    hide KeptAt, Chain, ClearAt, Script, ReactionsAt, MayStep, EverybodyHome, Deeds, AllFine, AllAlone, Upset, AloneAt,
         StoppedFor, Clock;
    ChainKeeps(start, links, true);
    ChainStaysCalm(start, links);
    var m := Last(start, links);
    if r.Interrupted? {
      var k :| BreaksAt(start, links, schedule, k);
      NextEvent(start, links, schedule, k, m, r.now);
    } else if r.stop.Some? {
      ClearIsArrivedClear(m, r.now);
      WhyItStopped(m, r.now, true, r.stop.value);
    }
  }

  lemma NextEvent(start: Moment, links: seq<Link>, schedule: seq<Event>, k: int, m: Moment, now: int)
    requires BreaksAt(start, links, schedule, k) && m == Last(start, links) && now == Clock(links)
    requires KeptAt(m, now, true) && ClearAt(m, now)
    ensures exists e :: e in schedule && e.timestep == now && !AloneAt(m, now, e)
  {
    hide KeptAt, ClearAt, Upset, AloneAt, Script;
    var e := EventsAt(InOrderOfTime(schedule), now)[k];
    EventsFromSchedule(schedule, now);
    if AloneAt(m, now, e) {
      CalmIsNeverUpset(m, now, e);
    }
  }

  lemma EventsFromSchedule(schedule: seq<Event>, now: int)
    ensures forall e | e in EventsAt(InOrderOfTime(schedule), now) :: e in schedule && e.timestep == now
  {
    Sorting.SortKeeps(Earlier, schedule);
  }

  lemma ClearIsArrivedClear(m: Moment, now: int)
    requires ClearAt(m, now)
    ensures ArrivedClear(m.snap, m.fleet, now)
  {
    hide ArrivedClear;
  }

  /** In particular when only robots of the plan are ever to fail. */
  lemma PlannedRunGoesOn(start: Moment, links: seq<Link>, schedule: seq<Event>, limit: int, r: RunResult)
    requires KeptAt(start, 0, true) && ClearAt(start, 0) && RanAsTold(start, links, true, schedule, limit, r)
    requires AllFine(r.reports) && forall e | e in schedule :: PlannedAt(start, e)
    ensures r.Finished? && (r.stop.None? || (r.stop == Some(NoBattery) && OutOfCharge(Last(start, links))))
  {
    hide KeptAt, ClearAt, AllFine, AllAlone, AloneAt, BrokenOff, Ended, Chain, PlannedAt, OnlyPlannedFail, Preserved;
    ScheduledOnly(start, links, true, schedule, limit, r);
    PlannedFromTheStart(start, links, true);
    PlannedFailuresAreAlone(start, links);
    CalmRunGoesOn(start, links, schedule, limit, r);
    if r.Interrupted? {
      var m := Last(start, links);
      var e :| e in schedule && e.timestep == r.now && !AloneAt(m, r.now, e);
      ChainKeeps(start, links, true);
      StaysPlanned(start, m, e);
      PlannedIsAlone(m, r.now, e);
    }
  }

  /** A run reacts to nothing but what is scheduled. */
  lemma ScheduledOnly(start: Moment, links: seq<Link>, enabled: bool, schedule: seq<Event>, limit: int, r: RunResult)
    requires RanAsTold(start, links, enabled, schedule, limit, r)
    ensures forall link | link in links && link.Reacted? :: link.event in schedule
  {
    hide Chain, Upset, EverybodyHome, MayStep, StoppedFor, Script, Deeds, Reports;
    forall link | link in links && link.Reacted?
      ensures link.event in schedule
    {
      var now, e := Clock(links), link.event;
      DeedDone(links, link);
      ScriptIsSchedule(schedule, now, e);
      InSchedule(schedule, e, now);
      if r.Interrupted? {
        var k :| BreaksAt(start, links, schedule, k);
        SomeReactions(EventsAt(InOrderOfTime(schedule), now), k, e);
      }
    }
  }

  lemma DeedDone(links: seq<Link>, link: Link)
    requires link in links
    ensures DeedOf(link) in Deeds(links)
  {
    var i :| 0 <= i < |links| && links[i] == link;
    assert Deeds(links)[i] == DeedOf(link);
  }

  lemma SomeReactions(events: seq<Event>, k: nat, e: Event)
    requires k <= |events|
    ensures React(e) in ReactTo(events[..k]) ==> React(e) in ReactTo(events)
  {
    if React(e) in ReactTo(events[..k]) {
      var i :| 0 <= i < k && ReactTo(events[..k])[i] == React(e);
      assert ReactTo(events)[i] == React(e);
    }
  }

  /** A finished run has reacted to every event of the timesteps it went through. */
  lemma EverythingReactedTo(start: Moment, links: seq<Link>, enabled: bool, schedule: seq<Event>, limit: int,
          r: RunResult, e: Event)
    requires RanAsTold(start, links, enabled, schedule, limit, r) && r.Finished?
    requires e in schedule && 0 <= e.timestep <= r.now && e.timestep < limit
    ensures exists link :: link in links && link.Reacted? && link.event == e
  {
    hide Chain, EverybodyHome, MayStep, StoppedFor, Script, ReactionsAt, Reports, Clock;
    ScriptIsSchedule(schedule, r.now, e);
    InSchedule(schedule, e, r.now);
    assert React(e) in Deeds(links);
    var i :| 0 <= i < |links| && Deeds(links)[i] == React(e);
    assert links[i] in links;
  }

  /** Given time for the horizon, a run that was not stopped brings everybody
      under way home. */
  lemma InTimeEverybodyIsHome(start: Moment, links: seq<Link>, enabled: bool, schedule: seq<Event>, limit: int,
          r: RunResult)
    requires KeptAt(start, 0, enabled) && RanAsTold(start, links, enabled, schedule, limit, r)
    requires r.Finished? && r.stop.None? && start.snap.horizon <= limit
    ensures EverybodyHome(Last(start, links).snap, Last(start, links).fleet)
  {
    hide KeptAt, Chain, Script, ReactionsAt, Deeds, Reports, Clock;
    ChainKeeps(start, links, enabled);
    var m := Last(start, links);
    if r.now >= limit {
      forall id | id in m.snap.Movers() && id in m.fleet && id in m.snap.goals
        ensures m.fleet[id].position == m.snap.goals[id]
      {
        HomeByHorizon(m, r.now, enabled, id);
      }
    }
  }

  /** The goals a run leads to change only for a robot that takes over a task. */
  lemma ReactionKeepsGoals(m: Moment, m': Moment, now: int, enabled: bool, e: Event, report: EventReport, id: string)
    requires Reacts(m, m', now, enabled, e, report) && id in m.snap.goals && report.reassignedTo != Some(id)
    ensures id in m'.snap.goals && m'.snap.goals[id] == m.snap.goals[id]
  {
    hide FailureReported, TaskHandled, RoutesHandled, MayAppear, AfterLoss;
    if e.ObstacleAppears? {
      var c :| ObstacleHandled(m.snap, m'.snap, m.fleet, m.site, m'.site, e.obstacleId, e.cell, now, enabled,
          report, c);
      if report.applied {
        RoutesKeepGoals(m.snap, m'.snap, m.fleet, m'.site.floor, now, enabled, report.affected, c);
      }
    } else if e.robot in m.fleet {
      var s2, c1, c2 :| Loses(m, m', now, enabled, e.robot, report, s2, c1, c2);
      LossKeepsGoals(m.snap, e.robot);
      if enabled {
        TaskKeepsGoals(AfterLoss(m.snap, e.robot), s2, FleetOffline(m.fleet, e.robot), m.tasks, m'.fleet, m'.tasks,
            m.site.floor, now, e.robot, report.reassignedTo, c1, id);
        RoutesKeepGoals(s2, m'.snap, m'.fleet, m.site.floor, now, true, Touching(s2, m.fleet[e.robot].position, now),
            c2);
      }
    }
  }

  lemma LossKeepsGoals(s: Snap, f: string)
    ensures AfterLoss(s, f).goals == s.goals
  {
  }

  lemma RoutesKeepGoals(s: Snap, s': Snap, fleet: Fleet, floor: Floor, now: int, enabled: bool, affected: set<string>,
          c: Claims)
    requires RoutesHandled(s, s', fleet, floor, now, enabled, affected, c)
    ensures s'.goals == s.goals
  {
    hide Replannable, IsFutureTable, Included, Sorted;
  }

  lemma TaskKeepsGoals(s1: Snap, s2: Snap, fleet1: Fleet, tasks: Tasks, fleet': Fleet, tasks': Tasks, floor: Floor,
          now: int, f: string, to: Option<string>, c: Claims, id: string)
    requires f in fleet1 && TaskHandled(s1, s2, fleet1, tasks, fleet', tasks', floor, now, f, to, c)
    requires id in s1.goals && to != Some(id)
    ensures id in s2.goals && s2.goals[id] == s1.goals[id]
  {
    hide BestSpare, FreedFleet, IsFutureTable, Included, AssignRobot, AssignTask, MayAssign, SpaceTime.Plan;
  }

  ghost predicate TakesOver(links: seq<Link>, id: string) {
    exists link :: link in links && link.Reacted? && link.report.reassignedTo == Some(id)
  }

  /** Whoever takes over no task keeps the goal it set out for. */
  lemma {:induction false} GoalKept(start: Moment, links: seq<Link>, enabled: bool, id: string)
    requires Chain(start, links, enabled) && id in start.snap.goals && !TakesOver(links, id)
    ensures id in Last(start, links).snap.goals && Last(start, links).snap.goals[id] == start.snap.goals[id]
  {
    hide Reacts, EverybodyHome, MayStep, StepIntents, DriveAll;
    if links != [] {
      var n := |links| - 1;
      var before, link := links[..n], links[n];
      assert forall x | x in before :: x in links;
      assert link in links;
      GoalKept(start, before, enabled, id);
      if link.Reacted? {
        ReactionKeepsGoals(Last(start, before), link.after, Clock(before), enabled, link.event, link.report, id);
      }
    }
  }

  ghost predicate NobodyOverdrawn(fleet: Fleet) {
    forall r | r in fleet :: fleet[r].battery >= 0.0
  }

  lemma LossKeepsCharge(m: Moment, m': Moment, now: int, enabled: bool, e: Event, report: EventReport)
    requires Reacts(m, m', now, enabled, e, report) && NobodyOverdrawn(m.fleet)
    ensures NobodyOverdrawn(m'.fleet)
  {
    hide FailureReported, RoutesHandled, ObstacleHandled, AfterLoss, TaskHandled;
    if e.RobotFails? && e.robot in m.fleet {
      var s2, c1, c2 :| Loses(m, m', now, enabled, e.robot, report, s2, c1, c2);
      if enabled {
        TaskKeepsCharge(AfterLoss(m.snap, e.robot), s2, FleetOffline(m.fleet, e.robot), m.tasks, m'.fleet, m'.tasks,
            m.site.floor, now, e.robot, report.reassignedTo, c1);
      }
    }
  }

  lemma TaskKeepsCharge(s1: Snap, s2: Snap, fleet1: Fleet, tasks: Tasks, fleet': Fleet, tasks': Tasks, floor: Floor,
          now: int, f: string, to: Option<string>, c: Claims)
    requires f in fleet1 && TaskHandled(s1, s2, fleet1, tasks, fleet', tasks', floor, now, f, to, c)
    requires NobodyOverdrawn(fleet1)
    ensures NobodyOverdrawn(fleet')
  {
    hide BestSpare, IsFutureTable, Included, AssignTask, SpaceTime.Plan, Joined, Pins;
  }

  /** No robot is ever driven on charge it does not have. */
  lemma {:induction false} ChargeIsNeverOverdrawn(start: Moment, links: seq<Link>, enabled: bool)
    requires Chain(start, links, enabled) && NobodyOverdrawn(start.fleet)
    ensures NobodyOverdrawn(Last(start, links).fleet)
  {
    hide Reacts, Steps, NobodyOverdrawn;
    if links != [] {
      var n := |links| - 1;
      ChargeIsNeverOverdrawn(start, links[..n], enabled);
      if links[n].Reacted? {
        LossKeepsCharge(Last(start, links[..n]), links[n].after, Clock(links[..n]), enabled, links[n].event,
            links[n].report);
      } else {
        StepKeepsCharge(Last(start, links[..n]), links[n].after, Clock(links[..n]));
      }
    }
  }

  lemma StepKeepsCharge(m: Moment, m': Moment, now: int)
    requires Steps(m, m', now) && NobodyOverdrawn(m.fleet)
    ensures NobodyOverdrawn(m'.fleet)
  {
    hide EverybodyHome, Tallied, StepIntents, Separate, Pins, Advanced;
  }

  /** Everybody still under way is where its goal is. */
  ghost predicate OnTheirGoals(m: Moment) {
    forall id | id in m.snap.paths && id !in m.snap.offline && id !in m.snap.safeStopped ::
      id in m.fleet && id in m.snap.goals && m.fleet[id].position == m.snap.goals[id]
  }

  /** Every robot of the plan is on its planned goal, but for those that failed, had
      to stop, or took over a task. */
  ghost predicate Delivered(plans: Plans, end: Moment, links: seq<Link>)
    requires Execution.Timed(plans)
  {
    forall id | id in plans && id !in end.snap.offline && id !in end.snap.safeStopped && !TakesOver(links, id) ::
      id in end.fleet && end.fleet[id].position == Goal(plans[id])
  }

  ghost predicate NoneBeforeTheStart(schedule: seq<Event>) {
    forall e | e in schedule :: e.timestep >= 0
  }

  lemma StartingParts(plans: Plans, horizon: int)
    requires Execution.Timed(plans)
    ensures Starting(plans, horizon).horizon == horizon && Starting(plans, horizon).paths == plans
  {
  }

  /** A run that is allowed `room + extra` timesteps after the last event, and ends
      unstopped, has brought everybody home if the horizon fits into `room`; if it has
      not, it went on until exactly then. */
  lemma UnstoppedRun(plans: Plans, fleet: Fleet, tasks: Tasks, site: Site, horizon: int, links: seq<Link>,
          enabled: bool, schedule: seq<Event>, room: int, extra: int, r: RunResult)
    requires Execution.Timed(plans)
    requires var start := Moment(Starting(plans, horizon), fleet, tasks, site);
             KeptAt(start, 0, enabled) && forall last | IsLatest(schedule, last) ::
               RanAsTold(start, links, enabled, schedule, last + room + extra, r)
    requires r.Finished? && r.stop.None?
    ensures var end := Last(Moment(Starting(plans, horizon), fleet, tasks, site), links);
            && (NoneBeforeTheStart(schedule) && extra >= 0 && horizon <= room ==>
                  OnTheirGoals(end) && Delivered(plans, end, links))
            && (!OnTheirGoals(end) ==> forall last | IsLatest(schedule, last) :: r.now == Max(0, last + room + extra))
  {
    hide KeptAt, Chain, RanAsTold, EverybodyHome, TakesOver, OnTheirGoals;
    var start := Moment(Starting(plans, horizon), fleet, tasks, site);
    var last := LastTimestep(schedule);
    var end := Last(start, links);
    RunToldParts(start, links, enabled, schedule, last + room + extra, r);
    ChainKeeps(start, links, enabled);
    if horizon <= last + room + extra {
      InTimeEverybodyIsHome(start, links, enabled, schedule, last + room + extra, r);
    }
    if EverybodyHome(end.snap, end.fleet) {
      HomeIsOnGoals(end, r.now, enabled);
      forall id | id in plans && id !in end.snap.offline && id !in end.snap.safeStopped && !TakesOver(links, id)
        ensures id in end.fleet && end.fleet[id].position == Goal(plans[id])
      {
        GoalKept(start, links, enabled, id);
        OnItsGoal(end, id);
      }
    }
  }

  lemma OnItsGoal(m: Moment, id: string)
    requires OnTheirGoals(m) && id in m.snap.paths && id !in m.snap.offline && id !in m.snap.safeStopped
    ensures id in m.fleet && id in m.snap.goals && m.fleet[id].position == m.snap.goals[id]
  {
  }

  lemma RunToldParts(start: Moment, links: seq<Link>, enabled: bool, schedule: seq<Event>, limit: int, r: RunResult)
    requires RanAsTold(start, links, enabled, schedule, limit, r) && r.Finished? && r.stop.None?
    ensures Chain(start, links, enabled) && r.now == Clock(links)
    ensures EverybodyHome(Last(start, links).snap, Last(start, links).fleet) || r.now == Max(0, limit)
  {
    hide Chain, Script, ReactionsAt, Deeds, Reports, EverybodyHome;
  }

  /** A run takes a joint step only while somebody is still away from its goal. */
  lemma {:induction false} StepsOnlyWhileAway(start: Moment, links: seq<Link>, enabled: bool, k: nat)
    requires Chain(start, links, enabled) && k < |links| && links[k].Stepped?
    ensures !OnTheirGoals(Last(start, links[..k]))
  {
    hide Reacts, MayStep, Tallied, StepIntents, DriveAll;
    var n := |links| - 1;
    if k < n {
      StepsOnlyWhileAway(start, links[..n], enabled, k);
      assert links[..n][..k] == links[..k];
    }
  }

  lemma HomeIsOnGoals(m: Moment, now: int, enabled: bool)
    requires KeptAt(m, now, enabled) && EverybodyHome(m.snap, m.fleet)
    ensures OnTheirGoals(m)
  {
    hide StepsClear, Placed, NoPinNames, TracesApart;
    KeptParts(m, now, enabled);
    forall id | id in m.snap.paths && id !in m.snap.offline && id !in m.snap.safeStopped
      ensures id in m.fleet && id in m.snap.goals && m.fleet[id].position == m.snap.goals[id]
    {
      assert id in m.snap.Movers();
    }
  }

  lemma HomeByHorizon(m: Moment, now: int, enabled: bool, id: string)
    requires KeptAt(m, now, enabled) && m.snap.horizon <= now && id in m.snap.Movers()
    ensures id in m.fleet && id in m.snap.goals && m.fleet[id].position == m.snap.goals[id]
  {
    hide Sound, StepsClear, Placed, NoPinNames, TracesApart;
    ArrivedIsAtGoal(m.snap, m.fleet, m.site.floor, now, id);
  }

  lemma NothingDone(start: Moment, enabled: bool, schedule: seq<Event>)
    ensures OnSchedule(start, [], enabled, schedule, 0, [], start)
  {
    Beginning(start, enabled);
  }

  lemma BreaksOff(start: Moment, links: seq<Link>, schedule: seq<Event>, now: int, limit: int,
          reports: seq<EventReport>)
    requires Broken(start, links, schedule, now, reports) && now < limit
    ensures RanAsTold(start, links, true, schedule, limit, Interrupted(now, reports))
  {
    hide Chain, BreaksAt;
  }

  lemma EndsOnSchedule(start: Moment, links: seq<Link>, enabled: bool, schedule: seq<Event>, now: int, limit: int,
                       reports: seq<EventReport>, m: Moment)
    requires OnSchedule(start, links, enabled, schedule, now, reports, m) && now == Max(0, limit)
    ensures RanAsTold(start, links, enabled, schedule, limit, Finished(now, reports, None, 0, 0))
             && Last(start, links) == m
  {
    hide Chain, Deeds, Script;
  }

  lemma EndsReacting(start: Moment, links: seq<Link>, enabled: bool, schedule: seq<Event>, now: int, limit: int,
                     reports: seq<EventReport>, m: Moment, stop: Option<StopReason>)
    requires Reacting(start, links, enabled, schedule, now, reports, m) && now < limit
    requires stop.None? <==> EverybodyHome(m.snap, m.fleet)
    requires stop.Some? ==> !MayStep(m, now) && StoppedFor(m, now, stop.value)
    ensures RanAsTold(start, links, enabled, schedule, limit,
                      Finished(now, reports, stop, if stop == Some(VertexClash) then 1 else 0,
                               if stop == Some(EdgeClash) then 1 else 0))
    ensures Last(start, links) == m
  {
    hide Chain, Deeds, Script, ReactionsAt, EverybodyHome, MayStep, StoppedFor;
  }

  // ---------- Starting a run ----------

  function Starting(paths: Plans, horizon: int): Snap
    requires Execution.Timed(paths)
  {
    Snap(paths, map id | id in paths :: Goal(paths[id]), map id | id in paths :: [TimedStep(paths[id][0].position, 0)],
         map id | id in paths :: 0, map id | id in paths :: 0, horizon, {}, {})
  }

  /** A plan made for this floor: drivable routes from time 0 that arrive within
      the horizon. The coordinator's successful paths are such a plan. */
  ghost predicate PlanFits(plans: Plans, floor: Floor, horizon: int)
    requires Execution.Timed(plans)
  {
    forall id | id in plans :: StartTime(plans[id]) == 0 && ArrivalTime(plans[id]) <= horizon
        && Drivable(floor, plans[id])
  }

  lemma StartRecords(plans: Plans, fleet: Fleet, horizon: int)
    requires Execution.Timed(plans) && Execution.AtStarts(fleet, plans) && forall id | id in plans ::
             StartTime(plans[id]) == 0
    ensures var s := Starting(plans, horizon);
            Recorded(s, fleet, 0) && forall id | id in plans :: Present(s, fleet, 0, id)
  {
    hide Moves, Waits;
    var s := Starting(plans, horizon);
    forall id | id in plans
      ensures RecordOk(s, fleet, 0, id) && Present(s, fleet, 0, id)
    {
      OneStepTrace(plans[id][0].position, 0);
    }
  }

  lemma StartRouted(plans: Plans, fleet: Fleet, floor: Floor, horizon: int, id: string)
    requires Execution.Timed(plans) && Execution.AtStarts(fleet, plans) && PlanFits(plans, floor, horizon)
             && id in plans
    ensures Routed(Starting(plans, horizon), fleet, floor, 0, id)
  {
    hide At, Drivable;
    Execution.AtStart(plans[id]);
    forall t | 0 <= t
      ensures floor.Traversable(At(plans[id], t)) && Manhattan(At(plans[id], t), At(plans[id], t + 1)) <= 1
    {
      AtDrivable(floor, plans[id], t);
    }
  }

  lemma NeverMeetApart(a: seq<TimedStep>, b: seq<TimedStep>, from: int)
    requires WellTimed(a) && WellTimed(b) && Conflicts.NeverMeet(a, b)
    ensures Apart(a, b, from)
  {
  }

  /** A checked plan, with its robots online at their starts, is a sound start. */
  lemma SoundStart(plans: Plans, fleet: Fleet, tasks: Tasks, floor: Floor, horizon: int, enabled: bool)
    requires Execution.Timed(plans) && Execution.NoConflicts(plans) && Execution.AtStarts(fleet, plans)
             && PlanFits(plans, floor, horizon)
    requires Placed(floor, fleet, tasks) && NoPinNames(fleet)
    ensures Kept(Starting(plans, horizon), fleet, tasks, floor, 0, enabled)
             && NobodyInTheWay(Starting(plans, horizon), fleet, 0)
  {
    hide RecordOk, Present, Routed, Conflicts.NeverMeet, Apart, WellTimed, Drivable, Placed, NoPinNames,
         RouteTouchesCell, Execution.AtStarts, TracesApart;
    var s := Starting(plans, horizon);
    StartRecords(plans, fleet, horizon);
    forall id | id in plans
      ensures Routed(s, fleet, floor, 0, id)
    {
      StartRouted(plans, fleet, floor, horizon, id);
    }
    forall a, b | a in plans && b in plans && a != b
      ensures Apart(plans[a], plans[b], 0)
    {
      NeverMeetApart(plans[a], plans[b], 0);
    }
    assert Pins(s, fleet) == map[];
    StartTraces(plans, fleet, floor, horizon);
  }

  lemma StartTraces(plans: Plans, fleet: Fleet, floor: Floor, horizon: int)
    requires Execution.Timed(plans) && Sound(Starting(plans, horizon), fleet, floor, 0)
    ensures TracesApart(Starting(plans, horizon))
  {
    hide Sound, DroveApart, WellTimed;
    var s := Starting(plans, horizon);
    EventKeepsTraces(Snap(map[], map[], map[], map[], map[], horizon, {}, {}), s, fleet, floor, 0, plans.Keys);
  }

  /** A run begins exactly with a plan that is not empty, passes the check, and has
      its robots standing where it starts. */
  ghost predicate MayBegin(plan: map<string, TimedPath>, fleet: Fleet, floor: Floor) {
    var plans := Execution.PlansOf(plan);
    && plans != map[] && Execution.CleanPlan(plans, floor)
    && forall id | id in plans :: id in fleet && plans[id] != [] && fleet[id].position == plans[id][0].position
  }

  /** The plan fits this floor and horizon, and its robots are online. */
  ghost predicate MadeForThis(plan: map<string, TimedPath>, fleet: Fleet, floor: Floor, horizon: int) {
    var plans := Execution.PlansOf(plan);
    && (Execution.Timed(plans) ==> PlanFits(plans, floor, horizon))
    && (forall id | id in plans && id in fleet :: fleet[id].status != Offline)
  }

  lemma ReadyToRun(plan: map<string, TimedPath>, fleet: Fleet, tasks: Tasks, site: Site, horizon: int, enabled: bool)
    requires MayBegin(plan, fleet, site.floor) && MadeForThis(plan, fleet, site.floor, horizon)
    requires Placed(site.floor, fleet, tasks) && NoPinNames(fleet)
    ensures var plans := Execution.PlansOf(plan);
            && Execution.Timed(plans) && KeptAt(Moment(Starting(plans, horizon), fleet, tasks, site), 0, enabled)
            && ClearAt(Moment(Starting(plans, horizon), fleet, tasks, site), 0)
  {
    hide PlanFits, Kept, NobodyInTheWay, Placed, NoPinNames, Execution.NoConflicts, Conflicts.RouteOk, Starting;
    SoundStart(Execution.PlansOf(plan), fleet, tasks, site.floor, horizon, enabled);
  }
}
