/** When which disruption strikes. */
module Schedule {
  import opened Floors
  import opened Names
  import opened Sorting

  datatype Event =
    | RobotFails(timestep: int, robot: string)
    | ObstacleAppears(timestep: int, cell: Position, obstacleId: string)

  /** By time; at one time failures first, by name, then obstacles, by cell. */
  predicate Earlier(a: Event, b: Event) {
    a.timestep < b.timestep || (a.timestep == b.timestep && FirstAtOnce(a, b))
  }

  predicate FirstAtOnce(a: Event, b: Event) {
    if a.RobotFails? then b.ObstacleAppears? || Before(a.robot, b.robot)
    else b.ObstacleAppears? && (a.cell.row < b.cell.row || (a.cell.row == b.cell.row && a.cell.col < b.cell.col))
  }

  function InOrderOfTime(events: seq<Event>): seq<Event> {
    SortBy(Earlier, events)
  }

  /** The events of one timestep, in order. */
  function EventsAt(events: seq<Event>, t: int): (r: seq<Event>)
    ensures forall e :: e in r <==> e in events && e.timestep == t
  {
    if events == [] then []
    else
      assert events == events[..|events| - 1] + [events[|events| - 1]];
      EventsAt(events[..|events| - 1], t) + if events[|events| - 1].timestep == t then [events[|events| - 1]] else []
  }

  /** No event comes later than `t`, and one comes then; without events it is 0. */
  ghost predicate IsLatest(events: seq<Event>, t: int) {
    && (forall e | e in events :: e.timestep <= t)
    && if events == [] then t == 0 else exists e :: e in events && e.timestep == t
  }

  function LastTimestep(events: seq<Event>): (t: int)
    ensures IsLatest(events, t) && forall u | IsLatest(events, u) :: u == t
  {
    if events == [] then 0
    else
      var n := |events| - 1;
      assert events == events[..n] + [events[n]];
      assert events[n] in events;
      var rest := LastTimestep(events[..n]);
      if n == 0 || events[n].timestep > rest then events[n].timestep else rest
  }

  lemma EarlierIsOrder()
    ensures KeyOrder(Earlier)
  {
    forall a: Event, b: Event
      ensures Earlier(a, b) ==> !Earlier(b, a)
    {
      if a.RobotFails? && b.RobotFails? {
        BeforeIsStrict(a.robot, b.robot);
      }
    }
    forall a: Event, b: Event, c: Event | !Earlier(b, a) && !Earlier(c, b)
      ensures !Earlier(c, a)
    {
      if a.timestep == b.timestep == c.timestep && a.RobotFails? && b.RobotFails? && c.RobotFails? {
        NotAfter(a.robot, b.robot, c.robot);
      }
    }
  }

  /** The whole schedule in order, nothing lost. */
  lemma ScheduleInOrder(events: seq<Event>)
    ensures Ascending(Earlier, InOrderOfTime(events)) && multiset(InOrderOfTime(events)) == multiset(events)
  {
    EarlierIsOrder();
    SortAscends(Earlier, events);
  }

  lemma {:induction false} EventsKeepOrder(events: seq<Event>, t: int)
    requires Ascending(Earlier, events)
    ensures Ascending(Earlier, EventsAt(events, t))
  {
    if events != [] {
      var n := |events| - 1;
      EventsKeepOrder(events[..n], t);
      var before := EventsAt(events[..n], t);
      forall i | 0 <= i < |before|
        ensures !Earlier(events[n], before[i])
      {
        assert before[i] in before;
        var j :| 0 <= j < n && events[j] == before[i];
      }
    }
  }

  /** A failure comes before an obstacle, two failures by robot name, two obstacles by
      row and then by column. */
  ghost predicate InTurn(a: Event, b: Event) {
    && (a.RobotFails? || b.ObstacleAppears?)
    && (a.RobotFails? && b.RobotFails? ==> !Before(b.robot, a.robot))
    && (a.ObstacleAppears? && b.ObstacleAppears? ==>
          a.cell.row < b.cell.row || (a.cell.row == b.cell.row && a.cell.col <= b.cell.col))
  }

  lemma NotEarlier(a: Event, b: Event)
    requires a.timestep == b.timestep && !Earlier(b, a)
    ensures InTurn(a, b)
  {
  }

  /** The events of one timestep come failures first, by name, then obstacles, by
      cell; each as often as it is scheduled. */
  lemma EventsInOrder(events: seq<Event>, t: int)
    ensures Ascending(Earlier, EventsAt(InOrderOfTime(events), t))
    ensures forall e: Event | e.timestep == t :: multiset(EventsAt(InOrderOfTime(events), t))[e] == multiset(events)[e]
    ensures var list := EventsAt(InOrderOfTime(events), t);
            forall i, j | 0 <= i < j < |list| :: InTurn(list[i], list[j])
  {
    hide EventsAt, InOrderOfTime, Earlier, InTurn;
    ScheduleInOrder(events);
    EventsKeepOrder(InOrderOfTime(events), t);
    var list := EventsAt(InOrderOfTime(events), t);
    forall i, j | 0 <= i < j < |list|
      ensures InTurn(list[i], list[j])
    {
      assert list[i] in list && list[j] in list;
      NotEarlier(list[i], list[j]);
    }
    forall e: Event | e.timestep == t
      ensures multiset(EventsAt(InOrderOfTime(events), t))[e] == multiset(events)[e]
    {
      EventsCounted(InOrderOfTime(events), t, e);
    }
  }

  lemma {:induction false} EventsCounted(events: seq<Event>, t: int, e: Event)
    requires e.timestep == t
    ensures multiset(EventsAt(events, t))[e] == multiset(events)[e]
  {
    if events != [] {
      var n := |events| - 1;
      EventsCounted(events[..n], t, e);
      assert events == events[..n] + [events[n]];
    }
  }
}
