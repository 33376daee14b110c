// Recurrence in the server's local time, and what becomes of it when the process restarts.
module Recurrence {
  import opened Wrappers
  import opened Scheduling

  // The local calendar fields of an instant. `msOfMinute` is what lies past the whole minute.
  datatype Fields = Fields(msOfMinute: nat, minute: nat, hour: nat, monthDay: nat, month: nat, weekday: nat)

  // The time zone: any function from instants to fields, with whatever jumps it has.
  type Zone = int -> Fields

  // A five-field expression. `None` is `*`.
  datatype Expression = Expression(
    minute: nat, hour: nat, monthDay: Option<nat>, month: Option<nat>, weekday: Option<nat>)

  // `formatCronExpression`. A `once` schedule has none.
  function FormatCronExpression(zone: Zone, startDate: int, cronType: CronType): Option<Expression> {
    var f := zone(startDate);
    match cronType
    case Once => None
    case Daily => Some(Expression(f.minute, f.hour, None, None, None))
    case Weekly => Some(Expression(f.minute, f.hour, None, None, Some(f.weekday)))
    case Monthly => Some(Expression(f.minute, f.hour, Some(f.monthDay), None, None))
    case Yearly => Some(Expression(f.minute, f.hour, Some(f.monthDay), Some(f.month), None))
  }

  predicate Fits(field: Option<nat>, value: nat) {
    field == None || field == Some(value)
  }

  // The instant matches, as node-cron and cron-parser read an expression without seconds.
  predicate Matches(zone: Zone, expression: Expression, t: int) {
    var f := zone(t);
    && f.msOfMinute == 0 && f.minute == expression.minute && f.hour == expression.hour
    && Fits(expression.monthDay, f.monthDay) && Fits(expression.month, f.month) && Fits(expression.weekday, f.weekday)
  }

  // An expression derived from an instant that matches a job's expression is that same expression.
  lemma DerivedFromAMatch(zone: Zone, startDate: int, cronType: CronType, t: int)
    requires cronType != Once && Matches(zone, FormatCronExpression(zone, startDate, cronType).value, t)
    ensures FormatCronExpression(zone, t, cronType) == FormatCronExpression(zone, startDate, cronType)
  {
    match cronType
    case Daily =>
    case Weekly =>
    case Monthly =>
    case Yearly =>
  }

  // ---- The next run ----

  predicate UpTo(t: int, endDate: Option<int>) {
    endDate.Some? ==> t <= endDate.value
  }

  // cron-parser's `next`: the first match after an instant and not after the end. Its throw is `None`.
  type Library = (Expression, int, Option<int>) -> Option<int>

  ghost predicate FindsNext(zone: Zone, library: Library) {
    forall expression, after, endDate ::
      match library(expression, after, endDate)
      case None => forall t :: after < t && UpTo(t, endDate) ==> !Matches(zone, expression, t)
      case Some(next) =>
        && after < next && UpTo(next, endDate) && Matches(zone, expression, next)
        && forall t :: after < t < next ==> !Matches(zone, expression, t)
  }

  // `getNextRunDate`. Before the anchor the search starts one millisecond before it, but not before the epoch.
  function NextRunDate(library: Library, expression: Expression, anchor: int, endDate: Option<int>, now: int): Option<int> {
    library(expression, if now < anchor then (if anchor - 1 < 0 then 0 else anchor - 1) else now, endDate)
  }

  // The next run of a schedule that has not started yet is its start, when that is a match after the epoch.
  lemma FirstRunIsTheAnchor(zone: Zone, library: Library, expression: Expression, anchor: int, endDate: Option<int>,
                            now: int)
    requires FindsNext(zone, library) && Matches(zone, expression, anchor)
    requires now < anchor && anchor > 0 && UpTo(anchor, endDate)
    ensures NextRunDate(library, expression, anchor, endDate, now) == Some(anchor)
  {
    var found := library(expression, anchor - 1, endDate);
    assert found.Some? && found.value >= anchor;
  }

  // ---- Restart ----

  // What start-up schedules for a persisted schedule, if anything.
  function Restarted(zone: Zone, library: Library, schedule: Payload, now: int): Option<Payload> {
    if schedule.endDate.Some? && schedule.endDate.value < now then None
    else if schedule.startDate > now then Some(schedule)
    else
      match FormatCronExpression(zone, schedule.startDate, schedule.cronType)
      case None => None
      case Some(expression) =>
        match NextRunDate(library, expression, schedule.startDate, schedule.endDate, now)
        case None => None
        case Some(next) => Some(schedule.(startDate := next))
  }

  // What a recurrence is, on the calendar: the time of day of the start, on every day, on its weekday, on its day of the
  // month, or on its day of the year. A `once` schedule has no further instant.
  predicate FallsOn(zone: Zone, schedule: Payload, t: int) {
    var at, start := zone(t), zone(schedule.startDate);
    && at.msOfMinute == 0 && at.minute == start.minute && at.hour == start.hour
    && match schedule.cronType
       case Once => false
       case Daily => true
       case Weekly => at.weekday == start.weekday
       case Monthly => at.monthDay == start.monthDay
       case Yearly => at.monthDay == start.monthDay && at.month == start.month
  }

  // An instant of the recurrence: the start, then every such instant up to the end.
  predicate Recurs(zone: Zone, schedule: Payload, t: int) {
    && UpTo(t, schedule.endDate)
    && (t == schedule.startDate || (t > schedule.startDate && FallsOn(zone, schedule, t)))
  }

  // The instant matches the expression of the schedule's start, if it has one.
  predicate MatchesSchedule(zone: Zone, schedule: Payload, t: int) {
    match FormatCronExpression(zone, schedule.startDate, schedule.cronType)
    case None => false
    case Some(expression) => Matches(zone, expression, t)
  }

  // The expression says what the calendar does.
  lemma ExpressionFollowsTheCalendar(zone: Zone, schedule: Payload, t: int)
    ensures MatchesSchedule(zone, schedule, t) <==> FallsOn(zone, schedule, t)
  {
    match schedule.cronType
    case Once =>
    case Daily =>
    case Weekly =>
    case Monthly =>
    case Yearly =>
  }

  // The instants of each recurrence, with their first run.
  lemma OnceRecursAtItsStartAlone(zone: Zone, schedule: Payload, t: int)
    requires schedule.cronType == Once && UpTo(schedule.startDate, schedule.endDate)
    ensures Recurs(zone, schedule, t) <==> t == schedule.startDate
  {
  }

  // The schedule should run at this instant when nothing interrupts it. A stopped schedule never does.
  predicate Planned(zone: Zone, schedule: Payload, t: int) {
    !schedule.isStopped && Recurs(zone, schedule, t)
  }

  // As the controllers check.
  predicate EndsAfterStart(schedule: Payload) {
    UpTo(schedule.startDate, schedule.endDate)
  }

  // From `now` on, one schedule has the instants, and the plan, of another.
  ghost predicate SameFrom(zone: Zone, again: Payload, schedule: Payload, now: int) {
    forall t :: t > now ==>
                  && (Recurs(zone, again, t) <==> Recurs(zone, schedule, t))
                  && (Planned(zone, again, t) <==> Planned(zone, schedule, t))
  }

  // A restart changes none of the instants that are still to come, and so none of the planned runs.
  lemma RestartKeepsThePlan(zone: Zone, library: Library, schedule: Payload, now: int)
    requires FindsNext(zone, library) && EndsAfterStart(schedule)
    ensures match Restarted(zone, library, schedule, now)
      case None => forall t :: t > now ==> !Recurs(zone, schedule, t)
      case Some(again) =>
        && EndsAfterStart(again) && again.startDate > now && again == schedule.(startDate := again.startDate)
        && SameFrom(zone, again, schedule, now)
  {
    var expression := FormatCronExpression(zone, schedule.startDate, schedule.cronType);
    if schedule.startDate <= now && expression.Some? && !(schedule.endDate.Some? && schedule.endDate.value < now) {
      var found := library(expression.value, now, schedule.endDate);
      if found.Some? {
        DerivedFromAMatch(zone, schedule.startDate, schedule.cronType, found.value);
        forall t | t > now
          ensures Recurs(zone, schedule.(startDate := found.value), t) <==> Recurs(zone, schedule, t)
        {
          ExpressionFollowsTheCalendar(zone, schedule, t);
          ExpressionFollowsTheCalendar(zone, schedule.(startDate := found.value), t);
        }
      }
    }
  }

  // Start-up attaches a persisted schedule, stopped or not, exactly when its recurrence has an instant to come.
  lemma AttachedExactlyWithInstantsToCome(zone: Zone, library: Library, schedule: Payload, now: int)
    requires FindsNext(zone, library) && EndsAfterStart(schedule)
    ensures Restarted(zone, library, schedule, now).Some? <==> exists t :: t > now && Recurs(zone, schedule, t)
  {
    RestartKeepsThePlan(zone, library, schedule, now);
    match Restarted(zone, library, schedule, now)
    case None =>
    case Some(again) => assert Recurs(zone, again, again.startDate);
  }

  // Restarts of which each works on the schedule that the one before it left in memory. Start-up itself always goes back
  // to the persisted start, so this is the harder case.
  function RestartedOften(zone: Zone, library: Library, schedule: Payload, nows: seq<int>): Option<Payload> {
    if nows == [] then Some(schedule)
    else
      match RestartedOften(zone, library, schedule, nows[..|nows| - 1])
      case None => None
      case Some(again) => Restarted(zone, library, again, nows[|nows| - 1])
  }

  ghost predicate Ascending(nows: seq<int>) {
    forall i, j :: 0 <= i < j < |nows| ==> nows[i] <= nows[j]
  }

  // Even then, no number of restarts makes a recurrence drift.
  lemma {:induction false} RestartsDoNotDrift(zone: Zone, library: Library, schedule: Payload, nows: seq<int>)
    requires FindsNext(zone, library) && EndsAfterStart(schedule) && Ascending(nows) && nows != []
    ensures match RestartedOften(zone, library, schedule, nows)
      case None => forall t :: t > nows[|nows| - 1] ==> !Recurs(zone, schedule, t)
      case Some(again) =>
        && EndsAfterStart(again) && again == schedule.(startDate := again.startDate)
        && SameFrom(zone, again, schedule, nows[|nows| - 1])
  {
    var k := |nows| - 1;
    var earlier := nows[..k];
    if earlier == [] {
      assert RestartedOften(zone, library, schedule, earlier) == Some(schedule);
      RestartKeepsThePlan(zone, library, schedule, nows[k]);
    } else {
      RestartsDoNotDrift(zone, library, schedule, earlier);
      assert earlier[|earlier| - 1] <= nows[k];
      match RestartedOften(zone, library, schedule, earlier) {
        case None =>
        case Some(again) => RestartKeepsThePlan(zone, library, again, nows[k]);
      }
    }
  }

  // ---- The plan against the timers that carry it out ----

  // When the two timers of a schedule attached at `now` are due.
  function StartsAt(schedule: Payload, now: int): int {
    now + Delay(schedule.startDate - now)
  }

  function StopsAt(schedule: Payload, now: int): int
    requires schedule.endDate.Some?
  {
    now + Delay(schedule.endDate.value - now)
  }

  // The stop timer has not halted the task for good. One that is due before the start timer never does.
  predicate StillOn(schedule: Payload, now: int, t: int) {
    schedule.endDate.Some? && StartsAt(schedule, now) <= StopsAt(schedule, now) ==> t <= StopsAt(schedule, now)
  }

  // A schedule attached at `now` runs at this instant: when its start timer fires, if the start lay in the future, and
  // then at every match while its task is on. A stopped schedule has no timers.
  predicate Runs(zone: Zone, schedule: Payload, now: int, t: int) {
    && !schedule.isStopped
    && ((t == StartsAt(schedule, now) && (schedule.cronType == Once || schedule.startDate > now))
        || (t > StartsAt(schedule, now) && FallsOn(zone, schedule, t) && StillOn(schedule, now, t)))
  }

  ghost predicate NoMatch(zone: Zone, schedule: Payload, after: int, upTo: Option<int>) {
    forall t :: after < t && UpTo(t, upTo) ==> !FallsOn(zone, schedule, t)
  }

  // The end comes through: there is none, its timer is in range, or it does not matter. An end out of range fires after
  // a millisecond. If that is after the start, it cuts the recurrence off; otherwise the start undoes it.
  ghost predicate EndComesThrough(zone: Zone, schedule: Payload, now: int) {
    schedule.endDate.Some? && schedule.endDate.value - now > MAX_DELAY ==>
      if schedule.startDate == now + 1 then NoMatch(zone, schedule, now + 1, schedule.endDate)
      else NoMatch(zone, schedule, schedule.endDate.value, None)
  }

  lemma StartOutOfRangeRunsAtOnce(zone: Zone, schedule: Payload, now: int)
    requires !schedule.isStopped && schedule.startDate - now > MAX_DELAY
    ensures Runs(zone, schedule, now, now + 1) && !Planned(zone, schedule, now + 1)
  {
  }

  lemma EndInRangeRunsAsPlanned(zone: Zone, schedule: Payload, now: int, t: int)
    requires EndsAfterStart(schedule) && 0 < schedule.startDate - now <= MAX_DELAY && t > now
    requires schedule.endDate.Some? ==> schedule.endDate.value - now <= MAX_DELAY
    ensures Runs(zone, schedule, now, t) <==> Planned(zone, schedule, t)
  {
  }

  lemma EndOutOfRangeRuns(zone: Zone, schedule: Payload, now: int)
    requires EndsAfterStart(schedule) && !schedule.isStopped && 0 < schedule.startDate - now <= MAX_DELAY
    requires schedule.endDate.Some? && schedule.endDate.value - now > MAX_DELAY
    ensures (forall t :: t > now ==> (Runs(zone, schedule, now, t) <==> Planned(zone, schedule, t)))
            <==> EndComesThrough(zone, schedule, now)
  {
    var end := schedule.endDate.value;
    if forall t :: t > now ==> (Runs(zone, schedule, now, t) <==> Planned(zone, schedule, t)) {
      if schedule.startDate == now + 1 {
        forall t | now + 1 < t && UpTo(t, schedule.endDate)
          ensures !FallsOn(zone, schedule, t)
        {
          assert Runs(zone, schedule, now, t) <==> Planned(zone, schedule, t);
        }
      } else {
        forall t | end < t
          ensures !FallsOn(zone, schedule, t)
        {
          assert Runs(zone, schedule, now, t) <==> Planned(zone, schedule, t);
        }
      }
    }
  }

  // After a restart the schedule runs exactly as planned if and only if it is stopped, or its next run is within the
  // range of one timer and its end comes through.
  lemma RestartRunsAsPlannedExactly(zone: Zone, library: Library, schedule: Payload, now: int)
    requires FindsNext(zone, library) && EndsAfterStart(schedule)
    requires Restarted(zone, library, schedule, now).Some?
    ensures var again := Restarted(zone, library, schedule, now).value;
            (forall t :: t > now ==> (Runs(zone, again, now, t) <==> Planned(zone, schedule, t)))
            <==> again.isStopped || (again.startDate - now <= MAX_DELAY && EndComesThrough(zone, again, now))
  {
    RestartKeepsThePlan(zone, library, schedule, now);
    var again := Restarted(zone, library, schedule, now).value;
    if !again.isStopped {
      if again.startDate - now > MAX_DELAY {
        StartOutOfRangeRunsAtOnce(zone, again, now);
        assert !(Runs(zone, again, now, now + 1) <==> Planned(zone, schedule, now + 1));
      } else if again.endDate.Some? && again.endDate.value - now > MAX_DELAY {
        EndOutOfRangeRuns(zone, again, now);
      } else {
        forall t | t > now
          ensures Runs(zone, again, now, t) <==> Planned(zone, schedule, t)
        {
          EndInRangeRunsAsPlanned(zone, again, now, t);
        }
      }
    }
  }
}
