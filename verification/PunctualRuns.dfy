// One scheduled job in an event loop that is on time: its delegations are exactly the instants where it runs.
module PunctualRuns {
  import opened Wrappers
  import opened Scheduling
  import opened SchedulingTheorems
  import opened Recurrence

  // Somebody delegated at this instant.
  ghost predicate DelegatedAt(s: Schedules, t: int) {
    exists k :: 0 <= k < |s.delegations| && s.delegations[k].at == t
  }

  ghost predicate TaskRuns(s: Schedules) {
    exists e :: e in s.entries && s.entries[e].task == Started
  }

  // The event loop waits neither past a timer that is due nor past a match of a running task, which ticks once at
  // each match after its start.
  ghost predicate OnTime(zone: Zone, s: Schedules, action: Action, now: int, payload: Payload) {
    match action
    case Wait(ms) =>
      ms > 0 ==>
        && (forall t :: t in s.armed ==> s.now + ms <= s.armed[t].due)
        && (TaskRuns(s) ==>
              && (s.now > StartsAt(payload, now) && MatchesSchedule(zone, payload, s.now) ==> DelegatedAt(s, s.now))
              && forall t :: s.now < t < s.now + ms ==> !MatchesSchedule(zone, payload, t))
    case Tick(_) =>
      TaskRuns(s) ==>
        s.now > StartsAt(payload, now) && MatchesSchedule(zone, payload, s.now) && !DelegatedAt(s, s.now)
    case _ => true
  }

  ghost predicate Punctual(zone: Zone, now: int, actions: seq<Action>, payload: Payload) {
    actions == []
    || (var earlier, last := actions[..|actions| - 1], actions[|actions| - 1];
        Punctual(zone, now, earlier, payload) && OnTime(zone, Execute(now, earlier), last, now, payload))
  }

  // The first action schedules the job, and nothing schedules or deletes a job after that.
  ghost predicate SchedulesAndKeeps(actions: seq<Action>, payload: Payload) {
    SchedulesOnly(actions, payload) && forall k :: 0 <= k < |actions| ==> !actions[k].DeleteJob?
  }

  // ---- Where the job stands ----

  // What has become of the task, by the timers that have fired.
  function TaskOf(s: Schedules, now: int, payload: Payload): Task {
    var stopped := payload.endDate.Some? && 1 !in s.armed;
    if payload.cronType == Once then NoTask
    else if 0 in s.armed then if stopped then Halted else Created
    else if stopped && StartsAt(payload, now) <= StopsAt(payload, now) then Halted
    else Started
  }

  ghost predicate OneTimerFits(s: Schedules, t: nat, now: int, payload: Payload)
    requires t in s.armed
  {
    var timer := s.armed[t];
    && s.now <= timer.due && timer.entry == 0 && timer.isStart == (t == 0)
    && if t == 0 then
         timer.due == StartsAt(payload, now) && timer.startWasInTheFuture == (payload.startDate > now)
       else
         t == 1 && payload.endDate.Some? && timer.due == StopsAt(payload, now)
  }

  // Timers that are gone have fired, in the order in which they were due.
  ghost predicate FiredInOrder(s: Schedules, now: int, payload: Payload) {
    && (0 !in s.armed ==> s.now >= StartsAt(payload, now))
    && (payload.endDate.Some? ==>
          && (1 !in s.armed ==> s.now >= StopsAt(payload, now))
          && (0 in s.armed && 1 !in s.armed ==> StopsAt(payload, now) < StartsAt(payload, now))
          && (0 !in s.armed && 1 in s.armed ==> StartsAt(payload, now) <= StopsAt(payload, now)))
  }

  ghost predicate OneJob(s: Schedules, now: int, payload: Payload) {
    && 0 in s.entries && (forall e :: e in s.entries ==> e == 0) && s.entries[0].payload == payload
    && (forall t :: t in s.armed ==> OneTimerFits(s, t, now, payload))
    && if payload.isStopped then s.armed == map[]
       else s.entries[0].task == TaskOf(s, now, payload) && FiredInOrder(s, now, payload)
  }

  // ---- What has been delegated ----

  // The job runs at this instant, and not at the very millisecond of its stop, where the tick may come too late.
  predicate RunsForSure(zone: Zone, payload: Payload, now: int, t: int) {
    && Runs(zone, payload, now, t)
    && (t == StartsAt(payload, now) || payload.endDate.None? || t != StopsAt(payload, now))
  }

  ghost predicate Sound(zone: Zone, s: Schedules, now: int, payload: Payload) {
    forall k :: 0 <= k < |s.delegations| ==>
                  s.delegations[k].at <= s.now && Runs(zone, payload, now, s.delegations[k].at)
  }

  ghost predicate Increasing(s: Schedules) {
    forall k, l :: 0 <= k < l < |s.delegations| ==> s.delegations[k].at < s.delegations[l].at
  }

  // The start has been delegated if it was to be, and every run before now has.
  ghost predicate Complete(zone: Zone, s: Schedules, now: int, payload: Payload) {
    && (0 !in s.armed && Runs(zone, payload, now, StartsAt(payload, now)) ==> DelegatedAt(s, StartsAt(payload, now)))
    && forall t :: t < s.now && RunsForSure(zone, payload, now, t) ==> DelegatedAt(s, t)
  }

  ghost predicate Faithful(zone: Zone, s: Schedules, now: int, payload: Payload) {
    && Sound(zone, s, now, payload) && Increasing(s) && Complete(zone, s, now, payload)
    && (0 in s.armed ==> s.delegations == [])
  }

  // ---- Each action ----

  lemma FirstSchedule(zone: Zone, now: int, payload: Payload)
    requires payload.cronType == Once ==> payload.endDate.None?
    ensures var s := Schedule(Initial(now), payload, true);
            OneJob(s, now, payload) && Faithful(zone, s, now, payload)
  {
    var s := Schedule(Initial(now), payload, true);
    assert forall t :: t < now ==> !Runs(zone, payload, now, t);
  }

  lemma WaitKeepsJob(s: Schedules, ms: nat, now: int, payload: Payload)
    requires OneJob(s, now, payload)
    requires ms > 0 ==> forall t :: t in s.armed ==> s.now + ms <= s.armed[t].due
    ensures OneJob(s.(now := s.now + ms), now, payload)
  {
    var next := s.(now := s.now + ms);
    forall t | t in next.armed
      ensures OneTimerFits(next, t, now, payload)
    {
      assert OneTimerFits(s, t, now, payload);
    }
  }

  // Before a match the task is on, unless the stop is due at that very instant.
  lemma TaskIsOn(zone: Zone, s: Schedules, now: int, payload: Payload, t: int)
    requires OneJob(s, now, payload) && RunsForSure(zone, payload, now, t)
    requires s.now <= t && t > StartsAt(payload, now) && 0 !in s.armed
    ensures TaskRuns(s)
  {
    assert s.entries[0].task == Started;
  }

  // Nothing runs while the start timer is armed.
  lemma NothingRunsBeforeTheStart(zone: Zone, s: Schedules, now: int, payload: Payload, until: int)
    requires OneJob(s, now, payload) && 0 in s.armed && until <= s.armed[0].due
    ensures forall t :: t < until ==> !Runs(zone, payload, now, t)
  {
    assert OneTimerFits(s, 0, now, payload);
  }

  lemma WaitKeepsFaithful(zone: Zone, s: Schedules, ms: nat, now: int, payload: Payload)
    requires OneJob(s, now, payload) && Faithful(zone, s, now, payload) && OnTime(zone, s, Wait(ms), now, payload)
    ensures Faithful(zone, s.(now := s.now + ms), now, payload)
  {
    var next := s.(now := s.now + ms);
    assert forall t :: DelegatedAt(s, t) ==> DelegatedAt(next, t);
    if ms > 0 {
      if 0 in s.armed {
        NothingRunsBeforeTheStart(zone, s, now, payload, next.now);
      } else {
        forall t | s.now <= t < next.now && RunsForSure(zone, payload, now, t)
          ensures DelegatedAt(s, t)
        {
          WaitMissesNothing(zone, s, ms, now, payload, t);
        }
      }
    }
  }

  lemma WaitMissesNothing(zone: Zone, s: Schedules, ms: nat, now: int, payload: Payload, t: int)
    requires OneJob(s, now, payload) && Faithful(zone, s, now, payload) && OnTime(zone, s, Wait(ms), now, payload)
    requires 0 !in s.armed && s.now <= t < s.now + ms && RunsForSure(zone, payload, now, t)
    ensures DelegatedAt(s, t)
  {
    if t > StartsAt(payload, now) {
      TaskIsOn(zone, s, now, payload, t);
      ExpressionFollowsTheCalendar(zone, payload, t);
    }
  }

  lemma StartKeepsJob(s: Schedules, now: int, payload: Payload)
    requires Inv(s) && OneJob(s, now, payload) && IsDue(s, 0)
    requires payload.cronType == Once ==> payload.endDate.None?
    ensures s.now == StartsAt(payload, now) && 0 !in Fire(s, 0).armed && OneJob(Fire(s, 0), now, payload)
  {
    assert TimerFits(s, 0) && EntryFits(s, 0) && OneTimerFits(s, 0, now, payload);
    var next := Fire(s, 0);
    assert next.armed == s.armed - {0};
    forall t | t in next.armed
      ensures OneTimerFits(next, t, now, payload)
    {
      assert OneTimerFits(s, t, now, payload);
    }
    if 1 in s.armed {
      StartIsFirst(s, now, payload);
    }
  }

  // A start that fires while the stop is still armed is not due after it.
  lemma StartIsFirst(s: Schedules, now: int, payload: Payload)
    requires OneJob(s, now, payload) && IsDue(s, 0) && 1 in s.armed
    ensures StartsAt(payload, now) <= StopsAt(payload, now)
  {
    assert OneTimerFits(s, 0, now, payload) && OneTimerFits(s, 1, now, payload);
  }

  lemma StopKeepsJob(s: Schedules, now: int, payload: Payload)
    requires Inv(s) && OneJob(s, now, payload) && IsDue(s, 1) && payload.cronType != Once
    ensures OneJob(Fire(s, 1), now, payload)
    ensures Fire(s, 1).delegations == s.delegations && (0 in Fire(s, 1).armed <==> 0 in s.armed)
  {
    assert OneTimerFits(s, 1, now, payload) && EntryFits(s, 0);
    var next := Fire(s, 1);
    assert next.armed == s.armed - {1};
    forall t | t in next.armed
      ensures OneTimerFits(next, t, now, payload)
    {
      assert OneTimerFits(s, t, now, payload);
    }
    if 0 in s.armed {
      assert OneTimerFits(s, 0, now, payload);
    }
  }

  // A delegation at an instant after all others, where the job runs.
  lemma DelegatingKeepsFaithful(zone: Zone, s: Schedules, next: Schedules, now: int, payload: Payload)
    requires Sound(zone, s, now, payload) && Increasing(s) && Complete(zone, s, now, payload)
    requires next.now == s.now && (0 !in next.armed) && |next.delegations| == |s.delegations| + 1
    requires next.delegations[..|s.delegations|] == s.delegations && next.delegations[|s.delegations|].at == s.now
    requires forall k :: 0 <= k < |s.delegations| ==> s.delegations[k].at < s.now
    requires Runs(zone, payload, now, s.now) && (0 in s.armed ==> s.now == StartsAt(payload, now))
    ensures Faithful(zone, next, now, payload)
  {
    assert forall k :: 0 <= k < |s.delegations| ==> next.delegations[k] == s.delegations[k];
    forall t | DelegatedAt(s, t)
      ensures DelegatedAt(next, t)
    {
      var k :| 0 <= k < |s.delegations| && s.delegations[k].at == t;
      assert next.delegations[k].at == t;
    }
    assert DelegatedAt(next, s.now);
  }

  lemma StartKeepsFaithful(zone: Zone, s: Schedules, now: int, payload: Payload)
    requires Inv(s) && OneJob(s, now, payload) && Faithful(zone, s, now, payload) && IsDue(s, 0)
    requires payload.cronType == Once ==> payload.endDate.None?
    ensures Faithful(zone, Fire(s, 0), now, payload)
  {
    StartKeepsJob(s, now, payload);
    assert OneTimerFits(s, 0, now, payload);
    var next := Fire(s, 0);
    if payload.cronType == Once || payload.startDate > now {
      DelegatingKeepsFaithful(zone, s, next, now, payload);
    } else {
      assert next.delegations == [];
    }
  }

  lemma TickKeepsFaithful(zone: Zone, s: Schedules, e: nat, now: int, payload: Payload)
    requires Inv(s) && OneJob(s, now, payload) && Faithful(zone, s, now, payload)
    requires OnTime(zone, s, Tick(e), now, payload) && e in s.entries && s.entries[e].task == Started
    ensures OneJob(DelegateJob(s, e), now, payload) && Faithful(zone, DelegateJob(s, e), now, payload)
  {
    var next := DelegateJob(s, e);
    assert EntryFits(s, 0) && TaskRuns(s);
    forall t | t in next.armed
      ensures OneTimerFits(next, t, now, payload)
    {
      assert OneTimerFits(s, t, now, payload);
    }
    forall k | 0 <= k < |s.delegations|
      ensures s.delegations[k].at < s.now
    {
      assert DelegatedAt(s, s.delegations[k].at);
    }
    if 1 in s.armed {
      assert OneTimerFits(s, 1, now, payload);
    }
    ExpressionFollowsTheCalendar(zone, payload, s.now);
    assert Runs(zone, payload, now, s.now);
    DelegatingKeepsFaithful(zone, s, next, now, payload);
  }

  // Nothing of what counts has changed.
  lemma UnchangedIsFaithful(zone: Zone, s: Schedules, next: Schedules, now: int, payload: Payload)
    requires Faithful(zone, s, now, payload)
    requires next.delegations == s.delegations && next.now == s.now && (0 in next.armed <==> 0 in s.armed)
    ensures Faithful(zone, next, now, payload)
  {
    assert forall t :: DelegatedAt(s, t) ==> DelegatedAt(next, t);
  }

  lemma NextKeepsFaithful(zone: Zone, s: Schedules, action: Action, now: int, payload: Payload)
    requires Inv(s) && OneJob(s, now, payload) && Faithful(zone, s, now, payload)
    requires payload.cronType == Once ==> payload.endDate.None?
    requires !action.ScheduleJob? && !action.DeleteJob? && OnTime(zone, s, action, now, payload)
    ensures OneJob(Next(s, action), now, payload) && Faithful(zone, Next(s, action), now, payload)
  {
    match action
    case Wait(ms) =>
      WaitKeepsJob(s, ms, now, payload);
      WaitKeepsFaithful(zone, s, ms, now, payload);
    case FireTimer(t) =>
      if IsDue(s, t) {
        assert OneTimerFits(s, t, now, payload);
        if t == 0 {
          StartKeepsJob(s, now, payload);
          StartKeepsFaithful(zone, s, now, payload);
        } else {
          StopKeepsJob(s, now, payload);
          UnchangedIsFaithful(zone, s, Fire(s, 1), now, payload);
        }
      }
    case Tick(e) =>
      if e in s.entries && s.entries[e].task == Started {
        TickKeepsFaithful(zone, s, e, now, payload);
      }
  }

  lemma {:induction false} PunctualIsFaithful(zone: Zone, now: int, actions: seq<Action>, payload: Payload)
    requires SchedulesAndKeeps(actions, payload) && Punctual(zone, now, actions, payload)
    requires payload.cronType == Once ==> payload.endDate.None?
    ensures OneJob(Execute(now, actions), now, payload) && Faithful(zone, Execute(now, actions), now, payload)
  {
    var earlier := actions[..|actions| - 1];
    if earlier == [] {
      assert Execute(now, earlier) == Initial(now);
      FirstSchedule(zone, now, payload);
    } else {
      PunctualIsFaithful(zone, now, earlier, payload);
      ReachableInv(now, earlier);
      NextKeepsFaithful(zone, Execute(now, earlier), actions[|actions| - 1], now, payload);
    }
  }

  // In every punctual run of one schedule, with any start and end, the delegations are exactly the instants up to now
  // where the schedule runs, each once and in order. Only a match at the very millisecond of the stop may or may not
  // be served. A `once` schedule has no end.
  lemma DelegationsAreExactlyTheRuns(zone: Zone, now: int, actions: seq<Action>, payload: Payload)
    requires SchedulesAndKeeps(actions, payload) && Punctual(zone, now, actions, payload)
    requires payload.cronType == Once ==> payload.endDate.None?
    ensures var s := Execute(now, actions);
            && Increasing(s)
            && (forall k :: 0 <= k < |s.delegations| ==> Runs(zone, payload, now, s.delegations[k].at))
            && (forall t :: t < s.now && RunsForSure(zone, payload, now, t) ==> DelegatedAt(s, t))
  {
    PunctualIsFaithful(zone, now, actions, payload);
  }

  // ---- After a restart ----

  // Only a match at the very instant of the end may go unserved, unless the schedule starts there.
  predicate PlannedForSure(zone: Zone, schedule: Payload, start: int, t: int) {
    Planned(zone, schedule, t) && (schedule.endDate == Some(t) ==> t == start)
  }

  // The run of a plan that is carried out is for sure as long as the plan is.
  lemma PlannedRunsForSure(zone: Zone, again: Payload, now: int, t: int)
    requires again.startDate > now && again.startDate - now <= MAX_DELAY && t >= again.startDate
    requires Runs(zone, again, now, t) && (again.endDate == Some(t) ==> t == again.startDate)
    ensures RunsForSure(zone, again, now, t)
  {
  }

  lemma RunsComeLater(zone: Zone, again: Payload, now: int, t: int)
    requires Runs(zone, again, now, t)
    ensures t > now
  {
  }

  // After a restart that meets the condition for running as planned, the delegations of every punctual run are exactly
  // the planned instants of the persisted schedule after the restart, each once and in order.
  lemma RestartedDelegationsAreThePlan(zone: Zone, library: Library, schedule: Payload, now: int, actions: seq<Action>)
    requires FindsNext(zone, library) && EndsAfterStart(schedule)
    requires Restarted(zone, library, schedule, now).Some?
    requires var again := Restarted(zone, library, schedule, now).value;
             && (again.isStopped || (again.startDate - now <= MAX_DELAY && EndComesThrough(zone, again, now)))
             && SchedulesAndKeeps(actions, again) && Punctual(zone, now, actions, again)
    requires schedule.cronType == Once ==> schedule.endDate.None?
    ensures var start, s := Restarted(zone, library, schedule, now).value.startDate, Execute(now, actions);
            && Increasing(s)
            && (forall k :: 0 <= k < |s.delegations| ==>
                  now < s.delegations[k].at <= s.now && Planned(zone, schedule, s.delegations[k].at))
            && (forall t :: now < t < s.now && PlannedForSure(zone, schedule, start, t) ==> DelegatedAt(s, t))
  {
    var again, s := Restarted(zone, library, schedule, now).value, Execute(now, actions);
    RestartKeepsThePlan(zone, library, schedule, now);
    RestartRunsAsPlannedExactly(zone, library, schedule, now);
    PunctualIsFaithful(zone, now, actions, again);
    forall k | 0 <= k < |s.delegations|
      ensures now < s.delegations[k].at && Planned(zone, schedule, s.delegations[k].at)
    {
      RunsComeLater(zone, again, now, s.delegations[k].at);
    }
    forall t | now < t < s.now && PlannedForSure(zone, schedule, again.startDate, t)
      ensures DelegatedAt(s, t)
    {
      assert Runs(zone, again, now, t) && Planned(zone, again, t);
      PlannedRunsForSure(zone, again, now, t);
    }
  }
}
