// Start-up: every persisted job that still has a run to come is scheduled and registered again.
module Startup {
  import opened Wrappers
  import JobExecutions
  import opened Scheduling
  import opened SchedulingTheorems
  import opened Recurrence
  import opened Delegating
  import opened SchedulerService

  datatype PersistedSchedule = PersistedSchedule(
    cronType: CronType, startDate: int, endDate: Option<int>, isStopped: bool)

  datatype PersistedJob = PersistedJob(
    id: string, userId: string, tools: seq<JobExecutions.Tool>, schedule: Option<PersistedSchedule>)

  function TypeName(cronType: CronType): string {
    match cronType
    case Once => "once"
    case Daily => "daily"
    case Weekly => "weekly"
    case Monthly => "monthly"
    case Yearly => "yearly"
  }

  function PayloadOf(job: PersistedJob): Payload
    requires job.schedule.Some?
  {
    var schedule := job.schedule.value;
    Payload(job.id, job.userId, schedule.cronType, schedule.startDate, schedule.endDate, schedule.isStopped)
  }

  // What a job is scheduled with at start-up, if it is.
  function ResumedAs(zone: Zone, library: Library, job: PersistedJob, now: int): Option<Payload> {
    if job.schedule.None? then None else Restarted(zone, library, PayloadOf(job), now)
  }

  function Scheduled(resumed: Option<Payload>): seq<Action> {
    match resumed
    case None => []
    case Some(payload) => [ScheduleJob(payload, true)]
  }

  // The calls that start-up makes, in the order of the jobs.
  function Schedulings(zone: Zone, library: Library, jobs: seq<PersistedJob>, now: int): seq<Action> {
    if jobs == [] then []
    else
      Schedulings(zone, library, jobs[..|jobs| - 1], now) + Scheduled(ResumedAs(zone, library, jobs[|jobs| - 1], now))
  }

  function RegisteredAs(job: PersistedJob): Pending
    requires job.schedule.Some?
  {
    Pending(job.id, job.userId, job.tools, Some(TypeName(job.schedule.value.cronType)))
  }

  function Registrations(zone: Zone, library: Library, jobs: seq<PersistedJob>, now: int): map<string, Pending> {
    if jobs == [] then map[]
    else
      var earlier, job := Registrations(zone, library, jobs[..|jobs| - 1], now), jobs[|jobs| - 1];
      if ResumedAs(zone, library, job, now).Some? then earlier[job.id := RegisteredAs(job)] else earlier
  }

  lemma OneMoreJob(zone: Zone, library: Library, jobs: seq<PersistedJob>, i: nat, now: int, before: seq<Action>)
    requires i < |jobs|
    ensures (before + Schedulings(zone, library, jobs[..i], now)) + Scheduled(ResumedAs(zone, library, jobs[i], now))
         == before + Schedulings(zone, library, jobs[..i + 1], now)
    ensures Registrations(zone, library, jobs[..i + 1], now)
         == if ResumedAs(zone, library, jobs[i], now).Some?
            then Registrations(zone, library, jobs[..i], now)[jobs[i].id := RegisteredAs(jobs[i])]
            else Registrations(zone, library, jobs[..i], now)
  {
    assert jobs[..i + 1][..i] == jobs[..i];
    assert Schedulings(zone, library, jobs[..i + 1], now)
        == Schedulings(zone, library, jobs[..i], now) + Scheduled(ResumedAs(zone, library, jobs[i], now));
  }

  // The loop of `initializeDatabase`. Reading the clock again for every job is left out: the loop takes no time.
  method InitializeDatabase(zone: Zone, library: Library, jobs: seq<PersistedJob>, scheduler: Scheduler, delegator: Delegator)
    requires scheduler.Valid() && delegator.pendingJobs == map[]
    modifies scheduler, scheduler.entries.Values, delegator`pendingJobs
    ensures scheduler.Valid() && scheduler.now == old(scheduler.now)
    ensures scheduler.actions == old(scheduler.actions) + Schedulings(zone, library, jobs, old(scheduler.now))
    ensures delegator.pendingJobs == Registrations(zone, library, jobs, old(scheduler.now))
  {
    var i := 0;
    assert old(scheduler.actions) + [] == old(scheduler.actions);
    while i < |jobs|
      invariant 0 <= i <= |jobs| && scheduler.Valid() && scheduler.now == old(scheduler.now)
      invariant scheduler.actions == old(scheduler.actions) + Schedulings(zone, library, jobs[..i], scheduler.now)
      invariant delegator.pendingJobs == Registrations(zone, library, jobs[..i], scheduler.now)
      invariant forall job :: job in scheduler.entries.Values ==> job in old(scheduler.entries.Values) || fresh(job)
    {
      InitializeJob(zone, library, jobs[i], scheduler, delegator);
      OneMoreJob(zone, library, jobs, i, scheduler.now, old(scheduler.actions));
      i := i + 1;
    }
    assert jobs[..|jobs|] == jobs;
  }

  // The loop body.
  method InitializeJob(zone: Zone, library: Library, job: PersistedJob, scheduler: Scheduler, delegator: Delegator)
    requires scheduler.Valid()
    modifies scheduler, scheduler.entries.Values, delegator`pendingJobs
    ensures scheduler.Valid() && scheduler.now == old(scheduler.now)
    ensures scheduler.actions == old(scheduler.actions) + Scheduled(ResumedAs(zone, library, job, scheduler.now))
    ensures delegator.pendingJobs
         == if ResumedAs(zone, library, job, scheduler.now).Some? then old(delegator.pendingJobs)[job.id := RegisteredAs(job)]
            else old(delegator.pendingJobs)
    ensures forall other :: other in scheduler.entries.Values ==> other in old(scheduler.entries.Values) || fresh(other)
  {
    var resumed := Resume(zone, library, job, scheduler.now);
    if resumed.Some? {
      ScheduleAgain(resumed.value, scheduler);
      delegator.Register(RegisteredAs(job));
    }
  }

  // An expression that the scheduler itself derived is valid.
  method ScheduleAgain(payload: Payload, scheduler: Scheduler)
    requires scheduler.Valid()
    modifies scheduler, scheduler.entries.Values
    ensures scheduler.Valid() && scheduler.now == old(scheduler.now)
    ensures scheduler.actions == old(scheduler.actions) + [ScheduleJob(payload, true)]
    ensures forall job :: job in scheduler.entries.Values ==> job in old(scheduler.entries.Values) || fresh(job)
  {
    var attached := scheduler.Schedule(payload, true);
  }

  // The branches of the loop body.
  method Resume(zone: Zone, library: Library, job: PersistedJob, now: int) returns (resumed: Option<Payload>)
    ensures resumed == ResumedAs(zone, library, job, now)
  {
    if job.schedule.None? {
      return None;
    }
    var schedule := PayloadOf(job);
    if schedule.endDate.Some? && schedule.endDate.value < now {
      return None;
    }
    if schedule.startDate > now {
      return Some(schedule);
    }
    if schedule.cronType == Once {
      return None;
    }
    var expression := FormatCronExpression(zone, schedule.startDate, schedule.cronType);
    var nextRun := NextRunDate(library, expression.value, schedule.startDate, schedule.endDate, now);
    if nextRun.None? {
      return None;
    }
    return Some(schedule.(startDate := nextRun.value));
  }

  ghost predicate DistinctIds(jobs: seq<PersistedJob>) {
    forall i, j :: 0 <= i < j < |jobs| ==> jobs[i].id != jobs[j].id
  }

  // A job is registered, with its own tools, exactly when it has a schedule, stopped or not, whose recurrence has an
  // instant still to come; a run of a `once` job that was missed is not made up for.
  lemma {:induction false} RegisteredExactlyWithInstantsToCome(zone: Zone, library: Library, jobs: seq<PersistedJob>,
                                                          now: int, k: nat)
    requires FindsNext(zone, library) && DistinctIds(jobs) && k < |jobs|
    requires jobs[k].schedule.Some? ==> EndsAfterStart(PayloadOf(jobs[k]))
    ensures var registered := Registrations(zone, library, jobs, now);
            && (jobs[k].id in registered
                <==> jobs[k].schedule.Some? && exists t :: t > now && Recurs(zone, PayloadOf(jobs[k]), t))
            && (jobs[k].id in registered ==>
                  && registered[jobs[k].id] == RegisteredAs(jobs[k])
                  && jobs[k].schedule.Some? && RegistersJob(registered[jobs[k].id], jobs[k]))
  {
    if jobs[k].schedule.Some? {
      RegistrationIsTheJobs(jobs[k]);
    }
    var earlier, last := jobs[..|jobs| - 1], jobs[|jobs| - 1];
    if k < |jobs| - 1 {
      assert earlier[k] == jobs[k];
      RegisteredExactlyWithInstantsToCome(zone, library, earlier, now, k);
    } else {
      NotRegistered(zone, library, earlier, now, last.id);
      if last.schedule.Some? {
        AttachedExactlyWithInstantsToCome(zone, library, PayloadOf(last), now);
      }
    }
  }

  lemma {:induction false} NotRegistered(zone: Zone, library: Library, jobs: seq<PersistedJob>, now: int, id: string)
    requires forall i :: 0 <= i < |jobs| ==> jobs[i].id != id
    ensures id !in Registrations(zone, library, jobs, now)
  {
    if jobs != [] {
      NotRegistered(zone, library, jobs[..|jobs| - 1], now, id);
    }
  }

  // Every job that is registered is scheduled, and the other way around.
  lemma {:induction false} ScheduledExactlyAsRegistered(zone: Zone, library: Library, jobs: seq<PersistedJob>, now: int,
                                                       id: string)
    ensures id in Registrations(zone, library, jobs, now)
            <==> exists k :: 0 <= k < |Schedulings(zone, library, jobs, now)|
                             && Schedulings(zone, library, jobs, now)[k].ScheduleJob?
                             && Schedulings(zone, library, jobs, now)[k].payload.jobId == id
  {
    if jobs != [] {
      var earlier, job := jobs[..|jobs| - 1], jobs[|jobs| - 1];
      var before, calls := Schedulings(zone, library, earlier, now), Schedulings(zone, library, jobs, now);
      ScheduledExactlyAsRegistered(zone, library, earlier, now, id);
      assert forall k :: 0 <= k < |before| ==> calls[k] == before[k];
      if ResumedAs(zone, library, job, now).Some? {
        assert calls[|before|] == ScheduleJob(ResumedAs(zone, library, job, now).value, true);
        assert calls[|before|].payload.jobId == job.id;
      }
    }
  }

  // The payload is the persisted job's: its id and user, its type, its end and whether it is stopped. It starts where the
  // job does if that lies ahead, and otherwise at the first instant of its recurrence that does.
  ghost predicate ResumesJob(zone: Zone, payload: Payload, job: PersistedJob, now: int)
    requires job.schedule.Some?
  {
    var persisted := job.schedule.value;
    && payload.jobId == job.id && payload.userId == job.userId
    && payload.cronType == persisted.cronType && payload.endDate == persisted.endDate
    && payload.isStopped == persisted.isStopped && payload.startDate > now
    && if persisted.startDate > now then payload.startDate == persisted.startDate
       else
         var original := payload.(startDate := persisted.startDate);
         && FallsOn(zone, original, payload.startDate)
         && forall t :: now < t < payload.startDate ==> !FallsOn(zone, original, t)
  }

  lemma ResumedPayload(zone: Zone, library: Library, job: PersistedJob, now: int)
    requires FindsNext(zone, library) && ResumedAs(zone, library, job, now).Some?
    ensures ResumesJob(zone, ResumedAs(zone, library, job, now).value, job, now)
  {
    var payload, persisted := ResumedAs(zone, library, job, now).value, job.schedule.value;
    var original := payload.(startDate := persisted.startDate);
    assert original == PayloadOf(job);
    if persisted.startDate <= now {
      forall t
        ensures MatchesSchedule(zone, original, t) <==> FallsOn(zone, original, t)
      {
        ExpressionFollowsTheCalendar(zone, original, t);
      }
    }
  }

  // A job that is resumed is scheduled as itself.
  lemma ResumedJobsKeepTheirSchedule(zone: Zone, library: Library, jobs: seq<PersistedJob>, now: int, k: nat)
    requires FindsNext(zone, library) && k < |jobs| && ResumedAs(zone, library, jobs[k], now).Some?
    ensures var payload := ResumedAs(zone, library, jobs[k], now).value;
            ScheduleJob(payload, true) in Schedulings(zone, library, jobs, now) && ResumesJob(zone, payload, jobs[k], now)
  {
    ResumedJobsAreScheduled(zone, library, jobs, now, k);
    ResumedPayload(zone, library, jobs[k], now);
  }

  // What is registered is the persisted job's, and the delegator will keep it after a run exactly when it recurs.
  ghost predicate RegistersJob(pending: Pending, job: PersistedJob)
    requires job.schedule.Some?
  {
    && pending.jobId == job.id && pending.userId == job.userId && pending.tools == job.tools
    && (IsRecurring(pending.scheduleType) <==> job.schedule.value.cronType != Once)
    && pending.scheduleType == match job.schedule.value.cronType
                               case Once => Some("once")
                               case Daily => Some("daily")
                               case Weekly => Some("weekly")
                               case Monthly => Some("monthly")
                               case Yearly => Some("yearly")
  }

  lemma RegistrationIsTheJobs(job: PersistedJob)
    requires job.schedule.Some?
    ensures RegistersJob(RegisteredAs(job), job)
  {
    assert "daily"[0] == 'd' && "weekly"[0] == 'w' && "monthly"[0] == 'm' && "yearly"[0] == 'y' && "once"[0] == 'o';
  }

  lemma {:induction false} ResumedJobsAreScheduled(zone: Zone, library: Library, jobs: seq<PersistedJob>, now: int, k: nat)
    requires k < |jobs| && ResumedAs(zone, library, jobs[k], now).Some?
    ensures ScheduleJob(ResumedAs(zone, library, jobs[k], now).value, true) in Schedulings(zone, library, jobs, now)
  {
    var earlier := jobs[..|jobs| - 1];
    if k < |earlier| {
      assert earlier[k] == jobs[k];
      ResumedJobsAreScheduled(zone, library, earlier, now, k);
    }
  }

  // A stopped job with instants to come is scheduled and registered all the same, and however the scheduler goes on,
  // that schedule never delegates.
  lemma StoppedJobIsKeptButNeverRuns(zone: Zone, library: Library, jobs: seq<PersistedJob>, now: int, k: nat,
                                     startedAt: int, actions: seq<Action>)
    requires FindsNext(zone, library) && DistinctIds(jobs) && k < |jobs|
    requires jobs[k].schedule.Some? && jobs[k].schedule.value.isStopped
    requires EndsAfterStart(PayloadOf(jobs[k])) && exists t :: t > now && Recurs(zone, PayloadOf(jobs[k]), t)
    ensures var registered := Registrations(zone, library, jobs, now);
            jobs[k].id in registered && registered[jobs[k].id] == RegisteredAs(jobs[k])
    ensures var resumed, s := ResumedAs(zone, library, jobs[k], now), Execute(startedAt, actions);
            && resumed.Some? && resumed.value.isStopped
            && ScheduleJob(resumed.value, true) in Schedulings(zone, library, jobs, now)
            && forall e :: e in s.entries && s.entries[e].payload == resumed.value ==> Count(s.delegations, e) == 0
  {
    RegisteredExactlyWithInstantsToCome(zone, library, jobs, now, k);
    StoppedPlanIsAttached(zone, library, jobs[k], now);
    ResumedJobsAreScheduled(zone, library, jobs, now, k);
    var resumed, s := ResumedAs(zone, library, jobs[k], now), Execute(startedAt, actions);
    forall e | e in s.entries && s.entries[e].payload == resumed.value
      ensures Count(s.delegations, e) == 0
    {
      StoppedSchedulesNeverDelegate(startedAt, actions, e);
    }
  }

  lemma StoppedPlanIsAttached(zone: Zone, library: Library, job: PersistedJob, now: int)
    requires FindsNext(zone, library) && job.schedule.Some? && job.schedule.value.isStopped
    requires EndsAfterStart(PayloadOf(job)) && exists t :: t > now && Recurs(zone, PayloadOf(job), t)
    ensures ResumedAs(zone, library, job, now).Some? && ResumedAs(zone, library, job, now).value.isStopped
  {
    AttachedExactlyWithInstantsToCome(zone, library, PayloadOf(job), now);
    RestartKeepsThePlan(zone, library, PayloadOf(job), now);
  }
}
