// The scheduler itself: its map of cron jobs and the event loop's armed timeouts, updated in place. Every method is the
// transition of the same name.
module SchedulerService {
  import opened Wrappers
  import opened Scheduling
  import opened SchedulingEffects

  // One job attached in memory. `number` tells the attachments of one job apart.
  class CronJob {
    ghost const number: nat
    const payload: Payload
    var cronTask: Task
    var status: Status
    var startTimeoutId: Option<nat>
    var stopTimeoutId: Option<nat>

    ghost function View(): Entry
      reads this
    {
      Entry(payload, cronTask, status, startTimeoutId, stopTimeoutId)
    }

    constructor (ghost number: nat, payload: Payload)
      ensures this.number == number
      ensures View() == Entry(payload, if payload.cronType == Once then NoTask else Created,
                              if payload.isStopped then StoppedSchedule else Idle, None, None)
    {
      this.number, this.payload := number, payload;
      cronTask := if payload.cronType == Once then NoTask else Created;
      status := if payload.isStopped then StoppedSchedule else Idle;
      startTimeoutId, stopTimeoutId := None, None;
    }
  }

  // What an armed timeout's callback captured.
  class Timeout {
    const job: CronJob
    const isStart: bool
    const due: int
    const startWasInTheFuture: bool

    ghost function View(): Timer {
      Timer(job.number, isStart, due, startWasInTheFuture)
    }

    constructor (job: CronJob, isStart: bool, due: int, startWasInTheFuture: bool)
      ensures this.job == job && View() == Timer(job.number, isStart, due, startWasInTheFuture)
    {
      this.job, this.isStart, this.due, this.startWasInTheFuture := job, isStart, due, startWasInTheFuture;
    }
  }

  class Scheduler {
    var now: int
    var cronJobs: map<string, CronJob>
    var armed: map<nat, Timeout>
    var nextTimer: nat

    // Every attachment so far, every call of `delegateScheduledJob`, and every action.
    ghost const startedAt: int
    ghost var nextEntry: nat
    ghost var entries: map<nat, CronJob>
    ghost var delegations: seq<Delegated>
    ghost var actions: seq<Action>

    ghost predicate Owns(job: CronJob)
      reads `entries
    {
      job.number in entries && entries[job.number] == job
    }

    ghost predicate Wired()
      reads `cronJobs, `armed, `entries, `nextEntry
    {
      && (forall n :: n in entries ==> entries[n].number == n && n < nextEntry)
      && (forall jobId :: jobId in cronJobs ==> Owns(cronJobs[jobId]))
      && (forall t :: t in armed ==> Owns(armed[t].job))
    }

    ghost function Stored(): map<string, nat>
      reads `cronJobs
    {
      map jobId | jobId in cronJobs :: cronJobs[jobId].number
    }

    ghost function Timers(): map<nat, Timer>
      reads `armed
    {
      map t | t in armed :: armed[t].View()
    }

    ghost function EntryViews(): map<nat, Entry>
      reads `entries, entries.Values
    {
      map n | n in entries :: entries[n].View()
    }

    ghost function View(): Schedules
      reads `now, `nextEntry, `nextTimer, `cronJobs, `entries, entries.Values, `armed, `delegations
    {
      Schedules(now, nextEntry, nextTimer, Stored(), EntryViews(), Timers(), delegations)
    }

    // The scheduler is in the state that its actions lead to.
    ghost predicate Valid()
      reads this, entries.Values
    {
      Wired() && View() == Execute(startedAt, actions)
    }

    constructor (now: int)
      ensures Valid() && startedAt == now && actions == []
    {
      this.now, cronJobs, armed, nextTimer := now, map[], map[], 0;
      startedAt, nextEntry, entries, delegations, actions := now, 0, map[], [], [];
      new;
      assert View() == Initial(now);
    }

    // Only `job` has changed since the old state.
    twostate lemma OneJobChanged(job: CronJob)
      requires old(Wired()) && old(Owns(job)) && entries == old(entries)
      requires forall other :: other in entries.Values && other != job ==> unchanged(other)
      ensures EntryViews() == old(EntryViews())[job.number := job.View()]
    {
      forall n | n in entries
        ensures n != job.number ==> entries[n].View() == old(entries[n].View())
      {
        assert entries[n] in entries.Values;
      }
    }

    // The action just taken joins the record of actions.
    ghost method Took(before: Schedules, action: Action)
      requires Wired() && before == Execute(startedAt, actions) && View() == Next(before, action)
      modifies `actions
      ensures Valid() && View() == old(View()) && actions == old(actions) + [action]
    {
      assert (actions + [action])[..|actions|] == actions;
      actions := actions + [action];
    }

    // ---- The calls ----

    // False when the expression was refused: the old attachment is gone and there is no new one.
    method Schedule(payload: Payload, cronIsValid: bool) returns (attached: bool)
      requires Valid()
      modifies `armed, `cronJobs, `nextTimer, `entries, `nextEntry, `actions, entries.Values
      ensures Valid() && actions == old(actions) + [ScheduleJob(payload, cronIsValid)]
      ensures attached == (payload.cronType == Once || cronIsValid)
      ensures OthersStay(old(View()), View(), payload.jobId)
      ensures if attached then AttachedAnew(old(View()), View(), payload) else Gone(View(), payload.jobId)
      ensures forall job :: job in entries.Values ==> job in old(entries.Values) || fresh(job)
    {
      ghost var before := View();
      Teardown(payload.jobId);
      attached := payload.cronType == Once || cronIsValid;
      if attached {
        Attach(payload);
      }
      Took(before, ScheduleJob(payload, cronIsValid));
      ScheduleReplacesTheJob(startedAt, old(actions), payload, cronIsValid);
    }

    method Delete(jobId: string)
      requires Valid()
      modifies `armed, `cronJobs, `actions, entries.Values
      ensures Valid() && actions == old(actions) + [DeleteJob(jobId)]
      ensures Gone(View(), jobId) && OthersStay(old(View()), View(), jobId)
    {
      ghost var before := View();
      Teardown(jobId);
      Took(before, DeleteJob(jobId));
      DeleteRemovesTheJob(startedAt, old(actions), jobId);
    }

    // Clears the timeouts, destroys the task and forgets the job.
    method Teardown(jobId: string)
      requires Wired()
      modifies `armed, `cronJobs, entries.Values
      ensures Wired() && View() == Scheduling.Teardown(old(View()), jobId)
    {
      if jobId in cronJobs {
        var job := cronJobs[jobId];
        assert job in entries.Values;
        ghost var before := View();
        ClearTimeouts(job);
        DestroyTask(job);
        Forget(jobId);
        assert View() == before.(armed := Timers(), entries := EntryViews(), cronJobs := Stored());
      }
    }

    method DestroyTask(job: CronJob)
      requires Wired() && Owns(job)
      modifies job`cronTask
      ensures EntryViews() == old(EntryViews())[job.number := old(job.View()).(task := Destroy(old(job.cronTask)))]
    {
      if job.cronTask != NoTask {
        job.cronTask := Task.Destroyed;
      }
      OneJobChanged(job);
    }

    method Forget(jobId: string)
      requires Wired()
      modifies `cronJobs
      ensures Wired() && Stored() == old(Stored()) - {jobId}
    {
      cronJobs := cronJobs - {jobId};
      assert Stored() == old(Stored()) - {jobId};
    }

    method ClearTimeouts(job: CronJob)
      requires Wired()
      modifies `armed
      ensures Wired() && Timers() == old(Timers()) - TimersOf(job.View())
    {
      if job.startTimeoutId.Some? {
        armed := armed - {job.startTimeoutId.value};
      }
      if job.stopTimeoutId.Some? {
        armed := armed - {job.stopTimeoutId.value};
      }
      assert Timers() == old(Timers()) - TimersOf(job.View());
    }

    // Builds the job, arms its timeouts unless it is attached stopped, and stores it.
    method Attach(payload: Payload)
      requires Wired()
      modifies `armed, `nextTimer, `cronJobs, `entries, `nextEntry
      ensures Wired() && View() == Scheduling.Attach(old(View()), payload)
      ensures forall job :: job in entries.Values ==> job in old(entries.Values) || fresh(job)
    {
      var job := MakeArmed(payload);
      Store(payload.jobId, job);
    }

    method MakeArmed(payload: Payload) returns (job: CronJob)
      requires Wired()
      modifies `armed, `nextTimer, `entries, `nextEntry
      ensures Wired() && fresh(job) && Owns(job) && job.number == old(nextEntry) && nextEntry == old(nextEntry) + 1
      ensures entries == old(entries)[job.number := job]
      ensures EntryViews() == old(EntryViews())[job.number := NewEntry(old(View()), payload)]
      ensures Timers() == Arm(old(View()), payload) && nextTimer == old(nextTimer) + TimersOfPayload(payload)
    {
      ghost var before := View();
      job := MakeJob(payload);
      label made:
      ArmTimeouts(before, job);
      OneJobChanged@made(job);
      assert job.View() == NewEntry(before, payload);
    }

    method Store(jobId: string, job: CronJob)
      requires Wired() && Owns(job)
      modifies `cronJobs
      ensures Wired() && Stored() == old(Stored())[jobId := job.number]
    {
      cronJobs := cronJobs[jobId := job];
      assert Stored() == old(Stored())[jobId := job.number];
    }

    method MakeJob(payload: Payload) returns (job: CronJob)
      requires Wired()
      modifies `entries, `nextEntry
      ensures Wired() && fresh(job) && Owns(job) && job.payload == payload && job.number == old(nextEntry)
      ensures job.startTimeoutId.None? && job.stopTimeoutId.None? && nextEntry == old(nextEntry) + 1
      ensures entries == old(entries)[job.number := job]
      ensures EntryViews() == old(EntryViews())[job.number := job.View()]
      ensures job.View() == Entry(payload, if payload.cronType == Once then NoTask else Created,
                                  if payload.isStopped then StoppedSchedule else Idle, None, None)
    {
      job := new CronJob(nextEntry, payload);
      entries := entries[nextEntry := job];
      nextEntry := nextEntry + 1;
      assert EntryViews() == old(EntryViews())[job.number := job.View()];
    }

    method ArmTimeouts(ghost before: Schedules, job: CronJob)
      requires Wired() && Owns(job) && job.startTimeoutId.None? && job.stopTimeoutId.None?
      requires before.now == now && before.nextEntry == job.number && before.nextTimer == nextTimer
      requires before.armed == Timers()
      modifies `armed, `nextTimer, job
      ensures Wired() && Timers() == Arm(before, job.payload) && nextTimer == old(nextTimer) + TimersOfPayload(job.payload)
      ensures job.View() == old(job.View()).(startTimeoutId := NewEntry(before, job.payload).startTimeoutId,
                                             stopTimeoutId := NewEntry(before, job.payload).stopTimeoutId)
    {
      if !job.payload.isStopped {
        ArmStart(job);
        if job.payload.endDate.Some? {
          ArmStop(job);
        }
      }
    }

    method ArmStart(job: CronJob)
      requires Wired() && Owns(job)
      modifies `armed, `nextTimer, job`startTimeoutId
      ensures Wired() && nextTimer == old(nextTimer) + 1 && job.startTimeoutId == Some(old(nextTimer))
      ensures Timers() == old(Timers())[old(nextTimer) := Timer(job.number, true, now + Delay(job.payload.startDate - now),
                                                                job.payload.startDate - now > 0)]
    {
      var msToStart := job.payload.startDate - now;
      var id := SetTimeout(job, true, msToStart, msToStart > 0);
      job.startTimeoutId := Some(id);
    }

    method ArmStop(job: CronJob)
      requires Wired() && Owns(job) && job.payload.endDate.Some?
      modifies `armed, `nextTimer, job`stopTimeoutId
      ensures Wired() && nextTimer == old(nextTimer) + 1 && job.stopTimeoutId == Some(old(nextTimer))
      ensures Timers() == old(Timers())[old(nextTimer) := Timer(job.number, false,
                                                                now + Delay(job.payload.endDate.value - now), false)]
    {
      var msToEnd := job.payload.endDate.value - now;
      var id := SetTimeout(job, false, msToEnd, false);
      job.stopTimeoutId := Some(id);
    }

    method SetTimeout(job: CronJob, isStart: bool, ms: int, startWasInTheFuture: bool) returns (id: nat)
      requires Wired() && Owns(job)
      modifies `armed, `nextTimer
      ensures Wired() && id == old(nextTimer) && nextTimer == id + 1
      ensures Timers() == old(Timers())[id := Timer(job.number, isStart, now + Delay(ms), startWasInTheFuture)]
    {
      id := nextTimer;
      var timeout := new Timeout(job, isStart, now + Delay(ms), startWasInTheFuture);
      armed := armed[id := timeout];
      nextTimer := nextTimer + 1;
      assert Timers() == old(Timers())[id := timeout.View()];
    }

    // ---- The event loop ----

    method Wait(ms: nat)
      requires Valid()
      modifies `now, `actions
      ensures Valid() && now == old(now) + ms && actions == old(actions) + [Action.Wait(ms)]
    {
      ghost var before := View();
      now := now + ms;
      Took(before, Action.Wait(ms));
    }

    // A timeout that is due fires.
    method FireTimer(id: nat)
      requires Valid() && IsDue(View(), id)
      modifies `armed, `cronJobs, `delegations, `actions, entries.Values
      ensures Valid() && actions == old(actions) + [Action.FireTimer(id)]
    {
      ghost var before := View();
      var timeout := armed[id];
      assert timeout.job in entries.Values;
      armed := armed - {id};
      assert Timers() == before.armed - {id};
      ghost var rest := View();
      assert rest == before.(armed := before.armed - {id});
      if timeout.isStart {
        OnStart(timeout.job, timeout.startWasInTheFuture);
      } else {
        OnStop(timeout.job);
      }
      Took(before, Action.FireTimer(id));
    }

    // The start callback.
    method OnStart(job: CronJob, startWasInTheFuture: bool)
      requires Wired() && Owns(job)
      modifies `armed, `cronJobs, `delegations, entries.Values
      ensures Wired() && View() == StartFires(old(View()), job.number, startWasInTheFuture)
    {
      assert job in entries.Values;
      if job.payload.cronType == Once {
        DelegateScheduledJob(job);
        Teardown(job.payload.jobId);
      } else {
        if startWasInTheFuture {
          DelegateScheduledJob(job);
        }
        SetTask(job, Started);
      }
    }

    // The stop callback. A `once` job has no task, so the callback throws at once.
    method OnStop(job: CronJob)
      requires Wired() && Owns(job)
      modifies job
      ensures Wired() && View() == StopFires(old(View()), job.number)
    {
      if job.cronTask == NoTask {
        return;
      }
      if job.cronTask != Task.Destroyed {
        job.cronTask := Halted;
      }
      job.status := StoppedSchedule;
      OneJobChanged(job);
    }

    method SetTask(job: CronJob, task: Task)
      requires Wired() && Owns(job)
      modifies job
      ensures Wired() && View() == Scheduling.SetTask(old(View()), job.number, task)
    {
      if job.cronTask != Task.Destroyed {
        job.cronTask := task;
      }
      OneJobChanged(job);
    }

    // A running task's expression matches.
    method Tick(job: CronJob)
      requires Valid() && Owns(job) && job.cronTask == Started
      modifies `delegations, `actions
      ensures Valid() && actions == old(actions) + [Action.Tick(job.number)]
    {
      ghost var before := View();
      DelegateScheduledJob(job);
      Took(before, Action.Tick(job.number));
    }

    // Hands the job to the delegator.
    ghost method DelegateScheduledJob(job: CronJob)
      requires Wired() && Owns(job)
      modifies `delegations
      ensures Wired() && View() == DelegateJob(old(View()), job.number)
    {
      delegations := delegations + [Delegated(job.number, job.payload.jobId, now)];
    }
  }
}
