// What the calls of the scheduler bring about: a deleted job is gone for good, a replaced one leaves nothing behind, and
// no call touches another job.
module SchedulingEffects {
  import opened Wrappers
  import opened Scheduling
  import opened SchedulingTheorems

  predicate EntryOfJob(s: Schedules, e: nat, jobId: string) {
    e in s.entries && s.entries[e].payload.jobId == jobId
  }

  // The job is not stored, none of its timers is armed, and none of its tasks can run again.
  ghost predicate Gone(s: Schedules, jobId: string) {
    && jobId !in s.cronJobs
    && (forall t :: t in s.armed ==> !EntryOfJob(s, s.armed[t].entry, jobId))
    && (forall e :: EntryOfJob(s, e, jobId) ==> s.entries[e].task in {NoTask, Destroyed})
  }

  ghost predicate OtherJobsStay(s: Schedules, next: Schedules, jobId: string) {
    forall other :: other != jobId ==>
      (other in next.cronJobs <==> other in s.cronJobs)
      && (other in s.cronJobs ==> next.cronJobs[other] == s.cronJobs[other])
  }

  // Attachments stay what they were for; those of other jobs do not change at all.
  ghost predicate OtherEntriesStay(s: Schedules, next: Schedules, jobId: string) {
    forall e :: e in s.entries ==>
      && e in next.entries && next.entries[e].payload == s.entries[e].payload
      && (s.entries[e].payload.jobId != jobId ==> next.entries[e] == s.entries[e])
  }

  ghost predicate OtherTimersStay(s: Schedules, next: Schedules, jobId: string) {
    && (forall t :: t in s.armed && !EntryOfJob(s, s.armed[t].entry, jobId) ==>
          t in next.armed && next.armed[t] == s.armed[t])
    && (forall t :: t in next.armed && t !in s.armed ==> EntryOfJob(next, next.armed[t].entry, jobId))
  }

  // Nothing of any other job has changed, and nobody delegated.
  ghost predicate OthersStay(s: Schedules, next: Schedules, jobId: string) {
    && next.now == s.now && next.delegations == s.delegations
    && OtherJobsStay(s, next, jobId) && OtherEntriesStay(s, next, jobId) && OtherTimersStay(s, next, jobId)
  }

  lemma UnstoredJobsAreGone(s: Schedules, jobId: string)
    requires Inv(s) && jobId !in s.cronJobs
    ensures Gone(s, jobId)
  {
    forall t | t in s.armed
      ensures !EntryOfJob(s, s.armed[t].entry, jobId)
    {
      assert TimerFits(s, t);
    }
    forall e | EntryOfJob(s, e, jobId)
      ensures s.entries[e].task in {NoTask, Destroyed}
    {
      assert EntryFits(s, e);
    }
  }

  // ---- Timers are not shared ----

  // An armed timer that an entry remembers is its own.
  ghost predicate TimersAreOwn(s: Schedules) {
    forall t, e :: t in s.armed && e in s.entries && t in TimersOf(s.entries[e]) ==> s.armed[t].entry == e
  }

  // Numbers of timers are given out in order.
  ghost predicate TimerNumbersAreFresh(s: Schedules) {
    && (forall t :: t in s.armed ==> t < s.nextTimer)
    && (forall t, e :: e in s.entries && t in TimersOf(s.entries[e]) ==> t < s.nextTimer && e < s.nextEntry)
  }

  lemma TimerNumbersAreFreshUnderInv(s: Schedules)
    requires Inv(s)
    ensures TimerNumbersAreFresh(s)
  {
    forall t | t in s.armed
      ensures t < s.nextTimer
    {
      assert TimerFits(s, t);
    }
    forall t, e | e in s.entries && t in TimersOf(s.entries[e])
      ensures t < s.nextTimer && e < s.nextEntry
    {
      assert EntryFits(s, e);
    }
  }

  lemma AttachKeepsTimersOwn(s: Schedules, payload: Payload)
    requires TimerNumbersAreFresh(s) && TimersAreOwn(s)
    ensures TimersAreOwn(Attach(s, payload))
  {
    var next := Attach(s, payload);
    forall t, e | t in next.armed && e in next.entries && t in TimersOf(next.entries[e])
      ensures next.armed[t].entry == e
    {
      if e != s.nextEntry {
        assert t < s.nextTimer;
      }
    }
  }

  lemma FewerTimersAreOwn(s: Schedules, next: Schedules)
    requires TimersAreOwn(s)
    requires forall t :: t in next.armed ==> t in s.armed && next.armed[t] == s.armed[t]
    requires forall e :: e in next.entries ==> e in s.entries && TimersOf(next.entries[e]) == TimersOf(s.entries[e])
    ensures TimersAreOwn(next)
  {
  }

  lemma TeardownKeepsTimersOwn(s: Schedules, jobId: string)
    requires Inv(s) && TimersAreOwn(s)
    ensures TimersAreOwn(Teardown(s, jobId))
  {
    FewerTimersAreOwn(s, Teardown(s, jobId));
  }

  lemma FiringKeepsTimersOwn(s: Schedules, t: nat)
    requires Inv(s) && TimersAreOwn(s) && IsDue(s, t)
    ensures TimersAreOwn(Fire(s, t))
  {
    FewerTimersAreOwn(s, Fire(s, t));
  }

  lemma NextKeepsTimersOwn(s: Schedules, action: Action)
    requires Inv(s) && TimersAreOwn(s)
    ensures TimersAreOwn(Next(s, action))
  {
    match action
    case ScheduleJob(payload, cronIsValid) =>
      TeardownKeepsInv(s, payload.jobId);
      TeardownKeepsTimersOwn(s, payload.jobId);
      TimerNumbersAreFreshUnderInv(Teardown(s, payload.jobId));
      AttachKeepsTimersOwn(Teardown(s, payload.jobId), payload);
    case DeleteJob(jobId) => TeardownKeepsTimersOwn(s, jobId);
    case FireTimer(t) =>
      if IsDue(s, t) {
        FiringKeepsTimersOwn(s, t);
      }
    case _ => FewerTimersAreOwn(s, Next(s, action));
  }

  lemma {:induction false} TimersAreOwnReachable(now: int, actions: seq<Action>)
    ensures TimersAreOwn(Execute(now, actions))
  {
    if actions != [] {
      var earlier := actions[..|actions| - 1];
      TimersAreOwnReachable(now, earlier);
      ReachableInv(now, earlier);
      NextKeepsTimersOwn(Execute(now, earlier), actions[|actions| - 1]);
    }
  }

  lemma TeardownTouchesOneJob(s: Schedules, jobId: string)
    requires Inv(s) && TimersAreOwn(s)
    ensures OthersStay(s, Teardown(s, jobId), jobId)
  {
    assert forall t :: t in s.armed ==> TimerFits(s, t);
  }

  // ---- Deleting ----

  // In every run, deleting a job leaves nothing of it that could run, and leaves every other job alone.
  lemma DeleteRemovesTheJob(now: int, actions: seq<Action>, jobId: string)
    ensures var s, next := Execute(now, actions), Execute(now, actions + [DeleteJob(jobId)]);
            Gone(next, jobId) && OthersStay(s, next, jobId)
  {
    ExecuteStep(now, actions, DeleteJob(jobId));
    ReachableInv(now, actions);
    TimersAreOwnReachable(now, actions);
    TeardownKeepsInv(Execute(now, actions), jobId);
    UnstoredJobsAreGone(Teardown(Execute(now, actions), jobId), jobId);
    TeardownTouchesOneJob(Execute(now, actions), jobId);
  }

  function CountOfJob(delegations: seq<Delegated>, jobId: string): nat {
    if delegations == [] then 0
    else
      CountOfJob(delegations[..|delegations| - 1], jobId)
      + (if delegations[|delegations| - 1].jobId == jobId then 1 else 0)
  }

  lemma CountOfJobStep(delegations: seq<Delegated>, one: Delegated, jobId: string)
    ensures CountOfJob(delegations + [one], jobId) == CountOfJob(delegations, jobId) + (if one.jobId == jobId then 1 else 0)
  {
    assert (delegations + [one])[..|delegations|] == delegations;
  }

  predicate SchedulesJob(action: Action, jobId: string) {
    action.ScheduleJob? && action.payload.jobId == jobId
  }

  lemma GoneDoesNotDelegate(s: Schedules, action: Action, jobId: string)
    requires Inv(s) && Gone(s, jobId)
    ensures CountOfJob(Next(s, action).delegations, jobId) == CountOfJob(s.delegations, jobId)
  {
    NextDelegates(s, action);
    if Delegates(s, action).Some? && Delegates(s, action).value in s.entries {
      var e := Delegates(s, action).value;
      CountOfJobStep(s.delegations, Delegated(e, s.entries[e].payload.jobId, s.now), jobId);
    } else {
      assert s.delegations + [] == s.delegations;
    }
  }

  lemma NextKeepsUnstored(s: Schedules, action: Action, jobId: string)
    requires jobId !in s.cronJobs && !SchedulesJob(action, jobId)
    ensures jobId !in Next(s, action).cronJobs
  {
  }

  // The job is gone and has not delegated since.
  ghost predicate SilentSince(now: int, actions: seq<Action>, later: seq<Action>, jobId: string) {
    && Gone(Execute(now, actions + later), jobId)
    && CountOfJob(Execute(now, actions + later).delegations, jobId) == CountOfJob(Execute(now, actions).delegations, jobId)
  }

  lemma SilentOneMore(now: int, actions: seq<Action>, init: seq<Action>, last: Action, jobId: string)
    requires SilentSince(now, actions, init, jobId) && !SchedulesJob(last, jobId)
    ensures SilentSince(now, actions, init + [last], jobId)
  {
    OneMoreActionIsSilent(now, actions + init, last, jobId);
    assert (actions + init) + [last] == actions + (init + [last]);
  }

  // In every run, a job that is gone stays gone and never delegates again until it is scheduled anew.
  lemma {:induction false} DeletedJobsStaySilent(now: int, actions: seq<Action>, later: seq<Action>, jobId: string)
    requires Gone(Execute(now, actions), jobId)
    requires forall k :: 0 <= k < |later| ==> !SchedulesJob(later[k], jobId)
    ensures SilentSince(now, actions, later, jobId)
  {
    if later == [] {
      assert actions + later == actions;
    } else {
      var init, last := later[..|later| - 1], later[|later| - 1];
      DeletedJobsStaySilent(now, actions, init, jobId);
      SilentOneMore(now, actions, init, last, jobId);
      assert init + [last] == later;
    }
  }

  lemma OneMoreActionIsSilent(now: int, actions: seq<Action>, action: Action, jobId: string)
    requires Gone(Execute(now, actions), jobId) && !SchedulesJob(action, jobId)
    ensures Gone(Execute(now, actions + [action]), jobId)
    ensures CountOfJob(Execute(now, actions + [action]).delegations, jobId)
         == CountOfJob(Execute(now, actions).delegations, jobId)
  {
    ExecuteStep(now, actions, action);
    ReachableInv(now, actions);
    ReachableInv(now, actions + [action]);
    NextKeepsUnstored(Execute(now, actions), action, jobId);
    UnstoredJobsAreGone(Execute(now, actions + [action]), jobId);
    GoneDoesNotDelegate(Execute(now, actions), action, jobId);
  }

  // ---- Scheduling ----

  // The attachment is not stored, none of its timers is armed, and its task cannot run again.
  ghost predicate IsDead(s: Schedules, e: nat) {
    && e in s.entries && !IsStored(s, e) && s.entries[e].task in {NoTask, Destroyed}
    && forall t :: t in s.armed ==> s.armed[t].entry != e
  }

  lemma UnstoredEntriesAreDead(s: Schedules, e: nat)
    requires Inv(s) && e in s.entries && !IsStored(s, e)
    ensures IsDead(s, e)
  {
    assert EntryFits(s, e);
    assert forall t :: t in s.armed ==> TimerFits(s, t);
  }

  // The one armed timer of its entry and kind.
  ghost predicate OnlyTimer(s: Schedules, t: nat, timer: Timer) {
    && t in s.armed && s.armed[t] == timer
    && forall u :: u in s.armed && s.armed[u].entry == timer.entry && s.armed[u].isStart == timer.isStart ==> u == t
  }

  ghost predicate HasOnlyTimer(s: Schedules, timer: Timer) {
    exists t :: OnlyTimer(s, t, timer)
  }

  ghost predicate NoTimer(s: Schedules, e: nat, isStart: bool) {
    forall t :: t in s.armed && s.armed[t].entry == e ==> s.armed[t].isStart != isStart
  }

  // Exactly the timers of a new attachment: none when it is stopped, one start, and one stop when there is an end, each
  // due after its delay.
  ghost predicate ArmedFor(s: Schedules, e: nat, payload: Payload) {
    if payload.isStopped then NoTimer(s, e, true) && NoTimer(s, e, false)
    else
      && HasOnlyTimer(s, Timer(e, true, s.now + Delay(payload.startDate - s.now), payload.startDate > s.now))
      && match payload.endDate
         case None => NoTimer(s, e, false)
         case Some(end) => HasOnlyTimer(s, Timer(e, false, s.now + Delay(end - s.now), false))
  }

  // A new attachment of the job is stored, with its timers and a task that does not run yet.
  ghost predicate AttachedAnew(s: Schedules, next: Schedules, payload: Payload) {
    && payload.jobId in next.cronJobs
    && var e := next.cronJobs[payload.jobId];
       && e !in s.entries && e in next.entries && next.entries[e].payload == payload
       && next.entries[e].task == (if payload.cronType == Once then NoTask else Created)
       && ArmedFor(next, e, payload)
  }

  // Numbers are given out in order.
  ghost predicate NumbersAreFresh(s: Schedules) {
    && (forall e :: e in s.entries ==> e < s.nextEntry)
    && (forall t :: t in s.armed ==> t < s.nextTimer && s.armed[t].entry in s.entries)
  }

  lemma NumbersAreFreshUnderInv(s: Schedules)
    requires Inv(s)
    ensures NumbersAreFresh(s)
  {
    forall e | e in s.entries
      ensures e < s.nextEntry
    {
      assert EntryFits(s, e);
    }
    forall t | t in s.armed
      ensures t < s.nextTimer && s.armed[t].entry in s.entries
    {
      assert TimerFits(s, t);
    }
  }

  lemma AttachArms(s: Schedules, payload: Payload)
    requires NumbersAreFresh(s)
    ensures ArmedFor(Attach(s, payload), s.nextEntry, payload)
  {
    var next := Attach(s, payload);
    assert forall t :: t in s.armed ==> s.armed[t].entry != s.nextEntry;
    if !payload.isStopped {
      assert OnlyTimer(next, s.nextTimer, StartTimer(s, payload));
      if payload.endDate.Some? {
        assert OnlyTimer(next, s.nextTimer + 1, StopTimer(s, payload));
      }
    }
  }

  lemma AttachTouchesOneJob(s: Schedules, payload: Payload)
    requires NumbersAreFresh(s)
    ensures OthersStay(s, Attach(s, payload), payload.jobId)
  {
  }

  lemma TimersStayTwice(s: Schedules, middle: Schedules, next: Schedules, jobId: string)
    requires OtherTimersStay(s, middle, jobId) && OtherTimersStay(middle, next, jobId)
    requires NumbersAreFresh(s) && OtherEntriesStay(s, middle, jobId)
    requires forall t :: t in middle.armed ==> t in s.armed && middle.armed[t] == s.armed[t]
    ensures OtherTimersStay(s, next, jobId)
  {
    forall t | t in s.armed && !EntryOfJob(s, s.armed[t].entry, jobId)
      ensures t in next.armed && next.armed[t] == s.armed[t]
    {
      assert s.armed[t].entry in s.entries;
      assert t in middle.armed && !EntryOfJob(middle, middle.armed[t].entry, jobId);
    }
  }

  lemma EntriesStayTwice(s: Schedules, middle: Schedules, next: Schedules, jobId: string)
    requires OtherEntriesStay(s, middle, jobId) && OtherEntriesStay(middle, next, jobId)
    ensures OtherEntriesStay(s, next, jobId)
  {
  }

  lemma ScheduleTouchesOneJob(s: Schedules, payload: Payload)
    requires Inv(s) && TimersAreOwn(s)
    ensures OthersStay(s, Attach(Teardown(s, payload.jobId), payload), payload.jobId)
  {
    var torn := Teardown(s, payload.jobId);
    var next := Attach(torn, payload);
    TeardownTouchesOneJob(s, payload.jobId);
    TeardownKeepsInv(s, payload.jobId);
    NumbersAreFreshUnderInv(s);
    NumbersAreFreshUnderInv(torn);
    AttachTouchesOneJob(torn, payload);
    TimersStayTwice(s, torn, next, payload.jobId);
    EntriesStayTwice(s, torn, next, payload.jobId);
  }

  lemma EarlierAttachmentsAreDead(s: Schedules, next: Schedules, jobId: string)
    requires Inv(next) && OtherEntriesStay(s, next, jobId)
    requires jobId in next.cronJobs ==> next.cronJobs[jobId] !in s.entries
    ensures forall e :: EntryOfJob(s, e, jobId) ==> IsDead(next, e)
  {
    forall e | EntryOfJob(s, e, jobId)
      ensures IsDead(next, e)
    {
      UnstoredEntriesAreDead(next, e);
    }
  }

  lemma ValidScheduleAttaches(s: Schedules, payload: Payload)
    requires Inv(s)
    ensures AttachedAnew(s, Attach(Teardown(s, payload.jobId), payload), payload)
  {
    var torn := Teardown(s, payload.jobId);
    TeardownKeepsInv(s, payload.jobId);
    NumbersAreFreshUnderInv(torn);
    AttachArms(torn, payload);
  }

  lemma ValidScheduleReplaces(s: Schedules, payload: Payload)
    requires Inv(s) && TimersAreOwn(s)
    ensures var next := Attach(Teardown(s, payload.jobId), payload);
            && OthersStay(s, next, payload.jobId)
            && forall e :: EntryOfJob(s, e, payload.jobId) ==> IsDead(next, e)
  {
    var torn := Teardown(s, payload.jobId);
    TeardownKeepsInv(s, payload.jobId);
    AttachKeepsInv(torn, payload);
    ScheduleTouchesOneJob(s, payload);
    ValidScheduleAttaches(s, payload);
    EarlierAttachmentsAreDead(s, Attach(torn, payload), payload.jobId);
  }

  // In every run, scheduling a job leaves every earlier attachment of it dead and every other job alone. A valid call
  // stores a new attachment with exactly its timers; a refused one leaves the job gone.
  lemma ScheduleReplacesTheJob(now: int, actions: seq<Action>, payload: Payload, cronIsValid: bool)
    ensures var s, next := Execute(now, actions), Execute(now, actions + [ScheduleJob(payload, cronIsValid)]);
            && OthersStay(s, next, payload.jobId)
            && (forall e :: EntryOfJob(s, e, payload.jobId) ==> IsDead(next, e))
            && (if payload.cronType == Once || cronIsValid then AttachedAnew(s, next, payload)
                else Gone(next, payload.jobId))
  {
    var s := Execute(now, actions);
    ExecuteStep(now, actions, ScheduleJob(payload, cronIsValid));
    ReachableInv(now, actions);
    TimersAreOwnReachable(now, actions);
    if payload.cronType == Once || cronIsValid {
      ValidScheduleAttaches(s, payload);
      ValidScheduleReplaces(s, payload);
    } else {
      var torn := Teardown(s, payload.jobId);
      TeardownKeepsInv(s, payload.jobId);
      TeardownTouchesOneJob(s, payload.jobId);
      UnstoredJobsAreGone(torn, payload.jobId);
      EarlierAttachmentsAreDead(s, torn, payload.jobId);
    }
  }

  lemma DeadDoesNotDelegate(s: Schedules, action: Action, e: nat)
    requires IsDead(s, e)
    ensures Count(Next(s, action).delegations, e) == Count(s.delegations, e)
  {
    NextDelegates(s, action);
    if Delegates(s, action).Some? && Delegates(s, action).value in s.entries {
      var d := Delegates(s, action).value;
      CountStep(s.delegations, Delegated(d, s.entries[d].payload.jobId, s.now), e);
    } else {
      assert s.delegations + [] == s.delegations;
    }
  }

  // The attachment is dead and has not delegated since.
  ghost predicate DeadSince(now: int, actions: seq<Action>, later: seq<Action>, e: nat) {
    && IsDead(Execute(now, actions + later), e)
    && Count(Execute(now, actions + later).delegations, e) == Count(Execute(now, actions).delegations, e)
  }

  lemma DeadOneMore(now: int, actions: seq<Action>, init: seq<Action>, last: Action, e: nat)
    requires DeadSince(now, actions, init, e)
    ensures DeadSince(now, actions, init + [last], e)
  {
    OneMoreActionLeavesDead(now, actions + init, last, e);
    assert (actions + init) + [last] == actions + (init + [last]);
  }

  // In every run, an attachment that is dead, because its job was deleted or scheduled anew, stays dead and never
  // delegates again, whatever is scheduled later.
  lemma {:induction false} DeadAttachmentsStaySilent(now: int, actions: seq<Action>, later: seq<Action>, e: nat)
    requires IsDead(Execute(now, actions), e)
    ensures DeadSince(now, actions, later, e)
  {
    if later == [] {
      assert actions + later == actions;
    } else {
      var init, last := later[..|later| - 1], later[|later| - 1];
      DeadAttachmentsStaySilent(now, actions, init, e);
      DeadOneMore(now, actions, init, last, e);
      assert init + [last] == later;
    }
  }

  lemma OneMoreActionLeavesDead(now: int, actions: seq<Action>, action: Action, e: nat)
    requires IsDead(Execute(now, actions), e)
    ensures IsDead(Execute(now, actions + [action]), e)
    ensures Count(Execute(now, actions + [action]).delegations, e) == Count(Execute(now, actions).delegations, e)
  {
    ExecuteStep(now, actions, action);
    ReachableInv(now, actions);
    ReachableInv(now, actions + [action]);
    GoneStaysGone(Execute(now, actions), action, e);
    UnstoredEntriesAreDead(Execute(now, actions + [action]), e);
    DeadDoesNotDelegate(Execute(now, actions), action, e);
  }

  // ---- Callbacks ----

  // A timer that fires and a task that ticks change nothing of any other job.
  lemma CallbacksTouchOneJob(now: int, actions: seq<Action>, action: Action, e: nat)
    requires var s := Execute(now, actions);
             && e in s.entries
             && (action == Tick(e) || (action.FireTimer? && action.timer in s.armed && s.armed[action.timer].entry == e))
    ensures var s, next := Execute(now, actions), Execute(now, actions + [action]);
            var jobId := s.entries[e].payload.jobId;
            OtherJobsStay(s, next, jobId) && OtherEntriesStay(s, next, jobId) && OtherTimersStay(s, next, jobId)
  {
    var s := Execute(now, actions);
    ExecuteStep(now, actions, action);
    ReachableInv(now, actions);
    TimersAreOwnReachable(now, actions);
    if action.FireTimer? && IsDue(s, action.timer) {
      FiringTouchesOneJob(s, action.timer);
    }
  }

  lemma FiringTouchesOneJob(s: Schedules, t: nat)
    requires Inv(s) && TimersAreOwn(s) && IsDue(s, t)
    ensures var jobId := s.entries[s.armed[t].entry].payload.jobId;
            OtherJobsStay(s, Fire(s, t), jobId) && OtherEntriesStay(s, Fire(s, t), jobId)
            && OtherTimersStay(s, Fire(s, t), jobId)
  {
    assert TimerFits(s, t);
    assert forall u :: u in s.armed ==> TimerFits(s, u);
  }
}
