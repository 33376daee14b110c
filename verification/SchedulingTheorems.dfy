// What every run of the scheduler keeps: nothing that was replaced, deleted, ended or attached stopped delegates.
module SchedulingTheorems {
  import opened Wrappers
  import opened Scheduling

  // ---- Timers and tasks belong to stored entries ----

  ghost predicate SameJob(s: Schedules, d: nat, e: nat) {
    d in s.entries && e in s.entries && s.entries[d].payload.jobId == s.entries[e].payload.jobId
  }

  // In every run, an armed timer belongs to the entry stored under its job id, which was not attached stopped, and
  // a job has at most one armed start timer and at most one armed stop timer.
  lemma TimersBelongToStoredEntries(now: int, actions: seq<Action>, t: nat)
    requires t in Execute(now, actions).armed
    ensures var s := Execute(now, actions);
            var e := s.armed[t].entry;
            && IsStored(s, e) && !s.entries[e].payload.isStopped
            && forall u :: u in s.armed && SameJob(s, s.armed[u].entry, e) && s.armed[u].isStart == s.armed[t].isStart ==>
                             u == t
  {
    var s := Execute(now, actions);
    ReachableInv(now, actions);
    assert TimerFits(s, t) && EntryFits(s, s.armed[t].entry);
    forall u | u in s.armed && SameJob(s, s.armed[u].entry, s.armed[t].entry) && s.armed[u].isStart == s.armed[t].isStart
      ensures u == t
    {
      assert TimerFits(s, u);
    }
  }

  // In every run, a task that runs belongs to the entry stored under its job id, which was not attached stopped. So a
  // job has at most one.
  lemma RunningTasksBelongToStoredEntries(now: int, actions: seq<Action>, e: nat)
    requires e in Execute(now, actions).entries && Execute(now, actions).entries[e].task == Started
    ensures IsStored(Execute(now, actions), e) && !Execute(now, actions).entries[e].payload.isStopped
    ensures forall d :: SameJob(Execute(now, actions), d, e) && Execute(now, actions).entries[d].task == Started ==> d == e
  {
    var s := Execute(now, actions);
    ReachableInv(now, actions);
    assert EntryFits(s, e);
    forall d | SameJob(s, d, e) && s.entries[d].task == Started
      ensures d == e
    {
      assert EntryFits(s, d);
    }
  }

  // ---- Only the stored entry delegates ----

  // The entry that an action delegates for, if any.
  function Delegates(s: Schedules, action: Action): Option<nat> {
    match action
    case FireTimer(t) =>
      if IsDue(s, t) && s.armed[t].isStart
         && (s.entries[s.armed[t].entry].payload.cronType == Once || s.armed[t].startWasInTheFuture)
      then Some(s.armed[t].entry) else None
    case Tick(e) => if e in s.entries && s.entries[e].task == Started then Some(e) else None
    case _ => None
  }

  lemma NextDelegates(s: Schedules, action: Action)
    ensures Next(s, action).delegations
         == s.delegations
            + match Delegates(s, action)
              case None => []
              case Some(e) =>
                (if e in s.entries then [Delegated(e, s.entries[e].payload.jobId, s.now)] else [])
  {
    assert s.delegations + [] == s.delegations;
  }

  // In every run, a delegation is for the entry stored under the job id at that moment, and never for one that was
  // attached stopped.
  lemma OnlyStoredSchedulesDelegate(now: int, actions: seq<Action>, action: Action)
    requires Next(Execute(now, actions), action).delegations != Execute(now, actions).delegations
    ensures var s := Execute(now, actions);
            exists e :: IsStored(s, e) && !s.entries[e].payload.isStopped
                        && Next(s, action).delegations
                           == s.delegations + [Delegated(e, s.entries[e].payload.jobId, s.now)]
  {
    var s := Execute(now, actions);
    ReachableInv(now, actions);
    NextDelegates(s, action);
    assert s.delegations + [] == s.delegations;
    var e := Delegates(s, action).value;
    if action.FireTimer? {
      assert TimerFits(s, action.timer);
    }
    assert EntryFits(s, e);
  }

  // ---- An ended schedule ----

  // The stop timer of a new entry is not due before its start timer.
  predicate InOrder(now: int, payload: Payload) {
    !payload.isStopped && payload.endDate.Some? ==>
      Delay(payload.startDate - now) <= Delay(payload.endDate.value - now)
  }

  // Dates that `schedule` asks its callers for, within the range of one timer.
  lemma ReasonableDatesAreInOrder(now: int, payload: Payload)
    requires payload.endDate.Some? ==> payload.startDate <= payload.endDate.value <= now + MAX_DELAY
    ensures InOrder(now, payload)
  {
  }

  ghost predicate Orderly(now: int, actions: seq<Action>) {
    actions == []
    || (var earlier, last := actions[..|actions| - 1], actions[|actions| - 1];
        Orderly(now, earlier) && (last.ScheduleJob? ==> InOrder(Execute(now, earlier).now, last.payload)))
  }

  // The stop timer fired.
  predicate HasEnded(s: Schedules, e: nat) {
    e in s.entries && s.entries[e].status == StoppedSchedule && !s.entries[e].payload.isStopped
  }

  ghost predicate TimersInOrder(s: Schedules) {
    forall t, u :: t in s.armed && u in s.armed && s.armed[t].entry == s.armed[u].entry
                   && s.armed[t].isStart && !s.armed[u].isStart ==>
                     t < u && s.armed[t].due <= s.armed[u].due
  }

  ghost predicate EndsHold(s: Schedules) {
    forall e :: HasEnded(s, e) ==>
                  s.entries[e].task in {Halted, Destroyed}
                  && forall t :: t in s.armed && s.armed[t].entry == e ==> !s.armed[t].isStart
  }

  lemma ScheduleKeepsEnds(s: Schedules, payload: Payload)
    requires Inv(s) && TimersInOrder(s) && EndsHold(s) && InOrder(s.now, payload)
    ensures TimersInOrder(Attach(s, payload)) && EndsHold(Attach(s, payload))
  {
    var next := Attach(s, payload);
    forall t | t in s.armed
      ensures s.armed[t].entry != s.nextEntry && t < s.nextTimer
    {
      assert TimerFits(s, t) && EntryFits(s, s.armed[t].entry);
    }
    forall e | HasEnded(next, e)
      ensures HasEnded(s, e)
    {
      assert e != s.nextEntry;
    }
  }

  lemma TeardownKeepsEnds(s: Schedules, jobId: string)
    requires Inv(s) && TimersInOrder(s) && EndsHold(s)
    ensures TimersInOrder(Teardown(s, jobId)) && EndsHold(Teardown(s, jobId))
  {
    var next := Teardown(s, jobId);
    assert forall e :: HasEnded(next, e) ==> HasEnded(s, e);
    if jobId in s.cronJobs {
      assert EntryFits(s, s.cronJobs[jobId]);
    }
  }

  lemma StartKeepsEnds(s: Schedules, t: nat)
    requires Inv(s) && TimersInOrder(s) && EndsHold(s) && IsDue(s, t) && s.armed[t].isStart
    ensures TimersInOrder(Fire(s, t)) && EndsHold(Fire(s, t))
  {
    var e, rest := s.armed[t].entry, s.(armed := s.armed - {t});
    assert !HasEnded(s, e);
    assert forall other :: HasEnded(rest, other) ==> HasEnded(s, other);
    if s.entries[e].payload.cronType == Once {
      DisarmKeepsInv(s, t);
      DelegateJobKeepsInv(rest, e);
      assert forall other :: HasEnded(DelegateJob(rest, e), other) ==> HasEnded(s, other);
      TeardownKeepsEnds(DelegateJob(rest, e), s.entries[e].payload.jobId);
    } else {
      assert forall other :: HasEnded(Fire(s, t), other) ==> HasEnded(s, other) && other != e;
    }
  }

  lemma StopKeepsEnds(s: Schedules, t: nat)
    requires Inv(s) && TimersInOrder(s) && EndsHold(s) && IsDue(s, t) && !s.armed[t].isStart
    ensures TimersInOrder(Fire(s, t)) && EndsHold(Fire(s, t))
  {
    var e, next := s.armed[t].entry, Fire(s, t);
    assert forall other :: HasEnded(next, other) && other != e ==> HasEnded(s, other);
    forall u | u in s.armed && s.armed[u].entry == e
      ensures !s.armed[u].isStart
    {
      assert !(u < t && s.armed[u].due <= s.armed[t].due);
    }
    assert s.entries[e].task == NoTask ==> !HasEnded(s, e);
  }

  lemma NextKeepsEnds(s: Schedules, action: Action)
    requires Inv(s) && TimersInOrder(s) && EndsHold(s)
    requires action.ScheduleJob? ==> InOrder(s.now, action.payload)
    ensures TimersInOrder(Next(s, action)) && EndsHold(Next(s, action))
  {
    match action
    case Wait(ms) =>
      assert forall e :: HasEnded(Next(s, action), e) ==> HasEnded(s, e);
    case ScheduleJob(payload, cronIsValid) =>
      TeardownKeepsEnds(s, payload.jobId);
      TeardownKeepsInv(s, payload.jobId);
      ScheduleKeepsEnds(Teardown(s, payload.jobId), payload);
    case DeleteJob(jobId) => TeardownKeepsEnds(s, jobId);
    case FireTimer(t) =>
      if IsDue(s, t) {
        if s.armed[t].isStart {
          StartKeepsEnds(s, t);
        } else {
          StopKeepsEnds(s, t);
        }
      }
    case Tick(_) =>
      assert forall e :: HasEnded(Next(s, action), e) ==> HasEnded(s, e);
  }

  lemma {:induction false} OrderlyEndsHold(now: int, actions: seq<Action>)
    requires Orderly(now, actions)
    ensures TimersInOrder(Execute(now, actions)) && EndsHold(Execute(now, actions))
  {
    if actions != [] {
      var earlier := actions[..|actions| - 1];
      OrderlyEndsHold(now, earlier);
      ReachableInv(now, earlier);
      NextKeepsEnds(Execute(now, earlier), actions[|actions| - 1]);
    }
  }

  // When no stop timer is due before its start timer, nothing delegates for a schedule that has ended.
  lemma EndedSchedulesStaySilent(now: int, actions: seq<Action>, action: Action, e: nat)
    requires Orderly(now, actions) && HasEnded(Execute(now, actions), e)
    ensures Delegates(Execute(now, actions), action) != Some(e)
  {
    OrderlyEndsHold(now, actions);
  }

  lemma ExecuteStep(now: int, actions: seq<Action>, action: Action)
    ensures Execute(now, actions + [action]) == Next(Execute(now, actions), action)
  {
    assert (actions + [action])[..|actions|] == actions;
  }

  // The schedule attached to an empty scheduler, its stop timer fired, its start timer due.
  function EndedEarly(now: int, payload: Payload): seq<Action>
    requires payload.endDate.Some? && !InOrder(now, payload)
  {
    var toEnd, toStart := Delay(payload.endDate.value - now), Delay(payload.startDate - now);
    [ScheduleJob(payload, true)] + [Wait(toEnd)] + [FireTimer(1)] + [Wait(toStart - toEnd)]
  }

  lemma EarlyEndRuns(now: int, payload: Payload)
    requires payload.cronType != Once && !InOrder(now, payload)
    ensures var s := Execute(now, EndedEarly(now, payload));
            HasEnded(s, 0) && s.entries[0].payload == payload && Delegates(s, FireTimer(0)) == Some(0)
  {
    var toEnd, toStart := Delay(payload.endDate.value - now), Delay(payload.startDate - now);
    var a1 := [ScheduleJob(payload, true)];
    var a2, a3 := a1 + [Wait(toEnd)], a1 + [Wait(toEnd)] + [FireTimer(1)];
    assert [] + a1 == a1;
    ExecuteStep(now, [], ScheduleJob(payload, true));
    ExecuteStep(now, a1, Wait(toEnd));
    ExecuteStep(now, a2, FireTimer(1));
    ExecuteStep(now, a3, Wait(toStart - toEnd));
    var s1, s2, s3, s4 := Execute(now, a1), Execute(now, a2), Execute(now, a3), Execute(now, EndedEarly(now, payload));
    assert s1 == Attach(Initial(now), payload);
    assert s2 == s1.(now := now + toEnd);
    assert IsDue(s2, 1);
    assert s3 == Fire(s2, 1);
    assert s4 == s3.(now := now + toStart);
    assert s4.armed == s1.armed - {1};
    assert IsDue(s4, 0);
  }

  // The first action schedules the job, and nothing else is scheduled.
  ghost predicate SchedulesOnly(actions: seq<Action>, payload: Payload) {
    && actions != [] && actions[0] == ScheduleJob(payload, true)
    && forall k :: 0 < k < |actions| ==> !actions[k].ScheduleJob?
  }

  lemma {:induction false} OneOrderlySchedule(now: int, actions: seq<Action>, payload: Payload)
    requires SchedulesOnly(actions, payload) && InOrder(now, payload)
    ensures Orderly(now, actions)
  {
    if |actions| > 1 {
      OneOrderlySchedule(now, actions[..|actions| - 1], payload);
    } else {
      assert actions[..0] == [] && Orderly(now, []);
    }
  }

  ghost predicate EndHolds(now: int, payload: Payload) {
    forall actions, action :: SchedulesOnly(actions, payload) && HasEnded(Execute(now, actions), 0) ==>
                                Delegates(Execute(now, actions), action) != Some(0)
  }

  // A recurring schedule stays silent after its end, in every run, exactly when its stop timer is not due first.
  lemma EndHoldsExactlyInOrder(now: int, payload: Payload)
    requires payload.cronType != Once
    ensures EndHolds(now, payload) <==> InOrder(now, payload)
  {
    if InOrder(now, payload) {
      forall actions, action | SchedulesOnly(actions, payload) && HasEnded(Execute(now, actions), 0)
        ensures Delegates(Execute(now, actions), action) != Some(0)
      {
        OneOrderlySchedule(now, actions, payload);
        EndedSchedulesStaySilent(now, actions, action, 0);
      }
    } else {
      EarlyEndRuns(now, payload);
      assert SchedulesOnly(EndedEarly(now, payload), payload);
      assert Delegates(Execute(now, EndedEarly(now, payload)), FireTimer(0)) == Some(0);
    }
  }

  // ---- Once ----

  function Count(delegations: seq<Delegated>, e: nat): nat {
    if delegations == [] then 0
    else Count(delegations[..|delegations| - 1], e) + (if delegations[|delegations| - 1].entry == e then 1 else 0)
  }

  lemma CountStep(delegations: seq<Delegated>, one: Delegated, e: nat)
    ensures Count(delegations + [one], e) == Count(delegations, e) + (if one.entry == e then 1 else 0)
  {
    assert (delegations + [one])[..|delegations|] == delegations;
  }

  ghost predicate OnceFits(s: Schedules, e: nat) {
    if e in s.entries && s.entries[e].payload.cronType != Once then true
    else Count(s.delegations, e) <= 1 && (Count(s.delegations, e) == 1 ==> e in s.entries && !IsStored(s, e))
  }

  lemma GoneStaysGone(s: Schedules, action: Action, e: nat)
    requires Inv(s) && e in s.entries && !IsStored(s, e)
    ensures e in Next(s, action).entries && !IsStored(Next(s, action), e)
  {
    assert EntryFits(s, e);
    if action.FireTimer? && IsDue(s, action.timer) {
      assert TimerFits(s, action.timer);
    }
  }

  lemma FiredOnceIsGone(s: Schedules, action: Action, e: nat)
    requires Inv(s) && Delegates(s, action) == Some(e) && s.entries[e].payload.cronType == Once
    ensures IsStored(s, e) && e in Next(s, action).entries && !IsStored(Next(s, action), e)
  {
    assert EntryFits(s, e);
    assert action.FireTimer? && TimerFits(s, action.timer);
  }

  lemma EntriesStay(s: Schedules, action: Action, e: nat)
    requires Inv(s) && e in Next(s, action).entries
    ensures e in s.entries ==> Next(s, action).entries[e].payload == s.entries[e].payload
  {
    if e in s.entries {
      assert EntryFits(s, e);
    }
  }

  lemma NextKeepsOnce(s: Schedules, action: Action, e: nat)
    requires Inv(s) && OnceFits(s, e)
    ensures OnceFits(Next(s, action), e)
  {
    var next := Next(s, action);
    NextDelegates(s, action);
    if Delegates(s, action).Some? && Delegates(s, action).value in s.entries {
      var d := Delegates(s, action).value;
      CountStep(s.delegations, Delegated(d, s.entries[d].payload.jobId, s.now), e);
      if d == e && s.entries[e].payload.cronType == Once {
        FiredOnceIsGone(s, action, e);
      }
    } else {
      assert s.delegations + [] == s.delegations;
    }
    if e in next.entries {
      EntriesStay(s, action, e);
    }
    if e in s.entries && !IsStored(s, e) {
      GoneStaysGone(s, action, e);
    }
  }

  lemma {:induction false} OnceFitsReachable(now: int, actions: seq<Action>, e: nat)
    ensures OnceFits(Execute(now, actions), e)
  {
    if actions != [] {
      var earlier := actions[..|actions| - 1];
      OnceFitsReachable(now, earlier, e);
      ReachableInv(now, earlier);
      NextKeepsOnce(Execute(now, earlier), actions[|actions| - 1], e);
    }
  }

  // In every run, one `schedule` call of a `once` job delegates at most once, and then its entry is gone.
  lemma OnceDelegatesAtMostOnce(now: int, actions: seq<Action>, e: nat)
    requires e in Execute(now, actions).entries && Execute(now, actions).entries[e].payload.cronType == Once
    ensures Count(Execute(now, actions).delegations, e) <= 1
    ensures Count(Execute(now, actions).delegations, e) == 1 ==> !IsStored(Execute(now, actions), e)
  {
    OnceFitsReachable(now, actions, e);
  }

  // ---- Stopped ----

  // The entry is not there yet, or it was attached stopped.
  predicate IsSilent(s: Schedules, e: nat) {
    e in s.entries ==> s.entries[e].payload.isStopped
  }

  lemma SilentEntriesDoNotDelegate(s: Schedules, action: Action, e: nat)
    requires Inv(s) && IsSilent(s, e)
    ensures Delegates(s, action) != Some(e)
  {
    if e in s.entries {
      assert EntryFits(s, e);
    }
    if action.FireTimer? && action.timer in s.armed {
      assert TimerFits(s, action.timer);
    }
  }

  lemma NextKeepsSilence(s: Schedules, action: Action, e: nat)
    requires Inv(s) && IsSilent(s, e) && Count(s.delegations, e) == 0
    ensures Count(Next(s, action).delegations, e) == 0
  {
    NextDelegates(s, action);
    SilentEntriesDoNotDelegate(s, action, e);
    if Delegates(s, action).Some? && Delegates(s, action).value in s.entries {
      var d := Delegates(s, action).value;
      CountStep(s.delegations, Delegated(d, s.entries[d].payload.jobId, s.now), e);
    } else {
      assert s.delegations + [] == s.delegations;
    }
  }

  // In every run, a schedule attached as stopped never delegates.
  lemma {:induction false} StoppedSchedulesNeverDelegate(now: int, actions: seq<Action>, e: nat)
    requires IsSilent(Execute(now, actions), e)
    ensures Count(Execute(now, actions).delegations, e) == 0
  {
    if actions != [] {
      var earlier, last := actions[..|actions| - 1], actions[|actions| - 1];
      ReachableInv(now, earlier);
      if e in Execute(now, earlier).entries {
        EntriesAreKept(Execute(now, earlier), last, e);
      }
      StoppedSchedulesNeverDelegate(now, earlier, e);
      NextKeepsSilence(Execute(now, earlier), last, e);
    }
  }

  lemma EntriesAreKept(s: Schedules, action: Action, e: nat)
    requires Inv(s) && e in s.entries
    ensures e in Next(s, action).entries && Next(s, action).entries[e].payload == s.entries[e].payload
  {
    assert EntryFits(s, e);
  }
}
