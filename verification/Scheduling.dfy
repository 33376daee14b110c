// The scheduler as a transition system: entries, armed timers and cron tasks, with the event loop firing what is due
// between the calls of `schedule` and `delete`.
module Scheduling {
  import opened Wrappers

  // `setTimeout` stores a delay in a signed 32-bit integer; anything else becomes one millisecond.
  const MAX_DELAY: int := 0x7FFF_FFFF

  function Delay(ms: int): (delay: int)
    ensures 1 <= delay <= MAX_DELAY
  {
    if 1 <= ms <= MAX_DELAY then ms else 1
  }

  datatype CronType = Once | Daily | Weekly | Monthly | Yearly

  datatype Payload = Payload(
    jobId: string, userId: string, cronType: CronType, startDate: int, endDate: Option<int>, isStopped: bool)

  // A task of node-cron. `NoTask` is the `undefined` of a `once` schedule.
  datatype Task = NoTask | Created | Started | Halted | Destroyed

  datatype Status = Idle | StoppedSchedule

  // One CronJob with its timeouts. `payload` is what it was scheduled with.
  datatype Entry = Entry(
    payload: Payload, task: Task, status: Status, startTimeoutId: Option<nat>, stopTimeoutId: Option<nat>)

  // An armed timeout with what its callback captured: the entry, and for a start whether it lay in the future.
  datatype Timer = Timer(entry: nat, isStart: bool, due: int, startWasInTheFuture: bool)

  // A call of `delegateScheduledJob`.
  datatype Delegated = Delegated(entry: nat, jobId: string, at: int)

  // Entries and timers get numbers in the order in which they are made. `entries` also keeps those that are gone.
  datatype Schedules = Schedules(
    now: int, nextEntry: nat, nextTimer: nat,
    cronJobs: map<string, nat>, entries: map<nat, Entry>, armed: map<nat, Timer>, delegations: seq<Delegated>)

  function Initial(now: int): Schedules {
    Schedules(now, 0, 0, map[], map[], map[], [])
  }

  // ---- Calls ----

  function Destroy(task: Task): Task {
    if task == NoTask then NoTask else Destroyed
  }

  function TimersOf(entry: Entry): set<nat> {
    (if entry.startTimeoutId.Some? then {entry.startTimeoutId.value} else {})
    + (if entry.stopTimeoutId.Some? then {entry.stopTimeoutId.value} else {})
  }

  function Teardown(s: Schedules, jobId: string): Schedules {
    if jobId in s.cronJobs && s.cronJobs[jobId] in s.entries then
      var e := s.cronJobs[jobId];
      s.(armed := s.armed - TimersOf(s.entries[e]),
         entries := s.entries[e := s.entries[e].(task := Destroy(s.entries[e].task))],
         cronJobs := s.cronJobs - {jobId})
    else s
  }

  function NewEntry(s: Schedules, payload: Payload): Entry {
    Entry(payload,
          if payload.cronType == Once then NoTask else Created,
          if payload.isStopped then StoppedSchedule else Idle,
          if payload.isStopped then None else Some(s.nextTimer),
          if payload.isStopped || payload.endDate.None? then None else Some(s.nextTimer + 1))
  }

  function StartTimer(s: Schedules, payload: Payload): Timer {
    Timer(s.nextEntry, true, s.now + Delay(payload.startDate - s.now), payload.startDate - s.now > 0)
  }

  function StopTimer(s: Schedules, payload: Payload): Timer
    requires payload.endDate.Some?
  {
    Timer(s.nextEntry, false, s.now + Delay(payload.endDate.value - s.now), false)
  }

  function TimersOfPayload(payload: Payload): nat {
    if payload.isStopped then 0 else if payload.endDate.None? then 1 else 2
  }

  // The timers of a new entry: none when it is attached stopped.
  function Arm(s: Schedules, payload: Payload): map<nat, Timer> {
    if payload.isStopped then s.armed
    else if payload.endDate.None? then s.armed[s.nextTimer := StartTimer(s, payload)]
    else s.armed[s.nextTimer := StartTimer(s, payload)][s.nextTimer + 1 := StopTimer(s, payload)]
  }

  function Attach(s: Schedules, payload: Payload): Schedules {
    s.(cronJobs := s.cronJobs[payload.jobId := s.nextEntry],
       entries := s.entries[s.nextEntry := NewEntry(s, payload)],
       armed := Arm(s, payload),
       nextEntry := s.nextEntry + 1,
       nextTimer := s.nextTimer + TimersOfPayload(payload))
  }

  // `cronIsValid` is what node-cron says of the expression. A refused expression throws after the teardown.
  function Schedule(s: Schedules, payload: Payload, cronIsValid: bool): Schedules {
    var torn := Teardown(s, payload.jobId);
    if payload.cronType != Once && !cronIsValid then torn else Attach(torn, payload)
  }

  // ---- Callbacks ----

  function DelegateJob(s: Schedules, e: nat): Schedules
    requires e in s.entries
  {
    s.(delegations := s.delegations + [Delegated(e, s.entries[e].payload.jobId, s.now)])
  }

  function SetTask(s: Schedules, e: nat, task: Task): Schedules
    requires e in s.entries
  {
    s.(entries := s.entries[e := s.entries[e].(task := if s.entries[e].task == Destroyed then Destroyed else task)])
  }

  function StartFires(s: Schedules, e: nat, startWasInTheFuture: bool): Schedules
    requires e in s.entries
  {
    if s.entries[e].payload.cronType == Once then Teardown(DelegateJob(s, e), s.entries[e].payload.jobId)
    else SetTask(if startWasInTheFuture then DelegateJob(s, e) else s, e, Started)
  }

  // For a `once` schedule there is no task to stop: the callback throws before it changes anything.
  function StopFires(s: Schedules, e: nat): Schedules
    requires e in s.entries
  {
    if s.entries[e].task == NoTask then s
    else
      var halted := SetTask(s, e, Halted);
      halted.(entries := halted.entries[e := halted.entries[e].(status := StoppedSchedule)])
  }

  // Of the timers of one entry, the earlier one fires first, and of two that are due together the first to be armed.
  predicate IsDue(s: Schedules, t: nat) {
    && t in s.armed && s.armed[t].due <= s.now && s.armed[t].entry in s.entries
    && forall u :: u in s.armed && s.armed[u].entry == s.armed[t].entry ==>
                     s.armed[t].due < s.armed[u].due || (s.armed[t].due == s.armed[u].due && t <= u)
  }

  function Fire(s: Schedules, t: nat): Schedules
    requires IsDue(s, t)
  {
    var timer, rest := s.armed[t], s.(armed := s.armed - {t});
    if timer.isStart then StartFires(rest, timer.entry, timer.startWasInTheFuture) else StopFires(rest, timer.entry)
  }

  // ---- Runs ----

  datatype Action =
    | Wait(ms: nat)
    | ScheduleJob(payload: Payload, cronIsValid: bool)
    | DeleteJob(jobId: string)
    | FireTimer(timer: nat)
    | Tick(entry: nat)

  // One action. A timer that is not due and a task that does not run do nothing.
  function Next(s: Schedules, action: Action): Schedules {
    match action
    case Wait(ms) => s.(now := s.now + ms)
    case ScheduleJob(payload, cronIsValid) => Schedule(s, payload, cronIsValid)
    case DeleteJob(jobId) => Teardown(s, jobId)
    case FireTimer(t) => if IsDue(s, t) then Fire(s, t) else s
    case Tick(e) => if e in s.entries && s.entries[e].task == Started then DelegateJob(s, e) else s
  }

  function Execute(now: int, actions: seq<Action>): Schedules {
    if actions == [] then Initial(now)
    else Next(Execute(now, actions[..|actions| - 1]), actions[|actions| - 1])
  }

  // ---- The invariant ----

  // The entry is the one stored under its job id.
  predicate IsStored(s: Schedules, e: nat) {
    e in s.entries && s.entries[e].payload.jobId in s.cronJobs && s.cronJobs[s.entries[e].payload.jobId] == e
  }

  ghost predicate MapFits(s: Schedules) {
    forall jobId :: jobId in s.cronJobs ==>
                      s.cronJobs[jobId] in s.entries && s.entries[s.cronJobs[jobId]].payload.jobId == jobId
  }

  ghost predicate EntryFits(s: Schedules, e: nat)
    requires e in s.entries
  {
    var entry := s.entries[e];
    && e < s.nextEntry
    && (entry.payload.cronType == Once <==> entry.task == NoTask)
    && (entry.payload.isStopped ==> entry.status == StoppedSchedule && entry.task in {NoTask, Created, Destroyed}
                                    && entry.startTimeoutId.None? && entry.stopTimeoutId.None?)
    && (!IsStored(s, e) ==> entry.task in {NoTask, Destroyed})
    && (entry.startTimeoutId.Some? ==> entry.startTimeoutId.value < s.nextTimer)
    && (entry.stopTimeoutId.Some? ==> entry.stopTimeoutId.value < s.nextTimer)
  }

  ghost predicate EntriesFit(s: Schedules) {
    forall e :: e in s.entries ==> EntryFits(s, e)
  }

  // An armed timer belongs to the entry that is stored under its job id, and is the one that the entry remembers.
  ghost predicate TimerFits(s: Schedules, t: nat)
    requires t in s.armed
  {
    var timer := s.armed[t];
    && t < s.nextTimer
    && IsStored(s, timer.entry)
    && (if timer.isStart then s.entries[timer.entry].startTimeoutId == Some(t)
        else s.entries[timer.entry].stopTimeoutId == Some(t))
  }

  ghost predicate TimersFit(s: Schedules) {
    forall t :: t in s.armed ==> TimerFits(s, t)
  }

  ghost predicate Inv(s: Schedules) {
    MapFits(s) && EntriesFit(s) && TimersFit(s)
  }

  lemma TeardownKeepsInv(s: Schedules, jobId: string)
    requires Inv(s)
    ensures Inv(Teardown(s, jobId)) && jobId !in Teardown(s, jobId).cronJobs
  {
    var next := Teardown(s, jobId);
    if jobId in s.cronJobs {
      assert s.cronJobs[jobId] in s.entries;
      forall e | e in next.entries
        ensures EntryFits(next, e)
      {
        assert EntryFits(s, e);
      }
      forall t | t in next.armed
        ensures TimerFits(next, t)
      {
        assert TimerFits(s, t);
      }
    }
  }

  lemma AttachKeepsInv(s: Schedules, payload: Payload)
    requires Inv(s) && payload.jobId !in s.cronJobs
    ensures Inv(Attach(s, payload))
  {
    var next := Attach(s, payload);
    assert forall e :: e in s.entries ==> EntryFits(s, e) && e < s.nextEntry;
    forall e | e in next.entries
      ensures EntryFits(next, e)
    {
      if e != s.nextEntry {
        assert EntryFits(s, e);
      }
    }
    forall t | t in next.armed
      ensures TimerFits(next, t)
    {
      if t in s.armed {
        assert TimerFits(s, t);
      }
    }
  }

  lemma SetTaskKeepsInv(s: Schedules, e: nat, task: Task)
    requires Inv(s) && IsStored(s, e) && task in {Started, Halted}
    requires s.entries[e].payload.cronType != Once && !s.entries[e].payload.isStopped
    ensures Inv(SetTask(s, e, task))
  {
    var next := SetTask(s, e, task);
    forall other | other in next.entries
      ensures EntryFits(next, other)
    {
      assert EntryFits(s, other);
    }
    forall t | t in next.armed
      ensures TimerFits(next, t)
    {
      assert TimerFits(s, t);
    }
  }

  lemma DisarmKeepsInv(s: Schedules, t: nat)
    requires Inv(s)
    ensures Inv(s.(armed := s.armed - {t}))
  {
    var next := s.(armed := s.armed - {t});
    forall e | e in next.entries
      ensures EntryFits(next, e)
    {
      assert EntryFits(s, e);
    }
    forall u | u in next.armed
      ensures TimerFits(next, u)
    {
      assert TimerFits(s, u);
    }
  }

  lemma DelegateJobKeepsInv(s: Schedules, e: nat)
    requires Inv(s) && e in s.entries
    ensures Inv(DelegateJob(s, e))
  {
    var next := DelegateJob(s, e);
    forall other | other in next.entries
      ensures EntryFits(next, other)
    {
      assert EntryFits(s, other);
    }
    forall t | t in next.armed
      ensures TimerFits(next, t)
    {
      assert TimerFits(s, t);
    }
  }

  lemma HaltKeepsInv(s: Schedules, e: nat)
    requires Inv(s) && IsStored(s, e) && s.entries[e].payload.cronType != Once && !s.entries[e].payload.isStopped
    ensures Inv(StopFires(s, e))
  {
    SetTaskKeepsInv(s, e, Halted);
    var halted, next := SetTask(s, e, Halted), StopFires(s, e);
    assert EntryFits(s, e);
    forall other | other in next.entries
      ensures EntryFits(next, other)
    {
      assert EntryFits(halted, other);
    }
    forall t | t in next.armed
      ensures TimerFits(next, t)
    {
      assert TimerFits(halted, t);
    }
  }

  lemma FireKeepsInv(s: Schedules, t: nat)
    requires Inv(s) && IsDue(s, t)
    ensures Inv(Fire(s, t))
  {
    var timer, rest := s.armed[t], s.(armed := s.armed - {t});
    assert TimerFits(s, t) && EntryFits(s, timer.entry);
    DisarmKeepsInv(s, t);
    var once := s.entries[timer.entry].payload.cronType == Once;
    DelegateJobKeepsInv(rest, timer.entry);
    if timer.isStart && once {
      TeardownKeepsInv(DelegateJob(rest, timer.entry), s.entries[timer.entry].payload.jobId);
    } else if timer.isStart {
      SetTaskKeepsInv(if timer.startWasInTheFuture then DelegateJob(rest, timer.entry) else rest, timer.entry, Started);
    } else if !once {
      HaltKeepsInv(rest, timer.entry);
    }
  }

  lemma WaitKeepsInv(s: Schedules, ms: nat)
    requires Inv(s)
    ensures Inv(s.(now := s.now + ms))
  {
    var next := s.(now := s.now + ms);
    forall e | e in next.entries
      ensures EntryFits(next, e)
    {
      assert EntryFits(s, e);
    }
    forall t | t in next.armed
      ensures TimerFits(next, t)
    {
      assert TimerFits(s, t);
    }
  }

  lemma NextKeepsInv(s: Schedules, action: Action)
    requires Inv(s)
    ensures Inv(Next(s, action))
  {
    match action
    case Wait(ms) => WaitKeepsInv(s, ms);
    case ScheduleJob(payload, cronIsValid) =>
      TeardownKeepsInv(s, payload.jobId);
      if payload.cronType == Once || cronIsValid {
        AttachKeepsInv(Teardown(s, payload.jobId), payload);
      }
    case DeleteJob(jobId) => TeardownKeepsInv(s, jobId);
    case FireTimer(t) =>
      if IsDue(s, t) {
        FireKeepsInv(s, t);
      }
    case Tick(e) =>
      if e in s.entries {
        DelegateJobKeepsInv(s, e);
      }
  }

  lemma {:induction false} ReachableInv(now: int, actions: seq<Action>)
    ensures Inv(Execute(now, actions))
  {
    if actions != [] {
      ReachableInv(now, actions[..|actions| - 1]);
      NextKeepsInv(Execute(now, actions[..|actions| - 1]), actions[|actions| - 1]);
    }
  }
}
