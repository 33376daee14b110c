// The delegator's runs and the emitter's replay buffer as a transition system: the synchronous segments of every
// `delegate` call, interleaved in any order with cancels, removals and further runs.
module LiveJobs {
  import opened Wrappers
  import opened Seqs
  import opened JobExecutions

  // `Saving` holds the execution that is being persisted, and whether its status is `cancelled`.
  datatype Stage = InTool | Saving(record: Execution, cancelled: bool) | Over

  // One `delegate` call. `mapped` are the tools that returned, `current` the finished targets of the running tool.
  datatype Delegation = Delegation(
    executionId: string, jobId: string, userId: string, scheduleType: Option<string>, delegatedAt: string,
    tools: seq<Tool>, mapped: seq<ExecutionTool>, current: seq<Target>, stage: Stage, cancelled: bool)

  datatype Ending = JobFinished | JobCancelled | JobFailed

  // What went through the emitter, in order.
  datatype Entry = TargetFinished(event: TargetEvent) | JobEnded(executionId: string, ending: Ending) | Cleared(jobId: string)

  // `running` holds the execution id of the call that last set the job's entry. `runs` remembers every call.
  datatype Live = Live(
    running: map<string, string>, buffer: seq<TargetEvent>, runs: map<string, Delegation>, log: seq<Entry>)

  const IDLE: Live := Live(map[], [], map[], [])

  // ---- Filters ----

  function OfJob(jobId: string): TargetEvent -> bool {
    (event: TargetEvent) => event.jobId == jobId
  }

  function NotOfJob(jobId: string): TargetEvent -> bool {
    (event: TargetEvent) => event.jobId != jobId
  }

  function OfUser(userId: string): TargetEvent -> bool {
    (event: TargetEvent) => event.userId == userId
  }

  function OfRun(executionId: string): TargetEvent -> bool {
    (event: TargetEvent) => event.executionId == executionId
  }

  // What a stream of one user applies to one job.
  function ForClient(userId: string, jobId: string): TargetEvent -> bool {
    (event: TargetEvent) => event.userId == userId && event.jobId == jobId
  }

  function Events(log: seq<Entry>, keep: TargetEvent -> bool): seq<TargetEvent> {
    if log == [] then []
    else
      var entry := log[|log| - 1];
      Events(log[..|log| - 1], keep)
      + (if entry.TargetFinished? && keep(entry.event) then [entry.event] else [])
  }

  // ---- Segments ----

  function EventOf(run: Delegation, target: Target): TargetEvent
    requires |run.mapped| < |run.tools|
  {
    TargetEvent(run.jobId, run.userId, run.executionId, run.tools[|run.mapped|],
                Schedule(run.scheduleType, run.delegatedAt, None, None), target)
  }

  // The top of the tool loop: the next tool, or the save. A cancel before a tool is when the run counts as cancelled.
  function Continue(run: Delegation, now: string): Delegation {
    var more := |run.mapped| < |run.tools|;
    if more && !run.cancelled then run.(stage := InTool)
    else
      var cancelledAt := if more then Some(now) else None;
      run.(stage := Saving(Execution(run.executionId,
                                     Schedule(run.scheduleType, run.delegatedAt, Some(now), cancelledAt), run.mapped),
                           run.cancelled))
  }

  function FinishTool(run: Delegation): Delegation
    requires |run.mapped| < |run.tools|
  {
    run.(mapped := run.mapped + [ExecutionTool(run.tools[|run.mapped|], run.current)], current := [])
  }

  function EndingOf(stage: Stage): Ending {
    if stage.Saving? && stage.cancelled && stage.record.schedule.cancelledAt.Some? then JobCancelled else JobFinished
  }

  // `clearJobTargetEvents`.
  function Clear(s: Live, jobId: string): Live {
    s.(buffer := Filter(s.buffer, NotOfJob(jobId)), log := s.log + [Cleared(jobId)])
  }

  // The `finally` of `delegate`, after the event that ends the run.
  function EndRun(s: Live, run: Delegation, ending: Ending): Live {
    Clear(s.(runs := s.runs[run.executionId := run.(stage := Over)],
             running := s.running - {run.jobId},
             log := s.log + [JobEnded(run.executionId, ending)]),
          run.jobId)
  }

  function CancelJob(s: Live, jobId: string): Live {
    if jobId in s.running && s.running[jobId] in s.runs then
      var id := s.running[jobId];
      s.(runs := s.runs[id := s.runs[id].(cancelled := true)])
    else s
  }

  datatype Action =
    | Delegate(executionId: string, jobId: string, userId: string, tools: seq<Tool>,
               scheduleType: Option<string>, delegatedAt: string, now: string)
    | FinishTarget(executionId: string, target: Target)
    | ToolReturned(executionId: string, now: string)
    | ToolThrew(executionId: string)
    | SaveReturned(executionId: string)
    | Cancel(jobId: string)
    | Remove(jobId: string)

  predicate AtWork(s: Live, id: string) {
    id in s.runs && s.runs[id].stage.InTool? && |s.runs[id].mapped| < |s.runs[id].tools|
  }

  // One action. A continuation that is not due changes nothing.
  function Next(s: Live, action: Action): Live {
    match action
    case Delegate(id, jobId, userId, tools, scheduleType, delegatedAt, now) =>
      if id in s.runs then s
      else
        var run := Delegation(id, jobId, userId, scheduleType, delegatedAt, tools, [], [], Stage.InTool, false);
        s.(runs := s.runs[id := Continue(run, now)], running := s.running[jobId := id])
    case FinishTarget(id, target) =>
      if AtWork(s, id) then
        var run := s.runs[id];
        var event := EventOf(run, target);
        s.(runs := s.runs[id := run.(current := run.current + [target])],
           buffer := s.buffer + [event], log := s.log + [TargetFinished(event)])
      else s
    case ToolReturned(id, now) =>
      if AtWork(s, id) then s.(runs := s.runs[id := Continue(FinishTool(s.runs[id]), now)]) else s
    case ToolThrew(id) =>
      if AtWork(s, id) then EndRun(s, s.runs[id], JobFailed) else s
    case SaveReturned(id) =>
      if id in s.runs && s.runs[id].stage.Saving? then EndRun(s, s.runs[id], EndingOf(s.runs[id].stage)) else s
    case Cancel(jobId) => CancelJob(s, jobId)
    case Remove(jobId) => Clear(CancelJob(s, jobId).(running := s.running - {jobId}), jobId)
  }

  function Execute(actions: seq<Action>): Live {
    if actions == [] then IDLE
    else Next(Execute(actions[..|actions| - 1]), actions[|actions| - 1])
  }

  // ---- A client's stream ----

  // What the aggregated snapshot says about one job.
  function Snapshot(s: Live, userId: string, jobId: string): seq<TargetEvent> {
    if jobId in s.running && s.running[jobId] in s.runs && s.runs[s.running[jobId]].userId == userId
    then Filter(Filter(s.buffer, OfUser(userId)), OfJob(jobId))
    else []
  }

  // What a client that connected in state `at` has received for one job by state `s`: the snapshot, then every later event.
  function Received(at: Live, s: Live, userId: string, jobId: string): seq<TargetEvent>
    requires |at.log| <= |s.log|
  {
    Snapshot(at, userId, jobId) + Events(s.log[|at.log|..], ForClient(userId, jobId))
  }
}
