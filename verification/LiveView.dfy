// A client that connects while a job runs rebuilds the execution that the server persists.
module LiveView {
  import opened Wrappers
  import opened Seqs
  import opened JobExecutions
  import opened LiveJobs

  // ---- What every state satisfies ----

  ghost predicate RunFits(id: string, run: Delegation) {
    && run.executionId == id
    && |run.mapped| <= |run.tools|
    && (forall k :: 0 <= k < |run.mapped| ==> run.mapped[k].tool == run.tools[k])
    && ((run.stage.InTool? || run.current != []) ==> |run.mapped| < |run.tools|)
    && (run.stage.Saving? ==> run.current == [] && IsRecordOf(run.stage.record, run) && CancellationFits(run))
  }

  // The record that is persisted: the schedule's start, and every tool that returned.
  ghost predicate IsRecordOf(record: Execution, run: Delegation) {
    && record.executionId == run.executionId
    && record.schedule.scheduleType == run.scheduleType && record.schedule.delegatedAt == run.delegatedAt
    && record.tools == run.mapped
  }

  // The record says when it was cancelled exactly when a tool was skipped, and then the aborter had been cancelled.
  predicate CancellationFits(run: Delegation)
    requires run.stage.Saving?
  {
    && (run.stage.record.schedule.cancelledAt.Some? <==> |run.mapped| < |run.tools|)
    && (run.stage.record.schedule.cancelledAt.Some? ==> run.stage.cancelled)
    && (run.stage.cancelled ==> run.cancelled)
  }

  ghost predicate EventFits(s: Live, event: TargetEvent) {
    && event.executionId in s.runs
    && s.runs[event.executionId].jobId == event.jobId && s.runs[event.executionId].userId == event.userId
  }

  ghost predicate Base(s: Live) {
    && (forall id :: id in s.runs ==> RunFits(id, s.runs[id]))
    && (forall k :: 0 <= k < |s.log| && s.log[k].TargetFinished? ==> EventFits(s, s.log[k].event))
  }

  // A run keeps its owner, its job and its tools.
  ghost predicate SameCall(a: Delegation, b: Delegation) {
    && a.executionId == b.executionId && a.jobId == b.jobId && a.userId == b.userId
    && a.scheduleType == b.scheduleType && a.delegatedAt == b.delegatedAt && a.tools == b.tools
  }

  lemma ContinueFits(run: Delegation, now: string)
    requires |run.mapped| <= |run.tools| && run.current == []
    requires forall k :: 0 <= k < |run.mapped| ==> run.mapped[k].tool == run.tools[k]
    ensures RunFits(run.executionId, Continue(run, now)) && SameCall(run, Continue(run, now))
  {
  }

  lemma NextKeepsRun(s: Live, action: Action, id: string)
    requires Base(s) && id in s.runs
    ensures id in Next(s, action).runs
    ensures RunFits(id, Next(s, action).runs[id]) && SameCall(s.runs[id], Next(s, action).runs[id])
  {
    var run := s.runs[id];
    assert RunFits(id, run);
    if action.ToolReturned? && action.executionId == id && AtWork(s, id) {
      ContinueFits(FinishTool(run), action.now);
    } else if Next(s, action).runs[id] != run {
      var next := Next(s, action).runs[id];
      assert next == run.(current := next.current) || next == run.(cancelled := true) || next == run.(stage := Over);
    }
  }

  lemma NewRunFits(s: Live, action: Action, id: string)
    requires Base(s) && id !in s.runs && id in Next(s, action).runs
    ensures action.Delegate? && action.executionId == id && RunFits(id, Next(s, action).runs[id])
  {
    assert action.Delegate? && action.executionId == id;
    var run := Delegation(id, action.jobId, action.userId, action.scheduleType, action.delegatedAt, action.tools,
                          [], [], Stage.InTool, false);
    ContinueFits(run, action.now);
  }

  lemma NextKeepsRuns(s: Live, action: Action)
    requires Base(s)
    ensures forall id :: id in Next(s, action).runs ==> RunFits(id, Next(s, action).runs[id])
    ensures forall id :: id in s.runs ==> id in Next(s, action).runs && SameCall(s.runs[id], Next(s, action).runs[id])
  {
    forall id | id in s.runs
      ensures id in Next(s, action).runs
      ensures RunFits(id, Next(s, action).runs[id]) && SameCall(s.runs[id], Next(s, action).runs[id])
    {
      NextKeepsRun(s, action, id);
    }
    forall id | id in Next(s, action).runs && id !in s.runs
      ensures RunFits(id, Next(s, action).runs[id])
    {
      NewRunFits(s, action, id);
    }
  }

  lemma NextKeepsBase(s: Live, action: Action)
    requires Base(s)
    ensures Base(Next(s, action))
  {
    NextKeepsRuns(s, action);
    var next := Next(s, action);
    forall k | 0 <= k < |next.log| && next.log[k].TargetFinished?
      ensures EventFits(next, next.log[k].event)
    {
      if k < |s.log| {
        assert next.log[k] == s.log[k] && EventFits(s, s.log[k].event);
      } else {
        assert action.FinishTarget?;
      }
    }
  }

  lemma {:induction false} ReachableBase(actions: seq<Action>)
    ensures Base(Execute(actions))
  {
    if actions != [] {
      ReachableBase(actions[..|actions| - 1]);
      NextKeepsBase(Execute(actions[..|actions| - 1]), actions[|actions| - 1]);
    }
  }

  // ---- The log of one run ----

  lemma EventsStep(log: seq<Entry>, entry: Entry, keep: TargetEvent -> bool)
    ensures Events(log + [entry], keep)
         == Events(log, keep) + (if entry.TargetFinished? && keep(entry.event) then [entry.event] else [])
  {
    assert (log + [entry])[..|log|] == log;
  }

  lemma {:induction false} EventsConcat(log: seq<Entry>, more: seq<Entry>, keep: TargetEvent -> bool)
    ensures Events(log + more, keep) == Events(log, keep) + Events(more, keep)
  {
    if more == [] {
      assert log + more == log;
    } else {
      var init, last := more[..|more| - 1], more[|more| - 1];
      EventsConcat(log, init, keep);
      assert log + more == (log + init) + [last];
      EventsStep(log + init, last, keep);
    }
  }

  // The segment finishes a target of this run.
  predicate Finishes(s: Live, action: Action, id: string) {
    action.FinishTarget? && action.executionId == id && AtWork(s, id)
  }

  // What a segment adds to the log that a filter keeps.
  function Added(s: Live, action: Action, keep: TargetEvent -> bool): seq<TargetEvent> {
    if action.FinishTarget? && AtWork(s, action.executionId)
       && keep(EventOf(s.runs[action.executionId], action.target))
    then [EventOf(s.runs[action.executionId], action.target)] else []
  }

  lemma NextEvents(s: Live, action: Action, keep: TargetEvent -> bool)
    ensures Events(Next(s, action).log, keep) == Events(s.log, keep) + Added(s, action, keep)
  {
    match action
    case FinishTarget(id, target) =>
      if AtWork(s, id) {
        EventsStep(s.log, TargetFinished(EventOf(s.runs[id], target)), keep);
      }
    case ToolThrew(id) =>
      if AtWork(s, id) {
        EndingAddsNoEvent(s, s.runs[id], JobFailed, keep);
      }
    case SaveReturned(id) =>
      if id in s.runs && s.runs[id].stage.Saving? {
        EndingAddsNoEvent(s, s.runs[id], EndingOf(s.runs[id].stage), keep);
      }
    case Remove(jobId) => EventsStep(s.log, Cleared(jobId), keep);
    case _ =>
  }

  lemma EndingAddsNoEvent(s: Live, run: Delegation, ending: Ending, keep: TargetEvent -> bool)
    ensures Events(EndRun(s, run, ending).log, keep) == Events(s.log, keep)
  {
    EventsStep(s.log, JobEnded(run.executionId, ending), keep);
    EventsStep(s.log + [JobEnded(run.executionId, ending)], Cleared(run.jobId), keep);
  }

  lemma {:induction false} NoEventsOf(log: seq<Entry>, keep: TargetEvent -> bool)
    requires forall k :: 0 <= k < |log| && log[k].TargetFinished? ==> !keep(log[k].event)
    ensures Events(log, keep) == []
  {
    if log != [] {
      NoEventsOf(log[..|log| - 1], keep);
    }
  }

  lemma FreshRunHasNoEvents(s: Live, id: string)
    requires Base(s) && id !in s.runs
    ensures Events(s.log, OfRun(id)) == []
  {
    forall k | 0 <= k < |s.log| && s.log[k].TargetFinished?
      ensures !OfRun(id)(s.log[k].event)
    {
      assert EventFits(s, s.log[k].event);
    }
    NoEventsOf(s.log, OfRun(id));
  }

  // ---- The client's fold against the server's record ----

  // The tools with at least one finished target, so far.
  function ProgressOf(run: Delegation): seq<ExecutionTool>
    requires |run.mapped| <= |run.tools| && (run.current != [] ==> |run.mapped| < |run.tools|)
  {
    if run.current == [] then WithTargets(run.mapped) else Progress(run.mapped, run.tools[|run.mapped|], run.current)
  }

  function LiveSchedule(run: Delegation): Schedule {
    Schedule(run.scheduleType, run.delegatedAt, None, None)
  }

  // What the client shows for a job once it has all of one run's events.
  function ShownFor(prior: Option<seq<Execution>>, run: Delegation): Option<seq<Execution>>
    requires |run.mapped| <= |run.tools| && (run.current != [] ==> |run.mapped| < |run.tools|)
  {
    if ProgressOf(run) == [] then prior
    else Some(Known(prior) + [Execution(run.executionId, LiveSchedule(run), ProgressOf(run))])
  }

  lemma EarlierToolsDiffer(run: Delegation)
    requires RunFits(run.executionId, run) && |run.mapped| < |run.tools| && DistinctTools(run.tools)
    ensures forall earlier :: earlier in run.mapped ==> earlier.tool.toolId != run.tools[|run.mapped|].toolId
  {
    forall earlier | earlier in run.mapped
      ensures earlier.tool.toolId != run.tools[|run.mapped|].toolId
    {
      var k :| 0 <= k < |run.mapped| && run.mapped[k] == earlier;
      assert earlier.tool == run.tools[k];
    }
  }

  lemma ProgressGrows(run: Delegation, target: Target)
    requires RunFits(run.executionId, run) && |run.mapped| < |run.tools| && DistinctTools(run.tools)
    ensures ProgressOf(run.(current := run.current + [target]))
         == AddTarget(ProgressOf(run), run.tools[|run.mapped|], target)
    ensures ProgressOf(run.(current := run.current + [target])) != []
  {
    var tool := run.tools[|run.mapped|];
    EarlierToolsDiffer(run);
    AddTargetFollowsProgress(run.mapped, tool, run.current, target);
    assert run.current == [] ==> WithTargets(run.mapped) + [] == WithTargets(run.mapped);
  }

  lemma TargetIsShown(prior: Option<seq<Execution>>, run: Delegation, target: Target)
    requires RunFits(run.executionId, run) && |run.mapped| < |run.tools| && DistinctTools(run.tools)
    requires NotAmong(Known(prior), run.executionId)
    ensures Some(MapToExecutions(ShownFor(prior, run), EventOf(run, target)))
         == ShownFor(prior, run.(current := run.current + [target]))
  {
    ProgressGrows(run, target);
    if ProgressOf(run) == [] {
      assert ExecutionIndex(Known(prior), run.executionId) == -1;
      assert AddTarget([], run.tools[|run.mapped|], target) == [ExecutionTool(run.tools[|run.mapped|], [target])];
    } else {
      LaterEvent(Known(prior), Execution(run.executionId, LiveSchedule(run), ProgressOf(run)), EventOf(run, target));
    }
  }

  // A tool that returns keeps the targets it had finished.
  lemma ReturnedToolShows(run: Delegation, now: string)
    requires |run.mapped| < |run.tools|
    ensures ProgressOf(Continue(FinishTool(run), now)) == ProgressOf(run)
  {
    WithTargetsAppend(run.mapped, ExecutionTool(run.tools[|run.mapped|], run.current));
  }

  lemma ProgressStays(s: Live, action: Action, id: string)
    requires Base(s) && id in s.runs && !Finishes(s, action, id)
    requires id in Next(s, action).runs && RunFits(id, Next(s, action).runs[id])
    ensures ProgressOf(Next(s, action).runs[id]) == ProgressOf(s.runs[id])
  {
    var run, next := s.runs[id], Next(s, action).runs[id];
    if action.ToolReturned? && action.executionId == id && AtWork(s, id) {
      ReturnedToolShows(run, action.now);
    } else {
      assert next.mapped == run.mapped && next.current == run.current && next.tools == run.tools;
    }
  }

  // Whatever a segment other than one of its own targets does to a run, what the client should show stays.
  lemma OtherSegmentsShowNothing(s: Live, action: Action, id: string)
    requires Base(s) && id in s.runs && !Finishes(s, action, id)
    ensures Base(Next(s, action)) && id in Next(s, action).runs
    ensures ProgressOf(Next(s, action).runs[id]) == ProgressOf(s.runs[id])
    ensures SameCall(s.runs[id], Next(s, action).runs[id])
  {
    NextKeepsRuns(s, action);
    NextKeepsBase(s, action);
    ProgressStays(s, action, id);
  }

  ghost predicate Shows(prior: Option<seq<Execution>>, s: Live, id: string)
    requires id in s.runs && RunFits(id, s.runs[id])
  {
    Replay(prior, Events(s.log, OfRun(id))) == ShownFor(prior, s.runs[id])
  }

  lemma FinishedTargetShows(prior: Option<seq<Execution>>, s: Live, action: Action, id: string)
    requires Base(s) && Base(Next(s, action)) && Finishes(s, action, id)
    requires DistinctTools(s.runs[id].tools) && NotAmong(Known(prior), id) && Shows(prior, s, id)
    ensures Shows(prior, Next(s, action), id)
  {
    NextEvents(s, action, OfRun(id));
    TargetIsShown(prior, s.runs[id], action.target);
    ReplayAppend(prior, Events(s.log, OfRun(id)), EventOf(s.runs[id], action.target));
  }

  lemma OtherSegmentShows(prior: Option<seq<Execution>>, s: Live, action: Action, id: string)
    requires Base(s) && id in s.runs && !Finishes(s, action, id) && Shows(prior, s, id)
    ensures Base(Next(s, action)) && id in Next(s, action).runs && Shows(prior, Next(s, action), id)
  {
    OtherSegmentsShowNothing(s, action, id);
    NextEvents(s, action, OfRun(id));
    assert Events(Next(s, action).log, OfRun(id)) == Events(s.log, OfRun(id));
  }

  lemma NewRunShows(prior: Option<seq<Execution>>, s: Live, action: Action, id: string)
    requires Base(s) && Base(Next(s, action)) && id !in s.runs && id in Next(s, action).runs
    ensures Shows(prior, Next(s, action), id)
  {
    FreshRunHasNoEvents(s, id);
    assert action.Delegate?;
  }

  // In every interleaving, folding exactly the events of one run shows that run's tools with finished targets.
  lemma {:induction false} ReplayShowsTheRun(actions: seq<Action>, prior: Option<seq<Execution>>, id: string)
    requires id in Execute(actions).runs && DistinctTools(Execute(actions).runs[id].tools)
    requires NotAmong(Known(prior), id)
    ensures RunFits(id, Execute(actions).runs[id])
    ensures Replay(prior, Events(Execute(actions).log, OfRun(id))) == ShownFor(prior, Execute(actions).runs[id])
  {
    var earlier, action := actions[..|actions| - 1], actions[|actions| - 1];
    ReachableBase(earlier);
    ReachableBase(actions);
    NextKeepsRuns(Execute(earlier), action);
    if id !in Execute(earlier).runs {
      NewRunShows(prior, Execute(earlier), action, id);
    } else {
      ReplayShowsTheRun(earlier, prior, id);
      if Finishes(Execute(earlier), action, id) {
        FinishedTargetShows(prior, Execute(earlier), action, id);
      } else {
        OtherSegmentShows(prior, Execute(earlier), action, id);
      }
    }
  }

  // ---- The snapshot ----

  // The target events of a job since its buffer was last cleared.
  function SinceClear(log: seq<Entry>, jobId: string): seq<TargetEvent> {
    if log == [] then []
    else
      match log[|log| - 1]
      case TargetFinished(event) =>
        SinceClear(log[..|log| - 1], jobId) + (if event.jobId == jobId then [event] else [])
      case JobEnded(_, _) => SinceClear(log[..|log| - 1], jobId)
      case Cleared(other) => if other == jobId then [] else SinceClear(log[..|log| - 1], jobId)
  }

  lemma SinceClearStep(log: seq<Entry>, entry: Entry, jobId: string)
    ensures SinceClear(log + [entry], jobId)
         == match entry
            case TargetFinished(event) => SinceClear(log, jobId) + (if event.jobId == jobId then [event] else [])
            case JobEnded(_, _) => SinceClear(log, jobId)
            case Cleared(other) => if other == jobId then [] else SinceClear(log, jobId)
  {
    assert (log + [entry])[..|log|] == log;
  }

  lemma {:induction false} FilterAfterClear(buffer: seq<TargetEvent>, cleared: string, jobId: string)
    ensures Filter(Filter(buffer, NotOfJob(cleared)), OfJob(jobId))
         == if cleared == jobId then [] else Filter(buffer, OfJob(jobId))
  {
    if buffer != [] {
      var init, last := buffer[..|buffer| - 1], buffer[|buffer| - 1];
      FilterAfterClear(init, cleared, jobId);
      if last.jobId != cleared {
        FilterStep(Filter(init, NotOfJob(cleared)), last, OfJob(jobId));
      }
    }
  }

  ghost predicate BufferFits(s: Live, jobId: string) {
    Filter(s.buffer, OfJob(jobId)) == SinceClear(s.log, jobId)
  }

  lemma ClearKeepsBuffer(s: Live, cleared: string, jobId: string)
    requires BufferFits(s, jobId)
    ensures BufferFits(Clear(s, cleared), jobId)
  {
    FilterAfterClear(s.buffer, cleared, jobId);
    SinceClearStep(s.log, Cleared(cleared), jobId);
  }

  lemma EndRunKeepsBuffer(s: Live, run: Delegation, ending: Ending, jobId: string)
    requires BufferFits(s, jobId)
    ensures BufferFits(EndRun(s, run, ending), jobId)
  {
    SinceClearStep(s.log, JobEnded(run.executionId, ending), jobId);
    ClearKeepsBuffer(s.(log := s.log + [JobEnded(run.executionId, ending)]), run.jobId, jobId);
  }

  lemma NextKeepsBuffer(s: Live, action: Action, jobId: string)
    requires BufferFits(s, jobId)
    ensures BufferFits(Next(s, action), jobId)
  {
    match action
    case FinishTarget(id, target) =>
      if AtWork(s, id) {
        var event := EventOf(s.runs[id], target);
        FilterStep(s.buffer, event, OfJob(jobId));
        SinceClearStep(s.log, TargetFinished(event), jobId);
      }
    case ToolThrew(id) =>
      if AtWork(s, id) {
        EndRunKeepsBuffer(s, s.runs[id], JobFailed, jobId);
      }
    case SaveReturned(id) =>
      if id in s.runs && s.runs[id].stage.Saving? {
        EndRunKeepsBuffer(s, s.runs[id], EndingOf(s.runs[id].stage), jobId);
      }
    case Remove(other) => ClearKeepsBuffer(s, other, jobId);
    case _ =>
  }

  // In every interleaving, the buffer holds for each job exactly the events since the last time it was cleared.
  lemma {:induction false} BufferHoldsEventsSinceClear(actions: seq<Action>, jobId: string)
    ensures Filter(Execute(actions).buffer, OfJob(jobId)) == SinceClear(Execute(actions).log, jobId)
  {
    if actions != [] {
      BufferHoldsEventsSinceClear(actions[..|actions| - 1], jobId);
      NextKeepsBuffer(Execute(actions[..|actions| - 1]), actions[|actions| - 1], jobId);
    }
  }
}
