// What each segment of a job run brings about: a run is what was delegated, keeps what its tools finished, and starts no
// further tool once it is cancelled.
module LiveEffects {
  import opened Wrappers
  import opened Seqs
  import opened JobExecutions
  import opened LiveJobs
  import opened LiveView
  import LiveConnect

  // ---- Where a run comes from ----

  // The run was delegated by action `k`, with this job, user, tools and schedule.
  ghost predicate DelegatedBy(actions: seq<Action>, k: nat, id: string, run: Delegation) {
    && k < |actions| && actions[k].Delegate?
    && var Delegate(executionId, jobId, userId, tools, scheduleType, delegatedAt, _) := actions[k];
       && executionId == id && run.executionId == id && run.jobId == jobId && run.userId == userId && run.tools == tools
       && run.scheduleType == scheduleType && run.delegatedAt == delegatedAt
  }

  lemma NewRunIsDelegated(s: Live, action: Action, id: string)
    requires Base(s) && id !in s.runs && id in Next(s, action).runs
    ensures DelegatedBy([action], 0, id, Next(s, action).runs[id])
  {
    NewRunFits(s, action, id);
  }

  lemma DelegatedStays(actions: seq<Action>, k: nat, id: string, run: Delegation, next: Delegation)
    requires actions != [] && DelegatedBy(actions[..|actions| - 1], k, id, run) && SameCall(run, next)
    ensures DelegatedBy(actions, k, id, next)
  {
  }

  // In every interleaving, a run has the job, the user, the tools and the schedule of the one call that delegated it.
  lemma {:induction false} EveryRunWasDelegated(actions: seq<Action>, id: string) returns (k: nat)
    requires id in Execute(actions).runs
    ensures DelegatedBy(actions, k, id, Execute(actions).runs[id])
  {
    var earlier, last := actions[..|actions| - 1], actions[|actions| - 1];
    ReachableBase(earlier);
    if id in Execute(earlier).runs {
      k := EveryRunWasDelegated(earlier, id);
      NextKeepsRun(Execute(earlier), last, id);
      DelegatedStays(actions, k, id, Execute(earlier).runs[id], Execute(actions).runs[id]);
    } else {
      k := |earlier|;
      NewRunIsDelegated(Execute(earlier), last, id);
    }
  }

  // ---- What a run keeps ----

  // The targets that finished while a tool of this run was at work, in order.
  function TakenTargets(actions: seq<Action>, id: string): seq<Target> {
    if actions == [] then []
    else
      var earlier, last := actions[..|actions| - 1], actions[|actions| - 1];
      TakenTargets(earlier, id)
      + if last.FinishTarget? && last.executionId == id && AtWork(Execute(earlier), id) then [last.target] else []
  }

  function TargetsOf(tools: seq<ExecutionTool>): seq<Target> {
    if tools == [] then [] else TargetsOf(tools[..|tools| - 1]) + tools[|tools| - 1].targets
  }

  // All that the run has collected: the targets of the tools that returned, and those of the running one.
  function Collected(run: Delegation): seq<Target> {
    TargetsOf(run.mapped) + run.current
  }

  function CollectedBy(s: Live, id: string): seq<Target> {
    if id in s.runs then Collected(s.runs[id]) else []
  }

  lemma ReturningCollects(run: Delegation, now: string)
    requires |run.mapped| < |run.tools|
    ensures Collected(Continue(FinishTool(run), now)) == Collected(run)
  {
    var returned := FinishTool(run);
    assert returned.mapped[..|returned.mapped| - 1] == run.mapped;
    assert TargetsOf(returned.mapped) + [] == TargetsOf(run.mapped) + run.current;
  }

  lemma FinishingCollects(run: Delegation, target: Target)
    ensures Collected(run.(current := run.current + [target])) == Collected(run) + [target]
  {
    assert TargetsOf(run.mapped) + (run.current + [target]) == (TargetsOf(run.mapped) + run.current) + [target];
  }

  lemma DelegatingCollects(run: Delegation, now: string)
    requires run.mapped == [] && run.current == []
    ensures Collected(Continue(run, now)) == []
  {
  }

  lemma NextCollects(s: Live, action: Action, id: string)
    requires Base(s)
    ensures CollectedBy(Next(s, action), id)
      == CollectedBy(s, id) + if action.FinishTarget? && action.executionId == id && AtWork(s, id) then [action.target] else []
  {
    assert CollectedBy(s, id) + [] == CollectedBy(s, id);
    match action
    case Delegate(other, jobId, userId, tools, scheduleType, delegatedAt, now) =>
      DelegatingCollects(Delegation(other, jobId, userId, scheduleType, delegatedAt, tools, [], [], Stage.InTool, false), now);
    case FinishTarget(other, target) =>
      if AtWork(s, other) {
        FinishingCollects(s.runs[other], target);
      }
    case ToolReturned(other, now) =>
      if AtWork(s, other) {
        ReturningCollects(s.runs[other], now);
      }
    case ToolThrew(other) =>
      assert other in s.runs ==> RunFits(other, s.runs[other]);
    case SaveReturned(other) =>
      assert other in s.runs ==> RunFits(other, s.runs[other]);
    case Cancel(_) =>
    case Remove(_) =>
  }

  // In every interleaving, a run has collected exactly the targets that finished while it was at work, in order, each
  // once: nothing that a tool finished is lost on the way to the record.
  lemma {:induction false} EveryTargetIsKept(actions: seq<Action>, id: string)
    ensures CollectedBy(Execute(actions), id) == TakenTargets(actions, id)
  {
    if actions != [] {
      var earlier := actions[..|actions| - 1];
      EveryTargetIsKept(earlier, id);
      ReachableBase(earlier);
      NextCollects(Execute(earlier), actions[|actions| - 1], id);
    }
  }

  // ---- Cancelling ----

  // The job's run, if one holds its place in the running map, is cancelled, and no other run has changed.
  predicate CancelsTheRun(s: Live, next: Live, jobId: string) {
    && (forall id :: id in s.runs ==> id in next.runs)
    && (forall id :: id in s.runs && !(jobId in s.running && s.running[jobId] == id) ==> next.runs[id] == s.runs[id])
    && (jobId in s.running && s.running[jobId] in s.runs ==>
          var id := s.running[jobId]; next.runs[id] == s.runs[id].(cancelled := true))
  }

  predicate LosesJob(before: seq<TargetEvent>, after: seq<TargetEvent>, jobId: string) {
    && (forall event :: event in after ==> event in before && event.jobId != jobId)
    && (forall event :: event in before && event.jobId != jobId ==> event in after)
  }

  lemma FilteringLosesJob(buffer: seq<TargetEvent>, jobId: string)
    ensures LosesJob(buffer, Filter(buffer, NotOfJob(jobId)), jobId)
  {
    FilterKeeps(buffer, NotOfJob(jobId));
  }

  lemma CancelTakesEffect(s: Live, jobId: string)
    ensures CancelsTheRun(s, CancelJob(s, jobId), jobId)
    ensures CancelJob(s, jobId).running == s.running && CancelJob(s, jobId).buffer == s.buffer
  {
  }

  lemma RemoveTakesEffect(s: Live, jobId: string)
    ensures var removed := Next(s, Remove(jobId));
            && CancelsTheRun(s, removed, jobId) && removed.running == s.running - {jobId}
            && LosesJob(s.buffer, removed.buffer, jobId)
  {
    CancelTakesEffect(s, jobId);
    FilteringLosesJob(s.buffer, jobId);
  }

  // In every interleaving, cancelling a job cancels its run and nothing else.
  lemma CancelsTakeEffect(actions: seq<Action>, jobId: string)
    ensures var s, cancelled := Execute(actions), Execute(actions + [Cancel(jobId)]);
            CancelsTheRun(s, cancelled, jobId) && cancelled.running == s.running && cancelled.buffer == s.buffer
  {
    LiveConnect.ExecuteStep(actions, Cancel(jobId));
    CancelTakesEffect(Execute(actions), jobId);
  }

  // In every interleaving, removing a job cancels its run, takes the job out of the running map and its events out of the
  // buffer, and leaves every other job where it is.
  lemma RemovalsTakeEffect(actions: seq<Action>, jobId: string)
    ensures var s, removed := Execute(actions), Execute(actions + [Remove(jobId)]);
            && CancelsTheRun(s, removed, jobId) && removed.running == s.running - {jobId}
            && LosesJob(s.buffer, removed.buffer, jobId)
  {
    LiveConnect.ExecuteStep(actions, Remove(jobId));
    RemoveTakesEffect(Execute(actions), jobId);
  }

  // How many tools of a run can still return: all that are left, or only the running one once it is cancelled.
  function ToolsToCome(run: Delegation): nat {
    if run.stage.InTool? then if run.cancelled then 1 else if |run.mapped| < |run.tools| then |run.tools| - |run.mapped| else 0
    else 0
  }

  // Cancelled runs stay so, and use up the tool that they are at.
  predicate StaysCancelled(run: Delegation, later: Delegation) {
    later.cancelled && |run.mapped| <= |later.mapped| && |later.mapped| + ToolsToCome(later) <= |run.mapped| + ToolsToCome(run)
  }

  lemma NextKeepsCancelled(s: Live, action: Action, id: string)
    requires Base(s) && id in s.runs && s.runs[id].cancelled
    ensures id in Next(s, action).runs && StaysCancelled(s.runs[id], Next(s, action).runs[id])
  {
    assert RunFits(id, s.runs[id]);
    match action
    case ToolThrew(other) =>
      assert other in s.runs ==> RunFits(other, s.runs[other]);
    case SaveReturned(other) =>
      assert other in s.runs ==> RunFits(other, s.runs[other]);
    case _ =>
  }

  lemma OneMoreActionKeepsCancelled(actions: seq<Action>, action: Action, id: string)
    requires id in Execute(actions).runs && Execute(actions).runs[id].cancelled
    ensures id in Execute(actions + [action]).runs
    ensures StaysCancelled(Execute(actions).runs[id], Execute(actions + [action]).runs[id])
  {
    LiveConnect.ExecuteStep(actions, action);
    ReachableBase(actions);
    NextKeepsCancelled(Execute(actions), action, id);
  }

  // In every interleaving, a cancelled run starts no further tool: whatever happens later, at most the one tool that it
  // is at returns.
  lemma {:induction false} CancelledRunsStartNoTool(actions: seq<Action>, later: seq<Action>, id: string)
    requires id in Execute(actions).runs && Execute(actions).runs[id].cancelled
    ensures id in Execute(actions + later).runs
    ensures StaysCancelled(Execute(actions).runs[id], Execute(actions + later).runs[id])
  {
    if later == [] {
      assert actions + later == actions;
    } else {
      var init, last := later[..|later| - 1], later[|later| - 1];
      CancelledRunsStartNoTool(actions, init, id);
      OneMoreActionKeepsCancelled(actions + init, last, id);
      assert (actions + init) + [last] == actions + later;
    }
  }

  // A job that was removed is not shown as running until it is delegated again.
  lemma {:induction false} RemovedJobsAreNotRunning(actions: seq<Action>, later: seq<Action>, jobId: string)
    requires jobId !in Execute(actions).running
    requires forall k :: 0 <= k < |later| && later[k].Delegate? ==> later[k].jobId != jobId
    ensures jobId !in Execute(actions + later).running
  {
    if later == [] {
      assert actions + later == actions;
    } else {
      var init, last := later[..|later| - 1], later[|later| - 1];
      RemovedJobsAreNotRunning(actions, init, jobId);
      NotRunningStays(actions + init, last, jobId);
      assert (actions + init) + [last] == actions + later;
    }
  }

  lemma NotRunningStays(actions: seq<Action>, action: Action, jobId: string)
    requires jobId !in Execute(actions).running && (action.Delegate? ==> action.jobId != jobId)
    ensures jobId !in Execute(actions + [action]).running
  {
    LiveConnect.ExecuteStep(actions, action);
  }

  // ---- Going on ----

  // The loop after a tool or at its start: the next tool, or the record of all that the run has collected.
  predicate GoesOn(run: Delegation, now: string) {
    var more := |run.mapped| < |run.tools|;
    && run.current == []
    && if more && !run.cancelled then run.stage.InTool?
       else
         && run.stage.Saving? && run.stage.cancelled == run.cancelled && run.stage.record.tools == run.mapped
         && run.stage.record.executionId == run.executionId
         && run.stage.record.schedule
            == Schedule(run.scheduleType, run.delegatedAt, Some(now), if more then Some(now) else None)
  }

  // What a segment makes of its run.
  ghost predicate SegmentTakesEffect(s: Live, action: Action, next: Live) {
    match action
    case Delegate(id, jobId, _, _, _, _, now) =>
      if id in s.runs then next == s
      else
        && id in next.runs && GoesOn(next.runs[id], now) && next.runs[id].mapped == [] && !next.runs[id].cancelled
        && next.running == s.running[jobId := id]
    case FinishTarget(id, target) =>
      if AtWork(s, id) then
        && id in next.runs && next.runs[id] == s.runs[id].(current := s.runs[id].current + [target])
        && next.log == s.log + [TargetFinished(EventOf(s.runs[id], target))]
        && next.buffer == s.buffer + [EventOf(s.runs[id], target)]
      else next == s
    case ToolReturned(id, now) =>
      if AtWork(s, id) then
        && id in next.runs && GoesOn(next.runs[id], now) && next.runs[id].cancelled == s.runs[id].cancelled
        && next.runs[id].mapped
           == s.runs[id].mapped + [ExecutionTool(s.runs[id].tools[|s.runs[id].mapped|], s.runs[id].current)]
      else next == s
    case ToolThrew(id) =>
      if AtWork(s, id) then
        && id in next.runs && next.runs[id] == s.runs[id].(stage := Over) && s.runs[id].jobId !in next.running
        && JobEnded(id, JobFailed) in next.log
      else next == s
    case SaveReturned(id) =>
      if id in s.runs && s.runs[id].stage.Saving? then
        id in next.runs && next.runs[id] == s.runs[id].(stage := Over) && s.runs[id].jobId !in next.running
      else next == s
    case _ => true
  }

  // In every interleaving, each segment of a run does what it is for, and one that is not due changes nothing.
  lemma SegmentsTakeEffect(actions: seq<Action>, action: Action)
    ensures SegmentTakesEffect(Execute(actions), action, Execute(actions + [action]))
  {
    LiveConnect.ExecuteStep(actions, action);
    ReachableBase(actions);
    NextTakesEffect(Execute(actions), action);
  }

  lemma NextTakesEffect(s: Live, action: Action)
    requires Base(s)
    ensures SegmentTakesEffect(s, action, Next(s, action))
  {
    match action
    case ToolReturned(id, _) =>
      assert id in s.runs ==> RunFits(id, s.runs[id]);
    case ToolThrew(id) =>
      assert id in s.runs ==> RunFits(id, s.runs[id]);
      assert AtWork(s, id) ==> Next(s, action).log == s.log + [JobEnded(id, JobFailed)] + [Cleared(s.runs[id].jobId)];
    case SaveReturned(id) =>
      assert id in s.runs ==> RunFits(id, s.runs[id]);
    case _ =>
  }

  // ---- Connecting ----

  predicate RunsFor(s: Live, userId: string, jobId: string) {
    jobId in s.running && s.running[jobId] in s.runs && s.runs[s.running[jobId]].userId == userId
  }

  // A new stream is sent exactly the buffered events of the jobs that run for its user: those of that user and that job.
  lemma SnapshotIsTheUsersOwn(s: Live, userId: string, jobId: string, event: TargetEvent)
    ensures event in Snapshot(s, userId, jobId)
      <==> RunsFor(s, userId, jobId) && event in s.buffer && event.userId == userId && event.jobId == jobId
  {
    FilterKeeps(s.buffer, OfUser(userId));
    FilterKeeps(Filter(s.buffer, OfUser(userId)), OfJob(jobId));
  }
}
