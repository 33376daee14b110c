// Jobs whose runs do not overlap: every client rebuilds the record that the server persists.
module LiveTheorems {
  import opened Wrappers
  import opened Seqs
  import opened JobExecutions
  import opened LiveJobs
  import opened LiveView
  import opened LiveConnect

  ghost predicate InFlight(s: Live, id: string, jobId: string) {
    id in s.runs && s.runs[id].jobId == jobId && !s.runs[id].stage.Over?
  }

  ghost predicate IsIdle(s: Live, jobId: string) {
    forall id :: !InFlight(s, id, jobId)
  }

  // The action starts or removes the job.
  predicate Disturbs(action: Action, jobId: string) {
    || (action.Delegate? && action.jobId == jobId)
    || (action.Remove? && action.jobId == jobId)
  }

  // The job is started and removed only while none of its runs is in flight. Its controllers check for that, but some of
  // them then wait for the store, and the cron task starts a run without a check.
  ghost predicate Undisturbed(actions: seq<Action>, jobId: string) {
    actions == []
    || (var earlier, last := actions[..|actions| - 1], actions[|actions| - 1];
        Undisturbed(earlier, jobId) && (Disturbs(last, jobId) ==> IsIdle(Execute(earlier), jobId)))
  }

  // The only run in flight owns the running entry, and the buffer has all of its events and nothing else.
  ghost predicate OwnsJob(s: Live, id: string, jobId: string) {
    && jobId in s.running && s.running[jobId] == id
    && SinceClear(s.log, jobId) == Events(s.log, OfRun(id))
  }

  ghost predicate JobInv(s: Live, jobId: string) {
    && (forall id :: InFlight(s, id, jobId) ==> OwnsJob(s, id, jobId))
    && (IsIdle(s, jobId) ==> SinceClear(s.log, jobId) == [])
  }

  lemma DelegateKeepsJob(s: Live, action: Action, jobId: string)
    requires Base(s) && JobInv(s, jobId) && action.Delegate? && (Disturbs(action, jobId) ==> IsIdle(s, jobId))
    ensures JobInv(Next(s, action), jobId)
  {
    var next := Next(s, action);
    if action.executionId !in s.runs {
      FreshRunHasNoEvents(s, action.executionId);
      forall id | InFlight(next, id, jobId)
        ensures OwnsJob(next, id, jobId)
      {
        if id != action.executionId {
          assert InFlight(s, id, jobId);
        }
      }
      if IsIdle(next, jobId) {
        assert !InFlight(next, action.executionId, jobId);
        assert forall id :: InFlight(s, id, jobId) ==> InFlight(next, id, jobId);
      }
    }
  }

  lemma FinishTargetKeepsOwner(s: Live, action: Action, id: string, jobId: string)
    requires Base(s) && JobInv(s, jobId) && action.FinishTarget? && AtWork(s, action.executionId)
    requires InFlight(s, id, jobId)
    ensures OwnsJob(Next(s, action), id, jobId)
  {
    var done := action.executionId;
    var event := EventOf(s.runs[done], action.target);
    assert OwnsJob(s, id, jobId) && RunFits(done, s.runs[done]);
    SinceClearStep(s.log, TargetFinished(event), jobId);
    EventsStep(s.log, TargetFinished(event), OfRun(id));
    if event.jobId == jobId {
      assert InFlight(s, done, jobId);
    }
  }

  lemma FinishTargetKeepsJob(s: Live, action: Action, jobId: string)
    requires Base(s) && JobInv(s, jobId) && action.FinishTarget? && AtWork(s, action.executionId)
    ensures JobInv(Next(s, action), jobId)
  {
    var next, done := Next(s, action), action.executionId;
    forall id | InFlight(next, id, jobId)
      ensures OwnsJob(next, id, jobId)
    {
      assert InFlight(s, id, jobId);
      FinishTargetKeepsOwner(s, action, id, jobId);
    }
    if IsIdle(next, jobId) {
      assert forall id :: InFlight(s, id, jobId) ==> InFlight(next, id, jobId);
      assert !InFlight(next, done, jobId);
      SinceClearStep(s.log, TargetFinished(EventOf(s.runs[done], action.target)), jobId);
    }
  }

  lemma EndRunKeepsJob(s: Live, run: Delegation, ending: Ending, jobId: string)
    requires Base(s) && JobInv(s, jobId)
    requires run.executionId in s.runs && s.runs[run.executionId] == run && !run.stage.Over?
    ensures JobInv(EndRun(s, run, ending), jobId)
  {
    var next, ended := EndRun(s, run, ending), s.log + [JobEnded(run.executionId, ending)];
    SinceClearStep(s.log, JobEnded(run.executionId, ending), jobId);
    SinceClearStep(ended, Cleared(run.jobId), jobId);
    forall id | InFlight(next, id, jobId)
      ensures OwnsJob(next, id, jobId)
    {
      assert InFlight(s, id, jobId) && id != run.executionId;
      if run.jobId == jobId {
        assert InFlight(s, run.executionId, jobId);
        assert false;
      }
      EndingAddsNoEvent(s, run, ending, OfRun(id));
    }
    if IsIdle(next, jobId) && run.jobId != jobId {
      assert forall id :: InFlight(s, id, jobId) ==> InFlight(next, id, jobId);
    }
  }

  lemma CancelKeepsJob(s: Live, cancelled: string, jobId: string)
    requires JobInv(s, jobId)
    ensures JobInv(CancelJob(s, cancelled), jobId)
    ensures forall id :: InFlight(CancelJob(s, cancelled), id, jobId) <==> InFlight(s, id, jobId)
  {
    assert forall id :: InFlight(CancelJob(s, cancelled), id, jobId) <==> InFlight(s, id, jobId);
  }

  lemma RemoveKeepsJob(s: Live, removed: string, jobId: string)
    requires JobInv(s, jobId) && (removed == jobId ==> IsIdle(s, jobId))
    ensures JobInv(Next(s, Remove(removed)), jobId)
  {
    var next := Next(s, Remove(removed));
    CancelKeepsJob(s, removed, jobId);
    SinceClearStep(s.log, Cleared(removed), jobId);
    forall id | InFlight(next, id, jobId)
      ensures OwnsJob(next, id, jobId)
    {
      assert InFlight(s, id, jobId);
      EventsStep(s.log, Cleared(removed), OfRun(id));
    }
    if IsIdle(next, jobId) {
      assert forall id :: InFlight(s, id, jobId) ==> InFlight(next, id, jobId);
    }
  }

  lemma ToolReturnedKeepsJob(s: Live, action: Action, jobId: string)
    requires JobInv(s, jobId) && action.ToolReturned?
    ensures JobInv(Next(s, action), jobId)
  {
    assert forall id :: InFlight(Next(s, action), id, jobId) <==> InFlight(s, id, jobId);
  }

  lemma NextKeepsJob(s: Live, action: Action, jobId: string)
    requires Base(s) && JobInv(s, jobId) && (Disturbs(action, jobId) ==> IsIdle(s, jobId))
    ensures JobInv(Next(s, action), jobId)
  {
    match action
    case Delegate(_, _, _, _, _, _, _) => DelegateKeepsJob(s, action, jobId);
    case FinishTarget(id, _) =>
      if AtWork(s, id) {
        FinishTargetKeepsJob(s, action, jobId);
      }
    case ToolReturned(_, _) => ToolReturnedKeepsJob(s, action, jobId);
    case ToolThrew(id) =>
      if AtWork(s, id) {
        assert RunFits(id, s.runs[id]);
        EndRunKeepsJob(s, s.runs[id], JobFailed, jobId);
      }
    case SaveReturned(id) =>
      if id in s.runs && s.runs[id].stage.Saving? {
        assert RunFits(id, s.runs[id]);
        EndRunKeepsJob(s, s.runs[id], EndingOf(s.runs[id].stage), jobId);
      }
    case Cancel(cancelled) => CancelKeepsJob(s, cancelled, jobId);
    case Remove(removed) => RemoveKeepsJob(s, removed, jobId);
  }

  lemma {:induction false} UndisturbedJobInv(actions: seq<Action>, jobId: string)
    requires Undisturbed(actions, jobId)
    ensures JobInv(Execute(actions), jobId)
  {
    if actions != [] {
      var earlier := actions[..|actions| - 1];
      UndisturbedJobInv(earlier, jobId);
      ReachableBase(earlier);
      NextKeepsJob(Execute(earlier), actions[|actions| - 1], jobId);
    }
  }

  // ---- What a client of an undisturbed job receives ----

  // A run that is in flight was in flight before the last segment, unless that segment started it.
  lemma OverStaysOver(s: Live, action: Action, id: string)
    requires Base(s) && id in s.runs && s.runs[id].stage.Over?
    ensures id in Next(s, action).runs && Next(s, action).runs[id].stage.Over?
  {
  }

  lemma SnapshotHoldsTheRun(actions: seq<Action>, id: string)
    requires id in Execute(actions).runs && InFlight(Execute(actions), id, Execute(actions).runs[id].jobId)
    requires Undisturbed(actions, Execute(actions).runs[id].jobId)
    ensures var s := Execute(actions);
            Snapshot(s, s.runs[id].userId, s.runs[id].jobId) == Events(s.log, OfRun(id))
  {
    var s := Execute(actions);
    var run := s.runs[id];
    ReachableBase(actions);
    UndisturbedJobInv(actions, run.jobId);
    BufferHoldsEventsSinceClear(actions, run.jobId);
    FilterCommutes(s.buffer, OfUser(run.userId), OfJob(run.jobId));
    FitsEverywhere(s, id);
    FilterOfEvents(s.log, OfRun(id), OfRun(id));
    EventsAllKept(s.log, OfRun(id), OfUser(run.userId));
  }

  // A filter that keeps everything that the log's filter kept.
  lemma {:induction false} EventsAllKept(log: seq<Entry>, strong: TargetEvent -> bool, weak: TargetEvent -> bool)
    requires forall k :: 0 <= k < |log| && log[k].TargetFinished? && strong(log[k].event) ==> weak(log[k].event)
    ensures Filter(Events(log, strong), weak) == Events(log, strong)
  {
    if log != [] {
      var init, last := log[..|log| - 1], log[|log| - 1];
      EventsAllKept(init, strong, weak);
      if last.TargetFinished? && strong(last.event) {
        FilterStep(Events(init, strong), last.event, weak);
      } else {
        assert Events(log, strong) == Events(init, strong);
      }
    }
  }

  lemma SameHead<T>(head: seq<T>, a: seq<T>, b: seq<T>)
    requires head + a == head + b
    ensures a == b
  {
    assert (head + a)[|head|..] == a && (head + b)[|head|..] == b;
  }

  lemma TailGrows(at: Live, s: Live, action: Action, keep: TargetEvent -> bool)
    requires at.log <= s.log
    ensures at.log <= Next(s, action).log
    ensures Events(Next(s, action).log[|at.log|..], keep) == Events(s.log[|at.log|..], keep) + Added(s, action, keep)
  {
    var next, head := Next(s, action), Events(at.log, keep);
    NextExtendsLog(s, action);
    NextEvents(s, action, keep);
    TailOfEvents(s.log, |at.log|, keep);
    TailOfEvents(next.log, |at.log|, keep);
    assert next.log[..|at.log|] == s.log[..|at.log|] == at.log;
    var tail, added := Events(s.log[|at.log|..], keep), Added(s, action, keep);
    assert (head + tail) + added == head + (tail + added);
    SameHead(head, Events(next.log[|at.log|..], keep), tail + added);
  }

  // A segment adds to the client's events of the job what it adds to the run's.
  lemma ClientAddsTheSame(s: Live, action: Action, id: string)
    requires Base(s) && id in s.runs && InFlight(s, id, s.runs[id].jobId) && JobInv(s, s.runs[id].jobId)
    ensures Added(s, action, ForClient(s.runs[id].userId, s.runs[id].jobId)) == Added(s, action, OfRun(id))
  {
    if action.FinishTarget? && AtWork(s, action.executionId) {
      assert RunFits(action.executionId, s.runs[action.executionId]) && RunFits(id, s.runs[id]);
      if s.runs[action.executionId].jobId == s.runs[id].jobId {
        assert InFlight(s, action.executionId, s.runs[id].jobId);
      }
    }
  }

  // One more segment reaches a connected client exactly when it finishes a target of the run.
  lemma ReceivedStep(at: Live, s: Live, action: Action, id: string)
    requires Base(s) && at.log <= s.log && id in s.runs && InFlight(s, id, s.runs[id].jobId)
    requires JobInv(s, s.runs[id].jobId)
    requires Received(at, s, s.runs[id].userId, s.runs[id].jobId) == Events(s.log, OfRun(id))
    ensures |at.log| <= |Next(s, action).log|
    ensures Received(at, Next(s, action), s.runs[id].userId, s.runs[id].jobId) == Events(Next(s, action).log, OfRun(id))
  {
    var client := ForClient(s.runs[id].userId, s.runs[id].jobId);
    var snapshot, tail := Snapshot(at, s.runs[id].userId, s.runs[id].jobId), Events(s.log[|at.log|..], client);
    TailGrows(at, s, action, client);
    NextEvents(s, action, OfRun(id));
    ClientAddsTheSame(s, action, id);
    assert (snapshot + tail) + Added(s, action, client) == snapshot + (tail + Added(s, action, client));
  }

  // A client that connects at any moment of a run of an undisturbed job has, at every later moment of that run,
  // received each of its target events exactly once and nothing else for the job.
  lemma {:induction false} EachEventOnce(actions: seq<Action>, t: nat, id: string)
    requires t <= |actions| && id in Execute(actions[..t]).runs
    requires InFlight(Execute(actions), id, Execute(actions[..t]).runs[id].jobId)
    requires Undisturbed(actions, Execute(actions[..t]).runs[id].jobId)
    ensures var at, s := Execute(actions[..t]), Execute(actions);
            var run := at.runs[id];
            |at.log| <= |s.log| && Received(at, s, run.userId, run.jobId) == Events(s.log, OfRun(id))
  {
    var at, s := Execute(actions[..t]), Execute(actions);
    if t == |actions| {
      assert actions[..t] == actions;
      SnapshotHoldsTheRun(actions, id);
      assert s.log[|s.log|..] == [];
    } else {
      var earlier, last := actions[..|actions| - 1], actions[|actions| - 1];
      assert earlier[..t] == actions[..t];
      RunsStay(earlier, t, id);
      ReachableBase(earlier);
      if Execute(earlier).runs[id].stage.Over? {
        OverStaysOver(Execute(earlier), last, id);
      }
      EachEventOnce(earlier, t, id);
      UndisturbedJobInv(earlier, at.runs[id].jobId);
      LogGrows(earlier, t);
      ReceivedStep(at, Execute(earlier), last, id);
    }
  }

  // The client's fold, from whatever executions it already shows, is the record about to be persisted restricted to
  // tools with a finished target.
  lemma ClientRebuildsTheRecord(actions: seq<Action>, t: nat, id: string, prior: Option<seq<Execution>>)
    requires t <= |actions| && id in Execute(actions[..t]).runs
    requires id in Execute(actions).runs && Execute(actions).runs[id].stage.Saving?
    requires Undisturbed(actions, Execute(actions).runs[id].jobId)
    requires DistinctTools(Execute(actions).runs[id].tools) && NotAmong(Known(prior), id)
    ensures var at, s := Execute(actions[..t]), Execute(actions);
            var run, record := s.runs[id], s.runs[id].stage.record;
            && |at.log| <= |s.log|
            && Replay(prior, Received(at, s, run.userId, run.jobId))
               == (if WithTargets(record.tools) == [] then prior
                   else Some(Known(prior) + [Execution(record.executionId,
                                                       record.schedule.(finishedAt := None, cancelledAt := None),
                                                       WithTargets(record.tools))]))
  {
    RunsStay(actions, t, id);
    EachEventOnce(actions, t, id);
    ReplayShowsTheRun(actions, prior, id);
  }

  // ---- How a run ends ----

  // A cancel that arrives during the only tool: persisted as cancelled, ended as finished.
  lemma CancelDuringTheLastTool(id: string, jobId: string, userId: string, tool: Tool)
    ensures var actions := [Delegate(id, jobId, userId, [tool], None, "", "")] + [Cancel(jobId)] + [ToolReturned(id, "")];
            var s := Execute(actions);
            && id in s.runs && s.runs[id].stage.Saving? && s.runs[id].stage.cancelled
            && EndingOf(s.runs[id].stage) == JobFinished
  {
    var begin := [Delegate(id, jobId, userId, [tool], None, "", "")];
    assert [] + begin == begin;
    LiveConnect.ExecuteStep([], begin[0]);
    LiveConnect.ExecuteStep(begin, Cancel(jobId));
    LiveConnect.ExecuteStep(begin + [Cancel(jobId)], ToolReturned(id, ""));
    assert AtWork(Execute(begin + [Cancel(jobId)]), id);
  }

  function EndingsOf(log: seq<Entry>, id: string): nat {
    if log == [] then 0
    else EndingsOf(log[..|log| - 1], id)
         + (if log[|log| - 1].JobEnded? && log[|log| - 1].executionId == id then 1 else 0)
  }

  lemma EndingsStep(log: seq<Entry>, entry: Entry, id: string)
    ensures EndingsOf(log + [entry], id)
         == EndingsOf(log, id) + (if entry.JobEnded? && entry.executionId == id then 1 else 0)
  {
    assert (log + [entry])[..|log|] == log;
  }

  ghost predicate EndingsFit(s: Live, id: string) {
    EndingsOf(s.log, id) == if id in s.runs && s.runs[id].stage.Over? then 1 else 0
  }

  lemma EndRunCounts(s: Live, run: Delegation, ending: Ending, id: string)
    requires EndingsFit(s, id) && run.executionId in s.runs && s.runs[run.executionId] == run && !run.stage.Over?
    ensures EndingsFit(EndRun(s, run, ending), id)
  {
    EndingsStep(s.log, JobEnded(run.executionId, ending), id);
    EndingsStep(s.log + [JobEnded(run.executionId, ending)], Cleared(run.jobId), id);
  }

  predicate IsOver(s: Live, id: string) {
    id in s.runs && s.runs[id].stage.Over?
  }

  lemma OnlyEndRunIsOver(s: Live, action: Action, id: string)
    requires !action.ToolThrew? && !action.SaveReturned?
    ensures IsOver(Next(s, action), id) == IsOver(s, id)
  {
  }

  lemma OnlyEndRunLogsEndings(s: Live, action: Action, id: string)
    requires !action.ToolThrew? && !action.SaveReturned?
    ensures EndingsOf(Next(s, action).log, id) == EndingsOf(s.log, id)
  {
    if action.FinishTarget? && AtWork(s, action.executionId) {
      EndingsStep(s.log, TargetFinished(EventOf(s.runs[action.executionId], action.target)), id);
    } else if action.Remove? {
      EndingsStep(s.log, Cleared(action.jobId), id);
    } else {
      assert Next(s, action).log == s.log;
    }
  }

  lemma NextCountsEndings(s: Live, action: Action, id: string)
    requires Base(s) && EndingsFit(s, id)
    ensures EndingsFit(Next(s, action), id)
  {
    match action
    case ToolThrew(other) =>
      if AtWork(s, other) {
        assert RunFits(other, s.runs[other]);
        EndRunCounts(s, s.runs[other], JobFailed, id);
      }
    case SaveReturned(other) =>
      if other in s.runs && s.runs[other].stage.Saving? {
        assert RunFits(other, s.runs[other]);
        EndRunCounts(s, s.runs[other], EndingOf(s.runs[other].stage), id);
      }
    case _ =>
      OnlyEndRunIsOver(s, action, id);
      OnlyEndRunLogsEndings(s, action, id);
  }

  // In every interleaving, a run emits exactly one of `job-finished`, `job-cancelled` and `job-failed`, when it ends.
  lemma {:induction false} EveryRunEndsOnce(actions: seq<Action>, id: string)
    ensures EndingsOf(Execute(actions).log, id)
         == if id in Execute(actions).runs && Execute(actions).runs[id].stage.Over? then 1 else 0
  {
    if actions != [] {
      var earlier := actions[..|actions| - 1];
      EveryRunEndsOnce(earlier, id);
      ReachableBase(earlier);
      NextCountsEndings(Execute(earlier), actions[|actions| - 1], id);
    }
  }

  // The event that ended a run, if it has ended.
  function EndingIn(log: seq<Entry>, id: string): Option<Ending> {
    if log == [] then None
    else if log[|log| - 1].JobEnded? && log[|log| - 1].executionId == id then Some(log[|log| - 1].ending)
    else EndingIn(log[..|log| - 1], id)
  }

  lemma EndingInStep(log: seq<Entry>, entry: Entry, id: string)
    ensures EndingIn(log + [entry], id)
         == if entry.JobEnded? && entry.executionId == id then Some(entry.ending) else EndingIn(log, id)
  {
    assert (log + [entry])[..|log|] == log;
  }

  // In every interleaving, a run that has been persisted ends in `job-cancelled` exactly when it skipped a tool, and in
  // `job-finished` otherwise. A run that was cancelled only while its last tool ran is persisted as cancelled all the
  // same.
  lemma CancelledEndsExactlyWhenToolsWereSkipped(actions: seq<Action>, id: string)
    requires id in Execute(actions).runs && Execute(actions).runs[id].stage.Saving?
    ensures var run := Execute(actions).runs[id];
            var skipped := |run.stage.record.tools| < |run.tools|;
            && EndingIn(Execute(actions + [SaveReturned(id)]).log, id)
               == Some(if skipped then JobCancelled else JobFinished)
            && (skipped ==> run.stage.cancelled)
  {
    ReachableBase(actions);
    LiveConnect.ExecuteStep(actions, SaveReturned(id));
    var s, run := Execute(actions), Execute(actions).runs[id];
    assert RunFits(id, run);
    var ended := JobEnded(id, EndingOf(run.stage));
    EndingInStep(s.log, ended, id);
    EndingInStep(s.log + [ended], Cleared(run.jobId), id);
  }

  // A run is over exactly when an event ended it. It is `job-finished` exactly when every tool returned, and
  // `job-cancelled` only for a cancelled run.
  ghost predicate EndingTells(s: Live, id: string) {
    match EndingIn(s.log, id)
    case None => !IsOver(s, id)
    case Some(ending) =>
      && IsOver(s, id)
      && (ending == JobFinished <==> |s.runs[id].mapped| == |s.runs[id].tools|)
      && (ending == JobCancelled ==> s.runs[id].cancelled)
  }

  lemma EndRunTells(s: Live, run: Delegation, ending: Ending, id: string)
    requires EndingTells(s, id) && run.executionId in s.runs && s.runs[run.executionId] == run && !run.stage.Over?
    requires ending == JobFinished <==> |run.mapped| == |run.tools|
    requires ending == JobCancelled ==> run.cancelled
    ensures EndingTells(EndRun(s, run, ending), id)
  {
    EndingInStep(s.log, JobEnded(run.executionId, ending), id);
    EndingInStep(s.log + [JobEnded(run.executionId, ending)], Cleared(run.jobId), id);
  }

  lemma OtherActionsEndNothing(s: Live, action: Action, id: string)
    requires !action.ToolThrew? && !action.SaveReturned?
    ensures EndingIn(Next(s, action).log, id) == EndingIn(s.log, id)
  {
    if action.FinishTarget? && AtWork(s, action.executionId) {
      EndingInStep(s.log, TargetFinished(EventOf(s.runs[action.executionId], action.target)), id);
    } else if action.Remove? {
      EndingInStep(s.log, Cleared(action.jobId), id);
    } else {
      assert Next(s, action).log == s.log;
    }
  }

  // What is over keeps its tools, and a cancel stays.
  lemma OverIsKept(s: Live, action: Action, id: string)
    requires Base(s) && IsOver(s, id)
    ensures IsOver(Next(s, action), id)
    ensures Next(s, action).runs[id].mapped == s.runs[id].mapped && Next(s, action).runs[id].tools == s.runs[id].tools
    ensures s.runs[id].cancelled ==> Next(s, action).runs[id].cancelled
  {
    assert RunFits(id, s.runs[id]);
  }

  lemma NextTells(s: Live, action: Action, id: string)
    requires Base(s) && EndingTells(s, id)
    ensures EndingTells(Next(s, action), id)
  {
    match action
    case ToolThrew(other) =>
      if AtWork(s, other) {
        assert RunFits(other, s.runs[other]);
        EndRunTells(s, s.runs[other], JobFailed, id);
      }
    case SaveReturned(other) =>
      if other in s.runs && s.runs[other].stage.Saving? {
        assert RunFits(other, s.runs[other]);
        EndRunTells(s, s.runs[other], EndingOf(s.runs[other].stage), id);
      }
    case _ =>
      OnlyEndRunIsOver(s, action, id);
      OtherActionsEndNothing(s, action, id);
      if IsOver(s, id) {
        OverIsKept(s, action, id);
      }
  }

  // In every interleaving the event that ends a run tells what became of it.
  lemma {:induction false} EndingsTellTheOutcome(actions: seq<Action>, id: string)
    ensures EndingTells(Execute(actions), id)
  {
    if actions != [] {
      var earlier := actions[..|actions| - 1];
      EndingsTellTheOutcome(earlier, id);
      ReachableBase(earlier);
      NextTells(Execute(earlier), actions[|actions| - 1], id);
    }
  }
}
