// Connecting to the stream at any moment: what the client has received, and when it has everything.
module LiveConnect {
  import opened Wrappers
  import opened Seqs
  import opened JobExecutions
  import opened LiveJobs
  import opened LiveView

  // ---- Filters on filters ----

  lemma {:induction false} FilterCommutes<T>(xs: seq<T>, p: T -> bool, q: T -> bool)
    ensures Filter(Filter(xs, p), q) == Filter(Filter(xs, q), p)
  {
    if xs != [] {
      var init, last := xs[..|xs| - 1], xs[|xs| - 1];
      FilterCommutes(init, p, q);
      FilterStep(Filter(init, p), last, q);
      FilterStep(Filter(init, q), last, p);
    }
  }

  // A filter that lets everything the second one keeps pass.
  lemma {:induction false} FilterNothingMore<T(!new)>(xs: seq<T>, weak: T -> bool, strong: T -> bool)
    requires forall x :: x in xs && strong(x) ==> weak(x)
    ensures Filter(Filter(xs, weak), strong) == Filter(xs, strong)
  {
    if xs != [] {
      var init, last := xs[..|xs| - 1], xs[|xs| - 1];
      assert last in xs && forall x :: x in init ==> x in xs;
      FilterNothingMore(init, weak, strong);
      FilterStep(Filter(init, weak), last, strong);
    }
  }

  lemma {:induction false} FilterOfEvents(log: seq<Entry>, weak: TargetEvent -> bool, strong: TargetEvent -> bool)
    requires forall k :: 0 <= k < |log| && log[k].TargetFinished? && strong(log[k].event) ==> weak(log[k].event)
    ensures Filter(Events(log, weak), strong) == Events(log, strong)
  {
    if log != [] {
      var init, last := log[..|log| - 1], log[|log| - 1];
      FilterOfEvents(init, weak, strong);
      assert init + [last] == log;
      EventsStep(init, last, weak);
      if last.TargetFinished? && weak(last.event) {
        FilterStep(Events(init, weak), last.event, strong);
      } else {
        assert Events(init, weak) + [] == Events(init, weak);
      }
    }
  }

  // ---- The log only grows ----

  lemma NextExtendsLog(s: Live, action: Action)
    ensures s.log <= Next(s, action).log
  {
  }

  lemma {:induction false} LogGrows(actions: seq<Action>, t: nat)
    requires t <= |actions|
    ensures Execute(actions[..t]).log <= Execute(actions).log
  {
    if t < |actions| {
      var earlier := actions[..|actions| - 1];
      LogGrows(earlier, t);
      assert earlier[..t] == actions[..t];
      NextExtendsLog(Execute(earlier), actions[|actions| - 1]);
    } else {
      assert actions[..t] == actions;
    }
  }

  // What has been kept since an earlier state.
  lemma TailOfEvents(log: seq<Entry>, from: nat, keep: TargetEvent -> bool)
    requires from <= |log|
    ensures Events(log, keep) == Events(log[..from], keep) + Events(log[from..], keep)
  {
    assert log == log[..from] + log[from..];
    EventsConcat(log[..from], log[from..], keep);
  }

  // ---- Exactly when a client has every event of a run ----

  // The log up to and including the last time the job's buffer was cleared.
  function UpToClear(log: seq<Entry>, jobId: string): seq<Entry> {
    if log == [] || log[|log| - 1] == Cleared(jobId) then log else UpToClear(log[..|log| - 1], jobId)
  }

  // Connecting now loses nothing of the run: it has finished no target yet, or the job is in the running map for its
  // owner and no clear has dropped any of its events.
  ghost predicate NothingDropped(s: Live, id: string)
    requires id in s.runs
  {
    var run := s.runs[id];
    || Events(s.log, OfRun(id)) == []
    || (IsListed(s, run.userId, run.jobId) && Events(UpToClear(s.log, run.jobId), OfRun(id)) == [])
  }

  predicate IsListed(s: Live, userId: string, jobId: string) {
    jobId in s.running && s.running[jobId] in s.runs && s.runs[s.running[jobId]].userId == userId
  }

  ghost predicate Splits(log: seq<Entry>, jobId: string, id: string) {
    Events(log, OfRun(id)) == Events(UpToClear(log, jobId), OfRun(id)) + Filter(SinceClear(log, jobId), OfRun(id))
  }

  lemma SplitStep(log: seq<Entry>, entry: Entry, jobId: string, id: string)
    requires Splits(log, jobId, id)
    requires entry.TargetFinished? && entry.event.executionId == id ==> entry.event.jobId == jobId
    ensures Splits(log + [entry], jobId, id)
  {
    var next := log + [entry];
    assert next[..|log|] == log && next[|next| - 1] == entry;
    EventsStep(log, entry, OfRun(id));
    SinceClearStep(log, entry, jobId);
    if entry == Cleared(jobId) {
      assert UpToClear(next, jobId) == next;
    } else if entry.TargetFinished? && entry.event.jobId == jobId {
      SplitTarget(log, entry.event, jobId, id);
    } else {
      assert UpToClear(next, jobId) == UpToClear(log, jobId);
      assert SinceClear(log, jobId) + [] == SinceClear(log, jobId);
      assert Events(log, OfRun(id)) + [] == Events(log, OfRun(id));
    }
  }

  lemma SplitTarget(log: seq<Entry>, event: TargetEvent, jobId: string, id: string)
    requires Splits(log, jobId, id) && event.jobId == jobId
    ensures Splits(log + [TargetFinished(event)], jobId, id)
  {
    var next := log + [TargetFinished(event)];
    assert next[..|log|] == log;
    assert UpToClear(next, jobId) == UpToClear(log, jobId);
    EventsStep(log, TargetFinished(event), OfRun(id));
    SinceClearStep(log, TargetFinished(event), jobId);
    FilterStep(SinceClear(log, jobId), event, OfRun(id));
    assert SinceClear(next, jobId) == SinceClear(log, jobId) + [event];
    Reassociate(Events(UpToClear(log, jobId), OfRun(id)), Filter(SinceClear(log, jobId), OfRun(id)),
                if OfRun(id)(event) then [event] else []);
  }

  lemma Reassociate<T>(a: seq<T>, b: seq<T>, c: seq<T>)
    ensures (a + b) + c == a + (b + c)
  {
  }

  lemma {:induction false} SinceClearIsTheRest(log: seq<Entry>, jobId: string, id: string)
    requires forall k :: 0 <= k < |log| && log[k].TargetFinished? && log[k].event.executionId == id ==>
                           log[k].event.jobId == jobId
    ensures Splits(log, jobId, id)
  {
    if log != [] {
      var init, last := log[..|log| - 1], log[|log| - 1];
      SinceClearIsTheRest(init, jobId, id);
      SplitStep(init, last, jobId, id);
      assert init + [last] == log;
    }
  }

  lemma FitsEverywhere(s: Live, id: string)
    requires Base(s) && id in s.runs
    ensures forall k :: 0 <= k < |s.log| && s.log[k].TargetFinished? && s.log[k].event.executionId == id ==>
                          s.log[k].event.jobId == s.runs[id].jobId && s.log[k].event.userId == s.runs[id].userId
  {
    forall k | 0 <= k < |s.log| && s.log[k].TargetFinished? && s.log[k].event.executionId == id
      ensures s.log[k].event.jobId == s.runs[id].jobId && s.log[k].event.userId == s.runs[id].userId
    {
      assert EventFits(s, s.log[k].event);
    }
  }

  lemma {:induction false} SinceClearMembers(log: seq<Entry>, jobId: string)
    ensures forall event :: event in SinceClear(log, jobId) ==>
                              event.jobId == jobId && exists k :: 0 <= k < |log| && log[k] == TargetFinished(event)
  {
    if log != [] {
      var init := log[..|log| - 1];
      SinceClearMembers(init, jobId);
      forall event | event in SinceClear(log, jobId)
        ensures event.jobId == jobId && exists k :: 0 <= k < |log| && log[k] == TargetFinished(event)
      {
        if event in SinceClear(init, jobId) {
          var k :| 0 <= k < |init| && init[k] == TargetFinished(event);
          assert log[k] == TargetFinished(event);
        } else {
          assert log[|log| - 1] == TargetFinished(event);
        }
      }
    }
  }

  // The part of the snapshot that belongs to one run.
  lemma SnapshotOfRun(actions: seq<Action>, id: string)
    requires id in Execute(actions).runs
    ensures var s := Execute(actions);
            var run := s.runs[id];
            Filter(Snapshot(s, run.userId, run.jobId), OfRun(id))
            == if IsListed(s, run.userId, run.jobId) then Filter(SinceClear(s.log, run.jobId), OfRun(id)) else []
  {
    var s := Execute(actions);
    var run := s.runs[id];
    ReachableBase(actions);
    FitsEverywhere(s, id);
    BufferHoldsEventsSinceClear(actions, run.jobId);
    if IsListed(s, run.userId, run.jobId) {
      FilterCommutes(s.buffer, OfUser(run.userId), OfJob(run.jobId));
      SinceClearMembers(s.log, run.jobId);
      FilterNothingMore(SinceClear(s.log, run.jobId), OfUser(run.userId), OfRun(id));
    }
  }

  lemma SnapshotIsCompleteExactly(actions: seq<Action>, id: string)
    requires id in Execute(actions).runs
    ensures var s := Execute(actions);
            Filter(Snapshot(s, s.runs[id].userId, s.runs[id].jobId), OfRun(id)) == Events(s.log, OfRun(id))
            <==> NothingDropped(s, id)
  {
    var s := Execute(actions);
    SnapshotOfRun(actions, id);
    ReachableBase(actions);
    FitsEverywhere(s, id);
    SinceClearIsTheRest(s.log, s.runs[id].jobId, id);
  }

  lemma {:induction false} RunsStay(actions: seq<Action>, t: nat, id: string)
    requires t <= |actions| && id in Execute(actions[..t]).runs
    ensures id in Execute(actions).runs && SameCall(Execute(actions[..t]).runs[id], Execute(actions).runs[id])
  {
    if t < |actions| {
      var earlier := actions[..|actions| - 1];
      assert earlier[..t] == actions[..t];
      RunsStay(earlier, t, id);
      ReachableBase(earlier);
      NextKeepsRuns(Execute(earlier), actions[|actions| - 1]);
    } else {
      assert actions[..t] == actions;
    }
  }

  lemma LiveTailOfRun(s: Live, from: nat, id: string)
    requires Base(s) && id in s.runs && from <= |s.log|
    ensures Filter(Events(s.log[from..], ForClient(s.runs[id].userId, s.runs[id].jobId)), OfRun(id))
         == Events(s.log[from..], OfRun(id))
  {
    FitsEverywhere(s, id);
    FilterOfEvents(s.log[from..], ForClient(s.runs[id].userId, s.runs[id].jobId), OfRun(id));
  }

  // Whatever else happens, a client that connected after `t` actions has each of a run's events exactly once, in
  // order, if and only if nothing of the run had been dropped at that moment.
  lemma EachEventOnceExactly(actions: seq<Action>, t: nat, id: string)
    requires t <= |actions| && id in Execute(actions[..t]).runs
    ensures var at, s := Execute(actions[..t]), Execute(actions);
            var run := at.runs[id];
            && |at.log| <= |s.log|
            && (Filter(Received(at, s, run.userId, run.jobId), OfRun(id)) == Events(s.log, OfRun(id))
                <==> NothingDropped(at, id))
  {
    var at, s := Execute(actions[..t]), Execute(actions);
    var run := at.runs[id];
    LogGrows(actions, t);
    RunsStay(actions, t, id);
    ReachableBase(actions);
    LiveTailOfRun(s, |at.log|, id);
    TailOfEvents(s.log, |at.log|, OfRun(id));
    assert s.log[..|at.log|] == at.log;
    FilterConcat(Snapshot(at, run.userId, run.jobId),
                 Events(s.log[|at.log|..], ForClient(run.userId, run.jobId)), OfRun(id));
    SnapshotIsCompleteExactly(actions[..t], id);
    SameTail(Filter(Snapshot(at, run.userId, run.jobId), OfRun(id)), Events(at.log, OfRun(id)),
             Events(s.log[|at.log|..], OfRun(id)));
  }

  lemma SameTail<T>(a: seq<T>, b: seq<T>, tail: seq<T>)
    ensures a + tail == b + tail <==> a == b
  {
    if a + tail == b + tail {
      assert (a + tail)[..|a|] == a && (b + tail)[..|b|] == b;
    }
  }

  lemma ExecuteStep(actions: seq<Action>, action: Action)
    ensures Execute(actions + [action]) == Next(Execute(actions), action)
  {
    assert (actions + [action])[..|actions|] == actions;
  }

  // A user runs a scheduled job of one tool, its cron task starts it again, each run finishes a target, and the first one
  // ends.
  function Overlap(first: string, second: string, jobId: string, userId: string, tool: Tool, cronType: string,
                   targets: (Target, Target), now: string): (actions: seq<Action>)
    ensures |actions| == 6
  {
    [Delegate(first, jobId, userId, [tool], Some(cronType), now, now)]
    + [Delegate(second, jobId, userId, [tool], Some(cronType), now, now)]
    + [FinishTarget(second, targets.0)] + [FinishTarget(first, targets.1)]
    + [ToolReturned(first, now)] + [SaveReturned(first)]
  }

  function Fresh(id: string, jobId: string, userId: string, tool: Tool, cronType: string, now: string): Delegation {
    Delegation(id, jobId, userId, Some(cronType), now, [tool], [], [], Stage.InTool, false)
  }

  // Both runs are at their only tool, the second holds the running entry, and nothing has been emitted.
  ghost predicate BothBegun(s: Live, first: Delegation, second: Delegation) {
    && first.executionId in s.runs && s.runs[first.executionId] == first
    && second.executionId in s.runs && s.runs[second.executionId] == second
    && s.running == map[first.jobId := second.executionId] && s.buffer == [] && s.log == []
  }

  // The first run is being persisted, and one target of each has been emitted.
  ghost predicate FirstSaves(s: Live, first: string, second: Delegation, target: Target, other: TargetEvent)
    requires |second.mapped| < |second.tools|
  {
    && first in s.runs && s.runs[first].executionId == first && s.runs[first].jobId == second.jobId
    && s.runs[first].stage.Saving? && EndingOf(s.runs[first].stage) == JobFinished
    && second.executionId in s.runs && s.runs[second.executionId] == second.(current := [target])
    && s.running == map[second.jobId := second.executionId]
    && s.log == [TargetFinished(EventOf(second, target)), TargetFinished(other)]
  }

  lemma OverlapBegins(first: string, second: string, jobId: string, userId: string, tool: Tool, cronType: string, now: string)
    requires first != second
    ensures BothBegun(Execute([Delegate(first, jobId, userId, [tool], Some(cronType), now, now)]
                              + [Delegate(second, jobId, userId, [tool], Some(cronType), now, now)]),
                      Fresh(first, jobId, userId, tool, cronType, now), Fresh(second, jobId, userId, tool, cronType, now))
  {
    var begin := [Delegate(first, jobId, userId, [tool], Some(cronType), now, now)];
    assert [] + begin == begin;
    ExecuteStep([], begin[0]);
    ExecuteStep(begin, Delegate(second, jobId, userId, [tool], Some(cronType), now, now));
  }

  lemma OverlapContinues(s: Live, first: Delegation, second: Delegation, targets: (Target, Target), now: string)
    requires BothBegun(s, first, second) && first.executionId != second.executionId && first.jobId == second.jobId
    requires first.stage.InTool? && first.mapped == [] && |first.tools| == 1
    requires second.stage.InTool? && second.mapped == [] && |second.tools| == 1 && second.current == []
    ensures FirstSaves(Next(Next(Next(s, FinishTarget(second.executionId, targets.0)),
                                 FinishTarget(first.executionId, targets.1)),
                            ToolReturned(first.executionId, now)),
                       first.executionId, second, targets.0, EventOf(first, targets.1))
  {
    var s1 := Next(s, FinishTarget(second.executionId, targets.0));
    assert AtWork(s, second.executionId) && second.current + [targets.0] == [targets.0];
    assert s1.runs == s.runs[second.executionId := second.(current := [targets.0])];
    var s2 := Next(s1, FinishTarget(first.executionId, targets.1));
    assert s2.runs[first.executionId] == first.(current := first.current + [targets.1]);
    assert s2.log == [TargetFinished(EventOf(second, targets.0)), TargetFinished(EventOf(first, targets.1))];
    assert AtWork(s2, first.executionId);
  }

  lemma OverlapEnds(s: Live, first: string, second: Delegation, target: Target, other: TargetEvent)
    requires |second.mapped| < |second.tools| && FirstSaves(s, first, second, target, other)
    requires first != second.executionId && other.executionId == first && second.stage.InTool?
    ensures var next := Next(s, SaveReturned(first));
            && AtWork(next, second.executionId) && next.running == map[]
            && Events(next.log, OfRun(second.executionId)) == [EventOf(second, target)]
  {
    var event, keep := EventOf(second, target), OfRun(second.executionId);
    assert Next(s, SaveReturned(first)) == EndRun(s, s.runs[first], JobFinished);
    EventsStep([], TargetFinished(event), keep);
    EventsStep([TargetFinished(event)], TargetFinished(other), keep);
    assert [] + [TargetFinished(event)] == [TargetFinished(event)];
    assert [TargetFinished(event)] + [TargetFinished(other)] == s.log;
    EndingAddsNoEvent(s, s.runs[first], JobFinished, keep);
  }

  // Two overlapping runs of a job: the first to end drops the other's events from the buffer, and the job from the
  // snapshot, although the other is still at work.
  lemma OverlappingRunsLoseEvents(first: string, second: string, jobId: string, userId: string, tool: Tool,
                                  cronType: string, targets: (Target, Target), now: string)
    requires first != second
    ensures var s := Execute(Overlap(first, second, jobId, userId, tool, cronType, targets, now));
            && AtWork(s, second) && |Events(s.log, OfRun(second))| == 1
            && Received(s, s, userId, jobId) == []
  {
    var a := Fresh(first, jobId, userId, tool, cronType, now);
    var b := Fresh(second, jobId, userId, tool, cronType, now);
    var begun := [Delegate(first, jobId, userId, [tool], Some(cronType), now, now)]
                 + [Delegate(second, jobId, userId, [tool], Some(cronType), now, now)];
    OverlapBegins(first, second, jobId, userId, tool, cronType, now);
    OverlapContinues(Execute(begun), a, b, targets, now);
    ExecuteStep(begun, FinishTarget(second, targets.0));
    ExecuteStep(begun + [FinishTarget(second, targets.0)], FinishTarget(first, targets.1));
    var both := begun + [FinishTarget(second, targets.0)] + [FinishTarget(first, targets.1)];
    ExecuteStep(both, ToolReturned(first, now));
    OverlapEnds(Execute(both + [ToolReturned(first, now)]), first, b, targets.0, EventOf(a, targets.1));
    ExecuteStep(both + [ToolReturned(first, now)], SaveReturned(first));
    var s := Execute(Overlap(first, second, jobId, userId, tool, cronType, targets, now));
    assert s.log[|s.log|..] == [];
  }
}
