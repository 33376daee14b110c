// The delegator, the emitter and a stream's connection, updated in place. Every method is the segment of the same name
// in the transition system.
module Delegating {
  import opened Wrappers
  import opened Seqs
  import opened JobExecutions
  import opened LiveJobs
  import opened LiveView

  class Emitter {
    var emittedJobTargetEvents: seq<TargetEvent>
    ghost var log: seq<Entry>

    constructor ()
      ensures emittedJobTargetEvents == [] && log == []
    {
      emittedJobTargetEvents, log := [], [];
    }

    // Target events are kept for late joiners; the others only go out.
    method Emit(event: Entry)
      requires !event.Cleared?
      modifies this
      ensures log == old(log) + [event]
      ensures emittedJobTargetEvents
           == if event.TargetFinished? then old(emittedJobTargetEvents) + [event.event] else old(emittedJobTargetEvents)
    {
      if event.TargetFinished? {
        emittedJobTargetEvents := emittedJobTargetEvents + [event.event];
      }
      log := log + [event];
    }

    method ClearJobTargetEvents(jobId: string)
      modifies this
      ensures log == old(log) + [Cleared(jobId)]
      ensures emittedJobTargetEvents == Filter(old(emittedJobTargetEvents), NotOfJob(jobId))
    {
      emittedJobTargetEvents := Filter(emittedJobTargetEvents, NotOfJob(jobId));
      log := log + [Cleared(jobId)];
    }

    function GetEmittedJobTargetEventsForUser(userId: string): (events: seq<TargetEvent>)
      reads this
    {
      Filter(emittedJobTargetEvents, OfUser(userId))
    }
  }

  // What `register` keeps for a scheduled job.
  datatype Pending = Pending(jobId: string, userId: string, tools: seq<Tool>, scheduleType: Option<string>)

  predicate IsRecurring(scheduleType: Option<string>) {
    scheduleType.Some? && scheduleType.value != "" && scheduleType.value != "once"
  }

  // One call of `delegate` with its aborter: the payload, and what the loop has collected.
  class DelegateCall {
    const executionId: string
    const jobId: string
    const userId: string
    const scheduleType: Option<string>
    const delegatedAt: string
    const tools: seq<Tool>
    var mappedTools: seq<ExecutionTool>
    var mappedToolTargets: seq<Target>
    var stage: Stage
    var cancelled: bool

    ghost function View(): Delegation
      reads this
    {
      Delegation(executionId, jobId, userId, scheduleType, delegatedAt, tools,
                 mappedTools, mappedToolTargets, stage, cancelled)
    }

    constructor (executionId: string, jobId: string, userId: string, tools: seq<Tool>,
                 scheduleType: Option<string>, delegatedAt: string)
      ensures this.executionId == executionId && this.jobId == jobId
      ensures View() == Delegation(executionId, jobId, userId, scheduleType, delegatedAt, tools,
                                   [], [], Stage.InTool, false)
    {
      this.executionId, this.jobId, this.userId, this.tools := executionId, jobId, userId, tools;
      this.scheduleType, this.delegatedAt := scheduleType, delegatedAt;
      mappedTools, mappedToolTargets, stage, cancelled := [], [], Stage.InTool, false;
    }

    // The top of the tool loop.
    method LoopTop(now: string)
      modifies this
      ensures View() == Continue(old(View()), now)
    {
      var cancelledAt := None;
      if |mappedTools| < |tools| {
        if !cancelled {
          stage := Stage.InTool;
          return;
        }
        cancelledAt := Some(now);
      }
      stage := Saving(Execution(executionId, Schedule(scheduleType, delegatedAt, Some(now), cancelledAt), mappedTools),
                      cancelled);
    }

    // The running tool returned with its targets.
    method KeepTool(now: string)
      requires |mappedTools| < |tools|
      modifies this
      ensures View() == Continue(FinishTool(old(View())), now)
    {
      mappedTools := mappedTools + [ExecutionTool(tools[|mappedTools|], mappedToolTargets)];
      mappedToolTargets := [];
      LoopTop(now);
    }
  }

  class Delegator {
    const emitter: Emitter
    var runningJobs: map<string, DelegateCall>
    var pendingJobs: map<string, Pending>

    // Every call so far, and every action.
    ghost var calls: map<string, DelegateCall>
    ghost var actions: seq<Action>

    ghost predicate Wired()
      reads `calls, `runningJobs
    {
      && (forall id :: id in calls ==> calls[id].executionId == id)
      && (forall jobId :: jobId in runningJobs ==>
                            runningJobs[jobId].executionId in calls
                            && calls[runningJobs[jobId].executionId] == runningJobs[jobId])
    }

    ghost function RunningIds(): map<string, string>
      reads `runningJobs
    {
      map jobId | jobId in runningJobs :: runningJobs[jobId].executionId
    }

    ghost function CallViews(): map<string, Delegation>
      reads `calls, calls.Values
    {
      map id | id in calls :: calls[id].View()
    }

    ghost function View(): Live
      reads `runningJobs, `calls, calls.Values, emitter
    {
      Live(RunningIds(), emitter.emittedJobTargetEvents, CallViews(), emitter.log)
    }

    // The delegator is in the state that its actions lead to.
    ghost predicate Valid()
      reads `runningJobs, `calls, `actions, calls.Values, emitter
    {
      Wired() && View() == Execute(actions)
    }

    ghost predicate Owns(call: DelegateCall)
      reads `calls
    {
      call.executionId in calls && calls[call.executionId] == call
    }

    constructor (emitter: Emitter)
      requires emitter.emittedJobTargetEvents == [] && emitter.log == []
      ensures Valid() && this.emitter == emitter && actions == [] && pendingJobs == map[]
    {
      this.emitter := emitter;
      runningJobs, pendingJobs, calls, actions := map[], map[], map[], [];
      new;
      assert View() == IDLE;
    }

    // Only `call` has changed since the old state.
    twostate lemma OneCallChanged(call: DelegateCall)
      requires old(Wired()) && old(Owns(call)) && calls == old(calls)
      requires forall other :: other in calls.Values && other != call ==> unchanged(other)
      ensures CallViews() == old(CallViews())[call.executionId := call.View()]
    {
      forall id | id in calls
        ensures id != call.executionId ==> calls[id].View() == old(calls[id].View())
      {
        assert calls[id] in calls.Values;
      }
    }

    // The action just taken joins the record of actions.
    ghost method Took(before: Live, action: Action)
      requires Wired() && before == Execute(actions) && View() == Next(before, action)
      modifies `actions
      ensures Valid() && View() == old(View()) && actions == old(actions) + [action]
    {
      assert (actions + [action])[..|actions|] == actions;
      actions := actions + [action];
    }

    method Register(payload: Pending)
      modifies `pendingJobs
      ensures pendingJobs == old(pendingJobs)[payload.jobId := payload]
    {
      pendingJobs := pendingJobs[payload.jobId := payload];
    }

    // `delegateScheduledJob`: a job without a registered payload is not run.
    method DelegateScheduledJob(jobId: string, executionId: string, delegatedAt: string, now: string)
      returns (call: Option<DelegateCall>)
      requires Valid() && executionId !in calls
      modifies `runningJobs, `calls, `actions
      ensures Valid() && (call.Some? <==> jobId in pendingJobs)
      ensures call.None? ==> calls == old(calls) && actions == old(actions)
      ensures call.Some? ==>
        var payload := pendingJobs[jobId];
        && calls == old(calls)[executionId := call.value]
        && actions == old(actions)
                      + [Action.Delegate(executionId, payload.jobId, payload.userId, payload.tools,
                                         payload.scheduleType, delegatedAt, now)]
    {
      if jobId !in pendingJobs {
        return None;
      }
      var payload := pendingJobs[jobId];
      var begun := Delegate(executionId, payload.jobId, payload.userId, payload.tools, payload.scheduleType,
                            delegatedAt, now);
      return Some(begun);
    }

    // `delegate`, up to the first wait. `executionId` is fresh.
    method Delegate(executionId: string, jobId: string, userId: string, tools: seq<Tool>,
                    scheduleType: Option<string>, delegatedAt: string, now: string)
      returns (call: DelegateCall)
      requires Valid() && executionId !in calls
      modifies `runningJobs, `calls, `actions
      ensures Valid() && fresh(call) && calls == old(calls)[executionId := call]
      ensures actions == old(actions)
                         + [Action.Delegate(executionId, jobId, userId, tools, scheduleType, delegatedAt, now)]
    {
      ghost var before := View();
      call := new DelegateCall(executionId, jobId, userId, tools, scheduleType, delegatedAt);
      call.LoopTop(now);
      AddCall(call);
      Took(before, Action.Delegate(executionId, jobId, userId, tools, scheduleType, delegatedAt, now));
    }

    method AddCall(call: DelegateCall)
      requires Wired() && call.executionId !in calls
      modifies `runningJobs, `calls
      ensures Wired() && calls == old(calls)[call.executionId := call]
      ensures View() == old(View()).(runs := old(View()).runs[call.executionId := call.View()],
                                     running := old(View()).running[call.jobId := call.executionId])
    {
      runningJobs := runningJobs[call.jobId := call];
      calls := calls[call.executionId := call];
      assert CallViews() == old(CallViews())[call.executionId := call.View()];
      assert RunningIds() == old(RunningIds())[call.jobId := call.executionId];
    }

    // `onTargetFinish` of the running tool.
    method OnTargetFinish(call: DelegateCall, target: Target)
      requires Valid() && Owns(call) && call.stage.InTool? && |call.mappedTools| < |call.tools|
      modifies call, emitter, `actions
      ensures Valid() && actions == old(actions) + [FinishTarget(call.executionId, target)]
    {
      ghost var before := View();
      call.mappedToolTargets := call.mappedToolTargets + [target];
      emitter.Emit(TargetFinished(TargetEvent(call.jobId, call.userId, call.executionId, call.tools[|call.mappedTools|],
                                              Schedule(call.scheduleType, call.delegatedAt, None, None), target)));
      OneCallChanged(call);
      Took(before, FinishTarget(call.executionId, target));
    }

    // The running tool's `execute` returned.
    method ToolReturned(call: DelegateCall, now: string)
      requires Valid() && Owns(call) && call.stage.InTool? && |call.mappedTools| < |call.tools|
      modifies call, `actions
      ensures Valid() && actions == old(actions) + [Action.ToolReturned(call.executionId, now)]
    {
      ghost var before := View();
      call.KeepTool(now);
      OneCallChanged(call);
      Took(before, Action.ToolReturned(call.executionId, now));
    }

    // The running tool's `execute` threw.
    method ToolThrew(call: DelegateCall)
      requires Valid() && Owns(call) && call.stage.InTool? && |call.mappedTools| < |call.tools|
      modifies call, emitter, `runningJobs, `pendingJobs, `actions
      ensures Valid() && actions == old(actions) + [Action.ToolThrew(call.executionId)]
      ensures pendingJobs == if IsRecurring(call.scheduleType) then old(pendingJobs) else old(pendingJobs) - {call.jobId}
    {
      ghost var before := View();
      Finish(call, JobFailed);
      Took(before, Action.ToolThrew(call.executionId));
    }

    // The execution is persisted, or the attempts to persist it are used up.
    method SaveReturned(call: DelegateCall)
      requires Valid() && Owns(call) && call.stage.Saving?
      modifies call, emitter, `runningJobs, `pendingJobs, `actions
      ensures Valid() && actions == old(actions) + [Action.SaveReturned(call.executionId)]
      ensures pendingJobs == if IsRecurring(call.scheduleType) then old(pendingJobs) else old(pendingJobs) - {call.jobId}
    {
      ghost var before := View();
      if call.stage.cancelled && call.stage.record.schedule.cancelledAt.Some? {
        Finish(call, JobCancelled);
      } else {
        Finish(call, JobFinished);
      }
      Took(before, Action.SaveReturned(call.executionId));
    }

    // Emits how the run ended, then the `finally` of `delegate`.
    method Finish(call: DelegateCall, ending: Ending)
      requires Wired() && Owns(call)
      modifies call, emitter, `runningJobs, `pendingJobs
      ensures Wired() && View() == EndRun(old(View()), old(call.View()), ending)
      ensures pendingJobs == if IsRecurring(call.scheduleType) then old(pendingJobs) else old(pendingJobs) - {call.jobId}
    {
      EmitEnding(call, ending);
      if !IsRecurring(call.scheduleType) {
        pendingJobs := pendingJobs - {call.jobId};
      }
      Leave(call.jobId);
    }

    method EmitEnding(call: DelegateCall, ending: Ending)
      requires Wired() && Owns(call)
      modifies call, emitter
      ensures Wired() && View() == old(View()).(
        runs := old(View()).runs[call.executionId := old(call.View()).(stage := Over)],
        log := old(View()).log + [JobEnded(call.executionId, ending)])
    {
      emitter.Emit(JobEnded(call.executionId, ending));
      call.stage := Over;
      OneCallChanged(call);
    }

    // The job leaves the running map, and its buffered events go.
    method Leave(jobId: string)
      requires Wired()
      modifies emitter, `runningJobs
      ensures Wired() && View() == Clear(old(View()).(running := old(View()).running - {jobId}), jobId)
    {
      runningJobs := runningJobs - {jobId};
      emitter.ClearJobTargetEvents(jobId);
      assert RunningIds() == old(RunningIds()) - {jobId};
    }

    method Cancel(jobId: string)
      requires Valid()
      modifies calls.Values, `actions
      ensures Valid() && actions == old(actions) + [Action.Cancel(jobId)]
    {
      ghost var before := View();
      Abort(jobId);
      Took(before, Action.Cancel(jobId));
    }

    method Abort(jobId: string)
      requires Wired()
      modifies calls.Values
      ensures Wired() && View() == CancelJob(old(View()), jobId)
    {
      if jobId in runningJobs {
        var call := runningJobs[jobId];
        assert call in calls.Values;
        call.cancelled := true;
        OneCallChanged(call);
      }
    }

    method RemoveJob(jobId: string)
      requires Valid()
      modifies calls.Values, emitter, `runningJobs, `pendingJobs, `actions
      ensures Valid() && actions == old(actions) + [Action.Remove(jobId)]
      ensures pendingJobs == old(pendingJobs) - {jobId}
    {
      ghost var before := View();
      Withdraw(jobId);
      pendingJobs := pendingJobs - {jobId};
      Took(before, Action.Remove(jobId));
    }

    // Cancels the job's run, if any, and forgets it.
    method Withdraw(jobId: string)
      requires Wired()
      modifies calls.Values, emitter, `runningJobs
      ensures Wired() && View() == Next(old(View()), Action.Remove(jobId))
    {
      Abort(jobId);
      Leave(jobId);
    }

    // The connect snapshot of `streamJobs`: the jobs that run for this user, each with its emitted events.
    method Connect(userId: string) returns (snapshot: map<string, seq<TargetEvent>>)
      requires Wired()
      ensures forall jobId :: jobId in snapshot <==> jobId in runningJobs && runningJobs[jobId].userId == userId
      ensures forall jobId :: (if jobId in snapshot then snapshot[jobId] else []) == Snapshot(View(), userId, jobId)
    {
      var events := emitter.GetEmittedJobTargetEventsForUser(userId);
      snapshot := map jobId | jobId in runningJobs && runningJobs[jobId].userId == userId
                    :: Filter(events, OfJob(jobId));
      forall jobId | jobId in runningJobs
        ensures View().runs[View().running[jobId]] == runningJobs[jobId].View()
      {
        assert runningJobs[jobId] in calls.Values;
      }
    }
  }
}
