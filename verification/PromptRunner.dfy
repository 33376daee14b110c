// The prompt runner itself: run records and maps updated in place, one method for each synchronous segment.
// Every method is the transition of the same name in the protocol.
module PromptRunning {
  import opened Wrappers
  import opened Catalog
  import opened Gateway
  import opened PromptRecord
  import opened PromptProtocol
  import opened PromptInvariant
  import opened PromptReservations
  import opened PromptServed
  import opened PromptAdmission

  // One prompt this process holds. The ghost fields record what has happened to it.
  class PromptRun {
    const promptId: string
    const userId: string
    const conversationId: string
    const prompt: string
    const startedAt: string
    var phase: Phase
    var aborted: bool
    var messages: seq<Message>
    var list: Option<ModelList>
    var wireList: Option<ModelList>
    var pendingPermission: Option<Ask>
    var used: seq<Selection>
    var terminalEventSent: bool
    // Where its step loop is parked, with the values the continuation captured.
    var pc: Pc

    ghost const seed: seq<Message>
    ghost var ended: bool
    ghost var stopAccepted: bool
    ghost var rounds: seq<Round>
    ghost var trace: seq<Obs>

    ghost function View(): Run
      reads this
    {
      Run(userId, conversationId, prompt, startedAt, seed, phase, aborted, messages, list, wireList,
          pendingPermission, used, terminalEventSent, pc, ended, stopAccepted, rounds, trace)
    }

    constructor (promptId: string, input: StartInput, startedAt: string, messages: seq<Message>)
      ensures this.promptId == promptId
      ensures View() == Run(input.userId, input.conversationId, input.prompt, startedAt, messages,
                            Selecting, false, messages, None, None, None, [], false,
                            Scheduled, false, false, [], [])
    {
      this.promptId, userId, conversationId, prompt := promptId, input.userId, input.conversationId, input.prompt;
      this.startedAt, phase, aborted, this.messages := startedAt, Selecting, false, messages;
      list, wireList, pendingPermission, used, terminalEventSent := None, None, None, [], false;
      seed, pc, ended, stopAccepted, rounds, trace := messages, Scheduled, false, false, [], [];
    }
  }

  // What a run becomes after its answer is saved.
  ghost function AnswerSaved(saved: Run): (next: Run)
    requires saved.pc.Saving?
    ensures SameOrigin(saved, next)
  {
    if saved.phase == Phase.Stopped || saved.wireList.None? || !IsAnswering(saved.phase)
    then End(PromptProtocol.EmitStopped(saved))
    else
      End(Log(Claim(saved, HasAnswered).(terminalEventSent := true),
              [Emitted(AnsweringEvent),
               Emitted(AnswerEvent(saved.pc.content, saved.startedAt, saved.pc.finishedAt, DomainsOf(saved.used),
                                   saved.wireList, saved.messages))]))
  }

  class PromptRunner {
    const finishedPromptLimit: int
    // The keys of the Map, which keeps them in insertion order, and its values.
    var activeOrder: seq<string>
    var activePrompts: map<string, PromptRun>
    var activePromptByConversation: map<string, string>
    var finishedPrompts: seq<Finished>

    // Every run ever started, the order in which they left "being answered", and every action so far.
    ghost var runs: map<string, PromptRun>
    ghost var history: seq<string>
    ghost var actions: seq<Action>

    ghost predicate Wired()
      reads `runs, `activePrompts, `activeOrder, runs.Values
    {
      && (forall id :: id in activeOrder <==> id in activePrompts)
      && (forall id :: id in runs ==> runs[id].promptId == id)
      && (forall id :: id in activePrompts ==> id in runs && runs[id] == activePrompts[id])
    }

    ghost function View(): State
      reads `activeOrder, `activePromptByConversation, `finishedPrompts, `runs, `history, runs.Values
    {
      State(finishedPromptLimit, activeOrder, activePromptByConversation, finishedPrompts,
            RunViews(), history)
    }

    ghost function RunViews(): map<string, Run>
      reads `runs, runs.Values
    {
      map id | id in runs :: runs[id].View()
    }

    // The runner is in the state that its actions lead to, so what holds of every interleaving holds of it.
    ghost predicate Valid()
      reads this, runs.Values
    {
      Wired() && View() == Execute(finishedPromptLimit, actions)
    }

    // `run` is one of this runner's records.
    ghost predicate Owns(run: PromptRun)
      reads `runs
    {
      run.promptId in runs && runs[run.promptId] == run
    }

    // Whatever the runner was asked to do, its maps and its records satisfy the invariant of the protocol.
    lemma SafeAtEveryMoment()
      requires Valid()
      ensures Inv(View()) && AllServed(View())
    {
      ReachableInv(finishedPromptLimit, actions);
      ReachableServed(finishedPromptLimit, actions);
    }

    constructor (finishedPromptLimit: int)
      ensures Valid() && actions == [] && View() == Initial(finishedPromptLimit)
    {
      this.finishedPromptLimit := finishedPromptLimit;
      activeOrder, activePrompts, activePromptByConversation, finishedPrompts := [], map[], map[], [];
      runs, history, actions := map[], [], [];
      new;
      assert View() == Initial(finishedPromptLimit);
    }

    // Only `run` has changed since the old state.
    twostate lemma OneRunChanged(run: PromptRun)
      requires old(Wired()) && old(Owns(run)) && unchanged(this)
      requires forall other :: other in runs.Values && other != run ==> unchanged(other)
      ensures Wired() && View() == old(View()).(runs := old(View()).runs[run.promptId := run.View()])
    {
      forall id | id in runs
        ensures runs[id].promptId == id
        ensures id != run.promptId ==> runs[id].View() == old(runs[id].View())
      {
        assert runs[id] in runs.Values;
      }
      assert RunViews() == old(RunViews())[run.promptId := run.View()];
    }

    // `runs` has gained `run` since the old state.
    twostate lemma OneRunAdded(run: PromptRun)
      requires old(Wired()) && run.promptId !in old(runs) && runs == old(runs)[run.promptId := run]
      requires forall other :: other in old(runs.Values) ==> unchanged(other)
      ensures RunViews() == old(RunViews())[run.promptId := run.View()]
    {
      ghost var next := old(RunViews())[run.promptId := run.View()];
      forall id | id in runs
        ensures runs[id].View() == next[id]
      {
        if id != run.promptId {
          assert old(runs)[id] in old(runs.Values);
        }
      }
      assert RunViews().Keys == next.Keys;
    }

    // ---- Leaving "being answered" ----

    // Remembers a finished prompt, then drops the oldest ones over the limit.
    method Remember(entry: Finished)
      modifies this`finishedPrompts
      ensures finishedPrompts == Evict(SetFinished(old(finishedPrompts), entry), finishedPromptLimit)
      ensures (forall i :: 0 <= i < |old(finishedPrompts)| ==>
                 old(finishedPrompts)[i].promptId != "" && old(finishedPrompts)[i].promptId != entry.promptId)
              && entry.promptId != "" ==>
        var all := old(finishedPrompts) + [entry];
        finishedPrompts == all[|all| - WindowSize(finishedPromptLimit, |all|)..]
    {
      NewestAreKept(finishedPrompts, entry, finishedPromptLimit);
      finishedPrompts := SetFinished(finishedPrompts, entry);
      ghost var all := finishedPrompts;
      while |finishedPrompts| > finishedPromptLimit
        invariant Evict(finishedPrompts, finishedPromptLimit) == Evict(all, finishedPromptLimit)
        decreases |finishedPrompts|
      {
        if finishedPrompts == [] || finishedPrompts[0].promptId == "" {
          break;
        }
        finishedPrompts := finishedPrompts[1..];
      }
    }

    // Drops the reservations of a run that has just become terminal, and remembers its owner.
    method Release(run: PromptRun)
      requires Wired() && Owns(run)
      modifies `activeOrder, `activePrompts, `activePromptByConversation, `finishedPrompts, `history
      ensures Wired()
      ensures View() == Released(old(View()), run.promptId, run.View())
    {
      Unreserve(run);
      Remember(Finished(run.promptId, run.userId));
      history := history + [run.promptId];
      assert RunViews() == old(RunViews());
    }

    method Unreserve(run: PromptRun)
      requires Wired() && Owns(run)
      modifies `activeOrder, `activePrompts, `activePromptByConversation
      ensures Wired() && activeOrder == Without(old(activeOrder), run.promptId)
      ensures activePromptByConversation
           == if run.conversationId in old(activePromptByConversation)
                 && old(activePromptByConversation)[run.conversationId] == run.promptId
              then old(activePromptByConversation) - {run.conversationId} else old(activePromptByConversation)
    {
      activeOrder := Without(activeOrder, run.promptId);
      activePrompts := activePrompts - {run.promptId};
      if run.conversationId in activePromptByConversation
         && activePromptByConversation[run.conversationId] == run.promptId {
        activePromptByConversation := activePromptByConversation - {run.conversationId};
      }
    }

    method ClaimTerminal(run: PromptRun, phase: Phase) returns (claimed: bool)
      requires Wired() && Owns(run) && !IsAnswering(phase)
      modifies this, run
      ensures Wired() && Owns(run) && runs == old(runs) && actions == old(actions)
      ensures claimed == IsAnswering(old(run.phase))
      ensures run.View() == Claim(old(run.View()), phase)
      ensures View() == Commit(old(View()), run.promptId, run.View())
    {
      if !IsAnswering(run.phase) {
        assert View() == Commit(View(), run.promptId, run.View());
        return false;
      }
      SetTerminal(run, phase);
      Release(run);
      return true;
    }

    method SetTerminal(run: PromptRun, phase: Phase)
      requires Wired() && Owns(run) && IsAnswering(run.phase)
      modifies run`phase, run`pendingPermission
      ensures Wired() && run.View() == Claim(old(run.View()), phase)
      ensures View() == old(View()).(runs := old(View()).runs[run.promptId := run.View()])
    {
      run.phase := phase;
      run.pendingPermission := None;
      OneRunChanged(run);
    }

    // A later change to a run that was already committed.
    lemma CommitAgain(s: State, id: string, first: Run, second: Run)
      requires id in s.runs && SameOrigin(first, second) && IsAnswering(first.phase) == IsAnswering(second.phase)
      ensures Commit(s, id, second) == Commit(s, id, first).(runs := Commit(s, id, first).runs[id := second])
    {
    }

    // Two commits of one run, of which the first leaves it as answered as it was.
    lemma CommitThen(s: State, id: string, first: Run, second: Run)
      requires id in s.runs && SameOrigin(first, second) && IsAnswering(s.runs[id].phase) == IsAnswering(first.phase)
      ensures Commit(Commit(s, id, first), id, second) == Commit(s, id, second)
    {
      assert s.runs[id := first][id := second] == s.runs[id := second];
    }

    lemma CommitNothing(s: State, id: string)
      requires id in s.runs
      ensures Commit(s, id, s.runs[id]) == s
    {
      assert s.runs[id := s.runs[id]] == s.runs;
    }

    // Only `run` has changed since the old state, and it is still being answered if it was.
    twostate lemma QuietCommit(run: PromptRun)
      requires old(Wired()) && old(Owns(run)) && unchanged(this)
      requires forall other :: other in runs.Values && other != run ==> unchanged(other)
      requires old(IsAnswering(run.phase)) ==> IsAnswering(run.phase)
      ensures Wired() && View() == Commit(old(View()), run.promptId, run.View())
    {
      OneRunChanged(run);
    }

    // Emits one `stopped` event. Later calls do nothing.
    method EmitStopped(run: PromptRun)
      requires Wired() && Owns(run)
      modifies this, run
      ensures Wired() && Owns(run) && runs == old(runs) && actions == old(actions)
      ensures run.View() == PromptProtocol.EmitStopped(old(run.View()))
      ensures View() == Commit(old(View()), run.promptId, run.View())
    {
      ghost var before := View();
      CommitNothing(before, run.promptId);
      if run.terminalEventSent {
        return;
      }
      if run.phase != Phase.Stopped {
        var claimed := ClaimTerminal(run, Phase.Stopped);
      }
      SendLast(before, run, StoppedEvent(run.messages, run.wireList));
    }

    // Marks the terminal event as sent, and sends it.
    method SendLast(ghost before: State, run: PromptRun, event: Event)
      requires Wired() && Owns(run) && run.promptId in before.runs
      requires View() == Commit(before, run.promptId, run.View())
      modifies run`terminalEventSent, run`trace
      ensures run.View() == Log(old(run.View()).(terminalEventSent := true), [Emitted(event)])
      ensures Wired() && View() == Commit(before, run.promptId, run.View())
    {
      run.terminalEventSent := true;
      run.trace := run.trace + [Emitted(event)];
      OneRunChanged(run);
      CommitAgain(before, run.promptId, old(run.View()), run.View());
    }

    // Ends the prompt with `error`. An abort emits `stopped` instead.
    method Fail(run: PromptRun, failure: Failure)
      requires Wired() && Owns(run)
      modifies this, run
      ensures Wired() && Owns(run) && runs == old(runs) && actions == old(actions)
      ensures run.View() == PromptProtocol.Fail(old(run.View()), failure)
      ensures View() == Commit(old(View()), run.promptId, run.View())
    {
      ghost var before := View();
      if IsAbort(failure) || run.phase == Phase.Stopped {
        EmitStopped(run);
      } else {
        var claimed := ClaimTerminal(run, HasFailed);
        if claimed {
          SendLast(before, run, ErrorEvent(failure, run.messages, run.wireList));
        }
      }
    }

    // The step loop returns.
    ghost method Return(before: State, run: PromptRun)
      requires Wired() && Owns(run) && run.promptId in before.runs
      requires View() == Commit(before, run.promptId, run.View())
      modifies run`ended
      ensures run.View() == End(old(run.View()))
      ensures Wired() && View() == Commit(before, run.promptId, run.View())
    {
      run.ended := true;
      OneRunChanged(run);
      CommitAgain(before, run.promptId, old(run.View()), run.View());
    }

    // Stops the loop with `stopped`.
    method ReturnStopped(run: PromptRun)
      requires Wired() && Owns(run)
      modifies this, run
      ensures Wired() && Owns(run) && runs == old(runs) && actions == old(actions)
      ensures run.View() == End(PromptProtocol.EmitStopped(old(run.View())))
      ensures View() == Commit(old(View()), run.promptId, run.View())
    {
      ghost var before := View();
      EmitStopped(run);
      Return(before, run);
    }

    // The `catch` of `execute`, and that of a failed save.
    method ReturnFailed(run: PromptRun, failure: Failure)
      requires Wired() && Owns(run)
      modifies this, run
      ensures Wired() && Owns(run) && runs == old(runs) && actions == old(actions)
      ensures run.View() == End(PromptProtocol.Fail(old(run.View()), failure))
      ensures View() == Commit(old(View()), run.promptId, run.View())
    {
      ghost var before := View();
      Fail(run, failure);
      Return(before, run);
    }

    // The `while` test; when it holds, the next model call leaves.
    method LoopTop(run: PromptRun)
      modifies run`pc, run`ended, run`trace
      ensures run.View() == PromptProtocol.LoopTop(old(run.View()))
    {
      if IsAnswering(run.phase) {
        run.pc := Stepping;
        run.trace := run.trace + [Began(ModelCall(run.messages))];
      } else {
        run.ended := true;
      }
    }

    // ---- The step loop, segment by segment ----

    // `setImmediate` fires: the loop starts.
    method Begin(run: PromptRun)
      requires Wired() && Owns(run) && Enabled(run.View(), Segment.Begin)
      modifies this, run
      ensures Wired() && runs == old(runs) && actions == old(actions)
      ensures View() == Commit(old(View()), run.promptId, RunStep(old(run.View()), Segment.Begin))
    {
      if run.phase == Phase.Stopped {
        ReturnStopped(run);
      } else {
        FetchList(run);
        QuietCommit(run);
      }
    }

    // Emits `selecting` and asks the server for its lists.
    method FetchList(run: PromptRun)
      requires run.phase != Phase.Stopped
      modifies run`pc, run`trace
      ensures run.View() == BeginRun(old(run.View()))
    {
      run.pc := FetchingList;
      run.trace := run.trace + [Emitted(SelectingEvent), Began(ListCall)];
    }

    // `fetchList` returned.
    method ListReturned(run: PromptRun, list: ModelList)
      requires Wired() && Owns(run) && Enabled(run.View(), Segment.ListReturned(list))
      modifies this, run
      ensures Wired() && runs == old(runs) && actions == old(actions)
      ensures View() == Commit(old(View()), run.promptId, RunStep(old(run.View()), Segment.ListReturned(list)))
    {
      if run.phase == Phase.Stopped {
        ReturnStopped(run);
      } else {
        RecordList(run, list);
        QuietCommit(run);
      }
    }

    // Keeps the list and builds its catalog; a list with a repeated name makes the loop throw.
    method RecordList(run: PromptRun, list: ModelList)
      requires run.phase != Phase.Stopped
      modifies run
      ensures run.View() == TakeList(old(run.View()), list)
    {
      run.list := Some(list);
      run.wireList := Some(list);
      var accepted := OpenCatalog(list);
      if accepted {
        LoopTop(run);
      } else {
        run.pc := Throwing(DuplicateList, None);
      }
    }

    // Whether the list is accepted; the specification looks items up in the list's own catalog.
    method OpenCatalog(list: ModelList) returns (accepted: bool)
      ensures accepted <==> CatalogOf(list).Ok?
    {
      var catalog := BuildCatalog(list);
      accepted := catalog.Ok?;
    }

    // `gateway.step` returned a completion.
    method StepReturned(run: PromptRun, message: ProviderMessage, now: string)
      requires Wired() && Owns(run) && Enabled(run.View(), Segment.StepReturned(message, now))
      modifies this, run
      ensures Wired() && runs == old(runs) && actions == old(actions)
      ensures View() == Commit(old(View()), run.promptId, RunStep(old(run.View()), Segment.StepReturned(message, now)))
    {
      TakeMessage(run, message, now);
    }

    // Interprets the completion against the catalog of the run's list, then follows it.
    method TakeMessage(run: PromptRun, message: ProviderMessage, now: string)
      requires Wired() && Owns(run)
      modifies this, run
      ensures Wired() && runs == old(runs) && actions == old(actions)
      ensures View() == Commit(old(View()), run.promptId, TakeStep(old(run.View()), message, now))
    {
      var list := if run.list.Some? then run.list.value else ModelList([], [], []);
      match Interpret(message, LookupOf(Listings(list))) {
        case Err(reason) =>
          ReturnFailed(run, BadCompletion(reason));
        case Ok(step) =>
          if run.phase == Phase.Stopped {
            ReturnStopped(run);
          } else {
            FollowStep(run, step, now);
            QuietCommit(run);
          }
      }
    }

    // The loop after a step it can follow: a save, or an ask.
    method FollowStep(run: PromptRun, step: ModelStep, now: string)
      modifies run
      ensures run.View() == match step
        case Answered(content) =>
          Log(old(run.View()).(phase := Answering, pc := Saving(content, now)),
              [Began(SaveCall(run.conversationId, run.prompt, content, now))])
        case Selected(ask) =>
          Log(old(run.View()).(phase := AwaitingPermission, pending := Some(ask), pc := Asking(ask)),
              [Emitted(PermissionEvent(ask))])
    {
      match step {
        case Answered(content) => BeginSave(run, content, now);
        case Selected(ask) => AskUser(run, ask);
      }
    }

    // `ask`: emits `permission` and parks. There is no timer.
    method AskUser(run: PromptRun, ask: Ask)
      modifies run
      ensures run.View() == Log(old(run.View()).(phase := AwaitingPermission, pending := Some(ask), pc := Asking(ask)),
                                [Emitted(PermissionEvent(ask))])
    {
      run.phase := AwaitingPermission;
      run.trace := run.trace + [Emitted(PermissionEvent(ask))];
      run.pendingPermission := Some(ask);
      run.pc := Asking(ask);
    }

    // The part of `finishAnswer` up to the save.
    method BeginSave(run: PromptRun, content: string, now: string)
      modifies run
      ensures run.View() == Log(old(run.View()).(phase := Answering, pc := Saving(content, now)),
                                [Began(SaveCall(run.conversationId, run.prompt, content, now))])
    {
      run.phase := Answering;
      run.pc := Saving(content, now);
      run.trace := run.trace + [Began(SaveCall(run.conversationId, run.prompt, content, now))];
    }

    // The deferred permission resolved.
    method AskResumed(run: PromptRun, resolved: Option<string>)
      requires Wired() && Owns(run) && Enabled(run.View(), Segment.AskResumed(resolved))
      modifies this, run
      ensures Wired() && runs == old(runs) && actions == old(actions)
      ensures View() == Commit(old(View()), run.promptId, RunStep(old(run.View()), Segment.AskResumed(resolved)))
    {
      var Resumable(ask, decision) := run.pc;
      if decision == StopAsk || run.phase == Phase.Stopped {
        ReturnStopped(run);
      } else if decision == Decision.Refuse {
        RecordRefusal(run, ask);
        run.phase := Selecting;
        LoopTop(run);
        QuietCommit(run);
      } else {
        PerformCall(run, ask, resolved);
        QuietCommit(run);
      }
    }

    // Emits the refusal and appends it so the next step can see it.
    method RecordRefusal(run: PromptRun, ask: Ask)
      modifies run
      ensures run.View() == PromptProtocol.RecordRefusal(old(run.View()), ask)
    {
      run.pendingPermission := None;
      run.trace := run.trace + [Emitted(CallEvent(Refused, ask))];
      run.messages := run.messages + [Message(RoleOf(ask.item.kind), RefusalContent(ask.item.kind))];
      run.rounds := run.rounds + [Declined(ask)];
    }

    // The part of `performCall` up to the call.
    method PerformCall(run: PromptRun, ask: Ask, resolved: Option<string>)
      modifies run
      ensures run.View() == PromptProtocol.PerformCall(old(run.View()), ask, resolved)
    {
      run.phase := Calling;
      run.pendingPermission := None;
      run.trace := run.trace + [Emitted(CallEvent(Processing, ask))];
      var list := if run.list.Some? then run.list.value else ModelList([], [], []);
      match CallFor(list, ask, resolved) {
        case Ok(call) =>
          run.pc := Running(ask, call);
          run.trace := run.trace + [Began(call)];
        case Err(failure) =>
          run.pc := Throwing(failure, Some(ask));
      }
    }

    // The tool call or resource read returned.
    method CallReturned(run: PromptRun, reply: Reply)
      requires Wired() && Owns(run) && Enabled(run.View(), Segment.CallReturned(reply))
      modifies this, run
      ensures Wired() && runs == old(runs) && actions == old(actions)
      ensures View() == Commit(old(View()), run.promptId, RunStep(old(run.View()), Segment.CallReturned(reply)))
    {
      RecordReply(run, reply);
      QuietCommit(run);
    }

    // Emits the reply, appends it and records the item as used, unless the prompt was stopped meanwhile.
    method RecordReply(run: PromptRun, reply: Reply)
      requires run.pc.Running?
      modifies run
      ensures run.View() == TakeReply(old(run.View()), reply)
    {
      var Running(ask, call) := run.pc;
      if run.phase == Phase.Stopped {
        run.pc := Returned(ask, call);
        return;
      }
      run.trace := run.trace + [Emitted(CallEvent(ReplyStatus(reply), ask))];
      run.messages := run.messages + [Message(ReplyRole(reply), ReplyContent(reply))];
      if ask.item !in run.used {
        run.used := run.used + [ask.item];
      }
      run.rounds := run.rounds + [Ran(ask, call, reply)];
      run.pc := Recorded;
    }

    // `performCall` returned to the loop.
    method LoopResumed(run: PromptRun)
      requires Wired() && Owns(run) && Enabled(run.View(), Segment.LoopResumed)
      modifies this, run
      ensures Wired() && runs == old(runs) && actions == old(actions)
      ensures View() == Commit(old(View()), run.promptId, RunStep(old(run.View()), Segment.LoopResumed))
    {
      if run.phase == Phase.Stopped {
        ReturnStopped(run);
      } else {
        run.phase := Selecting;
        LoopTop(run);
        QuietCommit(run);
      }
    }

    // `appendTurn` returned: the part of `finishAnswer` after the save.
    method SaveReturned(run: PromptRun)
      requires Wired() && Owns(run) && Enabled(run.View(), Segment.SaveReturned)
      modifies this, run
      ensures Wired() && runs == old(runs) && actions == old(actions)
      ensures View() == Commit(old(View()), run.promptId, RunStep(old(run.View()), Segment.SaveReturned))
    {
      ghost var before := View();
      NoteSaved(run);
      ghost var saved := run.View();
      FinishSave(run);
      CommitThen(before, run.promptId, saved, run.View());
    }

    method NoteSaved(run: PromptRun)
      requires Wired() && Owns(run)
      modifies run`trace
      ensures run.View() == Log(old(run.View()), [Saved])
      ensures Wired() && View() == Commit(old(View()), run.promptId, run.View())
    {
      run.trace := run.trace + [Saved];
      QuietCommit(run);
    }

    // Claims `answered` and sends the answer, unless the prompt was stopped during the save.
    method FinishSave(run: PromptRun)
      requires Wired() && Owns(run) && run.pc.Saving?
      modifies this, run
      ensures Wired() && runs == old(runs) && actions == old(actions)
      ensures run.View() == AnswerSaved(old(run.View()))
      ensures View() == Commit(old(View()), run.promptId, run.View())
    {
      ghost var before := View();
      if run.phase == Phase.Stopped || run.wireList.None? {
        ReturnStopped(run);
      } else {
        var claimed := ClaimTerminal(run, HasAnswered);
        if claimed {
          SendAnswer(before, run);
        } else {
          CommitNothing(before, run.promptId);
          ReturnStopped(run);
        }
      }
    }

    // Emits `answering` and `answer` with the whole record.
    method SendAnswer(ghost before: State, run: PromptRun)
      requires Wired() && Owns(run) && run.promptId in before.runs && run.pc.Saving?
      requires View() == Commit(before, run.promptId, run.View())
      modifies run`terminalEventSent, run`trace, run`ended
      ensures run.View() == End(Log(old(run.View()).(terminalEventSent := true),
                                    [Emitted(AnsweringEvent),
                                     Emitted(AnswerEvent(run.pc.content, run.startedAt, run.pc.finishedAt,
                                                         DomainsOf(run.used), run.wireList, run.messages))]))
      ensures Wired() && View() == Commit(before, run.promptId, run.View())
    {
      var domains := ToDomains(run.used);
      run.terminalEventSent := true;
      run.trace := run.trace + [Emitted(AnsweringEvent),
                Emitted(AnswerEvent(run.pc.content, run.startedAt, run.pc.finishedAt, domains,
                                    run.wireList, run.messages))];
      run.ended := true;
      OneRunChanged(run);
      CommitAgain(before, run.promptId, old(run.View()), run.View());
    }

    // `appendTurn` threw.
    method SaveThrew(run: PromptRun, failure: Failure)
      requires Wired() && Owns(run) && Enabled(run.View(), Segment.SaveThrew(failure))
      modifies this, run
      ensures Wired() && runs == old(runs) && actions == old(actions)
      ensures View() == Commit(old(View()), run.promptId, RunStep(old(run.View()), Segment.SaveThrew(failure)))
    {
      ReturnFailed(run, failure);
    }

    // An awaited list, model, tool or resource call threw.
    method Threw(run: PromptRun, failure: Failure)
      requires Wired() && Owns(run) && Enabled(run.View(), Segment.Threw(failure))
      modifies this, run
      ensures Wired() && runs == old(runs) && actions == old(actions)
      ensures View() == Commit(old(View()), run.promptId, RunStep(old(run.View()), Segment.Threw(failure)))
    {
      ReturnFailed(run, failure);
    }

    // A throw of the loop itself reached the `catch` of `execute`.
    method Unwound(run: PromptRun)
      requires Wired() && Owns(run) && Enabled(run.View(), Segment.Unwound)
      modifies this, run
      ensures Wired() && runs == old(runs) && actions == old(actions)
      ensures View() == Commit(old(View()), run.promptId, RunStep(old(run.View()), Segment.Unwound))
    {
      ReturnFailed(run, run.pc.failure);
    }

    // What one more permit, refusal or stop makes of the state.
    lemma SettleTaken(actions: seq<Action>, promptId: string, userId: string, item: Selection, decision: Decision)
      requires decision != StopAsk
      ensures var s := Execute(finishedPromptLimit, actions);
        Execute(finishedPromptLimit, actions + [Action.Settle(promptId, userId, item, decision)])
        == if SettleOutcome(s, promptId, userId, item) == Accepted
           then Commit(s, promptId, SettleRun(s.runs[promptId], decision)) else s
    {
      ExecuteStep(finishedPromptLimit, actions, Action.Settle(promptId, userId, item, decision));
    }

    lemma AdvanceTaken(actions: seq<Action>, promptId: string, segment: Segment)
      requires var s := Execute(finishedPromptLimit, actions); promptId in s.runs && Enabled(s.runs[promptId], segment)
      ensures var s := Execute(finishedPromptLimit, actions);
        Execute(finishedPromptLimit, actions + [Action.Advance(promptId, segment)])
        == Commit(s, promptId, RunStep(s.runs[promptId], segment))
    {
      ExecuteStep(finishedPromptLimit, actions, Action.Advance(promptId, segment));
    }

    lemma StopNext(s: State, promptId: string, userId: string)
      ensures Next(s, Action.Stop(promptId, userId))
        == if StopOutcome(s, promptId, userId) == Accepted then Commit(s, promptId, StopRun(s.runs[promptId])) else s
    {
    }

    lemma StopTaken(actions: seq<Action>, promptId: string, userId: string)
      ensures var s := Execute(finishedPromptLimit, actions);
        Execute(finishedPromptLimit, actions + [Action.Stop(promptId, userId)])
        == if StopOutcome(s, promptId, userId) == Accepted then Commit(s, promptId, StopRun(s.runs[promptId])) else s
    {
      ExecuteStep(finishedPromptLimit, actions, Action.Stop(promptId, userId));
      StopNext(Execute(finishedPromptLimit, actions), promptId, userId);
    }

    // ---- The event loop ----

    // The action just taken joins the record of actions.
    ghost method Took(action: Action)
      requires Wired() && View() == Execute(finishedPromptLimit, actions + [action])
      modifies this`actions
      ensures Valid() && View() == old(View()) && actions == old(actions) + [action]
    {
      actions := actions + [action];
    }

    // Runs the continuation that is due for one prompt.
    method Advance(run: PromptRun, segment: Segment)
      requires Valid() && Owns(run) && Enabled(run.View(), segment)
      modifies this, run
      ensures Valid() && runs == old(runs)
      ensures actions == old(actions) + [Action.Advance(run.promptId, segment)]
    {
      Dispatch(run, segment);
      AdvanceTaken(actions, run.promptId, segment);
      Took(Action.Advance(run.promptId, segment));
    }

    method Dispatch(run: PromptRun, segment: Segment)
      requires Wired() && Owns(run) && Enabled(run.View(), segment)
      modifies this, run
      ensures Wired() && runs == old(runs) && actions == old(actions)
      ensures View() == Commit(old(View()), run.promptId, RunStep(old(run.View()), segment))
    {
      match segment
      case Begin => Begin(run);
      case ListReturned(list) => ListReturned(run, list);
      case StepReturned(message, now) => StepReturned(run, message, now);
      case AskResumed(resolved) => AskResumed(run, resolved);
      case CallReturned(reply) => CallReturned(run, reply);
      case LoopResumed => LoopResumed(run);
      case SaveReturned => SaveReturned(run);
      case SaveThrew(failure) => SaveThrew(run, failure);
      case Threw(failure) => Threw(run, failure);
      case Unwound => Unwound(run);
    }

    // ---- The HTTP calls ----

    // The part of `start` after the conversation is loaded. `promptId` is fresh.
    method Start(input: StartInput, turns: seq<Turn>, promptId: string, startedAt: string)
      returns (r: Result<PromptRun, StartError>)
      requires Valid() && promptId != "" && promptId !in runs
      modifies this
      ensures Valid() && actions == old(actions) + [Action.Start(input, turns, promptId, startedAt)]
      ensures match StartResult(old(View()), input, turns)
        case Err(error) => r == Err(error) && runs == old(runs)
        case Ok(_) => r.Ok? && fresh(r.value) && runs == old(runs)[promptId := r.value]
    {
      r := TryStart(input, turns, promptId, startedAt);
      ExecuteStep(finishedPromptLimit, actions, Action.Start(input, turns, promptId, startedAt));
      Took(Action.Start(input, turns, promptId, startedAt));
    }

    method TryStart(input: StartInput, turns: seq<Turn>, promptId: string, startedAt: string)
      returns (r: Result<PromptRun, StartError>)
      requires Wired() && promptId != "" && promptId !in runs
      modifies this
      ensures Wired() && actions == old(actions)
      ensures View() == Next(old(View()), Action.Start(input, turns, promptId, startedAt))
      ensures match StartResult(old(View()), input, turns)
        case Err(error) => r == Err(error) && runs == old(runs)
        case Ok(_) => r.Ok? && fresh(r.value) && runs == old(runs)[promptId := r.value]
    {
      var selected := SelectTurns(turns, input.turnIds);
      if selected.Err? {
        return Err(BadTurns);
      }
      if input.conversationId in activePromptByConversation {
        return Err(Busy);
      }
      var run := Accept(input, selected.value, promptId, startedAt);
      return Ok(run);
    }

    // Builds the record of an accepted prompt and reserves its conversation.
    method Accept(input: StartInput, selected: seq<Turn>, promptId: string, startedAt: string) returns (run: PromptRun)
      requires Wired() && promptId !in runs
      modifies this
      ensures Wired() && actions == old(actions) && fresh(run) && runs == old(runs)[promptId := run]
      ensures View() == Reserve(old(View()), promptId, NewRun(input, selected, startedAt))
    {
      run := MakeRun(input, selected, promptId, startedAt);
      AddRun(run);
    }

    method MakeRun(input: StartInput, selected: seq<Turn>, promptId: string, startedAt: string) returns (run: PromptRun)
      ensures fresh(run) && run.promptId == promptId && run.View() == NewRun(input, selected, startedAt)
    {
      var messages := SeedMessages(selected, input.prompt);
      run := new PromptRun(promptId, input, startedAt, messages);
    }

    // Reserves the conversation for a new run.
    method AddRun(run: PromptRun)
      requires Wired() && run.promptId !in runs
      modifies this
      ensures Wired() && runs == old(runs)[run.promptId := run] && actions == old(actions)
      ensures View() == Reserve(old(View()), run.promptId, run.View())
    {
      activeOrder := activeOrder + [run.promptId];
      activePrompts := activePrompts[run.promptId := run];
      activePromptByConversation := activePromptByConversation[run.conversationId := run.promptId];
      runs := runs[run.promptId := run];
      OneRunAdded(run);
    }

    // The asks that a stream opened now is sent again.
    method GetOpenPermissionsForUser(userId: string) returns (asks: seq<(string, Ask)>)
      requires Wired()
      ensures asks == OpenAsks(View(), userId)
    {
      asks := [];
      for i := 0 to |activeOrder|
        invariant asks == AsksAmong(RunViews(), activeOrder[..i], userId)
      {
        var id := activeOrder[i];
        assert id in activeOrder;
        var run := activePrompts[id];
        assert RunViews()[id] == run.View();
        AsksStep(RunViews(), activeOrder[..i], id, userId);
        assert activeOrder[..i + 1] == activeOrder[..i] + [id];
        if run.userId == userId && run.pendingPermission.Some? {
          asks := asks + [(id, run.pendingPermission.value)];
        }
      }
      assert activeOrder[..|activeOrder|] == activeOrder;
    }

    // The answer for a prompt that is not active.
    method Absent(promptId: string, userId: string) returns (outcome: Outcome)
      ensures outcome == if FinishedOwner(finishedPrompts, promptId) == Some(userId) then Rejected else NotFound
    {
      var owner := FinishedOwner(finishedPrompts, promptId);
      if owner.None? || owner.value != userId {
        return NotFound;
      }
      return Rejected;
    }

    method Permit(promptId: string, userId: string, item: Selection) returns (outcome: Outcome)
      requires Valid()
      modifies this, activePrompts.Values
      ensures Valid() && runs == old(runs)
      ensures actions == old(actions) + [Action.Settle(promptId, userId, item, Decision.Permit)]
      ensures outcome == SettleOutcome(old(View()), promptId, userId, item)
    {
      outcome := Settle(promptId, userId, item, Decision.Permit);
      SettleTaken(actions, promptId, userId, item, Decision.Permit);
      Took(Action.Settle(promptId, userId, item, Decision.Permit));
    }

    method Refuse(promptId: string, userId: string, item: Selection) returns (outcome: Outcome)
      requires Valid()
      modifies this, activePrompts.Values
      ensures Valid() && runs == old(runs)
      ensures actions == old(actions) + [Action.Settle(promptId, userId, item, Decision.Refuse)]
      ensures outcome == SettleOutcome(old(View()), promptId, userId, item)
    {
      outcome := Settle(promptId, userId, item, Decision.Refuse);
      SettleTaken(actions, promptId, userId, item, Decision.Refuse);
      Took(Action.Settle(promptId, userId, item, Decision.Refuse));
    }

    // Resolves the open ask when the body matches it.
    method Settle(promptId: string, userId: string, item: Selection, decision: Decision) returns (outcome: Outcome)
      requires Wired() && decision != StopAsk
      modifies activePrompts.Values
      ensures Wired() && outcome == SettleOutcome(old(View()), promptId, userId, item)
      ensures View() == if outcome == Accepted
        then Commit(old(View()), promptId, SettleRun(old(View()).runs[promptId], decision)) else old(View())
    {
      if promptId !in activePrompts {
        outcome := Absent(promptId, userId);
        return;
      }
      var run := activePrompts[promptId];
      assert run in activePrompts.Values;
      if run.userId != userId {
        return NotFound;
      }
      if run.pendingPermission.None? || run.pendingPermission.value.item != item {
        return Rejected;
      }
      ResolveAsk(run, decision);
      return Accepted;
    }

    method ResolveAsk(run: PromptRun, decision: Decision)
      requires Wired() && Owns(run) && run.pendingPermission.Some? && decision != StopAsk
      modifies run
      ensures Wired() && View() == Commit(old(View()), run.promptId, SettleRun(old(run.View()), decision))
    {
      Decide(run, decision);
      QuietCommit(run);
    }

    // Clears the open ask and resolves its deferred.
    method Decide(run: PromptRun, decision: Decision)
      requires run.pendingPermission.Some? && decision != StopAsk
      modifies run
      ensures run.View() == SettleRun(old(run.View()), decision)
    {
      var ask := run.pendingPermission.value;
      if decision == Decision.Permit {
        run.phase := Calling;
      }
      run.pendingPermission := None;
      run.pc := Resumable(ask, decision);
      run.trace := run.trace + [Settled(decision, ask.item)];
    }

    // `stop`. The loop emits `stopped` later.
    method Stop(promptId: string, userId: string) returns (outcome: Outcome)
      requires Valid()
      modifies this, activePrompts.Values
      ensures Valid() && runs == old(runs)
      ensures actions == old(actions) + [Action.Stop(promptId, userId)]
      ensures outcome == StopOutcome(old(View()), promptId, userId)
    {
      outcome := TryStop(promptId, userId);
      StopTaken(actions, promptId, userId);
      Took(Action.Stop(promptId, userId));
    }

    method TryStop(promptId: string, userId: string) returns (outcome: Outcome)
      requires Wired()
      modifies this, activePrompts.Values
      ensures Wired() && runs == old(runs) && actions == old(actions)
      ensures outcome == StopOutcome(old(View()), promptId, userId)
      ensures View() == if outcome == Accepted
        then Commit(old(View()), promptId, StopRun(old(View()).runs[promptId])) else old(View())
    {
      if promptId !in activePrompts {
        outcome := Absent(promptId, userId);
        return;
      }
      var run := activePrompts[promptId];
      assert run in activePrompts.Values;
      if run.userId != userId {
        return NotFound;
      }
      StopNow(run);
      return Accepted;
    }

    // Claims the terminal phase, aborts, and resolves an open ask.
    method StopNow(run: PromptRun)
      requires Wired() && Owns(run)
      modifies this, run
      ensures Wired() && runs == old(runs) && actions == old(actions)
      ensures View() == Commit(old(View()), run.promptId, StopRun(old(run.View())))
    {
      ghost var before := View();
      var pending := run.pendingPermission;
      var claimed := ClaimTerminal(run, Phase.Stopped);
      Abort(before, run, pending);
    }

    method Abort(ghost before: State, run: PromptRun, pending: Option<Ask>)
      requires Wired() && Owns(run) && run.promptId in before.runs
      requires View() == Commit(before, run.promptId, run.View())
      modifies run`aborted, run`stopAccepted, run`pc, run`trace
      ensures run.View() == Log(old(run.View()).(aborted := true, stopAccepted := true,
                                                 pc := if pending.Some? then Resumable(pending.value, StopAsk)
                                                       else old(run.pc)),
                                [StopAccepted])
      ensures Wired() && View() == Commit(before, run.promptId, run.View())
    {
      run.aborted := true;
      run.stopAccepted := true;
      if pending.Some? {
        run.pc := Resumable(pending.value, StopAsk);
      }
      run.trace := run.trace + [StopAccepted];
      OneRunChanged(run);
      CommitAgain(before, run.promptId, old(run.View()), run.View());
    }
  }
}
