// Where everything in a prompt's history comes from: what each delivery to the loop puts there, in terms of the
// delivery and the list as it was fetched, and the delivery or call behind each entry.
module PromptOrigins {
  import opened Wrappers
  import opened Seqs
  import opened UriTemplate
  import opened Catalog
  import opened Gateway
  import opened PromptRecord
  import opened PromptProtocol
  import opened PromptInvariant
  import opened PromptReservations
  import opened PromptServed
  import opened PromptTraces
  import opened PromptTheorems

  // ---- What a delivery adds ----

  predicate IsStopped(run: Run) {
    run.phase == PromptProtocol.Phase.Stopped
  }

  function ErrorMark(run: Run, failure: Failure): Obs {
    Emitted(ErrorEvent(failure, run.messages, run.wireList))
  }

  // What a failure adds: an abort and a stopped prompt report `stopped`, anything else `error`.
  predicate AddsFailure(run: Run, failure: Failure, added: seq<Obs>) {
    var isAbort := failure.External? && failure.isAbort;
    added == [if IsStopped(run) || isAbort then StoppedMark(run) else ErrorMark(run, failure)]
  }

  // What one step of the model adds to a prompt that nobody has stopped.
  predicate AddsStep(run: Run, step: Result<ModelStep, ProviderFailure>, now: string, added: seq<Obs>) {
    match step
    case Err(reason) => added == [ErrorMark(run, BadCompletion(reason))]
    case Ok(Answered(content)) => added == [Began(SaveCall(run.conversationId, run.prompt, content, now))]
    case Ok(Selected(ask)) => added == [Emitted(PermissionEvent(ask))]
  }

  ghost predicate DeliversStep(run: Run, message: ProviderMessage, now: string, added: seq<Obs>) {
    if IsStopped(run) then added == [StoppedMark(run)]
    else
      && run.list.Some? && CatalogOf(run.list.value).Ok?
      && exists step :: Means(message, run.list.value, step) && AddsStep(run, step, now, added)
  }

  // What the loop adds once the user has settled an ask.
  ghost predicate DeliversAsk(run: Run, ask: Ask, decision: Decision, resolved: Option<string>, added: seq<Obs>) {
    if IsStopped(run) then added == [StoppedMark(run)]
    else if decision == Refuse then
      added == [Emitted(CallEvent(Refused, ask)), Began(ModelCall(run.messages + [RefusalMessage(ask)]))]
    else
      && decision == Permit && run.list.Some?
      && exists i, call :: ItemCall(run.list.value, ask, resolved, i, call) && added == CallMarks(ask, call)
  }

  function RefusalMessage(ask: Ask): Message {
    if ask.item.kind == Tool then Message(ToolRole, "The user refused this tool.")
    else Message(ResourceRole, "The user refused this resource.")
  }

  // The call for an ask of item `i`. A resource with a URI of its own is read there, if the client knows it.
  ghost predicate ItemCall(list: ModelList, ask: Ask, resolved: Option<string>, i: nat, call: Option<Call>) {
    var templates := |list.tools| + |list.resources|;
    && AsksItem(list, ask, i)
    && if i < |list.tools| then call == Some(ToolCall(list.tools[i].name, ask.arguments))
       else if i < templates then call == if resolved.Some? then Some(ReadCall(resolved.value)) else None
       else
         call.Some? && call.value.ReadCall?
         && ExpandUriTemplate(list.templates[i - templates].uriTemplate, ask.arguments) == Ok(call.value.uri)
  }

  function CallMarks(ask: Ask, call: Option<Call>): seq<Obs> {
    [Emitted(CallEvent(Processing, ask))] + if call.Some? then [Began(call.value)] else []
  }

  // An error that a tool reports shows as `failed`, any other reply as itself.
  function ReplyEvent(reply: Reply, ask: Ask): Event {
    match reply
    case ToolReply(isError, _, _) => CallEvent(if isError then Failed else Succeeded(reply), ask)
    case ResourceReply(_, _) => CallEvent(Succeeded(reply), ask)
  }

  function AnswerOf(run: Run): Event
    requires run.pc.Saving?
  {
    AnswerEvent(run.pc.content, run.startedAt, run.pc.finishedAt, DomainsOf(run.used), run.list, run.messages)
  }

  // What a delivery adds to the history, all of it and in order.
  ghost predicate Delivers(run: Run, segment: Segment, added: seq<Obs>)
    requires Enabled(run, segment)
  {
    match segment
    case Begin =>
      added == if IsStopped(run) then [StoppedMark(run)] else [Emitted(SelectingEvent), Began(ListCall)]
    case ListReturned(list) =>
      added == if IsStopped(run) then [StoppedMark(run)]
               else if CatalogOf(list).Ok? then [Began(ModelCall(run.messages))] else []
    case StepReturned(message, now) => DeliversStep(run, message, now, added)
    case AskResumed(resolved) => DeliversAsk(run, run.pc.ask, run.pc.decision, resolved, added)
    case CallReturned(reply) => added == if IsStopped(run) then [] else [Emitted(ReplyEvent(reply, run.pc.ask))]
    case LoopResumed => added == if IsStopped(run) then [StoppedMark(run)] else [Began(ModelCall(run.messages))]
    case SaveReturned =>
      added == [Saved] + if IsStopped(run) then [StoppedMark(run)]
                         else [Emitted(AnsweringEvent), Emitted(AnswerOf(run))]
    case SaveThrew(failure) => AddsFailure(run, failure, added)
    case Threw(failure) => AddsFailure(run, failure, added)
    case Unwound => AddsFailure(run, run.pc.failure, added)
  }

  // The history that a step adds.
  function Growth(run: Run, next: Run): seq<Obs> {
    if run.trace <= next.trace then next.trace[|run.trace|..] else []
  }

  lemma LogGrows(run: Run, claimed: Run, obs: seq<Obs>)
    requires claimed.trace == run.trace
    ensures run.trace <= Log(claimed, obs).trace && Growth(run, Log(claimed, obs)) == obs
  {
  }

  lemma StoppingAdds(run: Run)
    requires RunInv(run) && !run.ended
    ensures Growth(run, End(EmitStopped(run))) == [StoppedMark(run)]
  {
    var claimed := if IsStopped(run) then run else Claim(run, PromptProtocol.Phase.Stopped);
    LogGrows(run, claimed.(terminalEventSent := true), [StoppedMark(run)]);
  }

  lemma FailingAdds(run: Run, failure: Failure)
    requires RunInv(run) && !run.ended
    ensures AddsFailure(run, failure, Growth(run, End(Fail(run, failure))))
  {
    if IsStopped(run) || IsAbort(failure) {
      StoppingAdds(run);
    } else {
      LogGrows(run, Claim(run, HasFailed).(terminalEventSent := true), [ErrorMark(run, failure)]);
    }
  }

  lemma BeginningAdds(run: Run)
    requires RunInv(run) && Enabled(run, Begin)
    ensures Delivers(run, Begin, Growth(run, BeginRun(run)))
  {
    if IsStopped(run) {
      StoppingAdds(run);
    } else {
      LogGrows(run, run.(pc := FetchingList), [Emitted(SelectingEvent), Began(ListCall)]);
    }
  }

  lemma ListAdds(run: Run, list: ModelList)
    requires RunInv(run) && Enabled(run, ListReturned(list))
    ensures Delivers(run, ListReturned(list), Growth(run, TakeList(run, list)))
  {
    if IsStopped(run) {
      StoppingAdds(run);
    } else if CatalogOf(list).Ok? {
      LogGrows(run, run.(list := Some(list), wireList := Some(list), pc := Stepping), [Began(ModelCall(run.messages))]);
    }
  }

  lemma StepAdds(run: Run, message: ProviderMessage, now: string)
    requires RunInv(run) && Enabled(run, StepReturned(message, now))
    ensures Delivers(run, StepReturned(message, now), Growth(run, TakeStep(run, message, now)))
  {
    var list := run.list.value;
    var step := Step(message, list);
    StepTakesTheMeaning(message, list);
    assert Interpret(message, LookupOf(Listings(ListOf(run)))) == step;
    match step {
      case Err(reason) => FailingAdds(run, BadCompletion(reason));
      case Ok(taken) =>
        if IsStopped(run) {
          StoppingAdds(run);
        } else {
          TakenStepAdds(run, taken, now);
        }
    }
    assert !IsStopped(run) ==> AddsStep(run, step, now, Growth(run, TakeStep(run, message, now)));
  }

  lemma TakenStepAdds(run: Run, step: ModelStep, now: string)
    ensures match step
      case Answered(content) =>
        var save := [Began(SaveCall(run.conversationId, run.prompt, content, now))];
        Growth(run, Log(run.(phase := Answering, pc := Saving(content, now)), save)) == save
      case Selected(ask) =>
        var permission := [Emitted(PermissionEvent(ask))];
        Growth(run, Log(run.(phase := AwaitingPermission, pending := Some(ask), pc := Asking(ask)), permission))
        == permission
  {
  }

  lemma RefusingAdds(run: Run, ask: Ask)
    requires IsAnswering(run.phase)
    ensures Growth(run, LoopTop(RecordRefusal(run, ask).(phase := Selecting)))
         == [Emitted(CallEvent(Refused, ask)), Began(ModelCall(run.messages + [RefusalMessage(ask)]))]
  {
    var refused := RecordRefusal(run, ask).(phase := Selecting);
    LogGrows(refused, refused.(pc := Stepping), [Began(ModelCall(refused.messages))]);
  }

  function Outgoing(call: Result<Call, Failure>): Option<Call> {
    if call.Ok? then Some(call.value) else None
  }

  lemma PerformingAdds(run: Run, ask: Ask, resolved: Option<string>)
    ensures Growth(run, PerformCall(run, ask, resolved)) == CallMarks(ask, Outgoing(CallFor(ListOf(run), ask, resolved)))
  {
    PerformCallCases(run, ask, resolved);
  }

  lemma ToolGoesOut(list: ModelList, ask: Ask, resolved: Option<string>, i: nat)
    requires AsksItem(list, ask, i) && i < |list.tools|
    ensures ItemCall(list, ask, resolved, i, Outgoing(CallFor(list, ask, resolved)))
  {
  }

  lemma ResourceGoesOut(list: ModelList, ask: Ask, resolved: Option<string>, i: nat)
    requires CatalogOf(list).Ok? && AsksItem(list, ask, i) && |list.tools| <= i < |list.tools| + |list.resources|
    ensures ItemCall(list, ask, resolved, i, Outgoing(CallFor(list, ask, resolved)))
  {
    TemplateBranch(list, ask, i);
  }

  lemma TemplateGoesOut(list: ModelList, ask: Ask, resolved: Option<string>, i: nat)
    requires CatalogOf(list).Ok? && AsksItem(list, ask, i) && i >= |list.tools| + |list.resources|
    ensures ItemCall(list, ask, resolved, i, Outgoing(CallFor(list, ask, resolved)))
  {
    TemplateBranch(list, ask, i);
    TemplateFound(list, ask, i);
  }

  // What goes out is the call for the item that was asked for.
  lemma ItemGoesOut(list: ModelList, ask: Ask, resolved: Option<string>, i: nat)
    requires CatalogOf(list).Ok? && AsksItem(list, ask, i)
    ensures ItemCall(list, ask, resolved, i, Outgoing(CallFor(list, ask, resolved)))
  {
    if i < |list.tools| {
      ToolGoesOut(list, ask, resolved, i);
    } else if i < |list.tools| + |list.resources| {
      ResourceGoesOut(list, ask, resolved, i);
    } else {
      TemplateGoesOut(list, ask, resolved, i);
    }
  }

  lemma CallingAdds(run: Run, ask: Ask, resolved: Option<string>)
    requires run.list.Some? && CatalogOf(run.list.value).Ok? && AskListed(run.list.value, ask)
    ensures exists i, call :: ItemCall(run.list.value, ask, resolved, i, call)
                              && Growth(run, PerformCall(run, ask, resolved)) == CallMarks(ask, call)
  {
    var i: nat :| AsksItem(run.list.value, ask, i);
    PerformingAdds(run, ask, resolved);
    ItemGoesOut(run.list.value, ask, resolved, i);
  }

  lemma AskAdds(run: Run, resolved: Option<string>)
    requires RunInv(run) && ServedInv(run) && Enabled(run, AskResumed(resolved))
    ensures Delivers(run, AskResumed(resolved), Growth(run, ResumeAsk(run, resolved)))
  {
    if run.pc.decision == StopAsk || IsStopped(run) {
      StoppingAdds(run);
    } else if run.pc.decision == Refuse {
      RefusingAdds(run, run.pc.ask);
    } else {
      CallingAdds(run, run.pc.ask, resolved);
    }
  }

  lemma ReplyAdds(run: Run, reply: Reply)
    requires RunInv(run) && Enabled(run, CallReturned(reply))
    ensures Delivers(run, CallReturned(reply), Growth(run, TakeReply(run, reply)))
  {
  }

  lemma LoopAdds(run: Run)
    requires RunInv(run) && Enabled(run, LoopResumed)
    ensures Delivers(run, LoopResumed, Growth(run, ResumeLoop(run)))
  {
    if IsStopped(run) {
      StoppingAdds(run);
    } else {
      LogGrows(run, run.(phase := Selecting, pc := Stepping), [Began(ModelCall(run.messages))]);
    }
  }

  lemma SavedThenStopped(run: Run)
    requires RunInv(run) && Enabled(run, SaveReturned) && IsStopped(run)
    ensures Growth(run, TakeSave(run)) == [Saved, StoppedMark(run)]
  {
    var saved := Log(run, [Saved]);
    LogGrows(saved, saved.(terminalEventSent := true), [StoppedMark(run)]);
  }

  lemma SavedThenAnswered(run: Run)
    requires RunInv(run) && Enabled(run, SaveReturned) && !IsStopped(run)
    ensures Growth(run, TakeSave(run)) == [Saved] + [Emitted(AnsweringEvent), Emitted(AnswerOf(run))]
  {
    var saved := Log(run, [Saved]);
    var claimed := Claim(saved, HasAnswered).(terminalEventSent := true);
    AppendTwice(run.trace, [Saved], [Emitted(AnsweringEvent), Emitted(AnswerOf(run))]);
    assert TakeSave(run) == End(Log(claimed, [Emitted(AnsweringEvent), Emitted(AnswerOf(run))]));
  }

  lemma AppendTwice(trace: seq<Obs>, a: seq<Obs>, b: seq<Obs>)
    ensures trace <= trace + a + b && (trace + a + b)[|trace|..] == a + b
  {
  }

  lemma SaveAdds(run: Run)
    requires RunInv(run) && Enabled(run, SaveReturned)
    ensures Delivers(run, SaveReturned, Growth(run, TakeSave(run)))
  {
    if IsStopped(run) {
      SavedThenStopped(run);
    } else {
      SavedThenAnswered(run);
    }
  }

  lemma SegmentDelivers(run: Run, segment: Segment)
    requires RunInv(run) && ServedInv(run) && Enabled(run, segment)
    ensures Delivers(run, segment, Growth(run, RunStep(run, segment)))
  {
    match segment
    case Begin => BeginningAdds(run);
    case ListReturned(list) => ListAdds(run, list);
    case StepReturned(message, now) => StepAdds(run, message, now);
    case AskResumed(resolved) => AskAdds(run, resolved);
    case CallReturned(reply) => ReplyAdds(run, reply);
    case LoopResumed => LoopAdds(run);
    case SaveReturned => SaveAdds(run);
    case SaveThrew(failure) => FailingAdds(run, failure);
    case Threw(failure) => FailingAdds(run, failure);
    case Unwound => FailingAdds(run, run.pc.failure);
  }

  // ---- What else a delivery leaves ----

  // The list is the one that was delivered.
  predicate ListFollows(run: Run, segment: Segment, next: Run) {
    next.list == if segment.ListReturned? && !IsStopped(run) then Some(segment.list) else run.list
  }

  // The finished rounds grow by the refused ask, or by the call with the reply that was delivered.
  predicate RoundsFollow(run: Run, segment: Segment, next: Run)
    requires Enabled(run, segment)
  {
    match segment
    case CallReturned(reply) =>
      next.rounds == if IsStopped(run) then run.rounds else run.rounds + [Ran(run.pc.ask, run.pc.call, reply)]
    case AskResumed(_) =>
      next.rounds
      == if !IsStopped(run) && run.pc.decision == Refuse then run.rounds + [Declined(run.pc.ask)] else run.rounds
    case _ => next.rounds == run.rounds
  }

  lemma EndingLeaves(run: Run, failure: Failure)
    ensures EmitStopped(run).list == run.list && EmitStopped(run).rounds == run.rounds
    ensures Fail(run, failure).list == run.list && Fail(run, failure).rounds == run.rounds
  {
  }

  lemma AskLeaves(run: Run, resolved: Option<string>)
    requires RunInv(run) && Enabled(run, AskResumed(resolved))
    ensures ListFollows(run, AskResumed(resolved), ResumeAsk(run, resolved))
    ensures RoundsFollow(run, AskResumed(resolved), ResumeAsk(run, resolved))
  {
    EndingLeaves(run, UnknownResource);
    PerformCallCases(run, run.pc.ask, resolved);
  }

  lemma StepLeaves(run: Run, message: ProviderMessage, now: string, next: Run)
    requires next == TakeStep(run, message, now)
    ensures next.list == run.list && next.rounds == run.rounds
  {
    EndingLeaves(run, UnknownResource);
    match Interpret(message, LookupOf(Listings(ListOf(run))))
    case Err(reason) => EndingLeaves(run, BadCompletion(reason));
    case Ok(step) => TakenStepLeaves(run, step, now);
  }

  lemma TakenStepLeaves(run: Run, step: ModelStep, now: string)
    ensures match step
      case Answered(content) =>
        var next := Log(run.(phase := Answering, pc := Saving(content, now)),
                        [Began(SaveCall(run.conversationId, run.prompt, content, now))]);
        next.list == run.list && next.rounds == run.rounds
      case Selected(ask) =>
        var next := Log(run.(phase := AwaitingPermission, pending := Some(ask), pc := Asking(ask)),
                        [Emitted(PermissionEvent(ask))]);
        next.list == run.list && next.rounds == run.rounds
  {
  }

  lemma ListLeaves(run: Run, list: ModelList)
    requires RunInv(run) && Enabled(run, ListReturned(list))
    ensures ListFollows(run, ListReturned(list), TakeList(run, list)) && TakeList(run, list).rounds == run.rounds
  {
    EndingLeaves(run, UnknownResource);
  }

  lemma SaveLeaves(run: Run)
    requires run.pc.Saving?
    ensures TakeSave(run).list == run.list && TakeSave(run).rounds == run.rounds
  {
    EndingLeaves(Log(run, [Saved]), UnknownResource);
  }

  lemma SegmentLeaves(run: Run, segment: Segment)
    requires RunInv(run) && Enabled(run, segment)
    ensures ListFollows(run, segment, RunStep(run, segment)) && RoundsFollow(run, segment, RunStep(run, segment))
  {
    EndingLeaves(run, UnknownResource);
    match segment
    case Begin =>
    case ListReturned(list) => ListLeaves(run, list);
    case StepReturned(message, now) => StepLeaves(run, message, now, TakeStep(run, message, now));
    case AskResumed(resolved) => AskLeaves(run, resolved);
    case CallReturned(reply) =>
    case LoopResumed =>
    case SaveReturned => SaveLeaves(run);
    case SaveThrew(failure) => EndingLeaves(run, failure);
    case Threw(failure) => EndingLeaves(run, failure);
    case Unwound => EndingLeaves(run, run.pc.failure);
  }

  // ---- Over all interleavings ----

  // The run's next record is what the delivery makes of it.
  ghost predicate TakesEffect(run: Run, segment: Segment, next: Run)
    requires Enabled(run, segment)
  {
    && run.trace <= next.trace && Delivers(run, segment, Growth(run, next))
    && ListFollows(run, segment, next) && RoundsFollow(run, segment, next) && SameOrigin(run, next)
  }

  lemma SegmentTakesEffect(run: Run, segment: Segment)
    requires RunInv(run) && ServedInv(run) && Enabled(run, segment)
    ensures TakesEffect(run, segment, RunStep(run, segment))
  {
    SegmentDelivers(run, segment);
    SegmentLeaves(run, segment);
    SegmentSettlesNothing(run, segment);
  }

  // In every interleaving, whatever is delivered to a prompt's loop adds to its history exactly what it stands for.
  lemma DeliveriesTakeEffect(limit: int, actions: seq<Action>, id: string, segment: Segment)
    requires id in Execute(limit, actions).runs && Enabled(Execute(limit, actions).runs[id], segment)
    ensures id in Execute(limit, actions + [Advance(id, segment)]).runs
    ensures TakesEffect(Execute(limit, actions).runs[id], segment,
                        Execute(limit, actions + [Advance(id, segment)]).runs[id])
  {
    ReachableInv(limit, actions);
    ReachableServed(limit, actions);
    ExecuteStep(limit, actions, Advance(id, segment));
    AdvanceTakesEffect(Execute(limit, actions), id, segment);
  }

  lemma AdvanceTakesEffect(s: State, id: string, segment: Segment)
    requires Inv(s) && AllServed(s) && id in s.runs && Enabled(s.runs[id], segment)
    ensures id in Next(s, Advance(id, segment)).runs
    ensures TakesEffect(s.runs[id], segment, Next(s, Advance(id, segment)).runs[id])
  {
    NextCommits(s, Advance(id, segment));
    CommitTouchesOneRun(s, id, RunStep(s.runs[id], segment));
    SegmentTakesEffect(s.runs[id], segment);
  }

  // ---- The call or delivery behind each entry ----

  // An action added entry `i` to the run's history: the accepted call of the prompt's own user that the entry stands
  // for, or a delivery that takes effect.
  ghost predicate AddedBy(s: State, action: Action, id: string, next: Run, i: nat)
    requires id in s.runs && i < |next.trace|
  {
    var run, entry := s.runs[id], next.trace[i];
    && run.trace <= next.trace && |run.trace| <= i
    && if IsUsers(entry) then IsUsersCall(s, action, id, run.userId, entry)
       else
         && action.Advance? && action.promptId == id && Enabled(run, action.segment)
         && TakesEffect(run, action.segment, next)
  }

  lemma UserAdds(s: State, action: Action, i: nat)
    requires (action.Settle? || action.Stop?) && action.promptId in s.runs && Changed(s, action).Some?
    requires |s.runs[action.promptId].trace| <= i < |Changed(s, action).value.trace|
    ensures AddedBy(s, action, action.promptId, Changed(s, action).value, i)
  {
  }

  lemma AdvanceAdds(s: State, action: Action, i: nat)
    requires Inv(s) && AllServed(s) && action.Advance? && action.promptId in s.runs && Changed(s, action).Some?
    requires |s.runs[action.promptId].trace| <= i < |Changed(s, action).value.trace|
    ensures AddedBy(s, action, action.promptId, Changed(s, action).value, i)
  {
    SegmentTakesEffect(s.runs[action.promptId], action.segment);
    SegmentSettlesNothing(s.runs[action.promptId], action.segment);
  }

  lemma NewEntryIsAdded(s: State, action: Action, id: string, i: nat)
    requires Inv(s) && AllServed(s) && id in Next(s, action).runs && i < |Next(s, action).runs[id].trace|
    ensures id in s.runs
    ensures var run, next := s.runs[id], Next(s, action).runs[id];
      if i < |run.trace| then run.trace[i] == next.trace[i] else AddedBy(s, action, id, next, i)
  {
    if id !in s.runs {
      NewRunsAreBlank(s, action, id);
    } else if action.Start? || action.promptId != id {
      NextKeepsOthers(s, action, id);
    } else {
      NextSettles(s, action, id);
      NextCommits(s, action);
      if Changed(s, action).Some? {
        CommitTouchesOneRun(s, id, Changed(s, action).value);
        if i >= |s.runs[id].trace| {
          OwnActionAdds(s, action, i);
        }
      }
    }
  }

  lemma OwnActionAdds(s: State, action: Action, i: nat)
    requires Inv(s) && AllServed(s) && !action.Start? && action.promptId in s.runs && Changed(s, action).Some?
    requires |s.runs[action.promptId].trace| <= i < |Changed(s, action).value.trace|
    ensures AddedBy(s, action, action.promptId, Changed(s, action).value, i)
  {
    if action.Advance? {
      AdvanceAdds(s, action, i);
    } else {
      UserAdds(s, action, i);
    }
  }

  // Entry `i` of the prompt's history was added by action `k`.
  ghost predicate HasOrigin(limit: int, actions: seq<Action>, id: string, i: nat, k: nat, entry: Obs) {
    && k < |actions|
    && var s, next := Execute(limit, actions[..k]), Execute(limit, actions[..k + 1]);
       && id in s.runs && id in next.runs && i < |next.runs[id].trace| && next.runs[id].trace[i] == entry
       && AddedBy(s, actions[k], id, next.runs[id], i)
  }

  lemma OriginStays(limit: int, actions: seq<Action>, id: string, i: nat, k: nat, entry: Obs)
    requires actions != [] && HasOrigin(limit, actions[..|actions| - 1], id, i, k, entry)
    ensures HasOrigin(limit, actions, id, i, k, entry)
  {
    assert actions[..|actions| - 1][..k] == actions[..k];
    assert actions[..|actions| - 1][..k + 1] == actions[..k + 1];
  }

  lemma LastActionAdds(limit: int, actions: seq<Action>, id: string, i: nat)
    requires actions != [] && id in Execute(limit, actions).runs && i < |Execute(limit, actions).runs[id].trace|
    ensures var s := Execute(limit, actions[..|actions| - 1]);
      && id in s.runs
      && var run, next := s.runs[id], Execute(limit, actions).runs[id];
         if i < |run.trace| then run.trace[i] == next.trace[i]
         else AddedBy(s, actions[|actions| - 1], id, next, i)
  {
    var earlier := actions[..|actions| - 1];
    ReachableInv(limit, earlier);
    ReachableServed(limit, earlier);
    NewEntryIsAdded(Execute(limit, earlier), actions[|actions| - 1], id, i);
  }

  // In every interleaving, every entry of a prompt's history has its origin: one accepted call by the prompt's own user,
  // or one delivery to its loop that adds exactly what it stands for.
  lemma {:induction false} EveryEntryHasItsOrigin(limit: int, actions: seq<Action>, id: string, i: nat) returns (k: nat)
    requires id in Execute(limit, actions).runs && i < |Execute(limit, actions).runs[id].trace|
    ensures HasOrigin(limit, actions, id, i, k, Execute(limit, actions).runs[id].trace[i])
  {
    LastActionAdds(limit, actions, id, i);
    var earlier := actions[..|actions| - 1];
    if i < |Execute(limit, earlier).runs[id].trace| {
      k := EveryEntryHasItsOrigin(limit, earlier, id, i);
      OriginStays(limit, actions, id, i, k, Execute(limit, actions).runs[id].trace[i]);
    } else {
      k := |earlier|;
      assert actions[..k + 1] == actions;
    }
  }
}
