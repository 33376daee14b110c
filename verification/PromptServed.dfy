// The second invariant: everything a prompt asks for and calls is an item of the list it fetched, with arguments
// that fit that item.
module PromptServed {
  import opened Wrappers
  import opened UriTemplate
  import opened Catalog
  import opened Gateway
  import opened PromptRecord
  import opened PromptProtocol
  import opened PromptInvariant
  import opened PromptReservations

  // The ask is for an item of the list as it was fetched.
  ghost predicate AskListed(list: ModelList, ask: Ask) {
    exists i :: AsksItem(list, ask, i)
  }

  // A call for item `i`: the tool of that name with the ask's arguments, the template expanded with them, or a read.
  ghost predicate CallsItem(list: ModelList, ask: Ask, call: Call, i: nat)
    requires AsksItem(list, ask, i)
  {
    var resources := |list.tools|;
    var templates := resources + |list.resources|;
    if i < resources then call == ToolCall(list.tools[i].name, ask.arguments)
    else if i < templates then call.ReadCall?
    else call.ReadCall? && ExpandUriTemplate(list.templates[i - templates].uriTemplate, ask.arguments) == Ok(call.uri)
  }

  ghost predicate CallServes(list: ModelList, ask: Ask, call: Call) {
    exists i :: AsksItem(list, ask, i) && CallsItem(list, ask, call, i)
  }

  // The ask is for a resource with a URI of its own.
  ghost predicate AsksPlainResource(list: ModelList, ask: Ask) {
    exists i :: |list.tools| <= i < |list.tools| + |list.resources| && AsksItem(list, ask, i)
  }

  lemma ServedIsToolOrRead(list: ModelList, ask: Ask, call: Call)
    requires CallServes(list, ask, call)
    ensures call.ToolCall? || call.ReadCall?
  {
  }

  ghost predicate RoundServed(list: ModelList, round: Round) {
    && AskListed(list, round.ask)
    && (round.Ran? ==> CallServes(list, round.ask, round.call)
                       && (round.reply.ToolReply? <==> round.ask.item.kind == Tool))
  }

  ghost predicate PcServed(list: ModelList, pc: Pc) {
    match pc
    case Asking(ask) => AskListed(list, ask)
    case Resumable(ask, _) => AskListed(list, ask)
    case Running(ask, call) => AskListed(list, ask) && CallServes(list, ask, call)
    case Returned(ask, call) => AskListed(list, ask) && CallServes(list, ask, call)
    case Throwing(failure, Some(ask)) =>
      // A permitted call never fails for want of a template variable: only an unlisted URI can stop it.
      AsksPlainResource(list, ask) && failure == UnknownResource
    case Throwing(failure, None) => failure == DuplicateList && CatalogOf(list).Err?
    case _ => true
  }

  ghost predicate ServedInv(run: Run) {
    run.list.Some? ==>
      && PcServed(run.list.value, run.pc)
      && forall k :: 0 <= k < |run.rounds| ==> RoundServed(run.list.value, run.rounds[k])
  }

  // Where a permitted ask goes: to the call it describes, or nowhere because its URI is unknown.
  lemma PermittedAskIsServed(list: ModelList, ask: Ask, resolved: Option<string>)
    requires CatalogOf(list).Ok? && AskListed(list, ask)
    ensures match CallFor(list, ask, resolved)
      case Ok(call) => CallServes(list, ask, call)
      case Err(failure) => failure == UnknownResource && AsksPlainResource(list, ask)
  {
    var i: nat :| AsksItem(list, ask, i);
    if i < |list.tools| {
      ToolIsServed(list, ask, resolved, i);
    } else if i < |list.tools| + |list.resources| {
      ResourceIsServed(list, ask, resolved, i);
    } else {
      TemplateIsServed(list, ask, resolved, i);
    }
  }

  lemma ToolIsServed(list: ModelList, ask: Ask, resolved: Option<string>, i: nat)
    requires AsksItem(list, ask, i) && i < |list.tools|
    ensures CallFor(list, ask, resolved).Ok? && CallServes(list, ask, CallFor(list, ask, resolved).value)
  {
    assert CallsItem(list, ask, CallFor(list, ask, resolved).value, i);
  }

  lemma TemplateBranch(list: ModelList, ask: Ask, i: nat)
    requires CatalogOf(list).Ok? && AsksItem(list, ask, i) && i >= |list.tools|
    ensures var found := FindTemplate(list.templates, ask.item.domain, ask.item.name);
      && (found.Some? <==> i >= |list.tools| + |list.resources|)
      && (found.Some? ==> ExpandUriTemplate(found.value.uriTemplate, ask.arguments).Ok?)
  {
    ListedMeansAsked(list, ask, i);
    ListedTemplateExpands(list, ask, i);
    ListingItem(list, i);
  }

  lemma ResourceIsServed(list: ModelList, ask: Ask, resolved: Option<string>, i: nat)
    requires CatalogOf(list).Ok? && AsksItem(list, ask, i) && |list.tools| <= i < |list.tools| + |list.resources|
    ensures match CallFor(list, ask, resolved)
      case Ok(call) => CallServes(list, ask, call)
      case Err(failure) => failure == UnknownResource && AsksPlainResource(list, ask)
  {
    TemplateBranch(list, ask, i);
    if resolved.Some? {
      assert CallsItem(list, ask, ReadCall(resolved.value), i);
    }
  }

  // The template found for an item is the item's own.
  lemma TemplateFound(list: ModelList, ask: Ask, i: nat)
    requires CatalogOf(list).Ok? && AsksItem(list, ask, i) && i >= |list.tools|
    ensures var templates, found := |list.tools| + |list.resources|, FindTemplate(list.templates, ask.item.domain, ask.item.name);
      found.Some? ==> i >= templates && found.value == list.templates[i - templates]
  {
    var templates, found := |list.tools| + |list.resources|, FindTemplate(list.templates, ask.item.domain, ask.item.name);
    TemplateBranch(list, ask, i);
    if found.Some? {
      var j :| 0 <= j < |list.templates| && list.templates[j] == found.value;
      SameTemplate(list, i - templates, j);
    }
  }

  lemma TemplateIsServed(list: ModelList, ask: Ask, resolved: Option<string>, i: nat)
    requires CatalogOf(list).Ok? && AsksItem(list, ask, i) && i >= |list.tools| + |list.resources|
    ensures CallFor(list, ask, resolved).Ok? && CallServes(list, ask, CallFor(list, ask, resolved).value)
  {
    TemplateBranch(list, ask, i);
    TemplateFound(list, ask, i);
    assert CallsItem(list, ask, CallFor(list, ask, resolved).value, i);
  }

  lemma SelectedAskIsListed(message: ProviderMessage, list: ModelList)
    requires CatalogOf(list).Ok? && Step(message, list).Ok? && Step(message, list).value.Selected?
    ensures AskListed(list, Step(message, list).value.ask)
  {
    var i := SelectionsAreListed(message, list);
    ListedMeansAsked(list, Step(message, list).value.ask, i);
  }

  lemma TakeStepKeepsServed(run: Run, message: ProviderMessage, now: string)
    requires RunInv(run) && ServedInv(run) && Enabled(run, StepReturned(message, now))
    ensures ServedInv(TakeStep(run, message, now))
  {
    match Step(message, run.list.value)
    case Err(_) =>
    case Ok(Answered(_)) =>
    case Ok(Selected(_)) => SelectedAskIsListed(message, run.list.value);
  }

  lemma CallKeepsServed(run: Run, ask: Ask, resolved: Option<string>)
    requires ServedInv(run) && run.list.Some? && CatalogOf(run.list.value).Ok? && AskListed(run.list.value, ask)
    ensures ServedInv(PerformCall(run, ask, resolved))
  {
    PerformCallCases(run, ask, resolved);
    PermittedAskIsServed(run.list.value, ask, resolved);
  }

  lemma RefusalKeepsServed(run: Run, ask: Ask)
    requires ServedInv(run) && run.list.Some? && AskListed(run.list.value, ask)
    ensures ServedInv(LoopTop(RecordRefusal(run, ask).(phase := Selecting)))
  {
    var refused := RecordRefusal(run, ask);
    assert forall k :: 0 <= k < |refused.rounds| ==> RoundServed(run.list.value, refused.rounds[k]);
  }

  lemma ResumeAskKeepsServed(run: Run, resolved: Option<string>)
    requires RunInv(run) && ServedInv(run) && Enabled(run, AskResumed(resolved))
    ensures ServedInv(ResumeAsk(run, resolved))
  {
    if run.pc.decision == StopAsk || run.phase == PromptProtocol.Phase.Stopped {
    } else if run.pc.decision == Refuse {
      RefusalKeepsServed(run, run.pc.ask);
    } else {
      CallKeepsServed(run, run.pc.ask, resolved);
    }
  }

  lemma ReplyKeepsServed(run: Run, reply: Reply)
    requires ServedInv(run) && Enabled(run, CallReturned(reply))
    ensures ServedInv(TakeReply(run, reply))
  {
  }

  // Steps that add no round and leave the loop at a harmless place.
  predicate QuietStep(run: Run, next: Run) {
    && next.list == run.list && next.rounds == run.rounds
    && (next.pc == run.pc || next.pc.FetchingList? || next.pc.Stepping?)
  }

  lemma QuietStepKeepsServed(run: Run, next: Run)
    requires ServedInv(run) && QuietStep(run, next)
    ensures ServedInv(next)
  {
  }

  lemma FailingIsQuiet(run: Run, failure: Failure)
    ensures QuietStep(run, End(Fail(run, failure)))
  {
  }

  lemma BeginningIsQuiet(run: Run)
    ensures QuietStep(run, BeginRun(run))
  {
  }

  lemma ResumingIsQuiet(run: Run)
    ensures QuietStep(run, ResumeLoop(run))
  {
  }

  lemma SavingIsQuiet(run: Run)
    requires run.pc.Saving?
    ensures QuietStep(run, TakeSave(run))
  {
  }

  lemma ListKeepsServed(run: Run, list: ModelList)
    requires ServedInv(run) && run.rounds == [] && run.pc.FetchingList?
    ensures ServedInv(TakeList(run, list))
  {
    if run.phase == PromptProtocol.Phase.Stopped {
      QuietStepKeepsServed(run, TakeList(run, list));
    } else {
      ListIsTaken(run, list);
      NoRoundIsServed(TakeList(run, list));
    }
  }

  lemma ListIsTaken(run: Run, list: ModelList)
    requires run.phase != PromptProtocol.Phase.Stopped && run.pc.FetchingList?
    ensures var next := TakeList(run, list);
      && next.rounds == run.rounds && next.list == Some(list)
      && (next.pc.Stepping? || next.pc.FetchingList?
          || (next.pc == Throwing(DuplicateList, None) && CatalogOf(list).Err?))
  {
  }

  lemma NoRoundIsServed(run: Run)
    requires run.rounds == []
    requires run.pc.Stepping? || run.pc.FetchingList?
      || (run.pc == Throwing(DuplicateList, None) && run.list.Some? && CatalogOf(run.list.value).Err?)
    ensures ServedInv(run)
  {
  }

  lemma FailingKeepsServed(run: Run, failure: Failure)
    requires ServedInv(run)
    ensures ServedInv(End(Fail(run, failure)))
  {
    FailingIsQuiet(run, failure);
    QuietStepKeepsServed(run, End(Fail(run, failure)));
  }

  lemma StepKeepsServed(run: Run, segment: Segment)
    requires RunInv(run) && ServedInv(run) && Enabled(run, segment)
    ensures ServedInv(RunStep(run, segment))
  {
    match segment
    case ListReturned(list) => ListKeepsServed(run, list);
    case StepReturned(message, now) => TakeStepKeepsServed(run, message, now);
    case AskResumed(resolved) => ResumeAskKeepsServed(run, resolved);
    case CallReturned(reply) => ReplyKeepsServed(run, reply);
    case SaveThrew(failure) => FailingKeepsServed(run, failure);
    case Threw(failure) => FailingKeepsServed(run, failure);
    case Unwound => FailingKeepsServed(run, run.pc.failure);
    case Begin =>
      BeginningIsQuiet(run);
      QuietStepKeepsServed(run, BeginRun(run));
    case LoopResumed =>
      ResumingIsQuiet(run);
      QuietStepKeepsServed(run, ResumeLoop(run));
    case SaveReturned =>
      SavingIsQuiet(run);
      QuietStepKeepsServed(run, TakeSave(run));
  }

  lemma CallsKeepServed(run: Run, decision: Decision)
    requires RunInv(run) && ServedInv(run)
    ensures ServedInv(StopRun(run))
    ensures run.pending.Some? && decision != StopAsk ==> ServedInv(SettleRun(run, decision))
  {
  }

  ghost predicate AllServed(s: State) {
    forall id :: id in s.runs ==> ServedInv(s.runs[id])
  }

  lemma CommitKeepsServed(s: State, id: string, run: Run)
    requires AllServed(s) && id in s.runs && ServedInv(run)
    ensures AllServed(Commit(s, id, run))
  {
  }

  lemma StartKeepsServed(s: State, id: string, input: StartInput, turns: seq<Turn>, startedAt: string)
    requires AllServed(s)
    ensures AllServed(Reserve(s, id, NewRun(input, turns, startedAt)))
  {
  }

  lemma NextKeepsServed(s: State, action: Action)
    requires Inv(s) && AllServed(s)
    ensures AllServed(Next(s, action))
  {
    match action
    case Start(input, turns, freshId, startedAt) =>
      if StartResult(s, input, turns).Ok? {
        StartKeepsServed(s, freshId, input, StartResult(s, input, turns).value, startedAt);
      }
    case Settle(id, userId, item, decision) =>
      if decision != StopAsk && SettleOutcome(s, id, userId, item) == Accepted {
        CallsKeepServed(s.runs[id], decision);
        CommitKeepsServed(s, id, SettleRun(s.runs[id], decision));
      }
    case Stop(id, userId) =>
      if StopOutcome(s, id, userId) == Accepted {
        CallsKeepServed(s.runs[id], StopAsk);
        CommitKeepsServed(s, id, StopRun(s.runs[id]));
      }
    case Advance(id, segment) =>
      if id in s.runs && Enabled(s.runs[id], segment) {
        StepKeepsServed(s.runs[id], segment);
        CommitKeepsServed(s, id, RunStep(s.runs[id], segment));
      }
  }

  // In every interleaving, every ask and every call is for a listed item with arguments that fit it.
  lemma {:induction false} ReachableServed(limit: int, actions: seq<Action>)
    ensures AllServed(Execute(limit, actions))
  {
    if actions != [] {
      var earlier := actions[..|actions| - 1];
      ReachableInv(limit, earlier);
      ReachableServed(limit, earlier);
      NextKeepsServed(Execute(limit, earlier), actions[|actions| - 1]);
    }
  }
}
