// What the user sees and the store keeps, against what was delivered: the answer is what the model wrote, an ask is what
// it called, a result is what came back, and a prompt is what was started.
module PromptDeliveries {
  import opened Wrappers
  import opened Seqs
  import opened UriTemplate
  import opened Catalog
  import opened Gateway
  import opened PromptRecord
  import opened PromptProtocol
  import opened PromptInvariant
  import opened PromptReservations
  import opened PromptServed
  import opened PromptTheorems
  import opened PromptOrigins

  // ---- What never changes ----

  // A prompt keeps what it was started with, and the list it fetched.
  predicate RecordStays(run: Run, later: Run) {
    SameOrigin(run, later) && (run.list.Some? ==> later.list == run.list)
  }

  lemma ChangeKeepsRecord(s: State, action: Action)
    requires Inv(s) && !action.Start? && action.promptId in s.runs && Changed(s, action).Some?
    ensures RecordStays(s.runs[action.promptId], Changed(s, action).value)
  {
    ChangedFollows(s, action);
    if action.Advance? {
      SegmentLeaves(s.runs[action.promptId], action.segment);
    }
  }

  lemma CommitKeepsRecord(s: State, id: string, run: Run)
    requires id in s.runs && RecordStays(s.runs[id], run)
    ensures id in Commit(s, id, run).runs && RecordStays(s.runs[id], Commit(s, id, run).runs[id])
  {
    CommitTouchesOneRun(s, id, run);
  }

  lemma OwnActionKeepsRecord(s: State, action: Action)
    requires Inv(s) && !action.Start? && action.promptId in s.runs
    ensures action.promptId in Next(s, action).runs
    ensures RecordStays(s.runs[action.promptId], Next(s, action).runs[action.promptId])
  {
    NextCommits(s, action);
    if Changed(s, action).Some? {
      ChangeKeepsRecord(s, action);
      CommitKeepsRecord(s, action.promptId, Changed(s, action).value);
    }
  }

  lemma NextKeepsRecord(s: State, action: Action, id: string)
    requires Inv(s) && id in s.runs
    ensures id in Next(s, action).runs && RecordStays(s.runs[id], Next(s, action).runs[id])
  {
    if action.Start? || action.promptId != id {
      NextKeepsOthers(s, action, id);
    } else {
      OwnActionKeepsRecord(s, action);
    }
  }

  lemma OneMoreActionKeepsRecord(limit: int, actions: seq<Action>, action: Action, id: string)
    requires id in Execute(limit, actions).runs
    ensures id in Execute(limit, actions + [action]).runs
    ensures RecordStays(Execute(limit, actions).runs[id], Execute(limit, actions + [action]).runs[id])
  {
    ExecuteStep(limit, actions, action);
    ReachableInv(limit, actions);
    NextKeepsRecord(Execute(limit, actions), action, id);
  }

  ghost predicate StaysSince(limit: int, actions: seq<Action>, later: seq<Action>, id: string) {
    && id in Execute(limit, actions).runs && id in Execute(limit, actions + later).runs
    && RecordStays(Execute(limit, actions).runs[id], Execute(limit, actions + later).runs[id])
  }

  lemma StaysOneMore(limit: int, actions: seq<Action>, init: seq<Action>, last: Action, id: string)
    requires StaysSince(limit, actions, init, id)
    ensures StaysSince(limit, actions, init + [last], id)
  {
    OneMoreActionKeepsRecord(limit, actions + init, last, id);
    assert (actions + init) + [last] == actions + (init + [last]);
  }

  lemma {:induction false} RecordsStay(limit: int, actions: seq<Action>, later: seq<Action>, id: string)
    requires id in Execute(limit, actions).runs
    ensures StaysSince(limit, actions, later, id)
  {
    if later == [] {
      assert actions + later == actions;
    } else {
      var init, last := later[..|later| - 1], later[|later| - 1];
      RecordsStay(limit, actions, init, id);
      StaysOneMore(limit, actions, init, last, id);
      assert init + [last] == later;
    }
  }

  // ---- What a delivery can add ----

  lemma SaveInGrowth(run: Run, segment: Segment, added: seq<Obs>, j: nat)
    requires Enabled(run, segment) && Delivers(run, segment, added) && j < |added| && IsSave(added[j])
    ensures segment.StepReturned? && segment.message.calls == [] && !IsBlank(segment.message.content)
    ensures added[j] == Began(SaveCall(run.conversationId, run.prompt, segment.message.content, segment.now))
  {
  }

  lemma PermissionInGrowth(run: Run, segment: Segment, added: seq<Obs>, j: nat, ask: Ask)
    requires Enabled(run, segment) && Delivers(run, segment, added) && j < |added|
    requires added[j] == Emitted(PermissionEvent(ask))
    ensures segment.StepReturned? && run.list.Some? && CatalogOf(run.list.value).Ok?
    ensures Means(segment.message, run.list.value, Ok(Selected(ask)))
  {
  }

  predicate IsReply(event: Event) {
    event.CallEvent? && (event.status.Failed? || event.status.Succeeded?)
  }

  lemma ReplyInGrowth(run: Run, segment: Segment, added: seq<Obs>, j: nat)
    requires Enabled(run, segment) && Delivers(run, segment, added) && j < |added|
    requires added[j].Emitted? && IsReply(added[j].event)
    ensures segment.CallReturned? && added[j].event == ReplyEvent(segment.reply, run.pc.ask)
  {
  }

  lemma ErrorInGrowth(run: Run, segment: Segment, added: seq<Obs>, j: nat)
    requires Enabled(run, segment) && Delivers(run, segment, added) && j < |added|
    requires added[j].Emitted? && added[j].event.ErrorEvent?
    ensures var failure := added[j].event.failure;
      match segment
      case Threw(thrown) => failure == thrown
      case SaveThrew(thrown) => failure == thrown
      case Unwound => failure == run.pc.failure
      case StepReturned(message, _) =>
        && run.list.Some? && CatalogOf(run.list.value).Ok?
        && exists reason :: failure == BadCompletion(reason) && Means(message, run.list.value, Err(reason))
      case _ => false
  {
  }

  // ---- Over all interleavings ----

  lemma RecordSince(limit: int, actions: seq<Action>, id: string, k: nat)
    requires k <= |actions| && id in Execute(limit, actions[..k]).runs
    ensures id in Execute(limit, actions).runs
    ensures RecordStays(Execute(limit, actions[..k]).runs[id], Execute(limit, actions).runs[id])
  {
    RecordsStay(limit, actions[..k], actions[k..], id);
    assert actions[..k] + actions[k..] == actions;
  }

  // An entry that no user made, with the run before the delivery that added it, and its place in what was added.
  ghost predicate AddedTo(run: Run, action: Action, id: string, added: seq<Obs>, j: int, entry: Obs) {
    && action.Advance? && action.promptId == id && Enabled(run, action.segment)
    && Delivers(run, action.segment, added) && 0 <= j < |added| && added[j] == entry
  }

  lemma EntryWasAdded(s: State, action: Action, id: string, next: Run, i: nat)
    requires id in s.runs && i < |next.trace| && AddedBy(s, action, id, next, i) && !IsUsers(next.trace[i])
    ensures AddedTo(s.runs[id], action, id, Growth(s.runs[id], next), i - |s.runs[id].trace|, next.trace[i])
  {
  }

  // The delivery behind an entry that no user made.
  lemma DeliveryOf(limit: int, actions: seq<Action>, id: string, i: nat) returns (k: nat, run: Run, added: seq<Obs>, j: nat)
    requires id in Execute(limit, actions).runs && i < |Execute(limit, actions).runs[id].trace|
    requires !IsUsers(Execute(limit, actions).runs[id].trace[i])
    ensures k < |actions| && AddedTo(run, actions[k], id, added, j, Execute(limit, actions).runs[id].trace[i])
    ensures RecordStays(run, Execute(limit, actions).runs[id])
    ensures id in Execute(limit, actions[..k]).runs && run == Execute(limit, actions[..k]).runs[id]
  {
    k := EveryEntryHasItsOrigin(limit, actions, id, i);
    var s, next := Execute(limit, actions[..k]), Execute(limit, actions[..k + 1]).runs[id];
    EntryWasAdded(s, actions[k], id, next, i);
    RecordSince(limit, actions, id, k);
    run, added, j := s.runs[id], Growth(s.runs[id], next), i - |s.runs[id].trace|;
  }

  // Action `k` delivers the model's message to this prompt.
  predicate DeliversMessage(actions: seq<Action>, k: nat, id: string) {
    k < |actions| && actions[k].Advance? && actions[k].promptId == id && actions[k].segment.StepReturned?
  }

  // In every interleaving, what a prompt saves is its own prompt with what the model wrote: the content of a message
  // without calls, unchanged, at the time when it came.
  lemma SavesCarryTheModelsAnswer(limit: int, actions: seq<Action>, id: string, i: nat) returns (k: nat)
    requires id in Execute(limit, actions).runs && i < |Execute(limit, actions).runs[id].trace|
    requires IsSave(Execute(limit, actions).runs[id].trace[i])
    ensures DeliversMessage(actions, k, id)
    ensures var run, step := Execute(limit, actions).runs[id], actions[k].segment;
      && step.message.calls == [] && !IsBlank(step.message.content)
      && run.trace[i] == Began(SaveCall(run.conversationId, run.prompt, step.message.content, step.now))
  {
    var run, added, j;
    k, run, added, j := DeliveryOf(limit, actions, id, i);
    SaveInGrowth(run, actions[k].segment, added, j);
  }

  // And what it answers is that, too.
  lemma AnswersCarryTheModelsAnswer(limit: int, actions: seq<Action>, id: string, i: nat) returns (k: nat)
    requires id in Execute(limit, actions).runs && i < |Execute(limit, actions).runs[id].trace|
    requires IsAnswer(Execute(limit, actions).runs[id].trace[i])
    ensures DeliversMessage(actions, k, id)
    ensures var answer, step := Execute(limit, actions).runs[id].trace[i].event, actions[k].segment;
      && step.message.calls == [] && !IsBlank(step.message.content)
      && answer.content == step.message.content && answer.finishedAt == step.now
  {
    EveryPromptSavesOnce(limit, actions, id);
    k := SavesCarryTheModelsAnswer(limit, actions, id, i - 3);
  }

  // In every interleaving, a permission is asked for exactly what the model called: its one call, with its arguments,
  // for the item of the prompt's own list that was offered under that name.
  lemma AsksAreTheModelsCalls(limit: int, actions: seq<Action>, id: string, i: nat, ask: Ask) returns (k: nat)
    requires id in Execute(limit, actions).runs && i < |Execute(limit, actions).runs[id].trace|
    requires Execute(limit, actions).runs[id].trace[i] == Emitted(PermissionEvent(ask))
    ensures DeliversMessage(actions, k, id)
    ensures var list, calls := Execute(limit, actions).runs[id].list, actions[k].segment.message.calls;
      && list.Some? && CatalogOf(list.value).Ok? && |calls| == 1 && calls[0].arguments == Some(ask.arguments)
      && exists item :: AsksNamedItem(list.value, ask, item, calls[0].name)
  {
    var run, added, j;
    k, run, added, j := DeliveryOf(limit, actions, id, i);
    PermissionInGrowth(run, actions[k].segment, added, j, ask);
  }

  // In every interleaving, a result is reported for a reply that came back to this prompt: `failed` for an error that a
  // tool reports, otherwise the reply itself.
  lemma ResultsAreReplies(limit: int, actions: seq<Action>, id: string, i: nat) returns (k: nat)
    requires id in Execute(limit, actions).runs && i < |Execute(limit, actions).runs[id].trace|
    requires var entry := Execute(limit, actions).runs[id].trace[i]; entry.Emitted? && IsReply(entry.event)
    ensures k < |actions| && actions[k].Advance? && actions[k].promptId == id && actions[k].segment.CallReturned?
    ensures var event := Execute(limit, actions).runs[id].trace[i].event;
      event == ReplyEvent(actions[k].segment.reply, event.ask)
  {
    var run, added, j;
    k, run, added, j := DeliveryOf(limit, actions, id, i);
    ReplyInGrowth(run, actions[k].segment, added, j);
  }

  lemma CallInGrowth(run: Run, segment: Segment, added: seq<Obs>, j: nat)
    requires Enabled(run, segment) && Delivers(run, segment, added) && j < |added|
    requires NeedsConsent(added[j])
    ensures segment.AskResumed? && run.pc.decision == Permit && run.list.Some?
    ensures exists item :: ItemCall(run.list.value, run.pc.ask, segment.resolved, item, Some(added[j].call))
  {
  }

  // In every interleaving, a call goes out for an ask that was permitted, with what the client's map then held for it,
  // and is the call for an item of the prompt's own list.
  lemma CallsAreTheirItems(limit: int, actions: seq<Action>, id: string, i: nat) returns (k: nat, ask: Ask)
    requires id in Execute(limit, actions).runs && i < |Execute(limit, actions).runs[id].trace|
    requires NeedsConsent(Execute(limit, actions).runs[id].trace[i])
    ensures k < |actions| && actions[k].Advance? && actions[k].promptId == id && actions[k].segment.AskResumed?
    ensures var run := Execute(limit, actions).runs[id];
      && run.list.Some?
      && exists item :: ItemCall(run.list.value, ask, actions[k].segment.resolved, item, Some(run.trace[i].call))
  {
    var run, added, j;
    k, run, added, j := DeliveryOf(limit, actions, id, i);
    CallInGrowth(run, actions[k].segment, added, j);
    ask := run.pc.ask;
  }

  // Why a prompt failed, by the delivery that made it fail.
  ghost predicate HasReason(run: Run, segment: Segment, failure: Failure) {
    match segment
    case Threw(thrown) => failure == thrown
    case SaveThrew(thrown) => failure == thrown
    case StepReturned(message, _) =>
      && run.list.Some? && CatalogOf(run.list.value).Ok?
      && exists reason :: failure == BadCompletion(reason) && Means(message, run.list.value, Err(reason))
    case Unwound =>
      && run.list.Some?
      && ((failure == DuplicateList && CatalogOf(run.list.value).Err?)
          || (failure == UnknownResource && exists ask :: AsksPlainResource(run.list.value, ask)))
    case _ => false
  }

  lemma UnwoundHasReason(run: Run)
    requires RunInv(run) && ServedInv(run) && Enabled(run, Unwound)
    ensures HasReason(run, Unwound, run.pc.failure)
  {
  }

  lemma ReachableRun(limit: int, actions: seq<Action>, id: string)
    requires id in Execute(limit, actions).runs
    ensures RunInv(Execute(limit, actions).runs[id]) && ServedInv(Execute(limit, actions).runs[id])
  {
    ReachableInv(limit, actions);
    ReachableServed(limit, actions);
  }

  lemma GrowthHasReason(run: Run, segment: Segment, added: seq<Obs>, j: nat)
    requires RunInv(run) && ServedInv(run) && Enabled(run, segment) && Delivers(run, segment, added) && j < |added|
    requires added[j].Emitted? && added[j].event.ErrorEvent?
    ensures HasReason(run, segment, added[j].event.failure)
  {
    ErrorInGrowth(run, segment, added, j);
    if segment.Unwound? {
      UnwoundHasReason(run);
    }
  }

  lemma ReasonStays(run: Run, later: Run, segment: Segment, failure: Failure)
    requires RecordStays(run, later) && HasReason(run, segment, failure)
    ensures HasReason(later, segment, failure)
  {
  }

  // In every interleaving, an error is what was thrown, what a message means that is neither a call nor an answer, a list
  // that is refused, or a resource that the client does not know.
  lemma ErrorsHaveReasons(limit: int, actions: seq<Action>, id: string, i: nat) returns (k: nat)
    requires id in Execute(limit, actions).runs && i < |Execute(limit, actions).runs[id].trace|
    requires var entry := Execute(limit, actions).runs[id].trace[i]; entry.Emitted? && entry.event.ErrorEvent?
    ensures k < |actions| && actions[k].Advance? && actions[k].promptId == id
    ensures var run := Execute(limit, actions).runs[id];
      HasReason(run, actions[k].segment, run.trace[i].event.failure)
  {
    var run, added, j;
    k, run, added, j := DeliveryOf(limit, actions, id, i);
    ReachableRun(limit, actions[..k], id);
    GrowthHasReason(run, actions[k].segment, added, j);
    ReasonStays(run, Execute(limit, actions).runs[id], actions[k].segment, added[j].event.failure);
  }

  // ---- Starting ----

  // The prompt was started by action `k`, and its record is what it was started with.
  ghost predicate StartedBy(actions: seq<Action>, k: nat, id: string, run: Run) {
    && k < |actions| && actions[k].Start? && actions[k].freshId == id
    && var Start(input, turns, _, startedAt) := actions[k];
       && run.userId == input.userId && run.conversationId == input.conversationId && run.prompt == input.prompt
       && run.startedAt == startedAt
       && SelectionOf(turns, input.turnIds).Ok? && Seeds(run.seed, SelectionOf(turns, input.turnIds).value, input.prompt)
  }

  lemma StartedStays(actions: seq<Action>, k: nat, id: string, run: Run, next: Run)
    requires actions != [] && StartedBy(actions[..|actions| - 1], k, id, run) && SameOrigin(run, next)
    ensures StartedBy(actions, k, id, next)
  {
  }

  lemma NewRunIsStarted(s: State, action: Action, id: string)
    requires id !in s.runs && id in Next(s, action).runs
    ensures StartedBy([action], 0, id, Next(s, action).runs[id])
  {
    if action.Start? {
      SeedsInOrder(SelectionOf(action.turns, action.input.turnIds).value, action.input.prompt);
    } else {
      NextCommits(s, action);
    }
  }

  lemma LastActionStarts(limit: int, actions: seq<Action>, id: string)
    requires actions != [] && id in Execute(limit, actions).runs
    ensures var s, next := Execute(limit, actions[..|actions| - 1]), Execute(limit, actions).runs[id];
      if id in s.runs then SameOrigin(s.runs[id], next) else StartedBy([actions[|actions| - 1]], 0, id, next)
  {
    var earlier, last := actions[..|actions| - 1], actions[|actions| - 1];
    ReachableInv(limit, earlier);
    if id in Execute(limit, earlier).runs {
      NextKeepsRecord(Execute(limit, earlier), last, id);
    } else {
      NewRunIsStarted(Execute(limit, earlier), last, id);
    }
  }

  // In every interleaving, a prompt has the user, the conversation, the text and the seed messages that one `start` gave it.
  lemma {:induction false} EveryPromptWasStarted(limit: int, actions: seq<Action>, id: string) returns (k: nat)
    requires id in Execute(limit, actions).runs
    ensures StartedBy(actions, k, id, Execute(limit, actions).runs[id])
  {
    LastActionStarts(limit, actions, id);
    var earlier := actions[..|actions| - 1];
    if id in Execute(limit, earlier).runs {
      k := EveryPromptWasStarted(limit, earlier, id);
      StartedStays(actions, k, id, Execute(limit, earlier).runs[id], Execute(limit, actions).runs[id]);
    } else {
      k := |earlier|;
    }
  }

  // ---- What the calls bring about ----

  // The ask is settled as decided, and its loop can go on from there.
  predicate IsSettled(run: Run, next: Run, item: Selection, decision: Decision) {
    && run.pending.Some? && run.pending.value.item == item
    && next.pending.None? && next.pc == Resumable(run.pending.value, decision)
    && next.trace == run.trace + [Settled(decision, item)]
  }

  // The prompt is stopped; its loop can go on from an open ask, or goes on from where it is.
  predicate IsHalted(run: Run, next: Run) {
    && IsStopped(next) && next.stopAccepted && next.trace == run.trace + [StopAccepted]
    && next.pc == match run.pending
                  case Some(ask) => Resumable(ask, StopAsk)
                  case None => run.pc
  }

  // The prompt waits at the head of its loop, and its conversation is taken.
  predicate IsUnderway(s: State, id: string) {
    && id in s.runs && id in s.active
    && s.runs[id].pc.Scheduled? && s.runs[id].trace == [] && !s.runs[id].ended && IsAnswering(s.runs[id].phase)
    && s.runs[id].conversationId in s.byConversation && s.byConversation[s.runs[id].conversationId] == id
  }

  // What a call, if it is accepted, makes of the state.
  ghost predicate CallTakesEffect(s: State, action: Action, next: State) {
    match action
    case Settle(id, userId, item, decision) =>
      if decision != StopAsk && SettleOutcome(s, id, userId, item) == Accepted then
        && id in s.runs && id in next.runs && IsSettled(s.runs[id], next.runs[id], item, decision)
        && next == s.(runs := next.runs) && next.runs == s.runs[id := next.runs[id]]
      else next == s
    case Stop(id, userId) =>
      if StopOutcome(s, id, userId) == Accepted then
        && id in s.runs && id in next.runs && IsHalted(s.runs[id], next.runs[id])
        && id !in next.active && s.runs[id].conversationId !in next.byConversation
        && next.runs == s.runs[id := next.runs[id]]
      else next == s
    case Start(input, turns, id, _) =>
      if id != "" && id !in s.runs && StartResult(s, input, turns).Ok? then
        IsUnderway(next, id) && next.active == s.active + [id] && next.runs == s.runs[id := next.runs[id]]
      else next == s
    case Advance(_, _) => true
  }

  lemma SettleTakesEffect(s: State, action: Action)
    requires Inv(s) && action.Settle?
    ensures CallTakesEffect(s, action, Next(s, action))
  {
    if action.decision != StopAsk && SettleOutcome(s, action.promptId, action.userId, action.item) == Accepted {
      var run := s.runs[action.promptId];
      SettleKeepsAnswering(run, action.decision);
    }
  }

  lemma SettleKeepsAnswering(run: Run, decision: Decision)
    requires run.pending.Some? && decision != StopAsk
    ensures IsAnswering(run.phase) ==> IsAnswering(SettleRun(run, decision).phase)
    ensures IsSettled(run, SettleRun(run, decision), run.pending.value.item, decision)
  {
  }

  lemma StopHalts(run: Run)
    requires IsAnswering(run.phase)
    ensures IsHalted(run, StopRun(run)) && !IsAnswering(StopRun(run).phase)
    ensures StopRun(run).conversationId == run.conversationId
  {
  }

  lemma StopTakesEffect(s: State, action: Action)
    requires Inv(s) && action.Stop?
    ensures CallTakesEffect(s, action, Next(s, action))
  {
    var id := action.promptId;
    if StopOutcome(s, id, action.userId) == Accepted {
      StopHalts(s.runs[id]);
      CommitReleases(s, id, StopRun(s.runs[id]));
    }
  }

  lemma CommitReleases(s: State, id: string, run: Run)
    requires ConversationsFit(s) && id in s.active && id in s.runs && run.conversationId == s.runs[id].conversationId
    requires IsAnswering(s.runs[id].phase) && !IsAnswering(run.phase)
    ensures id !in Commit(s, id, run).active && run.conversationId !in Commit(s, id, run).byConversation
    ensures Commit(s, id, run).runs == s.runs[id := run]
  {
  }

  lemma StartTakesEffect(s: State, action: Action)
    requires action.Start?
    ensures CallTakesEffect(s, action, Next(s, action))
  {
  }

  // In every interleaving, an accepted call does what it says and a call that is turned down changes nothing.
  lemma AcceptedCallsTakeEffect(limit: int, actions: seq<Action>, action: Action)
    ensures CallTakesEffect(Execute(limit, actions), action, Execute(limit, actions + [action]))
  {
    ReachableInv(limit, actions);
    ExecuteStep(limit, actions, action);
    match action
    case Settle(_, _, _, _) => SettleTakesEffect(Execute(limit, actions), action);
    case Stop(_, _) => StopTakesEffect(Execute(limit, actions), action);
    case Start(_, _, _, _) => StartTakesEffect(Execute(limit, actions), action);
    case Advance(_, _) =>
  }
}
