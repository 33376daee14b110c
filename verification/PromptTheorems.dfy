// The promises of the prompt runner, over every interleaving of its prompts with start, permit, refuse and stop.
module PromptTheorems {
  import opened Wrappers
  import opened Seqs
  import opened UriTemplate
  import opened Catalog
  import opened Gateway
  import opened PromptRecord
  import opened PromptProtocol
  import opened PromptInvariant
  import opened PromptReservations
  import opened PromptServed
  import opened PromptTraces

  // ---- Ending ----

  predicate IsTerminal(event: Event) {
    event.AnswerEvent? || event.ErrorEvent? || event.StoppedEvent?
  }

  lemma {:induction false} RoundsEmitNoEnd(rounds: seq<Round>)
    ensures forall e :: e in RoundsEvents(rounds) ==> !IsTerminal(e)
  {
    if rounds != [] {
      RoundsEmitNoEnd(rounds[..|rounds| - 1]);
    }
  }

  lemma StoryEmitsNoEnd(run: Run)
    ensures forall e :: e in Events(Story(run)) ==> !IsTerminal(e)
  {
    StoryEvents(run);
    RoundsEmitNoEnd(run.rounds);
  }

  // Whether the outcome a run was left with is the one its terminal event reports.
  predicate Reports(phase: Phase, event: Event) {
    match phase
    case Stopped => event.StoppedEvent?
    case HasFailed => event.ErrorEvent?
    case HasAnswered => event.AnswerEvent?
    case _ => false
  }

  // A loop that has returned emitted exactly one of `answer`, `error` and `stopped`, as its very last event, and left
  // the prompt with that outcome. A loop that has not returned emitted none of them.
  ghost predicate EndsOnce(run: Run) {
    var log := Events(run.trace);
    && (run.ended <==> exists k :: 0 <= k < |log| && IsTerminal(log[k]))
    && (forall k :: 0 <= k < |log| && IsTerminal(log[k]) ==> k == |log| - 1)
    && (run.ended ==> log != [] && Reports(run.phase, log[|log| - 1]))
  }

  lemma EndedLogEndsOnce(phase: Phase, story: seq<Event>, end: seq<Event>)
    requires (forall e :: e in story ==> !IsTerminal(e)) && EndEvents(phase, end)
    ensures var log := story + end;
      && log != [] && IsTerminal(log[|log| - 1]) && Reports(phase, log[|log| - 1])
      && forall k :: 0 <= k < |log| && IsTerminal(log[k]) ==> k == |log| - 1
  {
    var log := story + end;
    assert forall k :: 0 <= k < |story| ==> log[k] == story[k];
    assert forall k :: |story| <= k < |log| ==> log[k] == end[k - |story|];
  }

  lemma OneTerminalEvent(run: Run)
    requires RunInv(run)
    ensures EndsOnce(run)
  {
    StoryEmitsNoEnd(run);
    if run.ended {
      EndMarkEvents(run);
      EndedLogEndsOnce(run.phase, Events(Story(run)), Events(EndMark(run)));
    }
  }

  // In every interleaving each prompt ends at most once, and a step loop that has returned did report an outcome.
  // So the loop is never left by its `while` test, which would report none.
  lemma EveryRunEndsOnce(limit: int, actions: seq<Action>, id: string)
    requires id in Execute(limit, actions).runs
    ensures EndsOnce(Execute(limit, actions).runs[id])
  {
    ReachableInv(limit, actions);
    OneTerminalEvent(Execute(limit, actions).runs[id]);
  }

  // ---- What comes later ----

  lemma CommitTouchesOneRun(s: State, id: string, run: Run)
    requires id in s.runs
    ensures Commit(s, id, run).runs == s.runs[id := run]
  {
  }

  // An action touches the record of no prompt but its own.
  lemma NextKeepsOthers(s: State, action: Action, id: string)
    requires ActiveFits(s) && id in s.runs
    requires action.Start? || action.promptId != id
    ensures id in Next(s, action).runs && Next(s, action).runs[id] == s.runs[id]
  {
    if !action.Start? {
      NextCommits(s, action);
      if Changed(s, action).Some? {
        CommitTouchesOneRun(s, action.promptId, Changed(s, action).value);
      }
    }
  }

  lemma OnlyOpenRunsChange(s: State, action: Action)
    requires ActiveFits(s) && !action.Start? && Changed(s, action).Some?
    ensures var run := s.runs[action.promptId]; IsAnswering(run.phase) || !run.ended
  {
  }

  lemma NextKeepsOutcome(s: State, action: Action, id: string)
    requires Inv(s) && id in s.runs && !IsAnswering(s.runs[id].phase)
    ensures id in Next(s, action).runs && Next(s, action).runs[id].phase == s.runs[id].phase
    ensures s.runs[id].ended ==> Next(s, action).runs[id] == s.runs[id]
  {
    if action.Start? || action.promptId != id {
      NextKeepsOthers(s, action, id);
    } else {
      NextCommits(s, action);
      if Changed(s, action).Some? {
        OnlyOpenRunsChange(s, action);
        ChangedFollows(s, action);
        CommitTouchesOneRun(s, id, Changed(s, action).value);
      }
    }
  }

  // A prompt's outcome, and a prompt whose loop has returned, are the same in a later state.
  predicate OutcomeKept(s: State, later: State, id: string)
    requires id in s.runs
  {
    && id in later.runs && later.runs[id].phase == s.runs[id].phase
    && (s.runs[id].ended ==> later.runs[id] == s.runs[id])
  }

  lemma OneMoreActionKeepsOutcome(limit: int, actions: seq<Action>, action: Action, id: string)
    requires id in Execute(limit, actions).runs && !IsAnswering(Execute(limit, actions).runs[id].phase)
    ensures OutcomeKept(Execute(limit, actions), Execute(limit, actions + [action]), id)
  {
    assert (actions + [action])[..|actions|] == actions;
    ReachableInv(limit, actions);
    NextKeepsOutcome(Execute(limit, actions), action, id);
  }

  lemma OutcomeKeptFurther(s: State, middle: State, later: State, id: string)
    requires id in s.runs && OutcomeKept(s, middle, id) && OutcomeKept(middle, later, id)
    ensures OutcomeKept(s, later, id)
  {
  }

  lemma OutcomeKeptOneMore(limit: int, actions: seq<Action>, init: seq<Action>, last: Action, id: string)
    requires id in Execute(limit, actions).runs && !IsAnswering(Execute(limit, actions).runs[id].phase)
    requires OutcomeKept(Execute(limit, actions), Execute(limit, actions + init), id)
    ensures OutcomeKept(Execute(limit, actions), Execute(limit, actions + (init + [last])), id)
  {
    OneMoreActionKeepsOutcome(limit, actions + init, last, id);
    assert (actions + init) + [last] == actions + (init + [last]);
    OutcomeKeptFurther(Execute(limit, actions), Execute(limit, actions + init),
                       Execute(limit, actions + (init + [last])), id);
  }

  // Terminal phases are absorbing, and once its loop has returned nothing about a prompt ever changes again.
  lemma {:induction false} OutcomesAreFinal(limit: int, actions: seq<Action>, later: seq<Action>, id: string)
    requires id in Execute(limit, actions).runs && !IsAnswering(Execute(limit, actions).runs[id].phase)
    ensures OutcomeKept(Execute(limit, actions), Execute(limit, actions + later), id)
  {
    if later == [] {
      assert actions + later == actions;
    } else {
      var init, last := later[..|later| - 1], later[|later| - 1];
      OutcomesAreFinal(limit, actions, init, id);
      OutcomeKeptOneMore(limit, actions, init, last, id);
      assert init + [last] == later;
    }
  }

  // ---- Consent ----

  predicate NeedsConsent(obs: Obs) {
    obs.Began? && (obs.call.ToolCall? || obs.call.ReadCall?)
  }

  // Entry `i` is a call made under consent: right before it stand the ask the user saw, an accepted permit for that
  // very item, and the processing event of the same ask.
  predicate Consented(trace: seq<Obs>, i: int, ask: Ask) {
    && 3 <= i < |trace|
    && trace[i - 3] == Emitted(PermissionEvent(ask))
    && trace[i - 2] == Settled(Permit, ask.item)
    && trace[i - 1] == Emitted(CallEvent(Processing, ask))
  }

  ghost predicate AllConsented(list: ModelList, trace: seq<Obs>) {
    forall i :: 0 <= i < |trace| && NeedsConsent(trace[i]) ==>
      exists ask :: Consented(trace, i, ask) && AskListed(list, ask) && CallServes(list, ask, trace[i].call)
  }

  lemma ConsentConcat(list: ModelList, a: seq<Obs>, b: seq<Obs>)
    requires AllConsented(list, a) && AllConsented(list, b)
    ensures AllConsented(list, a + b)
  {
    var trace := a + b;
    forall i | 0 <= i < |trace| && NeedsConsent(trace[i])
      ensures exists ask :: Consented(trace, i, ask) && AskListed(list, ask) && CallServes(list, ask, trace[i].call)
    {
      if i < |a| {
        var ask :| Consented(a, i, ask) && AskListed(list, ask) && CallServes(list, ask, a[i].call);
        assert Consented(trace, i, ask);
      } else {
        var k := i - |a|;
        assert b[k] == trace[i];
        var ask :| Consented(b, k, ask) && AskListed(list, ask) && CallServes(list, ask, b[k].call);
        assert Consented(trace, i, ask);
      }
    }
  }

  lemma NoCallsConsented(list: ModelList, trace: seq<Obs>)
    requires forall i :: 0 <= i < |trace| ==> !NeedsConsent(trace[i])
    ensures AllConsented(list, trace)
  {
  }

  lemma CallBlockConsented(list: ModelList, seen: seq<Message>, ask: Ask, call: Call)
    requires AskListed(list, ask) && CallServes(list, ask, call)
    ensures AllConsented(list, PermittedTrace(seen, ask) + [Began(call)])
  {
    var block := PermittedTrace(seen, ask) + [Began(call)];
    PermittedCallIsConsented(seen, ask, call);
    assert forall i :: 0 <= i < |block| && NeedsConsent(block[i]) ==> i == 4;
  }

  lemma PermittedCallIsConsented(seen: seq<Message>, ask: Ask, call: Call)
    ensures |PermittedTrace(seen, ask)| == 4 && Consented(PermittedTrace(seen, ask) + [Began(call)], 4, ask)
    ensures forall i :: 0 <= i < 4 ==> !NeedsConsent(PermittedTrace(seen, ask)[i])
  {
  }

  lemma RoundConsented(list: ModelList, seen: seq<Message>, round: Round)
    requires RoundServed(list, round)
    ensures AllConsented(list, RoundTrace(seen, round))
  {
    match round
    case Declined(ask) =>
      NoCallsConsented(list, RoundTrace(seen, round));
    case Ran(ask, call, reply) =>
      RanTrace(seen, ask, call, reply);
      CallBlockConsented(list, seen, ask, call);
      var last := [Emitted(CallEvent(ReplyStatus(reply), ask))];
      NoCallsConsented(list, last);
      ConsentConcat(list, PermittedTrace(seen, ask) + [Began(call)], last);
  }

  lemma {:induction false} RoundsConsented(list: ModelList, seed: seq<Message>, rounds: seq<Round>)
    requires forall k :: 0 <= k < |rounds| ==> RoundServed(list, rounds[k])
    ensures AllConsented(list, RoundsTrace(seed, rounds))
  {
    if rounds != [] {
      var init, last := rounds[..|rounds| - 1], rounds[|rounds| - 1];
      RoundsConsented(list, seed, init);
      RoundConsented(list, MessagesAfter(seed, init), last);
      ConsentConcat(list, RoundsTrace(seed, init), RoundTrace(MessagesAfter(seed, init), last));
    }
  }

  lemma OpenConsented(list: ModelList, run: Run)
    requires PcServed(list, run.pc)
    ensures AllConsented(list, OpenTrace(run.pc, run.messages, run))
  {
    var open := OpenTrace(run.pc, run.messages, run);
    if run.pc.Running? || run.pc.Returned? {
      CallBlockConsented(list, run.messages, run.pc.ask, run.pc.call);
    } else {
      NoCallsConsented(list, open);
    }
  }

  lemma StoryConsented(list: ModelList, run: Run)
    requires PcServed(list, run.pc)
    requires forall k :: 0 <= k < |run.rounds| ==> RoundServed(list, run.rounds[k])
    ensures AllConsented(list, Story(run))
  {
    var opening, rounds := Opening(run.pc), RoundsTrace(run.seed, run.rounds);
    var open, stop := OpenTrace(run.pc, run.messages, run), StopMark(run);
    NoCallsConsented(list, opening);
    RoundsConsented(list, run.seed, run.rounds);
    OpenConsented(list, run);
    NoCallsConsented(list, stop);
    ConsentConcat(list, opening, rounds);
    ConsentConcat(list, opening + rounds, open);
    ConsentConcat(list, opening + rounds + open, stop);
  }

  lemma TraceParts(run: Run)
    requires RunInv(run)
    ensures !run.ended ==> run.trace == Story(run)
    ensures run.ended ==> run.trace == Story(run) + EndMark(run)
    ensures run.ended ==> forall k :: 0 <= k < |EndMark(run)| ==> EndMark(run)[k].Saved? || EndMark(run)[k].Emitted?
  {
    if run.ended {
      EndFitsEvents(run, EndMark(run));
    }
  }

  lemma CallsAreConsented(run: Run)
    requires RunInv(run) && ServedInv(run)
    ensures AllConsented(ListOf(run), run.trace)
  {
    var list := ListOf(run);
    if run.list.None? {
      assert run.rounds == [] && PcServed(list, run.pc);
    }
    StoryConsented(list, run);
    TraceParts(run);
    if run.ended {
      NoCallsConsented(list, EndMark(run));
      ConsentConcat(list, Story(run), EndMark(run));
    }
  }

  // In every interleaving, each tool call and each resource read stands right behind its own accepted permit for an
  // ask with the same item and arguments.
  lemma EveryCallHasConsent(limit: int, actions: seq<Action>, id: string)
    requires id in Execute(limit, actions).runs
    ensures AllConsented(ListOf(Execute(limit, actions).runs[id]), Execute(limit, actions).runs[id].trace)
  {
    ReachableInv(limit, actions);
    ReachableServed(limit, actions);
    CallsAreConsented(Execute(limit, actions).runs[id]);
  }

  // Right before entry `j` stand an ask and its permit.
  predicate AskedFor(trace: seq<Obs>, j: nat)
    requires j < |trace|
  {
    && 3 <= j
    && trace[j - 3].Emitted? && trace[j - 3].event.PermissionEvent?
    && trace[j - 2] == Settled(Permit, trace[j - 3].event.ask.item)
    && trace[j - 1].Emitted?
  }

  predicate IsRefusal(obs: Obs) {
    obs.Settled? && obs.decision == Refuse
  }

  // Before a call, but after any earlier call and any earlier refusal, the user was asked anew and permitted it.
  predicate AskedAnew(trace: seq<Obs>, i: nat, j: nat)
    requires i < j < |trace|
  {
    NeedsConsent(trace[j]) && (NeedsConsent(trace[i]) || IsRefusal(trace[i])) ==> AskedFor(trace, j) && i < j - 3
  }

  ghost predicate SpentOnce(trace: seq<Obs>) {
    forall i, j :: 0 <= i < j < |trace| ==> AskedAnew(trace, i, j)
  }

  lemma ConsentStandsBehind(list: ModelList, trace: seq<Obs>, j: nat)
    requires AllConsented(list, trace) && j < |trace| && NeedsConsent(trace[j])
    ensures AskedFor(trace, j)
  {
    var ask :| Consented(trace, j, ask);
  }

  lemma AskedForIsAnew(trace: seq<Obs>, i: nat, j: nat)
    requires i < j < |trace| && (NeedsConsent(trace[j]) ==> AskedFor(trace, j))
    ensures AskedAnew(trace, i, j)
  {
  }

  lemma ConsentedIsSpentOnce(list: ModelList, trace: seq<Obs>)
    requires AllConsented(list, trace)
    ensures SpentOnce(trace)
  {
    forall i, j | 0 <= i < j < |trace|
      ensures AskedAnew(trace, i, j)
    {
      if NeedsConsent(trace[j]) {
        ConsentStandsBehind(list, trace, j);
      }
      AskedForIsAnew(trace, i, j);
    }
  }

  // In every interleaving no permit is spent twice and no refused ask is called: between two calls, and between a
  // refusal and a call, the user was asked again and said yes.
  lemma NoPermitIsSpentTwice(limit: int, actions: seq<Action>, id: string)
    requires id in Execute(limit, actions).runs
    ensures SpentOnce(Execute(limit, actions).runs[id].trace)
  {
    var run := Execute(limit, actions).runs[id];
    EveryCallHasConsent(limit, actions, id);
    ConsentedIsSpentOnce(ListOf(run), run.trace);
  }

  // ---- Who settles ----

  // Permits, refusals and accepted stops: the entries that the loop never makes by itself.
  predicate IsUsers(obs: Obs) {
    obs.Settled? || obs.StopAccepted?
  }

  // The history grew by entries of the loop's own.
  predicate SettlesNothing(before: seq<Obs>, after: seq<Obs>) {
    before <= after && forall k :: |before| <= k < |after| ==> !IsUsers(after[k])
  }

  lemma LogSettlesNothing(run: Run, obs: seq<Obs>)
    requires forall k :: 0 <= k < |obs| ==> !IsUsers(obs[k])
    ensures SettlesNothing(run.trace, Log(run, obs).trace)
  {
  }

  lemma EmitSettlesNothing(run: Run)
    ensures SettlesNothing(run.trace, EmitStopped(run).trace)
  {
    if !run.terminalEventSent {
      var claimed := if run.phase != PromptProtocol.Phase.Stopped then Claim(run, PromptProtocol.Phase.Stopped) else run;
      LogSettlesNothing(claimed.(terminalEventSent := true), [Emitted(StoppedEvent(claimed.messages, claimed.wireList))]);
    }
  }

  lemma EndingSettlesNothing(run: Run, failure: Failure)
    ensures SettlesNothing(run.trace, EmitStopped(run).trace) && SettlesNothing(run.trace, Fail(run, failure).trace)
  {
    EmitSettlesNothing(run);
    var claimed := Claim(run, HasFailed);
    LogSettlesNothing(claimed.(terminalEventSent := true),
                      [Emitted(ErrorEvent(failure, claimed.messages, claimed.wireList))]);
  }

  lemma LoopTopSettlesNothing(run: Run)
    ensures SettlesNothing(run.trace, LoopTop(run).trace)
  {
  }

  lemma ResumingSettlesNothing(run: Run, resolved: Option<string>)
    requires run.pc.Resumable?
    ensures SettlesNothing(run.trace, ResumeAsk(run, resolved).trace)
  {
    var refused := RecordRefusal(run, run.pc.ask);
    EndingSettlesNothing(run, UnknownResource);
    LogSettlesNothing(run, [Emitted(CallEvent(Refused, run.pc.ask))]);
    LoopTopSettlesNothing(refused.(phase := Selecting));
    CallingSettlesNothing(run, run.pc.ask, resolved);
  }

  lemma CallingSettlesNothing(run: Run, ask: Ask, resolved: Option<string>)
    ensures SettlesNothing(run.trace, PerformCall(run, ask, resolved).trace)
  {
    PerformCallCases(run, ask, resolved);
  }

  lemma StepSettlesNothing(run: Run, message: ProviderMessage, now: string)
    ensures SettlesNothing(run.trace, TakeStep(run, message, now).trace)
  {
    match Interpret(message, LookupOf(Listings(ListOf(run))))
    case Err(reason) => EndingSettlesNothing(run, BadCompletion(reason));
    case Ok(step) =>
      EndingSettlesNothing(run, UnknownResource);
      FollowingSettlesNothing(run, step, now);
  }

  lemma FollowingSettlesNothing(run: Run, step: ModelStep, now: string)
    ensures match step
      case Answered(content) =>
        SettlesNothing(run.trace,
                       Log(run.(phase := Answering, pc := Saving(content, now)),
                           [Began(SaveCall(run.conversationId, run.prompt, content, now))]).trace)
      case Selected(ask) =>
        SettlesNothing(run.trace,
                       Log(run.(phase := AwaitingPermission, pending := Some(ask), pc := Asking(ask)),
                           [Emitted(PermissionEvent(ask))]).trace)
  {
  }

  lemma BeginningSettlesNothing(run: Run)
    ensures SettlesNothing(run.trace, BeginRun(run).trace)
  {
    EndingSettlesNothing(run, UnknownResource);
  }

  lemma ListSettlesNothing(run: Run, list: ModelList)
    ensures SettlesNothing(run.trace, TakeList(run, list).trace)
  {
    EndingSettlesNothing(run, UnknownResource);
    LoopTopSettlesNothing(run.(list := Some(list), wireList := Some(list)));
  }

  lemma ReplySettlesNothing(run: Run, reply: Reply)
    requires run.pc.Running?
    ensures SettlesNothing(run.trace, TakeReply(run, reply).trace)
  {
    LogSettlesNothing(run, [Emitted(CallEvent(ReplyStatus(reply), run.pc.ask))]);
  }

  lemma LoopSettlesNothing(run: Run)
    ensures SettlesNothing(run.trace, ResumeLoop(run).trace)
  {
    EndingSettlesNothing(run, UnknownResource);
    LoopTopSettlesNothing(run.(phase := Selecting));
  }

  lemma SegmentSettlesNothing(run: Run, segment: Segment)
    requires Enabled(run, segment)
    ensures SettlesNothing(run.trace, RunStep(run, segment).trace)
  {
    match segment
    case Begin => BeginningSettlesNothing(run);
    case ListReturned(list) => ListSettlesNothing(run, list);
    case StepReturned(message, now) => StepSettlesNothing(run, message, now);
    case AskResumed(resolved) => ResumingSettlesNothing(run, resolved);
    case CallReturned(reply) => ReplySettlesNothing(run, reply);
    case LoopResumed => LoopSettlesNothing(run);
    case SaveReturned => SavingSettlesNothing(run);
    case SaveThrew(failure) => EndingSettlesNothing(run, failure);
    case Threw(failure) => EndingSettlesNothing(run, failure);
    case Unwound => EndingSettlesNothing(run, run.pc.failure);
  }

  lemma SavingSettlesNothing(run: Run)
    requires run.pc.Saving?
    ensures SettlesNothing(run.trace, TakeSave(run).trace)
  {
    var saved := Log(run, [Saved]);
    LogSettlesNothing(run, [Saved]);
    EndingSettlesNothing(saved, UnknownResource);
    var answer := AnswerEvent(run.pc.content, run.startedAt, run.pc.finishedAt, DomainsOf(run.used), run.wireList, run.messages);
    AnsweringSettlesNothing(saved, Claim(saved, HasAnswered).(terminalEventSent := true), answer);
  }

  lemma AnsweringSettlesNothing(saved: Run, claimed: Run, answer: Event)
    requires claimed.trace == saved.trace
    ensures SettlesNothing(saved.trace, Log(claimed, [Emitted(AnsweringEvent), Emitted(answer)]).trace)
  {
    LogSettlesNothing(claimed, [Emitted(AnsweringEvent), Emitted(answer)]);
  }

  // The action is the accepted call that makes this entry in the history of the user's prompt.
  predicate IsUsersCall(s: State, action: Action, id: string, userId: string, entry: Obs)
    requires IsUsers(entry)
  {
    match entry
    case Settled(decision, item) =>
      action == Settle(id, userId, item, decision) && SettleOutcome(s, id, userId, item) == Accepted
    case StopAccepted => action == Stop(id, userId) && StopOutcome(s, id, userId) == Accepted
  }

  // An action adds entries of the loop's own to a prompt's history, or the one entry of a call by the prompt's user.
  predicate OnlyItsUserSettles(s: State, action: Action, id: string, next: Run)
    requires id in s.runs
  {
    var run := s.runs[id];
    || SettlesNothing(run.trace, next.trace)
    || (|next.trace| == |run.trace| + 1 && run.trace <= next.trace && IsUsers(next.trace[|run.trace|])
        && IsUsersCall(s, action, id, run.userId, next.trace[|run.trace|]))
  }

  lemma NextSettles(s: State, action: Action, id: string)
    requires ActiveFits(s) && id in s.runs
    ensures id in Next(s, action).runs && OnlyItsUserSettles(s, action, id, Next(s, action).runs[id])
    ensures Next(s, action).runs[id].userId == s.runs[id].userId
  {
    if action.Start? || action.promptId != id {
      NextKeepsOthers(s, action, id);
    } else {
      NextCommits(s, action);
      if Changed(s, action).Some? {
        ChangeSettles(s, action);
        CommitTouchesOneRun(s, id, Changed(s, action).value);
      }
    }
  }

  lemma ChangeSettles(s: State, action: Action)
    requires !action.Start? && action.promptId in s.runs && Changed(s, action).Some?
    ensures OnlyItsUserSettles(s, action, action.promptId, Changed(s, action).value)
    ensures Changed(s, action).value.userId == s.runs[action.promptId].userId
  {
    match action
    case Settle(_, _, _, _) =>
    case Stop(_, _) =>
    case Advance(id, segment) => SegmentSettlesNothing(s.runs[id], segment);
  }

  // Entry `i` of a prompt's history was made by action `k`, an accepted call of the user.
  ghost predicate MadeBy(limit: int, actions: seq<Action>, id: string, i: nat, k: nat, userId: string, entry: Obs)
    requires IsUsers(entry)
  {
    && k < |actions|
    && var s := Execute(limit, actions[..k]);
       && IsUsersCall(s, actions[k], id, userId, entry)
       && id in s.runs && |s.runs[id].trace| == i
  }

  lemma NewEntryIsTheUsers(s: State, action: Action, id: string, i: nat)
    requires ActiveFits(s) && id in Next(s, action).runs
    requires i < |Next(s, action).runs[id].trace| && IsUsers(Next(s, action).runs[id].trace[i])
    ensures id in s.runs && Next(s, action).runs[id].userId == s.runs[id].userId
    ensures var run, entry := s.runs[id], Next(s, action).runs[id].trace[i];
      if i < |run.trace| then run.trace[i] == entry
      else IsUsersCall(s, action, id, run.userId, entry) && |run.trace| == i
  {
    if id in s.runs {
      NextSettles(s, action, id);
    } else {
      NewRunsAreBlank(s, action, id);
    }
  }

  // In every interleaving each permit, each refusal and each accepted stop in a prompt's history is one accepted call
  // by the prompt's own user, for that very item, and different entries come from different calls.
  lemma {:induction false} UserEntriesAreTheUsers(limit: int, actions: seq<Action>, id: string, i: nat) returns (k: nat)
    requires id in Execute(limit, actions).runs
    requires i < |Execute(limit, actions).runs[id].trace| && IsUsers(Execute(limit, actions).runs[id].trace[i])
    ensures var run := Execute(limit, actions).runs[id];
      MadeBy(limit, actions, id, i, k, run.userId, run.trace[i])
  {
    var earlier, last := actions[..|actions| - 1], actions[|actions| - 1];
    ReachableInv(limit, earlier);
    NewEntryIsTheUsers(Execute(limit, earlier), last, id, i);
    var run, entry := Execute(limit, earlier).runs[id], Execute(limit, actions).runs[id].trace[i];
    if i < |run.trace| {
      k := UserEntriesAreTheUsers(limit, earlier, id, i);
      MadeByStays(limit, actions, id, i, k, run.userId, entry);
    } else {
      k := |earlier|;
    }
  }

  lemma MadeByStays(limit: int, actions: seq<Action>, id: string, i: nat, k: nat, userId: string, entry: Obs)
    requires IsUsers(entry) && actions != [] && MadeBy(limit, actions[..|actions| - 1], id, i, k, userId, entry)
    ensures MadeBy(limit, actions, id, i, k, userId, entry)
  {
    assert actions[..|actions| - 1][..k] == actions[..k];
  }

  // Nothing in a prompt's history is ever taken back.
  lemma {:induction false} HistoriesOnlyGrow(limit: int, actions: seq<Action>, later: seq<Action>, id: string)
    requires id in Execute(limit, actions).runs
    ensures id in Execute(limit, actions + later).runs
    ensures Execute(limit, actions).runs[id].trace <= Execute(limit, actions + later).runs[id].trace
  {
    if later == [] {
      assert actions + later == actions;
    } else {
      var init, last := later[..|later| - 1], later[|later| - 1];
      HistoriesOnlyGrow(limit, actions, init, id);
      OneMoreActionGrows(limit, actions + init, last, id);
      assert (actions + init) + [last] == actions + later;
    }
  }

  lemma OneMoreActionGrows(limit: int, actions: seq<Action>, action: Action, id: string)
    requires id in Execute(limit, actions).runs
    ensures id in Execute(limit, actions + [action]).runs
    ensures Execute(limit, actions).runs[id].trace <= Execute(limit, actions + [action]).runs[id].trace
  {
    ExecuteStep(limit, actions, action);
    ReachableInv(limit, actions);
    NextSettles(Execute(limit, actions), action, id);
  }

  lemma NewRunsAreBlank(s: State, action: Action, id: string)
    requires id !in s.runs && id in Next(s, action).runs
    ensures Next(s, action).runs[id].trace == []
  {
    if !action.Start? {
      NextCommits(s, action);
    }
  }

  // ---- Stop ----

  predicate QuietAfterStop(trace: seq<Obs>) {
    forall i, j :: 0 <= i < j < |trace| && trace[i] == StopAccepted ==> !trace[j].Began?
  }

  lemma {:induction false} RoundsHaveNoStop(seed: seq<Message>, rounds: seq<Round>)
    ensures StopAccepted !in RoundsTrace(seed, rounds)
  {
    if rounds != [] {
      var init := rounds[..|rounds| - 1];
      RoundsHaveNoStop(seed, init);
      assert StopAccepted !in RoundTrace(MessagesAfter(seed, init), rounds[|rounds| - 1]);
    }
  }

  lemma StopComesLast(run: Run)
    ensures forall i :: 0 <= i < |Story(run)| && Story(run)[i] == StopAccepted ==> i == |Story(run)| - 1
    ensures StopAccepted in Story(run) <==> run.stopAccepted
  {
    RoundsHaveNoStop(run.seed, run.rounds);
    var before := Opening(run.pc) + RoundsTrace(run.seed, run.rounds) + OpenTrace(run.pc, run.messages, run);
    assert StopAccepted !in OpenTrace(run.pc, run.messages, run);
    assert StopAccepted !in Opening(run.pc);
    assert StopAccepted !in before;
    assert Story(run) == before + StopMark(run);
    if run.stopAccepted {
      assert Story(run)[|before|] == StopAccepted;
    }
  }

  lemma StopIsABarrierFor(run: Run)
    requires RunInv(run)
    ensures QuietAfterStop(run.trace)
    ensures StopAccepted in run.trace <==> run.stopAccepted
  {
    StopComesLast(run);
    TraceParts(run);
    if run.ended {
      assert run.trace[..|Story(run)|] == Story(run);
    }
  }

  // `later` extends `earlier`, and nothing in between begins a call.
  predicate GrowsQuietly(earlier: seq<Obs>, later: seq<Obs>) {
    earlier <= later && forall k :: |earlier| <= k < |later| ==> !later[k].Began?
  }

  lemma QuietSince(earlier: seq<Obs>, later: seq<Obs>)
    requires earlier <= later && StopAccepted in earlier && QuietAfterStop(later)
    ensures GrowsQuietly(earlier, later)
  {
    var i :| 0 <= i < |earlier| && earlier[i] == StopAccepted;
    assert later[i] == StopAccepted;
  }

  // Once a stop is accepted, no list, model, tool, resource or save call begins for that prompt, whatever happens
  // later, and its history only grows.
  lemma StopIsABarrier(limit: int, actions: seq<Action>, later: seq<Action>, id: string)
    requires id in Execute(limit, actions).runs && Execute(limit, actions).runs[id].stopAccepted
    ensures id in Execute(limit, actions + later).runs
    ensures GrowsQuietly(Execute(limit, actions).runs[id].trace, Execute(limit, actions + later).runs[id].trace)
  {
    HistoriesOnlyGrow(limit, actions, later, id);
    StoppedHistories(limit, actions, id);
    StoppedHistories(limit, actions + later, id);
    QuietSince(Execute(limit, actions).runs[id].trace, Execute(limit, actions + later).runs[id].trace);
  }

  // The history shows an accepted stop exactly when there was one, and no call begins behind it.
  lemma StoppedHistories(limit: int, actions: seq<Action>, id: string)
    requires id in Execute(limit, actions).runs
    ensures var run := Execute(limit, actions).runs[id];
      QuietAfterStop(run.trace) && (StopAccepted in run.trace <==> run.stopAccepted)
  {
    ReachableInv(limit, actions);
    StopIsABarrierFor(Execute(limit, actions).runs[id]);
  }

  // How many more of its own segments a stopped run can take.
  function DrainRank(run: Run): nat {
    if run.ended then 0 else if run.pc.Running? then 2 else 1
  }

  // A continuation that can come next at each place but an open ask.
  function DueSegment(pc: Pc): Segment {
    match pc
    case Scheduled => Begin
    case FetchingList => ListReturned(ModelList([], [], []))
    case Resumable(_, _) => AskResumed(None)
    case Recorded => LoopResumed
    case Returned(_, _) => LoopResumed
    case Throwing(_, _) => Unwound
    case Saving(_, _) => SaveReturned
    case _ => Threw(External("", false))
  }

  // In every interleaving, a loop that has not returned has a continuation due unless it waits for the user, and then
  // nobody has stopped it. So a stopped loop always has one due.
  lemma NoRunIsStuck(limit: int, actions: seq<Action>, id: string)
    requires id in Execute(limit, actions).runs && !Execute(limit, actions).runs[id].ended
    ensures var run := Execute(limit, actions).runs[id];
      && (run.pc.Asking? || exists segment :: Enabled(run, segment))
      && (run.stopAccepted ==> exists segment :: Enabled(run, segment))
  {
    ReachableInv(limit, actions);
    AwaitsOrIsDue(Execute(limit, actions).runs[id]);
  }

  lemma AwaitsOrIsDue(run: Run)
    requires RunInv(run) && !run.ended
    ensures run.pc.Asking? || exists segment :: Enabled(run, segment)
    ensures run.stopAccepted ==> exists segment :: Enabled(run, segment)
  {
    if !run.pc.Asking? {
      assert Enabled(run, DueSegment(run.pc));
    }
  }

  lemma SegmentDrains(run: Run, segment: Segment)
    requires RunInv(run) && run.stopAccepted && Enabled(run, segment)
    ensures RunStep(run, segment).stopAccepted && DrainRank(RunStep(run, segment)) < DrainRank(run)
  {
    assert run.phase == PromptProtocol.Phase.Stopped;
  }

  // The action is a segment of this prompt's own loop that takes place.
  predicate IsOwnSegment(s: State, action: Action, id: string) {
    action.Advance? && action.promptId == id && id in s.runs && Enabled(s.runs[id], action.segment)
  }

  lemma StoppedIsTerminal(run: Run)
    requires RunInv(run) && run.stopAccepted
    ensures !IsAnswering(run.phase)
  {
  }

  lemma TerminalOnlyAdvances(s: State, action: Action, id: string)
    requires ActiveFits(s) && id in s.runs && !IsAnswering(s.runs[id].phase) && !action.Start? && action.promptId == id
    ensures Changed(s, action).Some? <==> IsOwnSegment(s, action, id)
  {
    assert id !in s.active;
  }

  lemma NextDrains(s: State, action: Action, id: string)
    requires Inv(s) && id in s.runs && s.runs[id].stopAccepted
    ensures id in Next(s, action).runs && Next(s, action).runs[id].stopAccepted
    ensures DrainRank(Next(s, action).runs[id]) + (if IsOwnSegment(s, action, id) then 1 else 0)
         <= DrainRank(s.runs[id])
  {
    if action.Start? || action.promptId != id {
      NextKeepsOthers(s, action, id);
    } else {
      NextCommits(s, action);
      StoppedIsTerminal(s.runs[id]);
      TerminalOnlyAdvances(s, action, id);
      if IsOwnSegment(s, action, id) {
        SegmentDrains(s.runs[id], action.segment);
        CommitTouchesOneRun(s, id, RunStep(s.runs[id], action.segment));
      }
    }
  }

  // How many segments of this prompt's own loop take place among later actions.
  function OwnSegments(limit: int, actions: seq<Action>, later: seq<Action>, id: string): nat {
    if later == [] then 0
    else
      var init, last := later[..|later| - 1], later[|later| - 1];
      OwnSegments(limit, actions, init, id)
      + (if IsOwnSegment(Execute(limit, actions + init), last, id) then 1 else 0)
  }

  ghost predicate Drained(run: Run, later: Run, segments: nat) {
    later.stopAccepted && DrainRank(later) + segments <= DrainRank(run)
  }

  lemma OneMoreActionDrains(limit: int, actions: seq<Action>, action: Action, id: string)
    requires id in Execute(limit, actions).runs && Execute(limit, actions).runs[id].stopAccepted
    ensures id in Execute(limit, actions + [action]).runs
    ensures Drained(Execute(limit, actions).runs[id], Execute(limit, actions + [action]).runs[id],
                    if IsOwnSegment(Execute(limit, actions), action, id) then 1 else 0)
  {
    ExecuteStep(limit, actions, action);
    ReachableInv(limit, actions);
    NextDrains(Execute(limit, actions), action, id);
  }

  lemma OwnSegmentsStep(limit: int, actions: seq<Action>, init: seq<Action>, last: Action, id: string)
    ensures OwnSegments(limit, actions, init + [last], id)
      == OwnSegments(limit, actions, init, id) + if IsOwnSegment(Execute(limit, actions + init), last, id) then 1 else 0
  {
    assert (init + [last])[..|init|] == init;
  }

  // The later actions leave the prompt stopped, and its own segments among them use up its rank.
  ghost predicate DrainedBy(limit: int, actions: seq<Action>, later: seq<Action>, id: string) {
    && id in Execute(limit, actions).runs && id in Execute(limit, actions + later).runs
    && Drained(Execute(limit, actions).runs[id], Execute(limit, actions + later).runs[id],
               OwnSegments(limit, actions, later, id))
  }

  lemma DrainsOneMore(limit: int, actions: seq<Action>, init: seq<Action>, last: Action, id: string)
    requires DrainedBy(limit, actions, init, id)
    ensures DrainedBy(limit, actions, init + [last], id)
  {
    OneMoreActionDrains(limit, actions + init, last, id);
    assert (actions + init) + [last] == actions + (init + [last]);
    OwnSegmentsStep(limit, actions, init, last, id);
  }

  lemma {:induction false} StoppedRunsOnlyDrain(limit: int, actions: seq<Action>, later: seq<Action>, id: string)
    requires id in Execute(limit, actions).runs && Execute(limit, actions).runs[id].stopAccepted
    ensures DrainedBy(limit, actions, later, id)
  {
    if later == [] {
      assert actions + later == actions;
    } else {
      var init, last := later[..|later| - 1], later[|later| - 1];
      StoppedRunsOnlyDrain(limit, actions, init, id);
      DrainsOneMore(limit, actions, init, last, id);
      assert init + [last] == later;
    }
  }

  lemma StoppedRunsReportIt(run: Run)
    requires RunInv(run) && run.stopAccepted && run.ended
    ensures run.trace != [] && run.trace[|run.trace| - 1] == StoppedMark(run)
  {
    TraceParts(run);
    var mark := EndMark(run);
    assert EndFits(run, mark) && run.trace[|run.trace| - 1] == mark[|mark| - 1];
  }

  // After an accepted stop, in every continuation of the interleaving, the prompt's loop takes at most two more
  // segments, and once it has taken them, or any that end it, it has ended with `stopped` as its last event.
  lemma StoppedRunsDrain(limit: int, actions: seq<Action>, later: seq<Action>, id: string)
    requires id in Execute(limit, actions).runs && Execute(limit, actions).runs[id].stopAccepted
    ensures id in Execute(limit, actions + later).runs
    ensures var run, segments := Execute(limit, actions + later).runs[id], OwnSegments(limit, actions, later, id);
      && segments <= DrainRank(Execute(limit, actions).runs[id]) <= 2
      && (segments == DrainRank(Execute(limit, actions).runs[id]) ==> run.ended)
      && (run.ended ==> run.trace != [] && run.trace[|run.trace| - 1] == StoppedMark(run))
  {
    StoppedRunsOnlyDrain(limit, actions, later, id);
    ReachableInv(limit, actions + later);
    if Execute(limit, actions + later).runs[id].ended {
      StoppedRunsReportIt(Execute(limit, actions + later).runs[id]);
    }
  }

  // ---- The saved turn ----

  predicate IsSave(obs: Obs) {
    obs.Began? && obs.call.SaveCall?
  }

  // Nothing in a stretch of history has to do with saving or answering.
  predicate SaveFree(trace: seq<Obs>) {
    forall i :: 0 <= i < |trace| ==>
      !IsSave(trace[i]) && trace[i] != Saved && (trace[i].Emitted? ==> !trace[i].event.AnswerEvent?)
  }

  lemma RoundNeverSaves(list: ModelList, seen: seq<Message>, round: Round)
    requires RoundServed(list, round)
    ensures SaveFree(RoundTrace(seen, round))
  {
    if round.Ran? {
      ServedIsToolOrRead(list, round.ask, round.call);
    }
    RoundTraceIsSaveFree(seen, round);
  }

  lemma RoundTraceIsSaveFree(seen: seq<Message>, round: Round)
    requires round.Ran? ==> !round.call.SaveCall?
    ensures SaveFree(RoundTrace(seen, round))
  {
  }

  lemma {:induction false} RoundsNeverSave(list: ModelList, seed: seq<Message>, rounds: seq<Round>)
    requires forall k :: 0 <= k < |rounds| ==> RoundServed(list, rounds[k])
    ensures SaveFree(RoundsTrace(seed, rounds))
  {
    if rounds != [] {
      var init, last := rounds[..|rounds| - 1], rounds[|rounds| - 1];
      RoundsNeverSave(list, seed, init);
      RoundNeverSaves(list, MessagesAfter(seed, init), last);
    }
  }

  // The one turn a prompt may save.
  function SaveObs(run: Run): Obs
    requires run.pc.Saving?
  {
    Began(SaveCall(run.conversationId, run.prompt, run.pc.content, run.pc.finishedAt))
  }

  // The history before the save, if the run is parked at one.
  function BeforeSave(run: Run): seq<Obs> {
    Opening(run.pc) + RoundsTrace(run.seed, run.rounds) + BeforeSaveOpen(run)
  }

  function BeforeSaveOpen(run: Run): seq<Obs> {
    if run.pc.Saving? then [Began(ModelCall(run.messages))] else OpenTrace(run.pc, run.messages, run)
  }

  function SaveMark(run: Run): seq<Obs> {
    if run.pc.Saving? then [SaveObs(run)] else []
  }

  lemma StorySplitsAtSave(run: Run)
    ensures Story(run) == BeforeSave(run) + SaveMark(run) + StopMark(run)
  {
    var before := Opening(run.pc) + RoundsTrace(run.seed, run.rounds);
    if run.pc.Saving? {
      var model := [Began(ModelCall(run.messages))];
      assert OpenTrace(run.pc, run.messages, run) == model + [SaveObs(run)];
      assert before + (model + [SaveObs(run)]) == before + model + [SaveObs(run)];
    } else {
      assert BeforeSave(run) + [] == BeforeSave(run);
    }
  }

  lemma SaveFreeConcat(a: seq<Obs>, b: seq<Obs>)
    requires SaveFree(a) && SaveFree(b)
    ensures SaveFree(a + b)
  {
  }

  lemma CallNeverSaves(list: ModelList, seen: seq<Message>, ask: Ask, call: Call)
    requires CallServes(list, ask, call)
    ensures SaveFree(PermittedTrace(seen, ask) + [Began(call)])
  {
    ServedIsToolOrRead(list, ask, call);
  }

  lemma OpenNeverSaves(list: ModelList, run: Run)
    requires PcServed(list, run.pc) && !run.pc.Saving?
    ensures SaveFree(OpenTrace(run.pc, run.messages, run))
  {
    if run.pc.Running? || run.pc.Returned? {
      CallNeverSaves(list, run.messages, run.pc.ask, run.pc.call);
    }
  }

  lemma NoEarlierSave(run: Run)
    requires RunInv(run) && ServedInv(run)
    ensures SaveFree(BeforeSave(run))
  {
    if run.list.None? {
      assert run.rounds == [] && PcServed(ListOf(run), run.pc);
    }
    ServedNeverSaves(ListOf(run), run);
  }

  lemma ServedNeverSaves(list: ModelList, run: Run)
    requires PcServed(list, run.pc)
    requires forall k :: 0 <= k < |run.rounds| ==> RoundServed(list, run.rounds[k])
    ensures SaveFree(BeforeSave(run))
  {
    var opening, rounds := Opening(run.pc), RoundsTrace(run.seed, run.rounds);
    RoundsNeverSave(list, run.seed, run.rounds);
    SaveFreeConcat(opening, rounds);
    CurrentNeverSaves(list, run);
    SaveFreeConcat(opening + rounds, BeforeSaveOpen(run));
  }

  lemma CurrentNeverSaves(list: ModelList, run: Run)
    requires PcServed(list, run.pc)
    ensures SaveFree(BeforeSaveOpen(run))
  {
    if !run.pc.Saving? {
      OpenNeverSaves(list, run);
    }
  }

  predicate OneSave(trace: seq<Obs>) {
    forall i, j :: 0 <= i < |trace| && 0 <= j < |trace| && IsSave(trace[i]) && IsSave(trace[j]) ==> i == j
  }

  predicate IsAnswer(obs: Obs) {
    obs.Emitted? && obs.event.AnswerEvent?
  }

  // An `answer` is the last entry, behind `answering` and a save of the same content that has returned.
  predicate AnswersFollowSave(run: Run) {
    var trace := run.trace;
    forall i :: 0 <= i < |trace| && IsAnswer(trace[i]) ==>
      && i == |trace| - 1 && i >= 3
      && trace[i - 3] == Began(SaveCall(run.conversationId, run.prompt, trace[i].event.content, trace[i].event.finishedAt))
      && trace[i - 2] == Saved
  }

  // A prompt begins at most one save. An `answer` event stands behind a save of the same content that returned, and a
  // save that returned leads to `answer` unless the prompt was stopped while it ran.
  ghost predicate SavesOnce(run: Run) {
    && OneSave(run.trace)
    && AnswersFollowSave(run)
    && (Saved in run.trace ==> run.ended && (run.phase == HasAnswered || run.stopAccepted))
  }

  // A save-free stretch, perhaps a save, and then no more saves.
  lemma OneSaveByParts(before: seq<Obs>, save: seq<Obs>, after: seq<Obs>)
    requires SaveFree(before) && |save| <= 1
    requires forall k :: 0 <= k < |after| ==> !IsSave(after[k])
    ensures OneSave(before + save + after)
  {
    var trace := before + save + after;
    assert forall i :: 0 <= i < |before| ==> trace[i] == before[i];
    assert forall i :: |before| + |save| <= i < |trace| ==> trace[i] == after[i - |before| - |save|];
  }

  // Saving shows, and answers are emitted, only in the last segment.
  lemma StoryHidesSaving(run: Run, i: nat)
    requires RunInv(run) && ServedInv(run) && i < |Story(run)|
    ensures Story(run)[i] != Saved && !IsAnswer(Story(run)[i])
  {
    NoEarlierSave(run);
    StorySplitsAtSave(run);
    var before := BeforeSave(run);
    if i < |before| {
      assert Story(run)[i] == before[i];
    }
  }

  // The last four entries of an answered prompt.
  lemma AnsweredEnd(run: Run)
    requires RunInv(run) && run.ended && run.phase == HasAnswered
    ensures |run.trace| >= 4 && |EndMark(run)| == 3
    ensures var n := |run.trace|;
      && run.trace[n - 4] == SaveObs(run)
      && run.trace[n - 3] == Saved
      && run.trace[n - 2] == Emitted(AnsweringEvent)
      && run.trace[n - 1].Emitted? && run.trace[n - 1].event.AnswerEvent?
      && run.trace[n - 1].event.content == run.pc.content && run.trace[n - 1].event.finishedAt == run.pc.finishedAt
  {
    StorySplitsAtSave(run);
    var story, mark := Story(run), EndMark(run);
    assert run.trace == story + mark;
    assert story == BeforeSave(run) + [SaveObs(run)];
    assert EndFits(run, mark);
  }

  // A prompt that ended otherwise emitted no answer, and its save returned only if it was stopped.
  lemma UnansweredEnd(run: Run)
    requires RunInv(run) && run.ended && run.phase != HasAnswered
    ensures forall k :: 0 <= k < |EndMark(run)| ==>
      (EndMark(run)[k].Emitted? ==> !EndMark(run)[k].event.AnswerEvent?) && (EndMark(run)[k] == Saved ==> run.stopAccepted)
  {
    assert EndFits(run, EndMark(run));
  }

  lemma LastSegmentBeginsNothing(run: Run)
    requires RunInv(run) && run.ended
    ensures var after := StopMark(run) + EndMark(run); forall k :: 0 <= k < |after| ==> !IsSave(after[k])
  {
    TraceParts(run);
  }

  lemma TraceSplitsAtSave(run: Run)
    requires RunInv(run) && run.ended
    ensures run.trace == BeforeSave(run) + SaveMark(run) + (StopMark(run) + EndMark(run))
  {
    StorySplitsAtSave(run);
    TraceParts(run);
    FourParts(BeforeSave(run), SaveMark(run), StopMark(run), EndMark(run));
  }

  lemma FourParts(a: seq<Obs>, b: seq<Obs>, c: seq<Obs>, d: seq<Obs>)
    ensures (a + b + c) + d == a + b + (c + d)
  {
  }

  lemma EndedRunHasOneSave(run: Run)
    requires RunInv(run) && ServedInv(run) && run.ended
    ensures OneSave(run.trace)
  {
    NoEarlierSave(run);
    LastSegmentBeginsNothing(run);
    OneSaveByParts(BeforeSave(run), SaveMark(run), StopMark(run) + EndMark(run));
    TraceSplitsAtSave(run);
  }

  lemma EntryOfEnd(run: Run, i: nat)
    requires RunInv(run) && ServedInv(run) && run.ended
    requires i < |run.trace| && (run.trace[i] == Saved || IsAnswer(run.trace[i]))
    ensures i >= |Story(run)| && run.trace[i] == EndMark(run)[i - |Story(run)|]
  {
    TraceParts(run);
    if i < |Story(run)| {
      StoryHidesSaving(run, i);
    }
  }

  lemma AnswerComesLast(run: Run, i: nat)
    requires RunInv(run) && ServedInv(run) && run.ended && i < |run.trace| && IsAnswer(run.trace[i])
    ensures run.phase == HasAnswered && i == |run.trace| - 1
  {
    EntryOfEnd(run, i);
    if run.phase != HasAnswered {
      UnansweredEnd(run);
    } else {
      assert EndFits(run, EndMark(run));
    }
  }

  lemma EndedAnswersFollowSave(run: Run)
    requires RunInv(run) && ServedInv(run) && run.ended
    ensures AnswersFollowSave(run)
  {
    forall i | 0 <= i < |run.trace| && IsAnswer(run.trace[i])
      ensures run.phase == HasAnswered && i == |run.trace| - 1
    {
      AnswerComesLast(run, i);
    }
    if run.phase == HasAnswered {
      AnsweredEnd(run);
    }
  }

  lemma EndedRunSavesOnce(run: Run)
    requires RunInv(run) && ServedInv(run) && run.ended
    ensures SavesOnce(run)
  {
    EndedRunHasOneSave(run);
    EndedAnswersFollowSave(run);
    if Saved in run.trace && run.phase != HasAnswered {
      var i :| 0 <= i < |run.trace| && run.trace[i] == Saved;
      EntryOfEnd(run, i);
      UnansweredEnd(run);
    }
  }

  lemma OpenRunSavesOnce(run: Run)
    requires RunInv(run) && ServedInv(run) && !run.ended
    ensures SavesOnce(run)
  {
    NoEarlierSave(run);
    StorySplitsAtSave(run);
    OneSaveByParts(BeforeSave(run), SaveMark(run), StopMark(run));
    forall i | 0 <= i < |run.trace|
      ensures run.trace[i] != Saved && !IsAnswer(run.trace[i])
    {
      StoryHidesSaving(run, i);
    }
  }

  lemma RunSavesOnce(run: Run)
    requires RunInv(run) && ServedInv(run)
    ensures SavesOnce(run)
  {
    if run.ended {
      EndedRunSavesOnce(run);
    } else {
      OpenRunSavesOnce(run);
    }
  }

  // In every interleaving a prompt saves at most one turn, and answers exactly with what it saved.
  lemma EveryPromptSavesOnce(limit: int, actions: seq<Action>, id: string)
    requires id in Execute(limit, actions).runs
    ensures SavesOnce(Execute(limit, actions).runs[id])
  {
    ReachableInv(limit, actions);
    ReachableServed(limit, actions);
    RunSavesOnce(Execute(limit, actions).runs[id]);
  }

  predicate ShowsSave(trace: seq<Obs>) {
    exists i :: 0 <= i < |trace| && IsSave(trace[i])
  }

  lemma ParkedSaveShows(run: Run)
    requires RunInv(run) && run.pc.Saving?
    ensures ShowsSave(run.trace)
  {
    StorySplitsAtSave(run);
    TraceParts(run);
    var i := |BeforeSave(run)|;
    assert Story(run)[i] == SaveObs(run);
    assert run.trace[i] == SaveObs(run);
  }

  lemma OnlyParkedSaveShows(run: Run, i: nat)
    requires RunInv(run) && ServedInv(run) && i < |run.trace| && IsSave(run.trace[i])
    ensures run.pc.Saving?
  {
    if !run.pc.Saving? {
      NoEarlierSave(run);
      if run.ended {
        TraceSplitsAtSave(run);
        LastSegmentBeginsNothing(run);
      } else {
        StorySplitsAtSave(run);
      }
      NoSaveByParts(BeforeSave(run), StopMark(run) + if run.ended then EndMark(run) else []);
    }
  }

  lemma NoSaveByParts(before: seq<Obs>, after: seq<Obs>)
    requires SaveFree(before) && forall k :: 0 <= k < |after| ==> !IsSave(after[k])
    ensures !ShowsSave(before + after)
  {
  }

  // A run's record after the segment that began its save.
  predicate BeginsSave(run: Run, next: Run, entry: Obs) {
    next.phase == Answering && next.trace == run.trace + [entry]
  }

  lemma EndingKeepsPlace(run: Run, failure: Failure)
    ensures EmitStopped(run).pc == run.pc && Fail(run, failure).pc == run.pc
  {
  }

  lemma AnswerBeginsSave(run: Run, content: string, now: string)
    ensures var parked := run.(phase := Answering, pc := Saving(content, now));
      var save := Began(SaveCall(run.conversationId, run.prompt, content, now));
      BeginsSave(run, Log(parked, [save]), save)
  {
  }

  lemma StepBeginsSave(run: Run, message: ProviderMessage, now: string, next: Run)
    requires next == TakeStep(run, message, now) && next.pc.Saving? && !run.pc.Saving?
    ensures BeginsSave(run, next, SaveObs(next))
  {
    match Interpret(message, LookupOf(Listings(ListOf(run))))
    case Err(reason) => EndingKeepsPlace(run, BadCompletion(reason));
    case Ok(step) =>
      EndingKeepsPlace(run, UnknownResource);
      if step.Answered? {
        AnswerBeginsSave(run, step.content, now);
      }
  }

  lemma LoopTopParksNoSave(run: Run)
    requires !run.pc.Saving?
    ensures !LoopTop(run).pc.Saving?
  {
  }

  lemma CallingParksNoSave(run: Run, ask: Ask, resolved: Option<string>)
    ensures !PerformCall(run, ask, resolved).pc.Saving?
  {
  }

  lemma RefusingParksNoSave(run: Run, ask: Ask)
    requires !run.pc.Saving?
    ensures !LoopTop(RecordRefusal(run, ask).(phase := Selecting)).pc.Saving?
  {
    LoopTopParksNoSave(RecordRefusal(run, ask).(phase := Selecting));
  }

  lemma ResumingParksNoSave(run: Run, resolved: Option<string>)
    requires run.pc.Resumable?
    ensures !ResumeAsk(run, resolved).pc.Saving?
  {
    EndingKeepsPlace(run, UnknownResource);
    RefusingParksNoSave(run, run.pc.ask);
    CallingParksNoSave(run, run.pc.ask, resolved);
  }

  lemma ListParksNoSave(run: Run, list: ModelList)
    requires !run.pc.Saving?
    ensures !TakeList(run, list).pc.Saving?
  {
    EndingKeepsPlace(run, UnknownResource);
    LoopTopParksNoSave(run.(list := Some(list), wireList := Some(list)));
  }

  lemma LoopParksNoSave(run: Run)
    requires !run.pc.Saving?
    ensures !ResumeLoop(run).pc.Saving?
  {
    EndingKeepsPlace(run, UnknownResource);
    LoopTopParksNoSave(run.(phase := Selecting));
  }

  lemma BeginningParksNoSave(run: Run)
    requires !run.pc.Saving?
    ensures !BeginRun(run).pc.Saving?
  {
    EndingKeepsPlace(run, UnknownResource);
  }

  lemma ReplyParksNoSave(run: Run, reply: Reply)
    requires run.pc.Running?
    ensures !TakeReply(run, reply).pc.Saving?
  {
  }

  lemma OnlyAnswersBeginSaves(run: Run, segment: Segment)
    requires Enabled(run, segment) && !run.pc.Saving? && !segment.StepReturned?
    ensures !RunStep(run, segment).pc.Saving?
  {
    match segment
    case Begin => BeginningParksNoSave(run);
    case ListReturned(list) => ListParksNoSave(run, list);
    case AskResumed(resolved) => ResumingParksNoSave(run, resolved);
    case CallReturned(reply) => ReplyParksNoSave(run, reply);
    case LoopResumed => LoopParksNoSave(run);
    case Threw(failure) => EndingKeepsPlace(run, failure);
    case Unwound => EndingKeepsPlace(run, run.pc.failure);
  }

  lemma SegmentBeginsSave(run: Run, segment: Segment)
    requires Enabled(run, segment) && !run.pc.Saving? && RunStep(run, segment).pc.Saving?
    ensures BeginsSave(run, RunStep(run, segment), SaveObs(RunStep(run, segment)))
  {
    if !segment.StepReturned? {
      OnlyAnswersBeginSaves(run, segment);
    } else {
      StepBeginsSave(run, segment.message, segment.now, RunStep(run, segment));
    }
  }

  // Entry `i` of a history was there before, or is the save that has just begun.
  predicate SaveIsNew(run: Run, next: Run, i: nat)
    requires i < |next.trace|
  {
    if i < |run.trace| then run.trace[i] == next.trace[i]
    else i == |run.trace| && BeginsSave(run, next, next.trace[i])
  }

  lemma OnlyOneSave(earlier: seq<Obs>, later: seq<Obs>, i: nat)
    requires earlier <= later && ShowsSave(earlier) && OneSave(later) && i < |later| && IsSave(later[i])
    ensures i < |earlier| && earlier[i] == later[i]
  {
    var j :| 0 <= j < |earlier| && IsSave(earlier[j]);
    assert later[j] == earlier[j];
  }

  // A save that a segment adds to a history is its last entry.
  lemma SegmentSaveIsNew(run: Run, segment: Segment, i: nat)
    requires RunInv(run) && Enabled(run, segment) && RunInv(RunStep(run, segment)) && ServedInv(RunStep(run, segment))
    requires i < |RunStep(run, segment).trace| && IsSave(RunStep(run, segment).trace[i])
    ensures SaveIsNew(run, RunStep(run, segment), i)
  {
    var next := RunStep(run, segment);
    SegmentSettlesNothing(run, segment);
    RunSavesOnce(next);
    if run.pc.Saving? {
      ParkedSaveShows(run);
      OnlyOneSave(run.trace, next.trace, i);
    } else {
      OnlyParkedSaveShows(next, i);
      SegmentBeginsSave(run, segment);
      assert IsSave(next.trace[|run.trace|]);
    }
  }

  lemma SettleBeginsNoSave(run: Run, decision: Decision, i: nat)
    requires run.pending.Some? && decision != StopAsk
    requires i < |SettleRun(run, decision).trace| && IsSave(SettleRun(run, decision).trace[i])
    ensures SaveIsNew(run, SettleRun(run, decision), i)
  {
  }

  lemma StopBeginsNoSave(run: Run, i: nat)
    requires i < |StopRun(run).trace| && IsSave(StopRun(run).trace[i])
    ensures SaveIsNew(run, StopRun(run), i)
  {
  }

  lemma UserBeginsNoSave(s: State, action: Action, i: nat)
    requires (action.Settle? || action.Stop?) && action.promptId in s.runs && Changed(s, action).Some?
    requires i < |Changed(s, action).value.trace| && IsSave(Changed(s, action).value.trace[i])
    ensures SaveIsNew(s.runs[action.promptId], Changed(s, action).value, i)
  {
    var run := s.runs[action.promptId];
    if action.Settle? {
      SettleBeginsNoSave(run, action.decision, i);
    } else {
      StopBeginsNoSave(run, i);
    }
  }

  lemma NextBeginsSave(s: State, action: Action, id: string, i: nat)
    requires Inv(s) && AllServed(Next(s, action)) && id in Next(s, action).runs
    requires i < |Next(s, action).runs[id].trace| && IsSave(Next(s, action).runs[id].trace[i])
    ensures id in s.runs && SaveIsNew(s.runs[id], Next(s, action).runs[id], i)
  {
    if id !in s.runs {
      NewRunsAreBlank(s, action, id);
    } else if action.Start? || action.promptId != id {
      NextKeepsOthers(s, action, id);
    } else {
      NextCommits(s, action);
      if Changed(s, action).Some? {
        ChangedFollows(s, action);
        CommitTouchesOneRun(s, id, Changed(s, action).value);
        if action.Advance? {
          SegmentSaveIsNew(s.runs[id], action.segment, i);
        } else {
          UserBeginsNoSave(s, action, i);
        }
      }
    }
  }

  // Entry `i` of a prompt's history is a save that began with action `k`, as its last entry, in the phase `answering`.
  ghost predicate SaveBegunBy(limit: int, actions: seq<Action>, id: string, i: nat, k: nat, entry: Obs) {
    && k < |actions|
    && var s, next := Execute(limit, actions[..k]), Execute(limit, actions[..k + 1]);
       && id in s.runs && id in next.runs && |s.runs[id].trace| == i
       && BeginsSave(s.runs[id], next.runs[id], entry)
  }

  lemma SaveBegunByStays(limit: int, actions: seq<Action>, id: string, i: nat, k: nat, entry: Obs)
    requires actions != [] && SaveBegunBy(limit, actions[..|actions| - 1], id, i, k, entry)
    ensures SaveBegunBy(limit, actions, id, i, k, entry)
  {
    assert actions[..|actions| - 1][..k] == actions[..k];
    assert actions[..|actions| - 1][..k + 1] == actions[..k + 1];
  }

  lemma LastActionBeginsSave(limit: int, actions: seq<Action>, id: string, i: nat)
    requires actions != [] && id in Execute(limit, actions).runs
    requires i < |Execute(limit, actions).runs[id].trace| && IsSave(Execute(limit, actions).runs[id].trace[i])
    ensures var earlier := Execute(limit, actions[..|actions| - 1]);
      id in earlier.runs && SaveIsNew(earlier.runs[id], Execute(limit, actions).runs[id], i)
  {
    var earlier := actions[..|actions| - 1];
    ReachableInv(limit, earlier);
    ReachableServed(limit, actions);
    NextBeginsSave(Execute(limit, earlier), actions[|actions| - 1], id, i);
  }

  // In every interleaving a prompt's save begins only in the phase `answering`.
  lemma {:induction false} SavesBeginWhileAnswering(limit: int, actions: seq<Action>, id: string, i: nat)
      returns (k: nat)
    requires id in Execute(limit, actions).runs
    requires i < |Execute(limit, actions).runs[id].trace| && IsSave(Execute(limit, actions).runs[id].trace[i])
    ensures SaveBegunBy(limit, actions, id, i, k, Execute(limit, actions).runs[id].trace[i])
  {
    LastActionBeginsSave(limit, actions, id, i);
    var earlier := actions[..|actions| - 1];
    if i < |Execute(limit, earlier).runs[id].trace| {
      k := SavesBeginWhileAnswering(limit, earlier, id, i);
      SaveBegunByStays(limit, actions, id, i, k, Execute(limit, actions).runs[id].trace[i]);
    } else {
      k := |earlier|;
      assert actions[..k + 1] == actions;
    }
  }
}
