// One inductive invariant of the prompt protocol: a prompt's whole history is determined by its finished rounds,
// the place where its step loop is parked, and whether a stop was accepted.
module PromptInvariant {
  import opened Wrappers
  import opened Seqs
  import opened Catalog
  import opened Gateway
  import opened PromptRecord
  import opened PromptProtocol

  // ---- History as a function of the rounds ----

  function OutcomeMessage(round: Round): Message {
    match round
    case Declined(ask) => Message(RoleOf(ask.item.kind), RefusalContent(ask.item.kind))
    case Ran(_, _, reply) => Message(ReplyRole(reply), ReplyContent(reply))
  }

  // The seed and one message a round: what the model sees next.
  function MessagesAfter(seed: seq<Message>, rounds: seq<Round>): (messages: seq<Message>)
    ensures |messages| == |seed| + |rounds|
  {
    if rounds == [] then seed
    else MessagesAfter(seed, rounds[..|rounds| - 1]) + [OutcomeMessage(rounds[|rounds| - 1])]
  }

  // The items that ran, refusals left out.
  function RanItems(rounds: seq<Round>): seq<Selection> {
    if rounds == [] then []
    else
      var earlier := RanItems(rounds[..|rounds| - 1]);
      match rounds[|rounds| - 1]
      case Ran(ask, _, _) => earlier + [ask.item]
      case Declined(_) => earlier
  }

  // From the model call that sees `seen` to the open ask.
  function AskTrace(seen: seq<Message>, ask: Ask): seq<Obs> {
    [Began(ModelCall(seen)), Emitted(PermissionEvent(ask))]
  }

  function PermittedTrace(seen: seq<Message>, ask: Ask): seq<Obs> {
    AskTrace(seen, ask) + [Settled(Permit, ask.item), Emitted(CallEvent(Processing, ask))]
  }

  function RoundTrace(seen: seq<Message>, round: Round): seq<Obs> {
    match round
    case Declined(ask) => AskTrace(seen, ask) + [Settled(Refuse, ask.item), Emitted(CallEvent(Refused, ask))]
    case Ran(ask, call, reply) =>
      PermittedTrace(seen, ask) + [Began(call), Emitted(CallEvent(ReplyStatus(reply), ask))]
  }

  function RoundsTrace(seed: seq<Message>, rounds: seq<Round>): seq<Obs> {
    if rounds == [] then []
    else
      var earlier := rounds[..|rounds| - 1];
      RoundsTrace(seed, earlier) + RoundTrace(MessagesAfter(seed, earlier), rounds[|rounds| - 1])
  }

  // What happened since the last finished round, by the place where the loop is parked.
  function OpenTrace(pc: Pc, seen: seq<Message>, run: Run): seq<Obs> {
    match pc
    case Scheduled => []
    case FetchingList => []
    case Stepping => [Began(ModelCall(seen))]
    case Asking(ask) => AskTrace(seen, ask)
    case Resumable(ask, decision) =>
      AskTrace(seen, ask) + if decision == StopAsk then [] else [Settled(decision, ask.item)]
    case Running(ask, call) => PermittedTrace(seen, ask) + [Began(call)]
    case Recorded => []
    case Returned(ask, call) => PermittedTrace(seen, ask) + [Began(call)]
    case Throwing(_, None) => []
    case Throwing(_, Some(ask)) => PermittedTrace(seen, ask)
    case Saving(content, finishedAt) =>
      [Began(ModelCall(seen)), Began(SaveCall(run.conversationId, run.prompt, content, finishedAt))]
  }

  function Opening(pc: Pc): seq<Obs> {
    if pc.Scheduled? then [] else [Emitted(SelectingEvent), Began(ListCall)]
  }

  function StopMark(run: Run): seq<Obs> {
    if run.stopAccepted then [StopAccepted] else []
  }

  // The whole history of a prompt up to its last event.
  function Story(run: Run): seq<Obs> {
    Opening(run.pc) + RoundsTrace(run.seed, run.rounds) + OpenTrace(run.pc, run.messages, run) + StopMark(run)
  }

  // ---- The invariant of one run ----

  // The phase of a loop parked at `pc` that nobody has stopped.
  function PhaseAt(pc: Pc): Phase {
    match pc
    case Asking(_) => AwaitingPermission
    case Resumable(_, decision) => if decision == Permit then Calling else AwaitingPermission
    case Running(_, _) => Calling
    case Recorded => Calling
    case Throwing(_, Some(_)) => Calling
    case Saving(_, _) => Answering
    case _ => Selecting
  }

  // Only a stop leaves the loop at these places.
  predicate OnlyWhenStopped(pc: Pc) {
    pc.Returned? || (pc.Resumable? && pc.decision == StopAsk)
  }

  // An await or a throw here can fail.
  predicate CanThrow(pc: Pc) {
    pc.FetchingList? || pc.Stepping? || pc.Running? || pc.Throwing? || pc.Saving?
  }

  predicate PhaseFits(run: Run) {
    if run.stopAccepted then run.phase == PromptProtocol.Phase.Stopped && !run.pc.Asking?
    else run.phase == PhaseAt(run.pc) && !OnlyWhenStopped(run.pc)
  }

  function StoppedMark(run: Run): Obs {
    Emitted(StoppedEvent(run.messages, run.wireList))
  }

  // What follows the story of a loop that has returned.
  predicate EndFits(run: Run, mark: seq<Obs>) {
    match run.phase
    case Stopped =>
      if run.stopAccepted then
        && !run.pc.Asking?
        && (mark == [StoppedMark(run)] || (run.pc.Saving? && mark == [Saved, StoppedMark(run)]))
      else CanThrow(run.pc) && mark == [StoppedMark(run)]
    case HasFailed =>
      !run.stopAccepted && CanThrow(run.pc)
      && |mark| == 1 && mark[0].Emitted? && mark[0].event.ErrorEvent?
      && mark[0].event.messages == run.messages && mark[0].event.wireList == run.wireList
    case HasAnswered =>
      !run.stopAccepted && run.pc.Saving?
      && mark == [Saved, Emitted(AnsweringEvent),
                  Emitted(AnswerEvent(run.pc.content, run.startedAt, run.pc.finishedAt, DomainsOf(run.used),
                                      run.wireList, run.messages))]
    case _ => false
  }

  predicate ListFits(run: Run) {
    && run.wireList == run.list
    && (run.pc.Scheduled? || run.pc.FetchingList? ==> run.list.None?)
    && (!run.pc.Scheduled? && !run.pc.FetchingList? ==> run.list.Some?)
    && (run.list.Some? && CatalogOf(run.list.value).Err? ==> run.pc.Throwing?)
  }

  predicate EndMarkFits(run: Run) {
    && Story(run) <= run.trace
    && EndFits(run, run.trace[|Story(run)|..])
  }

  predicate RunInv(run: Run) {
    && run.messages == MessagesAfter(run.seed, run.rounds)
    && run.used == FirstSeen(RanItems(run.rounds))
    && run.terminalEventSent == run.ended
    && run.aborted == run.stopAccepted
    && run.pending == (if run.pc.Asking? then Some(run.pc.ask) else None)
    && (run.pc.Scheduled? || run.pc.FetchingList? ==> run.rounds == [])
    && ListFits(run)
    && if run.ended then EndMarkFits(run) else PhaseFits(run) && run.trace == Story(run)
  }

  // ---- Preservation ----

  lemma RoundsStep(seed: seq<Message>, rounds: seq<Round>, round: Round)
    ensures MessagesAfter(seed, rounds + [round]) == MessagesAfter(seed, rounds) + [OutcomeMessage(round)]
    ensures RoundsTrace(seed, rounds + [round]) == RoundsTrace(seed, rounds) + RoundTrace(MessagesAfter(seed, rounds), round)
    ensures RanItems(rounds + [round]) == RanItems(rounds) + if round.Ran? then [round.ask.item] else []
  {
    assert (rounds + [round])[..|rounds|] == rounds;
  }

  // A run whose loop is parked: the same history, extended by `more`.
  lemma EndsWell(run: Run, end: Run, mark: seq<Obs>)
    requires RunInv(run) && !run.ended
    requires end.pc == run.pc && end.stopAccepted == run.stopAccepted && end.rounds == run.rounds
    requires end.seed == run.seed && end.messages == run.messages
    requires end.conversationId == run.conversationId && end.prompt == run.prompt
    requires end.trace == run.trace + mark && EndFits(end, mark)
    ensures EndMarkFits(end)
  {
    assert Story(end) == Story(run);
    assert end.trace[|Story(end)|..] == mark;
  }

  // The loop moves on within a round: `more` happens.
  lemma StoryGrows(run: Run, next: Run, more: seq<Obs>)
    requires !run.stopAccepted && !next.stopAccepted && Opening(next.pc) == Opening(run.pc)
    requires next.seed == run.seed && next.rounds == run.rounds
    requires OpenTrace(next.pc, next.messages, next) == OpenTrace(run.pc, run.messages, run) + more
    ensures Story(next) == Story(run) + more
  {
  }

  // A round ends: its whole trace joins the finished rounds.
  lemma StoryCloses(run: Run, next: Run, round: Round, last: Obs)
    requires !run.stopAccepted && !next.stopAccepted && Opening(next.pc) == Opening(run.pc)
    requires next.seed == run.seed && next.rounds == run.rounds + [round]
    requires run.messages == MessagesAfter(run.seed, run.rounds)
    requires RoundTrace(run.messages, round) == OpenTrace(run.pc, run.messages, run) + [last]
    ensures Opening(next.pc) + RoundsTrace(next.seed, next.rounds) == Story(run) + [last]
  {
    RoundsStep(run.seed, run.rounds, round);
  }

  lemma StoppingKeepsInv(run: Run)
    requires RunInv(run) && !run.ended && (run.phase == PromptProtocol.Phase.Stopped || CanThrow(run.pc))
    ensures RunInv(End(EmitStopped(run)))
  {
    var end := End(EmitStopped(run));
    EndsWell(run, end, [StoppedMark(end)]);
  }

  lemma FailingKeepsInv(run: Run, failure: Failure)
    requires RunInv(run) && !run.ended && CanThrow(run.pc)
    ensures RunInv(End(Fail(run, failure)))
  {
    if IsAbort(failure) || run.phase == PromptProtocol.Phase.Stopped {
      StoppingKeepsInv(run);
    } else {
      var end := End(Fail(run, failure));
      EndsWell(run, end, [Emitted(ErrorEvent(failure, end.messages, end.wireList))]);
    }
  }

  lemma BeginKeepsInv(run: Run)
    requires RunInv(run) && Enabled(run, Begin)
    ensures RunInv(BeginRun(run))
  {
    if run.phase == PromptProtocol.Phase.Stopped {
      StoppingKeepsInv(run);
    } else {
      var next := BeginRun(run);
      assert next.trace == Story(next);
    }
  }

  // The loop top always finds the prompt being answered, so the `while` test never ends a run.
  lemma LoopTopKeepsInv(run: Run, top: Run)
    requires run.messages == MessagesAfter(run.seed, run.rounds)
    requires run.used == FirstSeen(RanItems(run.rounds))
    requires !run.terminalEventSent && !run.ended && !run.aborted && !run.stopAccepted && run.pending.None?
    requires run.phase == Selecting
    requires run.list.Some? && run.wireList == run.list && CatalogOf(run.list.value).Ok?
    requires run.trace == Opening(Stepping) + RoundsTrace(run.seed, run.rounds)
    requires top == LoopTop(run)
    ensures RunInv(top) && top.pc == Stepping && !top.ended
  {
    assert top.trace == Story(top);
  }

  lemma TakeListKeepsInv(run: Run, list: ModelList)
    requires RunInv(run) && Enabled(run, ListReturned(list))
    ensures RunInv(TakeList(run, list))
  {
    if run.phase == PromptProtocol.Phase.Stopped {
      StoppingKeepsInv(run);
    } else {
      var listed := run.(list := Some(list), wireList := Some(list));
      assert run.trace == Opening(Stepping) + RoundsTrace(run.seed, run.rounds);
      if CatalogOf(list).Ok? {
        LoopTopKeepsInv(listed, LoopTop(listed));
      } else {
        var next := TakeList(run, list);
        assert next.trace == Story(next);
      }
    }
  }

  lemma AnsweringKeepsInv(run: Run, content: string, now: string)
    requires RunInv(run) && !run.ended && run.pc.Stepping? && !run.stopAccepted
    ensures RunInv(Log(run.(phase := Answering, pc := Saving(content, now)),
                       [Began(SaveCall(run.conversationId, run.prompt, content, now))]))
  {
    var more := [Began(SaveCall(run.conversationId, run.prompt, content, now))];
    StoryGrows(run, Log(run.(phase := Answering, pc := Saving(content, now)), more), more);
  }

  lemma AskingKeepsInv(run: Run, ask: Ask)
    requires RunInv(run) && !run.ended && run.pc.Stepping? && !run.stopAccepted
    ensures RunInv(Log(run.(phase := AwaitingPermission, pending := Some(ask), pc := Asking(ask)),
                       [Emitted(PermissionEvent(ask))]))
  {
    var more := [Emitted(PermissionEvent(ask))];
    StoryGrows(run, Log(run.(phase := AwaitingPermission, pending := Some(ask), pc := Asking(ask)), more), more);
  }

  lemma TakeStepKeepsInv(run: Run, message: ProviderMessage, now: string)
    requires RunInv(run) && Enabled(run, StepReturned(message, now))
    ensures RunInv(TakeStep(run, message, now))
  {
    match Interpret(message, LookupOf(Listings(ListOf(run)))) {
      case Err(reason) =>
        FailingKeepsInv(run, BadCompletion(reason));
      case Ok(step) =>
        if run.phase == PromptProtocol.Phase.Stopped {
          StoppingKeepsInv(run);
        } else {
          match step
          case Answered(content) => AnsweringKeepsInv(run, content, now);
          case Selected(ask) => AskingKeepsInv(run, ask);
        }
    }
  }

  lemma DeclinedTrace(seen: seq<Message>, ask: Ask)
    ensures RoundTrace(seen, Declined(ask)) ==
      (AskTrace(seen, ask) + [Settled(Refuse, ask.item)]) + [Emitted(CallEvent(Refused, ask))]
  {
  }

  lemma RefusalKeepsInv(run: Run)
    requires RunInv(run) && !run.ended && run.pc.Resumable? && run.pc.decision == Refuse && !run.stopAccepted
    ensures RunInv(LoopTop(RecordRefusal(run, run.pc.ask).(phase := Selecting)))
  {
    var ask := run.pc.ask;
    var refused := RecordRefusal(run, ask).(phase := Selecting);
    RoundsStep(run.seed, run.rounds, Declined(ask));
    DeclinedTrace(run.messages, ask);
    StoryCloses(run, refused, Declined(ask), Emitted(CallEvent(Refused, ask)));
    LoopTopKeepsInv(refused, LoopTop(refused));
  }

  lemma CallBegins(run: Run, ask: Ask, call: Call)
    requires RunInv(run) && !run.ended && run.pc == Resumable(ask, Permit) && !run.stopAccepted
    ensures RunInv(Log(run.(phase := Calling, pending := None, pc := Running(ask, call)),
                       [Emitted(CallEvent(Processing, ask)), Began(call)]))
  {
    var more := [Emitted(CallEvent(Processing, ask)), Began(call)];
    StoryGrows(run, Log(run.(phase := Calling, pending := None, pc := Running(ask, call)), more), more);
  }

  lemma CallThrows(run: Run, ask: Ask, failure: Failure)
    requires RunInv(run) && !run.ended && run.pc == Resumable(ask, Permit) && !run.stopAccepted
    ensures RunInv(Log(run.(phase := Calling, pending := None, pc := Throwing(failure, Some(ask))),
                       [Emitted(CallEvent(Processing, ask))]))
  {
    var more := [Emitted(CallEvent(Processing, ask))];
    StoryGrows(run, Log(run.(phase := Calling, pending := None, pc := Throwing(failure, Some(ask))), more), more);
  }

  // Either way the processing event is logged first.
  lemma PerformCallCases(run: Run, ask: Ask, resolved: Option<string>)
    ensures PerformCall(run, ask, resolved) ==
      match CallFor(ListOf(run), ask, resolved)
      case Ok(call) =>
        Log(run.(phase := Calling, pending := None, pc := Running(ask, call)),
            [Emitted(CallEvent(Processing, ask)), Began(call)])
      case Err(failure) =>
        Log(run.(phase := Calling, pending := None, pc := Throwing(failure, Some(ask))),
            [Emitted(CallEvent(Processing, ask))])
  {
    match CallFor(ListOf(run), ask, resolved)
    case Ok(call) =>
      var processing := [Emitted(CallEvent(Processing, ask))];
      assert run.trace + processing + [Began(call)] == run.trace + (processing + [Began(call)]);
    case Err(_) =>
  }

  lemma CallingKeepsInv(run: Run, resolved: Option<string>)
    requires RunInv(run) && !run.ended && run.pc.Resumable? && run.pc.decision == Permit && !run.stopAccepted
    ensures RunInv(PerformCall(run, run.pc.ask, resolved))
  {
    PerformCallCases(run, run.pc.ask, resolved);
    match CallFor(ListOf(run), run.pc.ask, resolved)
    case Ok(call) => CallBegins(run, run.pc.ask, call);
    case Err(failure) => CallThrows(run, run.pc.ask, failure);
  }

  lemma ResumeAskKeepsInv(run: Run, resolved: Option<string>)
    requires RunInv(run) && Enabled(run, AskResumed(resolved))
    ensures RunInv(ResumeAsk(run, resolved))
  {
    if run.pc.decision == StopAsk || run.phase == PromptProtocol.Phase.Stopped {
      StoppingKeepsInv(run);
    } else if run.pc.decision == Refuse {
      RefusalKeepsInv(run);
    } else {
      CallingKeepsInv(run, resolved);
    }
  }

  lemma RanTrace(seen: seq<Message>, ask: Ask, call: Call, reply: Reply)
    ensures RoundTrace(seen, Ran(ask, call, reply)) ==
      (PermittedTrace(seen, ask) + [Began(call)]) + [Emitted(CallEvent(ReplyStatus(reply), ask))]
  {
  }

  lemma UseRecorded(rounds: seq<Round>, ask: Ask, call: Call, reply: Reply)
    ensures FirstSeen(RanItems(rounds + [Ran(ask, call, reply)])) == RecordUse(FirstSeen(RanItems(rounds)), ask.item)
  {
    RoundsStep([], rounds, Ran(ask, call, reply));
    FirstSeenStep(RanItems(rounds), ask.item);
  }

  // A loop parked after a round that it has just recorded.
  lemma RecordedKeepsInv(run: Run, next: Run, round: Round, last: Obs)
    requires RunInv(run) && !run.ended && run.pc.Running? && !run.stopAccepted
    requires RoundTrace(run.messages, round) == OpenTrace(run.pc, run.messages, run) + [last]
    requires next == run.(pc := Recorded, rounds := run.rounds + [round],
                          messages := run.messages + [OutcomeMessage(round)],
                          used := FirstSeen(RanItems(run.rounds + [round])),
                          trace := run.trace + [last])
    ensures RunInv(next)
  {
    RoundsStep(run.seed, run.rounds, round);
    StoryCloses(run, next, round, last);
    assert Story(next) == Opening(next.pc) + RoundsTrace(next.seed, next.rounds);
  }

  lemma ReplyKeepsInv(run: Run, reply: Reply)
    requires RunInv(run) && Enabled(run, CallReturned(reply)) && !run.stopAccepted
    ensures RunInv(TakeReply(run, reply))
  {
    var Running(ask, call) := run.pc;
    RanTrace(run.messages, ask, call, reply);
    UseRecorded(run.rounds, ask, call, reply);
    RecordedKeepsInv(run, TakeReply(run, reply), Ran(ask, call, reply), Emitted(CallEvent(ReplyStatus(reply), ask)));
  }

  lemma TakeReplyKeepsInv(run: Run, reply: Reply)
    requires RunInv(run) && Enabled(run, CallReturned(reply))
    ensures RunInv(TakeReply(run, reply))
  {
    if !run.stopAccepted {
      ReplyKeepsInv(run, reply);
    } else {
      assert Story(TakeReply(run, reply)) == Story(run);
    }
  }

  lemma ResumeLoopKeepsInv(run: Run)
    requires RunInv(run) && Enabled(run, LoopResumed)
    ensures RunInv(ResumeLoop(run))
  {
    if run.phase == PromptProtocol.Phase.Stopped {
      StoppingKeepsInv(run);
    } else {
      var selecting := run.(phase := Selecting);
      assert run.trace == Opening(Stepping) + RoundsTrace(run.seed, run.rounds);
      LoopTopKeepsInv(selecting, LoopTop(selecting));
    }
  }

  lemma StoppedSaveKeepsInv(run: Run)
    requires RunInv(run) && Enabled(run, SaveReturned) && run.phase == PromptProtocol.Phase.Stopped
    ensures RunInv(TakeSave(run))
  {
    var end := TakeSave(run);
    assert run.trace + [Saved] + [StoppedMark(end)] == run.trace + [Saved, StoppedMark(end)];
    EndsWell(run, end, [Saved, StoppedMark(end)]);
  }

  lemma AnsweredSaveKeepsInv(run: Run)
    requires RunInv(run) && Enabled(run, SaveReturned) && run.phase != PromptProtocol.Phase.Stopped
    ensures RunInv(TakeSave(run))
  {
    var mark := [Saved, Emitted(AnsweringEvent),
                 Emitted(AnswerEvent(run.pc.content, run.startedAt, run.pc.finishedAt, DomainsOf(run.used),
                                     run.wireList, run.messages))];
    assert run.trace + [Saved] + mark[1..] == run.trace + mark;
    EndsWell(run, TakeSave(run), mark);
  }

  lemma TakeSaveKeepsInv(run: Run)
    requires RunInv(run) && Enabled(run, SaveReturned)
    ensures RunInv(TakeSave(run))
  {
    if run.phase == PromptProtocol.Phase.Stopped {
      StoppedSaveKeepsInv(run);
    } else {
      AnsweredSaveKeepsInv(run);
    }
  }

  // Every segment of a step loop keeps the invariant.
  lemma RunStepKeepsInv(run: Run, segment: Segment)
    requires RunInv(run) && Enabled(run, segment)
    ensures RunInv(RunStep(run, segment))
  {
    match segment
    case Begin => BeginKeepsInv(run);
    case ListReturned(list) => TakeListKeepsInv(run, list);
    case StepReturned(message, now) => TakeStepKeepsInv(run, message, now);
    case AskResumed(resolved) => ResumeAskKeepsInv(run, resolved);
    case CallReturned(reply) => TakeReplyKeepsInv(run, reply);
    case LoopResumed => ResumeLoopKeepsInv(run);
    case SaveReturned => TakeSaveKeepsInv(run);
    case SaveThrew(failure) => FailingKeepsInv(run, failure);
    case Threw(failure) => FailingKeepsInv(run, failure);
    case Unwound => FailingKeepsInv(run, run.pc.failure);
  }

  lemma SettleKeepsInv(run: Run, decision: Decision)
    requires RunInv(run) && IsAnswering(run.phase) && run.pending.Some? && decision != StopAsk
    ensures RunInv(SettleRun(run, decision)) && !run.ended
  {
    var next := SettleRun(run, decision);
    assert next.trace == Story(next);
  }

  lemma StopKeepsInv(run: Run)
    requires RunInv(run) && IsAnswering(run.phase)
    ensures RunInv(StopRun(run)) && !run.ended
  {
    StopMarksTheStory(run);
  }

  lemma StopMarksTheStory(run: Run)
    requires !run.stopAccepted && run.trace == Story(run)
    requires run.pending == if run.pc.Asking? then Some(run.pc.ask) else None
    ensures StopRun(run).trace == Story(StopRun(run))
  {
    var next := StopRun(run);
    var base := Opening(run.pc) + RoundsTrace(run.seed, run.rounds) + OpenTrace(run.pc, run.messages, run);
    StopKeepsOpenTrace(run);
    assert base + [] == base;
    assert Story(next) == base + [StopAccepted];
  }

  lemma StopKeepsOpenTrace(run: Run)
    requires run.pending == if run.pc.Asking? then Some(run.pc.ask) else None
    ensures var next := StopRun(run);
      && Opening(next.pc) == Opening(run.pc)
      && OpenTrace(next.pc, next.messages, next) == OpenTrace(run.pc, run.messages, run)
  {
    if run.pc.Asking? {
      assert AskTrace(run.messages, run.pc.ask) + [] == AskTrace(run.messages, run.pc.ask);
    }
  }

  lemma NewRunInv(input: StartInput, turns: seq<Turn>, startedAt: string)
    ensures RunInv(NewRun(input, turns, startedAt))
  {
    var run := NewRun(input, turns, startedAt);
    assert run.trace == Story(run);
  }
}
