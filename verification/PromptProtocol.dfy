// The prompt runner as a transition system: the synchronous segments between two awaits, one after another,
// for every prompt, interleaved with start, permit, refuse and stop in any order.
module PromptProtocol {
  import opened Wrappers
  import opened Seqs
  import opened Json
  import opened UriTemplate
  import opened Catalog
  import opened Gateway
  import opened PromptRecord

  // ---- Values ----

  datatype Phase = Selecting | AwaitingPermission | Calling | Answering | HasAnswered | Stopped | HasFailed

  // True while the prompt can still be stopped.
  predicate IsAnswering(phase: Phase) {
    phase in {Selecting, AwaitingPermission, Calling, Answering}
  }

  datatype Decision = Permit | Refuse | StopAsk

  // What ends a prompt with `error`, or with `stopped` when it is an abort.
  datatype Failure =
    | External(context: string, isAbort: bool)
    | DuplicateList
    | BadCompletion(reason: ProviderFailure)
    | MissingVariable(name: string)
    | UnknownResource

  predicate IsAbort(failure: Failure) {
    failure.External? && failure.isAbort
  }

  // A result from the MCP server: the text of each part, and the parts as printed by `JSON.stringify`.
  datatype Reply =
    | ToolReply(isError: bool, texts: seq<Option<string>>, printed: string)
    | ResourceReply(texts: seq<Option<string>>, printed: string)

  // A call that leaves the process.
  datatype Call =
    | ListCall
    | ModelCall(messages: seq<Message>)
    | ToolCall(name: string, arguments: Record)
    | ReadCall(uri: string)
    | SaveCall(conversationId: string, prompt: string, answer: string, savedAt: string)

  datatype CallStatus = Processing | Refused | Failed | Succeeded(reply: Reply)

  datatype Event =
    | SelectingEvent
    | PermissionEvent(ask: Ask)
    | CallEvent(status: CallStatus, ask: Ask)
    | AnsweringEvent
    | AnswerEvent(content: string, startedAt: string, finishedAt: string, domains: seq<Domain>,
                  wireList: Option<ModelList>, messages: seq<Message>)
    | ErrorEvent(failure: Failure, messages: seq<Message>, wireList: Option<ModelList>)
    | StoppedEvent(messages: seq<Message>, wireList: Option<ModelList>)

  // One prompt's history, in the order things happened.
  datatype Obs =
    | Emitted(event: Event)
    | Began(call: Call)
    | Settled(decision: Decision, item: Selection)
    | StopAccepted
    | Saved

  // Where a step loop is parked. The value a continuation captures is part of its position.
  datatype Pc =
    | Scheduled
    | FetchingList
    | Stepping
    | Asking(ask: Ask)
    | Resumable(ask: Ask, decision: Decision)
    | Running(ask: Ask, call: Call)
    | Recorded
    | Returned(ask: Ask, call: Call)
    | Throwing(failure: Failure, during: Option<Ask>)
    | Saving(content: string, finishedAt: string)

  // One selection that was refused, or permitted and run to a reply.
  datatype Round = Declined(ask: Ask) | Ran(ask: Ask, call: Call, reply: Reply)

  // A prompt's record with its position and history. `ended` says that its step loop has returned.
  datatype Run = Run(
    userId: string, conversationId: string, prompt: string, startedAt: string, seed: seq<Message>,
    phase: Phase, aborted: bool, messages: seq<Message>, list: Option<ModelList>, wireList: Option<ModelList>,
    pending: Option<Ask>, used: seq<Selection>, terminalEventSent: bool,
    pc: Pc, ended: bool, stopAccepted: bool, rounds: seq<Round>, trace: seq<Obs>)

  // ---- Message contents ----

  function RefusalContent(kind: Kind): string {
    if kind == Tool then "The user refused this tool." else "The user refused this resource."
  }

  const TOOL_FAILURE_CONTENT: string := "The tool failed."

  function NonEmptyTexts(texts: seq<Option<string>>): seq<string> {
    if texts == [] then []
    else (if texts[0].Some? && texts[0].value != "" then [texts[0].value] else []) + NonEmptyTexts(texts[1..])
  }

  function TextFromParts(texts: seq<Option<string>>): string {
    Join(NonEmptyTexts(texts), '\n')
  }

  // The text a reply leaves on the messages.
  function ReplyContent(reply: Reply): string {
    var text := TextFromParts(reply.texts);
    if text != "" then text
    else if reply.ToolReply? && reply.isError then TOOL_FAILURE_CONTENT
    else reply.printed
  }

  function RoleOf(kind: Kind): Role {
    if kind == Tool then ToolRole else ResourceRole
  }

  function ReplyRole(reply: Reply): Role {
    if reply.ToolReply? then ToolRole else ResourceRole
  }

  function ReplyStatus(reply: Reply): CallStatus {
    if reply.ToolReply? && reply.isError then Failed else Succeeded(reply)
  }

  // ---- Helpers of one run ----

  // The part of a run's record that never changes.
  predicate SameOrigin(a: Run, b: Run) {
    && a.userId == b.userId && a.conversationId == b.conversationId && a.prompt == b.prompt
    && a.startedAt == b.startedAt && a.seed == b.seed
  }

  function Log(run: Run, obs: seq<Obs>): (next: Run)
    ensures SameOrigin(run, next)
  {
    run.(trace := run.trace + obs)
  }

  // The part of `claimTerminal` that touches the run.
  function Claim(run: Run, phase: Phase): (next: Run)
    ensures SameOrigin(run, next)
  {
    if IsAnswering(run.phase) then run.(phase := phase, pending := None) else run
  }

  function EmitStopped(run: Run): (next: Run)
    ensures SameOrigin(run, next)
  {
    if run.terminalEventSent then run
    else
      var claimed := if run.phase != Stopped then Claim(run, Stopped) else run;
      Log(claimed.(terminalEventSent := true), [Emitted(StoppedEvent(claimed.messages, claimed.wireList))])
  }

  function Fail(run: Run, failure: Failure): (next: Run)
    ensures SameOrigin(run, next)
  {
    if IsAbort(failure) || run.phase == Stopped then EmitStopped(run)
    else if !IsAnswering(run.phase) then run
    else
      var claimed := Claim(run, HasFailed);
      Log(claimed.(terminalEventSent := true), [Emitted(ErrorEvent(failure, claimed.messages, claimed.wireList))])
  }

  function End(run: Run): (next: Run)
    ensures SameOrigin(run, next)
  {
    run.(ended := true)
  }

  // The `while` test and, when it holds, the next model call.
  function LoopTop(run: Run): (next: Run)
    ensures SameOrigin(run, next)
  {
    if IsAnswering(run.phase) then Log(run.(pc := Stepping), [Began(ModelCall(run.messages))]) else End(run)
  }

  function RecordUse(used: seq<Selection>, item: Selection): seq<Selection> {
    if item in used then used else used + [item]
  }

  function ListOf(run: Run): ModelList {
    if run.list.Some? then run.list.value else ModelList([], [], [])
  }

  // The call a permitted ask leads to. `resolved` is what the client's URI map holds for it at that moment.
  function CallFor(list: ModelList, ask: Ask, resolved: Option<string>): Result<Call, Failure> {
    if ask.item.kind == Tool then Ok(ToolCall(ask.item.name, ask.arguments))
    else
      match FindTemplate(list.templates, ask.item.domain, ask.item.name)
      case Some(template) =>
        (match ExpandUriTemplate(template.uriTemplate, ask.arguments)
         case Ok(uri) => Ok(ReadCall(uri))
         case Err(name) => Err(MissingVariable(name)))
      case None =>
        match resolved
        case Some(uri) => Ok(ReadCall(uri))
        case None => Err(UnknownResource)
  }

  // ---- Segments ----

  // One continuation of a step loop, with what the await delivered.
  datatype Segment =
    | Begin
    | ListReturned(list: ModelList)
    | StepReturned(message: ProviderMessage, now: string)
    | AskResumed(resolved: Option<string>)
    | CallReturned(reply: Reply)
    | LoopResumed
    | SaveReturned
    | SaveThrew(failure: Failure)
    | Threw(failure: Failure)
    | Unwound

  // The segment can run next.
  predicate Enabled(run: Run, segment: Segment) {
    && !run.ended
    && match segment
       case Begin => run.pc.Scheduled?
       case ListReturned(_) => run.pc.FetchingList?
       case StepReturned(_, _) => run.pc.Stepping?
       case AskResumed(_) => run.pc.Resumable?
       case CallReturned(reply) => run.pc.Running? && (reply.ToolReply? <==> run.pc.ask.item.kind == Tool)
       case LoopResumed => run.pc.Recorded? || run.pc.Returned?
       case SaveReturned => run.pc.Saving?
       case SaveThrew(_) => run.pc.Saving?
       case Threw(_) => run.pc.FetchingList? || run.pc.Stepping? || run.pc.Running?
       case Unwound => run.pc.Throwing?
  }

  function BeginRun(run: Run): (next: Run)
    ensures SameOrigin(run, next)
  {
    if run.phase == Stopped then End(EmitStopped(run))
    else Log(run.(pc := FetchingList), [Emitted(SelectingEvent), Began(ListCall)])
  }

  function TakeList(run: Run, list: ModelList): (next: Run)
    ensures SameOrigin(run, next)
  {
    if run.phase == Stopped then End(EmitStopped(run))
    else
      var listed := run.(list := Some(list), wireList := Some(list));
      if CatalogOf(list).Ok? then LoopTop(listed) else listed.(pc := Throwing(DuplicateList, None))
  }

  function TakeStep(run: Run, message: ProviderMessage, now: string): (next: Run)
    ensures SameOrigin(run, next)
  {
    match Interpret(message, LookupOf(Listings(ListOf(run))))
    case Err(reason) => End(Fail(run, BadCompletion(reason)))
    case Ok(step) =>
      if run.phase == Stopped then End(EmitStopped(run))
      else
        match step
        case Answered(content) =>
          Log(run.(phase := Answering, pc := Saving(content, now)),
              [Began(SaveCall(run.conversationId, run.prompt, content, now))])
        case Selected(ask) =>
          Log(run.(phase := AwaitingPermission, pending := Some(ask), pc := Asking(ask)),
              [Emitted(PermissionEvent(ask))])
  }

  function RecordRefusal(run: Run, ask: Ask): (next: Run)
    ensures SameOrigin(run, next)
  {
    Log(run.(pending := None, rounds := run.rounds + [Declined(ask)],
             messages := run.messages + [Message(RoleOf(ask.item.kind), RefusalContent(ask.item.kind))]),
        [Emitted(CallEvent(Refused, ask))])
  }

  function PerformCall(run: Run, ask: Ask, resolved: Option<string>): (next: Run)
    ensures SameOrigin(run, next)
  {
    var calling := Log(run.(phase := Calling, pending := None), [Emitted(CallEvent(Processing, ask))]);
    match CallFor(ListOf(run), ask, resolved)
    case Ok(call) => Log(calling.(pc := Running(ask, call)), [Began(call)])
    case Err(failure) => calling.(pc := Throwing(failure, Some(ask)))
  }

  function ResumeAsk(run: Run, resolved: Option<string>): (next: Run)
    requires run.pc.Resumable?
    ensures SameOrigin(run, next)
  {
    if run.pc.decision == StopAsk || run.phase == Stopped then End(EmitStopped(run))
    else if run.pc.decision == Refuse then LoopTop(RecordRefusal(run, run.pc.ask).(phase := Selecting))
    else PerformCall(run, run.pc.ask, resolved)
  }

  function TakeReply(run: Run, reply: Reply): (next: Run)
    requires run.pc.Running?
    ensures SameOrigin(run, next)
  {
    var Running(ask, call) := run.pc;
    if run.phase == Stopped then run.(pc := Returned(ask, call))
    else
      Log(run.(pc := Recorded, rounds := run.rounds + [Ran(ask, call, reply)],
               messages := run.messages + [Message(ReplyRole(reply), ReplyContent(reply))],
               used := RecordUse(run.used, ask.item)),
          [Emitted(CallEvent(ReplyStatus(reply), ask))])
  }

  function ResumeLoop(run: Run): (next: Run)
    ensures SameOrigin(run, next)
  {
    if run.phase == Stopped then End(EmitStopped(run)) else LoopTop(run.(phase := Selecting))
  }

  function TakeSave(run: Run): (next: Run)
    requires run.pc.Saving?
    ensures SameOrigin(run, next)
  {
    var saved := Log(run, [Saved]);
    if saved.phase == Stopped || saved.wireList.None? || !IsAnswering(saved.phase) then End(EmitStopped(saved))
    else
      var claimed := Claim(saved, HasAnswered);
      End(Log(claimed.(terminalEventSent := true),
              [Emitted(AnsweringEvent),
               Emitted(AnswerEvent(run.pc.content, run.startedAt, run.pc.finishedAt, DomainsOf(run.used),
                                   run.wireList, run.messages))]))
  }

  // What a segment makes of its run.
  function RunStep(run: Run, segment: Segment): (next: Run)
    requires Enabled(run, segment)
    ensures SameOrigin(run, next)
  {
    match segment
    case Begin => BeginRun(run)
    case ListReturned(list) => TakeList(run, list)
    case StepReturned(message, now) => TakeStep(run, message, now)
    case AskResumed(resolved) => ResumeAsk(run, resolved)
    case CallReturned(reply) => TakeReply(run, reply)
    case LoopResumed => ResumeLoop(run)
    case SaveReturned => TakeSave(run)
    case SaveThrew(failure) => End(Fail(run, failure))
    case Threw(failure) => End(Fail(run, failure))
    case Unwound => End(Fail(run, run.pc.failure))
  }

  // An accepted permit or refuse.
  function SettleRun(run: Run, decision: Decision): (next: Run)
    requires run.pending.Some? && decision != StopAsk
    ensures SameOrigin(run, next)
  {
    var ask := run.pending.value;
    Log(run.(phase := if decision == Permit then Calling else run.phase, pending := None,
             pc := Resumable(ask, decision)),
        [Settled(decision, ask.item)])
  }

  // An accepted stop. An open ask resolves, so its loop can resume.
  function StopRun(run: Run): (next: Run)
    ensures SameOrigin(run, next)
  {
    var claimed := Claim(run, Stopped);
    Log(claimed.(aborted := true, stopAccepted := true,
                 pc := if run.pending.Some? then Resumable(run.pending.value, StopAsk) else run.pc),
        [StopAccepted])
  }

  // ---- The shared maps ----

  datatype Finished = Finished(promptId: string, userId: string)

  // `active` lists the keys of `activePrompts` in the order in which a Map keeps them: that of their insertion.
  // `runs` remembers every prompt ever started and `history` every prompt that has left "being answered", in that
  // order; the runner itself keeps only the other three.
  datatype State = State(
    limit: int,
    active: seq<string>,
    byConversation: map<string, string>,
    finished: seq<Finished>,
    runs: map<string, Run>,
    history: seq<string>)

  function Initial(limit: int): State {
    State(limit, [], map[], [], map[], [])
  }

  // `Map.set`: an existing key keeps its place.
  function SetFinished(finished: seq<Finished>, entry: Finished): seq<Finished> {
    if finished == [] then [entry]
    else if finished[0].promptId == entry.promptId then [entry] + finished[1..]
    else [finished[0]] + SetFinished(finished[1..], entry)
  }

  // The eviction loop: drop the oldest entry while over the limit. An empty id would stop it.
  function Evict(finished: seq<Finished>, limit: int): seq<Finished> {
    if |finished| > limit && finished != [] && finished[0].promptId != "" then Evict(finished[1..], limit) else finished
  }

  // `Map.delete`: the other keys keep their order.
  function Without(ids: seq<string>, id: string): (rest: seq<string>)
    ensures forall other :: other in rest <==> other in ids && other != id
  {
    if ids == [] then []
    else
      var earlier, last := ids[..|ids| - 1], ids[|ids| - 1];
      assert ids == earlier + [last];
      Without(earlier, id) + (if last == id then [] else [last])
  }

  // Drops the reservations of a run that has become terminal, and remembers its owner.
  function Released(s: State, id: string, run: Run): State {
    s.(active := Without(s.active, id),
       byConversation :=
         if run.conversationId in s.byConversation && s.byConversation[run.conversationId] == id
         then s.byConversation - {run.conversationId} else s.byConversation,
       finished := Evict(SetFinished(s.finished, Finished(id, run.userId)), s.limit),
       history := s.history + [id])
  }

  // Stores a run's new record. Leaving "being answered" releases its reservations and remembers its owner.
  function Commit(s: State, id: string, run: Run): State
    requires id in s.runs
  {
    var stored := s.(runs := s.runs[id := run]);
    if IsAnswering(s.runs[id].phase) && !IsAnswering(run.phase) then Released(stored, id, run) else stored
  }

  // ---- The HTTP calls ----

  // 200, 404 and 422.
  datatype Outcome = Accepted | NotFound | Rejected

  function FinishedOwner(finished: seq<Finished>, id: string): (owner: Option<string>) {
    if finished == [] then None
    else if finished[0].promptId == id then Some(finished[0].userId)
    else FinishedOwner(finished[1..], id)
  }

  // The answer for a prompt that is not active.
  function InactiveOutcome(s: State, id: string, userId: string): Outcome {
    if FinishedOwner(s.finished, id) == Some(userId) then Rejected else NotFound
  }

  function StopOutcome(s: State, id: string, userId: string): Outcome {
    if id in s.active && id in s.runs then
      if s.runs[id].userId != userId then NotFound else Accepted
    else InactiveOutcome(s, id, userId)
  }

  function SettleOutcome(s: State, id: string, userId: string, item: Selection): Outcome {
    if id in s.active && id in s.runs then
      if s.runs[id].userId != userId then NotFound
      else if s.runs[id].pending.Some? && s.runs[id].pending.value.item == item then Accepted
      else Rejected
    else InactiveOutcome(s, id, userId)
  }

  datatype StartInput = StartInput(userId: string, conversationId: string, prompt: string, turnIds: Option<seq<string>>)

  datatype StartError = BadTurns | Busy

  function NewRun(input: StartInput, turns: seq<Turn>, startedAt: string): Run {
    var seed := SeedOf(turns, input.prompt);
    Run(input.userId, input.conversationId, input.prompt, startedAt, seed,
        Selecting, false, seed, None, None, None, [], false,
        Scheduled, false, false, [], [])
  }

  // The part of `start` after the conversation is loaded.
  function StartResult(s: State, input: StartInput, turns: seq<Turn>): Result<seq<Turn>, StartError> {
    match SelectionOf(turns, input.turnIds)
    case Err(_) => Err(BadTurns)
    case Ok(selected) => if input.conversationId in s.byConversation then Err(Busy) else Ok(selected)
  }

  function Reserve(s: State, id: string, run: Run): State {
    s.(runs := s.runs[id := run], active := s.active + [id], byConversation := s.byConversation[run.conversationId := id])
  }

  // ---- Runs of the whole system ----

  datatype Action =
    | Start(input: StartInput, turns: seq<Turn>, freshId: string, startedAt: string)
    | Settle(promptId: string, userId: string, item: Selection, decision: Decision)
    | Stop(promptId: string, userId: string)
    | Advance(promptId: string, segment: Segment)

  // One action. A call that is turned down, and a continuation that is not due, change nothing.
  function Next(s: State, action: Action): State {
    match action
    case Start(input, turns, freshId, startedAt) =>
      if freshId == "" || freshId in s.runs then s
      else
        (match StartResult(s, input, turns)
         case Err(_) => s
         case Ok(selected) => Reserve(s, freshId, NewRun(input, selected, startedAt)))
    case Settle(id, userId, item, decision) =>
      if decision != StopAsk && SettleOutcome(s, id, userId, item) == Accepted
      then Commit(s, id, SettleRun(s.runs[id], decision)) else s
    case Stop(id, userId) =>
      if StopOutcome(s, id, userId) == Accepted then Commit(s, id, StopRun(s.runs[id])) else s
    case Advance(id, segment) =>
      if id in s.runs && Enabled(s.runs[id], segment) then Commit(s, id, RunStep(s.runs[id], segment)) else s
  }

  // The state after a sequence of actions: every interleaving is one such sequence.
  function Execute(limit: int, actions: seq<Action>): State {
    if actions == [] then Initial(limit)
    else Next(Execute(limit, actions[..|actions| - 1]), actions[|actions| - 1])
  }

  lemma ExecuteStep(limit: int, actions: seq<Action>, action: Action)
    ensures Execute(limit, actions + [action]) == Next(Execute(limit, actions), action)
  {
    assert (actions + [action])[..|actions|] == actions;
  }
}
