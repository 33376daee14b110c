// What every prompt's history looks like: the event grammar, consent, the stop barrier, the saved turn, the record.
module PromptTraces {
  import opened Wrappers
  import opened Seqs
  import opened UriTemplate
  import opened Catalog
  import opened Gateway
  import opened PromptRecord
  import opened PromptProtocol
  import opened PromptInvariant
  import opened PromptReservations
  import opened PromptServed

  // ---- The event log of a history ----

  function Events(trace: seq<Obs>): seq<Event> {
    if trace == [] then []
    else
      var earlier := Events(trace[..|trace| - 1]);
      var last := trace[|trace| - 1];
      if last.Emitted? then earlier + [last.event] else earlier
  }

  lemma {:induction false} EventsConcat(a: seq<Obs>, b: seq<Obs>)
    ensures Events(a + b) == Events(a) + Events(b)
  {
    if b == [] {
      assert a + b == a;
    } else {
      var init := b[..|b| - 1];
      EventsConcat(a, init);
      assert (a + b)[..|a + b| - 1] == a + init;
    }
  }

  lemma EventsOfOne(obs: Obs)
    ensures Events([obs]) == if obs.Emitted? then [obs.event] else []
  {
    assert [obs][..0] == [];
  }

  lemma EventsStep(trace: seq<Obs>, obs: Obs)
    ensures Events(trace + [obs]) == Events(trace) + if obs.Emitted? then [obs.event] else []
  {
    assert (trace + [obs])[..|trace|] == trace;
  }

  // ---- The grammar ----

  function RoundEvents(round: Round): seq<Event> {
    match round
    case Declined(ask) => [PermissionEvent(ask), CallEvent(Refused, ask)]
    case Ran(ask, _, reply) => [PermissionEvent(ask), CallEvent(Processing, ask), CallEvent(ReplyStatus(reply), ask)]
  }

  function RoundsEvents(rounds: seq<Round>): seq<Event> {
    if rounds == [] then [] else RoundsEvents(rounds[..|rounds| - 1]) + RoundEvents(rounds[|rounds| - 1])
  }

  // A log that can still grow: between rounds, at an open ask, or while a permitted call runs.
  predicate OpenTail(tail: seq<Event>) {
    || tail == []
    || (|tail| == 1 && tail[0].PermissionEvent?)
    || (|tail| == 2 && tail[0].PermissionEvent? && tail[1] == CallEvent(Processing, tail[0].ask))
  }

  // The last events of a prompt, after its finished rounds.
  predicate ClosedTail(tail: seq<Event>) {
    || (|tail| == 2 && tail[0].AnsweringEvent? && tail[1].AnswerEvent?)
    || (|tail| == 1 && tail[0].ErrorEvent?)
    || (|tail| >= 1 && OpenTail(tail[..|tail| - 1]) && tail[|tail| - 1].StoppedEvent?)
    || (|tail| == 3 && OpenTail(tail[..2]) && tail[2].ErrorEvent?)
  }

  // `log` is a sentence of the stream's grammar; `closed` says that it is a whole one.
  ghost predicate Grammatical(log: seq<Event>, closed: bool) {
    || (!closed && log == [])
    || (closed && |log| == 1 && log[0].StoppedEvent?)
    || exists rounds, tail :: IsSentence(log, rounds, tail, closed)
  }

  // `selecting`, then the finished rounds, then a tail.
  predicate IsSentence(log: seq<Event>, rounds: seq<Round>, tail: seq<Event>, closed: bool) {
    log == [SelectingEvent] + RoundsEvents(rounds) + tail && if closed then ClosedTail(tail) else OpenTail(tail)
  }

  lemma RoundTraceEvents(seen: seq<Message>, round: Round)
    ensures Events(RoundTrace(seen, round)) == RoundEvents(round)
  {
    AskTraceEvents(seen, round.ask);
    match round
    case Declined(ask) =>
      DeclinedTrace(seen, ask);
      EventsStep(AskTrace(seen, ask), Settled(Refuse, ask.item));
      EventsStep(AskTrace(seen, ask) + [Settled(Refuse, ask.item)], Emitted(CallEvent(Refused, ask)));
    case Ran(ask, call, reply) =>
      RanTrace(seen, ask, call, reply);
      EventsStep(PermittedTrace(seen, ask), Began(call));
      EventsStep(PermittedTrace(seen, ask) + [Began(call)], Emitted(CallEvent(ReplyStatus(reply), ask)));
  }

  lemma AskTraceEvents(seen: seq<Message>, ask: Ask)
    ensures Events(AskTrace(seen, ask)) == [PermissionEvent(ask)]
    ensures Events(PermittedTrace(seen, ask)) == [PermissionEvent(ask), CallEvent(Processing, ask)]
  {
    var model := Began(ModelCall(seen));
    EventsOfOne(model);
    EventsStep([model], Emitted(PermissionEvent(ask)));
    assert AskTrace(seen, ask) == [model] + [Emitted(PermissionEvent(ask))];
    EventsStep(AskTrace(seen, ask), Settled(Permit, ask.item));
    EventsStep(AskTrace(seen, ask) + [Settled(Permit, ask.item)], Emitted(CallEvent(Processing, ask)));
    assert PermittedTrace(seen, ask)
      == (AskTrace(seen, ask) + [Settled(Permit, ask.item)]) + [Emitted(CallEvent(Processing, ask))];
  }

  lemma {:induction false} RoundsTraceEvents(seed: seq<Message>, rounds: seq<Round>)
    ensures Events(RoundsTrace(seed, rounds)) == RoundsEvents(rounds)
  {
    if rounds != [] {
      var init := rounds[..|rounds| - 1];
      RoundsTraceEvents(seed, init);
      RoundTraceEvents(MessagesAfter(seed, init), rounds[|rounds| - 1]);
      EventsConcat(RoundsTrace(seed, init), RoundTrace(MessagesAfter(seed, init), rounds[|rounds| - 1]));
    }
  }

  // The events since the last finished round.
  function OpenEvents(pc: Pc): (tail: seq<Event>)
    ensures OpenTail(tail)
  {
    match pc
    case Asking(ask) => [PermissionEvent(ask)]
    case Resumable(ask, _) => [PermissionEvent(ask)]
    case Running(ask, _) => [PermissionEvent(ask), CallEvent(Processing, ask)]
    case Returned(ask, _) => [PermissionEvent(ask), CallEvent(Processing, ask)]
    case Throwing(_, Some(ask)) => [PermissionEvent(ask), CallEvent(Processing, ask)]
    case _ => []
  }

  lemma OpenTraceEvents(run: Run, seen: seq<Message>)
    ensures Events(OpenTrace(run.pc, seen, run)) == OpenEvents(run.pc)
  {
    match run.pc
    case Stepping => EventsOfOne(Began(ModelCall(seen)));
    case Asking(ask) => AskTraceEvents(seen, ask);
    case Resumable(ask, decision) =>
      AskTraceEvents(seen, ask);
      EventsStep(AskTrace(seen, ask), Settled(decision, ask.item));
      assert AskTrace(seen, ask) + [] == AskTrace(seen, ask);
    case Running(ask, call) =>
      AskTraceEvents(seen, ask);
      EventsStep(PermittedTrace(seen, ask), Began(call));
    case Returned(ask, call) =>
      AskTraceEvents(seen, ask);
      EventsStep(PermittedTrace(seen, ask), Began(call));
    case Throwing(_, Some(ask)) => AskTraceEvents(seen, ask);
    case Saving(content, finishedAt) =>
      var model, save := Began(ModelCall(seen)), Began(SaveCall(run.conversationId, run.prompt, content, finishedAt));
      EventsOfOne(model);
      EventsStep([model], save);
      assert [model] + [save] == [model, save];
    case _ =>
  }

  function OpeningEvents(pc: Pc): seq<Event> {
    if pc.Scheduled? then [] else [SelectingEvent]
  }

  lemma EventsOfParts(a: seq<Obs>, b: seq<Obs>, c: seq<Obs>, d: seq<Obs>)
    ensures Events(a + b + c + d) == Events(a) + Events(b) + Events(c) + Events(d)
  {
    EventsConcat(a + b + c, d);
    EventsConcat(a + b, c);
    EventsConcat(a, b);
  }

  lemma OpeningTraceEvents(pc: Pc)
    ensures Events(Opening(pc)) == OpeningEvents(pc)
  {
    if !pc.Scheduled? {
      EventsOfOne(Emitted(SelectingEvent));
      EventsStep([Emitted(SelectingEvent)], Began(ListCall));
      assert [Emitted(SelectingEvent)] + [Began(ListCall)] == [Emitted(SelectingEvent), Began(ListCall)];
    }
  }

  lemma StopMarkEvents(run: Run)
    ensures Events(StopMark(run)) == []
  {
    EventsOfOne(StopAccepted);
  }

  lemma StoryEvents(run: Run)
    ensures Events(Story(run)) == OpeningEvents(run.pc) + RoundsEvents(run.rounds) + OpenEvents(run.pc)
  {
    EventsOfParts(Opening(run.pc), RoundsTrace(run.seed, run.rounds), OpenTrace(run.pc, run.messages, run), StopMark(run));
    OpeningTraceEvents(run.pc);
    RoundsTraceEvents(run.seed, run.rounds);
    OpenTraceEvents(run, run.messages);
    StopMarkEvents(run);
  }

  function EndMark(run: Run): seq<Obs>
    requires EndMarkFits(run)
  {
    run.trace[|Story(run)|..]
  }

  lemma EventsOfTwo(a: Obs, b: Obs)
    ensures Events([a, b]) == Events([a]) + Events([b])
  {
    assert [a, b] == [a] + [b];
    EventsConcat([a], [b]);
  }

  lemma EventsOfThree(a: Obs, b: Obs, c: Obs)
    ensures Events([a, b, c]) == Events([a]) + Events([b]) + Events([c])
  {
    assert [a, b, c] == [a, b] + [c];
    EventsConcat([a, b], [c]);
    EventsOfTwo(a, b);
  }

  // What the last segment of a run emits, by the outcome it leaves.
  predicate EndEvents(phase: Phase, end: seq<Event>) {
    match phase
    case Stopped => |end| == 1 && end[0].StoppedEvent?
    case HasFailed => |end| == 1 && end[0].ErrorEvent?
    case HasAnswered => |end| == 2 && end[0].AnsweringEvent? && end[1].AnswerEvent?
    case _ => false
  }

  lemma EndFitsEvents(run: Run, mark: seq<Obs>)
    requires EndFits(run, mark)
    ensures EndEvents(run.phase, Events(mark))
    ensures forall k :: 0 <= k < |mark| ==> mark[k].Saved? || mark[k].Emitted?
  {
    EventsOfOne(mark[0]);
    if |mark| == 2 {
      assert mark == [mark[0], mark[1]];
      EventsOfOne(mark[1]);
      EventsOfTwo(mark[0], mark[1]);
    }
    if |mark| == 3 {
      EventsOfOne(mark[1]);
      EventsOfOne(mark[2]);
      EventsOfThree(mark[0], mark[1], mark[2]);
    }
    if |mark| == 1 {
      assert mark == [mark[0]];
    }
  }

  lemma EndMarkEvents(run: Run)
    requires RunInv(run) && run.ended
    ensures Events(run.trace) == Events(Story(run)) + Events(EndMark(run))
    ensures EndEvents(run.phase, Events(EndMark(run)))
  {
    var mark := EndMark(run);
    assert run.trace == Story(run) + mark;
    EventsConcat(Story(run), mark);
    EndFitsEvents(run, mark);
  }

  // An open tail and the end that can follow it close the log.
  lemma TailCloses(run: Run)
    requires RunInv(run) && run.ended && !run.pc.Scheduled?
    ensures ClosedTail(OpenEvents(run.pc) + Events(EndMark(run)))
  {
    EndMarkEvents(run);
    EndSuits(run);
    EndCloses(run.phase, OpenEvents(run.pc), Events(EndMark(run)));
  }

  // Where a run can fail or answer, no ask is open.
  lemma EndSuits(run: Run)
    requires RunInv(run) && run.ended
    ensures run.phase == HasFailed ==> OpenEvents(run.pc) == [] || |OpenEvents(run.pc)| == 2
    ensures run.phase == HasAnswered ==> OpenEvents(run.pc) == []
  {
    EndSuitsPlace(run, EndMark(run));
  }

  lemma EndSuitsPlace(run: Run, mark: seq<Obs>)
    requires EndFits(run, mark)
    ensures run.phase == HasFailed ==> CanThrow(run.pc)
    ensures run.phase == HasAnswered ==> run.pc.Saving?
  {
  }

  lemma EndCloses(phase: Phase, tail: seq<Event>, end: seq<Event>)
    requires OpenTail(tail) && EndEvents(phase, end)
    requires phase == HasFailed ==> tail == [] || |tail| == 2
    requires phase == HasAnswered ==> tail == []
    ensures ClosedTail(tail + end)
  {
    var closed := tail + end;
    if phase == PromptProtocol.Phase.Stopped {
      assert closed[..|closed| - 1] == tail;
    } else if phase == HasFailed && tail != [] {
      assert closed[..2] == tail;
    }
  }

  lemma Sentence(rounds: seq<Round>, tail: seq<Event>, closed: bool)
    requires if closed then ClosedTail(tail) else OpenTail(tail)
    ensures Grammatical([SelectingEvent] + RoundsEvents(rounds) + tail, closed)
  {
    assert IsSentence([SelectingEvent] + RoundsEvents(rounds) + tail, rounds, tail, closed);
  }

  lemma EarlyLogIsGrammatical(run: Run)
    requires RunInv(run) && run.pc.Scheduled?
    ensures Grammatical(Events(run.trace), run.ended)
  {
    StoryEvents(run);
    assert Events(Story(run)) == [];
    if run.ended {
      EndMarkEvents(run);
      assert Events(run.trace) == Events(EndMark(run));
    }
  }

  lemma EndedEvents(run: Run)
    requires RunInv(run) && run.ended && !run.pc.Scheduled?
    ensures Events(run.trace) == [SelectingEvent] + RoundsEvents(run.rounds) + (OpenEvents(run.pc) + Events(EndMark(run)))
  {
    StoryEvents(run);
    EndMarkEvents(run);
  }

  lemma EndedLogIsGrammatical(run: Run)
    requires RunInv(run) && run.ended && !run.pc.Scheduled?
    ensures Grammatical(Events(run.trace), true)
  {
    TailCloses(run);
    Sentence(run.rounds, OpenEvents(run.pc) + Events(EndMark(run)), true);
    EndedEvents(run);
  }

  lemma OpenLogIsGrammatical(run: Run)
    requires RunInv(run) && !run.ended && !run.pc.Scheduled?
    ensures Grammatical(Events(run.trace), false)
  {
    Sentence(run.rounds, OpenEvents(run.pc), false);
    assert Events(run.trace) == [SelectingEvent] + RoundsEvents(run.rounds) + OpenEvents(run.pc) by {
      StoryEvents(run);
    }
  }

  // The log of a prompt is always a sentence of the grammar, and a whole one exactly when its loop has returned.
  lemma LogIsGrammatical(run: Run)
    requires RunInv(run)
    ensures Grammatical(Events(run.trace), run.ended)
  {
    if run.pc.Scheduled? {
      EarlyLogIsGrammatical(run);
    } else if run.ended {
      EndedLogIsGrammatical(run);
    } else {
      OpenLogIsGrammatical(run);
    }
  }

  // In every interleaving, each prompt's event log follows the grammar of the stream.
  lemma EveryLogIsGrammatical(limit: int, actions: seq<Action>, id: string)
    requires id in Execute(limit, actions).runs
    ensures var run := Execute(limit, actions).runs[id]; Grammatical(Events(run.trace), run.ended)
  {
    ReachableInv(limit, actions);
    LogIsGrammatical(Execute(limit, actions).runs[id]);
  }
}
