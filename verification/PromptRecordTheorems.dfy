// The record of a prompt against its event log: messages, used items, and what every model call saw.
module PromptRecordTheorems {
  import opened Wrappers
  import opened Seqs
  import opened UriTemplate
  import opened Catalog
  import opened Gateway
  import opened PromptRecord
  import opened PromptProtocol
  import opened PromptInvariant
  import opened PromptReservations
  import opened PromptServed
  import opened PromptTraces
  import opened PromptTheorems

  // ---- Outcomes ----

  // The events that say how an ask ended.
  predicate IsOutcome(event: Event) {
    event.CallEvent? && !event.status.Processing?
  }

  function Outcomes(log: seq<Event>): (outcomes: seq<Event>)
    ensures forall k :: 0 <= k < |outcomes| ==> IsOutcome(outcomes[k])
  {
    if log == [] then []
    else
      var earlier := Outcomes(log[..|log| - 1]);
      if IsOutcome(log[|log| - 1]) then earlier + [log[|log| - 1]] else earlier
  }

  lemma {:induction false} OutcomesConcat(a: seq<Event>, b: seq<Event>)
    ensures Outcomes(a + b) == Outcomes(a) + Outcomes(b)
  {
    if b == [] {
      assert a + b == a;
    } else {
      OutcomesConcat(a, b[..|b| - 1]);
      assert (a + b)[..|a + b| - 1] == a + b[..|b| - 1];
    }
  }

  function OutcomeEvent(round: Round): Event {
    match round
    case Declined(ask) => CallEvent(Refused, ask)
    case Ran(ask, _, reply) => CallEvent(ReplyStatus(reply), ask)
  }

  lemma {:induction false} NoOutcomes(log: seq<Event>)
    requires forall k :: 0 <= k < |log| ==> !IsOutcome(log[k])
    ensures Outcomes(log) == []
  {
    if log != [] {
      NoOutcomes(log[..|log| - 1]);
    }
  }

  lemma RoundOutcome(round: Round)
    ensures Outcomes(RoundEvents(round)) == [OutcomeEvent(round)]
  {
    var log := RoundEvents(round);
    NoOutcomes(log[..|log| - 1]);
  }

  lemma {:induction false} RoundOutcomes(rounds: seq<Round>)
    ensures |Outcomes(RoundsEvents(rounds))| == |rounds|
    ensures forall k :: 0 <= k < |rounds| ==> Outcomes(RoundsEvents(rounds))[k] == OutcomeEvent(rounds[k])
  {
    if rounds != [] {
      var k := |rounds| - 1;
      RoundOutcomes(rounds[..k]);
      LastRoundOutcome(rounds);
      forall i | 0 <= i < |rounds|
        ensures Outcomes(RoundsEvents(rounds))[i] == OutcomeEvent(rounds[i])
      {
        if i < k {
          assert rounds[..k][i] == rounds[i];
        }
      }
    }
  }

  lemma LastRoundOutcome(rounds: seq<Round>)
    requires rounds != []
    ensures Outcomes(RoundsEvents(rounds))
         == Outcomes(RoundsEvents(rounds[..|rounds| - 1])) + [OutcomeEvent(rounds[|rounds| - 1])]
  {
    RoundOutcome(rounds[|rounds| - 1]);
    OutcomesConcat(RoundsEvents(rounds[..|rounds| - 1]), RoundEvents(rounds[|rounds| - 1]));
  }

  lemma StoryOutcomes(run: Run)
    ensures Outcomes(Events(Story(run))) == Outcomes(RoundsEvents(run.rounds))
  {
    var opening, rounds, open := OpeningEvents(run.pc), RoundsEvents(run.rounds), OpenEvents(run.pc);
    StoryEvents(run);
    NoOutcomes(opening);
    NoOutcomes(open);
    OutcomesBetween(opening, rounds, open);
  }

  lemma OutcomesBetween(before: seq<Event>, log: seq<Event>, after: seq<Event>)
    requires Outcomes(before) == [] && Outcomes(after) == []
    ensures Outcomes(before + log + after) == Outcomes(log)
  {
    OutcomesConcat(before + log, after);
    OutcomesConcat(before, log);
  }

  lemma LogOutcomes(run: Run)
    requires RunInv(run)
    ensures Outcomes(Events(run.trace)) == Outcomes(RoundsEvents(run.rounds))
  {
    StoryOutcomes(run);
    if run.ended {
      EndMarkEvents(run);
      NoOutcomes(Events(EndMark(run)));
      OutcomesConcat(Events(Story(run)), Events(EndMark(run)));
    }
  }

  // The message and the outcome event that a round leaves. A call leaves its reply's content in either case; its event
  // carries the reply itself, or none of it when a tool reports an error, and then the content is not empty.
  predicate Records(round: Round, message: Message, event: Event)
    requires IsOutcome(event)
  {
    && event.ask == round.ask && message.role == RoleOf(event.ask.item.kind)
    && match round
       case Declined(ask) => event.status == Refused && message.content == RefusalContent(ask.item.kind)
       case Ran(_, _, reply) =>
         && message.content == ReplyContent(reply)
         && match event.status
            case Succeeded(shown) => shown == reply && !(reply.ToolReply? && reply.isError)
            case Failed => reply.ToolReply? && reply.isError && message.content != ""
            case _ => false
  }

  // The items that ran, in the order of their outcome events.
  function RanFromLog(outcomes: seq<Event>): seq<Selection>
    requires forall k :: 0 <= k < |outcomes| ==> IsOutcome(outcomes[k])
  {
    if outcomes == [] then []
    else
      var earlier := RanFromLog(outcomes[..|outcomes| - 1]);
      assert IsOutcome(outcomes[|outcomes| - 1]);
      var last := outcomes[|outcomes| - 1];
      if last.status.Refused? then earlier else earlier + [last.ask.item]
  }

  lemma {:induction false} RanItemsFromLog(rounds: seq<Round>)
    ensures RanFromLog(Outcomes(RoundsEvents(rounds))) == RanItems(rounds)
  {
    RoundOutcomes(rounds);
    if rounds != [] {
      var init := rounds[..|rounds| - 1];
      RanItemsFromLog(init);
      RoundOutcomes(init);
      var outcomes := Outcomes(RoundsEvents(rounds));
      assert outcomes[..|outcomes| - 1] == Outcomes(RoundsEvents(init));
    }
  }

  lemma {:induction false} MessagePositions(seed: seq<Message>, rounds: seq<Round>)
    ensures MessagesAfter(seed, rounds)[..|seed|] == seed
    ensures forall k :: 0 <= k < |rounds| ==> MessagesAfter(seed, rounds)[|seed| + k] == OutcomeMessage(rounds[k])
  {
    if rounds != [] {
      MessagePositions(seed, rounds[..|rounds| - 1]);
    }
  }

  lemma JoinedTextsAreNotEmpty(texts: seq<Option<string>>)
    ensures ReplyContent(ToolReply(true, texts, "")) != ""
  {
    var reply := ToolReply(true, texts, "");
    if TextFromParts(texts) == "" {
      assert ReplyContent(reply) == TOOL_FAILURE_CONTENT;
    }
  }

  lemma RoundRecords(list: ModelList, round: Round)
    requires RoundServed(list, round)
    ensures Records(round, OutcomeMessage(round), OutcomeEvent(round))
  {
    if round.Ran? && round.reply.ToolReply? && round.reply.isError {
      JoinedTextsAreNotEmpty(round.reply.texts);
    }
  }

  // The record of a prompt is a function of its log: the messages are the seed and one message for each outcome event,
  // in order; the items used are those that failed or succeeded, each once, in first-use order.
  ghost predicate RecordAgrees(run: Run) {
    var outcomes := Outcomes(Events(run.trace));
    && |run.messages| == |run.seed| + |outcomes|
    && run.messages[..|run.seed|] == run.seed
    && |outcomes| == |run.rounds|
    && (forall k :: 0 <= k < |outcomes| ==> Records(run.rounds[k], run.messages[|run.seed| + k], outcomes[k]))
    && run.used == FirstSeen(RanFromLog(outcomes))
  }

  lemma OutcomeRecords(run: Run, k: nat)
    requires RunInv(run) && ServedInv(run) && k < |run.rounds|
    ensures Records(run.rounds[k], OutcomeMessage(run.rounds[k]), OutcomeEvent(run.rounds[k]))
  {
    RoundRecords(ListOf(run), run.rounds[k]);
  }

  // The outcome events and the messages, one for each round.
  lemma OutcomesAreTheRounds(run: Run)
    requires RunInv(run)
    ensures var outcomes := Outcomes(Events(run.trace));
      && |outcomes| == |run.rounds| && |run.messages| == |run.seed| + |outcomes|
      && run.messages[..|run.seed|] == run.seed
      && forall k :: 0 <= k < |run.rounds| ==>
           outcomes[k] == OutcomeEvent(run.rounds[k]) && run.messages[|run.seed| + k] == OutcomeMessage(run.rounds[k])
  {
    LogOutcomes(run);
    RoundOutcomes(run.rounds);
    MessagePositions(run.seed, run.rounds);
  }

  lemma RecordFollowsLog(run: Run)
    requires RunInv(run) && ServedInv(run)
    ensures RecordAgrees(run)
  {
    var outcomes := Outcomes(Events(run.trace));
    OutcomesAreTheRounds(run);
    LogOutcomes(run);
    RanItemsFromLog(run.rounds);
    forall k | 0 <= k < |outcomes|
      ensures Records(run.rounds[k], run.messages[|run.seed| + k], outcomes[k])
    {
      OutcomeRecords(run, k);
    }
  }

  // What a terminal event carries is the record.
  predicate Carries(run: Run, event: Event) {
    match event
    case AnswerEvent(_, startedAt, _, domains, wireList, messages) =>
      startedAt == run.startedAt && domains == DomainsOf(run.used) && wireList == run.list && wireList.Some?
      && messages == run.messages
    case ErrorEvent(_, messages, wireList) => messages == run.messages && wireList == run.list
    case StoppedEvent(messages, wireList) => messages == run.messages && wireList == run.list
    case _ => false
  }

  lemma EndMarkCarriesRecord(run: Run, mark: seq<Obs>)
    requires EndFits(run, mark) && run.wireList == run.list && (run.pc.Saving? ==> run.list.Some?)
    ensures mark != [] && mark[|mark| - 1].Emitted? && Carries(run, mark[|mark| - 1].event)
  {
  }

  lemma LastEventCarriesRecord(run: Run)
    requires RunInv(run) && run.ended
    ensures LastEventCarries(run)
  {
    TraceParts(run);
    var mark := EndMark(run);
    EndMarkCarriesRecord(run, mark);
    assert run.trace[|run.trace| - 1] == mark[|mark| - 1];
  }

  predicate LastEventCarries(run: Run) {
    run.trace != [] && run.trace[|run.trace| - 1].Emitted? && Carries(run, run.trace[|run.trace| - 1].event)
  }

  lemma RunRecordAgrees(run: Run)
    requires RunInv(run) && ServedInv(run)
    ensures RecordAgrees(run) && (run.ended ==> LastEventCarries(run))
  {
    RecordFollowsLog(run);
    if run.ended {
      LastEventCarriesRecord(run);
    }
  }

  // In every interleaving the record agrees with the log, and the terminal event carries that record.
  lemma EveryRecordAgrees(limit: int, actions: seq<Action>, id: string)
    requires id in Execute(limit, actions).runs
    ensures var run := Execute(limit, actions).runs[id]; RecordAgrees(run) && (run.ended ==> LastEventCarries(run))
  {
    ReachableInv(limit, actions);
    ReachableServed(limit, actions);
    RunRecordAgrees(Execute(limit, actions).runs[id]);
  }

  // ---- What a reply leaves ----

  lemma {:induction false} TextsConcat(a: seq<Option<string>>, b: seq<Option<string>>)
    ensures NonEmptyTexts(a + b) == NonEmptyTexts(a) + NonEmptyTexts(b)
  {
    if a == [] {
      assert a + b == b;
    } else {
      var head := if a[0].Some? && a[0].value != "" then [a[0].value] else [];
      TextsConcat(a[1..], b);
      assert (a + b)[1..] == a[1..] + b;
      assert NonEmptyTexts(a + b) == head + NonEmptyTexts(a[1..] + b);
      assert head + (NonEmptyTexts(a[1..]) + NonEmptyTexts(b)) == (head + NonEmptyTexts(a[1..])) + NonEmptyTexts(b);
    }
  }

  lemma OneText(part: Option<string>)
    ensures TextFromParts([part]) == if part.Some? then part.value else ""
  {
    assert NonEmptyTexts([part][1..]) == [];
    assert NonEmptyTexts([part]) == if part.Some? && part.value != "" then [part.value] else [];
  }

  lemma {:induction false} JoinConcat(a: seq<string>, b: seq<string>, sep: char)
    requires a != [] && b != []
    ensures Join(a + b, sep) == Join(a, sep) + [sep] + Join(b, sep)
  {
    if |a| == 1 {
      assert (a + b)[1..] == b;
    } else {
      JoinConcat(a[1..], b, sep);
      assert (a + b)[1..] == a[1..] + b;
    }
  }

  lemma {:induction false} JoinedIsNotEmpty(texts: seq<Option<string>>)
    ensures NonEmptyTexts(texts) != [] <==> TextFromParts(texts) != ""
  {
    if texts != [] {
      JoinedIsNotEmpty(texts[1..]);
    }
  }

  // The texts of the parts, one line break between two of them, with the empty ones left out: this is what joining two
  // stretches of parts comes to, and what one part comes to.
  lemma TextsAreJoined(a: seq<Option<string>>, b: seq<Option<string>>, part: Option<string>)
    ensures TextFromParts([]) == ""
    ensures TextFromParts([part]) == if part.Some? then part.value else ""
    ensures var left, right := TextFromParts(a), TextFromParts(b);
      TextFromParts(a + b) == if left == "" then right else if right == "" then left else left + "\n" + right
  {
    OneText(part);
    TextsConcat(a, b);
    JoinedIsNotEmpty(a);
    JoinedIsNotEmpty(b);
    var left, right := NonEmptyTexts(a), NonEmptyTexts(b);
    if left != [] && right != [] {
      JoinConcat(left, right, '\n');
    } else if left == [] {
      assert left + right == right;
    } else {
      assert left + right == left;
    }
  }

  // A reply with text leaves its text. Without any, a failed tool leaves a fixed line and any other reply is printed.
  lemma RepliesLeaveText(reply: Reply)
    ensures TextFromParts(reply.texts) != "" ==> ReplyContent(reply) == TextFromParts(reply.texts)
    ensures TextFromParts(reply.texts) == "" ==>
      match reply
      case ToolReply(isError, _, printed) => ReplyContent(reply) == if isError then "The tool failed." else printed
      case ResourceReply(_, printed) => ReplyContent(reply) == printed
    ensures TextFromParts(reply.texts) == "" <==>
      forall k :: 0 <= k < |reply.texts| ==> reply.texts[k] == None || reply.texts[k] == Some("")
  {
    JoinedIsNotEmpty(reply.texts);
    NoTexts(reply.texts);
  }

  lemma {:induction false} NoTexts(texts: seq<Option<string>>)
    ensures NonEmptyTexts(texts) == [] <==> forall k :: 0 <= k < |texts| ==> texts[k] == None || texts[k] == Some("")
  {
    if texts != [] {
      NoTexts(texts[1..]);
      assert texts == [texts[0]] + texts[1..];
    }
  }

  // ---- What the model sees ----

  predicate IsModelCall(obs: Obs) {
    obs.Began? && obs.call.ModelCall?
  }

  // A model call at `i` sees the messages up to the outcomes before it. `seen` outcomes came before the trace.
  ghost predicate InformedAt(trace: seq<Obs>, messages: seq<Message>, seen: nat, i: nat)
    requires i < |trace|
  {
    IsModelCall(trace[i]) ==>
      var n := seen + |Outcomes(Events(trace[..i]))|;
      n <= |messages| && trace[i].call.messages == messages[..n]
  }

  ghost predicate Informed(trace: seq<Obs>, messages: seq<Message>, seen: nat) {
    forall i :: 0 <= i < |trace| ==> InformedAt(trace, messages, seen, i)
  }

  lemma InformedEarlier(a: seq<Obs>, b: seq<Obs>, messages: seq<Message>, seen: nat, i: nat)
    requires i < |a| && InformedAt(a, messages, seen, i)
    ensures InformedAt(a + b, messages, seen, i)
  {
    assert (a + b)[..i] == a[..i] && (a + b)[i] == a[i];
  }

  lemma InformedLater(a: seq<Obs>, b: seq<Obs>, messages: seq<Message>, seen: nat, next: nat, i: nat)
    requires |a| <= i < |a| + |b| && next == seen + |Outcomes(Events(a))| && InformedAt(b, messages, next, i - |a|)
    ensures InformedAt(a + b, messages, seen, i)
  {
    var k := i - |a|;
    assert (a + b)[..i] == a + b[..k] && (a + b)[i] == b[k];
    EventsConcat(a, b[..k]);
    OutcomesConcat(Events(a), Events(b[..k]));
  }

  lemma InformedConcat(a: seq<Obs>, b: seq<Obs>, messages: seq<Message>, seen: nat, next: nat)
    requires Informed(a, messages, seen) && Informed(b, messages, next) && next == seen + |Outcomes(Events(a))|
    ensures Informed(a + b, messages, seen)
  {
    forall i | 0 <= i < |a + b|
      ensures InformedAt(a + b, messages, seen, i)
    {
      if i < |a| {
        InformedEarlier(a, b, messages, seen, i);
      } else {
        InformedLater(a, b, messages, seen, next, i);
      }
    }
  }

  lemma InformedPrefix(trace: seq<Obs>, messages: seq<Message>, more: seq<Message>, seen: nat)
    requires Informed(trace, messages, seen)
    ensures Informed(trace, messages + more, seen)
  {
    forall i | 0 <= i < |trace|
      ensures InformedAt(trace, messages + more, seen, i)
    {
      assert InformedAt(trace, messages, seen, i);
      var n := seen + |Outcomes(Events(trace[..i]))|;
      assert n <= |messages| ==> (messages + more)[..n] == messages[..n];
    }
  }

  // A stretch that asks the model at its start and nowhere else.
  lemma InformedBlock(block: seq<Obs>, messages: seq<Message>, seen: nat)
    requires forall i :: 0 < i < |block| ==> !IsModelCall(block[i])
    requires block != [] && IsModelCall(block[0]) ==> seen <= |messages| && block[0].call.messages == messages[..seen]
    ensures Informed(block, messages, seen)
  {
    forall i | 0 <= i < |block|
      ensures InformedAt(block, messages, seen, i)
    {
      if i == 0 {
        assert block[..0] == [] && Events([]) == [];
      }
    }
  }

  lemma RoundAsksOnce(list: ModelList, seen: seq<Message>, round: Round)
    requires RoundServed(list, round)
    ensures RoundTrace(seen, round)[0] == Began(ModelCall(seen))
    ensures forall i :: 0 < i < |RoundTrace(seen, round)| ==> !IsModelCall(RoundTrace(seen, round)[i])
  {
    if round.Ran? {
      ServedIsToolOrRead(list, round.ask, round.call);
    }
    RoundTraceAsksOnce(seen, round);
  }

  lemma RoundTraceAsksOnce(seen: seq<Message>, round: Round)
    requires round.Ran? ==> !round.call.ModelCall?
    ensures RoundTrace(seen, round)[0] == Began(ModelCall(seen))
    ensures forall i :: 0 < i < |RoundTrace(seen, round)| ==> !IsModelCall(RoundTrace(seen, round)[i])
  {
  }

  lemma {:induction false} RoundsInformed(list: ModelList, seed: seq<Message>, rounds: seq<Round>)
    requires forall k :: 0 <= k < |rounds| ==> RoundServed(list, rounds[k])
    ensures Informed(RoundsTrace(seed, rounds), MessagesAfter(seed, rounds), |seed|)
  {
    if rounds != [] {
      var init, last := rounds[..|rounds| - 1], rounds[|rounds| - 1];
      var before, messages := MessagesAfter(seed, init), MessagesAfter(seed, rounds);
      RoundsInformed(list, seed, init);
      InformedPrefix(RoundsTrace(seed, init), before, [OutcomeMessage(last)], |seed|);
      RoundAsksOnce(list, before, last);
      assert messages[..|before|] == before;
      InformedBlock(RoundTrace(before, last), messages, |before|);
      RoundsTraceEvents(seed, init);
      RoundOutcomes(init);
      InformedConcat(RoundsTrace(seed, init), RoundTrace(before, last), messages, |seed|, |before|);
    }
  }

  lemma PermittedAsksOnce(seen: seq<Message>, ask: Ask, call: Call)
    requires !call.ModelCall?
    ensures forall i :: 0 < i < 5 ==> !IsModelCall((PermittedTrace(seen, ask) + [Began(call)])[i])
  {
  }

  lemma OpenAsksOnce(list: ModelList, run: Run)
    requires PcServed(list, run.pc)
    ensures var open := OpenTrace(run.pc, run.messages, run);
      && (forall i :: 0 < i < |open| ==> !IsModelCall(open[i]))
      && (open != [] && IsModelCall(open[0]) ==> open[0] == Began(ModelCall(run.messages)))
  {
    if run.pc.Running? || run.pc.Returned? {
      ServedIsToolOrRead(list, run.pc.ask, run.pc.call);
      PermittedAsksOnce(run.messages, run.pc.ask, run.pc.call);
    }
  }

  lemma OpenInformed(list: ModelList, run: Run)
    requires PcServed(list, run.pc)
    ensures Informed(OpenTrace(run.pc, run.messages, run), run.messages, |run.messages|)
  {
    OpenAsksOnce(list, run);
    assert run.messages[..|run.messages|] == run.messages;
    InformedBlock(OpenTrace(run.pc, run.messages, run), run.messages, |run.messages|);
  }

  // A stretch without model calls is informed wherever it stands.
  lemma SilentIsInformed(trace: seq<Obs>, messages: seq<Message>, seen: nat)
    requires forall i :: 0 <= i < |trace| ==> !IsModelCall(trace[i])
    ensures Informed(trace, messages, seen)
  {
    InformedBlock(trace, messages, seen);
  }

  lemma RoundsThenOpenInformed(list: ModelList, run: Run)
    requires run.messages == MessagesAfter(run.seed, run.rounds) && PcServed(list, run.pc)
    requires forall k :: 0 <= k < |run.rounds| ==> RoundServed(list, run.rounds[k])
    ensures Informed(RoundsTrace(run.seed, run.rounds) + OpenTrace(run.pc, run.messages, run), run.messages, |run.seed|)
  {
    RoundsInformed(list, run.seed, run.rounds);
    RoundsTraceEvents(run.seed, run.rounds);
    RoundOutcomes(run.rounds);
    OpenInformed(list, run);
    InformedConcat(RoundsTrace(run.seed, run.rounds), OpenTrace(run.pc, run.messages, run), run.messages,
                   |run.seed|, |run.messages|);
  }

  lemma StoryRegrouped(run: Run)
    ensures Story(run) ==
      Opening(run.pc) + (RoundsTrace(run.seed, run.rounds) + OpenTrace(run.pc, run.messages, run)) + StopMark(run)
  {
  }

  // A silent stretch on either side changes nothing, as long as the first one reports no outcome.
  lemma InformedBetween(before: seq<Obs>, trace: seq<Obs>, after: seq<Obs>, messages: seq<Message>, seen: nat)
    requires Informed(trace, messages, seen) && Outcomes(Events(before)) == []
    requires forall i :: 0 <= i < |before| ==> !IsModelCall(before[i])
    requires forall i :: 0 <= i < |after| ==> !IsModelCall(after[i])
    ensures Informed(before + trace + after, messages, seen)
  {
    SilentIsInformed(before, messages, seen);
    InformedConcat(before, trace, messages, seen, seen);
    var next := seen + |Outcomes(Events(before + trace))|;
    SilentIsInformed(after, messages, next);
    InformedConcat(before + trace, after, messages, seen, next);
  }

  lemma StoryInformed(list: ModelList, run: Run)
    requires run.messages == MessagesAfter(run.seed, run.rounds) && PcServed(list, run.pc)
    requires forall k :: 0 <= k < |run.rounds| ==> RoundServed(list, run.rounds[k])
    ensures Informed(Story(run), run.messages, |run.seed|)
  {
    var middle := RoundsTrace(run.seed, run.rounds) + OpenTrace(run.pc, run.messages, run);
    RoundsThenOpenInformed(list, run);
    OpeningHasNoOutcome(run.pc);
    StoryRegrouped(run);
    EndsAreSilent(run);
    InformedBetween(Opening(run.pc), middle, StopMark(run), run.messages, |run.seed|);
  }

  lemma EndsAreSilent(run: Run)
    ensures forall i :: 0 <= i < |Opening(run.pc)| ==> !IsModelCall(Opening(run.pc)[i])
    ensures forall i :: 0 <= i < |StopMark(run)| ==> !IsModelCall(StopMark(run)[i])
  {
  }

  lemma OpeningHasNoOutcome(pc: Pc)
    ensures Outcomes(Events(Opening(pc))) == []
  {
    if !pc.Scheduled? {
      EventsOfOne(Emitted(SelectingEvent));
      EventsOfOne(Began(ListCall));
      EventsOfTwo(Emitted(SelectingEvent), Began(ListCall));
    }
    NoOutcomes(Events(Opening(pc)));
  }

  lemma TraceInformed(run: Run)
    requires RunInv(run) && ServedInv(run)
    ensures Informed(run.trace, run.messages, |run.seed|)
  {
    if run.list.None? {
      assert run.rounds == [];
    }
    StoryInformed(ListOf(run), run);
    TraceParts(run);
    if run.ended {
      var next := |run.seed| + |Outcomes(Events(Story(run)))|;
      SilentIsInformed(EndMark(run), run.messages, next);
      InformedConcat(Story(run), EndMark(run), run.messages, |run.seed|, next);
    }
  }

  // In every interleaving, each model call sees the seed and exactly the messages of the outcomes before it.
  lemma EveryModelCallIsInformed(limit: int, actions: seq<Action>, id: string)
    requires id in Execute(limit, actions).runs
    ensures var run := Execute(limit, actions).runs[id]; Informed(run.trace, run.messages, |run.seed|)
  {
    ReachableInv(limit, actions);
    ReachableServed(limit, actions);
    TraceInformed(Execute(limit, actions).runs[id]);
  }
}
