// Who is let in: one prompt per conversation, and the answer every HTTP call gets, from the full history.
module PromptAdmission {
  import opened Wrappers
  import opened Seqs
  import opened Gateway
  import opened PromptRecord
  import opened PromptProtocol
  import opened PromptInvariant
  import opened PromptReservations
  import opened PromptTraces
  import opened PromptTheorems

  // ---- Reservations ----

  // At most one prompt per conversation is being answered, and a start is turned away exactly while there is one.
  lemma OnePromptPerConversation(limit: int, actions: seq<Action>, a: string, b: string)
    requires var s := Execute(limit, actions);
      && a in s.runs && IsAnswering(s.runs[a].phase)
      && b in s.runs && IsAnswering(s.runs[b].phase)
      && s.runs[a].conversationId == s.runs[b].conversationId
    ensures a == b
    ensures Execute(limit, actions).runs[a].conversationId in Execute(limit, actions).byConversation
  {
    ReachableInv(limit, actions);
  }

  ghost predicate Occupied(s: State, conversation: string) {
    exists id :: id in s.runs && IsAnswering(s.runs[id].phase) && s.runs[id].conversationId == conversation
  }

  lemma StartIsBusyExactlyWhenOccupied(limit: int, actions: seq<Action>, input: StartInput, turns: seq<Turn>)
    requires SelectionOf(turns, input.turnIds).Ok?
    ensures StartResult(Execute(limit, actions), input, turns) == Err(Busy)
      <==> Occupied(Execute(limit, actions), input.conversationId)
  {
    ReachableInv(limit, actions);
    var s := Execute(limit, actions);
    if input.conversationId in s.byConversation {
      assert s.runs[s.byConversation[input.conversationId]].conversationId == input.conversationId;
    }
  }

  lemma SegmentFollows(s: State, id: string, segment: Segment)
    requires Inv(s) && id in s.runs && Enabled(s.runs[id], segment)
    ensures Follows(s, id, RunStep(s.runs[id], segment))
  {
    ChangedFollows(s, Advance(id, segment));
  }

  lemma AdvanceCommits(s: State, id: string, segment: Segment)
    requires id in s.runs && Enabled(s.runs[id], segment)
    ensures Next(s, Advance(id, segment)) == Commit(s, id, RunStep(s.runs[id], segment))
  {
  }

  // A stopped run that is still draining changes its own record and nothing else: no reservation, no window entry.
  lemma DrainingDisturbsNothing(s: State, id: string, segment: Segment)
    requires Inv(s) && id in s.runs && !IsAnswering(s.runs[id].phase) && Enabled(s.runs[id], segment)
    ensures Next(s, Advance(id, segment)) == s.(runs := s.runs[id := RunStep(s.runs[id], segment)])
  {
    AdvanceCommits(s, id, segment);
    SegmentFollows(s, id, segment);
    FollowingReleasesNothing(s, id, RunStep(s.runs[id], segment));
  }

  lemma FollowingReleasesNothing(s: State, id: string, run: Run)
    requires Follows(s, id, run) && !IsAnswering(s.runs[id].phase)
    ensures Commit(s, id, run) == s.(runs := s.runs[id := run])
  {
  }

  lemma CommitKeepsOtherReservations(s: State, other: string, run: Run, id: string)
    requires other in s.runs && other != id && id in s.active
    ensures id in Commit(s, other, run).active
  {
  }

  lemma StartKeepsReservations(s: State, action: Action, id: string)
    requires action.Start? && id in s.active
    ensures id in Next(s, action).active
  {
  }

  // A prompt leaves `active` only by a change of its own record.
  lemma OtherActionsKeepReservations(s: State, action: Action, id: string)
    requires id in s.active && (action.Start? || action.promptId != id)
    ensures id in Next(s, action).active
  {
    if action.Start? {
      StartKeepsReservations(s, action, id);
    } else {
      NextCommits(s, action);
      if Changed(s, action).Some? {
        CommitKeepsOtherReservations(s, action.promptId, Changed(s, action).value, id);
      }
    }
  }

  // What a release leaves behind: the prompt's own reservation is gone, every other one stays.
  ghost predicate ReleasesItsOwn(s: State, next: State, id: string) {
    && id in s.runs
    && var conversation := s.runs[id].conversationId;
       && conversation in s.byConversation && s.byConversation[conversation] == id
       && next.byConversation == s.byConversation - {conversation}
  }

  lemma CommitReleasesItsOwn(s: State, id: string, run: Run)
    requires ConversationsFit(s) && id in s.active && id in s.runs && SameOrigin(s.runs[id], run)
    requires id !in Commit(s, id, run).active
    ensures ReleasesItsOwn(s, Commit(s, id, run), id)
  {
  }

  // In every interleaving, the action that takes a prompt out of `active` finds the reservation of its conversation
  // still pointing at it: the check in `claimTerminal` never fails, and no other reservation is lost.
  lemma ReleaseFindsItsOwnReservation(limit: int, actions: seq<Action>, action: Action, id: string)
    requires id in Execute(limit, actions).active && id !in Execute(limit, actions + [action]).active
    ensures ReleasesItsOwn(Execute(limit, actions), Execute(limit, actions + [action]), id)
  {
    ReachableInv(limit, actions);
    ExecuteStep(limit, actions, action);
    NextReleasesItsOwn(Execute(limit, actions), action, id);
  }

  lemma NextReleasesItsOwn(s: State, action: Action, id: string)
    requires Inv(s) && id in s.active && id !in Next(s, action).active
    ensures ReleasesItsOwn(s, Next(s, action), id)
  {
    if action.Start? || action.promptId != id {
      OtherActionsKeepReservations(s, action, id);
    } else {
      NextCommits(s, action);
      if Changed(s, action).Some? {
        ChangedFollows(s, action);
        CommitReleasesItsOwn(s, id, Changed(s, action).value);
      }
    }
  }

  // ---- Outcomes ----

  // `id` is among the last `limit` prompts that finished.
  predicate Remembered(s: State, id: string) {
    id in Recent(s.limit, s.history)
  }

  lemma {:induction false} OwnerLookup(finished: seq<Finished>, id: string)
    requires forall i, j :: 0 <= i < j < |finished| ==> finished[i].promptId != finished[j].promptId
    ensures forall i :: 0 <= i < |finished| && finished[i].promptId == id
              ==> FinishedOwner(finished, id) == Some(finished[i].userId)
    ensures (forall i :: 0 <= i < |finished| ==> finished[i].promptId != id) ==> FinishedOwner(finished, id) == None
  {
    if finished != [] {
      OwnerLookup(finished[1..], id);
      forall i | 0 <= i < |finished| && finished[i].promptId == id
        ensures FinishedOwner(finished, id) == Some(finished[i].userId)
      {
        if i > 0 {
          assert finished[1..][i - 1] == finished[i];
        }
      }
      assert forall i :: 0 <= i < |finished| - 1 ==> finished[1..][i] == finished[i + 1];
    }
  }

  lemma RememberedOwner(s: State, id: string)
    requires HistoryFits(s) && WindowFits(s)
    ensures FinishedOwner(s.finished, id)
      == if Remembered(s, id) && id in s.runs then Some(s.runs[id].userId) else None
  {
    var recent := Recent(s.limit, s.history);
    RecentIsOld(s.limit, s.history);
    assert forall i :: 0 <= i < |recent| ==> recent[i] in recent;
    assert forall i, j :: 0 <= i < j < |recent| ==> recent[i] != recent[j];
    OwnerLookup(s.finished, id);
    if Remembered(s, id) {
      var i :| 0 <= i < |recent| && recent[i] == id;
      assert s.finished[i].promptId == id;
    }
  }

  // The outcome of a stop, read off the history: owner, phase, and place in the finishing order.
  function StopVerdict(s: State, id: string, userId: string): Outcome {
    if id !in s.runs || s.runs[id].userId != userId then NotFound
    else if IsAnswering(s.runs[id].phase) then Accepted
    else if Remembered(s, id) then Rejected
    else NotFound
  }

  // The outcome of a permit or refuse: a live prompt accepts it exactly when it is parked at an ask for that item.
  function SettleVerdict(s: State, id: string, userId: string, item: Selection): Outcome {
    if id !in s.runs || s.runs[id].userId != userId then NotFound
    else if IsAnswering(s.runs[id].phase) then
      if s.runs[id].pc.Asking? && s.runs[id].pc.ask.item == item then Accepted else Rejected
    else if Remembered(s, id) then Rejected
    else NotFound
  }

  // The maps answer every call the way the full history does.
  lemma MapsAnswerLikeHistory(limit: int, actions: seq<Action>, id: string, userId: string, item: Selection)
    ensures var s := Execute(limit, actions);
      && StopOutcome(s, id, userId) == StopVerdict(s, id, userId)
      && SettleOutcome(s, id, userId, item) == SettleVerdict(s, id, userId, item)
  {
    ReachableInv(limit, actions);
    var s := Execute(limit, actions);
    RememberedOwner(s, id);
    RecentIsOld(s.limit, s.history);
    if id in s.runs {
      assert RunInv(s.runs[id]);
    }
  }

  ghost predicate HoldsRecent(s: State) {
    && |s.finished| == WindowSize(s.limit, |s.history|)
    && forall i :: 0 <= i < |s.finished| ==>
         var id := s.history[|s.history| - |s.finished| + i];
         id in s.runs && s.finished[i] == Finished(id, s.runs[id].userId)
  }

  lemma WindowHoldsRecent(s: State)
    requires HistoryFits(s) && WindowFits(s)
    ensures HoldsRecent(s)
  {
    RecentIsOld(s.limit, s.history);
    forall i | 0 <= i < |s.finished|
      ensures var id := s.history[|s.history| - |s.finished| + i];
        id in s.runs && s.finished[i] == Finished(id, s.runs[id].userId)
    {
      assert Recent(s.limit, s.history)[i] == s.history[|s.history| - |s.finished| + i];
    }
  }

  // `finishedPrompts` is always the last prompts that finished, in finishing order, with their owners.
  lemma WindowIsTheRecentHistory(limit: int, actions: seq<Action>)
    ensures Execute(limit, actions).limit == limit && HoldsRecent(Execute(limit, actions))
  {
    ReachableInv(limit, actions);
    LimitIsFixed(limit, actions);
    WindowHoldsRecent(Execute(limit, actions));
  }

  lemma {:induction false} LimitIsFixed(limit: int, actions: seq<Action>)
    ensures Execute(limit, actions).limit == limit
  {
    if actions != [] {
      LimitIsFixed(limit, actions[..|actions| - 1]);
    }
  }

  // The history only grows, at its end, and exactly by the prompt that the action finishes: it is the finishing order.
  lemma HistoryIsTheFinishingOrder(s: State, action: Action)
    requires Inv(s)
    ensures var next := Next(s, action);
      if !action.Start? && action.promptId in s.active && action.promptId !in next.active
      then next.history == s.history + [action.promptId]
           && action.promptId in next.runs && !IsAnswering(next.runs[action.promptId].phase)
      else next.history == s.history
  {
    if !action.Start? {
      NextCommits(s, action);
      if Changed(s, action).Some? {
        ChangedFollows(s, action);
        CommitExtendsHistory(s, action.promptId, Changed(s, action).value);
      }
    }
  }

  lemma CommitExtendsHistory(s: State, id: string, run: Run)
    requires ActiveFits(s) && id in s.runs
    ensures var next := Commit(s, id, run);
      if id in s.active && id !in next.active
      then next.history == s.history + [id] && next.runs == s.runs[id := run] && !IsAnswering(run.phase)
      else next.history == s.history
  {
  }

  // ---- The replay for a new stream ----

  // The open asks of a user among some active prompts, in their order.
  function AsksAmong(runs: map<string, Run>, ids: seq<string>, userId: string): (asks: seq<(string, Ask)>)
    ensures forall id, ask ::
              (id, ask) in asks <==> id in ids && id in runs && runs[id].userId == userId && runs[id].pending == Some(ask)
  {
    if ids == [] then []
    else
      var earlier, last := ids[..|ids| - 1], ids[|ids| - 1];
      assert ids == earlier + [last];
      AsksAmong(runs, earlier, userId)
      + (if last in runs && runs[last].userId == userId && runs[last].pending.Some?
         then [(last, runs[last].pending.value)] else [])
  }

  // The prompts started so far, in the order of their starts.
  function Starts(limit: int, actions: seq<Action>): seq<string> {
    if actions == [] then []
    else
      var earlier, last := actions[..|actions| - 1], actions[|actions| - 1];
      Starts(limit, earlier)
      + (if last.Start? && last.freshId !in Execute(limit, earlier).runs && last.freshId in Execute(limit, actions).runs
         then [last.freshId] else [])
  }

  // What one more prompt adds to those being answered.
  function Kept(runs: map<string, Run>, id: string): seq<string> {
    if id in runs && IsAnswering(runs[id].phase) then [id] else []
  }

  // Those among them that are being answered.
  function Answering(runs: map<string, Run>, ids: seq<string>): (answering: seq<string>)
    ensures forall id :: id in answering <==> id in ids && id in runs && IsAnswering(runs[id].phase)
  {
    if ids == [] then []
    else
      var earlier, last := ids[..|ids| - 1], ids[|ids| - 1];
      assert ids == earlier + [last];
      Answering(runs, earlier) + Kept(runs, last)
  }

  lemma {:induction false} AnsweringLosesOne(runs: map<string, Run>, id: string, run: Run, ids: seq<string>)
    requires !IsAnswering(run.phase)
    ensures Answering(runs[id := run], ids) == Without(Answering(runs, ids), id)
  {
    if ids != [] {
      var earlier, last := ids[..|ids| - 1], ids[|ids| - 1];
      AnsweringLosesOne(runs, id, run, earlier);
      WithoutKept(runs, Answering(runs, earlier), last, id, run);
    }
  }

  lemma WithoutKept(runs: map<string, Run>, ids: seq<string>, last: string, id: string, run: Run)
    requires !IsAnswering(run.phase)
    ensures Without(ids + Kept(runs, last), id) == Without(ids, id) + Kept(runs[id := run], last)
  {
    WithoutStep(ids, last, id);
    assert ids + [] == ids && Without(ids, id) + [] == Without(ids, id);
  }

  lemma WithoutStep(ids: seq<string>, last: string, id: string)
    ensures Without(ids + [last], id) == Without(ids, id) + (if last == id then [] else [last])
  {
    assert (ids + [last])[..|ids|] == ids;
  }

  lemma {:induction false} AnsweringStays(runs: map<string, Run>, id: string, run: Run, ids: seq<string>)
    requires id in runs && IsAnswering(runs[id].phase) == IsAnswering(run.phase)
    ensures Answering(runs[id := run], ids) == Answering(runs, ids)
  {
    if ids != [] {
      AnsweringStays(runs, id, run, ids[..|ids| - 1]);
    }
  }

  lemma {:induction false} AnsweringIgnoresNew(runs: map<string, Run>, ids: seq<string>, id: string, run: Run)
    requires id !in ids
    ensures Answering(runs[id := run], ids) == Answering(runs, ids)
  {
    if ids != [] {
      assert ids == ids[..|ids| - 1] + [ids[|ids| - 1]];
      AnsweringIgnoresNew(runs, ids[..|ids| - 1], id, run);
    }
  }

  ghost predicate InStartOrder(s: State, starts: seq<string>) {
    && (forall id :: id in starts ==> id in s.runs)
    && s.active == Answering(s.runs, starts)
  }

  lemma CommitKeepsStartOrder(s: State, id: string, run: Run, starts: seq<string>)
    requires InStartOrder(s, starts) && Follows(s, id, run)
    ensures InStartOrder(Commit(s, id, run), starts)
  {
    if IsAnswering(s.runs[id].phase) && !IsAnswering(run.phase) {
      AnsweringLosesOne(s.runs, id, run, starts);
    } else {
      AnsweringStays(s.runs, id, run, starts);
    }
  }

  lemma ReserveKeepsStartOrder(s: State, id: string, run: Run, starts: seq<string>)
    requires InStartOrder(s, starts) && id !in s.runs && IsAnswering(run.phase)
    ensures InStartOrder(Reserve(s, id, run), starts + [id])
  {
    AnsweringIgnoresNew(s.runs, starts, id, run);
    assert (starts + [id])[..|starts|] == starts;
  }

  lemma StartKeepsStartOrder(s: State, action: Action, starts: seq<string>)
    requires InStartOrder(s, starts) && action.Start?
    ensures InStartOrder(Next(s, action),
                         starts + if action.freshId !in s.runs && action.freshId in Next(s, action).runs
                                  then [action.freshId] else [])
  {
    var selected := StartResult(s, action.input, action.turns);
    if action.freshId != "" && action.freshId !in s.runs && selected.Ok? {
      ReserveKeepsStartOrder(s, action.freshId, NewRun(action.input, selected.value, action.startedAt), starts);
    } else {
      assert starts + [] == starts;
    }
  }

  // In every interleaving `activePrompts` lists exactly the prompts being answered, in the order of their starts.
  lemma {:induction false} ActiveIsInStartOrder(limit: int, actions: seq<Action>)
    ensures InStartOrder(Execute(limit, actions), Starts(limit, actions))
  {
    if actions != [] {
      var earlier, last := actions[..|actions| - 1], actions[|actions| - 1];
      ActiveIsInStartOrder(limit, earlier);
      ReachableInv(limit, earlier);
      ActionKeepsStartOrder(Execute(limit, earlier), last, Starts(limit, earlier));
    }
  }

  lemma ActionKeepsStartOrder(s: State, action: Action, starts: seq<string>)
    requires Inv(s) && InStartOrder(s, starts)
    ensures InStartOrder(Next(s, action),
                         starts + if action.Start? && action.freshId !in s.runs && action.freshId in Next(s, action).runs
                                  then [action.freshId] else [])
  {
    if action.Start? {
      StartKeepsStartOrder(s, action, starts);
    } else {
      assert starts + [] == starts;
      NextCommits(s, action);
      if Changed(s, action).Some? {
        ChangedFollows(s, action);
        CommitKeepsStartOrder(s, action.promptId, Changed(s, action).value, starts);
      }
    }
  }

  // The asks that a stream opened now is sent again, in the order of `activePrompts`.
  function OpenAsks(s: State, userId: string): seq<(string, Ask)> {
    AsksAmong(s.runs, s.active, userId)
  }

  // A new stream is sent exactly the unanswered asks of its user: those whose last event is their `permission`.
  lemma ReplayIsTheUnansweredAsks(limit: int, actions: seq<Action>, userId: string, id: string, ask: Ask)
    ensures var s := Execute(limit, actions);
      (id, ask) in OpenAsks(s, userId) <==>
        && id in s.runs && s.runs[id].userId == userId
        && s.runs[id].trace != [] && s.runs[id].trace[|s.runs[id].trace| - 1] == Emitted(PermissionEvent(ask))
  {
    ReachableInv(limit, actions);
    OpenAsksAreLast(Execute(limit, actions), userId, id, ask);
  }

  // And in the order in which their prompts started.
  lemma ReplayIsInStartOrder(limit: int, actions: seq<Action>, userId: string)
    ensures OpenAsks(Execute(limit, actions), userId)
         == AsksAmong(Execute(limit, actions).runs, Starts(limit, actions), userId)
  {
    ReachableInv(limit, actions);
    ActiveIsInStartOrder(limit, actions);
    PendingAreAnswering(Execute(limit, actions));
    OnlyAnsweringAsk(Execute(limit, actions).runs, Starts(limit, actions), userId);
  }

  ghost predicate OnlyAnsweringWait(runs: map<string, Run>) {
    forall id :: id in runs && runs[id].pending.Some? ==> IsAnswering(runs[id].phase)
  }

  lemma PendingAreAnswering(s: State)
    requires RunsFit(s)
    ensures OnlyAnsweringWait(s.runs)
  {
    forall id | id in s.runs && s.runs[id].pending.Some?
      ensures IsAnswering(s.runs[id].phase)
    {
      assert RunInv(s.runs[id]);
    }
  }

  lemma {:induction false} OnlyAnsweringAsk(runs: map<string, Run>, ids: seq<string>, userId: string)
    requires OnlyAnsweringWait(runs)
    ensures AsksAmong(runs, Answering(runs, ids), userId) == AsksAmong(runs, ids, userId)
  {
    if ids != [] {
      var earlier, last := ids[..|ids| - 1], ids[|ids| - 1];
      OnlyAnsweringAsk(runs, earlier, userId);
      AsksStep(runs, Answering(runs, earlier), last, userId);
      assert Answering(runs, earlier) + [] == Answering(runs, earlier);
      assert AsksAmong(runs, earlier, userId) + [] == AsksAmong(runs, earlier, userId);
    }
  }

  lemma AsksStep(runs: map<string, Run>, ids: seq<string>, last: string, userId: string)
    ensures AsksAmong(runs, ids + [last], userId)
         == AsksAmong(runs, ids, userId)
            + (if last in runs && runs[last].userId == userId && runs[last].pending.Some?
               then [(last, runs[last].pending.value)] else [])
  {
    assert (ids + [last])[..|ids|] == ids;
  }

  lemma OpenAsksAreLast(s: State, userId: string, id: string, ask: Ask)
    requires ActiveFits(s) && (id in s.runs ==> RunInv(s.runs[id]))
    ensures (id, ask) in OpenAsks(s, userId) <==>
      && id in s.runs && s.runs[id].userId == userId
      && s.runs[id].trace != [] && s.runs[id].trace[|s.runs[id].trace| - 1] == Emitted(PermissionEvent(ask))
  {
    if id in s.runs {
      OpenAskIsLast(s.runs[id], ask);
    }
  }

  lemma OpenAskIsLast(run: Run, ask: Ask)
    requires RunInv(run)
    ensures IsAnswering(run.phase) && run.pending == Some(ask) <==>
      run.trace != [] && run.trace[|run.trace| - 1] == Emitted(PermissionEvent(ask))
  {
    TraceParts(run);
    if run.ended {
      var mark := EndMark(run);
      assert EndFits(run, mark);
      assert run.trace[|run.trace| - 1] == mark[|mark| - 1];
    } else {
      StoryEnds(run, ask);
    }
  }

  lemma StoryEnds(run: Run, ask: Ask)
    requires RunInv(run) && !run.ended
    ensures run.pc == Asking(ask) <==>
      Story(run) != [] && Story(run)[|Story(run)| - 1] == Emitted(PermissionEvent(ask))
  {
    if run.stopAccepted {
      assert Story(run)[|Story(run)| - 1] == StopAccepted;
    } else if OpenTrace(run.pc, run.messages, run) == [] && run.rounds != [] {
      var init, last := run.rounds[..|run.rounds| - 1], run.rounds[|run.rounds| - 1];
      var block := RoundTrace(MessagesAfter(run.seed, init), last);
      assert Story(run)[|Story(run)| - 1] == block[|block| - 1];
    }
  }
}
