// The runner's three maps against the full history: reservations and the window of remembered prompts.
module PromptReservations {
  import opened Wrappers
  import opened Seqs
  import opened Catalog
  import opened Gateway
  import opened PromptRecord
  import opened PromptProtocol
  import opened PromptInvariant

  // ---- The window of finished prompts ----

  // How many of `n` finished prompts are remembered.
  function WindowSize(limit: int, n: nat): (k: nat)
    ensures k <= n
  {
    if limit <= 0 then 0 else if limit < n then limit else n
  }

  // The most recent prompts, in finishing order.
  function Recent(limit: int, history: seq<string>): seq<string> {
    history[|history| - WindowSize(limit, |history|)..]
  }

  function Entries(runs: map<string, Run>, ids: seq<string>): (entries: seq<Finished>)
    requires forall id :: id in ids ==> id in runs
    ensures |entries| == |ids|
    ensures forall i :: 0 <= i < |ids| ==> entries[i] == Finished(ids[i], runs[ids[i]].userId)
  {
    seq(|ids|, i requires 0 <= i < |ids| => Finished(ids[i], runs[ids[i]].userId))
  }

  lemma {:induction false} SettingNewEntryAppends(finished: seq<Finished>, entry: Finished)
    requires forall i :: 0 <= i < |finished| ==> finished[i].promptId != entry.promptId
    ensures SetFinished(finished, entry) == finished + [entry]
  {
    if finished != [] {
      SettingNewEntryAppends(finished[1..], entry);
      assert finished + [entry] == [finished[0]] + (finished[1..] + [entry]);
    }
  }

  lemma {:induction false} EvictionKeepsTheNewest(finished: seq<Finished>, limit: int)
    requires forall i :: 0 <= i < |finished| ==> finished[i].promptId != ""
    ensures Evict(finished, limit) == finished[|finished| - WindowSize(limit, |finished|)..]
  {
    if |finished| > limit && finished != [] {
      EvictionKeepsTheNewest(finished[1..], limit);
    }
  }

  // Remembering a prompt keeps exactly the newest ones within the limit.
  lemma NewestAreKept(finished: seq<Finished>, entry: Finished, limit: int)
    ensures (forall i :: 0 <= i < |finished| ==> finished[i].promptId != "" && finished[i].promptId != entry.promptId)
            && entry.promptId != "" ==>
      var all := finished + [entry];
      Evict(SetFinished(finished, entry), limit) == all[|all| - WindowSize(limit, |all|)..]
  {
    if (forall i :: 0 <= i < |finished| ==> finished[i].promptId != "" && finished[i].promptId != entry.promptId)
       && entry.promptId != "" {
      SettingNewEntryAppends(finished, entry);
      EvictionKeepsTheNewest(finished + [entry], limit);
    }
  }

  // ---- The invariant ----

  // `activePrompts` holds exactly the prompts being answered.
  ghost predicate ActiveFits(s: State) {
    forall id :: id in s.active <==> id in s.runs && IsAnswering(s.runs[id].phase)
  }

  // `activePromptByConversation` is its exact inverse by conversation.
  ghost predicate ConversationsFit(s: State) {
    && (forall id :: id in s.active && id in s.runs ==>
         s.runs[id].conversationId in s.byConversation && s.byConversation[s.runs[id].conversationId] == id)
    && (forall conversation :: conversation in s.byConversation ==>
         && s.byConversation[conversation] in s.active
         && s.byConversation[conversation] in s.runs
         && s.runs[s.byConversation[conversation]].conversationId == conversation)
  }

  ghost predicate HistoryFits(s: State) {
    && NoDuplicates(s.history)
    && (forall id :: id in s.history <==> id in s.runs && !IsAnswering(s.runs[id].phase))
  }

  // `finishedPrompts` is the window over the history.
  ghost predicate WindowFits(s: State) {
    && (forall id :: id in s.history ==> id in s.runs)
    && s.finished == Entries(s.runs, Recent(s.limit, s.history))
  }

  ghost predicate RunsFit(s: State) {
    && "" !in s.runs
    && forall id :: id in s.runs ==> RunInv(s.runs[id])
  }

  ghost predicate Inv(s: State) {
    RunsFit(s) && ActiveFits(s) && ConversationsFit(s) && HistoryFits(s) && WindowFits(s)
  }

  // ---- Preservation ----

  // Nothing brings a prompt back to "being answered", and its outcome stays what it was.
  lemma StepKeepsTerminalPhase(run: Run, segment: Segment)
    requires RunInv(run) && Enabled(run, segment) && !IsAnswering(run.phase)
    ensures RunStep(run, segment).phase == run.phase
  {
  }

  lemma WindowSlides(limit: int, history: seq<string>, id: string)
    ensures Recent(limit, history + [id])
      == var next := Recent(limit, history) + [id]; next[|next| - WindowSize(limit, |next|)..]
  {
  }

  lemma EntriesSlice(runs: map<string, Run>, ids: seq<string>, from: nat)
    requires from <= |ids|
    requires forall id :: id in ids ==> id in runs
    ensures forall id :: id in ids[from..] ==> id in runs
    ensures Entries(runs, ids)[from..] == Entries(runs, ids[from..])
  {
  }

  lemma RecentIsOld(limit: int, history: seq<string>)
    ensures forall id :: id in Recent(limit, history) ==> id in history
  {
  }

  lemma FinishedGrows(s: State, id: string, run: Run)
    requires WindowFits(s) && id in s.runs && id !in s.history && run.userId == s.runs[id].userId
    ensures forall other :: other in Recent(s.limit, s.history) + [id] ==> other in s.runs[id := run]
    ensures SetFinished(s.finished, Finished(id, run.userId))
      == Entries(s.runs[id := run], Recent(s.limit, s.history) + [id])
  {
    var recent := Recent(s.limit, s.history);
    RecentIsOld(s.limit, s.history);
    assert forall i :: 0 <= i < |recent| ==> recent[i] in recent;
    SettingNewEntryAppends(s.finished, Finished(id, run.userId));
  }

  // Finishing a prompt slides the window by one.
  lemma FinishingKeepsWindow(s: State, id: string, run: Run)
    requires RunsFit(s) && WindowFits(s)
    requires id in s.runs && id !in s.history && id != ""
    requires run.userId == s.runs[id].userId
    ensures forall other :: other in s.history + [id] ==> other in s.runs[id := run]
    ensures Evict(SetFinished(s.finished, Finished(id, run.userId)), s.limit)
      == Entries(s.runs[id := run], Recent(s.limit, s.history + [id]))
  {
    var runs, next := s.runs[id := run], Recent(s.limit, s.history) + [id];
    FinishedGrows(s, id, run);
    assert forall i :: 0 <= i < |next| ==> next[i] in next && next[i] != "";
    EvictionKeepsTheNewest(Entries(runs, next), s.limit);
    EntriesSlice(runs, next, |next| - WindowSize(s.limit, |next|));
    WindowSlides(s.limit, s.history, id);
  }

  lemma CommitKeepsWindow(s: State, id: string, run: Run)
    requires Inv(s) && id in s.runs && SameOrigin(s.runs[id], run)
    requires !IsAnswering(s.runs[id].phase) ==> run.phase == s.runs[id].phase
    ensures WindowFits(Commit(s, id, run))
  {
    RecentIsOld(s.limit, s.history);
    if IsAnswering(s.runs[id].phase) && !IsAnswering(run.phase) {
      FinishingKeepsWindow(s, id, run);
    } else {
      var recent := Recent(s.limit, s.history);
      assert Entries(s.runs[id := run], recent) == Entries(s.runs, recent);
    }
  }

  lemma CommitKeepsHistory(s: State, id: string, run: Run)
    requires HistoryFits(s) && id in s.runs
    requires !IsAnswering(s.runs[id].phase) ==> run.phase == s.runs[id].phase
    ensures HistoryFits(Commit(s, id, run))
  {
  }

  lemma CommitKeepsActive(s: State, id: string, run: Run)
    requires ActiveFits(s) && id in s.runs
    requires !IsAnswering(s.runs[id].phase) ==> run.phase == s.runs[id].phase
    ensures ActiveFits(Commit(s, id, run))
  {
  }

  lemma CommitKeepsConversations(s: State, id: string, run: Run)
    requires ActiveFits(s) && ConversationsFit(s) && id in s.runs && SameOrigin(s.runs[id], run)
    ensures ConversationsFit(Commit(s, id, run))
  {
    var next := Commit(s, id, run);
    forall other | other in next.active && other in next.runs
      ensures next.runs[other].conversationId in next.byConversation
      ensures next.byConversation[next.runs[other].conversationId] == other
    {
      assert other in s.active && s.runs[other].conversationId == next.runs[other].conversationId;
    }
  }

  lemma CommitKeepsRuns(s: State, id: string, run: Run)
    requires RunsFit(s) && id in s.runs && RunInv(run)
    ensures RunsFit(Commit(s, id, run))
  {
  }

  lemma CommitKeepsInv(s: State, id: string, run: Run)
    requires Inv(s) && id in s.runs && SameOrigin(s.runs[id], run) && RunInv(run)
    requires !IsAnswering(s.runs[id].phase) ==> run.phase == s.runs[id].phase
    ensures Inv(Commit(s, id, run))
  {
    CommitKeepsWindow(s, id, run);
    CommitKeepsHistory(s, id, run);
    CommitKeepsActive(s, id, run);
    CommitKeepsConversations(s, id, run);
    CommitKeepsRuns(s, id, run);
  }

  lemma ReserveKeepsWindow(s: State, id: string, run: Run)
    requires WindowFits(s) && id !in s.runs
    ensures WindowFits(Reserve(s, id, run))
  {
    var next, recent := Reserve(s, id, run), Recent(s.limit, s.history);
    RecentIsOld(s.limit, s.history);
    assert forall other :: other in s.history ==> other != id;
    assert Entries(next.runs, recent) == Entries(s.runs, recent);
  }

  lemma ReserveKeepsConversations(s: State, id: string, run: Run)
    requires ActiveFits(s) && ConversationsFit(s) && id !in s.runs && run.conversationId !in s.byConversation
    ensures ConversationsFit(Reserve(s, id, run))
  {
  }

  lemma ReserveKeepsActive(s: State, id: string, run: Run)
    requires ActiveFits(s) && IsAnswering(run.phase)
    ensures ActiveFits(Reserve(s, id, run))
  {
  }

  lemma ReserveKeepsHistory(s: State, id: string, run: Run)
    requires HistoryFits(s) && id !in s.runs && IsAnswering(run.phase)
    ensures HistoryFits(Reserve(s, id, run))
  {
  }

  lemma ReserveKeepsRuns(s: State, id: string, run: Run)
    requires RunsFit(s) && id != "" && RunInv(run)
    ensures RunsFit(Reserve(s, id, run))
  {
  }

  lemma ReserveKeepsInv(s: State, id: string, run: Run)
    requires Inv(s) && id !in s.runs && id != "" && RunInv(run) && IsAnswering(run.phase)
    requires run.conversationId !in s.byConversation
    ensures Inv(Reserve(s, id, run))
  {
    ReserveKeepsWindow(s, id, run);
    ReserveKeepsConversations(s, id, run);
    ReserveKeepsActive(s, id, run);
    ReserveKeepsHistory(s, id, run);
    ReserveKeepsRuns(s, id, run);
  }

  // What an action other than a start makes of its prompt's record, if it changes it.
  function Changed(s: State, action: Action): Option<Run>
    requires !action.Start?
  {
    match action
    case Settle(id, userId, item, decision) =>
      if decision != StopAsk && SettleOutcome(s, id, userId, item) == Accepted
      then Some(SettleRun(s.runs[id], decision)) else None
    case Stop(id, userId) =>
      if StopOutcome(s, id, userId) == Accepted then Some(StopRun(s.runs[id])) else None
    case Advance(id, segment) =>
      if id in s.runs && Enabled(s.runs[id], segment) then Some(RunStep(s.runs[id], segment)) else None
  }

  // A new record of one prompt that keeps what can be kept.
  ghost predicate Follows(s: State, id: string, run: Run) {
    && id in s.runs && SameOrigin(s.runs[id], run) && RunInv(run)
    && (!IsAnswering(s.runs[id].phase) ==> run.phase == s.runs[id].phase)
  }

  lemma ChangedFollows(s: State, action: Action)
    requires Inv(s) && !action.Start? && Changed(s, action).Some?
    ensures Follows(s, action.promptId, Changed(s, action).value)
  {
    var run := s.runs[action.promptId];
    assert RunInv(run);
    match action
    case Settle(_, _, _, decision) => SettleKeepsInv(run, decision);
    case Stop(_, _) => StopKeepsInv(run);
    case Advance(_, segment) =>
      RunStepKeepsInv(run, segment);
      if !IsAnswering(run.phase) {
        StepKeepsTerminalPhase(run, segment);
      }
  }

  lemma NextCommits(s: State, action: Action)
    requires !action.Start?
    ensures Next(s, action) == match Changed(s, action)
      case None => s
      case Some(run) => Commit(s, action.promptId, run)
  {
  }

  lemma StartKeepsInv(s: State, action: Action)
    requires Inv(s) && action.Start?
    ensures Inv(Next(s, action))
  {
    var selected := StartResult(s, action.input, action.turns);
    if action.freshId != "" && action.freshId !in s.runs && selected.Ok? {
      NewRunInv(action.input, selected.value, action.startedAt);
      ReserveKeepsInv(s, action.freshId, NewRun(action.input, selected.value, action.startedAt));
    }
  }

  // Every action keeps the invariant.
  lemma NextKeepsInv(s: State, action: Action)
    requires Inv(s)
    ensures Inv(Next(s, action))
  {
    if action.Start? {
      StartKeepsInv(s, action);
    } else {
      NextCommits(s, action);
      if Changed(s, action).Some? {
        ChangedFollows(s, action);
        CommitKeepsInv(s, action.promptId, Changed(s, action).value);
      }
    }
  }

  // The invariant holds after every interleaving.
  lemma {:induction false} ReachableInv(limit: int, actions: seq<Action>)
    ensures Inv(Execute(limit, actions))
  {
    if actions == [] {
      assert Entries(map[], Recent(limit, [])) == [];
    } else {
      ReachableInv(limit, actions[..|actions| - 1]);
      NextKeepsInv(Execute(limit, actions[..|actions| - 1]), actions[|actions| - 1]);
    }
  }
}
