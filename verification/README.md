# A verified model of the assistant's back end

The repository runs jobs on schedules and answers prompts with the help of a language model and an MCP server. This
project models the parts where several things happen at once, and proves what they keep in every order of events.

**The prompt runner.** One step loop per prompt, interrupted at every `await` by `start`, `permit`, `refuse` and `stop`.
`PromptProtocol` is the transition system: one segment between two awaits at a time, for any number of prompts, with
what the model, the MCP server and the store deliver as free inputs. `PromptInvariant` and `PromptReservations` hold the
inductive invariant, `PromptServed`, `PromptTraces`, `PromptTheorems`, `PromptRecordTheorems` and `PromptAdmission` the
theorems about all interleavings. `PromptOrigins` and `PromptDeliveries` say what every delivery and every call brings
about, and where every entry of a history comes from, in terms of the delivery and the list as it was fetched.
`PromptRunner` is the class whose methods update the records and the three maps in place and take exactly those transitions. A ghost history orders the events emitted, the calls begun, the accepted
permits and stops; the theorems speak about it.

**What feeds the runner.** `Catalog` and `Gateway` build the name index and map a completion back to a listed item,
`JsonSchema` checks arguments, `UriTemplate`, `UriExpansion`, `PercentEncoding` and `UriReadBack` scan, expand and read
back URI templates, `PromptRecord` selects turns, seeds messages and regroups what was used.

**The live view.** `LiveJobs` is the transition system of the delegator's runs and the emitter's replay buffer,
`JobExecutions` the client's fold, `LiveView`, `LiveConnect` and `LiveTheorems` what a client that connects at some moment
ends up showing, `LiveEffects` what each segment, cancel and removal brings about, `Delegator` the classes.

**The scheduler.** `Scheduling` is the transition system of entries, timers and cron tasks with node's 32-bit delays,
`SchedulingTheorems` and `SchedulingEffects` its theorems, `Scheduler` the class; `Recurrence` treats cron expressions in an arbitrary time zone
and the restart, `PunctualRuns` joins the two, `Startup` is the rescheduling loop.

`Wrappers`, `Seqs` and `Json` are shared vocabulary. Run `dafny verify dfyconfig.toml` to check everything.

Conventions that hold throughout:

- A specification that the code's own function computes, such as the catalog, a recurrence, an expansion or a step, has a
  partner that speaks of its inputs alone: the raw list, the calendar, the text, the message.
- An action that is not possible, such as a continuation that is not due, leaves the state as it is. So a statement
  about all action sequences is a statement about all runs.
- Ids from `createId` and `randomUUID` are inputs that are fresh and not empty. Clock readings are inputs.
- A class is *valid* when its state is the one that its recorded actions lead to, so each theorem about action sequences
  is a theorem about the object.

Where the code differs from what one would expect, the model follows the code, and these are proved rather than assumed
away:

- A conversation with a repeated turn id can hide a missing one; the comparison is right about every request exactly when
  the turn ids are distinct (`PromptRecord.SelectionIsExactForDistinctIdsOnly`). The runner takes turn ids from `createId`
  (backend/src/aop/mcp/runner/index.ts:498), so it never saves a repeated one itself; only a foreign write to the store
  could.
- A `.`, `+` or `#` expression can confuse values; `UriReadBack.ExpansionReadsBack` gives the exact condition.
- Overlapping runs of one job lose events for late joiners; `LiveConnect.EachEventOnceExactly` gives the exact condition.
  The controllers reject a run of a running job, but the cron task starts one without a check.
- A run cancelled during its last tool is persisted as cancelled but announced as finished
  (`LiveTheorems.CancelDuringTheLastTool`, `LiveTheorems.EndingsTellTheOutcome`).
- A date beyond the range of one timer undoes a schedule's end or fires a re-anchored run at once
  (`SchedulingTheorems.EndHoldsExactlyInOrder`, `Recurrence.RestartRunsAsPlannedExactly`).
- Start-up also schedules and registers stopped jobs, which then never run (`Startup.StoppedJobIsKeptButNeverRuns`).

## Model

| member | source | states |
|---|---|---|
| PromptTraces.EveryLogIsGrammatical | backend/src/aop/mcp/runner/index.ts:252-590 | In every interleaving of starts, permits, refusals, stops and continuations, a prompt's event log is empty, or `stopped` alone, or a prefix of: `selecting`, then rounds of `permission` followed by `refused` or by `processing` and `succeeded` or `failed`, then one of the closing tails; it is a whole sentence exactly when the step loop has returned |
| PromptTheorems.EveryRunEndsOnce | backend/src/aop/mcp/runner/index.ts:538-590 | A step loop that has returned emitted exactly one of `answer`, `error` and `stopped`, as its last event and matching its final phase; one that has not emitted none. So the loop is never left by its `while` test |
| PromptTheorems.OutcomesAreFinal | backend/src/aop/mcp/runner/index.ts:645-671 | Terminal phases are absorbing under every later sequence of actions, and a prompt whose loop has returned never changes again |
| PromptTheorems.EveryCallHasConsent | backend/src/aop/mcp/runner/index.ts:292-307 | Every tool call and resource read begun stands right behind the `permission` event, the accepted permit and the `processing` event of one ask with the same item and arguments |
| PromptTheorems.NoPermitIsSpentTwice | backend/src/aop/mcp/runner/index.ts:292-307 | Between two calls of a prompt, and between a refusal and a call, the user was asked anew and permitted it: no permit is spent twice and no refused ask is called |
| PromptTheorems.UserEntriesAreTheUsers | backend/src/aop/mcp/runner/index.ts:191-215 | Each permit, each refusal and each accepted stop in a prompt's history was made by one accepted call by the prompt's own user, a permit or refusal for that very item, at the moment when the history had that length; so different entries come from different calls |
| PromptTheorems.HistoriesOnlyGrow | backend/src/aop/mcp/runner/index.ts:252-317 | Under every later sequence of actions of all prompts a prompt's history is extended and never taken back |
| PromptTheorems.StopIsABarrier | backend/src/aop/mcp/runner/index.ts:191-215 | After an accepted stop, whatever actions of all prompts follow, that prompt's history only grows and no list, model, tool, resource or save call is begun in what it grows by, also when the stop falls between a permit and the loop's resumption |
| PromptTheorems.NoRunIsStuck | backend/src/aop/mcp/runner/index.ts:252-317 | In every interleaving a loop that has not returned has a continuation due unless it waits for the user; a stopped one always has |
| PromptTheorems.StoppedRunsDrain | backend/src/aop/mcp/runner/index.ts:252-317 | After an accepted stop, whatever actions of all prompts follow, that prompt's loop takes at most two more segments of its own, by a rank that they use up; once it has taken as many as its rank it has returned, and then `stopped` is its last event |
| PromptTheorems.EveryPromptSavesOnce | backend/src/aop/mcp/runner/index.ts:482-536 | A prompt begins at most one `appendTurn`; an `answer` event stands behind a returned save of the same content; a returned save leads to `answer` unless the prompt was stopped meanwhile |
| PromptTheorems.SavesBeginWhileAnswering | backend/src/aop/mcp/runner/index.ts:482-510 | In every interleaving each save in a prompt's history was begun by one action, as its one entry, and that action left the prompt in the phase `answering` |
| PromptOrigins.DeliveriesTakeEffect | backend/src/aop/mcp/runner/index.ts:252-536 | In every interleaving, whatever is delivered to a loop (the list, a message, a resumed ask, a reply, a returned or failed save, a throw) adds to the history exactly what it stands for, in terms of the delivery and the raw list, sets the list or adds the round that was delivered, and leaves the rest of the record |
| PromptOrigins.EveryEntryHasItsOrigin | backend/src/aop/mcp/runner/index.ts:191-638 | In every interleaving, every entry of a history was added by one accepted call of the prompt's own user, or by one delivery to its loop that adds exactly what it stands for |
| PromptDeliveries.SavesCarryTheModelsAnswer | backend/src/aop/mcp/runner/index.ts:278-510 | What a prompt saves is its own conversation and text with the content of one message that the model delivered without calls, unchanged and not blank, at the time of that delivery |
| PromptDeliveries.AnswersCarryTheModelsAnswer | backend/src/aop/mcp/runner/index.ts:515-535 | The `answer` event carries that content and that time |
| PromptDeliveries.AsksAreTheModelsCalls | backend/src/aop/mcp/runner/index.ts:292-359 | A permission is asked for the one call of a delivered message, with its arguments, for the item of the prompt's own list that was offered under the called name and whose schema they fit |
| PromptDeliveries.CallsAreTheirItems | backend/src/aop/mcp/runner/index.ts:360-454 | A tool call has the listed tool's name and the ask's arguments, a template read the template expanded with them, and a plain resource read the URI that the client's map held when the ask was resumed |
| PromptDeliveries.ResultsAreReplies | backend/src/aop/mcp/runner/index.ts:388-435 | Each `failed` and `succeeded` event was caused by one reply delivered to that prompt: `failed` for an error that a tool reports, otherwise with the reply itself |
| PromptDeliveries.ErrorsHaveReasons | backend/src/aop/mcp/runner/index.ts:538-568 | Each `error` carries what was thrown, what is wrong with the delivered message, that the fetched list is refused, or that the client knows no URI of a plain resource |
| PromptDeliveries.EveryPromptWasStarted | backend/src/aop/mcp/runner/index.ts:121-154 | A prompt has the user, the conversation, the text, the start time and the seed messages of one `start`, the seed being two messages for each selected turn and then the text |
| PromptDeliveries.AcceptedCallsTakeEffect | backend/src/aop/mcp/runner/index.ts:121-215 | In every interleaving, an accepted permit or refusal settles the open ask as decided and lets its loop go on, an accepted stop stops the prompt and frees its conversation, a start that is let in puts the prompt at the head of its loop, and a call that is turned down changes nothing |
| PromptRecordTheorems.EveryRecordAgrees | backend/src/aop/mcp/runner/index.ts:395-434 | The messages are the seed plus one message for each `refused`, `failed` and `succeeded` event in order; event and message agree with the round that left them: the item's role, the refusal text or the content of the reply that the call returned, `failed` exactly for a tool reply that reports an error, `succeeded` with the reply itself; `used` is the repeat-free list of items that failed or succeeded; the terminal event carries exactly that record |
| PromptRecordTheorems.EveryModelCallIsInformed | backend/src/aop/mcp/runner/index.ts:277-278 | Every model call sees the seed and the messages of exactly the outcomes before it |
| PromptRecordTheorems.TextsAreJoined | backend/src/aop/mcp/runner/utils/index.ts:283-287 | The text of a reply is the texts of its parts, one line break between two of them, with the empty ones left out |
| PromptRecordTheorems.RepliesLeaveText | backend/src/aop/mcp/runner/utils/index.ts:250-275 | A reply with text leaves its text on the messages; without any, a failed tool leaves `The tool failed.` and any other reply its printed form |
| PromptServed.ReachableServed | backend/src/aop/mcp/runner/index.ts:360-454 | Every ask of every run is for a tool, resource or template of the run's own list, by its domain and name: with arguments that fit the tool's schema, none when it has none or for a resource, a string for each variable for a template; every call is for that item; a permitted call fails before it leaves only for a plain resource whose URI is unknown, and a loop that throws for its list has one that is refused |
| PromptReservations.ReachableInv | backend/src/aop/mcp/runner/index.ts:121-154 | One inductive invariant of all interleavings: `activePrompts` holds exactly the prompts being answered, `activePromptByConversation` is its exact inverse by conversation, the window is the tail of the finishing order, and each prompt's whole history is fixed by its finished rounds, its loop position and whether a stop was accepted |
| PromptInvariant.RunStepKeepsInv | backend/src/aop/mcp/runner/index.ts:252-536 | Every segment of a step loop between two awaits keeps that history invariant, with every failure of the awaited call |
| PromptInvariant.LoopTopKeepsInv | backend/src/aop/mcp/runner/index.ts:277-316 | Whenever control comes back to the `while` test the prompt is being answered |
| PromptInvariant.SettleKeepsInv | backend/src/aop/mcp/runner/index.ts:595-614 | An accepted permit or refusal keeps the invariant |
| PromptInvariant.StopKeepsInv | backend/src/aop/mcp/runner/index.ts:191-206 | An accepted stop keeps the invariant, wherever the loop is parked |
| PromptAdmission.OnePromptPerConversation | backend/src/aop/mcp/runner/index.ts:121-154 | Two prompts being answered never share a conversation |
| PromptAdmission.StartIsBusyExactlyWhenOccupied | backend/src/aop/mcp/runner/index.ts:125-127 | A start with acceptable turns is turned away as busy exactly while a prompt of that conversation is being answered |
| PromptAdmission.DrainingDisturbsNothing | backend/src/aop/mcp/runner/index.ts:645-671 | A segment of a run that is no longer answered changes that run's record and nothing else, so it never frees a newer prompt's reservation |
| PromptAdmission.ReleaseFindsItsOwnReservation | backend/src/aop/mcp/runner/index.ts:645-671 | In every interleaving, the action that takes a prompt out of `activePrompts` finds the reservation of its conversation pointing at that prompt, removes it and leaves every other reservation as it was |
| PromptAdmission.MapsAnswerLikeHistory | backend/src/aop/mcp/runner/index.ts:595-638 | The accepted, 422 or 404 outcome of `stop`, `permit` and `refuse` is the one read off the full history: owner, phase, open ask, and position among the last finished prompts |
| PromptAdmission.WindowIsTheRecentHistory | backend/src/aop/mcp/runner/index.ts:658-668 | `finishedPrompts` is the last min(limit, n) of the n prompts finished so far, in finishing order, with their owners |
| PromptAdmission.HistoryIsTheFinishingOrder | backend/src/aop/mcp/runner/index.ts:645-658 | The history grows only at its end, and exactly when an action takes a prompt out of `activePrompts`, by that prompt |
| PromptAdmission.ActiveIsInStartOrder | backend/src/aop/mcp/runner/index.ts:143-144 | `activePrompts` lists exactly the prompts being answered, in the order of their starts |
| PromptAdmission.ReplayIsTheUnansweredAsks | backend/src/aop/mcp/runner/index.ts:223-235 | A new stream is sent exactly the asks whose `permission` is the last thing that happened to their prompt |
| PromptAdmission.ReplayIsInStartOrder | backend/src/aop/mcp/runner/index.ts:223-235 | And it is sent them in the order in which their prompts started |
| PromptRunning.PromptRunner.GetOpenPermissionsForUser | backend/src/aop/mcp/runner/index.ts:223-235 | The loop over the active prompts collects those asks in that order |
| PromptRunning.PromptRunner.constructor | backend/src/aop/mcp/runner/index.ts:91-93 | A new runner satisfies the class invariant: its state is the one that its actions so far lead to |
| PromptRunning.PromptRunner.Start | backend/src/aop/mcp/runner/index.ts:121-154 | Takes the `Start` transition: an error leaves everything as it was, otherwise there is one fresh record and both reservations |
| PromptRunning.PromptRunner.Permit | backend/src/aop/mcp/runner/index.ts:165-167 | Takes the permit transition and returns the outcome the protocol gives |
| PromptRunning.PromptRunner.Refuse | backend/src/aop/mcp/runner/index.ts:178-180 | Takes the refuse transition and returns the outcome the protocol gives |
| PromptRunning.PromptRunner.Settle | backend/src/aop/mcp/runner/index.ts:595-638 | Changes only the matching open ask of an active prompt of that user; every other case changes nothing and is told apart as in the protocol |
| PromptRunning.PromptRunner.Stop | backend/src/aop/mcp/runner/index.ts:191-215 | Takes the stop transition and returns the outcome the protocol gives |
| PromptRunning.PromptRunner.Advance | backend/src/aop/mcp/runner/index.ts:241-317 | Runs the continuation that is due for one prompt, as the protocol's segment, and keeps the class invariant |
| PromptRunning.PromptRunner.Begin | backend/src/aop/mcp/runner/index.ts:252-265 | The first segment of the loop, in place: the new state is the protocol's |
| PromptRunning.PromptRunner.ListReturned | backend/src/aop/mcp/runner/index.ts:267-278 | The segment after `fetchList`, in place, with the throw of a list that repeats a name |
| PromptRunning.PromptRunner.StepReturned | backend/src/aop/mcp/runner/index.ts:278-292 | The segment after `gateway.step`, in place: failure, stop, save, or ask |
| PromptRunning.PromptRunner.AskResumed | backend/src/aop/mcp/runner/index.ts:292-307 | The segment after the permission resolved, in place: stop, refusal and the next model call, or the permitted call |
| PromptRunning.PromptRunner.CallReturned | backend/src/aop/mcp/runner/index.ts:388-435 | The segment after the call returned, in place: record, message and use, or nothing after a stop |
| PromptRunning.PromptRunner.LoopResumed | backend/src/aop/mcp/runner/index.ts:307-316 | The rest of the loop body, in place, up to the next model call |
| PromptRunning.PromptRunner.SaveReturned | backend/src/aop/mcp/runner/index.ts:510-536 | The segment after `appendTurn`, in place: `answering` and `answer` with the whole record, or `stopped` |
| PromptRunning.PromptRunner.ClaimTerminal | backend/src/aop/mcp/runner/index.ts:645-671 | Claims a terminal phase once, and then releases both reservations and slides the window of finished prompts; returns false and changes nothing for a prompt that is already terminal |
| PromptRunning.PromptRunner.Remember | backend/src/aop/mcp/runner/index.ts:658-668 | The eviction loop, as the specification; for a prompt that is not remembered yet it leaves exactly the newest entries within the limit |
| PromptRunning.PromptRunner.EmitStopped | backend/src/aop/mcp/runner/index.ts:573-590 | Emits `stopped` once; later calls change nothing |
| PromptRunning.PromptRunner.Fail | backend/src/aop/mcp/runner/index.ts:542-568 | An abort or a stopped prompt ends in `stopped`, any other failure in `error`, exactly as in the protocol |
| PromptRunning.PromptRunner.SafeAtEveryMoment | backend/src/aop/mcp/runner/index.ts:121-671 | Whatever the runner object was asked to do, its maps and records satisfy the protocol's invariants |
| PromptRecord.SelectTurns | backend/src/aop/mcp/runner/utils/index.ts:24-46 | The loop with its early exits decides the selection of the specification, errors included |
| PromptRecord.SelectionSucceedsExactly | backend/src/aop/mcp/runner/utils/index.ts:24-46 | For conversations with distinct turn ids the length comparison alone accepts exactly the requests whose ids are distinct and all present |
| PromptRecord.SelectionIsExactForDistinctIdsOnly | backend/src/aop/mcp/runner/utils/index.ts:24-46 | The length comparison is right about every request if and only if the turn ids of the conversation are distinct |
| PromptRecord.DoubledTurnHidesAMissingOne | backend/src/aop/mcp/runner/utils/index.ts:39-43 | Without distinct turn ids the comparison is fooled: a doubled turn stands in for a missing one |
| PromptRecord.SelectionKeepsSavedOrder | backend/src/aop/mcp/runner/utils/index.ts:16-46 | A successful selection is the saved-order subsequence of exactly the requested turns, whatever order they were asked in |
| PromptRecord.NoRequestSelectsEveryTurn | backend/src/aop/mcp/runner/utils/index.ts:24-29 | Without turn ids, or with an empty list of them, every turn is selected |
| PromptRecord.SeedMessages | backend/src/aop/mcp/runner/utils/index.ts:56-66 | The loop produces, for each turn in order, its prompt by the user and its answer by the assistant, and then the new prompt by the user |
| PromptRecord.ToDomains | backend/src/aop/mcp/runner/utils/index.ts:139-168 | The grouping loop over `order` and `byDomain` produces the regrouping of the specification |
| PromptRecord.DomainsAreLossless | backend/src/aop/mcp/runner/utils/index.ts:139-168 | An item was used exactly when the one entry of its domain lists its name under its kind |
| PromptRecord.NamesAreNotRepeated | backend/src/aop/mcp/runner/utils/index.ts:154-156 | No name is listed twice under one domain and kind |
| PromptRecord.DomainsKeepFirstUseOrder | backend/src/aop/mcp/runner/utils/index.ts:133-168 | Of two listed domains, the first use of the earlier one came before the first use of the later one |
| PromptRecord.NamesKeepFirstUseOrder | backend/src/aop/mcp/runner/utils/index.ts:133-168 | Of two names listed under one domain and kind, the first use of the earlier one came before the first use of the later one |
| Catalog.BuildCatalog | backend/src/aop/mcp/gateway/utils/index.ts:20-198 | The three loops with their three collections accept or refuse a list as the specification does; an accepted one offers every tool, resource and template of the list in order, with its own schema and description, under different names, each spelled from its kind, domain and name and leading back to them, and the index knows no other name |
| Catalog.CatalogMirrorsTheList | backend/src/aop/mcp/gateway/utils/index.ts:20-198 | The specified catalog of every accepted list does so |
| Catalog.DescriptionLines | backend/src/aop/mcp/gateway/utils/index.ts:38-50 | A description names domain and name on lines of their own, behind the item's own description and in front of its URI |
| Catalog.RefusedExactlyOnClash | backend/src/aop/mcp/gateway/utils/index.ts:109-157 | A list is refused if and only if two of its items have one kind, domain and name (read with a line break in between) or one function name |
| Catalog.AddAll | backend/src/aop/mcp/gateway/utils/index.ts:109-157 | Adding items one by one rejects at the first that shares an identity or a function name with an earlier one |
| Catalog.FunctionName | backend/src/aop/mcp/gateway/utils/index.ts:125-134 | A function name has at most 64 characters, all from the set providers allow |
| Catalog.FunctionNameSpellsItsItem | backend/src/aop/mcp/gateway/utils/index.ts:125-134 | Code unit by code unit a function name spells source, domain and name up to 64, with `_` for each unit that is not an allowed character |
| Catalog.NamesServeOneItem | backend/src/aop/mcp/gateway/utils/index.ts:138-156 | In an accepted list every name of the lookup leads to exactly one item, with its kind, domain, name and schema |
| Catalog.ItemsServeUnderOneName | backend/src/aop/mcp/gateway/utils/index.ts:138-156 | In an accepted list every item is served under exactly one name, and no other item has its kind, domain and name |
| Catalog.TemplateBranchFollowsSource | backend/src/aop/mcp/runner/index.ts:440-454 | Looking up domain and name among the templates finds one exactly when the selected resource came from a template, and then that very template |
| Gateway.SelectionsAreListed | backend/src/aop/mcp/gateway/index.ts:179-225 | Every selection that a completion is mapped to is one listed item with schema-valid arguments |
| Gateway.StepTakesTheMeaning | backend/src/aop/mcp/gateway/index.ts:179-225 | For every message and list: more than one call, a blank message without calls, an unknown name and arguments that do not fit are told apart as such; one fitting call of an offered name selects the item offered under it with the call's arguments; any other content is the answer, unchanged |
| Gateway.ListedMeansAsked | backend/src/aop/mcp/gateway/utils/index.ts:109-198 | A catalog item and arguments that fit its parameters are an item of the raw list and arguments that fit that item's own schema, or none, or a string for each template variable |
| Gateway.DispatchIsUnambiguous | backend/src/aop/mcp/gateway/index.ts:202-225 | No two items answer to one selection |
| Gateway.ListedTemplateExpands | backend/src/aop/mcp/runner/index.ts:440-454 | A selected resource takes the template branch exactly when it came from a template, and then its expansion succeeds |
| JsonSchema.MatchesSchema | backend/src/aop/mcp/gateway/utils/index.ts:251-371 | The checker terminates on every finite schema and value and decides exactly the quantified reading of enum, type lists, required, properties, additionalProperties and items (JSON Schema 2020-12 Validation 6.1.1, 6.1.2, 6.5.3 and Core 10.3.1.2, 10.3.2.1, 10.3.2.3) |
| JsonSchema.MatchesType | backend/src/aop/mcp/gateway/utils/index.ts:260-348 | One type name: decided as the quantified reading says, an unknown name left unchecked |
| JsonSchema.MatchesArray | backend/src/aop/mcp/gateway/utils/index.ts:267-279 | The early-exit loop over elements decides whether each of them fits `items` |
| JsonSchema.MatchesObject | backend/src/aop/mcp/gateway/utils/index.ts:287-328 | The early-exit loops over required keys and entries decide that every required key is present and every entry fits its own schema or additionalProperties |
| JsonSchema.ScalarTypes | backend/src/aop/mcp/gateway/utils/index.ts:333-347 | Read off the value: a null, boolean, finite number or string fits exactly the type names of its own kind, an integer being a whole number; an infinity fits none |
| JsonSchema.ArrayType | backend/src/aop/mcp/gateway/utils/index.ts:267-279 | An array fits if and only if each of its elements fits the element schema, if there is one |
| JsonSchema.ObjectType | backend/src/aop/mcp/gateway/utils/index.ts:287-328 | An object fits if and only if no required key is missing, each declared field fits its declaration, and each other field fits additionalProperties and is not banned |
| JsonSchema.SchemaType | backend/src/aop/mcp/gateway/utils/index.ts:350-371 | A schema with one type asks for it, with several for one of them, and with object keywords alone for an object |
| JsonSchema.EnumListsItsValues | backend/src/aop/mcp/gateway/utils/index.ts:350-356 | For values without infinities an enumeration allows exactly the values it lists |
| UriTemplate.UriTemplateVariables | backend/src/aop/mcp/gateway/utils/index.ts:64-80 | The nested loops return the first occurrences of the specification's scan |
| UriTemplate.VariablesAreInFirstSeenOrder | backend/src/aop/mcp/gateway/utils/index.ts:64-80 | Those are exactly the variables that the scan meets, each once, and of two of them the earlier one was met first |
| UriTemplate.MatchesAgree | backend/src/aop/mcp/runner/utils/index.ts:179-186 | The catalog's scanner and the runner's scanner match at the same places with the same variable text |
| UriTemplate.ExpansionFailsExactlyOnMissingVariables | backend/src/aop/mcp/runner/utils/index.ts:187-195 | For every template and arguments, expansion raises its missing-variable error exactly when a variable of the parameter schema has no string argument |
| UriTemplate.TemplateSchemaMeaning | backend/src/aop/mcp/gateway/utils/index.ts:82-90 | The schema built from a template accepts a value exactly when it is an object with a string for each variable and nothing else |
| UriTemplate.AcceptedArgumentsExpand | backend/src/aop/mcp/gateway/utils/index.ts:57-91 | Whatever arguments the checker accepts for a template, the expander never raises its error on them |
| UriTemplate.CheckerAcceptsWhatExpands | backend/src/aop/mcp/gateway/utils/index.ts:287-328 | For arguments with no surplus and no non-string field the converse holds too |
| UriExpansion.ExpandsPartByPart | backend/src/aop/mcp/runner/utils/index.ts:179-216 | For every template, as literal texts with any number of expressions in between and a tail: the expansion is the literal text as it stands with each expression's expansion in its place, or the first variable without a string argument |
| UriExpansion.TemplatesHaveParts | backend/src/aop/mcp/runner/utils/index.ts:179-186 | Every template is of that form |
| UriExpansion.PlainTextExpandsToItself | backend/src/aop/mcp/runner/utils/index.ts:179-186 | A template in which no expression can begin expands to itself |
| UriExpansion.TextWithoutBracesExpandsToItself | backend/src/aop/mcp/runner/utils/index.ts:179-186 | So does every template without an opening brace |
| UriExpansion.NamesReadTheList | backend/src/aop/mcp/runner/utils/index.ts:187-190 | The variables of an expression are the names in its comma-separated list, whatever blanks and modifiers stand around them |
| UriExpansion.ExpansionShowsOperatorAndNames | backend/src/aop/mcp/runner/utils/index.ts:199-216 | The expansion begins with its operator, except under `+` and without one, and under `;`, `?` and `&` each piece carries the name of its value |
| UriReadBack.ExpansionReadsBack | backend/src/aop/mcp/runner/utils/index.ts:196-216 | Splitting an expanded expression at its separators and percent-decoding gives back the values if and only if no value carries a separator its encoding leaves in place; for the simple, `/`, `;`, `?` and `&` operators none does, so there it always does (RFC 6570 sections 3.2.2 to 3.2.9) |
| UriReadBack.ExpansionIsInjective | backend/src/aop/mcp/runner/utils/index.ts:199-216 | Under those five operators different values give different text |
| UriReadBack.LabelExpansionIsAmbiguous | backend/src/aop/mcp/runner/utils/index.ts:204-205 | Two different argument lists share one expansion under the `.` operator |
| PercentEncoding.DecodeUndoesEncode | backend/src/aop/mcp/runner/utils/index.ts:196-197 | Percent-decoding the encoded form of any string gives the string back, through UTF-8 |
| PercentEncoding.DecodeUndoesEncodeReserved | backend/src/aop/mcp/runner/utils/index.ts:223-241 | Putting the reserved characters back one replacement after another loses nothing: the decoder still reads the value |
| PercentEncoding.EncodedCharacters | backend/src/aop/mcp/runner/utils/index.ts:223-241 | Besides letters, digits and escapes, an encoded value shows exactly its own `-_.!~*'()`, and a reserved one also its own `:/?#[]@$&+,` |
| PercentEncoding.RestoreActsOnTokens | backend/src/aop/mcp/runner/utils/index.ts:223-241 | One textual replacement rewrites exactly the escapes of its character and never straddles two of them |
| JobExecutions.ReplayInParts | frontend/src/components/pages/jobs/Jobs.tsx:105-120 | Replaying the snapshot and then taking live events one by one is one fold over both |
| JobExecutions.AddTargetFollowsProgress | frontend/src/components/pages/jobs/mappers/index.ts:27-39 | The client puts a finished target where the server put it, given distinct tool ids |
| JobExecutions.LaterEvent | frontend/src/components/pages/jobs/mappers/index.ts:22-48 | An event of a run already shown changes that execution only |
| LiveView.BufferHoldsEventsSinceClear | backend/src/aop/emitter/index.ts:43-100 | In every interleaving the replay buffer holds, for each job, exactly the target events since the last time the job was cleared, in order |
| LiveView.ReplayShowsTheRun | frontend/src/components/pages/jobs/mappers/index.ts:9-49 | In every interleaving, folding exactly one run's events over any executions without it shows that run with its tools that have a finished target, and changes nothing else |
| LiveConnect.EachEventOnceExactly | backend/src/modules/jobs/jobs-controller.ts:692-736 | In every interleaving, a client that connects at any moment after a run began has each of its events exactly once, in order, if and only if nothing of the run had been dropped then: no event yet, or the job listed for its owner and no clear after the run's first event |
| LiveConnect.OverlappingRunsLoseEvents | backend/src/aop/delegator/index.ts:225-246 | A user runs a scheduled job and its cron task starts it again: when the first run ends it drops the other's events, and a client that connects then misses them although that run is still at work |
| LiveTheorems.EachEventOnce | backend/src/modules/jobs/jobs-controller.ts:692-736 | For a job whose runs do not overlap, a client that connects at any moment of a run has, at every later moment of that run, received exactly the run's events, once each, and nothing else for the job |
| LiveTheorems.ClientRebuildsTheRecord | backend/src/aop/delegator/index.ts:94-197 | For such a job with distinct tool ids, the client's fold over snapshot and live tail is what it showed before plus one execution whose tools are those about to be persisted, restricted to tools with a finished target |
| LiveTheorems.EveryRunEndsOnce | backend/src/aop/delegator/index.ts:180-218 | A run emits exactly one of `job-finished`, `job-cancelled` and `job-failed`, when it ends |
| LiveTheorems.CancelledEndsExactlyWhenToolsWereSkipped | backend/src/aop/delegator/index.ts:138-218 | In every interleaving the event that ends a run after it was persisted is `job-cancelled` exactly when it skipped a tool, and then its status is `cancelled`; otherwise it is `job-finished` |
| LiveTheorems.EndingsTellTheOutcome | backend/src/aop/delegator/index.ts:180-218 | In every interleaving a run is over exactly when an event ended it; the event is `job-finished` exactly when every tool returned, and `job-cancelled` only for a cancelled run |
| LiveTheorems.CancelDuringTheLastTool | backend/src/aop/delegator/index.ts:182-218 | A cancel that arrives while the only tool runs: persisted with status `cancelled`, ended with `job-finished` |
| LiveEffects.EveryRunWasDelegated | backend/src/aop/delegator/index.ts:98-136 | In every interleaving a run has the job, user, tools and schedule of the one call that delegated it |
| LiveEffects.EveryTargetIsKept | backend/src/aop/delegator/index.ts:138-180 | In every interleaving a run has collected exactly the targets that finished while it was at work, in order, each once |
| LiveEffects.SegmentsTakeEffect | backend/src/aop/delegator/index.ts:98-250 | In every interleaving a delegation starts its first tool or its save, a finished target is kept and emitted, a returned tool is kept and the next tool or the save begins, with the times in the record, a throw or a returned save ends the run and takes its job out of the running map, and what is not due changes nothing |
| LiveEffects.CancelsTakeEffect | backend/src/aop/delegator/index.ts:67-69 | Cancelling a job cancels the run that holds its place and nothing else |
| LiveEffects.RemovalsTakeEffect | backend/src/aop/delegator/index.ts:255-260 | Removing a job cancels that run, takes the job out of the running map and exactly its events out of the buffer, and leaves every other job as it was |
| LiveEffects.CancelledRunsStartNoTool | backend/src/aop/delegator/index.ts:138-160 | Whatever happens later, a cancelled run starts no further tool: at most the one that it is at returns |
| LiveEffects.SnapshotIsTheUsersOwn | backend/src/modules/jobs/jobs-controller.ts:692-710 | A new stream is sent exactly the buffered events of the jobs that run for its user, those of that user and that job |
| LiveEffects.RemovedJobsAreNotRunning | backend/src/aop/delegator/index.ts:255-260 | A removed job is not in the running map until it is delegated again |
| Delegating.Emitter.Emit | backend/src/aop/emitter/index.ts:43-59 | Appends target events, and no others, to the replay buffer |
| Delegating.Emitter.ClearJobTargetEvents | backend/src/aop/emitter/index.ts:88-90 | Drops exactly the job's events and keeps the order of the rest |
| Delegating.Delegator.Delegate | backend/src/aop/delegator/index.ts:124-164 | The first segment of `delegate`, in place: the run is recorded and the running entry set, as in the transition system |
| Delegating.Delegator.OnTargetFinish | backend/src/aop/delegator/index.ts:97-109 | Pushes the target and emits its event in one segment |
| Delegating.Delegator.ToolReturned | backend/src/aop/delegator/index.ts:138-186 | Keeps the tool with its targets, then the next tool or the save, with cancellation noticed only before a tool |
| Delegating.Delegator.SaveReturned | backend/src/aop/delegator/index.ts:197-246 | Emits how the run ended, then the cleanup of `finally` |
| Delegating.Delegator.ToolThrew | backend/src/aop/delegator/index.ts:219-246 | Emits `job-failed`, then the same cleanup |
| Delegating.Delegator.Cancel | backend/src/aop/delegator/index.ts:67-69 | Cancels the call that holds the running entry, if any |
| Delegating.Delegator.RemoveJob | backend/src/aop/delegator/index.ts:255-260 | Cancels, forgets the payload and the running entry, and clears the buffer; the call itself goes on |
| Delegating.Delegator.DelegateScheduledJob | backend/src/aop/delegator/index.ts:277-285 | Starts a run with the registered payload, or does nothing without one |
| Delegating.Delegator.Connect | backend/src/modules/jobs/jobs-controller.ts:692-710 | The aggregated snapshot: the jobs running for the user, each with its buffered events |
| SchedulingTheorems.TimersBelongToStoredEntries | backend/src/aop/scheduler/index.ts:234-347 | In every run an armed timer belongs to the entry stored under its job id, which was not attached stopped, and a job has at most one start and one stop timer armed |
| SchedulingTheorems.RunningTasksBelongToStoredEntries | backend/src/aop/scheduler/index.ts:264-269 | In every run a running cron task belongs to the stored entry, which was not attached stopped, so a job has at most one |
| SchedulingTheorems.OnlyStoredSchedulesDelegate | backend/src/aop/scheduler/index.ts:287-308 | Whatever delegates does so for the entry stored at that moment: nothing replaced, deleted or attached stopped ever delegates |
| SchedulingEffects.DeleteRemovesTheJob | backend/src/aop/scheduler/index.ts:332-369 | In every run, after `delete` the job is not stored, none of its timers is armed and none of its tasks can run; every other job's entry and timers are as they were |
| SchedulingEffects.DeletedJobsStaySilent | backend/src/aop/scheduler/index.ts:332-369 | Whatever follows, a deleted job never delegates again until it is scheduled anew |
| SchedulingEffects.ScheduleReplacesTheJob | backend/src/aop/scheduler/index.ts:234-325 | In every run, after `schedule` every earlier attachment of the job is dead and every other job is as it was; a valid call stores a new attachment with exactly its start and stop timers, a refused one leaves the job gone |
| SchedulingEffects.DeadAttachmentsStaySilent | backend/src/aop/scheduler/index.ts:332-347 | Whatever follows, an attachment that was deleted or replaced never delegates again |
| SchedulingEffects.CallbacksTouchOneJob | backend/src/aop/scheduler/index.ts:264-321 | A timer that fires and a task that ticks change nothing of any other job |
| SchedulingTheorems.EndedSchedulesStaySilent | backend/src/aop/scheduler/index.ts:310-320 | When no stop timer is due before its start timer, nothing delegates for a schedule whose stop timer has fired |
| SchedulingTheorems.EndHoldsExactlyInOrder | backend/src/aop/scheduler/index.ts:224-230 | For every recurring schedule, its end holds in all runs if and only if its stop delay, as a 32-bit timer keeps it, is not below its start delay; otherwise the start timer undoes the end |
| SchedulingTheorems.ReasonableDatesAreInOrder | backend/src/aop/scheduler/index.ts:220-230 | An end at or after the start and within one timer's range meets that condition |
| SchedulingTheorems.OnceDelegatesAtMostOnce | backend/src/aop/scheduler/index.ts:288-292 | One `schedule` call of a `once` job delegates at most once, and after that its entry is gone |
| Scheduling.ReachableInv | backend/src/aop/scheduler/index.ts:234-369 | One inductive invariant of all runs of `schedule`, `delete`, timers and ticks |
| SchedulerService.Scheduler.Schedule | backend/src/aop/scheduler/index.ts:234-325 | In place: earlier attachments go, other jobs stay, and the new job is attached with exactly its timers; a refused expression leaves the job gone |
| SchedulerService.Scheduler.Delete | backend/src/aop/scheduler/index.ts:332-369 | In place: nothing of the job is left that could run, and every other job stays as it was |
| SchedulerService.Scheduler.Teardown | backend/src/aop/scheduler/index.ts:334-350 | Clears exactly the two timers that the job remembers, destroys its task and forgets it |
| SchedulerService.Scheduler.FireTimer | backend/src/aop/scheduler/index.ts:287-320 | Fires one due timer, in place, as in the transition system |
| SchedulerService.Scheduler.Tick | backend/src/aop/scheduler/index.ts:266-268 | A running task's match hands the job to the delegator |
| Recurrence.ExpressionFollowsTheCalendar | backend/src/aop/scheduler/index.ts:174-200 | On the fields of any time zone, the expression of a schedule matches exactly at the start's minute and hour, every day, on the start's weekday, day of the month, or day of the year; a `once` schedule has no match. The recurrence of all other rows is stated with these fields |
| Recurrence.OnceRecursAtItsStartAlone | backend/src/aop/scheduler/index.ts:174-200 | A `once` schedule has no instant but its start |
| Recurrence.DerivedFromAMatch | backend/src/aop/scheduler/index.ts:174-200 | The expression derived from any instant that matches a job's expression is that same expression, in any time zone |
| Recurrence.FirstRunIsTheAnchor | backend/src/aop/scheduler/index.ts:60-89 | The next run of a schedule that has not started is its start, when that is a match after the epoch and not after the end |
| Recurrence.RestartKeepsThePlan | backend/src/server/server-initialize-db.ts:73-110 | A restart changes none of the instants still to come, and so none of the planned runs: re-anchoring at the least match after now gives exactly those of the uninterrupted schedule after now and up to its end, and nothing is scheduled only when none is left |
| Recurrence.AttachedExactlyWithInstantsToCome | backend/src/server/server-initialize-db.ts:66-110 | Start-up attaches a persisted schedule, stopped or not, if and only if its recurrence has an instant to come |
| Recurrence.RestartsDoNotDrift | backend/src/server/server-initialize-db.ts:96-110 | No number of restarts, each working on what the one before left, makes the recurrence drift |
| Recurrence.RestartRunsAsPlannedExactly | backend/src/aop/scheduler/index.ts:224-320 | With the two timers as 32 bits keep them, the re-attached schedule runs exactly as planned if and only if it is stopped, or its next run is within the range of one timer and its end is too or comes through anyway |
| PunctualRuns.DelegationsAreExactlyTheRuns | backend/src/aop/scheduler/index.ts:264-321 | In every run of one schedule in an event loop that is on time, with any start and end, the delegations are exactly the instants up to now where that schedule runs, each once and in order; a stopped schedule has none |
| PunctualRuns.RestartedDelegationsAreThePlan | backend/src/server/server-initialize-db.ts:61-116 | After a restart that meets that condition, in every run of an event loop that is on time, the delegations are exactly the planned instants of the persisted schedule after the restart, each once and in order |
| SchedulingTheorems.StoppedSchedulesNeverDelegate | backend/src/aop/scheduler/index.ts:286-321 | In every run a schedule attached as stopped never delegates |
| Startup.InitializeDatabase | backend/src/server/server-initialize-db.ts:61-116 | The loop makes exactly the `schedule` calls and registrations of the specification, in the order of the jobs |
| Startup.RegisteredExactlyWithInstantsToCome | backend/src/server/server-initialize-db.ts:61-116 | A job is registered, with its own id, user and tools and its schedule's type, if and only if it has a schedule, stopped or not, whose recurrence has an instant to come; a missed `once` run is not made up for |
| Startup.StoppedJobIsKeptButNeverRuns | backend/src/server/server-initialize-db.ts:75-116 | A stopped job with instants to come is scheduled as stopped and registered with its own tools, and in every run that schedule never delegates |
| Startup.ScheduledExactlyAsRegistered | backend/src/server/server-initialize-db.ts:75-116 | The jobs scheduled at start-up are exactly the jobs registered |
| Startup.ResumedJobsKeepTheirSchedule | backend/src/server/server-initialize-db.ts:61-116 | A job that is resumed is scheduled with its own id, user, type, end and stop, from its own start if that lies ahead and otherwise from the first instant of its recurrence after now |

## Left out

- PunctualRuns.DelegationsAreExactlyTheRuns: for a loop that is on time, that is, one that lets no due timer and no match of a running task pass; a match at the very millisecond of the stop may or may not be served, because the library and the stop timer may come in either order there. A `once` schedule has no end, as `schedule` asks of its callers.
- PunctualRuns.RestartedDelegationsAreThePlan: as for PunctualRuns.DelegationsAreExactlyTheRuns, a planned instant at the very end may or may not be served unless the schedule starts there; for a restart that misses the condition Recurrence.RestartRunsAsPlannedExactly says that the timers do not carry out the plan.
- LiveTheorems.ClientRebuildsTheRecord: requires that the job is started and removed only while none of its runs is in flight; the controllers check for that, but some of them then wait for the store, and the cron task does not check. The general case is LiveConnect.EachEventOnceExactly.
- Recurrence.RestartRunsAsPlannedExactly: requires an end that is not before the start, as the controllers check.
- HTTP, SSE framing, zod parsing, MongoDB, authentication, environment, logging and all React components; of the Express controllers only the snapshot of `streamJobs`.
- The store read in `start` before the reservation: the turns are an input, and need not be the latest ones stored.
- Emitting: an event that fails its schema is dropped by the emitter, and node throws for an `error` event without listeners; the model's events always go out. The scheduled-jobs and running-jobs events are not modelled.
- A throw by a stream listener between the persisted execution and the end of `delegate`, which would turn `job-finished` into `job-failed`.
- The text of `error` (`failureContext`): the event carries the failure itself.
- `toWireList` and `argumentFields`: the terminal events carry the list they project. `toProviderMessages` is a relabelling of roles. `toToolResult` and `toResourceResult` project a reply that the model carries whole.
- JSON text: `parseArguments` gives an object or nothing, `JSON.stringify` is compared as the value it prints, with infinities as `null`; a reply's printed form is part of the reply.
- UTF-16: strings are sequences of Unicode scalar values, so lone surrogates, on which `encodeURIComponent` throws, do not occur. The white space that `trim` removes is the ASCII and Unicode white space of the language standard.
- The three list calls of `fetchList` count as one call. Two checks of `isStopped` at the head of `ask`, `performCall` and `finishAnswer` follow an earlier check in the same segment and are merged with it.
- The MCP client's URI map is shared by all prompts, so what it resolves is an input of the segment that needs it.
- Cron text: expressions are compared field by field, not as strings; `cron.validate` is an input. Seconds and milliseconds of a start are not part of an expression, as in the code. Invalid dates do not occur.
- `getNextAndPreviousRun`'s previous run, `getAllJobs`, and the persistence retries of the delegator, whose failure is swallowed and changes nothing here.
- The aborter's signal and the tools' own work: a tool finishes any targets in any order and then returns or throws. No target finishes after its tool returned, because the tools wait for all of theirs.
- The clock is read once for the whole start-up loop.
- Listing caps, scraper summaries, MCP server lifecycle, form mappers and the sample modules, which would add only easy members.
