# MYDON agents, verified model

A Dafny model of the parts of MYDON where a mistake costs money or loses the owner's data, with the properties
that make those parts trustworthy. `dafny verify dfyconfig.toml` checks everything.

**The durable LLM dispatch protocol** (`LlmResult`, `CoreStore`, `Session`, `DispatchSystem`, `ProtocolRun`,
`CallModel`). Core's tables and transactions are modelled from Core's own code, one function per transaction.
`DispatchSystem` is a transition system of Core, any number of workers inside `runAttempt`, and a network that may
lose, delay, reorder and repeat every message; crashes, takeovers, checkpoints, commits, releases and owner retries
are events like any other. Its theorems hold of every system that any schedule reaches from the empty one; only the
freshness of drawn tokens is assumed, as a guard of the event that draws one. `CallModel` is the fallback loop over
that store; the fate of each of its requests, with arbitrary legal interference before it, is a parameter.
`ProtocolRun` exhibits a schedule that sends a request and returns its stored answer.

**The run gate** (`Policy`, `Hooks`, `Runner`, `TaskWorker`): tiers and floors, passport hooks, delta memory, the
choice between silence, approval and execution, and the worker loop that commits or releases.

**Bot and service state machines** (`Conversation`, `CoffeeVisit`, `RetryQueue`, `Briefing`, `EditBlocks`,
`SalesWindow`, `Similarity`, `SolutionSearch`, `Outbox`, `ConfigOverlay`).

Answers of the outside world (Core, providers, skills, clocks, typed numbers) are parameters, and so is what throws;
only the enqueues that interleave with a flush are drawn with `*`. Hashes are collision-free: the hashed record stands
for its hash. Numbers that JavaScript rounds are exact reals or integers.

Where the code falls short of what one would like, the model keeps the code and the exact condition is proved:

- `windowDays` never ends when the window reaches 9999-12-31: the year 10000 prints as `+010000-01`, which sorts before
  every four-digit date and is a fixed point of adding a day (`SalesWindow.WindowEnds`; the single day 9999-12-31 in
  `SalesWindow.LastDayNeverEnds`).
- An infinite freshness limit in a passport becomes `null` in Core's JSON and comes back as a blocking hook; all other
  hooks survive (`Hooks.TripKeepsHooks`). Under such a card no run ever starts (`Hooks.InfiniteLimitBlocks`), although
  the passport itself would let it (`Hooks.InfiniteLimitCouldPass`).
- A fractional drain limit is not truncated: a drain claims within its limit, whatever the queue holds, exactly when the
  limit is whole (`Outbox.WholeLimits`); a limit of 1.5 claims two deliveries (`Outbox.HalfLimitOverruns`).
- The briefing message respects its budget exactly when the summary and the staff line fit by themselves
  (`Briefing.MessageFits`, with an over-long summary in `Briefing.OverlongSummary`).

## Model

| member | source | states |
|---|---|---|
| `LlmResult.ChatRoundTrip` | apps/agents/src/task-llm-session.ts:487-579 | `chatResult` undoes `completion` on a success: text, whole non-negative usage, request id, resolved model (empty strings dropped) and cost come back |
| `LlmResult.RejectionRoundTrip` | apps/agents/src/task-llm-session.ts:500-562 | the same for a definite rejection, whose status and reason come back too |
| `LlmResult.ChatSurvivesCore` | apps/core/src/tasks/task-llm-contract.ts:216-317 | whatever Core's canonical evidence accepts reads back as the provider said it, ids trimmed |
| `LlmResult.SuccessAccepted` | apps/core/src/tasks/task-llm-contract.ts:216-317 | Core accepts a chat success exactly when its text is visible and at most 256000 long, its counts are whole and bounded, and its ids and cost are in order |
| `LlmResult.RejectionAccepted` | apps/core/src/tasks/task-llm-contract.ts:45-47 | Core accepts a rejection exactly for the statuses 400, 401, 403, 404, 409, 413, 415, 422 and 429, with a visible reason of at most 4000 characters and the rest in order |
| `LlmResult.RejectionSurvivesCore` | apps/core/src/tasks/task-llm-contract.ts:283-292 | an accepted rejection reads back with its status and its trimmed reason |
| `LlmResult.VectorAccepted` | apps/core/src/tasks/task-llm-contract.ts:216-317 | Core accepts an embedding exactly when it is a list of 1 to 16384 numbers and the rest is in order |
| `CoreStore.EnsureSafe` | apps/core/src/tasks/task-llm-jobs.service.ts:104-316 | `ensure` keeps the table invariant, writes no token and no result, and answers with the operation of the asked payload |
| `CoreStore.ClaimSafe` | apps/core/src/tasks/task-llm-jobs.service.ts:318-481 | `claimDispatch` writes at most its own token on its own job; a grant names that token and the stored payload |
| `CoreStore.CompleteSafe` | apps/core/src/tasks/task-llm-jobs.service.ts:483-628 | `complete` writes at most the canonical evidence it was given, and only for the holder of the token |
| `CoreStore.StatusDecides` | apps/core/src/tasks/task-llm-contract.ts:45-47 | a dispatched job is closed as rejected, with that status and the trimmed reason, exactly for the nine proving statuses; any other status is refused with 400 and leaves Core alone |
| `CoreStore.RejectionOpensNext` | apps/core/src/tasks/task-llm-jobs.service.ts:905-922 | such a rejection opens the next planned attempt; after any other status asking for it blocks the task |
| `CoreStore.EnsureReadies` | apps/core/src/tasks/task-llm-jobs.service.ts:148-316 | a planned attempt of the open run whose row is absent or waits becomes ready when the budget is granted |
| `CoreStore.LedgerDecides` | apps/core/src/tasks/task-llm-jobs.service.ts:148-316 | what becomes of it otherwise: a denial leaves it waiting and says so, an inconsistent ledger blocks the task, a failing one leaves no trace |
| `CoreStore.OnlyPlannedIsLetIn` | apps/core/src/tasks/task-llm-jobs.service.ts:104-200 | an attempt is let in only with the step, the route and, for its number, the model that the immutable plan names |
| `CoreStore.ClaimGrants` | apps/core/src/tasks/task-llm-jobs.service.ts:367-481 | a ready row is granted to the first token that claims it, with its own payload, for two minutes |
| `CoreStore.GrantRunsOut` | apps/core/src/tasks/task-llm-jobs.service.ts:318-410 | before that its holder gets the same grant again; from then on the outcome is unknown, also to the holder |
| `CoreStore.CompleteStores` | apps/core/src/tasks/task-llm-jobs.service.ts:483-628 | evidence that Core accepts from the holder of the grant is stored and confirmed; other evidence is refused without a trace |
| `CoreStore.LateAnswerReopens` | apps/core/src/tasks/task-llm-jobs.service.ts:483-628 | a late answer opens a task blocked for its unknown outcome exactly when no other outcome of the execution is open |
| `CoreStore.StartSafe` | apps/core/src/tasks/tasks.service.ts:1215-1299 | starting an execution keeps every row, token and result |
| `CoreStore.SaveCheckpointSafe` | apps/core/src/tasks/tasks.service.ts:1434-1615 | a checkpoint is written only when every provider outcome of its execution is known, and never changes |
| `CoreStore.CommitSafe` | apps/core/src/tasks/tasks.service.ts:1657-2049 | a commit agrees with its checkpoint and is written once |
| `CoreStore.ReleaseSafe` | apps/core/src/tasks/tasks.service.ts:2055-2250 | giving up loses no token or result; with an unknown outcome exactly the open grants of the active execution close as unknown |
| `CoreStore.OwnerRetrySafe` | apps/core/src/tasks/tasks.service.ts:2284-2458 | an owner retry cancels only undispatched jobs |
| `CoreStore.EvolvesTransitive` | apps/core/src/tasks/task-llm-jobs.service.ts:483-628 | operations, tokens, results, terminal statuses, checkpoints and outcomes persist over any number of transactions |
| `CoreStore.StaleFenceChangesNothing` | apps/core/src/tasks/task-llm-jobs.service.ts:104-340 | a worker that lost its lease can neither create a job nor take a grant |
| `CoreStore.StaleFenceWritesNoOutcome` | apps/core/src/tasks/tasks.service.ts:1215-2250 | nor start, checkpoint, commit or release; it is answered 409, except that it hears a commit it already made |
| `CoreStore.TakeOverFences` | apps/core/src/tasks/tasks.service.ts:1101-1208 | a takeover makes every earlier run of the task stale and keeps the attempt |
| `CoreStore.ClaimTaskTakes` | apps/core/src/tasks/tasks.service.ts:1101-1208 | a task is taken up exactly by its own agent while nothing blocks or closes it |
| `CoreStore.StartKeepsPlan` | apps/core/src/tasks/tasks.service.ts:1215-1299 | the first start writes plan and skill; a later one must repeat them or the task is blocked |
| `CoreStore.CheckpointRecorded` | apps/core/src/tasks/tasks.service.ts:1434-1615 | an open run of that skill whose outcomes are all known records its checkpoint, and only such a run |
| `CoreStore.CommitCloses` | apps/core/src/tasks/tasks.service.ts:1657-2049 | a checkpointed run commits what its checkpoint says and nobody takes the task up again; where the daily cap is reached an action waits for another run of the same attempt |
| `CoreStore.CommitSaysTheProposal` | apps/core/src/tasks/tasks.service.ts:1657-1698 | a commit matches a proposal exactly with its own action, facts and next steps, and an approval with a tier; no signal only with no signal |
| `CoreStore.ReleaseClosesGrants` | apps/core/src/tasks/tasks.service.ts:2055-2250 | a release for an unknown outcome leaves no grant of the active execution open; any other one leaves every job as it is |
| `CoreStore.ReleaseDecides` | apps/core/src/tasks/tasks.service.ts:2055-2250 | a released run is fenced off; by its reason the task waits for the owner, or its next run goes on with the same attempt, or with a new one after a refused budget that nothing was spent of |
| `CoreStore.OwnerReopens` | apps/core/src/tasks/tasks.service.ts:2284-2458 | once no grant is running the owner's retry opens the task: for the same attempt when all outcomes became known, else for a new one |
| `CoreStore.RetryClosesRow` | apps/core/src/tasks/tasks.service.ts:2284-2458 | the retry leaves no row of the attempt open: a lapsed grant becomes unknown and an undispatched row is cancelled; every other row stays |
| `CoreStore.BlockedStays` | apps/core/src/tasks/task-llm-jobs.service.ts:725-755 | a blocked task cannot be taken up and its run is fenced off |
| `CoreStore.EnsureReplays` | apps/core/src/tasks/task-llm-jobs.service.ts:148-316 | asking again for an attempt whose outcome is known reports that outcome and leaves Core alone |
| `CoreStore.ClaimReplays` | apps/core/src/tasks/task-llm-jobs.service.ts:367-410 | a grant asked for again with its token before the deadline is the same grant |
| `CoreStore.CompleteReplays` | apps/core/src/tasks/task-llm-jobs.service.ts:483-628 | a repeated completion is confirmed again and changes nothing |
| `CoreStore.CheckpointReplays` | apps/core/src/tasks/tasks.service.ts:1434-1615 | the same checkpoint is confirmed again, another one refused |
| `CoreStore.CommitReplays` | apps/core/src/tasks/tasks.service.ts:1754-2049 | the same outcome is confirmed again, another one refused |
| `Session.ModelsForChat` | apps/agents/src/task-llm-session.ts:141-161 | a planned chat step fixes the model chain whatever is configured now; refused exactly when the route changed or an unplanned metered chain is configured |
| `Session.MatchingRoute` | apps/agents/src/task-llm-session.ts:246-282 | a gateway matches a planned route exactly in provider, adapter, adapter version and endpoint |
| `DispatchSystem.NextSafe` | apps/agents/src/task-llm-session.ts:305-452 | every event of workers, network, Core and owner keeps the protocol invariant |
| `DispatchSystem.RunSafe` | apps/agents/src/task-llm-session.ts:305-452 | so does every schedule |
| `DispatchSystem.OneWirePerJob` | apps/agents/src/task-llm-session.ts:305-400 | over every interleaving each job sees at most one provider request, with the payload Core stored with the operation |
| `DispatchSystem.WhatLeaves` | apps/agents/src/task-llm-session.ts:361-378 | a request leaves only as its attempt asked for it, and none for that job left before |
| `DispatchSystem.WiresArePlanned` | apps/core/src/tasks/task-llm-jobs.service.ts:104-200 | attempt n of a step carries the n-th model that the plan names for it, over every schedule |
| `DispatchSystem.EarlierRejected` | apps/core/src/tasks/task-llm-jobs.service.ts:905-922 | attempt n exists only after durable rejections of 1..n-1 |
| `DispatchSystem.OneOpenWirePerStep` | apps/agents/src/task-llm-session.ts:343-399 | of the requests sent for one step all but at most one are definite rejections |
| `DispatchSystem.ResultHasItsWire` | apps/agents/src/task-llm-session.ts:379-399 | a stored result is the canonical form of what the provider said on that job's one wire |
| `DispatchSystem.ReturnedIsDurable` | apps/agents/src/task-llm-session.ts:305-400 | whatever an attempt returns is what Core durably holds for that attempt |
| `DispatchSystem.RunEvolves` | apps/agents/src/core-client.ts:740-885 | results, terminal statuses, checkpoints and outcomes survive every continuation of every run |
| `DispatchSystem.CommittedForEver` | apps/core/src/tasks/tasks.service.ts:1657-2049 | a committed outcome equals its checkpoint and no schedule changes it |
| `DispatchSystem.CheckpointedSendsNothing` | apps/core/src/tasks/tasks.service.ts:1434-1615 | after a checkpoint no schedule sends another request for that execution |
| `DispatchSystem.LostForEver` | apps/core/src/tasks/task-llm-jobs.service.ts:104-340 | with fresh run ids, a run that lost its lease never regains it: over every continuation its requests are refused and change nothing |
| `ProtocolRun.ARunThatAnswers` | apps/agents/src/task-llm-session.ts:305-400 | some schedule sends a request and returns its stored answer |
| `CallModel.AnswerStays` | apps/agents/src/task-llm-session.ts:343-345 | a stored chain that has an answer keeps it whatever happens to Core |
| `CallModel.ChainSkips` | apps/agents/src/llm.ts:160-235 | after durable rejections the chain's answer is that of its remainder |
| `CallModel.AttemptReplays` | apps/agents/src/task-llm-session.ts:315-345 | on a stored attempt the session returns the stored result and does nothing else to Core |
| `CallModel.TaskLlmSession.ClaimWithRecovery` | apps/agents/src/task-llm-session.ts:402-430 | a dispatch only with this token's grant and the ensured payload; a result only if Core durably holds it; a waiting row is dispatched when the claim or its repetition is answered in time; a definite refusal is not asked again |
| `CallModel.TaskLlmSession.CompleteWithRecovery` | apps/agents/src/task-llm-session.ts:432-452 | a result only if Core durably holds it; when the completion or its repetition is answered, the result is what Core stored of the reply, and blocked if that is nothing |
| `CallModel.TaskLlmSession.RunAttempt` | apps/agents/src/task-llm-session.ts:305-400 | at most one wire request, none for a job that already had a grant; a returned result is stored; a stored attempt is replayed without a request; a fresh attempt that is let through, if only at the second try, sends its one request and ends with what Core stored of the reply; one that is not let in says whether it was the budget, the lease or the network |
| `CallModel.TaskLlmSession.CallModel` | apps/agents/src/llm.ts:130-244 | what it returns is what the stored chain answers; a chain with an answer sends nothing, and undisturbed it returns that answer; a fresh chain whose requests get through sends one request a round and returns the text of the first model that does not refuse, the last refusal if all do, and stops at a lost lease; attempt n+1 only after durable rejections of 1..n; at most the last new request is open; refused exactly when the route changed |
| `CallModel.TaskLlmSession.CallDirect` | apps/agents/src/llm.ts:160-235 | without metering the first model that answers ends the chain, a failed lease check aborts it, and else the last failure stands |
| `CallModel.FirstSpeaks` | apps/agents/src/llm.ts:160-244 | after models that refuse, the first that speaks gives its text and its name, and no later one is asked |
| `Policy.MaxTierLoop` | apps/agents/src/policy.ts:16-29 | the strictest of the tiers, an unlisted tier counting as the most dangerous |
| `Policy.EffectiveActionTier` | apps/agents/src/policy.ts:38-43 | at least the agent's tier and the skill's floor, and one of the two |
| `Policy.SkillFloor` | apps/agents/src/skill-loader.ts:218-222 | the strictest tier the file declares or its tools demand; none exactly when it demands nothing |
| `Policy.ToolFloorIsDemanded` | apps/agents/src/tools.ts:20-48 | the tool floor is the largest minimum of the listed tools |
| `Policy.ToolNeedsApproval` | apps/agents/src/tools.ts:20-48 | which tools may run without approval under each threshold, from none at T0 to contracts only at T4 |
| `Policy.SkillTierFloors` | apps/agents/src/skill-loader.ts:232-241 | each name's floor is the strictest tier any file of that name demands |
| `Policy.FloorsIgnoreOrder` | apps/agents/src/skill-loader.ts:232-241 | the floor map does not depend on the order of the files |
| `Hooks.ParseHooks` | apps/agents/src/hooks.ts:33-128 | refines the meaning of a passport's hooks section |
| `Hooks.HooksFromCore` | apps/agents/src/hooks.ts:145-234 | refines the meaning of a stored card |
| `Hooks.WrittenReads` | apps/agents/src/hooks.ts:48-112 | a known hook that is written well is read as it was meant |
| `Hooks.SectionReads` | apps/agents/src/hooks.ts:33-128 | the entries count in order, in the reader's own spelling unless that list is empty |
| `Hooks.LimitMustBePositive` | apps/agents/src/hooks.ts:78-112 | a freshness limit is taken exactly when it is a positive number, also infinity |
| `Hooks.RunRefParts` | apps/agents/src/hooks.ts:48-112 | a source is named by two non-empty names with a slash between them, a colon only in the second |
| `Hooks.TripKeepsHooks` | apps/agents/src/hooks.ts:33-234 | hooks survive passport, Core and runtime unchanged exactly when no freshness limit is infinite; none is dropped |
| `Hooks.InfiniteLimitBlocks` | apps/agents/src/hooks.ts:88-205 | a passport with any infinite limit: under the hooks of its stored card no run starts, whatever the clock and the journal |
| `Hooks.InfiniteLimitCouldPass` | apps/agents/src/hooks.ts:78-112 | a passport with `max_age_hours: .inf` whose own hooks let a run start at every time once the source has run |
| `Hooks.TripNeverWeakens` | apps/agents/src/hooks.ts:145-234 | what starts under the card's hooks starts under the passport's |
| `Hooks.NothingDropped` | apps/agents/src/hooks.ts:33-112 | every pre_run entry is kept, and one that is not understood blocks for every clock and journal |
| `Hooks.RunPreRunHooks` | apps/agents/src/hooks.ts:262-323 | the run starts exactly when every hook passes |
| `Hooks.ClockReads` | apps/agents/src/hooks.ts:236-236 | `HH:MM` reads as 60 HH + MM |
| `Hooks.SourceIsFresh` | apps/agents/src/hooks.ts:262-323 | a source is fresh exactly when its last run was executed and ended at most so many hours ago |
| `Hooks.QuietSplitsTheDay` | apps/agents/src/hooks.ts:245-250 | [from,to) and [to,from) split the day; equal bounds are never quiet |
| `Hooks.QuietMinutesCount` | apps/agents/src/hooks.ts:236-250 | the quiet minutes number (to-from) mod 1440 |
| `Runner.CanonicalIffSame` | apps/agents/src/memory.ts:15-45 | canonical forms agree exactly when the records hold the same fields, in any order |
| `Runner.CanonicalAscends` | apps/agents/src/memory.ts:15-20 | the canonical form lists the fields in the order of their keys |
| `Runner.MemoryReflects` | apps/agents/src/memory.ts:21-56 | after an observation the memory matches exactly the records equal to it |
| `Runner.SubmitsExactlyOnChange` | apps/agents/src/runner.ts:265-357 | over any history of observations the memory makes a run submit exactly when its proposal differs from the last observation |
| `Runner.RunHistory` | apps/agents/src/runner.ts:265-548 | whole runs of a skill one after another, capped, hook-blocked, skipped and completed ones mixed, the journal changing in between: run k submits exactly when it is not capped, was let start and saw a proposal that differs from the last counted observation |
| `Runner.RunTwice` | apps/agents/src/runner.ts:265-357 | of two undisturbed runs the second submits exactly when the records they are compared by differ, whatever else changed |
| `Runner.SkillRunner.RunSkill` | apps/agents/src/runner.ts:118-548 | the executor runs only through the gate, and exactly when one exists and verifies; a refusing hook keeps the skill from being called; the record the proposal declares for comparison, else its facts, decides against the memory between submission and silence and is what the memory matches then; a task run writes only its checkpoint and commits the proposal's own values; a failing lease check ends the run quietly; only a call that throws, or the skill, makes a run throw |
| `Runner.SkillRunner.RunTask` | apps/agents/src/runner.ts:176-429 | task mode never executes; every commit repeats the checkpoint and the proposal; the record the proposal is compared by decides between no change and an approval that carries its signature; a takeover does not call the skill: an unconfirmed lease ends it as ledger_unavailable, else it asks for approval exactly when the recorded facts differ from the memory |
| `Runner.SkillRunner.Weigh` | apps/agents/src/runner.ts:265-366 | an observation is submitted exactly when the record it is compared by differs from the memory and the cap is not reached; what is remembered follows |
| `Runner.SkillRunner.Submit` | apps/agents/src/runner.ts:368-473 | direct execution only through the gate; a result names what was really asked or executed, at the strictest tier, and then the memory holds the signature |
| `Runner.DirectExecutionRespectsFiles` | apps/agents/src/runner.ts:368-400 | direct execution means not task mode, active, not break-glass, threshold above T0 and at least the agent's tier, every file's declared tier and every listed tool's minimum |
| `TaskWorker.ResolveTaskSkill` | apps/agents/src/task-worker.ts:150-171 | an explicitly named skill is taken exactly when it is implemented and never replaced by a guess |
| `TaskWorker.ChatStepExactly` | apps/agents/src/task-worker.ts:73-82 | a plan has the chat step a skill needs exactly when one step alone has its key and is a chat step of that feature with a model |
| `TaskWorker.Worker.OneTask` | apps/agents/src/task-worker.ts:194-600 | at most one of commit and release, the one the run asked for; a refused budget, an unknown outcome, a changed plan and a failed skill each go back under their own reason; unless the generation was lost or the round throws, a run that asks for a commit is committed with a durable checkpoint's values and a skip without commit is released; a started execution is run from its newest checkpoint by the skill that owns it, and a takeover does not call the skill; a task without a skill or a route goes back with that reason; the result tells what the call achieved |
| `TaskWorker.CoreHearsWhy` | apps/core/src/tasks/tasks.service.ts:2055-2250 | after a round that ended in an unknown outcome no grant of its execution is open in Core and the task waits for the owner unless all is known; after a refused budget every job is as it was |
| `TaskWorker.Worker.UnhinderedCommits` | apps/agents/src/task-worker.ts:380-540 | a started task that nothing hinders commits exactly what its skill proposed, and the owner is asked unless the memory already holds the record |
| `TaskWorker.UnconfirmedLeaseReleases` | apps/agents/src/task-worker.ts:542-570 | a lease that could not be confirmed ends in a release without a reason, also at a takeover |
| `TaskWorker.CoreAcceptsCommit` | apps/core/src/tasks/tasks.service.ts:1657-1698 | what a round commits passes Core's own comparison with the checkpoint |
| `TaskWorker.Worker.RunAgentTasks` | apps/agents/src/task-worker.ts:180-603 | exactly one result per task taken up, in order, or the loop throws; it stops early only where no further run is admitted |
| `Conversation.Conversations.Get` | apps/bot/src/conversation.ts:40-48 | an expired conversation is removed and never returned |
| `Conversation.Conversations.Advance` | apps/bot/src/conversation.ts:51-58 | merges the patch into a live conversation and refreshes its time |
| `Conversation.Conversations.Sweep` | apps/bot/src/conversation.ts:66-70 | removes exactly what `get` would not return |
| `CoffeeVisit.CoffeeBot.RefillPress` | apps/bot/src/coffee-refill.ts:297-419 | after any refill button, fresh or stale: a visit is started, `refills` counts the submissions, and an ingredient was picked for that bunker at that location; a bunker press rewrites bunker and ingredient together; without a live refill the chat sees its conversation unchanged, and every other button leaves the wizard open unless it saves |
| `CoffeeVisit.CoffeeBot.Cancel` | apps/bot/src/coffee-refill.ts:302-327 | a cancel button, even a stale one, leaves what is live of another wizard as it is, returns a started visit to its menu and ends anything else |
| `CoffeeVisit.CoffeeBot.Numpad` | apps/bot/src/coffee-refill.ts:426-492 | an accepted number goes into the field of its step and a refused one changes nothing; the last key submits exactly when bunker, weight, confirmation and Core agree, and otherwise loses nothing that was entered |
| `CoffeeVisit.CoffeeBot.RefillText` | apps/bot/src/coffee-refill.ts:495-545 | an accepted value goes into the field of its step, a refused one and a text to another wizard change nothing |
| `CoffeeVisit.CoffeeBot.SaveRefill` | apps/bot/src/coffee-refill.ts:553-691 | complete data that are no unconfirmed twin are submitted; exactly a confirmed submission moves on to the menu of the same location with one more and records what the operator entered, weights rounded; complete data that were not submitted stay in the live wizard, which asks about the twin or for the weight; incomplete data end it; another wizard is left as it is |
| `CoffeeVisit.CoffeeBot.ChangePosition` | apps/bot/src/coffee-refill.ts:396-415 | a bunker press always rewrites the ingredient, as picked for that bunker at the present location |
| `CoffeeVisit.CoffeeBot.ChangeLocation` | apps/bot/src/coffee-refill.ts:356-363 | while it lives, the refill is at the new location, keeps everything else and forgets the ingredient, so it never carries one picked for another machine |
| `CoffeeVisit.CoffeeBot.ContinueVisit` | apps/bot/src/coffee-refill.ts:870-889 | the next wizard holds exactly the visit, field by field; only a refill that Core lists no bunkers for leaves the conversation as it was |
| `CoffeeVisit.VisitSeenExactly` | apps/bot/src/coffee-visit.ts:78-127 | a visit is seen in a conversation exactly when a coffee wizard's data carry one that began, with its place, count and marks |
| `CoffeeVisit.VisitRoundTrip` | apps/bot/src/coffee-refill.ts:870-889 | what a visit writes reads back as that visit |
| `CoffeeVisit.RefillRecords` | apps/bot/src/coffee-refill.ts:553-640 | the submitted record says what the data hold: location, bunker, picked ingredient, container, weights to the nearest gram, and weighing with the lid unless it was denied |
| `CoffeeVisit.TwoRefills` | apps/bot/src/coffee-refill.ts:553-889 | a refill, «another bunker» and its presses: both records name the same location and the count rises by two |
| `CoffeeVisit.CoffeeBot.ConsumablePress` | apps/bot/src/coffee-returns.ts:275-393 | a stale button leaves what is live of another wizard as it is; a new location, a correction, a count or a save writes exactly that, and a refused one changes nothing |
| `CoffeeVisit.CoffeeBot.ConsumableText` | apps/bot/src/coffee-returns.ts:412-443 | one count goes into the field of its step and three into theirs; a refused one and a text to another wizard change nothing |
| `CoffeeVisit.CoffeeBot.VisitPress` | apps/bot/src/staff.ts:833-904 | a live conversation without a started visit is left as it is; a started visit goes on at its location with its count until it is finished; a new location starts a fresh refill |
| `CoffeeVisit.CoffeeBot.CancelWord` | apps/bot/src/staff.ts:325-352 | inside a started visit the typed cancel returns to its menu; otherwise it closes the conversation |
| `CoffeeVisit.CoffeeBot.MenuPress` | apps/bot/src/staff.ts:359-410 | the invariant under menu buttons: inside a started visit the same work goes on at its location, anything else replaces the conversation |
| `RetryQueue.ScheduledOccurrenceRetryQueue.Enqueue` | apps/agents/src/scheduled-occurrence-queue.ts:22-25 | the newest object of a key replaces the older one |
| `RetryQueue.ScheduledOccurrenceRetryQueue.Flush` | apps/agents/src/scheduled-occurrence-queue.ts:31-46 | exactly the deliveries that succeed are completed; with enqueues at every await nothing is lost: the latest object of a key is pending or was delivered itself; a delivered object is pending no more and its key only with a newer one, a failed key stays pending |
| `RetryQueue.SelectPartitions` | apps/agents/src/scheduled-occurrence-queue.ts:31-46 | completed and failed partition the snapshot |
| `RetryQueue.SingleFlight.Tick` | apps/agents/src/polling.ts:58-67 | a tick starts a run exactly when none is running |
| `RetryQueue.SingleFlight.Finish` | apps/agents/src/polling.ts:68-74 | the guard is freed after success and after failure |
| `Briefing.FormatBriefingNotes` | apps/bot/src/briefing.ts:218-260 | refines the packing of the distinct texts |
| `Briefing.TailRoom` | apps/bot/src/briefing.ts:167-168 | the reserve for the tail suffices exactly below 10^8 hidden texts |
| `Briefing.BlockFits` | apps/bot/src/briefing.ts:236-260 | the block fits its budget |
| `Briefing.MessageFits` | apps/bot/src/briefing.ts:179-182 | the message fits exactly when the summary and the staff line fit by themselves |
| `Briefing.OverlongSummary` | apps/bot/src/briefing.ts:179-182 | a summary over the budget makes an over-long message whatever the notes |
| `Briefing.AckedExactly` | apps/bot/src/briefing.ts:218-271 | acknowledged are exactly the keys of the notes whose text is shown, and only after a delivery |
| `Briefing.TailCountsHidden` | apps/bot/src/briefing.ts:256-259 | the tail counts exactly the distinct texts not shown |
| `Briefing.BlockSays` | apps/bot/src/briefing.ts:218-260 | a block is the header, the shown lines and, when texts are hidden, their number in decimal; without a line there is no block |
| `Briefing.LinesInOrder` | apps/bot/src/briefing.ts:236-258 | every shown line stands on a line of its own, in order |
| `Briefing.LineKeepsStart` | apps/bot/src/briefing.ts:190-205 | a long text keeps its first 159 characters, one less where a pair would be split, and an ellipsis |
| `Briefing.BudgetIsTight` | apps/bot/src/briefing.ts:179-182 | a block that uses its whole budget fills the message to the limit exactly |
| `Briefing.EveryNoteIsDelivered` | apps/bot/src/briefing.ts:218-271 | delivered rounds with room for one line acknowledge every non-blank note |
| `EditBlocks.ParseEditBlocks` | apps/agents/src/coach.ts:127-139 | finds what the global expression finds, leftmost first |
| `EditBlocks.RoundTrip` | apps/agents/src/coach.ts:127-139 | any printed list of blocks whose bodies no marker ends early is read back as it was |
| `EditBlocks.ParsePrinted` | apps/agents/src/coach.ts:131-139 | `parseEditBlocks` on a printed list of blocks gives the list back |
| `EditBlocks.ApplyEditBlocks` | apps/agents/src/coach.ts:154-169 | all or nothing, and the left fold of first-occurrence replacements |
| `EditBlocks.ReplacesFirst` | apps/agents/src/coach.ts:154-169 | one edit replaces the first occurrence and leaves what stands before and after it |
| `EditBlocks.ApplyLength` | apps/agents/src/coach.ts:154-169 | the length changes by exactly the sum of replace minus search |
| `SalesWindow.BeforeIffNumber` | apps/agents/src/ourvend-accounting.ts:53-57 | calendar order is the order of day numbers |
| `SalesWindow.LeapRule` | apps/agents/src/ourvend-accounting.ts:53-57 | the calendar has the Gregorian leap years |
| `SalesWindow.MonthTable` | apps/agents/src/ourvend-accounting.ts:53-57 | and month lengths |
| `SalesWindow.TextOrder` | apps/agents/src/ourvend-accounting.ts:65-71 | on four-digit years string order is calendar order |
| `SalesWindow.AddDaysText` | apps/agents/src/ourvend-accounting.ts:53-57 | adding days moves the day number, and leaves four digits exactly outside 0000-01-01..9999-12-31 |
| `SalesWindow.SalesWindow` | apps/agents/src/ourvend-accounting.ts:65-71 | 1 to 14 days ending yesterday, with no day after a recent watermark uncovered; exactly when the start is a four-digit date |
| `SalesWindow.WindowEnds` | apps/agents/src/ourvend-accounting.ts:74-78 | the loop ends exactly when it never starts or runs over four-digit dates short of 9999-12-31 |
| `SalesWindow.LastDayNeverEnds` | apps/agents/src/ourvend-accounting.ts:74-78 | the window of the single day 9999-12-31 never ends: the next day reads back as January 10000 |
| `SalesWindow.WindowDays` | apps/agents/src/ourvend-accounting.ts:74-78 | then it lists every day once, in order |
| `Similarity.CauchySchwarz` | apps/agents/src/embedding.ts:308-320 | dot^2 is at most the product of the norms |
| `Similarity.CosineSimilarity` | apps/agents/src/embedding.ts:308-320 | the loop computes the cosine, which lies in [-1,1] |
| `Similarity.CosineSymmetric` | apps/agents/src/embedding.ts:308-320 | symmetric, and 0 on mismatched or zero vectors |
| `Similarity.RecallIsSound` | apps/agents/src/memory-rag.ts:76-89 | at most k positive scores, best first, taken from the scored items |
| `Similarity.RecallIsBest` | apps/agents/src/memory-rag.ts:76-89 | nothing omitted scores above anything returned, and omission only when k are returned |
| `Similarity.RecallsTheMostSimilar` | apps/agents/src/memory-rag.ts:64-90 | over memories scored by the cosine itself: at most k within (0,1], best first; a memory with a positive cosine is left out only for k that are no less similar |
| `Similarity.RecallsItself` | apps/agents/src/memory-rag.ts:64-90 | a memory with the query's own non-zero vector has cosine 1, and the first recalled has it too |
| `SolutionSearch.GatherFound` | apps/agents/src/solution-search.ts:462-497 | distinct ids and names; entries name only queries that returned them; every hit is kept or shadowed by its name; issues match failures |
| `SolutionSearch.Select` | apps/agents/src/solution-search.ts:501-543 | at most three distinct repositories, all slots used while the pool lasts; without the hint one for every query with an exclusive hit; nothing left out precedes a pick of the fill round |
| `SolutionSearch.PoolPrefers` | apps/agents/src/solution-search.ts:501-510 | with the hint more signals come first, otherwise and then more stars, then what was found earlier |
| `SolutionSearch.GatherSnapshot` | apps/agents/src/solution-search.ts:456-578 | the snapshot always passes its own consistency test, its status says what happened, and its candidates are the selection from the pool |
| `SolutionSearch.ParseModelScores` | apps/agents/src/solution-search.ts:963-999 | accepted exactly when every candidate is ranked once with scores in range |
| `SolutionSearch.EachOnce` | apps/agents/src/solution-search.ts:963-999 | an answer ranking distinct candidates in order is accepted exactly when every id is at least one |
| `SolutionSearch.TotalRange` | apps/agents/src/solution-search.ts:1015-1114 | totals lie in 7..25, at most 22 when denylisted |
| `SolutionSearch.RankDescends` | apps/agents/src/solution-search.ts:1084-1114 | the better total comes first, a tie is broken by relevance, then upkeep, then stars, then the smaller id |
| `SolutionSearch.ModelCounts` | apps/agents/src/solution-search.ts:1084-1104 | the model's scores count one for one, and where it has none the fallback stands in |
| `SolutionSearch.OpenSourceCounts` | apps/agents/src/solution-search.ts:1037-1054 | an open licence is worth two points |
| `SolutionSearch.DenylistCosts` | apps/agents/src/solution-search.ts:1084-1104 | a deny-listed candidate loses what its readiness exceeds two by |
| `SolutionSearch.UpkeepLevels` | apps/agents/src/solution-search.ts:1056-1067 | what each level of upkeep takes, in days since the last push and stars |
| `SolutionSearch.FallbackPrefers` | apps/agents/src/solution-search.ts:1015-1035 | without the model a working installation beats a mere description, that beats none, and an archive comes last |
| `SolutionSearch.RankIgnoresOrder` | apps/agents/src/solution-search.ts:1084-1114 | the ranking is sorted and does not depend on the order of the candidates |
| `SolutionSearch.ApplyRelevanceGate` | apps/agents/src/solution-search.ts:906-954 | the accepted in order; each counter counts exactly the rejected that lack its signal, and every rejection has a reason |
| `SolutionSearch.AcceptedLacksNothing` | apps/agents/src/solution-search.ts:884-904 | a candidate is accepted exactly when it lacks no signal |
| `Outbox.RateLimitDelay` | apps/agents/src/outbox-dispatcher.ts:37-41 | every pause lies in 0..30000 ms |
| `Outbox.Defaults` | apps/agents/src/outbox-dispatcher.ts:28-88 | what is not configured: ten deliveries, two repetitions, pauses of one, two and four seconds and so on up to thirty |
| `Outbox.Configured` | apps/agents/src/outbox-dispatcher.ts:72-88 | a configured value within its range is taken as it is, and another one as the nearer end |
| `Outbox.Deliver` | apps/agents/src/outbox-dispatcher.ts:83-160 | publish follows the answers and is repeated only after a 429, each pause is what that refusal asked for or the doubled base, and Core is told exactly what the last answer proved |
| `Outbox.AtMostOneCreated` | apps/agents/src/outbox-dispatcher.ts:108-125 | at most one request of a delivery creates a page |
| `Outbox.DrainNotionOutbox` | apps/agents/src/outbox-dispatcher.ts:72-161 | it claims exactly what the queue holds up to the limit, at most 100; at most 6 requests per delivery; on return claimed = sent + skipped + unknown + dead |
| `Outbox.WholeLimits` | apps/agents/src/outbox-dispatcher.ts:75-83 | the claims of a drain stay within the limit for every queue exactly when the limit is whole |
| `Outbox.HalfLimitOverruns` | apps/agents/src/outbox-dispatcher.ts:72-87 | with a limit of 1.5 two deliveries are claimed from a full queue |
| `Outbox.TallyAdds` | apps/agents/src/outbox-dispatcher.ts:87-158 | every claim is counted once, under what Core was told |
| `ConfigOverlay.EnvOverlay.Overlay` | apps/agents/src/system-config.ts:47-73 | each key depends only on its original value and the last item naming it |
| `ConfigOverlay.EnvOverlay.RemovalRestores` | apps/agents/src/system-config.ts:66-71 | when the last item naming a key is not the owner's, the process's own value is back |
| `ConfigOverlay.EnvOverlay.OnlyLastMatters` | apps/agents/src/system-config.ts:47-73 | however the histories differ before, a key follows the last item naming it |

## Left out

- CallModel.TaskLlmSession.CallModel: the ledger path without a task session is not modelled; it moves on after an
  unknown outcome.
- The budget ledger's inside: its answer to `ensure` and the recheck at `claimDispatch` are parameters.
- `embeddingResult` and the embedding path of a session; the job kind and vector evidence are in the tables.
- Trimming and lower-casing of identifiers, secret-key and size checks of provider payloads, and other 400 refusals of
  Core: any refusal can occur as a network fault.
- The clock of a stale lease: a takeover may happen at any time, which only adds schedules.
- The earliest time of the next run after a refused budget, a capped action or a missing route.
- Input snapshots and legacy checkpoints of executions.
- JSON.stringify and SHA-256: canonical records stand for their texts and digests; which canonical texts exceed 512
  characters is a parameter.
- Runner.SkillRunner.RunSkill: the lease check after the skill is the worker's, the only one there is; post-run hooks,
  which only add a review note, and the wording of reasons are left out.
- Takeover memory signatures: a checkpoint keeps only the facts, so a commit's signature after a takeover is that of
  the facts.
- TaskWorker.Worker.OneTask: the heartbeat timer is a lease that may be lost at any point; run journal lines are left
  out.
- `classifyTool`: a skill file lists tools by their class.
- CoffeeVisit.CoffeeBot.MenuPress: other wizards start and end their own conversations and do not write into a coffee
  conversation.
- CoffeeVisit.CoffeeBot.SaveRefill: that `started` and `refills` belong to the current location, or that a duplicate
  was confirmed for that very record, is not so in the code and not stated.
- The ingredient looked up by position when none was picked, summaries, tare and package arithmetic of a refill.
- RetryQueue.ScheduledOccurrenceRetryQueue.Flush: the order of the snapshot is left open.
- Briefing: surrogate pairs are a parameter of the cut; new notes between rounds are not modelled.
- Hook problems lists and warnings; the two readers are not claimed to agree on a top level that is no object.
- Rounding of floating point, NaN limits and NaN vector entries.
- HTTP clients, Telegram keyboards, report texts, monitors, passport linting and the skill catalogue.
