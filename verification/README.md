# Verified core of the enterprise policy assistant

This project models the parts of the assistant whose correctness is hardest to see from the
code, and proves what they promise. `dafny verify dfyconfig.toml` checks all of it.

- **Plan scheduling and execution** (`Plan`, `Dependencies`, `Waves`, `Depth`, `Renaming`,
  `RenamingLimits`, `EvidenceBag`, `Ledger`, `Executor`, `PlanRunner`, `ParallelRefinement`,
  `ParallelExact`, `StepLifecycle`, `Reopening`, `Outcomes`). A plan is a list of typed steps.
  Missing dependencies are inferred, the graph is layered into waves, and waves run over a
  shared evidence bag; each step sees the bag as it stood when its wave began. The functional
  run (`Executor.Execute`) is what the imperative one (`PlanRunner.PlanRun`) is proved to
  compute, and `Outcomes` tells that run from the services alone.
- **Restartable tenant backfill** (`BackfillModel`, `BackfillStages`, `Backfill`, `Selection`,
  `Enforce`).
  A cursor and a ledger row per table, persisted batch by batch. Every reachable state is a
  function of the original database and a position, whatever batch sizes and stops led there.
- **A supervised turn** (`Reflection`, `ToolLoop`, `Compliance`, `Release`, `Turn`). Drafting
  with a tool loop, the critique/improve loop, the citation check, the release gate and the
  life of the plan's steps on both execution paths.
- **Plan normalization and material backfill** (`Normalize`, `PlanReading`, `Materials`).

Each loop is tied to a function, and each such function to statements that do not mention it:
which earlier steps a step waits for, when two evidence items are the same one, what a step of
each kind ends with, whose text each round of reflection holds, which conversation the model
was shown, which entries and titles become which steps, which rows a count counts.

Retrieval, retrieval quality, skills, the language model, pattern matching on text, case
folding and the confidence heuristic are parameters: the results hold for every choice of
them. Digests are taken to be injective. Step ids may repeat unless a statement says
otherwise; dictionaries then behave as in the source (first position, last value).

Where a promise does not hold for every input, the exact condition is proved:

- Parallel and serial runs agree for all services **if and only if** no wave holds a skill
  step behind a retrieve step that asks something no earlier wave asked
  (`ParallelExact.AgreeExactlyWhenQuiet`; `SomePlanDiffers` is a plan and a set of services
  for which they differ). Plans whose skill steps have no explicit dependencies qualify.
- A second dependency inference changes nothing **if and only if** no step without usable
  explicit dependencies repeats the id of an earlier step of the sort its kind waits for while
  another such step has another id (`Dependencies.IdempotentExactlyWhen`, `RepeatedIdsCanShift`).
- While the executor runs, a finished step is never changed, repeated ids included, **if and
  only if** no step was finished at the start (`Reopening.NothingReopenedExactlyWhen`).
- A plan from the router's side has distinct ids **if and only if** it is the default one, or
  the router's usable entries have distinct ids and no appended answer takes one of them
  (`Normalize.RouterPlanDistinctExactlyWhen`; `RouterPlansCanCollide` is a router result whose
  plan has two steps s3).
- Reindexing carries an explicit dependency over **if and only if** it is neither an empty name
  that names another step nor an unknown name that is another step's new id
  (`Renaming.CarriedExactlyWhen`, and for a step's whole list `Renaming.ListCarriedExactlyWhen`).
  Without such dependencies scheduling commutes with renaming; `RenamingLimits.BothHappen` gives
  a plan of each kind for which it does not. Every caller coerces its steps first, which leaves
  no empty names (`RenamingLimits.CoercedPlansLoseNoName`), so only the second kind is reachable.
- Backfill runs over selected tables, in any order, give a full run's owners, source and target
  counts and checksums once every table is complete. A table's fallback count equals the full
  run's **if and only if** no batch covered a row whose parent row was still without an owner
  (`Selection.SelectedLedger`; `SomeSelectionOvercounts` is such a database).
- A second normalization keeps the plan **if and only if** it is not the case that there is
  room for one step only, branching is off, and only the router's word "branched" made it a
  plan (`Normalize.IdempotentExactlyWhen`, `PlanCanBeLost`).

Where code and comments differ the model follows the code: `legacy_fallback_count` counts
every covered row without a parent row, also rows that already had an owner; the fallback
and failure branches of a backfill batch are never taken; the closing "skip what is still
pending" loop of a multi-step turn never finds a step, because every kind has been settled.

## Model

| member | source | states |
|---|---|---|
| Dependencies.InferDependencies | backend/app/agents/plan_executor.py:81-130 | the one-pass loop with its running id, retrieve and query tables: each step keeps exactly its explicit dependencies that name another step, in order, or else waits for exactly the earlier steps its kind calls for |
| Dependencies.InferredExactly | backend/app/agents/plan_executor.py:92-130 | for every plan and step, repeated ids included, what inference yields told from the plan alone: the usable explicit dependencies; for answer and verify the earlier productive steps, for skill and tool the earlier searches, else the step before; for a search the first earlier id whose last search asks the same folded query, or the nearest search if it asks nothing |
| Dependencies.SearchWaitsFor | backend/app/agents/plan_executor.py:114-123 | with distinct ids a search waits for the first earlier search with the same folded query and for nothing if there is none; one with a blank query waits for the nearest earlier search |
| Dependencies.GuessPointsBack | backend/app/agents/plan_executor.py:98-127 | an inferred dependency is the id of a step earlier in the plan |
| Dependencies.DepsAreKnown | backend/app/agents/plan_executor.py:92-130 | after inference every dependency is the id of a step |
| Dependencies.BackwardPlansNeverFlush | backend/app/agents/plan_executor.py:92-161 | distinct ids and backward explicit dependencies: nothing is flushed and each dependency lies in a strictly earlier wave, in both modes |
| Dependencies.IdempotentExactlyWhen | backend/app/agents/plan_executor.py:81-130 | for every plan, a second inference changes nothing if and only if no step without usable explicit dependencies repeats the id of an earlier step its kind waits for next to one with another id |
| Dependencies.InferenceIsIdempotent | backend/app/agents/plan_executor.py:81-130 | with distinct ids a second inference changes nothing |
| Dependencies.GuessMixesExactlyWhen | backend/app/agents/plan_executor.py:98-127 | that shape of the plan is exactly when a guess holds the step's own id and another one |
| Dependencies.RepeatedIdsCanShift | backend/app/agents/plan_executor.py:81-130 | a plan with a repeated id on which a second inference does change a dependency |
| Waves.BuildExecutionWaves | backend/app/agents/plan_executor.py:133-205 | the loop, safety counter included, returns all Kahn rounds cut into waves followed by the leftover as singletons, for every input: the counter never cuts it short |
| Waves.WavesCoverOnce | backend/app/agents/plan_executor.py:144-205 | each step id is in exactly one place of the waves, also with cyclic or unknown dependencies |
| Waves.OrderIndependentOfMode | backend/app/agents/plan_executor.py:163-205 | the flattened order is the same with parallelism on and off |
| Waves.SharedWavesAreParallelizable | backend/app/agents/plan_executor.py:163-205 | a wave of more than one step holds only retrieve and skill steps |
| Waves.SplitIsGreedy | backend/app/agents/plan_executor.py:170-204 | no two neighbouring waves of a round could be one: every wave is non-empty and one of any two neighbours runs a step that must stand alone |
| Waves.RoundInPlanOrder | backend/app/agents/plan_executor.py:163-165 | a round takes its ids in the order of their last steps in the plan |
| Waves.LeftoverByFirst | backend/app/agents/plan_executor.py:156-161 | the flush takes the remaining ids in the order in which they first occur |
| Plan.LastWins | backend/app/agents/plan_executor.py:92 | the dictionary from id to step holds the last step with each id |
| Plan.KeysByFirst | backend/app/agents/plan_executor.py:144 | its keys stand in the order in which the ids first occur, each once |
| Waves.SettledIsFinal | backend/app/agents/plan_executor.py:150-161 | when the rounds end no remaining step has all its dependencies done |
| Depth.RoundIsLongestChain | backend/app/agents/plan_executor.py:149-161 | the round of a step is the length of its longest dependency chain |
| Depth.FlushIffCyclicOrDangling | backend/app/agents/plan_executor.py:156-161 | the flush fires if and only if the dependencies have a cycle or name an unknown id |
| Depth.WavesAreValid | backend/app/agents/plan_executor.py:144-205 | without a flush each dependency is in a strictly earlier wave, in both modes |
| Depth.NoShorterSchedule | backend/app/agents/plan_executor.py:133-205 | no schedule that respects the dependencies has fewer waves than there are rounds |
| Depth.WavesAreDepthOptimal | backend/app/agents/plan_executor.py:133-205 | acyclic retrieve/skill plans: the number of parallel waves is the longest chain and no valid schedule has fewer |
| Renaming.ReindexSteps | backend/app/agents/plan_branch.py:66-77 | the two loops give step i the id option_s(i+1) and pending status, and rename its non-empty dependencies in order: to the new id of the last step that carries the name, or to itself if none does; nothing else changes and the ids are distinct |
| Renaming.ReindexedDistinct | backend/app/agents/plan_branch.py:66-77 | reindexed plans have distinct ids whatever the ids were |
| Renaming.SchedulingCommutesWithRenaming | backend/app/agents/plan_branch.py:66-77 | inferring and layering the reindexed plan gives exactly the renamed waves of the original, in both modes, for every distinct-id plan without a stray dependency |
| Renaming.CarriedExactlyWhen | backend/app/agents/plan_branch.py:66-77 | one explicit dependency comes through reindexing and filtering as its renamed self if and only if it is not a stray one |
| Renaming.ListCarriedExactlyWhen | backend/app/agents/plan_branch.py:66-77 | a step's set of kept explicit dependencies survives reindexing if and only if a lost empty name is captured under its new id and every captured name is a dependency anyway |
| RenamingLimits.CoercedPlansLoseNoName | backend/app/agents/plan_normalize.py:178-227 | in a coerced plan no dependency is empty, so only an unknown name that is another step's new id can go astray |
| RenamingLimits.EmptyNameIsLost | backend/app/agents/plan_branch.py:74-76 | two searches of which the second depends on a step with an empty id: reindexed, they start together |
| RenamingLimits.UnknownNameIsCaptured | backend/app/agents/plan_branch.py:74-76 | an unknown dependency that is the first step's new id makes the second step wait once reindexed |
| RenamingLimits.BothHappen | backend/app/agents/plan_branch.py:66-77 | concrete plans of both kinds whose schedule does not commute with renaming |
| EvidenceBag.MergeEvidence | backend/app/agents/plan_executor.py:62-78 | the loop over seen keys keeps exactly the items that no earlier item is the same as, in order, with ranks from 1 |
| EvidenceBag.SameKeyExactlyWhen | backend/app/agents/plan_executor.py:50-59 | two items have the same key if and only if both carry the same chunk id; or neither a chunk id, both document and text, and these are equal up to surrounding blanks; or neither applies and base and text joined are equal |
| EvidenceBag.MergeExactly | backend/app/agents/plan_executor.py:62-78 | a merge drops exactly the items that an earlier item already is |
| EvidenceBag.NewChunkIsKept | backend/app/agents/plan_executor.py:62-72 | an item whose chunk id no earlier item has is never dropped |
| EvidenceBag.FirstsPositions | backend/app/agents/plan_executor.py:62-72 | kept items sit at ascending positions of the input, each the first of its key, and every key is kept |
| EvidenceBag.MergeAssociative | backend/app/agents/plan_executor.py:62-78 | merging is associative |
| EvidenceBag.MergeIdempotent | backend/app/agents/plan_executor.py:62-78 | merging a bag with nothing or with itself changes nothing |
| EvidenceBag.MergeIsNormal | backend/app/agents/plan_executor.py:62-78 | the result has distinct keys, exactly those of both sides, and ranks 1..n |
| Ledger.TurnState.RecordError | backend/app/agents/base.py:75-96 | appends one entry whose step id is cut to 32 characters, an empty one dropped, and lists a code below error severity once as a warning |
| Ledger.TurnState.RecordStepOutcome | backend/app/agents/base.py:98-127 | no entry for a success, otherwise exactly one: info for a skip, error for an error, warning for anything else |
| Outcomes.RunOneExactly | backend/app/agents/plan_executor.py:354-465 | the outcome of every step told from the services: a search keeps the first result, or that of the plain question after a retry, unless the assessment that counts calls it off topic, and succeeds exactly if something is kept; a skill step is skipped, suggested, refused or run by its name, the switches, the bag and the word of the skill; verify succeeds exactly on a non-empty bag; tool is skipped; answer succeeds |
| Outcomes.WaveTakesIn | backend/app/agents/plan_executor.py:467-535 | a wave: every step ends by its kind on the bag at the start, shows that status, and the run grows by exactly what the steps bring, in plan order |
| Outcomes.WaveInPlanOrder | backend/app/agents/plan_executor.py:467-475 | a wave takes exactly the steps with its ids, in plan order |
| Outcomes.RunExactly | backend/app/agents/plan_executor.py:286-544 | a whole run told from the services: each step ends on the bag of all that the earlier waves found and shows that status in the end; the final bag is the distinct items found, in order of execution; traces, warnings, skill results, latency and rerank flag are those of the steps in that order, and each suggestion is listed once |
| PlanRunner.RunPlan | backend/app/agents/plan_executor.py:286-575 | the executor object's wave loop computes the functional run: bag, traces, warnings, results, statuses, errors, ledger, event log and final plan, which is the first plan under the logged changes; plan, bag, waves, skill results and suggestions are published |
| PlanRunner.PlanRun.RunOneWave | backend/app/agents/plan_executor.py:467-535 | a wave marks its steps, runs all on the bag at its start and applies the outcomes in plan order |
| ParallelRefinement.QuietPlansRunAlike | backend/app/agents/plan_executor.py:163-205 | quiet plans: parallel and serial runs give equal bag, traces, warnings, skill results, suggestions, statuses, errors and ledger |
| ParallelRefinement.ParallelRefinesSerial | backend/app/agents/plan_executor.py:467-544 | the same whenever each skill step depends on every retrieve step before it |
| ParallelRefinement.ImplicitSkillsAwaitRetrieves | backend/app/agents/plan_executor.py:106-114 | that condition holds for every plan without explicit skill dependencies |
| ParallelExact.AgreeExactlyWhenQuiet | backend/app/agents/plan_executor.py:354-544 | for distinct ids the two modes agree for all services, questions and ledgers if and only if the plan is quiet |
| ParallelExact.SomePlanDiffers | backend/app/agents/plan_executor.py:354-544 | a plan and services for which the two modes differ |
| ParallelExact.FinalStatus | backend/app/agents/plan_executor.py:467-544 | a step's final status is its outcome on the bag its wave began with |
| StepLifecycle.EveryStepEnds | backend/app/agents/plan_executor.py:467-544 | after a run every step is success, skipped or error, whatever the plan |
| StepLifecycle.StepLifetime | backend/app/agents/plan_executor.py:467-500 | for every plan an id is announced as running and then only with its final status, each as often as steps carry it |
| Reopening.NothingReopenedExactlyWhen | backend/app/agents/plan_executor.py:265-284 | for every plan and mode, no step finished in one plan of a run differs in a later one if and only if none was finished at the start |
| Reopening.TrailIsMonotone | backend/app/agents/plan_executor.py:265-284 | the plans between announced changes reopen nothing if and only if no history replaces a final status |
| StepLifecycle.EachStepRunsOnce | backend/app/agents/plan_executor.py:467-500 | with distinct ids each step is announced exactly twice: running, then its final status |
| StepLifecycle.OneEntryPerFailedStep | backend/app/agents/plan_executor.py:501-535 | the error list has exactly one entry per step that did not succeed, with its shortened id, its status and kind and the severity of the status, none for the others, in execution order |
| StepLifecycle.EveryStepTakenOnce | backend/app/agents/plan_executor.py:467-475 | the waves take each step of a distinct-id plan exactly once |
| StepLifecycle.LedgerGainsTheErrors | backend/app/agents/plan_executor.py:501-512 | the blackboard's step entries are the earlier ones followed by the run's own errors, and its other entries grow by exactly the run's warnings |
| StepLifecycle.RanksAreCitationNumbers | backend/app/agents/plan_executor.py:73-78 | after any run the bag has distinct keys and item i has rank i |
| Release.CitationNamesTheShownItem | backend/app/agents/answer_agent.py:57-60 | in a released text over such a bag a citation n is in range and names the one item whose evidence line, shown in the prompt, is marked [n] |
| Release.LineTells | backend/app/agents/answer_agent.py:57-60 | an evidence line opens with the item's marker, holds its title or the fixed word for none, and ends with its text |
| Release.LinesShown | backend/app/agents/answer_agent.py:57-60 | every evidence line stands in the joined text of the prompt |
| Release.TagReads | backend/app/agents/compliance_agent.py:12 | the marker printed for rank n is read by the citation check as n and nothing else |
| Normalize.NormalizePlan | backend/app/agents/plan_normalize.py:303-398 | the branches in order yield the plan, mode and source given by cases |
| Normalize.ParseUserSteps | backend/app/agents/plan_normalize.py:41-62 | the first max usable numbered titles, numbered s1, s2, … |
| PlanReading.UserStepsAre | backend/app/agents/plan_normalize.py:41-62 | the steps are the titles that are not blank, stripped, in order, numbered from 1, each with its kind, its query where the kind searches, and its skill |
| Normalize.CoerceAll | backend/app/agents/plan_normalize.py:347-353 | the first max usable router entries |
| PlanReading.CoerceExactly | backend/app/agents/plan_normalize.py:161-227 | exactly the typed entries and the dictionaries with a title become steps, with the stated id, title, kind, query, skill hint, tool hints and dependencies, each stripped and cut to its limit |
| PlanReading.CoercedAre | backend/app/agents/plan_normalize.py:347-353 | the router's steps are its usable entries in order, numbered by their place in the raw list |
| Normalize.WithAnswer | backend/app/agents/plan_normalize.py:230-255 | at most max steps; an input of at most max steps keeps or gains an answer and is unchanged if it had one |
| PlanReading.AnswerTail | backend/app/agents/plan_normalize.py:230-255 | completing a list: with an answer or empty it is only cut; with room an answer is appended under the next number; without room the last step gives way to an answer that keeps its id, and its title if that speaks of an answer |
| PlanReading.DefaultSteps | backend/app/agents/plan_normalize.py:258-300 | the default plan: a search for the rewritten or the cut question, the task's skill where one is called for, and the answer |
| Normalize.PlanShape | backend/app/agents/plan_normalize.py:303-398 | empty exactly when complexity and difficulty are simple and the source is none; otherwise at most max steps including an answer |
| Normalize.BranchedOnlyWhenAsked | backend/app/agents/plan_normalize.py:355-373 | branched only with planning and both ToT flags on, fewer than two numbered steps, and a reason to branch |
| PlanReading.BranchReasons | backend/app/agents/plan_normalize.py:89-112 | a question counts as branched if and only if it is not blank, has no two numbered titles, and says so, or the router does, or it compares in several phases or forms |
| PlanReading.PlanReasons | backend/app/agents/plan_normalize.py:65-86 | when a question counts as multi-step, with every threshold |
| PlanReading.PlanSource | backend/app/agents/plan_normalize.py:303-398 | from the user if and only if there are two numbered titles and room for two; else from the router's side if and only if the question calls for a plan, the router gives two steps and says so, or one is asked for outright and the router gives something |
| PlanReading.PlanSteps | backend/app/agents/plan_normalize.py:303-398 | which steps each source yields, and that a router-side plan is branched if and only if both flags are on and there is a reason |
| Normalize.IdempotentExactlyWhen | backend/app/agents/plan_normalize.py:303-398 | a second pass keeps mode, source and every id, kind and dependency if and only if the input is not in the one losing family |
| Normalize.IdempotentWithRoom | backend/app/agents/plan_normalize.py:303-398 | with room for two steps a second pass always keeps them |
| Normalize.LostMeansDropped | backend/app/agents/plan_normalize.py:324-398 | in the losing family the second pass drops the whole plan |
| Normalize.PlanCanBeLost | backend/app/agents/plan_normalize.py:324-398 | the losing family has a member |
| Normalize.UserPlansAreDistinct | backend/app/agents/plan_normalize.py:334-344 | user-numbered plans have ids s1..sn, the answer included |
| Normalize.DefaultPlanIsDistinct | backend/app/agents/plan_normalize.py:258-300 | default plans have distinct ids at every length |
| Normalize.WithAnswerDistinctExactlyWhen | backend/app/agents/plan_normalize.py:230-255 | completing any list leaves distinct ids if and only if the kept ones are distinct and no appended answer takes a used id |
| Normalize.RouterPlanDistinctExactlyWhen | backend/app/agents/plan_normalize.py:346-390 | a router-side plan has distinct ids if and only if it is the default one or the usable entries are distinct and the appended answer's id is new |
| Normalize.RouterPlansCanCollide | backend/app/agents/plan_normalize.py:247-254 | a router result of typed steps s1 and s3 whose normalized plan has two steps s3 |
| Reflection.NormalizeCritique | backend/app/agents/critique_agent.py:102-147 | the issues are the readable entries in order, stripped and cut, all of them or the first twelve; a pass exactly when none is an error and the warnings are within budget, or there is none, whatever verdict was claimed |
| Reflection.RunReflection | backend/app/agents/reflection_loop.py:152-473 | each round's critique is the critic's reply to the answer it began with and the issues of the round before; its after-answer is the editor's text unless that is blank, the verdict passed or it was the last round; it counts as improved exactly if the stripped texts differ; rounds chain from draft to result; why it stopped and how often each model was called follow from the rounds and the critic's last reply; a closed gate changes nothing |
| Reflection.StopReasons | backend/app/agents/reflection_loop.py:243-473 | a pass only on a fine last critique, the limit only on one that is not; an empty rewrite is never the reason; fewer rewrites than rounds allowed |
| Reflection.ChainedMeans | backend/app/agents/reflection_loop.py:243-473 | each round's after-answer is the next one's before-answer, from the draft to the result |
| ToolLoop.CompleteWithTools | backend/app/agents/answer_agent.py:148-250 | messages are the two prompts and whole blocks; each block opens with the model's reply to the messages before it and holds every call it asked for with its outcome; the loop goes on until the model asks for no tool or the limit is reached; its text counts unless blank, then the text-only reply does, and the fixed notice only if that is blank; the number of model calls follows |
| ToolLoop.RunCalls | backend/app/agents/answer_agent.py:185-243 | one assistant message, then for each of its calls in order the reply that carries its outcome |
| Compliance.CitedIndices | backend/app/agents/compliance_agent.py:50 | one left-to-right scan finds exactly the numbers of all bracketed digit runs of the text |
| Compliance.CheckAnswer | backend/app/agents/compliance_agent.py:38-113 | refuse if and only if blank, without evidence or with a citation outside 1..n; revise if and only if otherwise markers are missing or a number is ungrounded; passed exactly on pass; each warning once and exactly when due |
| Release.DraftWithoutEvidence | backend/app/agents/answer_agent.py:110-146 | the fixed refusal under hard refusal or a failed call; otherwise the stripped reply, or the fixed word for none, with the disclaimer in front exactly if it holds no caveat of its own |
| Release.DraftAnswer | backend/app/agents/answer_agent.py:43-108 | the draft by the way it came about: that text without evidence; the reply to the prompt made from the evidence lines; or a tool-loop draft with all the guarantees of the loop |
| Release.Reflect | backend/app/agents/reflection_loop.py:47-113 | a closed gate, whatever closed it, leaves the draft alone; otherwise every guarantee of the loop holds for the draft |
| Release.Release | backend/app/agents/pipeline.py:195-328 | decides pass or refuse; passes if and only if the last checked text is releasable; that text is the draft, or the editor's answer to exactly the issues that call for a revision, if and only if one is due and there is an editor; a refused text is replaced by the fixed refusal with confidence 0; the warnings are those due and the confidence is the heuristic's cut to 0..0.95 |
| Release.ReleasedTextCitesEvidence | backend/app/agents/compliance_agent.py:47-66 | a released text is non-blank, all its citations are in 1..n, and without citations it is openly a refusal |
| Turn.TurnRun.EmitPlanKind | backend/app/agents/pipeline.py:113-140 | changes exactly the pending and running steps of a kind and announces, in plan order, exactly the steps with a changed id, each with the status it now has |
| Turn.TurnRun.AnswerAndComply | backend/app/agents/pipeline.py:142-371 | the reply is gated for every model output, drafting, reflection and release each keep all their guarantees from one to the next, and plan and announcements are those of the answer, verify and closing updates in order |
| Turn.EndingCloses | backend/app/agents/pipeline.py:160-371 | what the last stage makes of each step: finished ones untouched, answer success, verify by the verdict, pending others skipped |
| Turn.RetrieveOnce | backend/app/agents/pipeline.py:862-942 | which search result is kept after an optional retry, which assessment counts, and that the evidence is it or nothing by that assessment |
| Turn.RunSinglePass | backend/app/agents/pipeline.py:856-1167 | evidence, skill start and skill status follow from the request and the services; a search step succeeds if and only if evidence was kept, a skill step by the skill stage, a tool step if and only if there are tools, verify if and only if the verdict passed, answer always; no finished step changes in any intermediate plan; the reply is gated |
| Turn.BothStages | backend/app/agents/pipeline.py:856-1130 | both stages together settle every kind, so no step is left for the closing loop |
| Turn.EachStepToldOnce | backend/app/agents/pipeline.py:856-1130 | with distinct ids the whole announced history of each step: running where its stage started, then its final status, once |
| Turn.StagesInOrder | backend/app/agents/pipeline.py:856-1130 | everything such a turn announces, in order: search, skills and tools starting, skills and tools ending, answer, verification, skips |
| Plan.MonotoneOverall | backend/app/agents/pipeline.py:113-140 | between any two moments of a turn finished steps stay as they are and only statuses change |
| Turn.RunWithExecutor | backend/app/agents/pipeline.py:674-813 | over the plan executor every step ends, the reply is gated on the bag, the answer stage adds no status change, the board's step entries grow by exactly the run's errors and its other entries by the warnings, and no finished step changes from the first plan to the last if and only if none was finished at the start |
| Turn.ExecutorEvents | backend/app/agents/pipeline.py:674-813 | with distinct ids each step of such a turn is announced as running and then with its final status |
| BackfillStages.FinalOwners | migrations/backfill_legacy_tenant.py:468-502 | owned rows keep their owner; an unowned child row gets its parent row's final owner if that row exists and the legacy tenant otherwise; every row ends up owned |
| BackfillStages.FallbackMeansNoParent | migrations/backfill_legacy_tenant.py:468-506 | a covered row counts as a fallback if and only if it has no parent row, owned or not |
| Backfill.Connection.BackfillTableBatch | migrations/backfill_legacy_tenant.py:560-645 | a batch moves the position forward inside the table, or completes it when nothing is left; the fallback and failure branches are unreachable |
| Backfill.Connection.BackfillTable | migrations/backfill_legacy_tenant.py:693-713 | the loop stops after the first call the stop check stops at; unstopped it takes ceil(unseen / size) + 1 calls and raises exactly when that many batches reach the ceiling; the position after it is exact in every case |
| Backfill.BatchesBound | migrations/backfill_legacy_tenant.py:693-713 | the batch count is the rounded-up quotient |
| Backfill.CoveredIds | migrations/backfill_legacy_tenant.py:482-516 | the rows a batch covers lie strictly above the old cursor and up to the new one |
| Backfill.Connection.RunBackfill | migrations/backfill_legacy_tenant.py:655-726 | from any position an earlier run left: a bad size changes nothing; a finished run made the exact number of calls, none told to stop, and reaches the one final position; a stopped run ends exactly where its first stop was; an error means some table needs as many batches as the ceiling |
| Backfill.UnstoppedRunFinishes | migrations/backfill_legacy_tenant.py:655-726 | a run that nothing stops finishes, from any position, if each table has fewer rows than the ceiling |
| Backfill.Connection.RunRepeatedly | migrations/backfill_legacy_tenant.py:655-726 | any sequence of runs with any batch sizes and stops, each from where the one before it ended: once one finishes, rows and ledger are functions of the original database alone |
| Backfill.FinalLedgerOf | migrations/backfill_legacy_tenant.py:715-726 | the final ledger row: completed, every row covered, one update per unowned row, the fallback count, the checksum of the ordered ids |
| Backfill.FinalCounts | migrations/backfill_legacy_tenant.py:503-506 | the final counts as numbers of rows: all rows, those that had no owner, those without a parent row |
| Backfill.LedgerAlong | migrations/backfill_legacy_tenant.py:560-645 | the ledger anywhere on the way: no row for tables to come; for the one under way its status, cursor and the counts of the rows covered so far; for the others the completed row |
| Selection.SelectedBatch | migrations/backfill_legacy_tenant.py:560-645 | a batch on any table, wherever the others stand, claims its rows as a full run would and records what it covered and how far the parent had come |
| Selection.RunSelected | migrations/backfill_legacy_tenant.py:655-726 | a run over selected tables refuses unknown names, leaves other tables alone, makes the calls its tables need in order up to the first stop, ends with every table exactly where these calls take it, and completes and seals them if nothing stops it; it raises only if a table needs as many batches as the ceiling and finishes only if none does |
| Selection.RunSelections | migrations/backfill_legacy_tenant.py:655-726 | any sequence of selections on a fresh database, each from the marks the one before it left: once all tables are complete the rows are a full run's |
| Selection.SelectedLedger | migrations/backfill_legacy_tenant.py:468-506 | the ledger row of a completed table is a full run's but for the fallback count, which is never less and equal if and only if no batch came too early |
| Selection.TooEarlyExactlyWhen | migrations/backfill_legacy_tenant.py:468-502 | a row comes too early if and only if its parent row exists, had no owner at the start and is not yet covered |
| Selection.ClaimsAlike | migrations/backfill_legacy_tenant.py:468-502 | a row is claimed for the same tenant however far its parent table has come |
| Selection.SomeSelectionOvercounts | migrations/backfill_legacy_tenant.py:468-506 | a database on which taking the child table first counts more fallbacks |
| Enforce.ScopeHasRootParents | migrations/backfill_legacy_tenant.py:120-145 | in the declared scope every table that others inherit from inherits from none |
| Enforce.ScopeIsPlannable | migrations/backfill_legacy_tenant.py:120-145 | in the declared order names are distinct and parents precede their children |
| Enforce.AssertBackfillReconciled | migrations/versions/002_enterprise_enforce.py:144-177 | passes if and only if the ledger exists and every table in scope is completed |
| Enforce.AssertNoUnownedRows | migrations/versions/002_enterprise_enforce.py:180-196 | passes if and only if every table with the column is declared and has no unowned row |
| Enforce.ScopeCovers | migrations/versions/002_enterprise_enforce.py:75-95 | each of the 19 declared tables is in the backfill scope or among the six created with an owner |
| Enforce.GuardsPassAfterBackfill | migrations/versions/002_enterprise_enforce.py:394-409 | the final rows and ledger of a finished backfill meet both guards |
| Enforce.ReconciledExactlyWhen | migrations/versions/002_enterprise_enforce.py:144-177 | wherever a backfill stands, the ledger guard's condition holds if and only if the last table is complete |
| Enforce.BackfillThenEnforce | migrations/versions/002_enterprise_enforce.py:394-409 | a run with the source's ceiling and then the guards: the ledger guard passes if and only if the last table is complete, the row guard if and only if the tables with the column are declared and owned, and both pass after a finished run |
| Materials.NextVersionNumber | backend/app/db/models.py:1471-1479 | one past the largest number in use, 1 when there is none |
| Materials.Authority.CreateVersion | migrations/backfill_materials.py:370-440 | appends the next number pointing at the latest version; all chains stay valid |
| Materials.Authority.RecordObject | migrations/backfill_materials.py:442-473 | the new object row belongs to the last version, and rows and stored versions stay one to one |
| Materials.Authority.MigrateOne | migrations/backfill_materials.py:206-339 | a document is passed over if and only if it has no tenant, is already stored, or its file is missing, empty or not the recorded one, with that reason, and nothing is written; otherwise its material gains exactly one version, holding an object exactly if the upload arrived, and live exactly if the index is whole, activation was asked for and did not fail; the report says which |
| Materials.Authority.Run | migrations/backfill_materials.py:168-204 | the documents are processed one after the other in this way, whatever fails; every chain stays valid and no stored version is renumbered, relinked or followed; the report lists every outcome |
| Materials.Authority.RunRepeatedly | migrations/backfill_materials.py:168-204 | any sequence of runs is like one long run over all their documents |
| Materials.OneObjectPerMaterial | migrations/backfill_materials.py:343-368 | no material ever has two object rows |
| Materials.ChainGrows | migrations/versions/004_stage5_materials.py:175-182 | appending keeps numbers 1..n, the predecessor links and the object only on the last |
| Materials.Report.Record | migrations/backfill_materials.py:109-119 | the counters always equal the numbers of outcomes of each kind and add up to the scanned total |

## Left out

- Renaming.SchedulingCommutesWithRenaming: gives a sufficient condition on the dependencies; the waves of a plan with stray ones can still coincide by accident, so the exact conditions are stated for a dependency and for a step's list of them.
- Ledger.TurnState.RecordError: codes, messages and sources are symbolic, so their length limits and the free-form details are not modelled.
- Turn.RunSinglePass: models the statuses, announcements and reply of the single-pass path, not the ledger entries it writes nor query rewriting, because those only append.
- Turn.TurnRun.AnswerAndComply: leaves out the ledger entries for compliance warnings and refused releases, and a verify failure can appear there a second time after the executor's own entry.
- Backfill.Connection.RunBackfill: always takes all tables; the optional selection is `Selection.RunSelected`. The ceiling is a parameter, 1,000,000 in the source.
- StepLifecycle.EveryStepEnds: services are total functions, so this is about runs that return; an exception from retrieval or a skill call leaves the run without a result.
- Backfill.Connection.BackfillTableBatch: takes the keyset statement as a function on ordered rows, with no concurrent inserts; a row id is its place in the id order, and the failure bookkeeping of the unreachable branches is omitted.
- Compliance.CheckAnswer: word sets, the search for ungrounded numbers and sentence-level claim support are parameters.
- Release.Release: the confidence heuristic is an arbitrary value cut to 0..0.95, and 0 without evidence.
- Reflection.RunReflection: which question counts as high stakes is a parameter, and reflection's own ledger notes are omitted.
- Materials.Authority.MigrateOne: takes the index as a parameter, and the object store's failures as inputs; a stored document whose indexing failed is not taken up again, because every later run skips it. Ids are counters.
- `TurnBudget`, wall-clock limits, latencies, stage callbacks and diagnostics events have no bearing on these results.
- User-visible messages are kept as the data they are rendered from; truncation is modelled for queries and step ids only.
- Option generation and choice (`_ensure_one_recommended`, `pick_recommended_option`, `_heuristic_options`) and `verify_backfill` would only add easy members.
- Routes, the orchestration graph, the router's and agents' prompts, schema DDL, row-level security and the user interface.
