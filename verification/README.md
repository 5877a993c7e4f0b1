# openforms: verified model

A Dafny model of the parts of openforms that keep or transform state, with proofs about every input, every run and
every reachable state.

* **Job queue** (`JobQueue.dfy`, `QueueEffects.dfy`, `Recovery.dfy`): the leased queue as a class, and as a step system
  with a clock, worker claims and crashes.
* **Definition store** (`VersionTable.dfy`, `Store.dfy`, `Reports.dfy`, `DefinitionStore.dfy`, `DefinitionJson.dfy`,
  `DocumentMembers.dfy`): the JSON form of definitions, append-only versions, `apply` with its three loops and its
  report, dry runs, export and the version caches.
* **Workflow engine** (`FieldPatches.dfy`, `Engine.dfy`, `EngineRuns.dfy`, `EngineEffects.dfy`, `Delivery.dfy`,
  `FailureEvents.dfy`): field patches, guarded transitions, what each call writes, the event log and the outbox of jobs,
  joined to the job queue and to the failure hook.
* **Submission evaluator** (`Values.dfy`, `Submissions.dfy`, `SdkLogic.dfy`): the server's and the SDK's versions of the
  single pass, and when they agree. `DefinitionRules.dfy` says what a valid definition is, `Validators.dfy` (with
  `Problems.dfy`) finds what is wrong with one, and `ProblemPaths.dfy` and `BundlePaths.dfy` say what is reported where.
* **Editors** (`Objects.dfy`, `FormReducer.dfy`, `FormEdits.dfy`, `WorkflowReducer.dfy`, `WorkflowEdits.dfy`,
  `StateRenaming.dfy`, `FieldRenaming.dfy`): both reducers; what each edit changes and keeps; when renames keep the
  meaning that evaluator and engine give to a definition.
* **Printers and bounded machines** (`YamlScalars.dfy`, `YamlStyles.dfy`, `YamlEmitter.dfy`, `YamlReader.dfy`,
  `YamlRoundTrips.dfy`, `YamlDefinitions.dfy`, `Ordering.dfy`, `QEncoding.dfy`, `Csv.dfy`, `Cursor.dfy`, `Listing.dfy`,
  `RateLimiter.dfy`).

Code that updates objects or loops is a class or a method with invariants, proved against a function of its inputs; the
lemmas are about these functions. `dafny verify dfyconfig.toml` verifies the whole project.

Some properties turned out to need a condition. Each is stated as an exact one, with an input that shows the need:

* A transition may be called "submit", which is also the trigger of the creation. Its jobs are then loaded without the
  transition and its source state (`EngineRuns.LoadFindsTheSource`, `EngineRuns.SubmitMayNameATransition`).
* The server compares numbers as doubles, so integers beyond 2^53 can count as equal, and a patch from one to the other
  is not applied (`JsonValues.JsonEqualIsEquality`, `JsonValues.NeighboursAreTakenForEqual`, `FieldPatches.AskedIsSet`).
  Limits are compared digit by digit, so server and SDK part exactly where rounding carries an answer across a limit
  (`SdkLogic.EvaluatorsAgree`, `SdkLogic.InexactNumbersCanPass`, `SdkLogic.InexactLimitsCanPass`).
* Server and SDK agree on paths and data, but word one multiselect problem differently (`SdkLogic.ChecksAgree`,
  `SdkLogic.MessagesCanDiffer`).
* The limiter allows up to 2*limit - 1 hits in a window-long interval, not `limit` (`RateLimiter.TheBoundIsReached`).
* Renaming a field whose condition names itself leaves that condition dangling, and offered edits lead there
  (`FormReducer.ReduceKeepsSound`, `FormReducer.OfferedEditsCanDangle`).
* Removing any state also drops transitions that had no source before (`WorkflowReducer.AddThenRemoveState`,
  `WorkflowReducer.SourcelessTransitionIsLost`).
* A time before the year 1000 has no valid cursor (`Cursor.CursorRoundTrip`).
* A duplicated field's key can grow past 64 characters (`FormReducer.DuplicateValid`,
  `FormReducer.LongKeyCannotBeCopied`).
* "No starvation" holds strictly after a job's time, and at that very second only for a job without rivals
  (`JobQueue.NoStarvation`, `JobQueue.BoundAtTheTick`, `JobQueue.StarvedAtTheTick`).
* Canonical YAML does not always read back: the string "<<" is written as a merge, and some plain scalars resolve to
  something else or to nothing, such as the label "=" and the number 0.00001 (`YamlRoundTrips.ReadsBack`,
  `YamlDefinitions.FormSurvives`, `YamlDefinitions.EqualsSignIsLost`, `YamlDefinitions.SmallLimitIsLost`).
* Renaming a workflow field also trims the roles of the transitions that require it, which can let other callers
  through (`FieldRenaming.RenameKeepsDecisions`).

## Model

| member | source | states |
|---|---|---|
| `JobQueue.Queue.Enqueue` | src/openforms/server/services/jobs.py:117-126 | the new job is pending, due at once, with no attempts and the default budget; nothing else changes |
| `JobQueue.Queue.Claim` | src/openforms/server/services/jobs.py:128-153 | claims the first job by time and id among the pending ones that are due and the running ones past their lease, counts the attempt and sets the lease; returns nothing exactly if there is none |
| `JobQueue.Queue.Finish` | src/openforms/server/services/jobs.py:167-193 | the row by id becomes done, failed (permanent error anywhere in the chain, or attempts used up) or pending again after the backoff; the failure hook is told exactly of a job that ends failed |
| `JobQueue.Queue.RunOnce` | src/openforms/server/services/jobs.py:128-165 | one round of a worker is a claim of the first due job followed by the record of its outcome; a job without a handler fails for good; the failure hook is told exactly of the jobs that end failed |
| `JobQueue.Queue.Retry` | src/openforms/server/services/jobs.py:213-224 | exactly the failed jobs of the organisation are reset to pending with no attempts |
| `JobQueue.IsPermanent` | src/openforms/server/services/jobs.py:61-67 | the loop over the chain of causes finds a permanent error exactly if one of them is permanent |
| `JobQueue.Backoff` | src/openforms/server/services/jobs.py:70-77 | the doubling loop yields min(5 * 2^(n-1), 3600) seconds |
| `JobQueue.TotalWait` | src/openforms/server/services/jobs.py:70-77 | the waits before claim k add up to 5*(2^(k-1)-1) s for k <= 11 and 5115 + 3600*(k-11) s from there on |
| `JobQueue.StepKeepsInv` | src/openforms/server/services/jobs.py:128-224 | every step (clock, enqueue, claim, report within the lease, retry) keeps: attempts count the claims, pending means attempts left, running means locked, at most one live claim per job and it matches the row |
| `JobQueue.EveryRun` | src/openforms/server/services/jobs.py:128-224 | in every run from the empty queue a job has at most one live claim, which matches attempts and lock, and the claims since the last enqueue or retry are at most the budget plus the crashed claims |
| `JobQueue.ClaimsAreSpaced` | src/openforms/server/services/jobs.py:70-77 | in crash-free runs claim k of a job never comes before the sum of the k-1 backoff waits |
| `JobQueue.DoneIsFinal` | src/openforms/server/services/jobs.py:167-193 | a done job stays as it is in every later run |
| `JobQueue.FailedUntilRetry` | src/openforms/server/services/jobs.py:213-224 | a failed job stays as it is in every later run without a retry of it |
| `JobQueue.EndsAreReported` | src/openforms/server/services/jobs.py:167-193 | in every run a job becomes done only by a report of success from a worker that holds a claim of it, and failed only by a report of an error |
| `JobQueue.NobodyOvertakes` | src/openforms/server/services/jobs.py:128-153 | once the clock is strictly past a pending job's time, no step puts another job before it, and each claim of another job uses up one that was before it |
| `JobQueue.NoStarvation` | src/openforms/server/services/jobs.py:128-153 | such a job is claimed within (pending jobs before it) + 1 claims, in every run without lease expiry |
| `JobQueue.WorkIsFound` | src/openforms/server/services/jobs.py:128-153 | while a job waits, some claim is possible |
| `JobQueue.BoundAtTheTick` | src/openforms/server/services/jobs.py:128-224 | at the very second of a pending job, while no lease has run out, the bound holds for all runs if and only if the job has no rival: no job with a smaller id that is failed, held by a worker or before it in the queue |
| `JobQueue.StarvedAtTheTick` | src/openforms/server/services/jobs.py:213-224 | a run from the empty queue in which a job pending at its very second, with no job before it, is passed by the next claim |
| `Recovery.TakesTheFirst` | src/openforms/server/services/jobs.py:135-147 | a claim is possible exactly of the job that is first, by time and id, among the pending ones whose time has come and the running ones whose lease is over |
| `Recovery.SomeClaimIsPossible` | src/openforms/server/services/jobs.py:135-147 | as soon as there is such a job, pending or abandoned, some claim is possible |
| `Recovery.TakeLeases` | src/openforms/server/services/jobs.py:135-147 | a claim leases its job for 300 seconds, counts one more attempt and, of an abandoned job, one more crash; no other job changes |
| `Recovery.NobodyOvertakesOverdue` | src/openforms/server/services/jobs.py:135-147 | while no further lease runs out, nothing is put before an abandoned job, or one waiting since before now, and each claim of another job uses up one that was before it |
| `Recovery.OverdueJobsAreTaken` | src/openforms/server/services/jobs.py:128-153 | an abandoned job is taken again, and a waiting one taken, within (jobs in front of it) + 1 claims, in every run in which no further lease runs out |
| `QueueEffects.PermanentMeans` | src/openforms/server/services/jobs.py:61-67 | an error is permanent exactly if it or one of its causes is |
| `QueueEffects.EnqueueWrites` | src/openforms/server/services/jobs.py:117-126 | every column of a new job, and no other job |
| `QueueEffects.ClaimWrites` | src/openforms/server/services/jobs.py:135-147 | every column that a claim writes, and those that it leaves |
| `QueueEffects.FinishWrites` | src/openforms/server/services/jobs.py:167-193 | done on success; failed on a permanent error or the last attempt; otherwise pending again after the wait; and what each leaves |
| `QueueEffects.RoundWrites` | src/openforms/server/services/jobs.py:128-165 | what one round of a worker leaves of its job, and that no other job changes |
| `QueueEffects.RetryWrites` | src/openforms/server/services/jobs.py:213-224 | every column that a retry writes, and that it writes none for a job that has not failed or is of another organisation |
| `QueueEffects.StepsArePossible` | src/openforms/server/services/jobs.py:128-224 | when each step of the queue is possible; only the passing of time moves the clock, and it changes nothing else; only a claim adds a claim, and only its report removes it |
| `QueueEffects.FinishOfNothing` | src/openforms/server/services/jobs.py:167-193 | a job that is gone is not written |
| `QueueEffects.WaitDoubles` | src/openforms/server/services/jobs.py:70-77 | the first wait is 5 s, each further one twice as long up to an hour |
| `VersionTable.UpsertKeepsTable` | src/openforms/server/models/definitions.py:350-436 | an upsert keeps every slug's versions numbered 1 to n, each different from the one before in document or pin, with version n the current one |
| `VersionTable.UpsertPoints` | src/openforms/server/models/definitions.py:350-436 | an upsert moves only its slug's current version, to a row with the document and the pin, appends at most one row, and reports changed and created truthfully |
| `VersionTable.VersionsAreNumbered` | src/openforms/server/models/definitions.py:350-436 | a slug's versions are numbered 1 to n and version n is the current one |
| `DefinitionStore.Service.UpsertWorkflow` | src/openforms/server/models/definitions.py:350-389 | the method in place is the upsert of the table without a pin |
| `DefinitionStore.Service.UpsertForm` | src/openforms/server/models/definitions.py:392-436 | the method in place is the upsert of the table with the pin |
| `DefinitionStore.Service.CurrentWorkflowVersion` | src/openforms/server/models/definitions.py:439-450 | no version for the empty slug, the current one for a known slug, and not-found otherwise |
| `DefinitionStore.Service.DependentForms` | src/openforms/server/models/definitions.py:453-460 | the current forms that name the workflow, in slug order |
| `DefinitionStore.Service.ValidateInput` | src/openforms/server/models/definitions.py:324-342 | exactly the problems of the definitions by themselves or, without any, those of the bundle; none exactly when all definitions are valid, slugs are distinct and every named workflow exists or comes along |
| `DefinitionStore.ValidateBundle` | src/openforms/definition/bundle.py:21-42 | exactly the prefixed problems of each document, repeated slugs and unknown workflows, in order; none exactly when every document is valid, no slug repeats and every named workflow is known |
| `DefinitionStore.Service.Apply` | src/openforms/server/models/definitions.py:463-506 | rejects exactly the invalid input, with its problems; a dry run or a refused one leaves the tables as they were, any other leaves those of the three phases; the report is the phases' items, dry or not; every pin stays right and every cached lookup stays current |
| `DefinitionStore.Service.GetFormVersion` | src/openforms/server/models/definitions.py:182-189 | a lookup by id gives what a fresh one would, cached or not |
| `DefinitionStore.Service.GetWorkflowVersion` | src/openforms/server/models/definitions.py:192-198 | a lookup by id gives what a fresh one would, cached or not |
| `DefinitionStore.Service.ExportAll` | src/openforms/server/models/definitions.py:279-284 | the current definitions in slug order |
| `DefinitionStore.DryRunForetells` | src/openforms/server/models/definitions.py:502-506 | a dry run leaves every table as it was and reports what the real run after it reports; that one leaves the tables of the three phases |
| `Store.DryRunsLeaveTheStore` | src/openforms/server/models/definitions.py:502-503 | any number of dry runs leaves every table as it was |
| `Store.OnlyRealCallsCount` | src/openforms/server/models/definitions.py:502-505 | any run leaves what it leaves without its dry calls |
| `Store.RealCallIs` | src/openforms/server/models/definitions.py:473-506 | a real call leaves the tables of the three phases if its input is accepted, and otherwise the old ones |
| `Store.DependentsAre` | src/openforms/server/models/definitions.py:453-460 | the dependents of a workflow are exactly the current forms that name it, read back from their documents |
| `Store.WorkflowsPhase` | src/openforms/server/models/definitions.py:478-483 | after the workflow loop every workflow of the bundle is current with its document, and only the noted slugs have moved |
| `Store.FormsPhase` | src/openforms/server/models/definitions.py:484-488 | after the form loop every form of the bundle is current with its document and pinned to its workflow's current version |
| `Store.RepinPhase` | src/openforms/server/models/definitions.py:489-498 | after the third loop no form is left on an old version of a workflow that got a new one, and forms of the bundle are untouched |
| `Store.ApplyKeepsStore` | src/openforms/server/models/definitions.py:463-506 | a call keeps every form pinned to the current version of the workflow it names, changes no earlier row, and makes the bundle current |
| `Store.EveryRun` | src/openforms/server/models/definitions.py:350-506 | from any sound store and for any sequence of calls: every form pins exactly the current version of its workflow (none if it names none), versions are numbered and differ, and no row has ever changed |
| `Store.EveryRunFromNothing` | src/openforms/server/models/definitions.py:350-506 | so does every sequence of calls on an empty store |
| `Store.ApplyTwice` | src/openforms/server/models/definitions.py:463-506 | the same bundle again is accepted, creates nothing and is reported unchanged, item by item |
| `Store.ApplyExport` | src/openforms/server/models/definitions.py:279-284 | what export returns is accepted, creates nothing and is reported unchanged |
| `Reports.ApplyIs` | src/openforms/server/models/definitions.py:463-506 | an accepted call, said without its phases: one line for each workflow and form of the bundle with its document, pin, version, and whether it is new or has changed; one line, once, for each form outside that names a workflow with a new version, its document kept and its pin moved; all else stays, and every new row is current and carries the source ("api" without one) and the actor |
| `Reports.DependentsAscend` | src/openforms/server/models/definitions.py:453-460 | the dependents of a workflow come sorted by slug, each one once |
| `DefinitionJson.FormReads` | src/openforms/definition/types.py:185-215 | reading a written form gives the form, but for empty alternative lists of conditions |
| `DefinitionJson.FormReadsBack` | src/openforms/definition/types.py:185-215 | a form survives the round trip if and only if no condition has an empty alternative list; every valid form does |
| `DefinitionJson.FormDocIsStable` | src/openforms/definition/types.py:194-212 | writing, reading and writing a form again gives the same document, for every form |
| `DefinitionJson.WorkflowReadsBack` | src/openforms/definition/types.py:339-358 | every workflow survives the round trip |
| `DefinitionJson.BuildReads` | src/openforms/definition/types.py:35-39 | a member of the written object reads as its value, or as null if the omit-empty rule left it out |
| `DocumentMembers.FieldDocument` | src/openforms/definition/types.py:150-160 | which members are written of a field: key, type and label always; help, placeholder, required, options, limits and condition only if there are any |
| `DocumentMembers.ConditionDocument` | src/openforms/definition/types.py:111-119 | which members are written of a condition: the field always, each operand only if it is set |
| `DocumentMembers.ValidationDocument` | src/openforms/definition/types.py:83-94 | which members are written of limits: each only if it is set, the pattern only if it is not empty |
| `DocumentMembers.ChoiceDocument` | src/openforms/definition/types.py:61-62 | which members are written of an option: value and label |
| `DocumentMembers.SettingsDocument` | src/openforms/definition/types.py:177-181 | which members are written of settings: the public flag always, the texts only if they are not empty |
| `DocumentMembers.FormDocument` | src/openforms/definition/types.py:206-212 | which members are written of a form: slug, title, settings and fields always; description and workflow only if they are not empty |
| `DocumentMembers.StateDocument` | src/openforms/definition/types.py:231-235 | which members are written of a state: key and label always; its color if it has one, and whether it is terminal only if it is |
| `DocumentMembers.ColumnDocument` | src/openforms/definition/types.py:254-257 | which members are written of a workflow field: key, type and label always; options only if there are any |
| `DocumentMembers.GuardDocument` | src/openforms/definition/types.py:269-273 | which members are written of a guard: roles and required fields only if there are any |
| `DocumentMembers.ActionDocument` | src/openforms/definition/types.py:290-294 | which members are written of an action: its type always, any other part only if it is not empty |
| `DocumentMembers.TransitionDocument` | src/openforms/definition/types.py:318-322 | which members are written of a transition: key, label, sources, target and guard always; actions only if there are any |
| `DocumentMembers.WorkflowDocument` | src/openforms/definition/types.py:352-358 | which members are written of a workflow: slug, title, initial state, states and transitions always; fields and onSubmit only if there are any |
| `Ordering.SortKeys` | src/openforms/cli/yamlout.py:31-33 | selecting the least key again and again gives the keys in the order of the list, then alphabetically |
| `Ordering.SortedAscends` | src/openforms/cli/yamlout.py:31-33 | the sorted keys strictly ascend: listed keys in list order first, then the others |
| `Validators.ValidateForm` | src/openforms/definition/validate_form.py:14-50 | the loop with its table of seen keys returns exactly the problems that each field has given the ones before it, in order; there are none exactly for valid forms: unique well-formed keys, known types, fitting options and limits, conditions on strictly earlier fields |
| `Validators.ValidateWorkflow` | src/openforms/definition/validate_workflow.py:13-91 | the loops return exactly the problems that each part has given the parts before it, in order; there are none exactly for valid workflows: unique keys, declared initial, targets and required fields, sources that are declared and not terminal |
| `Validators.ValidateOptions` | src/openforms/definition/common.py:75-96 | exactly the problems that each option has given the ones before it; none exactly when options are allowed, present, distinct, trimmed and labelled, or absent where not allowed |
| `ProblemPaths.OptionsReported` | src/openforms/definition/common.py:75-96 | exactly which problems of a list of options are reported: not allowed, missing, blank, untrimmed or repeated values, blank labels, each at its path with its message |
| `ProblemPaths.FormReported` | src/openforms/definition/validate_form.py:14-50 | exactly which problems of a form are reported, each with its path and message |
| `ProblemPaths.WorkflowReported` | src/openforms/definition/validate_workflow.py:13-91 | exactly which problems of a workflow are reported, each with its path and message |
| `BundlePaths.BundleReported` | src/openforms/definition/bundle.py:21-42 | exactly which problems of a bundle are reported: those of each document under its place in the bundle, repeated slugs, and unknown workflows |
| `BundlePaths.InputReported` | src/openforms/server/models/definitions.py:324-342 | exactly which problems of an input are reported: those of its documents under their places, with repeated slugs; and those of the bundle only if there are no others |
| `FieldPatches.ValidateWorkflowFields` | src/openforms/definition/workflow_fields.py:12-33 | the loop returns exactly the accepted entries with their normal values and exactly the problems |
| `FieldPatches.MergeFields` | src/openforms/server/workflow/engine.py:75-110 | the loops return the map in which each accepted entry is set or, if null or blank, unset, except where the old value counts as equal, and the record of exactly the entries that differ; any problem rejects the whole patch |
| `FieldPatches.AskedIsSet` | src/openforms/server/workflow/engine.py:99-109 | an accepted entry ends up as asked, unless it differs from the old value only in digits that doubles do not hold; then, and only then, the old value stays |
| `FieldPatches.EntryMeans` | src/openforms/definition/workflow_fields.py:12-33 | an entry is refused exactly if its field is not declared or its value is refused for the type of the field; a missing value unsets, any other sets its normal form |
| `FieldPatches.MergeMeans` | src/openforms/server/workflow/engine.py:84-110 | the map afterwards, entry by entry: unnamed entries stay, unset ones are gone, set ones have the new value, or the old one if the two are equal as doubles |
| `FieldPatches.ChangeReplays` | src/openforms/server/workflow/engine.py:99-110 | replaying the recorded change on the old map gives the new map |
| `FieldPatches.ChangedIffDifferent` | src/openforms/server/workflow/engine.py:99-110 | nothing is recorded exactly when nothing changed, and an entry is recorded exactly when its value differs |
| `FieldPatches.MergedStaysClean` | src/openforms/definition/workflow_fields.py:12-33 | every stored value belongs to a declared field and validates to itself |
| `FieldPatches.PatchIsIdempotent` | src/openforms/server/workflow/engine.py:75-110 | applying a patch twice is applying it once, and the second time records nothing |
| `Engine.Engine.Create` | src/openforms/server/models/submissions.py:189-260 | one step writes row, created event with its actor, and onSubmit jobs carrying that event's id, or nothing at all |
| `Engine.Engine.AddVersion` | src/openforms/server/models/definitions.py:350-389 | a stored workflow version is the next one that submissions can be pinned to |
| `Engine.Engine.Transition` | src/openforms/server/workflow/engine.py:164-214 | one step checks in the source's order and writes state, fields, event (actor, change and trimmed comment) and jobs together, or nothing |
| `Engine.Engine.UpdateFields` | src/openforms/server/workflow/engine.py:216-242 | writes fields and one event, or nothing if the map does not change or the patch is refused |
| `Engine.Engine.Comment` | src/openforms/server/workflow/engine.py:244-264 | appends one event with the trimmed text for a comment that is neither blank nor too long |
| `Engine.Engine.Assign` | src/openforms/server/workflow/engine.py:266-297 | sets the assignee and appends one event that names user and actor, or does nothing if it is the same; an unknown user is refused |
| `Engine.Engine.Available` | src/openforms/server/workflow/engine.py:125-142 | the transitions that leave the current state, in order, each with its caption, target, required fields and whether the roles allow it |
| `Engine.Engine.EnqueueActions` | src/openforms/server/actions/payload.py:50-59 | one job per action in order with the trigger and the event id; an unknown action type aborts |
| `EngineEffects.CreatedExactlyWhen` | src/openforms/server/models/submissions.py:203-206 | a submission is created exactly if the form may be used, no answer has a problem and every onSubmit action has a handler; otherwise nothing is written |
| `EngineEffects.CreatedHoldsTheAnswers` | src/openforms/server/models/submissions.py:212-245 | a created submission holds the pin, the initial state, no fields, no assignee and the one solution of the form for the answers: no unknown key, nothing of a hidden field, and data that validates to itself |
| `EngineEffects.CreateTells` | src/openforms/server/models/submissions.py:246-259 | the one event of a creation and its jobs, column by column |
| `EngineEffects.AnswersAreKept` | src/openforms/server/workflow/engine.py:164-297 | no later call of any run changes the answers or the pin of a submission, or loses a submission, version, event or job |
| `EngineEffects.RefusalReasons` | src/openforms/server/workflow/engine.py:168-187 | which refusal a transition meets: the first that applies of unknown, elsewhere, out of place, forbidden, bad fields (exactly the refused entries) and missing fields (exactly the required ones that are null, blank, unchecked or empty) |
| `EngineEffects.TransitionWrites` | src/openforms/server/workflow/engine.py:186-214 | every column that an accepted transition writes, its event and its jobs; a refused one writes nothing, and no other submission changes |
| `EngineEffects.WorkflowForIs` | src/openforms/server/workflow/engine.py:120-123 | no workflow exactly for a missing submission or one without a pin |
| `EngineEffects.UpdateWrites` | src/openforms/server/workflow/engine.py:216-242 | when an edit is accepted, and every column that it and its event write |
| `EngineEffects.CommentWrites` | src/openforms/server/workflow/engine.py:244-264 | when a comment is accepted, and its event |
| `EngineEffects.AssignWrites` | src/openforms/server/workflow/engine.py:266-297 | when an assignment is accepted, and what it and its event write |
| `EngineEffects.RecordWrites` | src/openforms/server/actions/assign.py:37-50 | what a handler records: one event by the system, and the assignee of an assignment |
| `EngineEffects.ActorNames` | src/openforms/server/models/submissions.py:69-72 | whom an event names |
| `EngineEffects.OffersName` | src/openforms/server/workflow/engine.py:125-142 | the offers are those of the transitions that leave the state, in order, each with its caption, target, caption of the target, required fields and permission |
| `EngineRuns.AcceptedExactlyWhen` | src/openforms/server/workflow/engine.py:62-72 | in a valid workflow a call is accepted if and only if a transition of that key leaves the state, the expected state and a role match, every patch entry is acceptable and every required field is afterwards given: not null, blank, unchecked or an empty list; and then it takes that transition |
| `EngineRuns.StepKeepsInv` | src/openforms/server/workflow/engine.py:144-242 | every step keeps: the log replays to state and fields of every row, follows the workflow, stored values validate to themselves, and the jobs are those the log calls for |
| `EngineRuns.EveryRunFromTheStart` | src/openforms/server/workflow/engine.py:144-242 | so does every run of creations, transitions, edits, comments, assignments and action records over valid workflows |
| `EngineRuns.UpdateWritesIffChanged` | src/openforms/server/workflow/engine.py:216-242 | an accepted edit appends one event exactly when the map changes, and never changes state or jobs |
| `EngineRuns.TerminalIsFinal` | src/openforms/definition/validate_workflow.py:58-91 | no run ever leaves a terminal state |
| `EngineRuns.CreatedIsFound` | src/openforms/server/workflow/engine.py:144-162 | the creating transaction's lookup finds the event it has just written |
| `EngineRuns.EveryJobHasItsEvent` | src/openforms/server/actions/payload.py:24-36 | every job carries the id of a committed created or transition event of its submission and is one of the actions that event calls for |
| `EngineRuns.LoadFindsTheSource` | src/openforms/server/actions/runner.py:57-79 | however much later a transition's job is loaded, the event id gives the state that the transition left, if and only if the transition is not called "submit" |
| `EngineRuns.SubmitMayNameATransition` | src/openforms/server/actions/runner.py:68-77 | a valid workflow with a transition called "submit", whose job is loaded without transition and source state |
| `EngineRuns.OfferedIffPermitted` | src/openforms/server/workflow/engine.py:125-142 | a transition is offered as allowed exactly when it would not be refused as unknown, out of place or forbidden |
| `Delivery.RegisterActions` | src/openforms/server/actions/runner.py:133-141 | every kind of action job gets its handler, and the failure hook is set |
| `Delivery.CallsFireTheirActions` | src/openforms/server/actions/payload.py:50-59 | a failed call changes nothing; a successful one adds, in the same step, one pending row per action it fires, in order, with the event's id and the trigger, and touches no other row |
| `Delivery.StepKeepsInv` | src/openforms/server/actions/payload.py:50-59 | every step of engine or worker keeps: the rows of the queue are, in order, the jobs that the engine has committed, with their kind and payload |
| `Delivery.QueueRuns` | README.md:90 | every run of engine and workers together is, for the queue, one of its own runs |
| `Delivery.AtLeastOnce` | README.md:90 | in every run from the start each committed action keeps its row, of a kind with a handler; the row is done only after a reported success, failed only after a reported error, and otherwise still to be done |
| `Delivery.ActionsAreReached` | README.md:90 | a committed action whose time has passed is claimed within (pending jobs before it) + 1 claims, however many more actions are committed meanwhile, in every run without lease expiry |
| `Delivery.AbandonedActionsAreTaken` | README.md:90 | a committed action whose worker has crashed is taken again within (jobs in front of it) + 1 claims, in every run in which no further lease runs out |
| `Delivery.NoActionIsForgotten` | README.md:90 | a committed action that has not ended is pending, held within its lease or abandoned; and once its time has come, or it is abandoned, some claim is possible |
| `FailureEvents.HookWrites` | src/openforms/server/actions/runner.py:95-118 | the hook of a failed job whose payload can be read appends one event with the submission, the trigger, the action, the error and the job |
| `FailureEvents.LossWrites` | src/openforms/server/actions/runner.py:95-118 | a notice whose payload cannot be read, or whose worker dies first, is owed no more and is lost; nothing else changes |
| `FailureEvents.StepKeepsInv` | src/openforms/server/services/jobs.py:167-200 | every step of engine, worker or hook keeps: each failure of a job is told by an event, still owed, or lost; and every such event names what its job does |
| `FailureEvents.FailuresAreRecorded` | src/openforms/server/actions/runner.py:95-118 | in every run a job has as many failure events as failures if and only if no notice of it is owed or lost, and never more; each names the submission, trigger and action of its job; without a retry that is one event if it is failed and none otherwise |
| `Submissions.EvaluateField` | src/openforms/definition/submission.py:33-55 | one round of the loop updates the four tables as the step of the pass does |
| `Submissions.Evaluate` | src/openforms/definition/submission.py:27-55 | the loop over the fields is the recursive pass |
| `Submissions.ValidateSubmission` | src/openforms/definition/submission.py:19-24 | the cleaned data if the pass finds no problem, otherwise the problems |
| `Submissions.PassSolves` | src/openforms/definition/submission.py:27-78 | the pass solves the recursive equations: visible iff unconditional, or controller visible and condition true of its cleaned value; a value iff visible and its answer, as sent, is accepted; and reports exactly the complaints of visible fields |
| `Submissions.SolutionIsUnique` | src/openforms/definition/submission.py:27-78 | on ordered forms there is no other solution |
| `Submissions.HiddenAnswersDoNotMatter` | src/openforms/definition/submission.py:27-55 | answers to hidden fields affect no output |
| `Submissions.CleanedDataIsAFixedPoint` | src/openforms/definition/submission.py:27-55 | evaluating the cleaned data again gives the same visibility and cleaned data, whether or not there were problems |
| `Submissions.AnswerIsRead` | src/openforms/definition/submission.py:43-54 | for each field, in terms of what was sent: when it has a cleaned value and which, when it is reported as required, and when and why otherwise |
| `Submissions.AcceptedAgain` | src/openforms/definition/submission.py:19-24 | accepted answers as they are stored are accepted again, as they are; they hold no unknown key and none of a hidden field |
| `Submissions.ConditionMeans` | src/openforms/definition/submission.py:62-78 | equals, notEquals and in ask to meet the operand, not to meet it, or to meet one of several, where a list of choices meets an operand if one of them is equal to it as a double |
| `Values.ScanChoices` | src/openforms/definition/values.py:44-58 | the loop with its set of seen choices gives the verdict on the first offending choice |
| `Values.ChoicesAccepted` | src/openforms/definition/values.py:44-58 | a choice list is accepted, unchanged, exactly when it holds distinct known options |
| `Values.AcceptedIsStable` | src/openforms/definition/values.py:16-82 | checking an accepted value again accepts it unchanged |
| `Values.TextAnswers` | src/openforms/definition/values.py:21-30 | which answers of the text types and the select count as missing, which are accepted, and as what |
| `Values.NumbersAndBoxes` | src/openforms/definition/values.py:31-43 | which numbers and boxes count as missing or are accepted, and as what |
| `Values.ListAnswers` | src/openforms/definition/values.py:44-58 | which lists of choices count as missing or are accepted, and as what |
| `JsonValues.JsonEqualIsEquality` | src/openforms/definition/values.py:108-123 | on values whose numbers doubles hold, comparing normal forms is structural equality; a value with another number is also taken for its rounded one, which differs |
| `JsonValues.JsonEqualIsRoundedEquality` | src/openforms/definition/values.py:108-123 | two values count as equal exactly if they are equal once every number in them is rounded to a double |
| `JsonValues.NeighboursAreTakenForEqual` | src/openforms/definition/values.py:108-123 | 2^53 and 2^53 + 1 count as equal |
| `JsonValues.SdkEqualIsEquality` | web/packages/sdk/src/logic.ts:49-60 | counting keys and checking one side's keys is structural equality too |
| `Text.TrimKeepsTheMiddle` | src/openforms/definition/common.py:29-30 | trimming strips only whitespace and leaves one contiguous piece |
| `SdkLogic.SdkEvaluate` | web/packages/sdk/src/logic.ts:90-121 | the SDK's loop is its recursive pass |
| `SdkLogic.ChecksAgree` | web/packages/sdk/src/logic.ts:163-208 | given the same numbers both value checks accept the same values with the same result; their messages differ exactly on multiselect lists that repeat an option before an unknown one |
| `SdkLogic.MessagesCanDiffer` | web/packages/sdk/src/logic.ts:177-183 | a concrete list on which the messages differ |
| `SdkLogic.UnknownTypesDisagree` | web/packages/sdk/src/logic.ts:163-208 | for a field type outside the language the server refuses what the browser accepts |
| `SdkLogic.SdkAnswerIsRead` | web/packages/sdk/src/logic.ts:105-121 | for each field, in terms of what was sent, what the SDK says of it: its value, and exactly its problems |
| `SdkLogic.ConditionsAgree` | web/packages/sdk/src/logic.ts:62-82 | both condition tests agree on all values and operands, although the SDK sees rounded numbers and its "in" on multiselects exchanges the quantifiers |
| `SdkLogic.EvaluatorsAgree` | web/packages/sdk/src/logic.ts:90-121 | for all data and every form with distinct keys and known types, the SDK, which reads every number as its nearest double, shows the same fields, cleans to the same data as it reads them and has problems at the same paths, if and only if at every visible field rounding carries no answer across a limit |
| `SdkLogic.ExactLimitsAgree` | src/openforms/definition/values.py:16-41 | numbers that doubles hold cross no limit |
| `SdkLogic.InexactNumbersCanPass` | web/packages/sdk/src/logic.ts:163-208 | with a limit of 2^53 the server refuses 2^53 + 1, which the SDK has read as 2^53 and accepts |
| `SdkLogic.InexactLimitsCanPass` | web/packages/sdk/src/logic.ts:163-208 | with a limit of 2^53 + 3 the server refuses 2^53 + 4, a double, and the SDK, which has read the limit as 2^53 + 4, accepts it |
| `FormReducer.RenameIsSwap` | web/apps/admin/src/editors/form/formReducer.ts:128-138 | in an ordered form renaming to a fresh key exchanges the two names everywhere |
| `FormReducer.RenameCommutesWithEvaluation` | web/apps/admin/src/editors/form/formReducer.ts:128-138 | visibility, cleaned data and problems of the renamed form on renamed data are the renamed results, for all data |
| `FormReducer.RenameBack` | web/apps/admin/src/editors/form/formReducer.ts:128-138 | renaming back restores the form |
| `FormReducer.RenameValid` | web/apps/admin/src/editors/form/formReducer.ts:128-138 | the renamed form is valid exactly when the key is well formed and new |
| `FormReducer.RemoveKeepsFieldsOk` | web/apps/admin/src/editors/form/formReducer.ts:139-152 | removing a field keeps a form's fields valid |
| `FormReducer.DuplicateValid` | web/apps/admin/src/editors/form/formReducer.ts:153-163 | duplicating keeps it valid exactly when the copy's name, with its number if it needs one, has at most 64 characters; without a number, when the field's key has at most 59 |
| `FormReducer.LongKeyCannotBeCopied` | web/apps/admin/src/editors/form/formReducer.ts:153-163 | a valid form with a key of 60 characters, whose copy is invalid |
| `FormReducer.MoveValid` | web/apps/admin/src/editors/form/formReducer.ts:164-171 | exchanging two neighbours keeps it valid exactly when the lower is not controlled by the upper |
| `FormReducer.RetypeValid` | web/apps/admin/src/editors/form/formReducer.ts:115-127 | giving a field another type keeps the fields valid exactly if the type is a known one: options come and go, limits that do not apply are dropped |
| `FormReducer.ReduceKeepsSound` | web/apps/admin/src/editors/form/formReducer.ts:93-181 | an offered edit leaves no dangling condition and no selection out of range, if and only if it is not the rename of a field that controls itself |
| `FormReducer.SessionsStaySound` | web/apps/admin/src/editors/form/formReducer.ts:93-181 | so does every step of every session without that rename |
| `FormReducer.OfferedEditsCanDangle` | web/apps/admin/src/editors/form/formReducer.ts:128-152 | from a valid form, three offered edits that end in a dangling condition |
| `FormEdits.MetaIsSet` | web/apps/admin/src/editors/form/formReducer.ts:96-102 | what the patch gives is set, what it leaves out and all else stays |
| `FormEdits.SettingsAreSet` | web/apps/admin/src/editors/form/formReducer.ts:103-104 | the same for the settings |
| `FormEdits.FieldIsAdded` | web/apps/admin/src/editors/form/formReducer.ts:105-108 | the new field comes last and is selected, with the lowest free key and, if its type takes some, two options |
| `FormEdits.FieldIsUpdated` | web/apps/admin/src/editors/form/formReducer.ts:109-114 | attribute by attribute: what the patch gives is set, what it leaves out stays; so do key, type and all other fields |
| `FormEdits.FieldIsRetyped` | web/apps/admin/src/editors/form/formReducer.ts:115-127 | attribute by attribute: the type is set, options and limits are fitted to it, all else stays |
| `FormEdits.FieldIsRenamed` | web/apps/admin/src/editors/form/formReducer.ts:128-138 | the key is set, conditions follow exactly if no other field has the old key, all else stays |
| `FormEdits.FieldIsRemoved` | web/apps/admin/src/editors/form/formReducer.ts:139-152 | the field goes, the others close up, conditions on it go exactly if no other field has its key; and where the selection goes |
| `FormEdits.FieldIsDuplicated` | web/apps/admin/src/editors/form/formReducer.ts:153-163 | the copy comes right after the field and is selected; only its key, which is new, and its caption differ |
| `FormEdits.FieldIsMoved` | web/apps/admin/src/editors/form/formReducer.ts:164-171 | the field and its neighbour in the direction of the move change places, and the selection goes along |
| `FormEdits.RestIsKept` | web/apps/admin/src/editors/form/formReducer.ts:172-180 | what selecting, loading and saving change, and what they keep |
| `WorkflowReducer.OrderFollowsStates` | web/apps/admin/src/editors/workflow/workflowReducer.ts:115-119 | declared keys stand in the order of the states, before all undeclared ones |
| `WorkflowReducer.NormalizeGuard` | web/apps/admin/src/editors/workflow/workflowReducer.ts:121-128 | the same required fields without repetition; the roles are exactly the trimmed ones of those that are not blank, without repetition |
| `WorkflowReducer.GuardKeepsOrder` | web/apps/admin/src/editors/workflow/workflowReducer.ts:121-128 | both lists keep the order of first occurrences |
| `WorkflowReducer.ReduceKeepsSound` | web/apps/admin/src/editors/workflow/workflowReducer.ts:160-291 | each of the twenty edits, as offered, keeps initial declared, all sources, targets and required fields declared, and the selection in range |
| `WorkflowReducer.SessionsStaySound` | web/apps/admin/src/editors/workflow/workflowReducer.ts:160-291 | so does every step of every editing session |
| `WorkflowReducer.StartIsSound` | web/apps/admin/src/editors/workflow/workflowReducer.ts:96-98 | every valid workflow is loaded without dangling reference |
| `WorkflowReducer.SessionsOfValidWorkflows` | web/apps/admin/src/editors/workflow/workflowReducer.ts:96-291 | no session that starts with a valid workflow ever has one |
| `WorkflowReducer.RemoveStateLosesNoMore` | web/apps/admin/src/editors/workflow/workflowReducer.ts:201-216 | removing a state keeps every other state, and every transition that neither leads to it nor loses its last source |
| `WorkflowReducer.AddThenRemoveState` | web/apps/admin/src/editors/workflow/workflowReducer.ts:166-216 | removing the state just added restores the definition if and only if every transition has a source and, where there was no state, no initial one was named |
| `WorkflowReducer.SourcelessTransitionIsLost` | web/apps/admin/src/editors/workflow/workflowReducer.ts:201-216 | a definition whose one transition has no source is not restored |
| `WorkflowReducer.AddThenRemove` | web/apps/admin/src/editors/workflow/workflowReducer.ts:218-271 | removing the field or the transition just added restores the definition |
| `WorkflowEdits.MetaIsSet` | web/apps/admin/src/editors/workflow/workflowReducer.ts:164-165 | what the patch gives is set, all else stays |
| `WorkflowEdits.InitialIsSet` | web/apps/admin/src/editors/workflow/workflowReducer.ts:166-167 | the initial state is set, all else stays |
| `WorkflowEdits.StateIsAdded` | web/apps/admin/src/editors/workflow/workflowReducer.ts:169-174 | the new state comes last and is selected, with the lowest free key; it is initial if none was declared |
| `WorkflowEdits.StateIsUpdated` | web/apps/admin/src/editors/workflow/workflowReducer.ts:175-185 | attribute by attribute: what the patch gives is set, all else stays |
| `WorkflowEdits.StateIsRenamed` | web/apps/admin/src/editors/workflow/workflowReducer.ts:186-200 | the key is set; initial state, sources and targets follow exactly if no other state has the old one |
| `WorkflowEdits.StateIsRemoved` | web/apps/admin/src/editors/workflow/workflowReducer.ts:201-216 | the state goes, the others close up, and the first one takes its place as the initial one exactly if no other has its key |
| `WorkflowEdits.TransitionIsAdded` | web/apps/admin/src/editors/workflow/workflowReducer.ts:217-224 | the new transition comes last and is selected, with the lowest free key, from the initial state, or the first, to the first other one |
| `WorkflowEdits.TransitionIsUpdated` | web/apps/admin/src/editors/workflow/workflowReducer.ts:225-234 | attribute by attribute; new sources without repetition in the order of the states; all else stays |
| `WorkflowEdits.GuardIsSet` | web/apps/admin/src/editors/workflow/workflowReducer.ts:235-239 | the guard requires exactly the given fields and the trimmed non-blank roles, each once; all else stays |
| `WorkflowEdits.TransitionIsRemoved` | web/apps/admin/src/editors/workflow/workflowReducer.ts:240-243 | the transition goes, the others close up, all else stays |
| `WorkflowEdits.FieldIsAdded` | web/apps/admin/src/editors/workflow/workflowReducer.ts:245-249 | the new field comes last and is selected, with the lowest free key |
| `WorkflowEdits.FieldIsUpdated` | web/apps/admin/src/editors/workflow/workflowReducer.ts:250-263 | attribute by attribute; options exactly for a select, and then at least the starting ones; all else stays |
| `WorkflowEdits.FieldIsRenamed` | web/apps/admin/src/editors/workflow/workflowReducer.ts:264-277 | the key is set; required fields follow exactly if no other field has the old one |
| `WorkflowEdits.FieldIsRemoved` | web/apps/admin/src/editors/workflow/workflowReducer.ts:278-291 | the field goes, the others close up; it is required no more exactly if no other field has its key |
| `WorkflowEdits.ActionIsAdded` | web/apps/admin/src/editors/workflow/workflowReducer.ts:293-294 | the new action comes last at its target; nothing else changes |
| `WorkflowEdits.ActionIsUpdated` | web/apps/admin/src/editors/workflow/workflowReducer.ts:295-304 | another type gives a new action; otherwise attribute by attribute; nothing else changes |
| `WorkflowEdits.ActionIsRemoved` | web/apps/admin/src/editors/workflow/workflowReducer.ts:305-309 | the action goes, the others close up, nothing else changes |
| `WorkflowEdits.RestIsKept` | web/apps/admin/src/editors/workflow/workflowReducer.ts:311-319 | what selecting, loading and saving change, and what they keep |
| `Objects.SearchNumbered` | web/apps/admin/src/editors/shared/objects.ts:15-21 | the unbounded search ends, by pigeonhole, with the least free number |
| `Objects.MoveItem` | web/apps/admin/src/editors/shared/objects.ts:32-37 | the item lands where it should and the others keep their order |
| `StateRenaming.RenameIsSwap` | web/apps/admin/src/editors/workflow/workflowReducer.ts:186-200 | in a valid workflow renaming a state to a fresh key exchanges the two keys everywhere |
| `StateRenaming.RenameStaysValid` | web/apps/admin/src/editors/workflow/workflowReducer.ts:186-200 | the renamed workflow is valid exactly when the key is well formed |
| `StateRenaming.RenameBack` | web/apps/admin/src/editors/workflow/workflowReducer.ts:186-200 | renaming back restores the definition |
| `StateRenaming.DecideCommutes` | src/openforms/server/workflow/engine.py:164-188 | the renamed workflow decides alike: same refusal, fields and actions, renamed target |
| `StateRenaming.StepCommutes` | src/openforms/server/workflow/engine.py:144-242 | every engine step commutes with the renaming of the tables, with the same outcome and the same jobs |
| `StateRenaming.RenameIsBisimulation` | src/openforms/server/workflow/engine.py:144-242 | so does every run |
| `StateRenaming.EditorRenameIsBisimulation` | web/apps/admin/src/editors/workflow/workflowReducer.ts:186-200 | every run over a stored valid workflow is, call by call, a run over the workflow that the editor's rename gives |
| `FieldRenaming.EditedExchanges` | web/apps/admin/src/editors/workflow/workflowReducer.ts:264-276 | in a valid workflow renaming a field to a fresh key exchanges the two keys in fields and required fields |
| `FieldRenaming.DecidesAlike` | src/openforms/server/workflow/engine.py:164-188 | if the roles let the same callers through, the renamed workflow decides alike on renamed fields and patches |
| `FieldRenaming.RenameKeepsDecisions` | web/apps/admin/src/editors/workflow/workflowReducer.ts:155-158 | every decision, for all states, fields, callers and patches, is the same with the two names exchanged if and only if every transition that requires the field names its roles without outer whitespace |
| `YamlScalars.AnalyzeScalar` | src/openforms/cli/yamlout.py:199-252 | the scan with its flags finds exactly: a line break, a meaningful character, a special one, a tab, space next to a break, space at an end |
| `YamlScalars.ChooseStyle` | src/openforms/cli/yamlout.py:255-267 | the style chosen from the analysis, the request and the place |
| `YamlStyles.PlainExactlyWhen` | src/openforms/cli/yamlout.py:199-267 | a string for which plain is asked is written plain exactly if it holds only ordinary characters, no space at an end and no indicator where it would mean something; the empty string exactly if it is no key |
| `YamlStyles.DoubleExactlyWhen` | src/openforms/cli/yamlout.py:199-267 | it is put into double quotes exactly if it holds a tab or a character that needs an escape, or a space next to a line break, or if it is a key of several lines |
| `YamlStyles.CharactersAreQuoted` | src/openforms/cli/yamlout.py:270-289 | in double quotes an ordinary character but for the quote and the backslash stands for itself; any other, or all behind a byte order mark, is a backslash with its letter or with "x", "u" or "U" and 2, 4 or 8 hexadecimal digits that read as the character |
| `YamlStyles.OrdinaryTextIsKept` | src/openforms/cli/yamlout.py:276-289 | ordinary text without quotes and backslashes is kept between the quotes |
| `YamlScalars.DoubleQuotedBody` | src/openforms/cli/yamlout.py:276-289 | the loop writes the escaped text |
| `YamlScalars.DoubleQuotedRoundTrip` | src/openforms/cli/yamlout.py:276-289 | every string in double quotes reads back under section 5.7 of YAML 1.2.2, and stays on one line |
| `YamlScalars.SingleQuotedRoundTrip` | src/openforms/cli/yamlout.py:454-468 | every single-line string in single quotes reads back |
| `YamlEmitter.Emitter.WriteIndent` | src/openforms/cli/yamlout.py:342-348 | moves to the indentation, on a new line unless this one holds only indentation up to there |
| `YamlEmitter.Emitter.Node` | src/openforms/cli/yamlout.py:370-395 | writes exactly the layout of the node at its place, with the indent stack as before; fails exactly if a key is too long |
| `YamlEmitter.Emitter.Scalar` | src/openforms/cli/yamlout.py:397-444 | writes the scalar in its style after one space if there is none, with the indent stack as before |
| `YamlEmitter.CanonicalYaml` | src/openforms/cli/yamlout.py:36-41 | the document is exactly the recursive layout; there is none exactly if a key is too long |
| `YamlEmitter.LevelsAddTwo` | src/openforms/cli/yamlout.py:357-364 | the three ways of computing the next indentation all add two |
| `YamlReader.LeafReads` | src/openforms/cli/yamlout.py:397-444 | a scalar, plain or quoted, stands on its line such that a reader takes it for neither key nor item; quoted it reads as its text, plain as what it resolves to |
| `YamlReader.KeyReads` | src/openforms/cli/yamlout.py:397-444 | the same for a key and the colon after it |
| `YamlReader.DocumentReads` | src/openforms/cli/yamlout.py:36-41 | a reader of block style (section 8.2 of YAML 1.2.2) gets from the document of a tree exactly what it sees of the leaves and keys, whatever plain scalars resolve to: the layout loses nothing |
| `YamlRoundTrips.ReadsBack` | src/openforms/cli/yamlout.py:36-41 | the reader gets the tree itself if and only if the string "<<" does not occur in it and every string, key and number that is written plain resolves to itself |
| `YamlDefinitions.FormSurvives` | tests/cli/test_yamlout.py:137-139 | parsing the canonical YAML of a form gives the form, if and only if "<<" does not occur in it, every plain scalar in it resolves to what was written, and no condition has an empty list; the last holds of every valid form |
| `YamlDefinitions.WorkflowSurvives` | tests/cli/test_yamlout.py:142-144 | parsing the canonical YAML of a workflow gives the workflow, if and only if "<<" does not occur in it and every plain scalar in it resolves to what was written |
| `YamlDefinitions.WritingIsIdempotent` | tests/cli/test_yamlout.py:147-149 | under these two conditions writing what was read from a written form gives the same text, for every form |
| `YamlDefinitions.EqualsSignIsLost` | src/openforms/definition/parse.py:29-45 | a valid form with a field labelled "=", which is written plain and which the loader cannot construct, does not survive |
| `YamlDefinitions.SmallLimitIsLost` | src/openforms/cli/yamlout.py:151-175 | a valid form with a limit of 0.00001, which is written 1e-05 and read as a string, does not survive |
| `QEncoding.QEncode` | src/openforms/server/actions/mailer.py:83-104 | the loop over words is the greedy split |
| `QEncoding.RoundTrip` | src/openforms/server/actions/mailer.py:83-104 | decoding the words (sections 4.2 and 6.2 of RFC 2047) returns the string |
| `QEncoding.CharactersAreSpelled` | src/openforms/server/actions/mailer.py:91-98 | a printable ASCII character other than "=", "?", "_" and the space stands for itself, the space is "_", and any other is "=" and two hexadecimal digits per byte |
| `QEncoding.PlainTextIsKept` | src/openforms/server/actions/mailer.py:79-86 | printable ASCII text with tabs is left as it is |
| `QEncoding.WordsAreShortAndWhole` | src/openforms/server/actions/mailer.py:83-104 | every word has at most 75 characters (section 2) and holds whole characters (section 5), in order |
| `QEncoding.FewestWords` | src/openforms/server/actions/mailer.py:83-104 | no other in-order split into whole characters uses fewer words |
| `Csv.RoundTrip` | src/openforms/server/models/submissions.py:481-488 | a reader after section 2 of RFC 4180 recovers exactly the records, whatever their fields hold |
| `Csv.LeftAsItIs` | src/openforms/server/models/submissions.py:481-484 | a field is left as it is exactly if it is not a backslash and a dot, holds no comma, quote or line end and begins with no whitespace; any other is put into quotes |
| `Cursor.CursorRoundTrip` | src/openforms/server/models/submissions.py:322-351 | decoding inverts encoding, through trimmed fraction digits and stripped padding (section 5 of RFC 4648), for exactly the times from the year 1000 on; an earlier year is written with fewer digits, and its cursor is invalid |
| `Cursor.PaddingIsRecovered` | src/openforms/server/models/submissions.py:330-337 | the stripped padding is recomputed from the length |
| `Listing.ListSubmissions` | src/openforms/server/models/submissions.py:354-391 | the first matching rows after the cursor, newest first, and the next cursor; an error exactly for a cursor that does not decode |
| `Listing.RestAfter` | src/openforms/server/models/submissions.py:354-391 | the rows after a page's last row are the rest of the sorted rows |
| `Listing.PagesCoverTheTable` | src/openforms/server/models/submissions.py:354-391 | following the cursors returns every matching row exactly once, in strictly descending order, in max(1, ceil(n/limit)) pages |
| `Listing.PageSizes` | src/openforms/server/models/submissions.py:356-357 | a page holds as many rows as are asked for and there are, but no more than 200, and 50 if no number is asked for |
| `Listing.PagesListTheMatches` | src/openforms/server/models/submissions.py:354-391 | all pages together list exactly the submissions of the form, state and assignee asked for, the last created first and by id where times are the same |
| `RateLimiter.Limiter.Sweep` | src/openforms/server/api/ratelimit.py:35-37 | removes exactly the expired windows |
| `RateLimiter.Limiter.Allow` | src/openforms/server/api/ratelimit.py:20-33 | counts the hit in its window, opens a new one, or refuses; sweeps only when the table is full |
| `RateLimiter.HitWrites` | src/openforms/server/api/ratelimit.py:20-37 | what a hit does to every key of the table, with and without a sweep, and when it is allowed |
| `RateLimiter.SweepingChangesNoAnswer` | src/openforms/server/api/ratelimit.py:20-37 | a limiter with sweeping answers as one that never sweeps |
| `RateLimiter.FewerThanTwiceTheLimit` | src/openforms/server/api/ratelimit.py:20-33 | in every run a key gets at most 2*limit - 1 allowed hits in any half-open interval as long as the window |
| `RateLimiter.TheBoundIsReached` | src/openforms/server/api/ratelimit.py:20-33 | for every limit some run reaches that bound |

## Left out

- Databases: each transaction is one atomic step; interleaved transactions, locks and serial numbers skipped by a rollback are not modelled. Event and version ids are positions in their table.
- Organisations: the store and the engine are modelled for one organisation; the queue keeps the organisation of a job.
- Job queue: a worker whose lease has run out never reports, because the source updates the row by id alone; job ids and times are whole numbers.
- Numbers: JSON numbers are reals and the rounding to doubles is a parameter. The server rounds in comparisons of values only, the SDK in everything it reads; lengths and canonical.py's integral floats use the number itself, and a fractional length reads as none. Integers beyond the range of doubles and NaN are outside.
- SHA-256: a document stands for its hash.
- Formats: the whitespace set, e-mail, URL, date and pattern checks are parameters shared by server and SDK; the comment's own strip uses the same set.
- Documents that the JSON schema refuses, such as lists of roles with non-strings or fractional lengths, are read leniently by the source in ways not modelled.
- Issues and patches: a list of problems sorted by distinct paths is a map.
- SdkLogic: JavaScript prototype keys and the SDK's own trim set.
- Engine.Engine.Assign: the assignee is not replayed from events, because deleting a user clears it without an event; the user lookup is a parameter.
- Engine.Engine.Create: the receipt token and the public status page.
- EngineRuns: the handlers' effects (webhook, mail, choice of assignee); only what they record is modelled.
- Delivery.AtLeastOnce: that a handler which reports success has reached its receiver; and the text of a payload, which is a parameter.
- FailureEvents.FailuresAreRecorded: payloads are read as written or not at all, and submissions are never deleted; a lost notice stands for a worker that dies before its hook has written, for a write that fails and for a payload that cannot be read.
- Validators: why a pattern does not compile is a parameter.
- YamlEmitter.Emitter.Scalar: strings with line breaks, which the source sends through PyYAML, hence literal blocks.
- YamlEmitter.Emitter.Node: trees with such strings.
- YamlEmitter.CanonicalYaml: trees with such strings; which strings YAML would not read as strings, and the spelling of numbers, are parameters.
- YamlReader.DocumentReads: trees whose strings hold line breaks; what a plain scalar resolves to, and which key a plain key is, are parameters without a link to the writer's test; flow collections, tags, comments and scalars over several lines are not read.
- YamlRoundTrips.ReadsBack: trees whose strings hold line breaks.
- YamlDefinitions.FormSurvives: the parser's JSON schema and semantic checks, which follow the reading; forms whose strings hold line breaks.
- YamlDefinitions.WorkflowSurvives: workflows whose strings hold line breaks.
- YamlDefinitions.WritingIsIdempotent: forms whose strings hold line breaks.
- Cursor: texts that no cursor was written as; strftime is modelled as it writes years on Linux.
- Listing.PagesCoverTheTable: rows from years before 1000.
- Listing.ListSubmissions: foreign cursor texts that the source reads leniently count as invalid; the join with forms and users, the filter and the sort are functions of the rows.
- Csv: the cells' own formatting and the guard against formulas.
- QEncoding: the assembly of the message around the encoded headers.
- HTTP routes, clients, authentication, settings, migrations, file handling, React components and the embed script: input and output or thin wrappers.
