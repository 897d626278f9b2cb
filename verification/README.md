# A verified model of five heym components

This project models, in Dafny, the parts of the heym backend whose correctness depends on state kept
over many calls, on interleavings, or on recursion over arbitrary data, and proves what those parts are
for. `dafny verify dfyconfig.toml` checks everything.

**Analytics.** `Analytics` is the hourly counter table: the upsert, and the log of runs it summarises.
`AnalyticsCounts` says, run by run, what each counter of a row counts. `AnalyticsRepair` is migration 050
(merge what the NULLS-DISTINCT key let in) and migration 052 (what a workflow delete does).
`AnalyticsTable` is the stored table as a class, its code proved against those functions.
`AnalyticsLifecycle` follows runs that pause for a person: the bucket resolver, how the bucket is carried
from pause to pause, and what every such run does to the counters.

**Agent suite runs.** `SuiteRunner` is the protocol between the runner, its parallel workflow runs, the
watcher and an outside Stop, as a state machine with one step per stretch between two awaits.
`SuiteRunCode.SuiteRun` is the code on mutable fields: every object is a run of the protocol, each method
says what its step means for the row, and every run of the protocol is a chain of calls.

**Startup key check.** `KeyCheck` is the race of any number of main and worker processes on the canary
row; `KeyCheckCode.Database` is `check` itself; `KeyList` is how the list of keys is validated, stored
and read back.

**Chat turn.** `Transcript` holds the message list and the context compressors. `ChatTurn` says what a
readable event stream, a numbered trace and an ordered list of model calls are. `ChatTurnCode.Turn` is
the turn's loop; everything it cannot decide itself (Stop, the model's answers, exceptions, a consumer
that leaves) is chosen arbitrarily, so the contract of `RunTurn` holds of every run.

**Helpers.** `Images` collects and blanks base64 images; `JsonScan` finds JSON objects in prose;
`InlineScript` and `ScriptReader` are JSON inside a script element and the reader that gets it back;
`CredentialSanitizer`, `GeneratedNodes` and `GeneratedNodesCode` clear credentials on generated workflow
nodes, and `SharedVersions` says when two of them replace one version; `SsePipe` and `SsePipeCode` are the two keepalive pipes.

## Where the code and its promises differ

The model follows the code. The theorems in the table say when each promise holds.

- `maybe_compress_messages` can cut a single-user conversation in the middle of a group of tool
  messages. A transcript stays well formed exactly when the fourth message from its end is not a tool
  message (or there are two user messages); a first round is cut exactly when it has four or more
  parallel calls.
- A Stop that lands between the suite runner's refresh and its last commit is overwritten; a Stop stands
  exactly when the refresh no longer read "running". A run that somebody outside marks failed also stays
  failed when its setup failed.
- Migration 050 takes the latest run time of a group where the upsert stores the time of the last run
  written. A repaired row agrees on `last_run_at` exactly when its key holds no NULL or its last event is
  its latest; the counters agree always.
- A further pause keeps the remembered analytics bucket exactly when the resumed run's own snapshot does
  not already hold the field that is carried over; otherwise the bucket is removed and the outcome is
  not written.
- A key ring that passed the startup check does not always keep passing when nothing retired its primary
  key: a rotation rewrites the canary as it goes. Over any run without the accept flag it passes at every
  moment exactly when it holds the canary's key and the primary of every leader that rewrites it.
- A credential that a generated node keeps from the version it replaces can end up on two nodes: one known
  by its id and a new one with that version's label. It does exactly when two nodes that replace the same
  version both come in with it, or with a model credential that the pass restores from there; when two
  nodes replace the same version is characterised by their ids, types and labels.
- Migration 052 took SET NULL off the workflow's foreign key because a delete could break the unique key.
  The owner's foreign key still has it, and the same collision.
- Python decodes an inline script to the payload it was made from exactly when no string in the payload
  puts a lone high surrogate right before a lone low one. The browser's strings always agree.
- The chat trace promises the calls a turn finished. A consumer that leaves at the context event right
  after an answer leaves that answer out; this is the only answered call a trace can miss.
- The clearing loop over generated nodes skips a node that is no dict, but the tool-parameter loop after
  it raises on one: the pass succeeds exactly when all nodes are dicts.
- A source of the keepalive stream that is cancelled, instead of raising an ordinary exception, can also
  end the stream normally.

## Model

| member | source | states |
|---|---|---|
| Analytics.UpsertAddsContribution | backend/app/api/analytics.py:88-134 | Under either reading of NULL, one upsert adds exactly its run's numbers to exactly its (workflow, owner, hour), and to nothing else. |
| Analytics.RowIsItsSum | backend/app/api/analytics.py:116-117 | With NULLs equal, a row's own counters are the whole sum of its scope. |
| Analytics.ReplayRefinesLog | backend/app/api/analytics.py:76-134 | For every log the table's counters per scope are the sums over the log, the key holds, and with NULLs equal every single row is its scope's sum and maximum. |
| AnalyticsCounts.RowsCountTheirRuns | backend/app/api/analytics.py:88-134 | For every log, a row's successes are its scope's runs that ended "success", its errors those that ended "error", its executions those that were counted, and its samples, total and largest latency those of the counted runs that took any time; every run has its row. |
| AnalyticsCounts.RowsShowTheirLastRun | backend/app/api/analytics.py:105-131 | Every row shows the name and the time of the last run recorded for its scope. |
| AnalyticsRepair.KeepId | backend/alembic/versions/050_fix_analytics_snapshot_null_uniqueness.py:30-34 | The kept id is the least id of the group, and there is one exactly when the group is not empty. |
| AnalyticsRepair.RepairKeepsView | backend/alembic/versions/050_fix_analytics_snapshot_null_uniqueness.py:28-84 | The repair changes no scope's counters, drops no scope, and leaves one row a scope. |
| AnalyticsRepair.RepairEqualsFixedFromStart | backend/alembic/versions/050_fix_analytics_snapshot_null_uniqueness.py:1-13 | For every log, repairing the table the old key built gives the rows the new key would have built from the start. |
| AnalyticsCounts.RepairedRowsCountTheirRuns | backend/alembic/versions/050_fix_analytics_snapshot_null_uniqueness.py:28-84 | For every log the repaired table of the old key counts those same runs, row by row. |
| AnalyticsRepair.RepairedRowIsKept | backend/alembic/versions/050_fix_analytics_snapshot_null_uniqueness.py:28-84 | A repaired row is the group's row of least id, keeps that row's name, and shows the group's latest run. |
| AnalyticsRepair.RepairCommutesWithUpsert | backend/alembic/versions/050_fix_analytics_snapshot_null_uniqueness.py:28-84 | Repair then upsert equals upsert then repair, for every table and run. |
| AnalyticsRepair.RepairedLastRunAgreesIff | backend/alembic/versions/050_fix_analytics_snapshot_null_uniqueness.py:41-54 | Exactly when the repaired `last_run_at` is the one the new key would have stored. |
| AnalyticsRepair.LastRunDiffers | backend/alembic/versions/050_fix_analytics_snapshot_null_uniqueness.py:41-54 | Two runs of a scope with a NULL, recorded out of order, are a log on which it is not. |
| AnalyticsRepair.ReplayIgnoresOrder | backend/app/api/analytics.py:88-133 | Any reordering of the log leaves the same rows and counters. |
| AnalyticsRepair.UpsertKeepsSane | backend/app/api/analytics.py:91-128 | Every row keeps samples <= executions and max <= total <= samples * max latency under every upsert. |
| AnalyticsRepair.RepairKeepsSane | backend/alembic/versions/050_fix_analytics_snapshot_null_uniqueness.py:30-56 | The merge of arbitrarily many duplicates keeps those bounds. |
| AnalyticsRepair.SetNullCollidesIff | backend/app/db/models.py:843-855 | With ON DELETE SET NULL, for the workflow before 052 and for the owner still, a delete breaks the unique key exactly when a row without the reference stands in the scope of a row that has it. |
| AnalyticsRepair.SetNullCollides | backend/app/db/models.py:843-855 | For either foreign key a table with a valid key on which such a delete breaks it. |
| AnalyticsRepair.CascadeForgetsWorkflow | backend/alembic/versions/052_fix_analytics_snapshot_workflow_fk_cascade.py:19-34 | After 052 a delete leaves the table of the log without that workflow's runs. |
| AnalyticsRepair.CascadedKeeps | backend/alembic/versions/052_fix_analytics_snapshot_workflow_fk_cascade.py:19-34 | A delete keeps the key and adds no row. |
| AnalyticsTable.Execute | backend/app/api/analytics.py:88-134 | The increments and the insert-or-update give exactly the table of one upsert, whose rows count their runs (`AnalyticsCounts.RowsCountTheirRuns`). |
| AnalyticsTable.SnapshotTable.Upsert | backend/app/api/analytics.py:76-134 | The stored table stays consistent with the log extended by this run. |
| AnalyticsTable.SnapshotTable.RepairNullUniqueness | backend/alembic/versions/050_fix_analytics_snapshot_null_uniqueness.py:23-84 | The migration leaves a consistent table of the same log under the new key. |
| AnalyticsTable.SnapshotTable.DeleteWorkflow | backend/alembic/versions/052_fix_analytics_snapshot_workflow_fk_cascade.py:19-34 | A delete leaves a consistent table of the log without the workflow. |
| AnalyticsLifecycle.ResolveBucket | backend/app/api/analytics.py:137-201 | The resolver's answer depends on the snapshot alone, whatever rows the table holds. |
| AnalyticsLifecycle.ResolvedCases | backend/app/api/analytics.py:137-201 | Where a run is counted, case by case: before it was counted at its start, else at the candidate, else now; afterwards in the hour its snapshot remembers, and nowhere when there is none to read. |
| AnalyticsLifecycle.ResolvedLandsInRememberedHour | backend/app/api/analytics.py:147-156 | An already counted outcome lands in the very hour its snapshot remembers, and gets no bucket exactly when there is none to read. |
| AnalyticsLifecycle.PauseAgainKeepsBucketIff | backend/app/services/hitl_service.py:819-838 | Exactly when a further pause keeps the remembered bucket; a bucket that survives is the same one. |
| AnalyticsLifecycle.OutcomesNeverExceedExecutions | backend/app/api/analytics.py:91-99 | Over every run of pauses, resumes and outcomes, executions of a row are its successes plus errors plus what is paused or ended otherwise. |
| AnalyticsLifecycle.OldKeySplitsAnOutcome | backend/alembic/versions/050_fix_analytics_snapshot_null_uniqueness.py:1-5 | Under the old key every pause in a scope with a NULL can be followed by a row of that scope with more outcomes than executions. |
| AnalyticsLifecycle.NullFreeRowsBalance | backend/alembic/versions/050_fix_analytics_snapshot_null_uniqueness.py:1-5 | Under the old key, in every run, a row whose scope holds no NULL balances its executions. |
| AnalyticsLifecycle.OldKeyBalancesIff | backend/alembic/versions/050_fix_analytics_snapshot_null_uniqueness.py:1-13 | The old key kept a scope's rows balanced in every run exactly when the scope holds no NULL. |
| AnalyticsLifecycle.RepairedRunBalances | backend/alembic/versions/050_fix_analytics_snapshot_null_uniqueness.py:7-10 | Repairing such a table removes every such row. |
| SuiteRunner.WholeStep | backend/app/api/agent_suite_runs.py:60-197 | Every step of every party keeps the protocol's invariant (permits, lock, results, cancel events, watcher, status, decision). |
| SuiteRunner.CompletedRunIsWhole | backend/app/api/agent_suite_runs.py:136-181 | A run that ends completed has exactly one result for every index of its inputs, for every interleaving. |
| SuiteRunner.EntriesCarryTheirOutcomes | backend/app/api/agent_suite_runs.py:160-175 | For every interleaving, the entry of an index in the session and in the row holds what the run of that index returned. |
| SuiteRunner.InputsStay | backend/app/api/agent_suite_runs.py:118-136 | A run works on the inputs it was launched with, or on those that the model wrote in its setup. |
| SuiteRunner.FinishedStatusIs | backend/app/api/agent_suite_runs.py:179-197 | A finished run has the status the refresh found when somebody outside had closed it, else "failed" when the setup raised and "completed" when it did not. |
| SuiteRunner.AtMostFourInFlight | backend/app/api/agent_suite_runs.py:136-140 | Never more than four workflow runs in flight, and all permits are back at the end. |
| SuiteRunner.StopReachesEveryRun | backend/app/api/agent_suite_runs.py:65-72 | Once the watcher acts on a row that is no longer running, every registered run is cancelled and none is ever launched or registered again. |
| SuiteRunner.WatcherReadsOnceAfterStop | backend/app/api/agent_suite_runs.py:65-78 | After stop is set the watcher reads the row at most once more. |
| SuiteRunner.WatcherEndsAfterStop | backend/app/api/agent_suite_runs.py:65-78 | After stop the watcher takes at most four more steps, can always take the next one, and has ended when it has taken them. |
| SuiteRunner.OutsideStopStandsIff | backend/app/api/agent_suite_runs.py:179-197 | What somebody outside wrote stands exactly when the refresh no longer read "running", or it is "failed" and the setup failed. |
| SuiteRunner.LateStopIsOverwritten | backend/app/api/agent_suite_runs.py:192-197 | From every state about to commit a decision, a Stop can land and be overwritten. |
| SuiteRunner.LateStopHappens | backend/app/api/agent_suite_runs.py:183-197 | Every launched run can get into such a state. |
| SuiteRunner.LateStopHappensToACompletedRun | backend/app/api/agent_suite_runs.py:178-197 | So can a run that is about to be marked completed. |
| SuiteRunner.NeverStuck | backend/app/api/agent_suite_runs.py:136-197 | Until the run is done some party other than the outside can move. |
| SuiteRunCode.SuiteRun.Begin | backend/app/api/agent_suite_runs.py:118-139 | A step of the protocol that leaves the inputs it was given and one waiting task for each of them, none in flight. |
| SuiteRunCode.SuiteRun.Enter | backend/app/api/agent_suite_runs.py:139-144 | A step of the protocol: permits and runs in flight add up to four, after stop nothing is launched or registered, and otherwise the task registers a cancel event of its own. |
| SuiteRunCode.SuiteRun.Leave | backend/app/api/agent_suite_runs.py:147-158 | A step of the protocol with one run fewer in flight and its permit free; the task keeps the very outcome its run returned. |
| SuiteRunCode.SuiteRun.Append | backend/app/api/agent_suite_runs.py:163-175 | A step of the protocol that lists the task for the first time, with its own run's outcome, in the session and not yet in the row. |
| SuiteRunCode.SuiteRun.Commit | backend/app/api/agent_suite_runs.py:176 | A step of the protocol after which the row holds what the session held: exactly one entry more, for an index the row did not have. |
| SuiteRunCode.SuiteRun.ReadStatus | backend/app/api/agent_suite_runs.py:179-189 | A step of the protocol taken with no run in flight, which reads "running" or what somebody outside wrote. |
| SuiteRunCode.SuiteRun.Decide | backend/app/api/agent_suite_runs.py:180-193 | A step of the protocol after which stop is set, a status from outside is not replaced, and "completed" is chosen only when every task recorded its result. |
| SuiteRunCode.SuiteRun.Finish | backend/app/api/agent_suite_runs.py:194-197 | The last step: a completed run has exactly one entry for each input, all permits are free, and the status is the one the refresh found, unless that was "running": then the runner's own decision. |
| SuiteRunCode.SuiteRun.WatchRow | backend/app/api/agent_suite_runs.py:68-74 | The watcher's step: a heartbeat, or every workflow run in flight has its cancel event set. |
| SuiteRunCode.SuiteRun.ReadRow | backend/app/api/agent_suite_runs.py:67 | The watcher's read is a step of the protocol, and at most one of them comes after stop. |
| SuiteRunCode.Drive | backend/app/api/agent_suite_runs.py:91-197 | Every run of the protocol is a chain of calls that ends in the same state, with each entry holding what its run returned; so what is proved of runs holds of the code. |
| KeyList.EntryShape | backend/app/config.py:230-236 | Every key named by the setting is non-empty, stripped and free of commas. |
| KeyList.JoinSplit | backend/app/config.py:238 | The pieces a setting is split into are what stands between its commas. |
| KeyList.StripIs | backend/app/config.py:238 | Stripping takes the run of spaces off either end and nothing else. |
| KeyList.NamedIff | backend/app/config.py:238 | A setting names a key exactly when one of its pieces, stripped, is that key and not empty. |
| KeyList.RefusedIff | backend/app/config.py:239-243 | A setting is refused exactly when one of its pieces, stripped, is the placeholder. |
| KeyList.StoredFormReadsBack | backend/app/config.py:230-242 | The stored form splits back into exactly the named keys in order, and validating it again changes nothing. |
| KeyList.EncryptionKeys | backend/app/config.py:245-251 | The loop gives the first occurrences of the primary followed by the stored extras. |
| KeyList.KeysAreThePrimaryAndTheExtras | backend/app/config.py:230-251 | From the setting to the list: the primary first, then every named key once, and nothing else. |
| FirstSeen.InOrderOfFirstOccurrence | backend/app/config.py:247-250 | Appending what is not yet there keeps each element once, in order of first occurrence. |
| KeyCheck.StartedProcessesShareTheCanaryKey | backend/app/key_check.py:147-194 | For every interleaving without the accept flag, all that start with "matches" or "recorded" hold one common key, the canary's, which a main recorded as its primary. |
| KeyCheck.LaterStartMatchesIff | backend/app/key_check.py:83-97 | Once a process passed, whatever rotations do, a later start is decided by a key the canary has had since; a ring with all of them matches unless its primary was retired, and without rotations it matches exactly when it has the canary's key. |
| KeyCheck.RetiredPrimaryNeverPasses | backend/app/key_check.py:83-97 | In any run, with accept flags and rotations, a process that starts under a primary already retired never matches, records, is accepted or waits for main; on a migrated database it is refused for that reason. |
| KeyCheck.SurroundingsAre | backend/app/key_check.py:83-97 | In any run, a fingerprint counts as retired exactly when a completed rotation retired it, and the tables are there exactly when somebody migrated them. |
| KeyCheck.SampleIs | backend/app/key_check.py:100-112 | The sampled values are those of the twenty newest credentials that no Secret backs, and the SSO secret. |
| KeyCheck.RingPassesThroughoutIff | backend/app/services/key_rotation.py:284-296 | Over every run without the accept flag, a ring with an unretired primary passes at every moment exactly when it holds the canary's key and the primary of every leader that rewrites it. |
| KeyCheck.StartedAloneIsRun | backend/app/key_check.py:147-170 | A start that nobody interrupts is a run of the protocol with the verdict the condition speaks of. |
| KeyCheck.RewriteRefusesARing | backend/app/services/key_rotation.py:293-296 | A rewrite under a primary that a passing ring lacks has it refused although nothing was retired. |
| KeyCheck.WorkersNeverWriteTheCanary | backend/app/key_check.py:181-194 | In every run, with mains, accept flags and rotations, no step of a worker changes the canary. |
| KeyCheck.AcceptReplacesTheCanary | backend/app/key_check.py:162-167 | With the flag, a main without the canary's key can always replace it, and nobody already started notices. |
| KeyCheckCode.Database.PrimaryIsRetired | backend/app/key_check.py:83-97 | The loop refuses exactly a primary that some completed rotation retired. |
| KeyCheckCode.Database.WriteCanary | backend/app/key_check.py:115-126 | The insert leaves an existing canary alone unless told to replace it. |
| KeyCheckCode.Database.Check | backend/app/key_check.py:147-194 | The whole decision table: not migrated, a retired primary refused before anything else, a worker that only reads, a main that matches, accepts, records or is refused; it is the verdict and canary of the protocol's uninterrupted start. |
| Transcript.SuffixWellFormedIff | backend/app/services/context_compressor.py:315-331 | A tail of a well-formed transcript is well formed exactly when it does not start with a tool message. |
| Transcript.CutIs | backend/app/services/context_compressor.py:315-338 | With several user messages the kept tail starts at the last one, if anything stands between it and the first; with one it is the last four messages, if more than four follow it. |
| Transcript.NoUserNoCut | backend/app/services/context_compressor.py:316-318 | Without a user message nothing is compressed. |
| Transcript.SoftCompressionIs | backend/app/services/context_compressor.py:296-400 | A soft compression happens exactly when the messages are too many, can be cut and were summarised; it leaves the first user message, the summary and the tail. |
| Transcript.SoftCompressionKeepsWellFormedIff | backend/app/services/context_compressor.py:273-400 | Exactly when the soft compression keeps a transcript well formed. |
| Transcript.HardCompressionIsOneUserMessage | backend/app/services/context_compressor.py:403-472 | Hard compression leaves one user message and is always well formed. |
| Transcript.ParallelCallsAreSplitIff | backend/app/services/context_compressor.py:328-334 | After the first round the compressor cuts inside the group exactly when the model asked for four tools or more. |
| ChatTurn.TerminalIsLast | backend/app/api/ai_assistant.py:5451-5471 | In a readable stream the terminal event is the last one. |
| ChatTurn.EndsBeforeNextStart | backend/app/api/ai_assistant.py:3534-3556 | In a readable stream each tool ends under its own id before the next one starts. |
| ChatTurn.CallsOfARound | backend/app/api/ai_assistant.py:3858-3901 | Rounds never go back, none has a third call, and a second one carries the single message of a hard compression. |
| ChatTurn.AtMostTwoCallsARound | backend/app/api/ai_assistant.py:3821-3901 | At most two model calls for each round. |
| ChatTurn.TokenTotalIsSum | backend/app/api/ai_assistant.py:3750-3752 | A trace's token total is the sum over the turns that report it, and absent when none does. |
| ChatTurn.TraceOfTracesTurns | backend/app/api/ai_assistant.py:3750-3800 | A trace holds the turns, tools and text it is of, with the three token totals, each the sum of what was reported. |
| ChatTurnCode.Turn.RecordTurnTrace | backend/app/api/ai_assistant.py:3754-3800 | At most one trace a turn, none for an untraced or unanswered turn, with the turns recorded so far and one failed turn more exactly when an error ended a call in flight. |
| ChatTurnCode.Turn.RecordRun | backend/app/api/ai_assistant.py:3802-3817 | The run record goes out once, with the status, text and steps of the turn and the trace before it; "cancelled" exactly when Stop was seen. |
| ChatTurnCode.Turn.CompressSoftly | backend/app/api/ai_assistant.py:3835-3844 | The soft compression leaves exactly what the estimates ask for, and well-formed messages well formed exactly when it does not cut a tool group; without one the messages are unchanged. |
| ChatTurnCode.Turn.CompressHard | backend/app/api/ai_assistant.py:3846-3856 | The hard compression leaves one user message, fit to send, exactly when there is something to compress and a way to. |
| ChatTurnCode.Turn.AskModel | backend/app/api/ai_assistant.py:3858-3901 | One request on the messages as they are; one more, after a hard compression, exactly when the first overflowed, something could be compressed and nobody left meanwhile. |
| ChatTurnCode.Turn.Ask | backend/app/api/ai_assistant.py:3828-3862 | The first request of a round carries the messages just as the soft and then the hard compression leave them. |
| ChatTurnCode.Turn.CloseTool | backend/app/api/ai_assistant.py:3534-3556 | A tool gets its step before its end event, also when it was cancelled. |
| ChatTurnCode.Turn.RunBranch | backend/app/api/ai_assistant.py:3991-4081 | Whatever its shape, a branch that does not raise opens and closes exactly its own tool and adds its step; only a group tool finishes the turn, and then its summary is kept; a followed tool looks at Stop afterwards. |
| ChatTurnCode.Turn.Settle | backend/app/api/ai_assistant.py:5429-5450 | The text a tool's work ends in becomes the message of its call and the tool joins the trace; nothing is added when the work raised. |
| ChatTurnCode.Turn.RunCalls | backend/app/api/ai_assistant.py:3972-3979 | When the loop over the calls ends, the transcript is well formed again: one tool message a call, in order. |
| ChatTurnCode.Turn.NextCall | backend/app/api/ai_assistant.py:3972-3979 | Before each tool Stop is looked at: pressed, it ends the turn there; otherwise the tool runs and answers its call. |
| ChatTurnCode.Turn.AnswerWithoutTools | backend/app/api/ai_assistant.py:3929-3953 | Stop is looked at before the answer is given; otherwise the model's text, neither more nor less, goes out and into the record. |
| ChatTurnCode.Turn.Reply | backend/app/api/ai_assistant.py:3929-3953 | A turn whose model asked for no tool ends with that answer's text in stream and record. |
| ChatTurnCode.Turn.UseTools | backend/app/api/ai_assistant.py:3955-5457 | A turn whose model asked for tools runs them all, and ends with the summary when one of them finished it. |
| ChatTurnCode.Turn.Pass | backend/app/api/ai_assistant.py:3821-3827 | Every round starts with a look at Stop, and only goes on when it was not pressed. |
| ChatTurnCode.Turn.NoteAnswer | backend/app/api/ai_assistant.py:3902-3928 | An answered call becomes the next trace turn and is no longer in flight, unless the consumer leaves at the context event, which is recorded. |
| ChatTurnCode.Turn.Conclude | backend/app/api/ai_assistant.py:5451-5462 | A turn ends with its record and then the terminal event of its status, and no tool is opened or closed by that. |
| ChatTurnCode.Turn.Stream | backend/app/api/ai_assistant.py:3820-5474 | The whole turn with its except and finally clauses: every exit but an abandoned one is closed, one that returns has no tool left open and says what `Ending` demands of its status, one that was handled is no success, and an abandoned one still leaves the trace of its answered calls. |
| ChatTurnCode.RunTurn | backend/app/api/ai_assistant.py:3593-5474 | Every run: at most 66 rounds and two calls a round on well-formed transcripts; every tool ended before the next one starts and, unless an exception ends the turn, the last one too; one terminal event, last. A turn that returns as a success has said exactly the last answer's text, or the summary of the group tool of that answer that finished it, after all the calls of all answers ran; it returns as a failure, having said nothing, only after an empty answer or when the model still asks for tools after 66 rounds. One run record that tells what the stream told, "cancelled" exactly when Stop was seen; at most one numbered trace with summed tokens; an answered call is missing from the trace exactly when the consumer left at its context event, and then it is the only one; a turn is abandoned only by a consumer that left. |
| Images.Collector.Collect | backend/app/api/ai_assistant.py:3052-3064 | Walking a tree adds its images to what was met, in pre-order. |
| Images.UrlsIff | backend/app/api/ai_assistant.py:3051-3064 | What is collected are the URLs of exactly the images that stand anywhere in the tree. |
| Images.UrlOfImage | backend/app/api/ai_assistant.py:3054 | An image's URL is an image URL that ends with the image, is the image itself exactly when that is a URL already, and belongs to no other bare image. |
| Images.ImageIff | backend/app/api/ai_assistant.py:3038-3044 | A string is an image exactly when it has 100 characters or more and starts as an image URL, a JPEG or a PNG does. |
| Images.ExtractImages | backend/app/api/ai_assistant.py:3047-3067 | The result is the URL of every image in the tree once, in the order of first occurrences, and nothing else. |
| Images.SanitizedHoldsNoImage | backend/app/api/ai_assistant.py:3070-3078 | A sanitised tree holds no image, has the same shape and keys, stays as it is when sanitised again, and equals the original exactly when that held none. |
| JsonScan.FindBrace | backend/app/api/ai_assistant.py:1640 | The next opening brace, skipping none. |
| JsonScan.EmbeddedObjects | backend/app/api/ai_assistant.py:1634-1651 | At most 200 attempts; the objects found decode at opening braces, disjoint and in order; every brace before the stopping point was tried or lies in a decoded value, and with at most 200 braces every object outside other decoded values is found. |
| JsonScan.NoBraceMissed | backend/app/api/ai_assistant.py:1634-1642 | With at most 200 opening braces the limit of 200 attempts misses none. |
| InlineScript.EscapedDumps | backend/app/api/bigquery_oauth.py:84-93 | The replacements change nothing but characters inside string literals, and leave none of the replaced characters. |
| ScriptReader.ReadsBack | backend/app/api/bigquery_oauth.py:84-93 | A reader of JSON gets every payload back from the escaped text, strings as their UTF-16, whatever follows it. |
| ScriptReader.InlineScriptReadsBack | backend/app/api/bigquery_oauth.py:84-93 | The script text holds no `<`, `>` or `&` and reads back as the payload. |
| ScriptReader.CodePointsBackIff | backend/app/api/bigquery_oauth.py:87 | A string comes back code point for code point exactly when it splices no lone surrogates. |
| ScriptReader.SplicedPair | backend/app/api/bigquery_oauth.py:87 | The shortest string that does not come back: a lone high and a lone low surrogate. |
| ScriptReader.ScriptRoundTripIff | backend/app/api/bigquery_oauth.py:84-93 | Decoding the script text gives the payload back exactly when no string in it splices lone surrogates. |
| CredentialSanitizer.CanonicalIsNoPlaceholder | backend/app/api/ai_assistant.py:1588-1602 | No placeholder pattern occurs in a credential id as the database prints it. |
| CredentialSanitizer.UsableIff | backend/app/api/ai_assistant.py:1710-1723 | A value may stand on a node exactly when it is text with a visible character, holds none of the placeholder texts, and names, read as a UUID, a credential the user can access. |
| CredentialSanitizer.AccessibleIsUsable | backend/app/api/ai_assistant.py:1710-1723 | The id of an accessible credential, as the database prints it, may stand on a node. |
| CredentialSanitizer.FalsyIff | backend/app/api/ai_assistant.py:1753-1771 | The values the pass takes for missing: null, false, the empty string, list and dict, and a number written with zeros only up to its exponent. |
| CredentialSanitizer.SpaceIff | backend/app/api/ai_assistant.py:1714 | The twenty-nine characters that stripping takes away. |
| CredentialSanitizer.UuidCharIff | backend/app/api/ai_assistant.py:1719-1720 | A credential id as the database prints it is written with lower-case hexadecimal digits and hyphens. |
| CredentialSanitizer.SelectedIsUsable | backend/app/api/ai_assistant.py:1726-1732 | The chat's own credential is offered only when its user may put it on nodes. |
| CredentialSanitizer.PairCleared | backend/app/api/ai_assistant.py:1814-1822 | A field that may stay stays, any other becomes empty and takes its model with it, and nothing else changes. |
| CredentialSanitizer.FilledSettles | backend/app/api/ai_assistant.py:1746-1771 | A model node ends with its own credential if it may stay, else its earlier one, else the chat's, and with the model that goes with it. |
| CredentialSanitizer.FilledIsAllowed | backend/app/api/ai_assistant.py:1746-1771 | A model credential is one the user owns, or the very one the node had, or empty. |
| CredentialSanitizer.AlikeFound | backend/app/services/generated_node_match.py:20-34 | Which version a node replaces depends on its id, type and label only. |
| GeneratedNodes.ModelNodeFields | backend/app/api/ai_assistant.py:1804-1822 | Each credential of a model node keeps its value or takes the one replacement there is. |
| GeneratedNodes.SanitizeFrame | backend/app/api/ai_assistant.py:1791-1847 | Only a node's data changes, and in it only governed keys. |
| GeneratedNodes.UnchangedIffSettled | backend/app/api/ai_assistant.py:1774-1850 | The pass leaves a node alone exactly when all its credentials and tool parameters are already as the pass leaves them. |
| GeneratedNodes.SanitizingTwiceIsOnce | backend/app/api/ai_assistant.py:1774-1850 | Sanitising twice is sanitising once; the pass raises exactly when some node is no dict. |
| GeneratedNodes.SanitizedIsEntitled | backend/app/api/ai_assistant.py:1783-1790 | Afterwards every credential field of every node and Playwright step is empty, an accessible credential's id free of placeholder text, or what that same field held in the replaced version, and a missing credential has no model. |
| GeneratedNodes.AccessibleStays | backend/app/api/ai_assistant.py:1735-1771 | A credential field that comes in with an accessible credential's id comes out with it. |
| GeneratedNodes.AccessibleStepStays | backend/app/api/ai_assistant.py:1834-1845 | So does a Playwright step. |
| GeneratedNodes.StepsAre | backend/app/api/ai_assistant.py:1834-1845 | The steps of a Playwright node come out cleaned one by one, each against the step that was at its place. |
| GeneratedNodes.ModelFollowsCredential | backend/app/api/ai_assistant.py:1746-1771 | The model goes with the credential: kept with its own, the earlier one with the earlier, the chat's with the chat's. |
| GeneratedNodes.ToolParametersAreText | backend/app/api/ai_assistant.py:1693-1707 | A tool whose parameters are a dict gets their JSON text instead, and no tool changes otherwise. |
| SharedVersions.SharedVersionIff | backend/app/services/generated_node_match.py:20-34 | Exactly when two generated nodes replace the same version, by their ids, types and labels. |
| SharedVersions.KeepsIff | backend/app/api/ai_assistant.py:1735-1771 | A node keeps a credential its user may not use exactly when the input says so (the field came in with its version's value, or a model node lost its credential and the version's is unusable too), and then it is the same field's of its own version. |
| SharedVersions.KeptValuesNeverMove | backend/app/api/ai_assistant.py:1785-1789 | When no two nodes replace the same version, credentials their user may not use, kept by two nodes in a field, are each what that field held in the node's own version, and the versions are two. |
| SharedVersions.KeptValueMovesIff | backend/app/api/ai_assistant.py:1785-1789 | One version's credential ends up on two nodes exactly when two nodes that replace it both meet that condition on the input. |
| SharedVersions.OneVersionTwoNodes | backend/app/api/ai_assistant.py:1785-1789 | Otherwise two nodes can keep one version's credential. |
| GeneratedNodesCode.ClearUnownedCredentialField | backend/app/api/ai_assistant.py:1735-1743 | The field is cleared in place exactly when it may not stay. |
| GeneratedNodesCode.FillModelCredential | backend/app/api/ai_assistant.py:1746-1771 | The early returns give the filled data. |
| GeneratedNodesCode.FindPreviousVersion | backend/app/services/generated_node_match.py:20-34 | Two loops: the first with the node's id and type, else the first with its label and type. |
| GeneratedNodesCode.CleanStepList | backend/app/api/ai_assistant.py:1834-1845 | The loop over steps clears each against the step that was at its place. |
| GeneratedNodesCode.NormalizeAgentToolParameters | backend/app/api/ai_assistant.py:1693-1707 | Tool parameters become text in every node; the loop fails exactly on a node that is no dict. |
| GeneratedNodesCode.SanitizeGeneratedWorkflowNodes | backend/app/api/ai_assistant.py:1774-1850 | The pass in place on a copy computes the specified nodes or raises. |
| SsePipe.StepKeepsInv | backend/app/api/ai_assistant.py:5578-5612 | Every step of producer, event loop and consumer keeps what was taken, queued and posted equal to what the source caused. |
| SsePipe.StreamIsPrefix | backend/app/api/ai_assistant.py:5578-5612 | For every schedule the output without keepalives is a prefix of what is due; a normal end means all of it; a failure is raised after everything before it. |
| SsePipe.KeepaliveForEachTimeout | backend/app/api/ai_assistant.py:5601-5606 | One keepalive goes out for each wait that timed out, and no other. |
| SsePipe.KeepaliveStream | backend/app/api/ai_assistant.py:5578-5612 | The same for the threaded pipe: the source's own chunks, all of them at a normal end, all of them before a raised failure; a normal end means an exhausted source exactly when it was not interrupted. |
| SsePipe.InterruptedEndsNormally | backend/app/api/ai_assistant.py:5587-5594 | From every state with nothing under way an interrupted source ends the stream normally, with what it has yielded. |
| SsePipe.A2AStream | backend/app/api/a2a.py:308-338 | Every event's text in order, then at most one error text, then nothing; the pipe never raises. |
| SsePipe.StoppedIsSilent | backend/app/api/a2a.py:333-338 | Once the consumer has stopped nothing more is sent. |
| SsePipe.WaitingConsumerMoves | backend/app/api/ai_assistant.py:5601-5612 | A consumer that waits on a source that has stopped is never stuck, and every move but a timeout brings its end closer. |
| SsePipeCode.Stream.Pump | backend/app/api/a2a.py:312-315 | One round over the source, direct or through the event loop: the stream stays a run of the machine and the client is due the event's text next. |
| SsePipeCode.Stream.PumpStops | backend/app/api/a2a.py:316-321 | The except clauses: a failure that is put as text is due next, anything else adds nothing. |
| SsePipeCode.Stream.PumpCloses | backend/app/api/a2a.py:322-323 | The finally clause: nothing more is due and what is owed gets less. |
| SsePipeCode.Stream.RunCallback | backend/app/api/ai_assistant.py:5587-5597 | One callback of the thread loses, duplicates and reorders nothing on its way into the queue, and brings the end closer. |
| SsePipeCode.Stream.Round | backend/app/api/ai_assistant.py:5601-5612 | After every round of the consumer's loop what the client was sent is faithful to the source, above all when the loop ends. |

## Left out

- AnalyticsRepair.RepairEqualsFixedFromStart: compares scopes and counters; the repaired row keeps its own id and name (`AnalyticsRepair.RepairedRowIsKept`), which need not be those of the new key's row, and `last_run_at` has its own theorem.
- AnalyticsLifecycle.OutcomesNeverExceedExecutions: assumes that the executor's snapshot at a first pause carries no bucket fields of its own; the runs of boards and portals, which are counted when they finish, are the `Complete` step.
- SuiteRunner.CompletedRunIsWhole: the row deleted while the runner finishes, and a task that raises inside the gather, are not part of the model; nobody moves the status back to running.
- SuiteRunner.NeverStuck: is about enabled steps; fairness of the scheduler and the order in which the semaphore serves its waiters are not modelled.
- KeyCheck.StartedProcessesShareTheCanaryKey: is about runs in which no key rotation rewrites the canary, since after a rewrite there need be no common key; `KeyCheck.RingPassesThroughoutIff` says what runs with rewrites keep.
- AnalyticsRepair.SetNullCollidesIff: is about one foreign key's action; in which order the database removes an owner's workflows and clears the owner is not modelled.
- SharedVersions.KeptValuesNeverMove: is about the credentials of nodes; those of Playwright steps are compared with the step at the same place by `GeneratedNodes.SanitizedIsEntitled`.
- ChatTurnCode.Turn.AskModel: counts a call as soon as it is begun, also when Stop pre-empted the request.
- ChatTurnCode.Turn.RecordTurnTrace: the text of the error, the cancelled flag and the messages that a trace also quotes are not part of the record in the model.
- ChatTurnCode.Turn.CompressHard: the compressor handles the failures of its own requests, so only a cancelled task comes out of it.
- ChatTurnCode.Turn.RunBranch: the tool branches are collapsed to three shapes (straight through, followed task with a look at Stop, group that may finish the turn); what a tool does is not modelled.
- CredentialSanitizer.CanonicalIsNoPlaceholder: case is folded for ASCII letters only.
- GeneratedNodes.SanitizeFrame: `==` between values that are not both strings, `str` of a non-string label, `json.dumps` and `uuid.UUID` are parameters; a number so small that it reads as zero counts as non-zero.
- SharedVersions.SharedVersionIff: takes `==` on JSON values to be symmetric and transitive, as it is in Python on everything a workflow can hold; a NaN need not equal itself.
- JsonScan.EmbeddedObjects: `raw_decode` is a parameter whose end lies beyond its start.
- Images.ExtractImages: trees are finite JSON values; sharing inside a Python object is not modelled.
- InlineScript.EscapedDumps: numbers, `true`, `false` and `null` are tokens of letters, digits and signs; how Python prints a float and turns a non-string key into text is not modelled.
- Analytics: `updated_at`, the truncation of long names, and SQL itself; latencies are real numbers, so rounding of floats is not modelled.
- Analytics: what the callers do for paused runs without any readable bucket beyond not writing the outcome.
- Suite runs: the busy check before a run is launched, which is not atomic, and the prompt that writes inputs.
- Key check: real cryptography (a ciphertext is a key and a plaintext), and the text of the messages.
- Chat: prompts, tool schemas, history sent by the browser, wall-clock durations, and the estimate of tokens that decides on a compression (it is arbitrary in the model).
- Pipes: an event loop that is closed while the source's thread still runs.
- HTTP routing, authentication, the database session, the workflow executor, the rotation service, the other migrations and the frontend.
