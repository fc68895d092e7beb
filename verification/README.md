# CortexHeal control plane, verified

CortexHeal watches agent runs, detects stuck loops and overspend, asks a run to pause at a safety
gate, and lets people or automation resume it. This project models that control plane and the
small algorithms around it in Dafny, and proves what they keep over whole runs.

How it is organised:

- `Records`, `Tables`, `Storage`: the rows, the SQL statements as functions on a database value, and
  a mutable database whose methods perform them in place.
- `Detectors`, `Protection`, `Collector`, `Recovery`, `Learning`: the detectors, the pause controller
  and gates, the collector with its engine, plan generation and execution, and trust. Each class
  method is proved equal to a function on the database value.
- `ControlPlane`: all handlers as one state machine with atomic steps. `Trails`, `Lifecycle`,
  `Verdicts`, `Interventions`, `Restarts`, `Gates`, `Staleness`, `Automation`, `Accounting`, `RunRows`
  and `NonInterference` prove properties of every legal run of it, from the empty database; `Limits`
  holds runs that show where these end.
- `PlanEffects` and `VerdictEffects`: when exactly plans are drafted, automated, carried out and
  rejected and recovery verdicts booked, and what each writes, in terms of the rows before and after.
  The lemmas whose names end in `Exactly` do the same for single operations elsewhere.
- `Interleaving` and `AuditOrder`: one run again, for any number of collectors, operators and gates. A
  collector's and an operator's reads, writes, compare-and-sets and audit rows are separate statements,
  and a gate's read and write may be.
- `Json` and `Hashing`, `RateLimiter`, `ApiKeyCache`, `Escalation`, `EventQueue`: the side components.

`dafny verify dfyconfig.toml` checks everything.

What the code does differently from what one would expect, each with its lemma:

- The event is stored before the detectors look, and the stuck-loop detector counts it once more: with
  threshold T it fires on T - 1 stored calls and reports T (`Detectors.OverReportedLoop`). The
  description it writes says the call was repeated T times.
- Idempotency keys are unique over all runs (`NonInterference.SharedKeyInterferes`), and duplicates
  count in a run's total but not in the detector's sum (`Accounting.CostAccounting`).
- A gate stops an agent once per successful pause; until the next one it lets even a paused run
  through (`Gates.GatesStopAgainAfterPauses`).
- A restarted engine emits known incidents again and pauses again, once per restart if the run goes on
  overspending (`Restarts.RestartsRearm`).
- A stale `resume_requested` snapshot or a gate whose read and write are apart erases a pause
  (`Interleaving.StaleResumeErasesPause`, `Interleaving.SplitGateErasesPause`).
- The audit rows of a pause and of a resume are statements of their own, so each can be overtaken by
  the other's (`AuditOrder.OvertakenPauseRow`, `AuditOrder.OvertakenResumeRow`).
- Redelivered final events can flip a finished run under an unchanged plan snapshot
  (`Staleness.TerminalSnapshotsCanFlip`, and from the empty database `Limits.TerminalHoleIsReachable`).
- Two approvals that both load a plan before either executes it can carry it out twice
  (`Limits.OverlappingApprovals`).
- Plans that no AI decides depend on what happened to other runs (`NonInterference.HistoryInterferes`).
- Waiting exactly `Retry-After` seconds may not be enough (`RateLimiter.RetryAfterCanFallShort`), and a
  limit that is not positive makes every request fail (`RateLimiter.NonPositiveLimitCrashes`).
- A revoked API key can still be served from a racing cache fill, for up to thirty seconds
  (`ApiKeyCache.RevokedKeyCanBeServed`).
- Two webhooks with one URL are both sent one escalation (`Escalation.SharedUrlEscalatesTwice`).

One lemma is about the storage layer by itself: a key saved again under another hash is served although
the table lacks it (`ApiKeyCache.UnfaithfulSaveIsServed`). The only caller of `save_api_key`
(`cortexheal/server/api.py:269-276`) draws a new id and a new hash for every key, so the code as it is
does not get there.

## Model

| member | source | states |
|---|---|---|
| Storage.Database.GetRun | cortexheal/storage/postgres.py:367-378 | the stored row of the run, or nothing |
| Storage.Database.SaveRun | cortexheal/storage/postgres.py:283-304 | the upsert: a stored pause survives a snapshot that says running, an end time is never erased, the organisation never changes |
| Tables.RunUpsert | cortexheal/storage/postgres.py:283-304 | column by column: the organisation and an end time survive, and so does a pause against a snapshot that says running |
| Storage.Database.UpdateRunStatus | cortexheal/storage/postgres.py:380-392 | without expected statuses the write is unconditional, and says whether there was a row |
| Storage.Database.CasRunStatus | cortexheal/storage/postgres.py:380-392 | with expected statuses it applies only while the stored status is one of them, and says whether it did |
| Storage.Database.UpdateProtectionMode | cortexheal/storage/postgres.py:394-400 | only the mode of an existing run changes, and it says whether there was one |
| Storage.Database.SaveEvent | cortexheal/storage/postgres.py:306-338 | stored exactly if its idempotency key is new to the whole table |
| Storage.Database.SaveIncident | cortexheal/storage/postgres.py:340-365 | stored exactly if the run has none of this failure and detector version |
| Storage.Database.SaveAuditEvent | cortexheal/storage/postgres.py:402-412 | appended to the run's trail |
| Storage.Database.SaveRecoveryPlan | cortexheal/storage/postgres.py:414-436 | a known plan only changes its two status columns |
| Storage.Database.SaveRecoveryAction | cortexheal/storage/postgres.py:454-467 | every write of an action is kept in order, with all columns of its row |
| Tables.ActionUpsert | cortexheal/storage/postgres.py:454-467 | the row these writes leave under an id: the first one inserts it, each later one changes its status only |
| Storage.Database.SavePatternRecord | cortexheal/storage/postgres.py:547-564 | a known pattern takes the given count and keeps its framework; a new one is inserted |
| Tables.PatternUpsert | cortexheal/storage/postgres.py:547-564 | a known pattern keeps its framework whatever the saved row says |
| Storage.Database.SaveRecoveryOutcome | cortexheal/storage/postgres.py:578-591 | appended |
| Storage.Database.UpdateOutcomeVerification | cortexheal/storage/postgres.py:889-897 | all outcomes of the incident take the verdict, no other changes |
| Tables.LatestSeqAppend | cortexheal/storage/postgres.py:469-485 | storing an event never lowers the latest sequence number, and raises it to its own when that is largest |
| Tables.OrderOfIncreasing | cortexheal/storage/postgres.py:469-485 | events stored with growing numbers are read back in insertion order |
| Tables.OrderSorts | cortexheal/storage/postgres.py:469-485 | the ordered read is an ascending permutation of the stored events, whatever their numbers |
| Detectors.EvaluateStuckLoop | cortexheal/detection/stuck_loop.py:22-72 | the loop over the fetched window computes the detection function |
| Detectors.WindowCountsStreak | cortexheal/detection/stuck_loop.py:38-53 | the window count is the unbounded trailing streak of the signature, capped at the window |
| Detectors.StuckLoopRefinement | cortexheal/detection/stuck_loop.py:26-72 | it matches exactly on eligible events whose trailing streak is at least threshold - 1 |
| Detectors.StuckLoopExactly | cortexheal/detection/stuck_loop.py:22-55 | it matches exactly if it is enabled, the event completes a call of a named tool that is not ignored, and the last threshold - 1 completed calls exist and have its tool, arguments and response |
| Detectors.MatchReportsThreshold | cortexheal/detection/stuck_loop.py:55-70 | every match reports exactly the threshold |
| Detectors.ReportedRepetitions | cortexheal/detection/stuck_loop.py:55-70 | the reported number is the true streak exactly when the streak equals the threshold |
| Detectors.OverReportedLoop | cortexheal/detection/stuck_loop.py:48-70 | two stored calls are reported as three repetitions |
| Detectors.BudgetDetector.Evaluate | cortexheal/detection/budget.py:25-58 | accumulates costed events per run and matches from the limit on |
| Protection.Controller.RequestPause | cortexheal/protection/controller.py:31-60 | guards, compare-and-set and audit rows of a pause, and nothing else |
| Protection.Controller.HandleIncident | cortexheal/protection/controller.py:20-29 | pauses only under an enabled policy that lists the failure |
| Protection.Controller.Resume | cortexheal/protection/controller.py:70-97 | guards, compare-and-set and audit rows of a resume, booked on the newest open incident by default |
| Protection.PauseExactly | cortexheal/protection/controller.py:31-60 | in each status, whether a pause takes the run and which row it books |
| Protection.ResumeExactly | cortexheal/protection/controller.py:70-97 | in each status, whether a resume takes the run and which row it books; without an incident it is booked on the newest open one of the run, on none exactly if none is open |
| Protection.LangGraphGate | cortexheal/adapters/langgraph.py:145-159 | the node up to the interrupt, and whether it interrupts |
| Protection.LangGraphAfterInterrupt | cortexheal/adapters/langgraph.py:161-169 | the lines after the interrupt release a resumed run |
| Protection.AutoGenHook | cortexheal/adapters/autogen.py:19-57 | the hook pauses like the node and releases in the same call |
| Protection.GateExactly | cortexheal/adapters/langgraph.py:145-159 | a gate switches protection on and stops the agent exactly at a pause request, which it marks and books |
| Protection.ReleaseExactly | cortexheal/adapters/langgraph.py:161-169 | a resumed run, and no other, is set running, and that is booked |
| Collector.DetectionEngine.Evaluate | cortexheal/detection/engine.py:26-92 | both detectors in turn, dedup memory and incidents as specified |
| Collector.DetectionEngine.MarkRepeatedFailure | cortexheal/detection/engine.py:40-69 | the repeat branch: one verdict per resumed incident, a renewed pause if it has a plan |
| Collector.RuntimeCollector.Verify | cortexheal/runtime/collector.py:95-127 | completion after a resume verifies the resumed incident unless a verdict stands |
| VerdictEffects.VerdictsExactly | cortexheal/runtime/collector.py:87-127 | in every reachable state a delivery books a verification exactly if it completes the run, its last resume was about that incident and the incident has no verdict; and a failed recovery exactly if the event is new, matches again what was emitted, and the incident has not failed yet |
| VerdictEffects.VerdictsAreWritten | cortexheal/runtime/collector.py:119-127 | a verification marks the incident's newest plan and all its outcomes verified, a failed recovery marks them failed, and without either no plan and no outcome changes |
| VerdictEffects.FailurePausesAgain | cortexheal/detection/engine.py:52-69 | a failed recovery pauses the run again exactly if the incident has a plan, the run is protected and it is going |
| Collector.RuntimeCollector.BookEvent | cortexheal/runtime/collector.py:79-138 | the run row after an event, written before the duplicate check |
| Collector.RuntimeCollector.PublishIncidents | cortexheal/runtime/collector.py:150-158 | incidents are stored and handed to the controller in order |
| Interventions.PublishExactly | cortexheal/runtime/collector.py:152-154 | an emitted incident is stored unless there is one of its kind, and pauses its run exactly if the policy lists it and the run is protected and going |
| Collector.RuntimeCollector.SyncProcessEvent | cortexheal/runtime/collector.py:73-159 | the whole handler equals the specified step on database and memory |
| Recovery.Executor.ExecutePlan | cortexheal/recovery/executor.py:16-123 | status, staleness and policy checks in this order, then the actions, the verdict and the outcomes |
| PlanEffects.ApproveExecutes | cortexheal/recovery/executor.py:41-123 | an approval that goes through: every row it writes, from the run to the outcomes |
| PlanEffects.ApproveMarksStale | cortexheal/recovery/executor.py:24-35 | an open plan whose run has changed is marked stale, whoever approves it, and nothing else happens |
| PlanEffects.ApproveRefuses | cortexheal/recovery/executor.py:36-40 | a plan that is not open, a viewer's approval and an unknown action only add a row of refusal |
| Recovery.Executor.PerformActions | cortexheal/recovery/executor.py:55-90 | the loop runs each action and counts successes and resumes |
| Recovery.Executor.PerformAction | cortexheal/recovery/executor.py:57-89 | one action with its writes, audit row and resume |
| Recovery.Executor.LearnFrom | cortexheal/recovery/executor.py:98-121 | one outcome per action under the incident's pattern, none if something is missing |
| PlanEffects.LearnExactly | cortexheal/recovery/executor.py:98-121 | with incident, run and event stored, the trigger event's pattern is counted once more and gains one unverified outcome per action; otherwise nothing changes |
| PlanEffects.TriggerExactly | cortexheal/recovery/executor.py:101-101 | the event is the incident's own, else one of the largest sequence number, and missing exactly if there are none |
| PlanEffects.FingerprintExactly | cortexheal/learning/fingerprint.py:5-16 | the fingerprinted text; where no part holds the separator, two are equal exactly if framework, agent, failure, tool, arguments and response are |
| Recovery.GetOrCreatePattern | cortexheal/learning/pattern.py:8-27 | a known pattern is saved with one more occurrence, a new one with the first |
| Recovery.Executor.RejectPlan | cortexheal/recovery/executor.py:125-165 | only proposed or stale plans, only by an operator or admin |
| PlanEffects.DismissExactly | cortexheal/recovery/executor.py:125-165 | an operator or admin closes an open or stale plan, with its row and its outcomes; any other rejection changes nothing |
| Recovery.ApprovedPlansComplete | cortexheal/recovery/policy.py:51-61 | a plan that passes the policy has only actions that succeed, and completes if it was proposed and fresh |
| Recovery.RecoveryEngine.GeneratePlan | cortexheal/recovery/engine.py:28-146 | idempotency, history override, AI override, saving and automation |
| PlanEffects.AutomationExactly | cortexheal/recovery/policy.py:20-49 | without a settled plan the new one is completed and booked as automated exactly if the run exists, the failure is a stuck loop, the plan is of low risk and keeps paused or resumes, and the run has seen fewer automations than allowed and fewer than two failed recoveries; otherwise it stays proposed and a rejection is booked |
| PlanEffects.GenerationIsIdempotent | cortexheal/recovery/engine.py:28-32 | asking again, with whatever AI answer, changes nothing and returns the stored plan |
| PlanEffects.MockAutomatesFirst | cortexheal/recovery/ai_provider.py:13-63 | with the mock provider a run's first plan for a stuck loop is completed at once, with the run left as it is |
| Recovery.RecoveryEngine.DraftPlan | cortexheal/recovery/engine.py:34-135 | the proposed plan: its snapshot, its one action, and the planner and risk it is drafted under |
| PlanEffects.DraftExactly | cortexheal/recovery/engine.py:95-135 | an answer of the AI gives the risk, and the action if the executor knows it; otherwise history decides and the risk is low |
| PlanEffects.DraftFromHistory | cortexheal/recovery/engine.py:70-85 | without an answer the plan does what a trusted action does, among several the one with the most recent outcome, and stays paused if there is none |
| PlanEffects.DraftCountsPattern | cortexheal/recovery/engine.py:70-75 | drafting counts the trigger event's pattern once more and touches no outcome |
| Recovery.RecoveryEngine.ProposeAction | cortexheal/recovery/engine.py:41-93 | the default action, replaced by fully trusted history |
| Recovery.RecoveryEngine.Consult | cortexheal/recovery/engine.py:100-122 | the audit rows of an AI consultation that answers or fails |
| PlanEffects.ConsultExactly | cortexheal/recovery/policy.py:9-18 | which incidents are sent to the AI, and the rows of an answer and of a failure |
| Learning.CalculateTrust | cortexheal/learning/trust.py:6-48 | the two loops compute, per action, the filter-and-count of the outcomes |
| Learning.StandingExactly | cortexheal/learning/trust.py:26-42 | rate, trust, risk and level of an action in terms of its verified successes and failures |
| Learning.TrustIsOrderFree | cortexheal/learning/trust.py:12-42 | any order of the outcomes gives the same statistics |
| Learning.AttemptsSumToOccurrences | cortexheal/learning/trust.py:10-17 | the attempts of all actions add up to the number of outcomes |
| Learning.OutcomeMovesRate | cortexheal/learning/trust.py:19-30 | a verified failure never raises a rate, a verified success never lowers it, an unverified outcome leaves it |
| Learning.RankingOf | cortexheal/learning/ranking.py:17-52 | the loop and sort compute the ranking of the supported actions |
| Learning.RankedSorts | cortexheal/learning/ranking.py:51-52 | the ranking is a descending permutation |
| Learning.OverrideIsTrusted | cortexheal/recovery/engine.py:77-85 | history overrides exactly when some supported action has 3 verified outcomes, 4 in 5 successes and no better rival, and then with such an action |
| Learning.TrustedExactly | cortexheal/learning/ranking.py:17-52 | trust in whole numbers: carried by the framework, three verified outcomes, four in five of them successes, and no carried rival with a better rate |
| Learning.OverrideIsFirst | cortexheal/learning/ranking.py:51-52 | among trusted actions the one read first is taken: the sort is stable |
| Lifecycle.PlanLifecycle | cortexheal/recovery/executor.py:16-96 | in every reachable state only the newest plan of an incident can be open, and an action was started once if its plan completed and never otherwise |
| Lifecycle.PlanStatusesAdvance | cortexheal/recovery/executor.py:125-137 | plans keep place, id and actions, and statuses move along an acyclic order |
| Verdicts.RecoveryVerdicts | cortexheal/runtime/collector.py:95-127 | per incident at most one verification and one repeated failure, never the failure first, each after a resume of the run |
| Interventions.DedupMemory | cortexheal/detection/engine.py:38-71 | the engine's memory is exactly the keys of the incidents table, a part of them after restarts |
| Interventions.BoundedIntervention | cortexheal/protection/controller.py:20-60 | in one engine lifetime at most four successful pauses of a run: at most two incidents, and one repeat each |
| Restarts.InterventionPerLifetime | cortexheal/detection/engine.py:70-75 | over k engine lifetimes at most 2k incidents of a run are emitted, and it is successfully paused at most 4k times |
| Restarts.RestartsRearm | cortexheal/detection/engine.py:70-75 | a run that overspends once after each of n restarts, and is resumed each time, is paused n times |
| Gates.StopsArePauses | cortexheal/adapters/langgraph.py:145-159 | in every run of the system, each stop of an agent by either gate, and a request still waiting for one, is a successful pause of its own |
| Gates.StopsAreBounded | cortexheal/adapters/langgraph.py:145-159 | in one engine lifetime an agent is stopped at most four times |
| Gates.GatesStopAgainAfterPauses | cortexheal/adapters/langgraph.py:145-159 | after a stop every gate call lets the agent through until the run is successfully paused again |
| Staleness.StepAdvances | cortexheal/protection/controller.py:57-60 | without a new event a status only moves away from a pause request |
| Staleness.FreshMeansUntouched | cortexheal/recovery/executor.py:24-35 | a plan fresh before and after some steps was fresh, and its run in the snapshot status, at every point between |
| Staleness.StalenessCheckIsSound | cortexheal/recovery/engine.py:37-39 | a generated plan that passes the later check finds a run that never left its snapshot status |
| Staleness.TerminalSnapshotsCanFlip | cortexheal/recovery/executor.py:24-35 | for every snapshot of a run that is over, either way, the check has the hole: redelivered final events take the run to its other end and back |
| Limits.TerminalHoleIsReachable | cortexheal/recovery/executor.py:24-35 | a legal, ordered run from the empty database that ends in that hole, for either end |
| Limits.OverlappingApprovals | cortexheal/server/api.py:648-653 | two approvals that loaded the same open plan run its action twice, except exactly when it resumes a held run: then the second marks the completed plan stale |
| Automation.AutomationIsBounded | cortexheal/recovery/policy.py:20-49 | with any AI answers, at most the configured number of automated recoveries per run, all on its stuck loops |
| Automation.AutomatedPlansComplete | cortexheal/recovery/engine.py:139-142 | an automated plan passes the executor's checks and completes in the same call |
| Automation.BudgetIsNeverAutomated | cortexheal/recovery/policy.py:28-29 | a plan for a budget incident stays proposed, and making it changes no run and books no automation |
| Automation.MockKeepsPaused | cortexheal/recovery/ai_provider.py:13-63 | with the mock provider every detected incident's plan is exactly to stay paused, and making it changes no run |
| Accounting.IncidentsAreFirstMatches | cortexheal/runtime/collector.py:132-158 | a run has an incident exactly if some stored event satisfied the detector; it records the first such event, what was observed there, and the severity and threshold of its kind |
| Accounting.IncidentsExactly | cortexheal/detection/engine.py:34-92 | over one engine lifetime a run has a stuck-loop incident exactly if some event completed such a row of calls, and a budget incident exactly if some event with a cost found the costs so far at the limit |
| RunRows.RowsAccountForEvents | cortexheal/runtime/collector.py:79-138 | over any run of the system: a run has a row exactly if an event of it was delivered, with the tokens of all deliveries, the end of the last final one, and protection exactly if its first event came from a framework with a gate or a gate has run since |
| Accounting.CostAccounting | cortexheal/detection/budget.py:25-58 | the detector's sum is the cost of the stored events, and the run total exceeds it by exactly the delivered duplicates |
| Accounting.BudgetKeepsMatching | cortexheal/detection/budget.py:40-58 | after the limit exactly the events with a cost of zero or more match |
| Accounting.LoopFiresOnStreak | cortexheal/runtime/collector.py:143-150 | with growing numbers a stored event fires exactly if it completes threshold - 1 calls in a row that agree in tool, arguments and response |
| NonInterference.RunsDoNotInterfere | cortexheal/runtime/collector.py:73-159 | for any interleaving of steps about many runs, their plan requests included, a run's row, events, incidents, audits, plans and detector memory are what its own steps and the restarts alone leave, if the AI decides its plans |
| NonInterference.HistoryInterferes | cortexheal/recovery/engine.py:41-93 | without an AI answer it fails: outcomes of another run under the same pattern turn the plan from staying paused to resuming |
| NonInterference.DeliveryStores | cortexheal/storage/postgres.py:306-338 | a delivery stores its event exactly if the key is new |
| NonInterference.SharedKeyInterferes | cortexheal/storage/postgres.py:306-338 | a key used by another run makes an event disappear that would have been stored |
| Interleaving.UninterruptedBooking | cortexheal/runtime/collector.py:79-138 | the separate statements in sequence write the row of the whole handler |
| Interleaving.UninterruptedPause | cortexheal/protection/controller.py:37-60 | the separate statements in sequence leave the whole database as the whole pause does |
| Interleaving.UninterruptedResume | cortexheal/protection/controller.py:70-97 | and so for the resume |
| Interleaving.UninterruptedGate | cortexheal/adapters/autogen.py:32-52 | and a gate whose read and write are not separated takes the status where the hook does |
| Interleaving.PauseHoldsUntilResume | cortexheal/protection/controller.py:53-97 | with one collector, any operators and whole gates, from a pause to the next resume the status is safe, and two pauses have a resume between them |
| Interleaving.PauseSurvivesStaleWriters | cortexheal/storage/postgres.py:294-297 | with any number of stale collectors and split gates a pause is never undone before the first resume |
| Interleaving.WriteLiftsPauseExactly | cortexheal/runtime/collector.py:79-138 | a collector's write lifts a standing pause exactly if its event ends the run or its snapshot shows a resume or an end |
| Interleaving.StaleResumeErasesPause | cortexheal/runtime/collector.py:79-138 | a second collector's stale snapshot erases a pause, which is then made again |
| Interleaving.SplitGateErasesPause | cortexheal/adapters/langgraph.py:161-169 | a gate that read before the pause and writes after it does the same |
| AuditOrder.TrailIsFaithfulExactly | cortexheal/protection/controller.py:57-97 | for any collectors, operators and gates the audit trail lists pauses and resumes in the order they took effect exactly if no row overtakes the row of an earlier one; with one collector its pauses then alternate with resumes |
| AuditOrder.SerialIsOrderly | cortexheal/protection/controller.py:57-97 | it does if nothing takes effect while somebody owes a row |
| AuditOrder.OverlapCanBeFaithful | cortexheal/protection/controller.py:57-97 | but also in runs where something does |
| AuditOrder.OvertakenPauseRow | cortexheal/protection/controller.py:57-60 | a resume that overtakes the row of a pause leaves two pauses in a row in the trail |
| AuditOrder.OvertakenResumeRow | cortexheal/protection/controller.py:94-97 | a pause that overtakes the row of a resume does so too |
| Json.RoundTrip | cortexheal/runtime/hashing.py:14-21 | reading inverts the printed text, whatever follows |
| Json.CharRoundTrip | cortexheal/runtime/hashing.py:20-21 | every character survives the ASCII escapes, surrogate pairs included |
| Json.PrintInjective | cortexheal/runtime/hashing.py:14-21 | different values print differently |
| Json.EscapesExactly | cortexheal/runtime/hashing.py:20-21 | how every character is printed: itself, one of seven short escapes, or UTF-16 units in four lower-case digits |
| Hashing.SortedUnique | cortexheal/runtime/hashing.py:5-12 | a set of members has one sorted order |
| Hashing.CanonIdempotent | cortexheal/runtime/hashing.py:5-21 | sorting again while printing changes nothing |
| Hashing.SerializeDecodes | cortexheal/runtime/hashing.py:14-21 | the text decodes to a value equal up to the order of keys |
| Hashing.SerializeSortsKeys | cortexheal/runtime/hashing.py:5-21 | in what the text decodes to, each key of every object precedes the later ones character by character |
| Hashing.SerializedEqualExactly | cortexheal/runtime/hashing.py:14-21 | texts are equal exactly if the values differ only in the order of keys |
| Hashing.HashesEqualExactly | cortexheal/runtime/hashing.py:23-35 | hashes are equal exactly if so are the values up to key order, or both are an empty object, list or string |
| Hashing.HashExactly | cortexheal/runtime/hashing.py:28-35 | null and the three empty values have their fixed hashes, everything else the digest of its text |
| RateLimiter.Limiter.RateLimit | cortexheal/server/api.py:146-165 | prunes, then crashes, refuses with a hint, or lets in and remembers |
| RateLimiter.RemembersRecent | cortexheal/server/api.py:149-153 | what is remembered at a call is what was let in during the last minute |
| RateLimiter.AdmitsBySlidingWindow | cortexheal/server/api.py:155-165 | let in exactly if fewer than the limit were let in during the minute up to the call |
| RateLimiter.AtMostLimitPerMinute | cortexheal/server/api.py:146-165 | no minute, however placed, holds more than the limit |
| RateLimiter.NonPositiveLimitCrashes | cortexheal/server/api.py:155-158 | without a positive limit every request fails on the empty list |
| RateLimiter.RetryAfterInRange | cortexheal/server/api.py:157-163 | the hint lies in 1 to 60 and the oldest request is in the window |
| RateLimiter.RetryAdmittedExactly | cortexheal/server/api.py:146-165 | a refused client is let in again exactly from a minute after its oldest request on |
| RateLimiter.RetryAfterSuffices | cortexheal/server/api.py:157-163 | one second more than the hint always suffices |
| RateLimiter.RetryAfterExactness | cortexheal/server/api.py:158-158 | exactly the hint suffices exactly if the wait is whole or at most one second |
| RateLimiter.RetryAfterCanFallShort | cortexheal/server/api.py:158-158 | a concrete client that waits as told and is refused |
| ApiKeyCache.KeyStore.SaveApiKey | cortexheal/storage/postgres.py:613-629 | upsert by id, unique hash, cache filled after a successful write |
| ApiKeyCache.KeyStore.GetApiKeyByHash | cortexheal/storage/postgres.py:631-648 | a young cache entry or the row, which is then cached |
| ApiKeyCache.KeyStore.RevokeApiKey | cortexheal/storage/postgres.py:666-681 | revokes the organisation's live key, clears the cache, and says whether there was one |
| ApiKeyCache.RevokeExactly | cortexheal/storage/postgres.py:666-681 | the organisation's live key of that id is revoked, every other row stays, and nothing stays cached |
| ApiKeyCache.UseExactly | cortexheal/storage/postgres.py:683-698 | recording a use touches the time of that key alone |
| ApiKeyCache.UpsertReadsBack | cortexheal/storage/postgres.py:613-626 | a faithful save reads back as written and leaves other hashes alone |
| ApiKeyCache.SequentialLookupsAreLive | cortexheal/storage/postgres.py:631-681 | one call after another, a lookup agrees with the table on existence and on everything but the last use |
| ApiKeyCache.UnfaithfulSaveIsServed | cortexheal/storage/postgres.py:613-629 | saving a known id under a hash nobody has makes a lookup find a key the table does not have |
| ApiKeyCache.UninterruptedLookUp | cortexheal/storage/postgres.py:631-648 | the separate statements in sequence are the whole lookup |
| ApiKeyCache.AnswersAreRecent | cortexheal/storage/postgres.py:631-648 | under any interleaving the answer is the table's at some instant later than 30 seconds before the lookup's time |
| ApiKeyCache.RevokedKeysExpire | cortexheal/storage/postgres.py:666-681 | 30 seconds after a revocation the key is only returned as revoked |
| ApiKeyCache.RevokedKeyCanBeServed | cortexheal/storage/postgres.py:631-681 | that bound is exact: at any instant before it a racing fill can serve the key as live |
| Escalation.AlertDispatcher.CheckAndDispatchEscalations | cortexheal/alerting/dispatcher.py:197-240 | the nested loops write and return exactly the due escalations, each with its audit row |
| Escalation.AlertDispatcher.DispatchAlertToConfig | cortexheal/alerting/dispatcher.py:102-166 | one notification record for the incident and the webhook's URL, and one audit row that says whether the target answered |
| Escalation.AlertDispatcher.EscalateIncident | cortexheal/alerting/dispatcher.py:203-238 | one incident is escalated to exactly the due webhooks whose URL has none yet |
| Escalation.EachIsAnnounced | cortexheal/alerting/dispatcher.py:153-166 | a run's trail gains one row per notification about it, in their order |
| Escalation.PollCounts | cortexheal/alerting/dispatcher.py:223-238 | one poll adds as many escalations to a URL as there are due webhooks with it, and none if there was one |
| Escalation.EscalatesOnce | cortexheal/alerting/dispatcher.py:223-238 | with distinct URLs, over any polls at most one escalation per incident and URL |
| Escalation.PollIsComplete | cortexheal/alerting/dispatcher.py:203-238 | after a poll every due incident and active webhook has its escalation |
| Escalation.EscalationsAreDue | cortexheal/alerting/dispatcher.py:232-238 | every escalation was written by a poll that found its incident open, of high severity and past the timeout of an active webhook with that URL, and records whether that answered |
| Escalation.SharedUrlEscalatesTwice | cortexheal/alerting/dispatcher.py:226-238 | two webhooks with one URL get two |
| EventQueue.Intake.IngestEvent | cortexheal/runtime/collector.py:41-52 | counted, then queued or dropped if the queue is full |
| EventQueue.IngestExactly | cortexheal/runtime/collector.py:41-52 | an arriving event is counted, and dropped exactly if the queue holds its capacity |
| EventQueue.Intake.ProcessQueue | cortexheal/runtime/collector.py:54-71 | the worker's rounds take events in order and count how they ended |
| EventQueue.UninterruptedIngest | cortexheal/runtime/collector.py:41-52 | the separate statements in sequence are the whole call |
| EventQueue.UninterruptedWork | cortexheal/runtime/collector.py:54-71 | likewise for a round of the worker |
| EventQueue.EventsAreConserved | cortexheal/runtime/collector.py:41-71 | under any interleaving each arrived event is in exactly one place, the counters add up, and the worker's two tell how its rounds ended |
| EventQueue.QueueIsBoundedFifo | cortexheal/runtime/collector.py:34-71 | the capacity holds, an unbounded queue drops nothing, and events leave in the order of acceptance, none skipped |

## Left out

- NonInterference.RunsDoNotInterfere: the run's own plan requests are ones that the AI decides; `HistoryInterferes` shows why.
- Interleaving.PauseHoldsUntilResume: one collector and whole gates; `StaleResumeErasesPause` and `SplitGateErasesPause` show that it needs both.
- Interventions.BoundedIntervention: one engine lifetime; `Restarts` gives the bound for more of them.
- Lifecycle.PlanLifecycle: approvals and rejections are atomic; loading and executing a plan are apart in `Limits.OverlappingApprovals` only.
- ApiKeyCache.AnswersAreRecent: `save_api_key` is one statement, and only the owner of an id and hash is saved under them; `UnfaithfulSaveIsServed` shows why.
- Escalation.EscalatesOnce: pollers do not overlap; two at once could both miss the other's record.
- Json.RoundTrip: numbers are kept as the text they print as (NaN and infinities excluded), keys are strings, and strings are Unicode scalar values.
- Hashing.HashesEqualExactly: SHA-256 is represented by its input, which makes it injective.
- PlanEffects.ApproveExecutes: plans of one action, which is what every saved plan has (`Lifecycle.PlanLifecycle`).
- PlanEffects.FingerprintExactly: a text that holds the separator can make different incidents share a pattern.
- Learning.OverrideIsTrusted: rates are exact reals, so a rate that floating point rounds across 0.8 is not modelled.
- Accounting.CostAccounting: costs are exact reals.
- Database failures and the branches that swallow exceptions (a failing detector, controller or gate, the DEGRADED mode they set); only the queue's processed and failed counters remain of them, and the negative LIMIT of a threshold below one.
- PostgreSQL itself: pooling, migrations, JSON columns, a clash of event ids; tables are grouped by the column their queries filter on.
- Timestamps: audit rows, plans and incidents are ordered by insertion, and events with equal sequence numbers too.
- Generated ids come with the steps as parameters, new where the source draws a uuid.
- Actors and reasons of audit rows, and descriptions, evidence and diagnoses of incidents and plans.
- The action statuses inside a saved plan's JSON; action rows are modelled by their writes.
- LangGraph's interrupt and checkpointing: a gate may stop, start over or go on after the interrupt at any time.
- `RESUMED_RUNS`, which no decision reads, the outcome predictor and the real AI provider, whose answer is an arbitrary parameter.
- An incident's trigger time that parses without a time zone, which makes the poll fail.
- Which incidents get an initial alert: an alert's audit row comes with any incident of the run at any time, but not with the ones a restarted engine emits again and the table refuses.
- Payloads and HTTP delivery; whether a target answers is an arbitrary parameter.
- An operator reads incidents and row of a run in one statement when deciding to resume it.
- Worker shutdown, metrics, server-sent events, REST routes and their tenant filters, the audit export, the MCP server, the CLI and the web interface.
- The last-used throttle of API keys; the column changes at any time.
