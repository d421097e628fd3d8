# EagleEye: a verified model of its stateful core

EagleEye guides a person through test scenarios while watching telemetry, decides with a quality gate, and can repair
a failing project within tight bounds. This project models the parts of it that carry state or must be
transactional, and proves what they keep over every input and every run:

- **Guided sessions** (`Guided*.dfy`, `Percentiles.dfy`, `Session*.dfy`). A ten-status session machine coupled to a
  seven-status step machine, driven by eight controls, human verdicts, single and batched observations and timer
  refreshes. `GuidedSteps` and `GuidedTransitions` say what each transition does; `GuidedStepLaws`,
  `GuidedTelemetryLaws`, `GuidedRuns`, `GuidedEvolution` and `GuidedLedger` prove what every transition and so every
  run keeps; `GuidedOutcomes` and `GuidedAnswers` say, on samples, statuses and readings only, exactly what every
  observation, look, timeout, verdict and control does; `GuidedTheorems`, `GuidedAdmission`, `GuidedRetests` and
  `GuidedGate` state the guarantees. `GuidedObjects` and `GuidedService` hold the same operations as the service has them, records changed field by field, each method
  proved against its transition function. `SessionTable` and `SessionHistory` add the stored rows and several
  processes working on them; `SessionEdits` and `SessionTheorems` carry the guarantees over to what those commit.
- **Quality gate** (`QualityGate.dfy`), with Python's rounding written out.
- **Bounded self-repair** (`Repair*.dfy`). Locating and splicing exact replacements, preparing a plan within limits,
  writing it into a worktree that can fail at any write, verification by commands that may do anything, rollback, the
  attempt loop, and the one-use attestation that permits writing.
- **App Server client** (`Rpc*.dfy`). Callers, readers, timeouts, process death and restart as interleaved lock
  regions on the client object, and the bookkeeping of structured turns.
- **URL audit** (`UrlAudit.dfy`) and **runtime backup** (`ArchivePaths.dfy`, `RuntimeBackup.dfy`, `ArchiveChecks.dfy`).

Check it with `dafny verify dfyconfig.toml --resource-limit 2000000 --verification-time-limit 0`.

## Conventions

- Clock readings are parameters. A transition that reads the clock several times takes several readings (`Ticks`:
  when the observation is accepted, when the oracle is checked, when the time limit is checked, when the step is
  finished); over a run they never step back. With several processes the readings of a save follow those of the saves
  it builds on. Latencies are integer microseconds.
- A telemetry predicate is a name; an observation says which names hold on it. Lookup of dotted paths and comparison
  are not modelled.
- Fields that no transition reads keep logs for the theorems: the consumed samples with the unpaused time at which
  they arrived, the unpaused stretches of a step, the evidence of retried attempts, the trees at which attempt records
  were written, and the bodies from which saved sessions were computed.
- SHA-256 is taken to be injective, so a digest stands for what it was computed from. JSON, UTF-8, line diffs, URL
  parsing and SQLite snapshots are function parameters.
- What the network, git, the file system, a planner or a verification command does is a parameter too: every theorem
  is about all of it.

## Where the code differs from what one would expect

- FAILED, BLOCKED and ABORTED sessions can be reopened: retry looks only at the step, and next can leave ABORTED.
  `TerminalReopensExactly` says when; only COMPLETED is absorbing (`CompletedAbsorbs`). Reopening needs no human, so a
  session that was aborted before its approval can wait READY without ever having been approved
  (`UnapprovedSessionBecomesReady`).
- A prepared session can move on without approval, by blocking its pending step or aborting it
  (`LeavesPreparedExactly`).
- A retest is inserted before the session that prepared it is saved. Two processes that close one revision insert two;
  the save that is refused leaves its retest in the table as an orphan (`RetestIsLinkedIff`, `SecondRetestIsOrphan`).
- The pass-rate test works on a rounded percentage, so large suites slightly below the stated rate pass
  (`RoundedRateAccepts`, `RoundedRateAgrees`, `RoundedRateTooLenient`).
- "Must match once" is decided by a non-overlapping count, which allows old texts that occur twice exactly when they
  have a border (`CountedOnceMeansUniqueIff`). A plan may be accepted although its replacements cancel out
  (`AcceptedEditMayChangeNothing`); it can then not be applied, because git reports no change.
- An APPLIED record is appended before its audit is stored, inside the same error handler. If storing fails, the
  changes are rolled back and a second record of the same attempt follows. The first one is then false after every
  verified rollback, and still true exactly when the rollback is unverified and left the recorded files and the visible
  tree as they were (`OverruledRecordStandsIff`, with `OverruledRecordExists` and `SurvivingRecordExists` for each
  case). The response status ROLLED_BACK means that some attempt rolled back; only a verified rollback in the last
  record vouches for a clean worktree (`VerifiedRollbackMeans`).
- Output of a verification command that cannot be decoded as text raises an error that no handler of `execute` takes.
  The planned files then stay written, without rollback and without a record; it is the outcome `Raised(Decode)`, and
  `RunAttempt` and `Attempt` say exactly when it occurs.
- Rollback catches only operating-system errors. A target that became a link, or a failing git call after the rollback,
  escapes `execute` as a policy error; it is the outcome `Raised`.
- A presented attestation is used up as soon as it is recognized, also when another check then refuses the request.
- A same-origin icon link that the URL normalizer refuses ends the audit with an error.
- A backup opens its archive before it walks the allowed roots. Placed in scope under one of them, the archive packs a
  part of itself; `CreateBackup` takes that place and the bytes found there as parameters, and `WantedAtWalk` says what
  it changes.
- A file is packed as an SQLite snapshot if the suffix of its name is ".sqlite3". A name that is nothing but this has
  no suffix, so a file called ".sqlite3" is packed as raw bytes.

## Model

| member | source | states |
|---|---|---|
| GuidedTheorems.PassedStepMetContract | app/guided_service.py:602-822 | A passed hybrid or telemetry step met its whole contract over everything it consumed: required, exact and maximum event counts, no forbidden event, drops and p95 in bounds, and the oracle still held at its duration, under every interleaving. |
| GuidedTheorems.AwaitingStepMeetsContract | app/guided_service.py:628-733 | While a verdict is awaited the oracle holds at the latest reading, whatever was consumed after it was satisfied. |
| GuidedTelemetryLaws.OracleStable | app/guided_service.py:653-683 | An observation that is no violation cannot make a satisfied oracle unsatisfied; later unpaused time does not either. |
| GuidedTheorems.SettleWindowWasQuiet | app/guided_service.py:556-572 | The settle window keeps its length through every pause and reset, and when it closes, a full window of unpaused time has passed since the last mismatch or constrained event. |
| GuidedTelemetryLaws.JudgeKeepsSettle | app/guided_service.py:684-706 | A disturbing observation closes an open window, so what stays open has been quiet since it opened. |
| GuidedTelemetryLaws.AdvanceKeeps | app/guided_service.py:708-733 | Opening, resetting and closing the window keep every law of a step. |
| GuidedTelemetryLaws.AdvanceUnchanged | app/guided_service.py:708-733 | A look at the window that reports no change has changed nothing, so a refresh that does not save loses nothing. |
| GuidedTelemetryLaws.ConsumeKeeps | app/guided_service.py:628-706 | Consuming an observation keeps every law of a step on all of its exits. |
| GuidedTelemetryLaws.CompleteKeeps | app/guided_service.py:735-767 | Completing the telemetry phase passes the step only with the evidence its kind demands and otherwise awaits a verdict. |
| GuidedTelemetryLaws.SubmitVerdictKeeps | app/guided_service.py:205-284 | A submitted verdict keeps every law of a step, on each outcome. |
| GuidedTheorems.CountersAreFolds | app/guided_service.py:602-706 | Ids, counts, drop delta, runs of matches, latency samples and p95 of every step equal their recomputation from the consumed samples; while it is open, matches and mismatches add up to observations. |
| GuidedStepLaws.AbsorbKeepsFold | app/guided_service.py:641-652 | Counting one more observation keeps all counters equal to their recomputation. |
| GuidedStepLaws.JudgeKeepsFold | app/guided_service.py:684-691 | Judging one more observation keeps match counts, the current run and the longest run equal to their recomputation. |
| GuidedStepLaws.JudgedSamplesSplit | app/guided_service.py:684-691 | Once every sample is judged, each is a match or a mismatch. |
| Percentiles.P95IsOrderStatistic | app/guided_service.py:1205-1210 | The reported p95 is a sample with at most its rank below it and more than its rank up to it; the rank is the whole number nearest to 95 percent of the last index. |
| Percentiles.P95BoundCoversSamples | app/guided_service.py:1205-1210 | Respecting a p95 bound means that nineteen twentieths of the samples, up to rounding, respect it. |
| GuidedTheorems.StatusesStayCoupled | app/guided_service.py:485-600 | RUNNING, PAUSED and AWAITING_FEEDBACK hold exactly with the current step's status, STEP_COMPLETE never on the last step, steps before the index are terminal, and a terminal session has only terminal steps. |
| GuidedRuns.FinalizeDecides | app/guided_service.py:963-974 | On terminal steps finalization is decided by its first three branches; the fallback is never what decides. |
| GuidedRuns.PerformKeeps | app/guided_service.py:171-203 | Every accepted control keeps the session invariant. |
| GuidedRuns.FeedbackKeeps | app/guided_service.py:205-284 | Every verdict keeps the session invariant. |
| GuidedRuns.AcceptKeeps | app/guided_service.py:602-626 | Every accepted observation keeps the session invariant. |
| GuidedRuns.RefreshKeeps | app/guided_service.py:459-479 | A refresh, with its settle window or time limit, keeps the session invariant. |
| GuidedRuns.ObserveBatchKeeps | app/guided_service.py:308-356 | A batch with deferred completion keeps the session invariant. |
| GuidedRuns.RunKeeps | app/guided_service.py:171-356 | Every run of public calls keeps the session invariant. |
| GuidedOutcomes.SatisfiedIff | app/guided_service.py:800-822 | The counters say that the oracle is satisfied exactly when the samples do: enough of them, time, matches, a matching end of the log, every event count, drops and p95. |
| GuidedOutcomes.ConsumeOutcome | app/guided_service.py:628-706 | On the consumed samples: an observation fails an open step exactly for a forbidden event, an exceeded exact or maximum count, drops past the limit, a p95 past its bound once enough samples are in, or, while ACTIVE, too many mismatches, with the codes of the first of these; otherwise it closes an unsettled window and, unless deferred, looks at the window: a contract that holds through a full quiet window leaves ACTIVE, and no other does. |
| GuidedOutcomes.TimeoutOutcome | app/guided_service.py:858-895 | A step out of time is BLOCKED if it consumed nothing and otherwise FAILED with exactly the codes of what its samples and window lack. |
| GuidedAnswers.ObservationAnswer | app/guided_service.py:602-626 | An accepted observation is noted on any session and consumed exactly by an open step with a contract, with the outcome above; the session's status follows its step, to the final one with its retest if it was the last. |
| GuidedAnswers.RefreshAnswer | app/guided_service.py:459-479 | A refresh looks at the window and saves exactly if that changes something, else times an active step out exactly when it is not manual and its unpaused time has reached the limit, else changes nothing. |
| GuidedAnswers.EndBatchAnswer | app/guided_service.py:338-341 | After a batch the window of an active step is looked at once, with everything counted. |
| GuidedAnswers.FeedbackAnswer | app/guided_service.py:205-284 | A verdict is refused without the attestation or when the step does not take it; a failed one ends the step FAILED under its reporter's code, a blocked one BLOCKED, a passed one PASSED if the step is manual or awaits feedback and otherwise leaves it ACTIVE; evidence class and session status are said too. |
| GuidedAnswers.PerformAnswer | app/guided_service.py:485-600 | Each of the eight controls is refused, and with which error, exactly as a table on session and step status and confirmed conditions says, and otherwise does what is said of it field by field. |
| GuidedAnswers.ControlAnswer | app/guided_service.py:171-203 | A control asks for the attestation exactly for the five actions of a person, then for the expected revision, then for the table; an accepted one is saved with the revision raised by two. |
| GuidedAnswers.ObserveAnswer | app/guided_service.py:286-306 | A report changes nothing before the start, after the end or when repeated; any other is stored, noted, consumed as said above and saved. |
| GuidedAnswers.BatchAnswer | app/guided_service.py:308-356 | The receipt counts the new and the repeated observations among those looked at, all of them unless they close the session; a batch without new ones saves nothing. |
| GuidedAnswers.ClosedSessionHasRetest | app/guided_service.py:963-995 | Over every run a closed session in which a step failed or was blocked has a retest. |
| GuidedTheorems.PassesAreJustified | app/guided_service.py:205-284 | A passed step has an admitted passing verdict (manual), satisfied telemetry and no verdict (telemetry only), or both. |
| GuidedTheorems.StartedStepsWereConfirmed | app/guided_service.py:493-506 | Over every run a step that was ever started has all its required conditions confirmed, and a step that is active, paused, awaiting feedback or passed was started. |
| GuidedTheorems.VerdictsDecideTheirStep | app/guided_service.py:239-260 | Over every run a step with a failed or blocked verdict has that status, under the code of whoever reported it. |
| GuidedEvolution.RunEvolves | app/guided_service.py:524-543 | Over every run a passed step keeps its whole record, a verdict stands for the rest of its attempt, and consumed samples are only added to. |
| GuidedStepLaws.ElapsedFrozenByPause | app/guided_service.py:545-572 | Elapsed time stands still from pause to resume and is the same right after resuming. |
| GuidedStepLaws.ElapsedRunning | app/guided_service.py:1145-1150 | Elapsed time is the total of the unpaused stretches, so the clip at zero never acts. |
| GuidedStepLaws.LedgerFinish | app/guided_service.py:907-913 | Finishing, also from a pause, records the total of the unpaused stretches as the duration. |
| GuidedTheorems.DurationIsUnpausedTime | app/guided_service.py:907-913 | In every reachable session the duration of a finished step is the total length of its unpaused, consecutive stretches. |
| GuidedTheorems.CompletedAbsorbs | app/guided_service.py:508-543 | No call changes a COMPLETED session except its revision. |
| GuidedAdmission.TerminalReopensExactly | app/guided_service.py:508-543 | A call, refresh included, leads from a sound terminal session to an open one exactly when it passes the checks before a control and retries a current step that did not pass or moves on from a step that is not the last. |
| GuidedAdmission.UnapprovedSessionBecomesReady | app/guided_service.py:524-600 | For every plan, an attested abort of a prepared session followed by a retry without any token reaches READY with no approval recorded. |
| GuidedAdmission.LeavesPreparedExactly | app/guided_service.py:485-600 | Over every run: while prepared a session is exactly as it was opened; it has an approval exactly when some attested call approved it while prepared; it moved on without one exactly when some attested call blocked or aborted it while prepared. |
| GuidedAdmission.HumanActionsNeedToken | app/guided_service.py:171-213 | A verdict, approve, activate, resume, block or abort without the stored attestation does nothing beyond the refresh. |
| GuidedAdmission.NothingMovesWithoutToken | app/guided_service.py:171-356 | Over every run in which no call that needs a human carries a token issued for the session, at its start or by the runner page, the session stays exactly as it was opened, whatever else is called, reported or timed out. |
| GuidedAdmission.RunClosesToken | app/guided_service.py:997-1022 | A terminal session never holds an attestation. |
| GuidedTheorems.ObservationsConsumedOnce | app/guided_storage.py:237-254 | Over every run of one process no observation is consumed twice, counting all steps, batches and retried attempts. |
| GuidedLedger.BatchOnce | app/guided_service.py:308-356 | A batch consumes each stored observation at most once, whatever duplicates it brings. |
| GuidedLedger.PerformUses | app/guided_service.py:524-543 | Controls consume nothing; a retry sets exactly the ids of its attempt aside. |
| GuidedService.IngestStops | app/guided_service.py:330-337 | Once a batch has closed the session, its remaining observations are not looked at. |
| GuidedRetests.RetestHoldsExactly | app/guided_service.py:976-985 | There is one increasing list of exactly the positions of failed and blocked results, and the automatic retest holds the steps at these positions in that order. |
| GuidedRetests.OneRetestOnly | app/guided_service.py:976-979 | A call on a session that holds a retest link keeps that link and inserts no session. |
| GuidedRetests.StartMeans | app/guided_service.py:123-156 | Starting a session is refused for exactly the stated reasons, in the order of the checks, and otherwise opens a prepared session for the chosen steps, one attempt after its parent. |
| GuidedRetests.ChildIsOpened | app/guided_service.py:976-995 | The automatic retest is opened for exactly the ids of the failed and blocked steps, with the session as parent, one attempt later. |
| GuidedRetests.StartKeeps | app/guided_service.py:123-156 | A started session has its parent one attempt earlier, and the parent has all its steps. |
| GuidedRetests.ServiceRunKeeps | app/guided_service.py:123-356 | Over runs that start, refresh and change many sessions every session and every link stays sound. |
| GuidedRetests.ChainsAreFinite | app/guided_service.py:138-156 | Along a parent chain the attempt falls by one each time, so no session repeats, and earlier sessions hold all later steps. |
| GuidedObjects.StepRecord.Close | app/guided_service.py:907-926 | Closes a record in place with the outcome, duration, codes and evidence class of the transition function. |
| GuidedObjects.StepRecord.Count | app/guided_service.py:641-652 | Updates the counters in place as the transition function does. |
| GuidedObjects.StepRecord.Match | app/guided_service.py:684-700 | Updates matches, runs and the settle window in place as the transition function does. |
| GuidedObjects.SessionRecord.FinishStep | app/guided_service.py:897-961 | Finishes the current step in place; the last one concludes the session. |
| GuidedObjects.SessionRecord.Conclude | app/guided_service.py:963-974 | Decides the final status and prepares the retest. |
| GuidedObjects.SessionRecord.RetryList | app/guided_service.py:976-977 | The loop collects the ids to retest in order. |
| GuidedObjects.SessionRecord.Approve | app/guided_service.py:485-491 | Approves in place, or refuses and changes nothing. |
| GuidedObjects.SessionRecord.Activate | app/guided_service.py:493-506 | Activates the current step in place, or refuses with the error of the failing check; when it refuses and what it starts is stated by PerformAnswer and StartedStepsWereConfirmed. |
| GuidedObjects.SessionRecord.Next | app/guided_service.py:508-522 | Moves on, finalizes on the last step, or refuses. |
| GuidedObjects.SessionRecord.Retry | app/guided_service.py:524-543 | Replaces the failed record by a fresh one of the next attempt, or refuses. |
| GuidedObjects.SessionRecord.Pause | app/guided_service.py:545-554 | Pauses in place, or refuses. |
| GuidedObjects.SessionRecord.Resume | app/guided_service.py:556-572 | Resumes in place and shifts the settle window, or refuses. |
| GuidedObjects.SessionRecord.Block | app/guided_service.py:574-585 | Blocks an open step in place, or refuses. |
| GuidedObjects.SessionRecord.Abort | app/guided_service.py:587-600 | The loop blocks every open step in place; or refuses. |
| GuidedObjects.SessionRecord.CompleteTelemetry | app/guided_service.py:735-767 | Passes the step or awaits the verdict, in place. |
| GuidedObjects.SessionRecord.AdvanceSettleWindow | app/guided_service.py:708-733 | Advances the window in place and reports whether anything changed. |
| GuidedObjects.SessionRecord.ConsumeTelemetry | app/guided_service.py:628-706 | Consumes an observation in place with the result of the transition function, whose outcome on the samples is ConsumeOutcome. |
| GuidedObjects.SessionRecord.Accept | app/guided_service.py:602-626 | Notes the time of arrival and consumes only on an open step with an oracle. |
| GuidedObjects.SessionRecord.EndBatch | app/guided_service.py:338-341 | Looks at the settle window once after a batch. |
| GuidedObjects.SessionRecord.TimeOut | app/guided_service.py:858-895 | Times a step out: blocked without telemetry, otherwise failed with the codes of what was missing. |
| GuidedObjects.SessionRecord.Feedback | app/guided_service.py:205-284 | Records an admitted verdict in place and lets it decide the step, or refuses; FeedbackAnswer says when and how. |
| GuidedService.Service.RefreshRow | app/guided_service.py:459-479 | Settle window first, then the time limit; saves only a change. |
| GuidedService.Service.Control | app/guided_service.py:171-203 | Load, refresh, checks, action and save, or a refusal after the refresh; the answer is that of ControlAnswer. |
| GuidedService.Service.Feedback | app/guided_service.py:205-284 | The same for verdicts; the answer is that of FeedbackAnswer. |
| GuidedService.Service.Observe | app/guided_service.py:286-306 | The same for one observation; the answer is that of ObserveAnswer. |
| GuidedService.Service.IngestRows | app/guided_service.py:328-337 | The loop inserts and consumes a batch row by row and stops when the session closes. |
| GuidedService.Service.ObserveBatch | app/guided_service.py:308-356 | Receipt and new state of a batch; nothing is saved when no row was new. |
| GuidedService.Service.OpenRunner | app/guided_service.py:384-399 | Hands out the held token of an open session if it is the stored one, and otherwise issues a new one. |
| GuidedService.Service.SaveRecord | app/guided_service.py:997-1022 | Two saves, each raising the revision; a closed session loses its attestation and any other keeps it. |
| SessionTable.Database.CreateSession | app/guided_storage.py:134-154 | Inserts a new row as it is, or refuses an id that is taken and changes nothing. |
| SessionTable.Database.SaveSession | app/guided_storage.py:157-180 | Replaces the row with the next revision exactly when the stored revision is that of the body, and otherwise reports a conflict and changes nothing. |
| SessionTable.Database.LoadSession | app/guided_storage.py:183-189 | Returns the stored body, or reports a missing row. |
| SessionTable.Database.AppendObservation | app/guided_storage.py:237-254 | Accepts a key once; a repeated one changes nothing. |
| SessionHistory.NoLostUpdate | app/guided_storage.py:157-180 | With any number of processes the commits of a session have revisions 0, 1, 2, ..., each computed from its immediate predecessor, and the row holds the last under its own revision. |
| SessionHistory.CommitsAreSerial | app/guided_storage.py:157-180 | However processes interleave, every committed session is the opened one with the edits of the accepted saves applied one after the other, under the commit's revision; refused work leaves no trace in it. |
| SessionTheorems.CommittedPassStands | app/guided_storage.py:157-180 | A step once committed as passed has that same record in every later commit of every process. |
| SessionTheorems.CommittedKeeps | app/guided_service.py:171-356 | Every body that any process commits satisfies the session invariant, if the readings of each accepted save follow those it builds on. |
| SessionTheorems.CommittedPassMetContract | app/guided_service.py:602-822 | A hybrid or telemetry step that any commit of any process shows as passed met its whole contract. |
| SessionTheorems.CommittedCountersAreFolds | app/guided_service.py:602-706 | In every commit of any process all counters of a step equal their recomputation from its consumed samples. |
| SessionTheorems.CommittedConsumeOnce | app/guided_storage.py:237-254 | With any number of processes a committed session has consumed an observation at most once, over all steps and retired attempts, and exactly when an accepted save took it while its current step was open to telemetry. |
| SessionTheorems.CommittedLinkStands | app/guided_service.py:976-995 | A committed retest link is the same in every later commit of every process, so one retest at most is ever linked. |
| SessionTheorems.RetestIsLinkedIff | app/guided_service.py:976-995 | A retest that a process inserted stays stored with its parent, and its session links it, then and for ever, exactly when the save of that process is accepted; otherwise no session ever does. |
| SessionTheorems.SecondRetestIsOrphan | app/guided_service.py:976-995 | Of two processes that close the same revision both insert a retest; the first saver's is linked, the other stays stored and is never linked. |
| SessionTheorems.TwoProcessesPrepare | app/guided_service.py:587-600 | For every plan two processes can reach that situation, by aborting the same prepared session. |
| SessionEdits.ReplayKeeps | app/guided_service.py:171-356 | Any list of edits with readings in order keeps the session invariant. |
| SessionEdits.ReplayUses | app/guided_service.py:602-626 | Over any list of edits, the consumption of an id, retired attempts included, grows by the number of times it was taken for an open step. |
| SessionHistory.SecondSaverIsRefused | app/guided_storage.py:157-180 | Of two holders of one revision, after the first has saved the second changes nothing until it loads again. |
| QualityGate.CollectCompatibility | app/quality.py:27-64 | The loop collects each result's missing compatibility evidence in order. |
| QualityGate.Evaluate | app/quality.py:7-90 | The gate computed step by step equals its specification: counts, rate, blockers in order, decision. |
| QualityGate.PassMeans | app/quality.py:16-90 | PASS exactly when nothing is missing or stopped, every result is clean and enough of them passed. |
| QualityGate.GateMeans | app/quality.py:66-90 | The whole answer on the results: BLOCKED, FAIL, MANUAL_REVIEW, PASS_WITH_WARNING or PASS, the release recommendation, the human approval and the counts. |
| QualityGate.RateMeans | app/quality.py:8-11 | The reported rate is the hundredth of a percent nearest to the exact ratio, the even one of two, and 0 if nothing counts. |
| QualityGate.BlockersMean | app/quality.py:16-70 | A blocker is listed exactly when what it stands for holds: missing types, each count, a stopped run, each missing piece of compatibility evidence, a rate below the minimum. |
| QualityGate.RoundedRateAccepts | app/quality.py:8-11 | The rounded rate reaches a minimum exactly when a linear inequality on the counts holds. |
| QualityGate.RoundedRateAgrees | app/quality.py:67-80 | The 90 and 98 percent tests as inequalities, and their agreement with the exact ratio below 2000 and 400 results. |
| QualityGate.RoundedRateTooLenient | app/quality.py:67-80 | 1808 of 2009 passes the 90 percent test and is below 90 percent. |
| QualityGate.OrderIsIrrelevant | app/quality.py:7-90 | Permuting the results changes neither rate, counts nor decision. |
| GuidedGate.RawPassMeans | app/guided_service.py:1024-1075 | The gate of a session passes exactly when each step passed or failed tolerably and enough passed. |
| GuidedGate.GuidedDecision | app/guided_service.py:1024-1098 | Over every run the session's decision is PASS or MANUAL_REVIEW for acceptable steps, by whether a passed one rests on a person's word, and otherwise BLOCKED if a step is undecided and FAIL if not. |
| GuidedGate.GuidedPassMeans | app/guided_service.py:1024-1098 | No reachable session recommends a release; its decision is PASS exactly when the raw gate passes and every passed step took no human verdict. |
| GuidedGate.GuidedPassMetContracts | app/guided_service.py:1024-1098 | Each passed step of a session that says PASS rests on telemetry alone and met its contract. |
| RepairSplice.CountMatches | app/repair_policy.py:293-294 | The loop counts matches as the non-overlapping count does. |
| RepairSplice.CountedOnceMeansUniqueIff | app/repair_policy.py:293-294 | The count of one means a single occurrence in every text exactly for old texts without a border. |
| RepairSplice.SpanOf | app/repair_policy.py:295-296 | A located span covers the leftmost occurrence of its old text. |
| RepairSplice.Locate | app/repair_policy.py:289-296 | The loop locates every replacement or refuses when one is not counted once. |
| RepairSplice.NeighbourTestIsExact | app/repair_policy.py:297-299 | The neighbour test on the sorted spans finds an overlap exactly when two listed spans share a character. |
| RepairSplice.SpliceInReverse | app/repair_policy.py:300-302 | The loop from the last span to the first equals one substitution pass from left to right. |
| RepairSplice.SubstitutedMeans | app/repair_policy.py:300-302 | Text outside the spans is kept in order, each new text is at its place, and the length changes by the summed differences. |
| RepairSplice.SubstitutionIsUnique | app/repair_policy.py:300-302 | Only one text meets that description. |
| RepairSplice.EditFile | app/repair_policy.py:289-304 | Locating, sorting, testing and splicing give the specified result or error. |
| RepairSplice.EditMeans | app/repair_policy.py:289-304 | An edit gives a text exactly when all old texts are counted once, no two spans share a character and the text is their simultaneous, not empty substitution; and which error it gives otherwise. |
| RepairSplice.OrderIsIrrelevant | app/repair_policy.py:289-304 | Listing the replacements in another order changes neither verdict nor text. |
| RepairSplice.AcceptedEditMayChangeNothing | app/repair_policy.py:289-304 | Replacements that each change text can together give the text back. |
| RepairPlans.PrepareFile | app/repair_policy.py:272-317 | Prepares a file exactly when all checks on it hold. |
| RepairPlans.PreparePlan | app/repair_policy.py:267-325 | Accepts exactly the plans whose files all prepare and whose sums stay in the limits, and prepares them. |
| RepairPlans.SumsAppend | app/repair_policy.py:319-320 | The sums of a plan add up over its parts; with the sums of one file, its changed lines and the larger of its two sizes, that settles them. |
| RepairPlans.AcceptedPlanMeans | app/repair_policy.py:267-325 | Each postimage is the simultaneous substitution in its file's text, and every group of files stays in the byte and line limits. |
| RepairOrchestrator.Worktree.CreateCheckpoint | app/repair_orchestrator.py:247-277 | Holds every preimage or none; two edits of one file end here. |
| RepairOrchestrator.Worktree.RequireSafe | app/repair_orchestrator.py:474-493 | Passes exactly a present, unlinked file with the expected content. |
| RepairOrchestrator.Worktree.ReplaceBytes | app/repair_orchestrator.py:496-515 | Replaces one file whole or not at all under each fault. |
| RepairOrchestrator.Worktree.Apply | app/repair_orchestrator.py:279-285 | Succeeds exactly when every file lands and otherwise stops at the first that does not, leaving the files before it written and what its fault left; soft faults leave a tree that the preimages restore. |
| RepairOrchestrator.Worktree.VerifyPostimages | app/repair_orchestrator.py:287-295 | Succeeds exactly when every planned file is at its postimage, and returns the digests. |
| RepairOrchestrator.Worktree.RunVerification | app/repair_orchestrator.py:314-364 | Runs commands in order until one fails, times out or cannot start, and leaves what each did to the tree; raises exactly when the output of a command that is reached cannot be decoded. |
| RepairOrchestrator.Worktree.Rollback | app/repair_orchestrator.py:297-312 | Ends in exactly the tree and answer of putting the files back one by one; says so only if every planned file is back; writes nothing but preimages, and never over content that is neither preimage nor postimage; succeeds without faults and with an intact checkpoint. |
| RepairOrchestrator.RollbackVerdict | app/repair_orchestrator.py:297-312 | A rollback raises exactly when the first file it cannot put back still holds one of its images but turned out unsafe, and succeeds exactly when there is no such file and nobody overwrote one that was put back. |
| RepairOrchestrator.ReportedIsApplied | app/repair_orchestrator.py:163-167 | If git reports exactly the planned paths and each holds its postimage, the visible tree is the committed one with exactly these files changed, each of them really. |
| RepairOrchestrator.UnchangedIsHead | app/repair_policy.py:327-333 | Git reports nothing exactly when the visible tree is the committed one. |
| RepairExecution.TryPlan | app/repair_orchestrator.py:154-167 | Passes exactly when every write lands, every command succeeds and git reports exactly the planned files; then the plan is applied. Escapes exactly when all files land and a command's output cannot be decoded. |
| RepairExecution.Undo | app/repair_orchestrator.py:193-197 | A verified rollback has every planned file back and a clean visible tree. |
| RepairExecution.UndoVerdict | app/repair_orchestrator.py:193-197 | Undoing raises exactly when a file became unsafe or git cannot be asked once all files are back, and is verified exactly when all are back, git answers and the committed tree shows. |
| RepairExecution.RunAttempt | app/repair_orchestrator.py:134-212 | Accepted exactly when it passes and its audit is stored; raised for undecodable output exactly when checkpointed and reached, then nothing is undone or recorded, and for a policy error exactly when the rollback it owes raises; otherwise its records and its tree are those of that rollback. A soft fault at any write with nothing in the way of the rollback leaves the tree as it was and says so. |
| RepairExecution.Plan | app/repair_orchestrator.py:94-119 | Gives files to write exactly for a proposal the policy accepts, and otherwise the record of the refusal. |
| RepairExecution.Attempt | app/repair_orchestrator.py:86-212 | One pass of the loop writes exactly the records the attempt owes: a refusal, an offer, a missing checkpoint, an application, or a rollback with its verdict; and it raises exactly when its prepared, checkpointed plan reaches undecodable output or owes a rollback that raises. |
| RepairExecution.Execute | app/repair_orchestrator.py:56-227 | Returns DENIED without attempts for a refused request; raises exactly when an attempt raises, with its error, or when the loop ended in anything but an application and the final audit cannot be stored; otherwise returns the records of all attempts under APPLIED, PROPOSAL, ROLLED_BACK or FAILED as they say. Each record was true of the worktree when written and the last one is true of the returned worktree; without permission to apply only the planner can have touched it; an escaped decoding error leaves some attempt's files written and verified on, not undone. |
| RepairExecution.AppliedExactly | app/repair_orchestrator.py:154-189 | A run that may write answers APPLIED exactly when its last attempt is prepared, checkpointed, passes every check and has its audit stored. |
| RepairExecution.AppliedResponseMeans | app/repair_orchestrator.py:168-189 | Status APPLIED: the returned visible tree is the committed one with exactly the recorded files at their recorded postimages. |
| RepairExecution.AppliedRecordIsLastOrUndone | app/repair_orchestrator.py:168-208 | An APPLIED record that is the last holds for the returned worktree; after any other comes the record of a rollback of the same attempt. |
| RepairExecution.OverruledRecordStandsIff | app/repair_orchestrator.py:168-208 | An APPLIED record that changed files and is followed by a rollback still holds after it exactly when that rollback is unverified and left the recorded files and the visible tree as they were; never after a verified one. |
| RepairExecution.AuditFailureOverrules | app/repair_orchestrator.py:168-208 | A passing attempt whose audit fails, with its checkpoint intact and nothing in the way of the rollback, puts every preimage back, answers verified and makes its APPLIED record false. |
| RepairExecution.OverruledRecordExists | app/repair_orchestrator.py:168-208 | A concrete attempt with these properties: applied, audit failed, rolled back and verified, first record false. |
| RepairExecution.SurvivingRecordExists | app/repair_orchestrator.py:168-208 | The same attempt with a clean error at the first write of the rollback: unverified, and the first record still true. |
| RepairExecution.VerifiedRollbackMeans | app/repair_orchestrator.py:193-208 | If the last record is a verified rollback the returned worktree is clean and every file is back. |
| RepairExecution.UnverifiedRollbackIsLast | app/repair_orchestrator.py:210-212 | Nothing is tried after a rollback that could not be verified. |
| RepairExecution.LogIsBounded | app/repair_orchestrator.py:85-86 | The log has at most two records for each budgeted attempt. |
| RepairAttestations.AttestationStore.VerifyAndConsume | app/repair_service.py:103-123 | True exactly for the stored attestation with its very context before expiry; a recognized one is taken out in any case. |
| RepairAttestations.AttestationStore.Issue | app/repair_service.py:95-101 | Binds the attestation to its context. |
| RepairAttestations.AttestationReasons | app/repair_policy.py:353-373 | No reason exactly when project, fingerprint and age agree. |
| RepairAttestations.ApplyReasons | app/repair_policy.py:335-351 | No reason exactly when application is allowed, explicit and freshly attested and the store verifies it; the attestation is shown to the store regardless of other reasons. |
| RepairAttestations.Authorize | app/repair_policy.py:230-265 | Refused exactly when one of the nine gates is closed, each by name; application is granted exactly to an explicit apply request whose fresh attestation, stored with this very context, is within its ages; and what is left in the store. |
| RepairAttestations.Evaluate | app/repair_service.py:170-266 | Issues an attestation exactly for a request past the gates of the one provider that an eligible, low-risk, safe decision certifies, for at most 240 seconds. |
| RepairAttestations.AgeWindowIsExact | app/repair_policy.py:360-372 | The age checks pass from thirty seconds before issue until expiry and at no other time. |
| RepairAttestations.FreshGrantsExactly | app/repair_service.py:244-258 | A stored fresh attestation grants application exactly for the evaluated context until expiry. |
| RepairAttestations.AcceptedAtMostIssued | app/repair_service.py:87-123 | Over every interleaving an id is accepted at most as often as it was issued, less what is still stored. |
| RepairAttestations.AppliesAtMostIssues | app/repair_service.py:87-123 | Permissions to write never outnumber issued attestations. |
| RpcClient.Client.Register | app/codex_app_server.py:415-422 | Registers the next id under the current process, or refuses without one. |
| RpcRuns.WithdrawnNeverWaitsAgain | app/codex_app_server.py:426-437 | Over every run, an id given up after a write error or a timeout is never registered again, so a late answer to it changes nothing. |
| RpcClient.Client.TakeWaiter | app/codex_app_server.py:522-526 | Takes a waiter out before anything is put to it. |
| RpcClient.Client.TakeAll | app/codex_app_server.py:622-625 | Takes all waiters out at once. |
| RpcClient.Client.Detach | app/codex_app_server.py:606-618 | Forgets a process only if it is the current one. |
| RpcClient.Client.Deliver | app/codex_app_server.py:527-534 | Puts to a queue whatever it holds, and says whether the queue was full, where the source would block or drop. |
| RpcRuns.Reachable | app/codex_app_server.py:409-630 | Over all interleavings: every queue belongs to one request, one party at most may put to it, at most one put each, none forgotten, none unattended. |
| RpcRuns.PutsNeverBlock | app/codex_app_server.py:516-537 | Whoever is about to put to a waiter finds its queue empty. |
| RpcRuns.OwnAnswerAtMostOnce | app/codex_app_server.py:516-537 | Counting every put that is attempted, a waiter's queue gets at most one over a run, and an answer put to it was read with the id of the request that made the queue. |
| RpcRuns.WaitersAreAttended | app/codex_app_server.py:600-630 | A pending waiter has its process current and read from, or a fail-pending under way that will take it. |
| RpcRuns.FailPendingTellsEveryone | app/codex_app_server.py:622-630 | Everyone waiting when a fail-pending takes the waiters has a delivery when it has finished. |
| RpcRuns.IdsAreNeverReused | app/codex_app_server.py:418-419 | A later request gets a larger id that no earlier one had, across restarts. |
| RpcRuns.Threads.Request | app/codex_app_server.py:415-422 | On the client object: the request step of the interleaving, with a new id that waits exactly if there is a process. |
| RpcRuns.Threads.GiveUp | app/codex_app_server.py:426-437 | On the client object: the withdrawal step of the interleaving; the id no longer waits. |
| RpcRuns.Threads.Answered | app/codex_app_server.py:522-526 | On the client object: the step in which a reader takes the waiter of the message it read. |
| RpcRuns.Threads.PutAnswer | app/codex_app_server.py:527-534 | In every state that such steps reach, the reader's put finds an empty queue. |
| RpcRuns.Threads.ReaderFails | app/codex_app_server.py:613-620 | On the client object: a reader ends and owes a fail-pending only for the current process. |
| RpcRuns.Threads.TakePending | app/codex_app_server.py:622-625 | On the client object: a fail-pending takes all waiters at once and leaves none. |
| RpcRuns.Threads.PutFailure | app/codex_app_server.py:626-630 | In every state that such steps reach, the put of a failure finds an empty queue, so the handler for a full one never acts. |
| RpcTurns.TurnBoard.HandleNotification | app/codex_app_server.py:557-594 | Files a notification in place under its turn. |
| RpcTurns.TurnBoard.TurnEvent | app/codex_app_server.py:596-598 | Returns the turn's event, made at most once. |
| RpcTurns.TurnBoard.Collect | app/codex_app_server.py:369-380 | Takes everything of one turn and leaves the entries of the others, with their order and texts. |
| RpcTurns.NothingIsLost | app/codex_app_server.py:557-594 | Until it is collected, a turn's status, finished messages and joined deltas are exactly what its notifications said. |
| RpcTurns.CollectHandsOut | app/codex_app_server.py:369-380 | Over every run, what is handed out is the status said last, "unknown" if it was empty, and the finished messages or, without any, what streamed in for each item, joined, in order of first appearance, without the empty ones. |
| RpcTurns.CompletionReachesTheWaiter | app/codex_app_server.py:364-380 | A completion before or after the caller attaches raises the event the caller waits on, with its status. |
| UrlAudit.AuditBudget.BeforeRequest | app/url_audit.py:99-107 | Refuses exactly when requests, time or, for GET, bytes are used up. |
| UrlAudit.AuditBudget.RecordBody | app/url_audit.py:109-112 | Adds the body and reports an overrun. |
| UrlAudit.Audit.Follow | app/url_audit.py:544-624 | The redirect loop makes the trail that Told describes on the replies, with the budget left. |
| UrlAudit.WalkTells | app/url_audit.py:544-624 | Every trail on the replies: which requests the budget let out and with how many bytes, which redirects were followed, and the one cause for which it ended: an answer, a late or oversized one, no answer, a refused redirect, too many redirects, no budget, no address. |
| UrlAudit.ObservationMeans | app/url_audit.py:568-624 | An observation gets through exactly when its last request was answered in time, inside the byte budget and not by a redirect to follow; it then carries that status and size, and otherwise no bytes and a status only for a redirect off the site. |
| UrlAudit.EachObservationTold | app/url_audit.py:282-446 | Every observation of a run is such a trail, on the budget that those before it left. |
| UrlAudit.WalkKeeps | app/url_audit.py:544-624 | A trail has at most four requests of one method, one for OPTIONS, the first to the given URL and each later one by an allowed redirect, and respects the budget of requests and, with an honest transport, of bytes. |
| UrlAudit.Audit.Observe | app/url_audit.py:544-624 | Adds one observation to the list; started on the target's site it stays there. |
| UrlAudit.Audit.ObserveDocuments | app/url_audit.py:386-409 | Asks for the OpenAPI paths in order until one answers with a document. |
| UrlAudit.Audit.ObserveIcon | app/url_audit.py:431-458 | Asks for the conventional icon path or a same-origin link, for nothing else, and fails exactly for a refused link. |
| UrlAudit.Audit.Run | app/url_audit.py:282-446 | A whole run makes exactly the listed observations in order, with at most ten requests, all on the target's site, at most one OPTIONS, and at most 4 MiB of bodies if the transport honours its limit; it is blocked exactly when the root GET does not get through and ends in an error exactly for a refused icon link. |
| UrlAudit.AsksAre | app/url_audit.py:282-446 | The observations of a run, spelled out with method, path and byte limit. |
| UrlAudit.RedirectsStayOnSite | app/url_audit.py:815-824 | Allowed redirects keep the host and allow only the step from http on 80 to https on 443. |
| UrlAudit.SchemeChangesAtMostOnce | app/url_audit.py:815-824 | Along an observation scheme and port change at most once. |
| ArchivePaths.NameReadsBack | scripts/runtime_backup.py:86-88 | A relative path reads back from its archive name. |
| ArchivePaths.NamedMeans | scripts/runtime_backup.py:86-88 | Reading a name drops exactly its empty and single-dot components and keeps the others in order. |
| RuntimeBackup.SourceFiles | scripts/runtime_backup.py:36-43 | Lists exactly the files under the six allowed roots whose names are not denied, each once. |
| RuntimeBackup.InScopeMeans | scripts/runtime_backup.py:13-33 | The selection spelled out: the roots, the denied names, words and endings. |
| RuntimeBackup.CreateBackup | scripts/runtime_backup.py:65-83 | The archive holds exactly the files in scope at the walk, its own place included, under their names, each with its own bytes or, for a database, its snapshot, then a manifest of their sizes and digests. |
| RuntimeBackup.WantedAtWalk | scripts/runtime_backup.py:65-73 | An archive written to a place in scope packs the part of itself found there, and one written anywhere else changes nothing. |
| RuntimeBackup.VerifyBackup | scripts/runtime_backup.py:91-109 | Accepts exactly the archives whose safe names, sizes and digests agree with their manifest. |
| ArchiveChecks.AcceptedMeans | scripts/runtime_backup.py:86-109 | Accepted are exactly the archives whose last manifest lists exactly their other names, each under a safe name and with the size and digest of its last member. |
| ArchiveChecks.SafeMeans | scripts/runtime_backup.py:86-88 | A name is safe exactly if it does not start with a slash, has no component `..` between slashes, and is not the manifest's. |
| RuntimeBackup.Directory.RestoreBackup | scripts/runtime_backup.py:112-125 | Writes a verified archive over the target, nothing of a refused one, and nothing outside the target. |
| ArchiveChecks.RestoredMeans | scripts/runtime_backup.py:112-125 | What is written is, for each place, the last member that goes there, and nothing else. |
| RuntimeBackup.BackupVerifies | scripts/runtime_backup.py:65-109 | Verification accepts every archive a backup makes. |
| RuntimeBackup.RoundTrip | scripts/runtime_backup.py:65-125 | Restoring a backup into an empty target gives exactly the packable files; a database comes back as its snapshot and every other file with exactly its bytes. |
| RuntimeBackup.BackupAndRestore | scripts/runtime_backup.py:65-125 | Backup and restore in sequence succeed and give exactly the packable files at the walk, databases as snapshots and all others byte for byte. |

## Left out

- Report text, audit rows, evidence files, messages and correction suggestions: they do not feed back into state.
- Failure codes are a set, not a list; duplicates are dropped in the source too, the order is not modelled.
- Float noise: latencies are integers, rates exact rationals rounded half to even.
- A clock that steps back. With it `max(0, ...)` in the elapsed time could clip.
- The 100000-id bound that loading a stored step result enforces on its observation ids.
- Scenario registration and validation, beyond what `ScenarioStep.Valid` says the validator guarantees.
- SQLite's own locking and journal: each statement is one atomic step. An observation that is stored by a process whose save is then refused stays stored and is not consumed.
- GuidedTheorems.ObservationsConsumedOnce: says at most once and not exactly once, because an observation stored while the current step takes no telemetry is never consumed; SessionTheorems.CommittedConsumeOnce says exactly when one is.
- The interleaved processes work on sessions, observations and retests; attestations are modelled for one process only.
- The authentication of the attestation token by digest is equality of tokens.
- RepairPlans.PreparePlan: does not say which message a refusal carries, because the messages are not kept; path resolution, protected paths, links and secrets enter as parameters.
- Concurrent writers of the worktree, except at one point: content that changes right after a file was replaced.
- Setting up the artifact directory and its boundary check, whose errors end a repair before the loop.
- The committed tree does not change during a repair; verification commands that commit are outside the model.
- RepairExecution.Execute: says when a policy error or a failing final audit escapes and not what the worktree then is, because the source returns no response; after a policy error it is the one that RunAttempt describes.
- RpcRuns.FailPendingTellsEveryone: is stated for a fail-pending that finishes, because nothing in the source bounds how long a thread takes.
- Timeouts, writes to the process, the JSONL size limits and the wire format of messages; a reader may see any id.
- Account, login and provider flows; prompts and the planner's reasoning.
- DNS checks, TLS, sockets and the findings of the URL audit; a request that fails to resolve counts against the budget and is not issued.
- UrlAudit.Audit.Run: bounds body bytes only for a transport that honours the limit it is given, because the budget learns of a body after it was read.
- RuntimeBackup.RoundTrip: compares a database with its snapshot, which is a parameter, because the source packs no raw bytes of it; symbolic links and files that vanish during the walk are not modelled.
- User interface, HTTP and MCP wrappers, the browser runner, strategy and compatibility tables, test-case lint.
