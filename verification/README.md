# Verification of the analysis service

A Dafny model of the parts of the service where a mistake would be hardest to notice: the lease
protocol that lets workers, redelivered tasks, crashes and a reconciler share one run; the event log
it writes and the stream that replays it; the four agent councils with their token budget, ballots
and provenance; the deterministic finance, scoring, report and validation engines; and the
transaction analytics. `dafny verify dfyconfig.toml` checks everything.

| file | what it holds |
|---|---|
| `RunRows.dfy`, `LeaseProtocol.dfy` | one run's rows, and the protocol as a timed transition system with any number of workers and scans |
| `Numbering.dfy` | attempt numbers and fencing, in every history |
| `LeaseInvariant.dfy`, `LastAttempt.dfy` | the invariant, and the one that takes over at a stale give-up |
| `LeaseTheorems.dfy`, `BoundedRecovery.dfy` | what they give over whole histories |
| `ShortLease.dfy`, `Discards.dfy`, `StaleGiveUp.dfy` | exactly when the lease is long enough, what a shorter one leaves unfenced or deletes, and exactly when a give-up is harmless |
| `Execution.dfy`, `RunTable.dfy` | what an undisturbed attempt makes of its run; the repository, the reconciler's loop and the pipeline as methods that update the table |
| `Pipeline.dfy` | one delivery end to end, from the claim through councils, engines and validator to the stored report |
| `EventStream.dfy`, `StreamOfHistory.dfy` | the polling stream, reconnecting, and the stream of a live run |
| `StagePlan.dfy` | stage plans and weighted progress |
| `Sorting.dfy`, `Reducers.dfy` | counting ballots |
| `Councils.dfy`, `CouncilRecords.dfy`, `Orchestrator.dfy`, `Provenance.dfy` | the council protocol, its accounting and what is stored of it |
| `Arithmetic.dfy`, `Finance.dfy`, `Scoring.dfy` | the deterministic engines |
| `Report.dfy`, `ReportValidation.dfy` | the composer and the independent validator |
| `Analytics.dfy` | seven-day analytics |

## Assumptions

- One committed transaction, or one read outside it, is one step; all clocks are one clock; a task
  takes no step after its hard limit (`app/workers/celery_app.py:37-38`).
- `_fail` is two steps, a read and an unconditional write; that is safe while the lease outlasts the
  hard limit (`LeaseInvariant.WriteFailureOK`) and not otherwise. The give-up of the reconciler is an
  unconditional write from the scan. Fencing, the numbering of claims, the contiguous log and the
  replay over reconnects are proved for every history. Mutual exclusion, the ownership of commits,
  the empty discards and the bound on recovery take the lease to be as long as the hard limit, stale
  give-ups included, and come with the exact condition where they can fail. Only what a stale
  give-up really breaks (a terminal run stays as it is, rows of one attempt, the log's shape) is
  stated for orderly histories: such a lease, and no stale give-up.
- The council runtime answers from tapes of replies, actions and clock readings. A statement for all
  tapes covers every model, prompt, network failure and delay; a tape that ends raises.
- `Decimal` is exact rational arithmetic; half-up means away from zero. Strings that are only
  compared or ordered are integers. `//` and `%` by a positive divisor round down, as in Python.

## What the code does that one might not expect

- The lease only has to be as long as the hard limit, not longer, and with one attempt its length does
  not matter (`ShortLease.MutualExclusionExactly`).
- The attempt number does not fence the skipped stages, the events and a late failure of a worker;
  the lease does, so only settings the validator refuses, a lease shorter than the hard limit with
  more than one attempt, expose it (`ShortLease.CommitsAreOwnExactly`).
- `discard_attempt` has something to delete only under such a lease and with a third attempt
  (`Discards.DiscardsNothingExactly`).
- A stale give-up can bring a failed run back to life (`StaleGiveUp.StaleGiveUpResurrects`,
  `StaleGiveUp.GiveUpSafeExactly`).
- Objection labels follow the activation order when personas word the same code differently
  (`Reducers.LabelsIgnoreOrderExactly`).
- Two records of one metric with different values make the composer and the validator disagree
  (`ReportValidation.DuplicateMetricRejected`).
- A competitor count of -1 makes scoring raise (`Scoring.DivisionFailsExactly`).
- With equal quantities the top product need not be the first of the sorted list
  (`Analytics.HeadNeedNotBeTop`, `Analytics.HeadIsTopExactly`).
- One malformed ballot rejects the whole persona council (`CouncilRecords.PersonaAcceptedExactly`).

## Model

| member | source | states |
|---|---|---|
| `LeaseTheorems.MutualExclusion` | app/repositories/analysis_worker.py:56-143 | With a lease as long as the hard limit, in every state of every history, stale give-ups included, at most one live task executes the run, and once the lease has lapsed nobody does, so the reconciler never takes a run from a worker that is still running |
| `LastAttempt.AlwaysHeld` | app/services/analysis_recovery.py:81-95 | The reason: every state keeps the invariant or, from the first stale give-up on, a second one, because only a run on its last attempt can be overwritten, where nothing is requeued or claimed any more |
| `ShortLease.MutualExclusionExactly` | app/core/config.py:157-165 | For all settings, mutual exclusion holds in every history, stale give-ups included, if and only if the lease is at least as long as the hard limit, or at most one attempt is allowed, or the hard limit is negative so that no task runs; the validator's strict inequality implies it |
| `ShortLease.CommitsAreOwnExactly` | app/services/analysis_pipeline.py:709-832 | For all settings, every commit of every worker in every history, the skipped stages, the events and a failure written late included, carries the row's current attempt number, if and only if the same condition on lease, attempts and hard limit holds |
| `ShortLease.TwoWorkers` | app/repositories/analysis_worker.py:116-192 | With a lease shorter than the hard limit and more than one attempt: a concrete history, every give-up current, that ends with two live workers on one run |
| `ShortLease.UnguardedCommits` | app/services/analysis_pipeline.py:742-759 | Under any shorter lease and more than one attempt, a history in which a worker with an outdated number records its skipped stages and logs an event: nothing fences those two commits |
| `ShortLease.SplitFailureUnguarded` | app/services/analysis_pipeline.py:790-823 | Under any shorter lease and more than one attempt, a history in which `_fail` checks, the run is requeued, and the pending write fails the queued run: check and write must be one step, or the lease long enough |
| `LeaseInvariant.StepKeeps` | app/services/analysis_pipeline.py:195-372 | Every enabled step of worker, reconciler, delivery, clock or crash keeps the invariant: row shape, log shape, rows of one attempt, standing of each live worker, age of each scan |
| `LeaseInvariant.InsertEventOK` | app/services/analysis_pipeline.py:742-759 | A live worker that read max + 1 inserts without meeting a taken sequence: the emitter needs no lease because nobody else can be emitting |
| `LeaseInvariant.WriteFailureOK` | app/services/analysis_pipeline.py:790-832 | The re-read of `_fail` is still current when its unconditional write commits, although read and write are separate steps |
| `LeaseInvariant.EnterNextOK` | app/services/analysis_pipeline.py:709-729 | For a live worker of a run whose lease outlasts the hard limit, entering the next stage keeps the invariant; there its guard always passes (the failing guard is `LeaseTheorems.EnterDecidedByAttempt`) |
| `LeaseInvariant.RequeueForRetryOK` | app/services/analysis_pipeline.py:234-250 | For a live worker of a run whose lease outlasts the hard limit, the requeue after a transient error finds the row as it was read again and keeps the invariant |
| `Numbering.AttemptsNeverFall` | app/repositories/analysis_worker.py:71-80 | The attempt number never decreases, in any history, with or without current give-ups |
| `Numbering.Fencing` | app/services/analysis_pipeline.py:709-841 | In every history, short leases, stale give-ups and duplicate deliveries included: once the attempt number has moved on, no worker holding an earlier one enters a stage, completes, requeues, or fails the run where the check of `_fail` still holds at its write |
| `Numbering.EnterDecidedByAttempt` | app/services/analysis_pipeline.py:719-725 | The status is flushed before the guarded renewal, so whatever the status was, even queued or terminal, a stage is entered exactly when the attempt number matches; otherwise nothing changes and the worker stops |
| `LeaseTheorems.EveryCommitIsOwn` | app/services/analysis_pipeline.py:195-258 | With a lease as long as the hard limit, in every history, stale give-ups included, every commit of a worker carries the current number, which is the greatest so far, also the commits that check none: skipped stages, events, a failure checked and written in two steps |
| `LeaseTheorems.TerminalIsFinal` | app/repositories/analysis_worker.py:160-192 | A terminal run's row and rows never change again: no late delivery, stale worker or reconciler reopens it |
| `LeaseTheorems.RowsOfOneAttempt` | app/services/analysis_pipeline.py:353-364 | A non-terminal run has no evidence, agent, trace or report rows; all rows come from the last attempt; a report exists, exactly one, if and only if the status is completed or partial |
| `LeaseTheorems.DiscardDeletesNothing` | app/repositories/analysis_worker.py:194-211 | With a lease as long as the hard limit, in every history, `discard_attempt` runs in every requeue and never finds a row to delete |
| `Discards.DiscardsNothingExactly` | app/repositories/analysis_worker.py:194-211 | For all settings, no requeue of any history deletes a row if and only if the lease is at least as long as the hard limit, or at most two attempts are allowed, or no task runs |
| `Discards.RequeueDeletes` | app/repositories/analysis_worker.py:150-211 | Under any shorter lease and at least three attempts, a history in which a superseded worker stores its trace, its successor makes the run a working one again, and the next requeue deletes the trace |
| `Numbering.ClaimsStrictlyIncrease` | app/repositories/analysis_worker.py:56-87 | In every history two successful claims carry strictly increasing attempt numbers, at least 1 and at most the maximum, although a claim adds one only when the lease is NULL |
| `BoundedRecovery.RecoveryIsBounded` | app/services/analysis_recovery.py:81-106 | However long the history, the steps that change the row number at most 10 * max_attempts + 17, stale give-ups and the worker they overwrite included; and at most 10 * max_attempts + 9 less what remains when no give-up is stale: measures of attempts and stages left fall on each |
| `LeaseTheorems.LogIsContiguous` | app/repositories/analysis_worker.py:227-233 | In every history, under every interleaving of emitters that read max + 1 and insert under the unique key, the sequences are exactly 1..n and earlier entries survive every later step unchanged |
| `LeaseTheorems.LogIsItsSegments` | app/services/analysis_pipeline.py:731-759 | A log of the proved shape is the concatenation of its attempts' segments in attempt order |
| `LeaseTheorems.LogSplitsIntoAttempts` | app/services/analysis_pipeline.py:273-372 | The log of any reachable state splits into at most max_attempts attempt walks; each visits an in-order prefix of its plan's stages; only the very last event can be terminal; every plan named is one a deployment can pick |
| `LeaseTheorems.PercentNeverFallsWithinAttempt` | app/services/analysis_pipeline.py:824-832 | Within an attempt the percentage never falls and stays within 100, except that a failed event reports 0, because it reports the stored list |
| `StaleGiveUp.StaleGiveUpResurrects` | app/services/analysis_recovery.py:131-157 | With valid settings and a give-up written from a scan that is no longer current: a concrete history in which a failed run returns to a working status and its log continues after a terminal event |
| `StaleGiveUp.GiveUpSafeExactly` | app/services/analysis_recovery.py:83-87 | A give-up, stale or not, leaves a run that no continuation without a further give-up reopens, logs to or spoils if and only if the run has not succeeded, no terminal event is logged, and every live worker is in its last stage, between reading a sequence and inserting it, or about to requeue |
| `StaleGiveUp.UnchangedRowIsSafe` | app/repositories/analysis_worker.py:166-171 | The guard the requeue already uses, which can be checked before the write, is enough: on an unchanged row nobody is executing and the give-up is harmless |
| `Numbering.ScansAreOld` | app/services/analysis_recovery.py:75-79 | In every history, the attempt number a scan saw is never newer than the row's |
| `RunTables.RunTable.Claim` | app/repositories/analysis_worker.py:36-87 | Leaves `queued` exactly when the guard holds, with the lease set and one attempt added only for a NULL lease; the row read back can not be claimed again; otherwise nothing changes |
| `RunTables.RunTable.EnterStage` | app/services/analysis_pipeline.py:709-729 | Owned exactly when the attempt number matches, whatever the status was; otherwise the table is as before |
| `RunTables.RunTable.Emit` | app/services/analysis_pipeline.py:731-759 | Appends one event numbered one past the log, percent computed from the plan, and keeps the log contiguous |
| `RunTables.RunTable.RecoverStuckRuns` | app/services/analysis_recovery.py:81-108 | One pass: each scanned run is given up, requeued or left as it moved on, exactly by its guard; every other run is untouched; the two lists name exactly what happened |
| `RunTables.RunTable.WalkStages` | app/services/analysis_pipeline.py:273-339 | Enters every planned stage in order and logs the attempt's whole walk; other runs are untouched |
| `RunTables.RunTable.Conclude` | app/services/analysis_pipeline.py:338-372 | A report that validates is stored only after a renewal that is still owned, one that does not fails the run only if the run is still this attempt's, either way with one last event; a worker that lost the run, or finds it terminal, changes nothing |
| `RunTables.RunTable.Execute` | app/services/analysis_pipeline.py:195-221 | One delivery without interference: a run that can not be claimed is left alone, a claimed one becomes exactly `Executed` of itself, and every other run is untouched |
| `RunExecution.ExecutedEndsTerminal` | app/services/analysis_pipeline.py:273-372 | An undisturbed attempt ends terminal without a lease, with the rows of its outcome, its whole stage walk and one end event logged |
| `RunTables.ExecuteKeepsRuns` | app/services/analysis_pipeline.py:195-372 | Under either plan a deployment can pick, such a delivery keeps every run of the table as the lease protocol keeps a run: row, log shape, contiguous log, rows of one attempt |
| `RunTables.PassKeepsRuns` | app/services/analysis_recovery.py:81-108 | A reconciler pass whose give-ups find their rows unchanged keeps every run of the table as the lease protocol keeps a run |
| `Pipelines.RunAnalysis` | app/services/analysis_pipeline.py:299-372 | Councils, engines, composer, validator and protocol together: whatever the councils reply, a claimable run whose inputs can be computed stores its report if and only if no catalogue metric's records disagree and every number an agent wrote was in its own material; it is completed exactly when moreover nothing was missing, the score available and all four artifact types produced, else partial; otherwise it fails and stores no report; it stays as the lease protocol keeps a run, and other runs are untouched |
| `Pipelines.SimulationIsValid` | app/domain/agents.py:442-476 | Whatever the councils replied, what a simulation that returned shows the composer meets every bound the validator checks: no market claim without evidence, no critique without a tool call, no section without a source, no count above its total |
| `RunTables.RecoveredAttempts` | app/services/analysis_recovery.py:83-95 | A reconciler pass keeps attempts within the maximum, keeps the log as a prefix, and moves the number only by requeueing |
| `StagePlans.PercentNeverFalls` | app/domain/analysis_state.py:108-113 | Completing more stages, in any order and under any plan, never lowers the percentage nor exceeds 100 |
| `StagePlans.FinishedPlanIsHundred` | app/domain/analysis_state.py:108-113 | Finishing every stage of a plan with weight reads exactly 100 |
| `StagePlans.QueuedOnlyIsZero` | app/domain/analysis_state.py:52-61 | A run that stored only `queued` reports 0 under every plan |
| `StagePlans.StoredPlanIsThePlan` | app/domain/analysis_state.py:116-139 | Rebuilding a plan from the stored skipped stages gives back the plan the worker ran |
| `StagePlans.TransitionsExactly` | app/domain/analysis_state.py:98-106 | A transition is allowed exactly between successive stages of the plan, so entering the planned stages in order never raises |
| `EventStream.EventsSinceAreNext` | app/services/analysis.py:166-181 | A poll of a contiguous log returns the ids right after the given one, in order, as many as are logged or fit the batch; the synthetic id 0 only when nothing is logged |
| `EventStream.Stream` | app/api/v1/analyses.py:78-118 | For any schedule of polls of a log that grows without gaps, also one that goes on after a terminal event, and any batch limit: ids are consecutive from the start, repeat the persisted events, a synthetic event repeats a status that was read, the stream stops at the first terminal one, and until it closes nothing logged at the last poll beyond a full batch is missed |
| `EventStream.PollOnce` | app/api/v1/analyses.py:95-103 | One poll of any contiguous log yields a consecutive batch, advances by it, and ends exactly at a terminal event |
| `StreamOfHistory.PollsAreAFeed` | app/repositories/analysis.py:97-116 | Polling at any times any run of any history, with the row read no later than the log, satisfies what the stream theorems assume: the log only grows and skips no number |
| `StreamOfHistory.StreamLive` | app/api/v1/analyses.py:78-118 | One connection to a live run, in every history: ids consecutive from its start, faithful to the final log and to the row's statuses, nothing after a terminal event, nothing logged beyond a full batch missed, whatever workers and reconcilers do meanwhile |
| `StreamOfHistory.ReplayLive` | app/api/v1/analyses.py:64-118 | Exactly once, end to end, in every history: any number of connections to a live run, each served by the stream at its own polls, cut anywhere and resumed with the last id received, deliver ids that form one run without gap or duplicate from the header on, faithful to the log, each connection stopping at its first terminal event; where the history is orderly, nothing follows a terminal event over all of them |
| `Sorting.SortedPointwise` | app/integrations/oasis/reducers.py:64-71 | Sorting two pointwise ordered lists separately keeps them pointwise ordered |
| `Reducers.MediansKeepOrder` | app/integrations/oasis/reducers.py:124-129 | If every low is at most its high, the median of the lows is at most the median of the highs, including the floored even-length average |
| `Reducers.MedianSplits` | app/integrations/oasis/reducers.py:64-71 | At most half of the values lie below the median and at least half at or below it |
| `Reducers.BandAccepted` | app/domain/agents.py:166-176 | Building the price band from valid ballots never fails |
| `Reducers.CountsConserved` | app/integrations/oasis/reducers.py:95-122 | Segments add up to the activated personas and their purchases to the purchase count, objections to the activated personas, and no count exceeds them |
| `Reducers.AcceptedExactly` | app/domain/agents.py:202-212 | For valid ballots the result passes every bound of its schema if and only if there are no more ballots than the cohort, the cohort and rounds are at least one and at most twelve quotes are taken |
| `Reducers.OrderIsInvisible` | app/integrations/oasis/orchestrator.py:458-463 | Permuting the ballots changes no count, segment, objection tally or bound of the price band |
| `Reducers.LabelsIgnoreOrderExactly` | app/integrations/oasis/reducers.py:117-122 | The reported objections are the same under every permutation if and only if ballots that share a code share its label: the dictionary of labels keeps the last |
| `Reducers.ObjectionsAreRanked` | app/integrations/oasis/reducers.py:118-122 | Objections are listed by falling count, ties by code, each count being the ballots that raise it |
| `Reducers.CodeIsReported` | app/integrations/oasis/reducers.py:118-122 | An objection is reported exactly when some ballot raises it |
| `Councils.AllocationIsFair` | app/domain/agents.py:496-513 | Every persona is allocated, no two archetypes differ by more than one, and earlier archetypes are never smaller |
| `Councils.RosterHoldsCohort` | app/integrations/oasis/prompts.py:166-198 | The roster holds exactly as many personas as the cohort, whatever the other councils' sizes |
| `Councils.UnsupportedMetrics` | app/domain/agents.py:516-530 | Lists exactly the cited metrics the snapshot lacks, each once; empty exactly when nothing is invented |
| `Councils.ArtifactsAreGrounded` | app/integrations/oasis/validation.py:35-93 | An accepted artifact is of its council's type, cites no evidence outside the snapshot and no tool call outside those made, leaves out no citation its schema asks for, and a simulation result meets all its bounds |
| `Councils.BallotsAcceptedExactly` | app/integrations/oasis/validation.py:52-83 | The persona payload is accepted if and only if a final ballot exists, all ballots, baseline and final, are well formed, there are no more final ballots than the cohort, and a round was played |
| `Orchestration.Deliberate` | app/integrations/oasis/orchestrator.py:184-261 | The council's work is a function of what its members replied, one after another; the budget was charged exactly their sum; a budget failure means it is exceeded |
| `Orchestration.ActivationOrder` | app/integrations/oasis/orchestrator.py:458-463 | Whatever the generator picks, the shuffled order is a permutation of the personas |
| `Orchestration.BallotRound` | app/integrations/oasis/orchestrator.py:407-456 | Every persona is asked once; ballots, per-persona costs and schema failures are exactly those of the replies |
| `Orchestration.RecordActions` | app/integrations/oasis/orchestrator.py:330-337 | Succeeds exactly when every acting agent belongs to the cohort; then tokens and verified likes are credited to the agents that acted |
| `Orchestration.RunPersonas` | app/integrations/oasis/orchestrator.py:276-405 | The whole persona protocol equals a function of the interview, the social rounds and the final replies, and charges the budget exactly its total |
| `Orchestration.RunSimulation` | app/integrations/oasis/orchestrator.py:107-158 | Whenever it returns, for any personas, rounds and schema failures: consumed tokens equal the sum of council totals, each total the sum of its members, all within the budget; every record's provenance lists exactly what was handed to it; a budget failure means the budget is exceeded |
| `CouncilRecords.LedgerMeaning` | app/integrations/oasis/orchestrator.py:287-348 | Through all rounds, each persona is charged its interview and its own actions, and is counted as reacting exactly when the trace shows a like of an observed stimulus |
| `CouncilRecords.PersonaRowsAreOwn` | app/integrations/oasis/orchestrator.py:371-384 | Each persona's row carries its own two replies and actions, and is completed exactly when its final reply parsed |
| `CouncilRecords.VotedExactly` | app/integrations/oasis/orchestrator.py:438-456 | An agent has an entry exactly when its own reply parsed, whatever name the reply claims |
| `CouncilRecords.PersonaAcceptedExactly` | app/integrations/oasis/orchestration_records.py:74-94 | The persona council completes if and only if some final reply parsed and every object sent is a well-formed ballot |
| `CouncilRecords.OutcomeMeaning` | app/integrations/oasis/orchestrator.py:141-158 | The simulation is completed exactly when all four artifact types were produced and failed exactly when none was |
| `Provenance.PersistSimulation` | app/services/analysis_pipeline.py:615-705 | Each stored artifact names only artifacts stored before it in the same run, and all that its council consumed exactly when all of that was stored, for any adapter's outcome |
| `Provenance.ProvenanceIsExact` | app/services/analysis_pipeline.py:684-701 | For a simulation that returned, whichever councils failed, the stored sources match in order exactly what the council was handed |
| `Provenance.SimulateAndPersist` | app/services/analysis_pipeline.py:585-586 | Simulating and then storing: the two guarantees together, end to end |
| `Arithmetic.CeilDivAtMost` | app/engines/finance.py:75-77 | The integer ceiling is the least integer whose multiple covers the numerator |
| `Finance.CalculateFinance` | app/engines/finance.py:110-241 | Rejects exactly the unusable inputs, naming the fields; otherwise every figure, scenario and warning is the specified one |
| `Finance.BreakEvenExact` | app/engines/finance.py:128-133 | Daily break-even through two nested ceilings equals one ceiling by margin times days, and a scenario's profit is non-negative exactly when its volume reaches it |
| `Finance.BreakEvenDefined` | app/engines/finance.py:125-153 | The three break-even figures exist exactly for a positive margin; otherwise no volume earns and no payback exists |
| `Finance.BreakEvenRevenueBracket` | app/engines/finance.py:131-133 | Break-even revenue lies within one unit's price below the revenue of the break-even units, never above it |
| `Finance.CapacityWarningExact` | app/engines/finance.py:155-164 | The capacity warning is raised exactly when full capacity on every day still loses money at a positive margin |
| `Finance.PaybackWarningExact` | app/engines/finance.py:185-198 | A scenario lacks a payback exactly when the result warns about that scenario |
| `Finance.PaybackIsLeast` | app/engines/finance.py:185-187 | The payback is the least number of months whose profit covers the investment |
| `Finance.RunwayIsGreatest` | app/engines/finance.py:226-228 | The runway is the greatest number of months of fixed cost the investment covers |
| `Finance.RatioIsNearest` | app/engines/finance.py:103-107 | The margin ratio in basis points is the nearest whole number, and a tie goes away from zero, also for a negative margin |
| `Finance.ScenariosAreOrdered` | app/engines/finance.py:166-224 | With a non-negative margin, profit and revenue rise from conservative to optimistic, and a defined payback stays defined and does not grow |
| `Finance.RunFinanceTool` | app/integrations/oasis/orchestrator.py:166-175 | The three tool calls show the council exactly the figures of the report's three scenarios |
| `Finance.ToolStaysInRange` | app/services/analysis_pipeline.py:160-182 | No requested volume leaves the user's range and one inside it is kept; its profit lies between those of the range's ends, in the order the sign of the margin gives |
| `Scoring.ScoreNeverRises` | app/engines/scoring.py:91-178 | Counting more competitors or raising the fixed monthly cost, through break-even, runway, thresholds and rounding, changes no dimension's availability and never raises the score |
| `Scoring.BepMonotone` | app/engines/scoring.py:260-272 | A higher fixed cost never earns more capacity points |
| `Scoring.RunwayAntitone` | app/engines/scoring.py:274-292 | A higher fixed cost never earns more runway points |
| `Scoring.ScoreInRange` | app/engines/scoring.py:350-361 | An available score lies in 0..100 and its interpretation is the band it falls in |
| `Scoring.UnavailableExactly` | app/engines/scoring.py:337-348 | The total is withheld exactly when some dimension is not scorable; exactly those are named; readiness never is one |
| `Scoring.AvailableExactly` | app/engines/scoring.py:91-213 | Which evidence makes the score available, if and only if: all four metrics, both radii equal to the analysis radius, enough price samples, a positive median, a radius that is not zero |
| `Scoring.DivisionFailsExactly` | app/engines/scoring.py:134-157 | Scoring raises if and only if a population at the analysis radius meets a competitor count of -1, whose divisor is zero |
| `Scoring.MinusOneCompetitors` | app/engines/scoring.py:157-157 | A two-record snapshot on which scoring raises |
| `Reports.RisksAreReal` | app/engines/report.py:119-193 | The finance risks are raised exactly when the owner would lose money at full capacity, not earn at the base volume, or hold less than three months of fixed cost |
| `ReportValidation.ValidateReport` | app/engines/report_validation.py:157-219 | The validator's loops return exactly the specified violations, in order |
| `ReportValidation.Collect` | app/engines/report_validation.py:37-47 | Adds exactly the magnitudes of the whole numbers in the tree to what was found before |
| `ReportValidation.ComposedReportAccepted` | app/engines/report.py:503-552 | For every valid input and evidence, a report composed without a simulation has no violation if and only if no catalogue metric's first and last record disagree; distinct metric names suffice |
| `ReportValidation.ComposedReportWithSimulation` | app/engines/report_validation.py:222-258 | With a valid simulation, the violations are exactly the invented numbers, so it is accepted exactly when every number an agent wrote was in its own material |
| `ReportValidation.MarketAgreesExactly` | app/engines/report_validation.py:206-215 | The market section passes if and only if first and last record of each catalogue metric agree |
| `ReportValidation.DuplicateMetricRejected` | app/domain/evidence.py:113-117 | Two competitor counts in one snapshot: the composer shows the first, the validator keeps the last and rejects the report |
| `ReportValidation.AgentViolationsExactly` | app/engines/report_validation.py:148-154 | A violation is reported exactly for a number that a text holds and its scope does not |
| `ReportValidation.ToolFiguresAreSourced` | app/engines/report_validation.py:89-95 | A critique that only repeats what the finance tool showed its council is never reported |
| `ReportValidation.EverythingIsSourced` | app/engines/report_validation.py:199-204 | Every composed risk and recommendation names its source |
| `Analytics.Accumulate` | app/engines/transaction_analytics.py:76-93 | The one loop keeps all three dictionaries equal to what the lines say, key by key |
| `Analytics.RevenueIsConserved` | app/engines/transaction_analytics.py:95-102 | Daily revenues, and hourly revenues, add up to the window's total |
| `Analytics.TransactionsConservedExactly` | app/engines/transaction_analytics.py:81-87 | The transaction counts add up to the distinct transactions if and only if no transaction's lines fall under two keys; otherwise they count more |
| `Analytics.ProductRevenueIsConserved` | app/engines/transaction_analytics.py:104-120 | Product revenues add up to the window's total less the lines of unknown products |
| `Analytics.EligibleExactly` | app/engines/transaction_analytics.py:109-124 | Over the seven-day window a product is eligible exactly when it was in the catalogue on the first day |
| `Analytics.Top` | app/engines/transaction_analytics.py:125-125 | The top product is one of the eligible ones and no eligible one is greater by quantity and name |
| `Analytics.Bottom` | app/engines/transaction_analytics.py:126-128 | The bottom product is one of the eligible ones and no eligible one is smaller |
| `Analytics.ListStartsWithBest` | app/engines/transaction_analytics.py:125-129 | When all products are eligible, the head of the list has the top product's quantity and a name that is not later |
| `Analytics.HeadIsTopExactly` | app/engines/transaction_analytics.py:122-129 | The head of the sorted list is the top product if and only if it is eligible and no eligible product sold as many under another name |
| `Analytics.HeadNeedNotBeTop` | app/engines/transaction_analytics.py:125-129 | Two eligible products with equal quantities: the list starts with the one, the top product is the other |
| `Analytics.ShareIsNearest` | app/engines/transaction_analytics.py:132-135 | The reported share is the nearest whole percent |
| `Analytics.BuildAnalytics` | app/engines/transaction_analytics.py:43-160 | Collects below seven recorded days; otherwise reports the last recorded day and the six before it, with conserved revenues, transaction counts that add up exactly when no transaction falls under two days or two hours, sorted sales and true extremes |

## Left out

- RunTables.RunTable.RecoverStuckRuns: takes the scan as given; the order and limit of the scan query are not modelled.
- EventStream.Stream: heartbeats and the deadline are modelled, the wall-clock length of a poll is not.
- Pipelines.RunAnalysis: an engine that raises fails the run at its own stage, which this theorem does not follow; stored rows are counted by kind, their contents are those of `Provenance.PersistSimulation`.
- Orchestration.RunSimulation: a failure says which error ended the run, not how many replies came before it.
- Scoring.AvailableExactly: the 28-digit precision of `Decimal` is not modelled, so the rounding of a density at that precision may differ.
- Reducers.OrderIsInvisible: quotes are taken in activation order and do depend on it.
- Analytics.BuildAnalytics: names are ordered integers; the texts of insights and limitations are not modelled.
- Applied rule codes, rationales, messages, warnings' texts and failure codes: they repeat the branch taken.
- The ORM session itself: identity map, expiry after rollback and lazy loading; each method commits one change.
- Publishing to Redis and dispatching to Celery: both may be lost or repeated, which the protocol already allows.
- The `cancelled` status is terminal but nothing sets it.
- Council durations, concurrency inside an interview round, prompts and JSON extraction; a reply is the object it parses to, if any, and its cost.
- The stimulus, the action allow-lists and the trace files of the social runtime.
- The manifest's numbers, which no agent text may quote, and the regular expression that finds numbers in a text.
- Evidence confidence, which is a weighted mean of floats, and the merged list of limitations.
- Authentication, invites, products, receipts, exports and PDF rendering: single checks or operations serialised by a row lock.
