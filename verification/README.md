# Durable step machines of the second-brain backend

A Dafny model of the parts of the backend whose correctness depends on several functions at once: the
automation scheduler, the schedule arithmetic under it, the Agent Run executor, calendar evidence and the
Context Hub, and four self-contained algorithms of import and ingestion.  Each database transaction is one
atomic step; a rollback, crash or exception is a step that did not happen; steps of any number of workers
interleave in any order.  Everything is proved for all inputs and all interleavings.

## How the project is organised

| files | what they model |
|---|---|
| `Zone`, `Schedule`, `Recurrence`, `Chain`, `CatchUp` | local-time resolution across gaps and folds, `next_point`, `preview`, the two catch-up loops |
| `SchedulerRows`, `SchedulerSteps`, `SchedulerInvariant`, `SchedulerSafety`, `SchedulerFencing`, `SchedulerSlots`, `SchedulerOperators`, `SchedulerClaims` | automations, occurrences and Runs as stored rows, every transaction as a step, the invariant, and what holds over whole runs |
| `SchedulerStore`, `SchedulerTick`, `Coordinator` | the batch operations as methods that update the tables, the claim loop of a tick, eligibility of a linked Run |
| `AgentRunStates`, `ToolPolicy`, `RunModel`, `RunInvariant`, `RunSafety`, `RunOutcomes`, `RunLog`, `Planning`, `PlanRuns` | one Agent Run with steps, tool invocations, budgets and event log; whole runs of accepted plans |
| `RunStore`, `RunOrchestration` | the executor, recovery and cancellation as methods on the stored Run, and the execution loop |
| `CalendarModel`, `CalendarEvidence`, `CalendarHistory`, `CalendarStore` | sync runs, event revisions, observations, effective state, reopening |
| `ContextPaging` | keyset pages of the three context families |
| `ImportOrder`, `TextProvenance` | project import; line endings, chunks, page locators, evidence offsets |

A specification function per operation (`Reserve`, `Finalize`, `Recover`, `CreateAndLink`, ...) follows the
branches of the code.  The classes `SchedulerStore.Store`, `RunStore.RunRow` and `CalendarStore.Store`
update their fields the way the services update rows, and every method is proved equal to its function; the
invariants and safety theorems are about those functions and about runs of steps built from them.

## Results worth knowing

* The chained comparisons `a != b != c` in `app/automations/coordinator.py` establish nothing by themselves
  (`Coordinator.ChainedComparisonMisses`).  The agreement they are meant to check follows from the revision
  check instead (`Coordinator.EligibleRunAgrees`).
* An accepted plan may still lose a step to the tool budget: planning counts planned uses, execution counts
  calls, and a retry is a call.  `Planning.AcceptedPlanDecision` gives the exact condition,
  `PlanRuns.LastUseIsRefused` a run from creation to failure at any limit, and `PlanRuns.FifthReadIsRefused`
  one with the fixed registry.
* Planning counts uses by tool name and version, execution by name alone; the refinement therefore assumes
  one version per tool name in a plan, which the present registry satisfies.
* A replayed claim is recognised only while the original claim is among the first 1000 events of the Run
  (`RunLog.ReplayedClaim`, `PlanRuns.LateClaimIsForgotten`).
* Reopening matches an observation by event revision while the effective state matches by occurrence key.
  They agree for every event a query shows, not for every stored revision (`CalendarEvidence.ReopenAgreesIff`,
  `CalendarHistory.SupersededIsReachable`).
* `missed` depends on the missed policy alone, and `fail_closed` and `defer_setup` take an occurrence and not
  a claim; the model keeps both as they are.

## Conventions and assumptions

* A zone is a sequence of UTC transitions with offsets, in whole minutes; slots are whole minutes and clock
  values microseconds.  `OrdinaryZone` and `RegularZone` state what is assumed of real zones: transitions do
  not disturb the same wall readings, gaps are at most 24 hours and stay on one local date, folds are at most
  a day.
* Hashes are injective, fresh identifiers are unused, and the idempotency keys of other callers differ from
  occurrence keys.  Row and advisory locks make a transaction atomic; unique constraints are step guards.  The rows a query skips because
  another transaction has locked them are a parameter of each batch.
* One clock orders the database and the application.  Operator transactions read it when they run; a
  scheduler tick keeps the value it read at its start, which may be stale.
* Tool calls, providers, evidence checks and the clock are parameters.  The tool registry is fixed.

## Model

| member | source | states |
|---|---|---|
| `Zone.FoldZeroCases` | app/automations/schedule.py:38-41 | the fold-zero round trip fails exactly inside a gap; outside it gives the first instant that reads at least the request, inside the first instant after the gap is the one |
| `Zone.ValidFoldIsEarliestPreimage` | app/automations/schedule.py:38-41 | a wall reading is invalid exactly when no instant has it, and a valid one gets its earliest instant (the earlier fold) |
| `Zone.FirstAtLeastMonotone` | app/automations/schedule.py:44-57 | "first instant reading at least t" is unique and monotone in t |
| `Schedule.ResolveIsFirstAtLeast` | app/automations/schedule.py:44-57 | resolution within a bound succeeds exactly when the gap ends within it, and then yields the least instant whose reading is at least the request, landing on the first valid minute after a gap |
| `Schedule.ResolveTotal` | app/automations/schedule.py:44-57 | with gaps of at most 24 hours the "did not resolve" error is never raised |
| `Schedule.ResolveLocal` | app/automations/schedule.py:44-57 | the minute loop computes that resolution, or the error |
| `Schedule.PointRebuilt` | app/automations/scheduler.py:105-118 | a slot rebuilt from its stored UTC instant alone equals the slot the calculation produced: same date, time, offset, instant |
| `Schedule.SlotsMonotone` | app/automations/schedule.py:60-75 | slots of later local dates are not earlier |
| `Schedule.WeekdaysGoRound` | app/automations/schedule.py:162-166 | weekday numbers follow the calendar, Thursday 1 January 1970 included |
| `Recurrence.DailyLoop` | app/automations/schedule.py:138-147 | the daily loop computes its scan, including the 367-round bound |
| `Recurrence.WeeklyLoop` | app/automations/schedule.py:148-170 | the weekly loop computes its scan, including the 370-round bound |
| `Recurrence.ComputeNextPoint` | app/automations/schedule.py:109-170 | `next_point` branch by branch computes the function the theorems below are about |
| `Recurrence.LandingIsFirstConfigured` | app/automations/schedule.py:162-166 | the weekday jump lands on the first configured date from the cursor on |
| `Recurrence.SlotsComeLater` | app/automations/schedule.py:109-170 | any slot returned is strictly after the reference instant |
| `Recurrence.WallDropsLessThanADay` | app/automations/schedule.py:132-147 | folds of at most a day never set the wall clock back a full day, which is what bounds the loops |
| `Recurrence.NextPointIsLeast` | app/automations/schedule.py:109-170 | without a prior slot the result is the least canonical slot strictly after the reference; the loop bounds are never reached |
| `Chain.SuccessorDateMeets` | app/automations/schedule.py:138-166 | the computed next date meets the recurrence in calendar terms: exactly interval days on, the next configured day of the week, or the first one exactly interval weeks later |
| `Chain.IntervalOneSkipsNothing` | app/automations/schedule.py:149-169 | with interval one no configured date is stepped over |
| `Chain.SlotKeepsDate` | app/automations/schedule.py:44-75 | when gaps stay on one local date, the slot of a date falls on that date |
| `Chain.LaterDateLaterSlot` | app/automations/schedule.py:109-170 | and slots of later dates are strictly later |
| `Chain.NextFromPrior` | app/automations/schedule.py:109-170 | from a prior slot the next one is the slot of the successor date, found at once and strictly later |
| `Chain.NextConfiguredDate` | app/automations/schedule.py:109-170 | ignoring the prior slot finds the next configured date instead, skipping none |
| `Chain.PriorMattersIff` | app/automations/schedule.py:109-170 | using or ignoring the prior slot agrees exactly when no configured date lies before the successor date |
| `Chain.Preview` | app/automations/schedule.py:173-192 | the preview loop computes its function, and rejects counts outside 1..10 |
| `Chain.PreviewIsChain` | app/automations/schedule.py:173-192 | a preview is a strictly increasing chain of successor slots of the requested length; its "did not progress" error is unreachable |
| `CatchUp.ComputeLatestDueAndFuture` | app/automations/scheduler.py:191-210 | the catch-up loop computes its function |
| `CatchUp.AdvanceCatchesUp` | app/automations/scheduler.py:191-210 | walking the chain stops at the last slot not after now, with the first later slot following it, within elapsed days + 2 rounds |
| `CatchUp.LatestDueIsCorrect` | app/automations/scheduler.py:191-210 | from any slot of the schedule: latest <= now < following, both on the chain, no chain slot between, within the loop limit of 1,000,000 rounds |
| `CatchUp.SameStep` | app/connectors/scheduler.py:76-92 | for interval one the connector step (no prior) is the automation step (with prior) |
| `CatchUp.ConnectorLatestDue` | app/connectors/scheduler.py:76-92 | so the connector loop returns what the automation catch-up returns |
| `SchedulerInvariant.DueMeansIdle` | app/repositories/automations.py:41-74 | an automation the due query returns has no active occurrence: the same-slot exception in the query never fires |
| `SchedulerInvariant.SlotIsNew` | app/automations/scheduler.py:213-277 | materialising always inserts: the slot it computes is never already stored |
| `SchedulerInvariant.LinkShape` | app/automations/scheduler.py:629-691 | a link either replays without writing, or inserts one Run under the occurrence key and links it |
| `SchedulerInvariant.ClaimKeepsInv` | app/automations/scheduler.py:280-323 | a claim keeps the scheduler invariant, the instance capacity of 32 included |
| `SchedulerInvariant.ReclaimKeepsInv` | app/automations/scheduler.py:326-359 | so does taking over an expired lease |
| `SchedulerInvariant.DeferKeepsInv` | app/automations/scheduler.py:447-512 | so does a deferral, which is not fenced by the claim |
| `SchedulerInvariant.FailKeepsInv` | app/automations/scheduler.py:515-540 | so does a fail-closed outcome, which is not fenced either |
| `SchedulerInvariant.ReconcileKeepsInv` | app/automations/scheduler.py:362-427 | so does projecting a Run state into its row |
| `SchedulerInvariant.LinkKeepsInv` | app/automations/scheduler.py:629-691 | so does creating and linking a Run |
| `SchedulerInvariant.MaterializeKeepsInv` | app/automations/scheduler.py:213-277 | so does materialising a slot |
| `SchedulerInvariant.EditKeepsInv` | app/automations/service.py:159-310 | so does any operator edit: revision up, schedule revision up with the schedule, next slot only forward |
| `SchedulerInvariant.EditKeepsCapture` | app/automations/service.py:159-329 | equal automation revision means equal captured snapshot, across every edit |
| `SchedulerInvariant.AttemptKeepsInv` | app/automations/scheduler.py:213-691 | every transaction that commits keeps the invariant |
| `SchedulerInvariant.RunKeepsInv` | app/automations/scheduler_runner.py:43-189 | every interleaving of ticks, operators and Run services keeps it |
| `SchedulerSafety.InvGivesExactlyOnce` | app/automations/scheduler.py:629-691 | a Run with an occurrence key exists exactly if the occurrence is linked to that Run; no two occurrences share a Run; the state tells whether a row is linked |
| `SchedulerSafety.ReachableSafety` | app/automations/scheduler.py:213-691 | in every reachable state: exactly-once, one active occurrence per automation, claimed + run_created <= 32 and live Runs <= 32 |
| `SchedulerSafety.ReconcileSeesRun` | app/automations/scheduler.py:362-427 | the missing-Run and claimed-but-linked branches of reconciliation are dead |
| `SchedulerSafety.ReconcileProjectsRun` | app/automations/scheduler.py:362-427 | reconciliation completes the row exactly for a completed Run, fails it exactly for any other ended Run, and leaves it alone otherwise |
| `SchedulerSafety.MaterializeConsumesDue` | app/automations/scheduler.py:213-277 | one occurrence for everything due, missed or due by the policy alone; the automation is not due again at that clock value |
| `SchedulerSlots.FutureIsCanonical` | app/automations/service.py:205-217 | the slot an operator transaction captures is the slot of a date the schedule has |
| `SchedulerSlots.CatchUpFromStored` | app/automations/scheduler.py:191-210 | catch-up from a canonical slot ends in canonical slots around now, or, for a one-time schedule, in that slot alone |
| `SchedulerSlots.MaterializeKeepsSlots` | app/automations/scheduler.py:213-277 | materialising leaves a canonical next slot and inserts a canonical one |
| `SchedulerSlots.EditKeepsSlots` | app/automations/service.py:159-310 | an edit keeps every slot canonical: the schedule stays with its revision or gets one no occurrence has |
| `SchedulerSlots.RunKeepsSlots` | app/automations/scheduler.py:213-691 | over any run, in regular zones, every next slot and every occurrence of the current schedule revision is a slot of the stored schedule |
| `SchedulerSlots.MaterializeIsExact` | app/automations/scheduler.py:191-277 | in every state reached from empty tables, a due automation materialises without a schedule error within the loop limit, gets the last chain slot not after now, and waits for the first one after now |
| `SchedulerOperators.CaptureIsFirst` | app/automations/schedule.py:109-170 | the captured slot is the first slot of the schedule after the clock, none lying between; only a one-time schedule whose instant has passed has none |
| `SchedulerOperators.ActivationCapturesFirst` | app/automations/service.py:246-310 | enable and resume are granted exactly at the expected revision and lifecycle, for an existing scope and a schedule with a future; the row then waits for the first slot after the clock |
| `SchedulerOperators.UpdateCapturesFirst` | app/automations/service.py:159-220 | an update takes exactly the fields of the patch; a new schedule gives a paused automation its first slot after the clock and a draft none |
| `SchedulerOperators.UpdateGrantedIff` | app/automations/service.py:159-214 | and is granted exactly so: revision, lifecycle (only the title once enabled), scope, schedule |
| `SchedulerOperators.OtherEditsDecide` | app/automations/service.py:223-329 | pause, cancel and the execution mode: exactly when each is granted and the whole row it leaves |
| `SchedulerOperators.CreationDecides` | app/automations/service.py:127-156 | a new automation is a draft without a next slot, for a valid schedule and an existing scope |
| `SchedulerOperators.EnabledWaitsForFirst` | app/automations/service.py:246-310 | in every state reached from empty tables, an enabled or resumed automation waits for its first slot after the clock |
| `SchedulerClaims.DueIff` | app/repositories/automations.py:41-74 | an automation is due exactly from its next slot on, while enabled and with nothing active |
| `SchedulerClaims.OccurrenceCaptures` | app/automations/scheduler.py:158-277 | a new occurrence copies its automation and says whether a missed slot waited more than seven days |
| `SchedulerClaims.ClaimGrantedIff` | app/automations/scheduler.py:280-323 | a claim is granted exactly for a due occurrence whose slot and retry delay have come, of an unedited enabled automation, for 10 to 300 seconds, below 32 busy occurrences; and the whole row it leaves |
| `SchedulerClaims.TakeoverGrantedIff` | app/automations/scheduler.py:326-359 | a takeover is granted exactly from the expiry of the lease on; and the whole row it leaves |
| `SchedulerClaims.LeaseHoldsUntil` | app/automations/scheduler.py:543-568 | a granted lease is good for exactly its duration while the automation is not edited |
| `SchedulerClaims.LiveLeaseIsExclusive` | app/automations/scheduler.py:326-359 | the lease of a claimed occurrence moves to another owner or generation only by a takeover whose clock value is at or after its expiry |
| `SchedulerClaims.RenewedIff` | app/automations/scheduler.py:571-593 | renewal is granted exactly to the holder of the live lease and moves only the expiry |
| `SchedulerClaims.ClaimsAreOldest` | app/repositories/automations.py:140-181 | a claim batch takes the waiting occurrences with the oldest slots, as many as batch and capacity allow |
| `SchedulerClaims.TakeoversAreOldest` | app/repositories/automations.py:195-215 | a takeover batch takes the leases that ran out first |
| `SchedulerClaims.ReconciledAreOldest` | app/repositories/automations.py:218-237 | a reconcile batch takes the linked occurrences with the oldest slots |
| `SchedulerClaims.MaterializedAreOldest` | app/repositories/automations.py:41-74 | a materialise batch takes the automations that have been due longest |
| `SchedulerClaims.LinkCommitsIff` | app/automations/scheduler.py:629-691 | a link commits exactly for the holder of the live lease, an unedited automation, an existing agent and Project and fewer than 32 live Runs, or as a replay |
| `SchedulerClaims.FullInstanceRefusesLink` | app/automations/scheduler.py:629-691 | with all else in order the link is refused for capacity exactly at 32 live Runs |
| `SchedulerClaims.MissingScopeRefusesLink` | app/automations/scheduler.py:654-674 | and what the holder is told when the agent or the Project is gone |
| `SchedulerClaims.LinkedRunAsks` | app/automations/scheduler.py:596-622 | the linked Run asks for the Project, agent and goal the occurrence captured |
| `SchedulerClaims.RequestDecides` | app/agent_runs/service.py:140-214 | a request under a key gets the Run of that key, a conflict, a capacity or Project refusal, or a new Run, and exactly when |
| `SchedulerClaims.DelaysDouble` | app/automations/scheduler.py:430-435 | retry delays are 5 to 9 seconds after the first try and 10 to 14 after the second |
| `SchedulerClaims.DeferralDecides` | app/automations/scheduler.py:447-512 | a full instance counts no try; the third try, or the last one the automation allows, closes the row; any other waits its delay |
| `SchedulerClaims.DeferredWaits` | app/automations/scheduler.py:447-512 | no worker gets a deferred occurrence within five seconds |
| `SchedulerClaims.ClosingDecides` | app/automations/scheduler.py:515-540 | closing is refused exactly for missing or linked rows, leaves ended rows alone and fails any other for the operator |
| `SchedulerSafety.LinkIsIdempotent` | app/automations/scheduler.py:629-691 | a repeated link, by any later caller, finds the same Run and writes nothing |
| `SchedulerSafety.RunHistoryHolds` | app/automations/scheduler.py:213-691 | over any run: links are write-once, terminal rows are frozen, lease generations never decrease, automation revisions never decrease |
| `SchedulerFencing.GrantRaisesGeneration` | app/automations/scheduler.py:280-359 | a grant raises the stored generation by one and installs its owner |
| `SchedulerFencing.GrantsAreDistinct` | app/automations/scheduler.py:280-359 | two grants of one occurrence anywhere in a run have different generations, deferral included |
| `SchedulerFencing.OnlyTheHolderLinks` | app/automations/scheduler.py:543-593 | a link appears only through a claim with the stored owner and generation, a lease not yet expired at its clock value, and an enabled automation at the captured revision |
| `SchedulerFencing.SpentStaysSpent` | app/automations/scheduler.py:543-593 | a lease that was taken over, given back or used up stays so over any run |
| `SchedulerFencing.SpentClaimNeverLinks` | app/automations/scheduler.py:629-691 | a superseded claim never links later, whatever `now` its stale tick still uses |
| `SchedulerFencing.TakeoverSpends` | app/automations/scheduler.py:326-359 | a grant spends every earlier claim of the occurrence |
| `SchedulerFencing.SlotsIncrease` | app/automations/scheduler.py:191-277 | within a schedule revision, occurrences inserted later have strictly later slots |
| `SchedulerStore.Store.ClaimDue` | app/automations/scheduler.py:280-323 | refuses exactly a bad lease or, with capacity left, a bad batch limit; otherwise claims exactly the oldest unlocked claimable rows up to batch and capacity, returns one claim per row, and is that many single claim steps |
| `SchedulerStore.Store.ReclaimExpired` | app/automations/scheduler.py:326-359 | refuses exactly a bad lease or batch limit; otherwise takes over exactly the first expired unlinked claims under new generations and returns those claims |
| `SchedulerStore.Store.ReconcileLinked` | app/automations/scheduler.py:362-427 | works on exactly the first linked rows, returns them, and is the sequence of single reconcile steps |
| `SchedulerStore.Store.MaterializeDue` | app/automations/scheduler.py:213-277 | a bad limit is refused; otherwise it is the sequence of materialise steps of exactly the first due automations, each of them enabled, or the ScheduleFailed of the first that cannot be calculated, with nothing written |
| `SchedulerStore.FirstRowsAreOldest` | app/repositories/automations.py:140-181 | the rows of a batch are distinct, sorted by key and identifier, as many as there are up to the limit, and none left out precedes one taken |
| `SchedulerStore.Store.DeferSetup` | app/automations/scheduler.py:447-512 | deferral field by field, its exhaustion and its refusals |
| `SchedulerStore.Store.CloseFailed` | app/automations/scheduler.py:515-540 | fail-closed field by field; a terminal row is left alone |
| `SchedulerStore.Store.RenewClaim` | app/automations/scheduler.py:571-593 | renewal extends the lease of the exact live claim only |
| `SchedulerStore.Store.CreateAgentRun` | app/agent_runs/service.py:140-214 | replay before capacity, then project check, then insert |
| `SchedulerStore.Store.CreateAndLinkRun` | app/automations/scheduler.py:629-691 | the linking transaction in full; an error leaves nothing behind |
| `SchedulerStore.Store.Update` | app/automations/service.py:159-220 | an operator update with its revision bumps and refusals |
| `SchedulerStore.Store.EnableFrom` | app/automations/service.py:246-310 | enable and resume capture the first future slot |
| `SchedulerTick.HandleClaim` | app/automations/scheduler_runner.py:87-145 | one end for every outcome: an acknowledged link is reported with its Run; a full instance is deferred for capacity; a transient fault is deferred or, after the last attempt, closed; any other error is closed; a lost acknowledgement is linked exactly if the row is stored linked, else closed; it aborts exactly when the row left by other sessions cannot be settled |
| `SchedulerTick.HandleClaims` | app/automations/scheduler_runner.py:82-145 | every claim up to the first that cannot be settled ends as above on the tables the previous one left, and the report is exactly the record of those ends; without an abort all claims are handled; reported links are stored |
| `SchedulerTick.AllClaims` | app/automations/scheduler_runner.py:79-81 | reclaimed claims come first, then the granted ones not among them: no occurrence is handled twice and none is lost |
| `SchedulerTick.InItsList` | app/automations/scheduler_runner.py:82-145 | each list of the report holds exactly the occurrences whose claim ended that way |
| `SchedulerTick.ExactlyOneList` | app/automations/scheduler_runner.py:82-145 | a claimed occurrence is in the list of its own end and in no other |
| `Coordinator.EligibleRunAgrees` | app/automations/coordinator.py:35-94 | every Run the coordinator takes up agrees with its occurrence and automation on kind, version and project |
| `Coordinator.EligibleIff` | app/automations/coordinator.py:35-94 | in reachable states a Run is taken up exactly if its automation is enabled, automatic and unedited, agent and Project exist, and it is completed, failed, or alive before its deadline; the other checks decide nothing |
| `Coordinator.ChainedChecksNeverDecide` | app/automations/coordinator.py:65-67 | in reachable states the chained comparisons never reject a row whose revision is current |
| `Coordinator.ChainedComparisonMisses` | app/automations/coordinator.py:65-67 | on its own `a != b != c` misses a difference exactly when one neighbouring pair is equal and the other is not |
| `Coordinator.ChainedChecksAcceptWrongProject` | app/automations/coordinator.py:65-67 | concrete rows that disagree on the project and pass the chained checks |
| `ToolPolicy.AcceptedWithinBudgets` | app/agent_tools/policy.py:87-135 | a call accepted once is refused later, with a provider at least as available, only by one of the two budget checks, and says which |
| `ToolPolicy.FixedRegistryCalls` | app/agent_tools/policy.py:87-149 | with the fixed registry exactly these calls are accepted: the Project of the Run, memories, sources and chunks by identifier, the explained search with a provider unless lexical, five times each within the Run budget |
| `RunInvariant.CallStarts` | app/agent_runs/executor.py:252-397 | a new call of the next step keeps the order of calls and steps |
| `RunInvariant.CallSucceeds` | app/agent_runs/executor.py:499-512 | recording a success keeps it |
| `RunInvariant.EverythingStops` | app/agent_runs/executor.py:416-438 | discarding every active call and cancelling every open step keeps it and leaves nothing open |
| `RunInvariant.ReserveKeepsInv` | app/agent_runs/executor.py:252-397 | reserving keeps the Run invariant and all three budgets |
| `RunInvariant.FinalizeKeepsInv` | app/agent_runs/executor.py:462-559 | so does finalizing, in every state and for every result |
| `RunInvariant.RecoverKeepsInv` | app/agent_runs/recovery.py:125-259 | so does recovery |
| `RunInvariant.CancelKeepsInv` | app/agent_runs/service.py:281-332 | so does cancellation |
| `RunInvariant.StepKeepsInv` | app/agent_runs/executor.py:126-630 | so does every other committed transaction of a Run |
| `RunInvariant.RunsKeepInv` | app/agent_runs/executor.py:126-630 | so does every interleaving of them |
| `RunSafety.ReachableRuns` | app/agent_runs/executor.py:252-559 | in every reachable Run: RUNNING steps read succeeded*, one running or pending, pending*; at most one active call; attempts of a step are {}, {0} or {0,1}; at most 20 calls, 1 retry, calls_per_run per tool, 12 steps, deadlines 600 seconds after creation; awaiting_approval is never entered |
| `RunSafety.AttemptsAreZeroOne` | app/agent_runs/executor.py:294-322 | the attempts of a step are {}, {0} or {0,1}, each once |
| `RunSafety.ReserveRefusedIffInFlight` | app/agent_runs/executor.py:259-322 | `reserve_next` finds the plan invalid exactly while a call is in flight and no earlier exit applies |
| `RunSafety.CompletedMeans` | app/agent_runs/executor.py:562-630 | COMPLETED: every step has exactly one succeeded call, and it is its last |
| `RunSafety.CancelledMeans` | app/agent_runs/service.py:281-332 | CANCELLED: no pending or running step and no active call |
| `RunSafety.StepEvolves` | app/agent_runs/service.py:217-278 | every transaction makes at most one legal transition, logs it with the next revision, and changes no ended call or step |
| `RunSafety.RunsEvolve` | app/agent_runs/executor.py:126-630 | over any run: limits, ended calls, ended steps and terminal Runs stay; the log only grows |
| `RunSafety.LateResultsNeverCount` | app/agent_runs/executor.py:471-498 | a call that ended or was discarded is answered "stop" and changes nothing, however much later its worker reports |
| `RunSafety.TerminalRunsStay` | app/agent_runs/executor.py:482-490 | after a Run ended no result changes its state, revision or steps, and no open call can still succeed |
| `RunSafety.FreshCallsAreLeftAlone` | app/agent_runs/recovery.py:178-188 | recovery leaves an active call alone exactly while its timeout plus 30 seconds have not passed; from then on the call is not active any more or the Run has stopped |
| `RunSafety.RecoveredCallIsRetried` | app/agent_runs/recovery.py:205-251 | a stale first call of a pure read is discarded, and the next reservation is its one retry for the same step, subject only to the tools of the worker and to policy |
| `RunSafety.CompletesIff` | app/agent_runs/executor.py:562-630 | a RUNNING Run completes exactly when all steps succeeded and every required result is among the first 1000 events; it fails exactly when only a result is missing |
| `RunOutcomes.ResultDecides` | app/agent_runs/executor.py:499-559 | a result in time: an output that fits makes the step succeed, an error is recorded and either leaves the step for its one retry (first call, pure read, transient error) or fails the Run; nothing else changes |
| `RunOutcomes.LateResultExpires` | app/agent_runs/executor.py:491-498 | a result at or after the deadline expires the Run, discards every active call as deadline_expired, cancels every open step and is answered stop |
| `RunOutcomes.ResultAfterTheEnd` | app/agent_runs/executor.py:482-490 | a result for a Run that stopped only discards its call, with the code of a cancellation or of a late result |
| `RunOutcomes.NothingCountsAfterTheDeadline` | app/agent_runs/executor.py:252-559 | over any run of transactions whose clocks have passed the deadline, no call starts, no call succeeds and no step succeeds |
| `RunOutcomes.SuccessIsAGoodResult` | app/agent_runs/executor.py:462-559 | a call succeeds only by an output that fits, without error, reported for that call before the deadline of a RUNNING Run |
| `RunOutcomes.CallStartsIff` | app/agent_runs/executor.py:252-397 | a call starts exactly before the deadline, for the next step, pending or waiting for its safe retry, with a permitted tool and input, within every budget |
| `RunOutcomes.ReachableCallsArePermitted` | app/agent_tools/policy.py:87-135 | every call of every reachable Run was permitted: current registry, registered tool, accepted input, own Project for project.get, no operator tool, a provider where one is needed; every retry follows a transient failure of a pure read |
| `RunOutcomes.RecoveryDecides` | app/agent_runs/recovery.py:125-259 | recovery expires what is past its deadline, gives up the call waited for long enough, and changes nothing else: its other branches are dead |
| `RunOutcomes.FixedRegistryWaits` | app/agent_runs/recovery.py:178-188 | with the fixed registry it waits 40 seconds for every tool |
| `RunOutcomes.PlanningClaimedIff` | app/agent_planning/service.py:83-135 | planning is claimed exactly from a supported new Run; a Run with a plan of 1 to 12 steps is handed back unchanged |
| `RunOutcomes.PlanningEndsOnce` | app/agent_planning/service.py:288-347 | the claimed planning ends once, with exactly the plan as pending steps or as a failure |
| `RunOutcomes.CancelledIff` | app/agent_runs/service.py:281-332 | a Run is cancelled exactly while it has not ended and its revision was seen; every row it leaves; twice is once |
| `RunOutcomes.LateClaimExpires` | app/agent_runs/executor.py:161-182 | claiming at or after the deadline expires the Run instead |
| `RunOutcomes.StatesMove` | app/agent_runs/service.py:217-278 | the transitions any transaction can make |
| `RunOutcomes.ExpiredOnTime` | app/agent_runs/service.py:238-248 | a Run expires only through a clock value at or after the deadline of its phase |
| `RunLog.ReachableLogs` | app/repositories/agent_runtime.py:391-433 | event sequences are contiguous from 0; replaying the log gives the state and revision; the revision counts the transitions; READY to RUNNING is logged at most once, and is there once RUNNING |
| `RunLog.RevisionsRise` | app/agent_runs/service.py:249-276 | resulting revisions in a replayable log strictly increase |
| `RunLog.OneClaimEvent` | app/agent_runs/executor.py:206-212 | no replayable log has two claim events |
| `RunLog.ReplayedClaim` | app/agent_runs/executor.py:142-149 | a replayed claim never transitions: RUNNING refuses it; a Run that ended accepts it exactly when it names the claimed revision and the claim is among the first 1000 events |
| `RunLog.ClaimGrantedIff` | app/agent_runs/executor.py:150-212 | execution is granted exactly to a READY Run at the current revision, before its deadline, whose plan is within budget and names only registered and allowed tools |
| `RunLog.OneWinnerPerRevision` | app/agent_runs/service.py:231-237 | of all requests naming one expected revision, at most one ever changes the Run |
| `RunLog.ClaimedOnce` | app/agent_runs/executor.py:126-221 | execution is claimed at most once over the life of a Run |
| `Planning.ValidatePlan` | app/agent_planning/service.py:194-285 | the validation loop accepts exactly those plans without forbidden text, and separates output from policy rejections |
| `Planning.AcceptedIsExecutable` | app/agent_planning/service.py:194-285 | the step-by-step checks with running counters accept exactly the plans of 1 to 12 different steps whose every call is permitted (own Project, provider, no operator tool) and whose uses of each tool stay within its limit |
| `Planning.CallsAreStepsAndRetries` | app/repositories/agent_runtime.py:233-245 | calls of a tool name are the steps reached that use it plus its retries |
| `Planning.CallsWithinSteps` | app/agent_runs/executor.py:318-326 | never more calls than steps plus retries |
| `Planning.AcceptedPlanDecision` | app/agent_tools/policy.py:125-130 | the exact policy decision for the next call, or retry, of an accepted plan, also when a provider has appeared since |
| `Planning.RetryFreeNeverRejected` | app/agent_planning/service.py:247-259 | without retries no step of an accepted plan is refused its call (one version per tool name) |
| `Planning.RetryCanExhaustTheTool` | app/agent_tools/policy.py:129-130 | with retries the tool budget stops a pending step exactly when earlier uses plus retries of that name reach the limit |
| `Planning.TotalBudgetNeverStops` | app/agent_runs/service.py:187-189 | with the budgets 12/20/1 every Run gets, the total budget never stops a call, retry included |
| `PlanRuns.FinalizedPlanIsExecuted` | app/agent_planning/service.py:288-340 | whatever happens after planning, the Run executes exactly the finalized plan |
| `PlanRuns.FinalizedPlanIsNeverRefused` | app/agent_planning/service.py:194-340 | from finalization on, no retry-free execution of an accepted plan is refused a call |
| `PlanRuns.LastUseIsRefused` | app/agent_tools/policy.py:129-130 | for every accepted plan that uses its first tool as often as the limit allows: a run from creation in which the first call times out and is retried, every other call succeeds, the last planned use is refused and the Run fails |
| `PlanRuns.FifthReadIsRefused` | app/agent_tools/registry.py:147-205 | the fixed registry has such plans: any five different memory reads pass validation, and after one retry the fifth is refused |
| `PlanRuns.LateClaimIsForgotten` | app/agent_runs/executor.py:95-149 | with m events logged between planning and the claim, a cancelled Run answers its claimant when 3 + m < 1000 and refuses the same call otherwise |
| `RunStore.RunRow.AppendEvent` | app/repositories/agent_runtime.py:408-433 | the next event gets the maximum sequence plus one |
| `RunStore.RunRow.TransitionRun` | app/agent_runs/service.py:217-278 | the checked transition; a refusal writes nothing |
| `RunStore.RunRow.CancelRun` | app/agent_runs/service.py:281-332 | cancellation row by row |
| `RunStore.RunRow.ClaimForExecution` | app/agent_runs/executor.py:126-221 | the execution claim with all its refusals |
| `RunStore.RunRow.FindOriginalClaim` | app/agent_runs/executor.py:95-105 | the scan for the original claim within the first 1000 events |
| `RunStore.RunRow.Expire` | app/agent_runs/executor.py:416-438 | deadline expiry row by row |
| `RunStore.RunRow.ReserveNext` | app/agent_runs/executor.py:252-397 | reservation branch by branch, its counters read from the rows |
| `RunStore.RunRow.FinalizeInvocation` | app/agent_runs/executor.py:462-559 | finalization branch by branch |
| `RunStore.RunRow.CompleteRun` | app/agent_runs/executor.py:562-630 | completion, or failure when a required result is missing |
| `RunStore.RunRow.PrepareOne` | app/agent_runs/recovery.py:125-259 | recovery branch by branch; a claim to continue is returned exactly for a RUNNING Run without an active call |
| `RunOrchestration.ReserveAlone` | app/agent_runs/orchestration.py:101-110 | a worker that is alone gets its next call or has nothing left to call |
| `RunOrchestration.FinalizeNeverRaises` | app/agent_runs/executor.py:462-559 | finalizing never raises in a reachable Run |
| `RunOrchestration.CallRound` | app/agent_runs/orchestration.py:101-160 | one turn of the loop beside other workers is exactly the turn defined from reservation, tool call and finalization: rows, whether a call was made, and how it ended |
| `RunOrchestration.ExecuteReadOnlyRun` | app/agent_runs/orchestration.py:76-184 | the method is exactly the execution defined as claim, loop, result and completion, refusals included; its history is a run of committed steps and its calls fit into what the budget had left |
| `RunOrchestration.LoopIsARun` | app/agent_runs/orchestration.py:101-160 | the loop is a run of committed steps, ends, and makes at most as many calls as the budget has left |
| `RunOrchestration.ExecutedIsARun` | app/agent_runs/orchestration.py:76-184 | the whole execution beside any other workers is a run of committed steps, so every invariant of Runs holds throughout |
| `RunOrchestration.ExecutedAlone` | app/agent_runs/orchestration.py:76-184 | a worker that is alone and gets the claim never raises and leaves the Run ended |
| `CalendarEvidence.RecordRevisionKeeps` | app/repositories/calendar.py:124-151 | equal content reuses its revision, other content gets the next one; revisions of an occurrence stay distinct |
| `CalendarEvidence.RevisionDecides` | app/repositories/calendar.py:124-151 | which stored revision is reused, or every field of the next one: number, first and last seen |
| `CalendarEvidence.RecordObservationKeeps` | app/repositories/calendar.py:154-184 | one observation per run and occurrence, tied to the revision of the same calendar |
| `CalendarEvidence.PageKeeps` | app/calendar/sync.py:470-485 | a recorded page keeps the table invariant, the counter included, and touches no finished run |
| `CalendarEvidence.StepKeepsInv` | app/calendar/sync.py:399-516 | so does every transaction of a refresh |
| `CalendarEvidence.RunsKeepInv` | app/calendar/sync.py:399-516 | over any history of refreshes stored revisions and finished runs with their observations are frozen |
| `CalendarEvidence.SucceedNeverMiscounts` | app/repositories/calendar.py:187-196 | a refresh that recorded all its pages is never refused for its evidence count |
| `CalendarEvidence.ScanIsFold` | app/calendar/query.py:176-183 | scanning the eligible runs newest first equals folding them oldest first, state and evidence run |
| `CalendarEvidence.EffectiveIsNewest` | app/calendar/query.py:154-183 | the state names the newest run that observed or covers the event, and is missing exactly when none does |
| `CalendarEvidence.SuccessIsOneStep` | app/calendar/query.py:154-183 | when the newest run of a calendar succeeds, an event it observed becomes current, one it covers without observing becomes stale, any other keeps its state |
| `CalendarEvidence.OtherStepsKeepState` | app/calendar/sync.py:399-516 | no other transaction of a refresh changes the state of any event |
| `CalendarEvidence.CoveredIsOverlap` | app/calendar/query.py:125-144 | a run covers an event exactly when some instant lies in both the event and the window; all-day events last from local midnight to local midnight and are not covered without a known zone |
| `CalendarEvidence.ScanAnswers` | app/calendar/query.py:176-183 | the scan names the newest run that saw the event or whose window it falls into, and says current or stale accordingly; nothing else is missing |
| `CalendarEvidence.EffectiveAnswers` | app/calendar/query.py:154-183 | so does the answer on the stored rows |
| `CalendarEvidence.SuccessByOverlap` | app/calendar/query.py:154-183 | when the newest run of a calendar succeeds, an event it saw becomes current, one it did not see but whose time meets its window becomes stale, any other stays |
| `CalendarEvidence.LatestPositiveDecides` | app/calendar/query.py:80-122 | for events of the latest-positive query the scan never falls through, and a current one is the very revision its evidence run observed |
| `CalendarEvidence.ReopenAgreesIff` | app/context_hub/service.py:509-548 | for any stored revision with a state, reopening gives the same item exactly when, if current, its evidence run observed that revision |
| `CalendarEvidence.ReopenGivesTheItem` | app/context_hub/service.py:292-357 | for every event a query shows they agree |
| `CalendarEvidence.ReopenIsStable` | app/context_hub/service.py:509-548 | no later sync changes what a provenance reopens to |
| `CalendarEvidence.ReopenIsSound` | app/context_hub/service.py:509-548 | what reopens belongs to the scope, to a succeeded run and an event of one calendar; its fields are those of the event; current exactly if the run saw that revision, stale only if its window meets the event |
| `CalendarEvidence.ReopenRoundTrip` | app/context_hub/service.py:509-548 | at once and after any later syncs, a provenance from a query gives back the same item |
| `CalendarHistory.ReachableHistories` | app/repositories/calendar.py:28-196 | every history from empty tables, configuration included, meets the table invariant and keeps what it froze |
| `CalendarHistory.ReachableRoundTrip` | app/context_hub/service.py:509-548 | in every state reached from empty tables, what a query shows reopens to the same item, then and after any later transactions |
| `CalendarHistory.ReachableRefreshes` | app/models/calendar.py:210-215 | in every reachable state at most one refresh of a calendar is under way, windows are proper, and only succeeded runs are complete, with evidence and matching counts |
| `CalendarHistory.SupersededReopensIff` | app/context_hub/service.py:509-548 | an older revision of an occurrence whose newest run saw another revision reopens to what the query would say exactly when that is not current |
| `CalendarHistory.SupersededIsReachable` | app/context_hub/service.py:509-548 | two refreshes with different contents reach such a revision: called current, and not reopened as such |
| `CalendarStore.Store.RecordEventRevision` | app/repositories/calendar.py:87-151 | the lookup loop and insert of a revision |
| `CalendarStore.Store.RecordEventObservation` | app/repositories/calendar.py:154-184 | the observation insert and its refusals |
| `CalendarStore.Store.RecordFetchedPage` | app/calendar/sync.py:465-485 | one page in one transaction; any error leaves nothing behind |
| `CalendarStore.Store.FinishSucceeded` | app/repositories/calendar.py:187-196 | evidence completion with the successful finish |
| `CalendarStore.EffectiveEvidence` | app/calendar/query.py:167-183 | the scan loop returns at the first run that saw the event or overlaps it |
| `ContextPaging.SelectPast` | app/context_hub/service.py:123-150 | the rows after a position are those behind it in the ORDER BY: asking past the n-th row drops exactly n rows, for the mixed-direction keyset too |
| `ContextPaging.FilterSelect` | app/context_hub/service.py:220-233 | filtering in the query or after selecting gives the same rows |
| `ContextPaging.KeysetPageSplits` | app/context_hub/service.py:144-179 | a keyset page takes its items off the front and is exhausted exactly when nothing is left |
| `ContextPaging.CalendarPageSplits` | app/context_hub/service.py:312-357 | a calendar page, filtered by derived state, looks at no more than 200 rows and at fewer only when full or at the end; it loses and repeats nothing |
| `ContextPaging.FamilyPageSplits` | app/context_hub/service.py:380-390 | the same for any family |
| `ContextPaging.PageConserves` | app/context_hub/service.py:360-399 | shown so far plus what remains is always the full filtered list of each family |
| `ContextPaging.PageAdvances` | app/context_hub/service.py:360-399 | each call with an unexhausted family makes the work ahead smaller |
| `ContextPaging.FollowingShowsEverything` | app/context_hub/service.py:360-399 | following positions to the end of a fixed snapshot shows exactly the full filtered list of each family, in order, in boundedly many calls |
| `ContextPaging.FollowingFromTheStart` | app/context_hub/service.py:360-399 | from the first page on, in at most rows + 3 calls, every requested family is shown in query order: exactly its rows in one of the requested states |
| `ContextPaging.ScanWindow` | app/context_hub/service.py:320-356 | the calendar loop shows the filtered part of the rows it scanned and reports the last of them |
| `ContextPaging.CalendarItems` | app/context_hub/service.py:292-357 | with its window and its exhaustion flag |
| `ContextPaging.QueryContextPage` | app/context_hub/service.py:360-399 | the loop answers every requested family with one group, in the fixed order, without querying an exhausted one, and moves every position as a page read does |
| `ContextPaging.GroupsInOrder` | app/context_hub/service.py:360-399 | the groups are local sources, GitHub, calendar, each at most once |
| `ImportOrder.WalkFrom` | app/project_import/service.py:330-338 | the walk from one Memory ends outside the links or finds a closed path |
| `ImportOrder.FindCycle` | app/project_import/service.py:325-338 | the walks raise exactly when the supersession links have a cycle |
| `ImportOrder.RequireRefs` | app/project_import/service.py:287-338 | the reference checks accept exactly the closed, single-project, acyclic bundles |
| `ImportOrder.HoldsIffClosed` | app/project_import/service.py:287-324 | the table of references and the Project checks accept exactly the bundles in which every reference of every file is answered inside and every Project is the one imported |
| `ImportOrder.MemoryOrder` | app/project_import/service.py:382-401 | a permutation with every Memory after the one it supersedes; on closed references it raises exactly when there is a cycle |
| `ImportOrder.NothingReadyMeansCycle` | app/project_import/service.py:395-396 | a round with nothing ready exhibits a cycle |
| `ImportOrder.OrderedHasNoCycle` | app/project_import/service.py:382-401 | an order with predecessors first leaves no room for a cycle |
| `ImportOrder.InsertionMeetsForeignKeys` | app/project_import/service.py:56-66 | inserting in INSERT_ORDER meets every foreign key at every row |
| `ImportOrder.ImportProject` | app/project_import/service.py:482-489 | an accepted bundle is inserted completely, with no reference dangling at any insertion |
| `TextProvenance.NormalizeIsOnePass` | app/ingestion/text.py:21-23 | the two replacements read every line ending once |
| `TextProvenance.NormalFormIff` | app/extraction/canonical.py:25-26 | normal text has no CR, normalizing twice changes nothing, and exactly CR-free text is left as it is |
| `TextProvenance.ChunkText` | app/ingestion/text.py:31-62 | the chunk loop returns the numbered non-blank windows or the right error; its second no-progress error is unreachable |
| `TextProvenance.SpanIsInOneChunk` | app/ingestion/text.py:37-58 | any non-blank span of at most overlap + 1 characters lies inside one chunk |
| `TextProvenance.ChunksCover` | app/ingestion/text.py:31-62 | chunks are exact non-blank slices with strictly increasing starts, and every non-blank character is covered |
| `TextProvenance.NoChunksIffBlank` | app/ingestion/text.py:31-62 | exactly blank text gives no chunks |
| `TextProvenance.ExtractPages` | app/ingestion/files.py:134-148 | the cursor loop produces the joined text and its page ranges |
| `TextProvenance.RangesCutPages` | app/ingestion/files.py:137-148 | each range cuts its page out of the joined text; between ranges there are only line feeds |
| `TextProvenance.AssignPageLocators` | app/ingestion/files.py:170-187 | each chunk is copied with the locator of the pages it overlaps |
| `TextProvenance.PagesOfExact` | app/ingestion/files.py:176-180 | the pages named are exactly those with a character in the chunk |
| `TextProvenance.EveryChunkHasAPage` | app/ingestion/files.py:170-187 | every chunk of a PDF text gets a page locator |
| `TextProvenance.ValidateResult` | app/extraction/canonical.py:81-154 | all proposals are accepted or none; the output lists them in order |
| `TextProvenance.EvidenceIsInTheDocument` | app/extraction/canonical.py:109-122 | in CR-free text the absolute span of every accepted proposal cuts exactly its evidence out of the document, inside the chunk it cites |
| `TextProvenance.AcceptedRowsAreBounded` | app/extraction/canonical.py:81-154 | accepted rows have stripped content of 1 to 50,000 characters, a title of at most 255, evidence within the cited chunk, scores between 0 and 1, and no chunk has too many |
| `TextProvenance.PdfEvidenceIsOnItsPages` | app/extraction/canonical.py:109-122 | for a PDF: every character of accepted evidence that is no space stands at its place on a page of the file, and the cited chunk names that page |
| `TextProvenance.SnapshotIsSliceIff` | app/extraction/canonical.py:38-41 | a normalized snapshot is the document slice exactly when the slice has no CR |

## Left out

- SchedulerInvariant.RunKeepsInv: says nothing about progress. A due occurrence whose automation revision moved on is neither claimable nor skipped by the due query, so liveness does not hold as written.
- SchedulerSafety.ReachableSafety: states exclusive ownership only for linking, because `fail_closed` and `defer_setup` are not fenced by a claim.
- Occurrences and automations are immutable row values in the tables of `SchedulerStore.Store`; aliasing between ORM objects of one session is not captured.
- Notifications, capacity lock keys and the diagnostics of the scheduler, which carry no state the steps depend on.
- SchedulerOperators.CreationDecides: refusals for the definition, the Project and the execution mode are one error; labels and capacity limits are not modelled.
- CatchUp.ConnectorLatestDue: the seven-day lookback flag next to the connector loop is not part of the result, which is only the two slots.
- Coordinator.EligibleRunAgrees: registry, policy and definition checks of eligibility are not modelled; they can only reject more.
- SchedulerTick.HandleClaims: the coordination loop and the connector tick that follow the claim loop are not part of it.
- Approvals, and the awaiting_approval state, which no modelled transaction enters.
- RunStore.RunRow.FinalizeInvocation: result summaries, evidence references and timestamps other than `reserved_at` are not stored, and the step and the call are taken as a matching pair.
- RunStore.RunRow.ReserveNext: agent identities of kinds that must run automatically are one flag; per-kind tool lists are the `allowed` parameter.
- Planning.ValidatePlan: the normalization of a tool input is a function applied before, and the text filter is a flag on the proposed step.
- Research, curator, brief and watch synthesis are the steps that append a result, fail or expire the Run; their contents are not modelled.
- CalendarStore.Store.RecordEventRevision: the refusals of a mismatched owner, occurrence identity, title or temporal shape come before it; the normalizer produces none of them.
- CalendarModel.CreateAccount: fingerprints and the sequence of configuration revisions are not modelled, only that an account revision keeps its project.
- CalendarEvidence.StepKeepsInv: a refresh finishes only runs that are still active, as its loop does when no acknowledgement is lost.
- CalendarModel.Covered takes local midnights as a function of zone name and date, so time-zone data is not part of it; titles and temporal shapes are taken as valid.
- ContextPaging.FollowingShowsEverything: the derived state of a calendar row is part of the row, search text and kind filters have already selected the rows, and cursors are not sealed.
- `facet_context`: its exit tests may never hold when a requested family is filtered out.
- ImportOrder.ImportProject: archive, manifest, checksum and column checks come before it, and conflicts with stored rows other than duplicate ids in the bundle are not modelled.
- TextProvenance.ValidateResult: summaries, memory types and proposal hashes are not modelled, and scores are real numbers.
- Upload limits, PDF parsing, HTTP, OAuth, credentials, embeddings, search ranking and the frontend.
