# Revenue recovery: a verified model of the durable workflow and its deciders

The project models the recovery platform's backend in Dafny and proves what its design promises, and
where it does not keep the promise.

**The durable workflow.** One recovery case, with all the rows that belong to it (`CaseRows`), under every
transaction of the repository. `CaseSteps` says what each transaction does to the rows, as a function;
`CaseStore` is the repository as a class whose methods update the tables step by step, each proved to
compute that function; `Transactions` and `Ledgers` prove what every transaction keeps, whatever its
arguments. `Workflow` puts any number of worker runs, decision flights, operator reviews and manual
transitions around the case. A run or a flight is a sequence of steps that reads first and writes later;
steps interleave freely, a crash is a run that takes no further step, and a run may outlive its lease.
Theorems are about `Reach`, the state after an arbitrary trace of such steps:

- `Lifecycle`: the transition table, versions, terminal states, the event log, the attribution ledger.
- `Freshness`: stamps are distinct; without manual transitions into those states a scheduled or executing case
  has exactly one fresh schedule.
- `Attempts`: how attempts, retries, marks and provider calls bound one another.
- `Authorization`: what stands behind every provider call.
- `Discipline` and `RateLimits`: contact and retry limits over whole traces.
- `Payments` and `AttributionRules`: which payments are recorded, and under which category.
- `Orchestrator`: the worker and the coordinator, uninterrupted, as classes, and as traces of the workflow.
- `CaseService` and `Reviews`: manual transitions and operator reviews.
- `Safeguards`: what a rule of the policy bars is not decided, not approved and not carried out.
- `Outcomes` and `Executions`: what each transaction does to a case, under which exact condition, read from outside.
- `Timing`: leases, delays and backoff; `Executors`: dispatch, failure classes, unsupported actions.
- `Hazards`: completion and marking are not fenced, and suppression can strand a case; exactly when.
- `Scripts` and `Witnesses`: traces from a new case to each of those states, and one for every condition of
  discipline that breaks the limits when that condition alone is dropped.

**The pure deciders.** `Optimizer` (NERV ranking), `EconomicGate`, `Policy`, `Eligibility`, `Budget` and
`Portfolio`, over `Money` (64-bit arithmetic with the truncating big-integer quotient) and `Sorting`. `Verdicts`,
`Exclusions`, `Rankings` and `Priorities` say what they compute in terms that do not mention how: named actions,
numbers of actions on record, minutes around the clock, amounts and prices.

**Effects.** `Effects` (captured deliveries, payment links) and `Webhooks`.

## How to read it

Time is an integer number of nanoseconds. Ids are positions in their table, so they are fresh by
construction. A schedule row carries the status of its recovery action, and a promise row its check,
because they are inserted together and never parted. A context is read in two steps, the case first and
the other rows later, since the source reads them in separate queries. A worker may claim any schedule
that is due: the source's order with `SKIP LOCKED` can yield each of them. Everything other services
contribute to a decision (opt-out, channels, diagnosis, merchant limits, the local minute, model
probabilities) is an argument.

The rate limits hold over *disciplined* traces (`RateLimits.Fair`): the clock does not go backwards, no run
steps after its two-minute lease, nobody uses the manual transition endpoint, merchant limits are fixed,
at most 50 past actions are in view of an evaluation (the query's limit), and an operator does not cite a
case version that the case has not reached when the review begins. The last condition is needed because
`ApplyHumanReview` compares the operator's expected version, not the version its fresh policy was evaluated on.
None of them can be dropped. `Witnesses` gives a trace for each (`Scripts.Leads`, which `Scripts.LeadsByTrace`
turns into a trace of `Workflow.Reach`) that keeps all the others and breaks the limits. In these traces merchant,
customer and diagnosis never change, and every decision is on an action that is eligible and can be scored
(`Scripts.Tame`).

Where code and documentation disagree the model follows the code:

- `docs/RELIABILITY.md` says that any later mutation supersedes stale work. `MarkExecuting` does not compare
  versions and `CompleteExecution` compares neither lease nor status. `Witnesses.StaleTakesOver` and
  `Witnesses.FinishedIsRevived` show it from a new case, `Hazards.TakenOverExactlyWhen` and
  `Hazards.RevivedExactlyWhen` say exactly when, and neither happens while runs keep to their leases
  (`Hazards.NeverTakenOver`, `Hazards.NeverRevived`).
- It says that retries are bounded. They are (`Attempts.AttemptsAreBounded`), attempts are not
  (`Witnesses.AttemptBeyondMaximum`, `Attempts.BeyondMaximumExactlyWhen`).
- `attribution.Precedence` says that the highest evidence wins. When exact-reference evidence meets a
  matching promise, nothing is recorded and no error is returned: `Payments.RecordedExactlyWhen`,
  `Witnesses.PaymentIsDropped`.
- The comment in `decision_workflow.go` speaks of prerequisite states only; a STOP verdict closes a case from
  any open state.

## Model

| member | source | states |
|---|---|---|
| RateLimits.RateLimitsHold | backend/internal/policy/policy.go:49-55 | over every disciplined trace, any 24 hours hold at most MaxContactsPerDay started contacts and any 7 days MaxContactsPerWeek, contacts (and retries) are the minimum interval apart, and retries total at most MaxRetries |
| Witnesses.LimitsNeedLeases | backend/internal/store/workflow.go:138-192 | without live leases, in a trace disciplined in every other respect, a merchant that allows two retries gets three |
| Witnesses.LimitsNeedHindsight | backend/internal/operations/service.go:233-246 | likewise if operators may cite versions the case has not reached: two approved retries in one instant instead of an hour apart |
| Witnesses.LimitsNeedTheClock | backend/internal/store/workflow.go:50-54 | likewise if the clock goes back between evaluation and writing |
| Witnesses.LimitsNeedNoHand | backend/internal/recovery/service.go:109-127 | likewise if operators may move the case by hand |
| Witnesses.LimitsMustBeFixed | backend/internal/policy/policy.go:49-55 | a disciplined trace under one set of limits does not keep stricter ones |
| Witnesses.LimitsNeedTheHistory | backend/internal/store/context.go:55-58 | likewise if an evaluation may miss older actions: a merchant that allows fifty-one retries gets fifty-two |
| Witnesses.FiftyActionsAreAll | backend/internal/store/context.go:55-58 | more than fifty retries are never found to be used up |
| Witnesses.RetryIsSelected | backend/internal/optimizer/optimizer.go:67-120 | the retry decided in these traces is what the optimizer ranks first, at that NERV |
| Witnesses.WaitIsSelected | backend/internal/optimizer/optimizer.go:67-120 | and WAIT is when nothing else is eligible |
| RateLimits.VerdictAllows | backend/internal/policy/policy.go:86-108 | a verdict that does not deny, on a complete history in any order, keeps the limits at any later scheduling time |
| RateLimits.AssessmentIsInformed | backend/internal/store/context.go:55-67 | an evaluation of a case that awaits a decision sees every action that ever started |
| RateLimits.StepSteady | backend/internal/store/workflow.go:138-167 | under discipline only the newest action is ever started, and never while the case awaits a decision |
| RateLimits.WindowLimited | backend/internal/policy/policy.go:52-53 | a limit respected at each scheduling is respected in every window of that length |
| Discipline.StaysGoverned | backend/internal/orchestrator/orchestrator.go:148-230 | with live leases, a run past its checks holds its schedule, which is the newest and fresh unless the case is closed; started actions are settled before the next decision |
| Discipline.MarkFits | backend/internal/store/workflow.go:138-167 | marking keeps that for every other live run |
| Discipline.OneHolder | backend/internal/store/workflow.go:108-118 | two live runs never hold the same schedule |
| Freshness.ExactlyOneFresh | backend/internal/store/workflow.go:64-85 | whatever manual transitions there are, except into SCHEDULED or EXECUTING, a SCHEDULED or EXECUTING case has exactly one schedule stamped with its version, in one of five statuses, in every reachable state |
| Freshness.FreshIsNeverLost | backend/internal/store/workflow.go:108-118 | after any crash pattern that schedule is claimed again once due and its lease has lapsed, unless superseded |
| Freshness.KeepsFresh | backend/internal/store/operations.go:151-161 | every transaction but a manual transition into SCHEDULED or EXECUTING keeps the fresh schedule |
| Freshness.ManualTransitionLosesFreshness | backend/internal/store/postgres.go:63-92 | a manual transition loses the fresh schedule if and only if it goes to SCHEDULED or EXECUTING |
| Freshness.UnstampedEdges | backend/internal/domain/state_machine.go:22-35 | the two edges of the table that do |
| Witnesses.NothingIsFresh | backend/internal/recovery/service.go:109-127 | a trace from a new case to an EXECUTING case without a fresh schedule |
| Ledgers.StaysStamped | backend/internal/store/workflow.go:138-167 | stamps stay pairwise distinct and between 1 and the version under every transaction |
| Attempts.AttemptsAreBounded | backend/internal/store/workflow.go:108-192 | attempts <= 3 + reclaims, retries asked for <= 2, provider calls <= marks <= attempts, for every interleaving |
| Attempts.RetriesAreFew | backend/internal/store/workflow.go:186-192 | runs have attempts of their own, so fewer retries than the maximum are asked for |
| Attempts.ClaimIgnoresTheMaximum | backend/internal/store/workflow.go:109-118 | the condition to check before a claim: it takes the count beyond the maximum exactly when the count has reached it |
| Attempts.BeyondMaximumExactlyWhen | backend/internal/store/workflow.go:108-192 | the same over whole traces: the count is beyond 3 exactly after three claims that were not the first, and only if one of them reclaimed a lapsed lease |
| Witnesses.AttemptBeyondMaximum | backend/internal/store/workflow.go:109-118 | a disciplined trace from a new case to an attempt count of 4 |
| Authorization.EveryCallIsAuthorised | backend/internal/orchestrator/orchestrator.go:148-217 | every provider call: fresh schedule when the case was read, open state, before the deadline, gate ALLOW with NERV >= max(0, threshold) unless WAIT, policy APPROVE, or ESCALATE with an approval of exactly this schedule while ESCALATED at the expected version |
| Authorization.ClearedExactlyWhen | backend/internal/orchestrator/orchestrator.go:158-182 | and conversely, of a run that has read the case: it goes on if and only if the version is its schedule's, the case is not RECOVERED, the gate allowed, and the policy approves, or escalates with a human approval on record |
| Workflow.HistoryIsNewest | backend/internal/store/context.go:58 | an evaluation sees up to 50 past actions, newest first, and none newer is left out |
| Authorization.StaysDocumented | backend/internal/store/operations.go:121-161 | each schedule cites its own approving policy evaluation, backed by a review when human |
| Lifecycle.AlwaysLawful | backend/internal/domain/state_machine.go:22-35 | in every reachable state: legal trail, log 1..n, ledger exact, stamps distinct, one execution per attempt, promises resolved at most once |
| Lifecycle.StepsAreLegal | backend/internal/recovery/service.go:109-127 | the compare-and-set on the version never lands a forbidden transition though it does not reread the state |
| Lifecycle.VersionDeterminesState | backend/internal/store/postgres.go:63-77 | what was read of the case is still true if the version is still current |
| Lifecycle.TerminalForever | backend/internal/store/attribution.go:51-57 | a terminal case keeps state and version whatever follows |
| Lifecycle.OnlyAttributionLeavesTheTable | backend/internal/store/attribution.go:156-159 | every step's path follows the table, or it is an attribution's jump to RECOVERED |
| Lifecycle.LeavesTheTableExactlyWhen | backend/internal/store/attribution.go:156-159 | a step of a lawful state leaves the table if and only if it is a payment that can be recorded (open case, no overlap, no clash) in a state without an edge to RECOVERED |
| Lifecycle.NoEdgeToRecovered | backend/internal/domain/state_machine.go:22-35 | which are the open states other than WAITING_OUTCOME, REASSESSING and ESCALATED |
| Lifecycle.AttributionJumps | backend/internal/store/attribution.go:156-159 | any payment that can be recorded takes a SCHEDULED case straight to RECOVERED, which the table does not allow |
| Witnesses.PaymentJumps | backend/internal/store/attribution.go:156-159 | a trace from a new case through SCHEDULED straight to RECOVERED |
| Domain.TerminalIffNoTargets | backend/internal/domain/state_machine.go:50-52 | a state is terminal exactly when the table lets nothing leave it |
| Domain.WhereFrom | backend/internal/domain/state_machine.go:22-35 | the table the other way round: from which states each state can be reached |
| Transactions.ExecutingMoves | backend/internal/store/workflow.go:169-325 | the states each executing transaction passes through, all edges of the table |
| Transactions.DecidingMoves | backend/internal/store/decision_workflow.go:23-130 | preparing and saving a decision follow the table, one version per state |
| Transactions.PromiseMoves | backend/internal/store/promises.go:130-192 | promise transactions follow the table |
| Transactions.OutsideMoves | backend/internal/store/operations.go:143-181 | reviews, responses and checked manual transitions follow the table |
| Ledgers.EventsStayNumbered | backend/internal/store/postgres.go:158-174 | the log stays 1..n and only grows, also when a transaction appends in two blocks |
| Ledgers.StaysAccounted | backend/internal/store/attribution.go:146-159 | at most one attribution, only on a RECOVERED case, and the recovered amount is its amount |
| Ledgers.ExistingAttributionIsUnreachable | backend/internal/store/attribution.go:58-62 | the return of an existing attribution can never be taken |
| Ledgers.TerminalIsAbsorbing | backend/internal/store/workflow.go:221-236 | no transaction changes the state or version of a closed case |
| Ledgers.StaysOnePerAttempt | backend/internal/store/workflow.go:180-184 | one execution row per schedule and attempt, never removed |
| Ledgers.PromisesStayKept | backend/internal/store/promises.go:194-256 | a promise is resolved at most once, at most one is ACTIVE, and an ACTIVE one has an open check |
| Ledgers.ActivePromiseIsClaimable | backend/internal/store/promises.go:107-117 | an ACTIVE promise can be claimed once due and its lease has lapsed |
| Ledgers.PaymentLeavesCheckOpen | backend/internal/store/attribution.go:150-155 | a promise fulfilled by a payment keeps its check open, and resolving it is refused |
| Payments.CheckLeftOpenExactlyWhen | backend/internal/store/promises.go:161 | a transaction leaves a resolved promise with an open check if and only if it is a payment that can be recorded and that an ACTIVE promise explains |
| Witnesses.CheckLeftOpen | backend/internal/store/attribution.go:150-155 | a disciplined trace from a new case to such a promise |
| Ledgers.ResolvedStaysResolved | backend/internal/store/promises.go:217-220 | a resolved promise keeps its status under every transaction |
| Ledgers.OpenScheduleIsClaimable | backend/internal/store/workflow.go:109-118 | an open schedule that is due and not under a live lease can be claimed |
| AttributionRules.CascadeFollowsPrecedence | backend/internal/store/attribution.go:74-137 | for every listing of the evidence present, the cascade gives the category of the strongest; it gives none exactly in the overlap |
| AttributionRules.ResolveCandidates | backend/internal/attribution/service.go:26-35 | the category of a candidate whose name no other precedes, UNKNOWN for none |
| AttributionRules.LastCompleted | backend/internal/store/attribution.go:79 | the matching execution completed last, if any matches |
| Payments.RecordedExactlyWhen | backend/internal/store/attribution.go:92-105 | a payment is recorded and closes the case if and only if it is well-formed, the case is open, there is no overlap and, unless its reference is on record, no correlation clash; otherwise nothing changes |
| Witnesses.PaymentIsDropped | backend/internal/store/attribution.go:96-98 | a disciplined trace from a new case to an open one in which a payment is dropped, with its own reference on record |
| Payments.RecordedByPrecedence | backend/internal/attribution/service.go:19-35 | the recorded category is the one precedence gives, and the case is closed with the amount |
| Payments.RecordedAs | backend/internal/store/attribution.go:74-146 | the row a payment records, in kinds and hours: an exact reference gives RETRY if and only if its execution is RETRY_NOW or RETRY_LATER and else DIRECT_ACTION; then a promise within 24 hours, a retry within 24, any action within 168, nothing completed (NATURAL), UNKNOWN; with the execution, promise and decision it names being the last, the first due and the latest |
| Payments.RecordableExactlyWhen | backend/internal/store/attribution.go:51-105 | when a payment can be recorded, in the same terms |
| Payments.UnrecordedBecause | backend/internal/store/attribution.go:51-105 | which reason keeps a payment from being recorded, in order |
| Payments.PaymentKeepsPromise | backend/internal/store/attribution.go:150-155 | exactly the ACTIVE promise that explains a payment is fulfilled by it |
| Executions.CompletionRecords | backend/internal/store/workflow.go:175-184 | an attempt without a row gets exactly one, with its action, reference and time, SUCCEEDED or OUTCOME_PENDING as reported and FAILED for anything else; an attempt with a row gets none |
| Executions.ReportIsRecorded | backend/internal/executor/executor.go:81-214 | for every executor: on record as delivered if and only if the call was taken, under its reference, OUTCOME_PENDING for retry requests alone |
| Executions.StaysFailedAlone | backend/internal/store/workflow.go:175-184 | a record of failed calls alone stays one if and only if the next call failed or is on record |
| Executions.OnlyCompletionsRecord | backend/internal/store/workflow.go:175-184 | no other transaction adds an execution |
| Executions.FailedCallsExplainNothing | backend/internal/store/attribution.go:108-137 | a payment after failed calls alone, with no promise near, is UNKNOWN, or NATURAL if none had completed by then |
| Executions.FailedCallThenPayment | backend/internal/store/attribution.go:115-137 | end to end: a failed call, then a payment, is UNKNOWN whatever was called |
| Payments.NaturalOnlyIfUntouched | backend/internal/store/attribution.go:127-137 | NATURAL is recorded only if nothing had been executed by then |
| Hazards.LateCompletionRevives | backend/internal/store/workflow.go:185-192 | a late retryable failure reopens any schedule, even a finished one |
| Hazards.RevivedExactlyWhen | backend/internal/store/workflow.go:169-192 | a step reopens a finished schedule if and only if it is a run reporting a failure it may retry |
| Hazards.NeverRevivedInTime | backend/internal/orchestrator/orchestrator.go:148-230 | one step of it: while runs keep to their leases a finished schedule stays finished |
| Hazards.NeverRevived | backend/internal/orchestrator/orchestrator.go:148-230 | over every trace from a new case whose runs keep to their leases, a schedule finished at any moment is finished ever after |
| Witnesses.FinishedIsRevived | backend/internal/store/workflow.go:185-192 | a trace from a new case in which a schedule that awaits observation is reopened |
| Hazards.StaleMarkTakesOver | backend/internal/store/workflow.go:144-166 | a stale claimed schedule takes a SCHEDULED case over from the fresh one |
| Hazards.TakenOverExactlyWhen | backend/internal/store/workflow.go:138-167 | the start of a run takes a SCHEDULED case over if and only if its schedule is claimed and not the fresh one |
| Hazards.NeverTakenOverInTime | backend/internal/orchestrator/orchestrator.go:148-230 | one step of it: while runs keep to their leases that does not happen |
| Hazards.NeverTakenOver | backend/internal/orchestrator/orchestrator.go:148-230 | over every such trace, the start of a run leaves a SCHEDULED case with the fresh schedule it had |
| Witnesses.StaleTakesOver | backend/internal/store/workflow.go:144-166 | a trace from a new case in which it does |
| Hazards.StrandedForever | backend/internal/store/workflow.go:248-267 | once the last open schedule is suppressed, nothing but a payment ever moves the case again |
| Hazards.StrandedMovesExactlyWhen | backend/internal/store/attribution.go:55-57 | a step moves a stranded case if and only if it is a payment that can be recorded |
| Hazards.SuppressionStrands | backend/internal/orchestrator/orchestrator.go:158-182 | a suppression strands the case if and only if the case is busy and nothing else is open, running or about to be decided |
| Witnesses.CaseIsStranded | backend/internal/orchestrator/orchestrator.go:158-182 | a disciplined trace from a new case to a stranded one: the deadline passes between decision and execution |
| Timing.LeaseExcludes | backend/internal/store/workflow.go:108-118 | a claimed schedule is claimed again exactly from the end of its lease on |
| Timing.NewScheduleDue | backend/internal/store/workflow.go:50-54 | RETRY_LATER is claimable exactly from 24 hours after the decision on, anything else at once |
| Timing.BackoffDoubles | backend/internal/store/workflow.go:187 | one minute, doubling with the attempt, at most 64 |
| Timing.RetryBacksOff | backend/internal/store/workflow.go:186-192 | a retry is claimable exactly from the end of its backoff on |
| Timing.FinishedIsObserved | backend/internal/store/workflow.go:194-211 | a finished schedule is never claimed again, and observed exactly from 24 hours after success on |
| Timing.DeadlineExhausts | backend/internal/store/workflow.go:293-306 | a waiting case is exhausted exactly from its deadline on |
| Executors.Dispatch | backend/internal/executor/executor.go:45-60 | the first registered executor that supports the action |
| Executors.OrderDoesNotMatter | backend/internal/executor/executor.go:45-60 | with one link executor and one retry executor the order of registration does not matter |
| Executors.WhoCarriesOut | backend/cmd/worker/main.go:73-77 | as the worker registers them: who carries out what |
| Executors.ReportIsRetryable | backend/internal/executor/executor.go:81-214 | a report is retryable exactly for a retry request to a configured provider and, of e-mails and Razorpay links, for a failure that is no client error other than 408 and 429 |
| Executors.FailureEndsOrRetries | backend/internal/store/workflow.go:186-232 | for every executor and outcome of its call: a taken call waits for its outcome, a failure worth retrying is retried while attempts last, any other ends the schedule and returns the case to a decision |
| Executors.UnsupportedExactly | backend/internal/executor/executor.go:50-51 | the five actions no executor supports |
| Executors.ApprovedWaitFails | backend/internal/store/operations.go:132-166 | an approved WAIT (or other unsupported action) fails for good on its first attempt and the case returns to a decision |
| CaseStore.Store.constructor | backend/internal/store/postgres.go:19-43 | a new case is DETECTED at version 1 with two numbered events |
| CaseStore.Store.NextSequence | backend/internal/store/postgres.go:158-162 | one more than the largest sequence number in the log |
| CaseStore.Store.InsertEvents | backend/internal/store/postgres.go:164-174 | a block of events is appended, numbered consecutively |
| CaseStore.Store.PrepareForDecision | backend/internal/store/decision_workflow.go:23-99 | the new rows and the reply, as specified, with failure leaving everything unchanged |
| CaseStore.Store.SaveDecision | backend/internal/store/decisions.go:26-104 | likewise; an escalation of a case that is not ACTION_PENDING is rolled back |
| CaseStore.Store.SaveDecisionAndSchedule | backend/internal/store/decision_workflow.go:104-130 | decision and schedule commit together or not at all |
| CaseStore.Store.ScheduleDecision | backend/internal/store/workflow.go:36-106 | schedule, action and two transitions, stamped two versions on |
| CaseStore.Store.ClaimDue | backend/internal/store/workflow.go:108-125 | lease, owner and attempt of a due schedule, or no work |
| CaseStore.Store.MarkExecuting | backend/internal/store/workflow.go:138-167 | only a CLAIMED schedule; a SCHEDULED case moves and the stamp follows |
| CaseStore.Store.CompleteExecution | backend/internal/store/workflow.go:169-246 | execution row once per attempt, retry with backoff or final status, case moved only if EXECUTING |
| CaseStore.Store.MarkSuppressed | backend/internal/store/workflow.go:248-267 | open schedules are superseded, the event is always written |
| CaseStore.Store.ClaimDueObservation | backend/internal/store/workflow.go:269-277 | a due observation is leased |
| CaseStore.Store.PrepareReassessment | backend/internal/store/workflow.go:279-325 | EXHAUSTED after the deadline, otherwise ready for a decision, only from WAITING_OUTCOME |
| CaseStore.Store.Classify | backend/internal/store/attribution.go:74-137 | the stage-by-stage cascade computes `Cascade` |
| CaseStore.Store.AttributeRecovery | backend/internal/store/attribution.go:38-189 | attribution, kept promise, RECOVERED and events in one transaction |
| CaseStore.Store.CreatePromise | backend/internal/store/promises.go:25-77 | one promise per source response, at most one ACTIVE |
| CaseStore.Store.ClaimDuePromise | backend/internal/store/promises.go:107-117 | a due check is leased |
| CaseStore.Store.TransitionPromise | backend/internal/store/promises.go:217-256 | only from ACTIVE, with a new correlation id |
| CaseStore.Store.ResolvePromise | backend/internal/store/promises.go:130-192 | FULFILLED, EXPIRED or BROKEN; a broken promise returns a waiting or escalated case to ACTION_PENDING |
| CaseStore.Store.CancelPromise | backend/internal/store/promises.go:194-215 | the promise is cancelled with its open check |
| CaseStore.Store.SaveCustomerResponse | backend/internal/store/responses.go:16-82 | a repeated correlation id changes nothing; a signal returns a waiting case to ACTION_PENDING |
| CaseStore.Store.ApplyHumanReview | backend/internal/store/operations.go:98-208 | reauthorisation, approval schedule with three transitions, STOP, or a recorded stale approval |
| CaseStore.Store.TransitionCase | backend/internal/store/postgres.go:63-92 | compare-and-set on the version alone |
| Orchestrator.Worker.RunOnce | backend/internal/orchestrator/orchestrator.go:148-230 | an uninterrupted run has exactly the effect of its claim, recheck, mark, provider call or reconciliation, completion and, after a permanent failure, a new decision |
| Orchestrator.RunOnceIsATrace | backend/internal/orchestrator/orchestrator.go:148-220 | up to its completion, that is the effect of a trace of the workflow |
| Orchestrator.RunOnceDecidesInATrace | backend/internal/orchestrator/orchestrator.go:218-225 | and so it is with the decision that follows a permanent failure |
| Orchestrator.Coordinator.Decide | backend/internal/orchestrator/orchestrator.go:102-115 | prepare, evaluate and save, each only if the one before succeeded |
| Orchestrator.DecideIsATrace | backend/internal/orchestrator/orchestrator.go:102-115 | which is the effect of a trace of the workflow |
| Orchestrator.Coordinator.RunObservationOnce | backend/internal/orchestrator/orchestrator.go:234-248 | a due observation is closed, and a ready case decided again |
| CaseService.Service.Transition | backend/internal/recovery/service.go:109-127 | succeeds exactly when the expected version fits (or is 0) and the table allows it |
| CaseService.Service.Review | backend/internal/operations/service.go:199-231 | an unacceptable review is refused, one about no decision is not found, any other is applied, an approval with a freshly evaluated verdict, and its reply passed on |
| CaseService.ApprovalSchedulesOnlyIf | backend/internal/operations/service.go:233-246 | the exact condition under which a review schedules its action |
| CaseService.ApprovalMayScheduleWait | backend/internal/store/operations.go:132-166 | an approval schedules WAIT |
| CaseService.DecisionNeverSchedulesWait | backend/internal/store/decision_workflow.go:114-125 | a decision never does, nor anything its gate or policy has not passed |
| CaseService.ReviewIsIdempotent | backend/internal/store/operations.go:104-108 | a review key is applied once |
| Reviews.ReviewEffect | backend/internal/store/operations.go:132-177 | STOP, and STOP alone, closes an ESCALATED case; an approval that is up to date, and it alone, schedules; REJECT, DEFER and stale, denied or stopped approvals leave state, version, schedules and policies alone |
| Reviews.ReviewIsRecorded | backend/internal/store/operations.go:119-127 | the review row, and each of its five outcomes under its exact guard |
| Reviews.ApprovalSchedules | backend/internal/store/operations.go:132-166 | what an approval schedules, under a policy evaluation of its own |
| Reviews.NotTaken | backend/internal/store/operations.go:104-126 | a review known already, about no decision, or of a case that awaits none changes nothing, and which of these the caller is told |
| Reviews.ReviewEvents | backend/internal/store/operations.go:186-197 | the events of a review, by decision and outcome |
| Outcomes.PreparedExactlyWhen | backend/internal/store/decision_workflow.go:44-73 | the four states a case is brought to a decision from, by which states and with which events |
| Outcomes.SavedExactlyWhen | backend/internal/store/decision_workflow.go:104-130 | exactly when a decision is saved, and with which error it is not |
| Outcomes.SavedMoves | backend/internal/store/decisions.go:83-103 | APPROVE takes the case to SCHEDULED (except WAIT), ESCALATE to ESCALATED, STOP to STOPPED if it is open, and DENY nowhere |
| Outcomes.SavedRows | backend/internal/store/workflow.go:36-106 | the decision, its evaluation, and the schedule: one day on for RETRY_LATER, three attempts, stamped with the version the case is then at |
| Outcomes.SavedEvents | backend/internal/store/decisions.go:72-82 | the events of a decision, by gate and verdict |
| Outcomes.ClaimedExactlyWhen | backend/internal/store/workflow.go:108-118 | exactly when a schedule is claimed |
| Outcomes.ClaimTakes | backend/internal/store/workflow.go:108-118 | a claim changes status, lease, owner and attempt of its schedule and nothing else |
| Outcomes.MarkedExactlyWhen | backend/internal/store/workflow.go:138-167 | exactly when a schedule is marked; the first start time is kept |
| Outcomes.CompletionSettles | backend/internal/store/workflow.go:185-218 | what becomes of the schedule: retried, failed for good, or observed a day later |
| Outcomes.CompletionMovesCase | backend/internal/store/workflow.go:219-236 | what becomes of the case: nothing before another attempt, a wait for the outcome, or another decision |
| Outcomes.CompletionWrites | backend/internal/store/workflow.go:237-246 | and which event is written, if any |
| Outcomes.SuppressionWithdraws | backend/internal/store/workflow.go:248-267 | the three statuses in which a schedule is withdrawn; the case stays |
| Outcomes.ObservedExactlyWhen | backend/internal/store/workflow.go:269-277 | exactly when an observation is taken |
| Outcomes.ReassessmentMoves | backend/internal/store/workflow.go:279-325 | only a case that waits is moved: to a decision before its deadline, to its end from then on |
| Outcomes.NoSuchSchedule | backend/internal/store/workflow.go:169-325 | of a schedule that does not exist nothing can be reported, withdrawn or closed |
| Outcomes.PromiseMadeExactlyWhen | backend/internal/store/promises.go:25-77 | a promise is made unless its response has led to one or another is ACTIVE |
| Outcomes.CheckTakenExactlyWhen | backend/internal/store/promises.go:107-117 | exactly when a check is taken |
| Outcomes.ResolvedExactlyWhen | backend/internal/store/promises.go:130-163 | exactly when a promise is resolved, and with which error it is not |
| Outcomes.ResolutionTurnsOut | backend/internal/store/promises.go:148-186 | FULFILLED if and only if the case is RECOVERED, else EXPIRED from the deadline on, else BROKEN; BROKEN returns a waiting or escalated case to a decision |
| Outcomes.ResolutionEvents | backend/internal/store/promises.go:168-183 | and what is written of it |
| Outcomes.CancelledExactlyWhen | backend/internal/store/promises.go:194-220 | exactly when a promise is cancelled, and with which error it is not |
| Outcomes.CancellationTakesCheck | backend/internal/store/promises.go:207-215 | an open check goes with it, and the case stays |
| Outcomes.ResponseReopensExactlyWhen | backend/internal/store/responses.go:41-59 | a new response of four kinds, and of those alone, takes a WAITING_OUTCOME case back to a decision |
| Outcomes.PaymentCloses | backend/internal/store/attribution.go:150-185 | the events of a recorded payment: the promise it kept, the recovery, and feedback if and only if there was a decision |
| Outcomes.TransitionedExactlyWhen | backend/internal/store/postgres.go:63-92 | a manual transition looks at the version alone |
| Policy.History | backend/internal/policy/policy.go:86-108 | the loop equals the recursive counts that the next two rows turn into numbers of past actions |
| Verdicts.ContactsAreCounted | backend/internal/policy/policy.go:86-108 | which are the numbers of past actions of seven kinds created at or after a time |
| Verdicts.RetriesAreCounted | backend/internal/policy/policy.go:86-108 | and of two kinds at any time |
| Verdicts.LatestIsYoungest | backend/internal/policy/policy.go:86-108 | the cooldown test on the latest time says that some past action is too young |
| Policy.Evaluate | backend/internal/policy/policy.go:31-77 | verdict, reasons and checks equal `Explained`, whose meaning is the next rows |
| Verdicts.VerdictIs | backend/internal/policy/policy.go:31-77 | against a table of 23 independent rules: STOP when a stop rule objects, else DENY, else ESCALATE, else APPROVE, and the reasons are the objections of that kind in order |
| Verdicts.ChecksAre | backend/internal/policy/policy.go:34-57 | each of the 23 checks is reported, as passed if and only if its rule does not object |
| Verdicts.AroundTheClock | backend/internal/policy/policy.go:130-133 | a minute is quiet if and only if, counted around midnight from the start of the window, it comes before the end |
| Verdicts.QuietMeansNo | backend/internal/policy/policy.go:109-134 | a contact at such a minute of the merchant's clock, or with an unknown time zone, is neither approved nor escalated |
| Safeguards.BarredIsNotDecided | backend/internal/store/decision_workflow.go:114-125 | what a stop or deny rule objects to is not scheduled by a decision, whenever it lands |
| Safeguards.BarredIsNotApproved | backend/internal/operations/service.go:230-246 | nor by an operator's approval, which can override an escalation only |
| Safeguards.BarredIsNotCarriedOut | backend/internal/orchestrator/orchestrator.go:170-182 | nor carried out by a run, whatever approval its schedule has |
| Safeguards.PromiseHolds | backend/internal/policy/policy.go:56 | so while a promise is ACTIVE no run contacts the customer or retries the payment |
| Safeguards.OptOutHolds | backend/internal/policy/policy.go:49 | and a customer who has opted out is not contacted |
| Safeguards.ContextIs | backend/internal/store/context.go:12-80 | what an evaluation is told of the case |
| Policy.MoreHistoryNeverHelps | backend/internal/policy/policy.go:40-75 | one more past action, of any kind and time, never improves the verdict |
| Eligibility.Evaluate | backend/internal/eligibility/eligibility.go:32-84 | the partition of all actions that `Partition` specifies, whose meaning is the next rows |
| Exclusions.ExcludedExactlyWhen | backend/internal/eligibility/eligibility.go:41-76 | against a table of 14 independent rules: an action is eligible if and only if none speaks against it, and otherwise excluded for the first that does |
| Exclusions.PartitionIs | backend/internal/eligibility/eligibility.go:32-84 | of any list: who is eligible, and for which reason each of the others is excluded |
| Exclusions.EligibleExactlyWhen | backend/internal/eligibility/eligibility.go:20-84 | of all actions: eligible if and only if no rule speaks against it |
| Eligibility.PolicySubsumesEligibility | backend/internal/eligibility/eligibility.go:41-76 | an action policy neither stops nor denies is excluded exactly for leak incompatibility, an empty allow list, disjoint channels or a UTC quiet window |
| Optimizer.Rank | backend/internal/optimizer/optimizer.go:67-120 | the ranking is a function of the map of predictions, whatever order it is visited in |
| Optimizer.RankingIsRanking | backend/internal/optimizer/optimizer.go:105-119 | every action once, ranks 1..n, strictly best first by `Better`, whose meaning is the next rows |
| Rankings.RankingAmounts | backend/internal/optimizer/optimizer.go:30-96 | the amounts of every ranked candidate: gross value, the costs of each action, 5% and at most the maximum for RETENTION, fatigue and risk truncated, and NERV as gross less all of them |
| Rankings.RankingOrder | backend/internal/optimizer/optimizer.go:105-151 | objective by objective, and by the six weighted terms under a profile, the worth by those amounts never rises down the list; ties go to the higher NERV, then to the first name |
| Rankings.NamesAreInByteOrder | backend/internal/optimizer/optimizer.go:112 | where names are in byte order |
| Rankings.PredictedAreRanked | backend/internal/optimizer/optimizer.go:67-72 | only predicted actions, and WAIT, are ranked |
| Rankings.LastPredictionCounts | backend/internal/optimizer/optimizer.go:67-72 | of several predictions for an action the last counts |
| Optimizer.WaitScoresZero | backend/internal/optimizer/optimizer.go:130-151 | WAIT scores 0 under every objective and weights |
| Optimizer.SelectedScoreNonNegative | backend/internal/optimizer/optimizer.go:67-120 | the selected score is at least 0 |
| Optimizer.SelectedNervNonNegative | backend/internal/economicgate/gate.go:24-37 | without a profile the selected NERV is at least 0 and the gate never says ECONOMICALLY_UNJUSTIFIED |
| Optimizer.ProfileCanSelectNegativeNerv | backend/internal/optimizer/optimizer.go:130-151 | a profile whose weights ignore cost selects an action with a negative NERV |
| Optimizer.NeverLosesExactlyWhen | backend/internal/optimizer/optimizer.go:130-151 | a profile with whole weights selects no loss on any input if and only if cost, and fatigue with contact, weigh at least revenue with retention, and risk at least revenue |
| Optimizer.CarefulProfileSelectsNoLoss | backend/internal/optimizer/optimizer.go:130-151 | under such weights, whole or not, the selected NERV is at least 0 but for truncation: times the combined weight it is above -40000 |
| Optimizer.TruncationHidesALoss | backend/internal/optimizer/optimizer.go:130-151 | and truncation does matter: with such weights of one half a loss of one unit is selected |
| Optimizer.BestIsSelected | backend/internal/optimizer/optimizer.go:105-119 | the candidate no other beats is the one selected |
| EconomicGate.Evaluate | backend/internal/economicgate/gate.go:24-37 | allowed exactly for WAIT or a NERV of at least 0 and the threshold |
| Budget.Fill | backend/internal/budget/budget.go:99-131 | the loop's totals and verdicts, item by item |
| Budget.Allocate | backend/internal/budget/budget.go:69-131 | a permutation of the items with ranks 1..n |
| Priorities.ConsideredInOrder | backend/internal/budget/budget.go:71-98 | the order of the items: value for the price then rank when greedy, arrival then case id otherwise |
| Priorities.TotalsCount | backend/internal/budget/budget.go:49-68 | the totals are numbers of included actions: contacts of four kinds, retries of two, reviews, 3000 a discount, and 35, 25, 70 and 100 spent on each |
| Priorities.RefusedExactlyWhen | backend/internal/budget/budget.go:105-121 | an item is refused for the first of five limits it would break, and included if it would break none |
| Budget.TotalsAreSums | backend/internal/budget/budget.go:122-128 | totals are the sum over included items |
| Budget.TotalsWithinLimits | backend/internal/budget/budget.go:105-121 | totals stay within all five limits |
| Budget.RefusedStaysRefused | backend/internal/budget/budget.go:105-121 | added to the final totals, an excluded item still breaks the limit its reason names |
| Budget.DenserIsWeakOrder | backend/internal/budget/budget.go:71-89 | the cross-multiplied density order is a strict weak order whenever the cross products of the items at hand fit in 64 bits |
| Budget.GreedyBound | backend/internal/budget/budget.go:69-131 | greedy plus the first excluded NERV is at least every affordable selection; optimal if nothing is excluded |
| Budget.GreedyAgainstArrivalOrder | backend/internal/budget/budget.go:90-98 | in particular at least first come first served, less that NERV |
| Budget.GreedyCanLose | backend/internal/budget/budget.go:71-98 | and the margin is needed: greedy takes 30 where arrival order takes 80 |
| Budget.SmallNervsFit | backend/internal/budget/budget.go:82-83 | they do for NERVs below a hundredth of the 64-bit range |
| Budget.WrappedList | backend/internal/budget/budget.go:71-89 | when one wraps, the sorted list can end with the largest NERV at the best price |
| Budget.BoundNeedsFittingProducts | backend/internal/budget/budget.go:69-131 | and the bound fails: greedy takes 1 where 2^62 was affordable, and refuses an item of NERV 0 first |
| Portfolio.Rank | backend/internal/portfolio/portfolio.go:47-82 | the items of the candidates, each once, best first, with ranks 1..n |
| Priorities.PrioritiesStandFor | backend/internal/portfolio/portfolio.go:47-69 | each item stands for a candidate, 15000 urgent within 1 hour of its deadline, 12500 within 6, 10000 within 24, else 7500, recoverability clamped |
| Priorities.PrioritiesInOrder | backend/internal/portfolio/portfolio.go:70-82 | higher scores first, then higher NERVs, then lower case ids |
| Portfolio.RankIgnoresInputOrder | backend/internal/portfolio/portfolio.go:70-82 | with distinct case ids the ranking is the same for every input order |
| Portfolio.ScoreIsClose | backend/internal/portfolio/portfolio.go:84-88 | the twice-truncated score is within 2 minor units of the exact product |
| Portfolio.ScoreUnwrapped | backend/internal/portfolio/portfolio.go:84-88 | it never flips sign while the urgent amount fits in 64 bits |
| Portfolio.ScoreIsMonotone | backend/internal/portfolio/portfolio.go:84-88 | it is monotone in NERV |
| Portfolio.SignKeptExactlyInRange | backend/internal/portfolio/portfolio.go:84-88 | the score keeps the sign of NERV if and only if the urgent amount fits in 64 bits |
| Portfolio.CloseExactlyInRange | backend/internal/portfolio/portfolio.go:84-88 | it is within 2 units of the exact product if and only if it does |
| Portfolio.MonotoneExactlyInRange | backend/internal/portfolio/portfolio.go:84-88 | above an amount in range it does not fall exactly as far as the range goes |
| Portfolio.MonotoneExactlyInRangeBelow | backend/internal/portfolio/portfolio.go:84-88 | and below a loss in range it does not rise exactly as far |
| Portfolio.SafeNerv | backend/internal/portfolio/portfolio.go:84-88 | every NERV up to two thirds of the 64-bit range is in range |
| Portfolio.HugeNervScoresNegative | backend/internal/portfolio/portfolio.go:84-88 | outside that range the largest NERV scores below zero |
| Effects.SameKeySameReference | backend/internal/store/workflow.go:327-355 | any interleaving of calls with one key leaves one row, and all that return agree |
| Effects.ClashIsResolved | backend/internal/store/workflow.go:336-338 | a call that clashed finds the row it clashed with |
| Effects.Captures.Capture | backend/internal/store/workflow.go:327-339 | one call records or finds the row of its key |
| Effects.LinksAreFew | backend/internal/integrations/razorpay/client.go:229-244 | without overlap, links made <= 1 + runs lost between create and save |
| Effects.OverlapMakesTwo | backend/internal/integrations/razorpay/client.go:229-244 | two runs that both look before either saves make two links and return both, none lost |
| Effects.OverlapHappens | backend/internal/integrations/razorpay/client.go:229-244 | and overlapping runs do reach that point |
| Effects.LinkExecutor.Execute | backend/internal/integrations/razorpay/client.go:229-244 | the saved link, or a new one, created before it is saved |
| Effects.ReconcileByKey | backend/internal/store/integrations.go:41-60 | looking up by idempotency key finds the link saved by action id |
| Webhooks.Ingestor.Ingest | backend/internal/integrations/razorpay/webhook.go:98-148 | the new inbox, and exactly when a delivery is rejected or a duplicate |
| Webhooks.IngestedIs | backend/internal/integrations/razorpay/webhook.go:98-148 | what a delivery does to rows and world: nothing if rejected or known, otherwise its id is reserved and its row says how processing went |
| Webhooks.OnlyFirstsMatter | backend/internal/integrations/razorpay/webhook.go:98-137 | the final state is that of the first acceptable delivery of each event id alone |
| Webhooks.AtMostOncePerEvent | backend/internal/store/integrations.go:18-24 | processing is attempted at most once per event id |
| Webhooks.CrashedEventIsLost | backend/internal/integrations/razorpay/webhook.go:117-137 | not exactly once: an event whose processing crashed is never processed |
| Webhooks.AttemptedExactlyWhen | backend/internal/integrations/razorpay/webhook.go:98-137 | the processing of an event is attempted if and only if it was before or the first acceptable delivery of it does not crash |

## Left out

- HTTP handlers, queues and metrics for display, logging, configuration, dashboards and replay queries.
- SQL below the level of a transaction: row locks, isolation, NULL ordering, and which of several equal rows `ORDER BY ... LIMIT 1` returns; ties go to the later row.
- Several cases at once: each transaction locks and changes the rows of one case; an opt-out, which is a customer's, is an input to decisions.
- The stand-alone `ScheduleDecision` and `SaveDecision` entry points, which neither the API nor the worker binary calls.
- Failure reasons, event payloads, evidence strengths, feedback records and customer reliability profiles: written, never read back by the workflow.
- Saturation of durations: differences of times are unbounded integers.
- Sums of amounts are unbounded integers; products with a quotient and the density cross products are narrowed to 64 bits as in the source.
- Probabilities, confidence and fatigue are integers (micros and basis points) after rounding; floating-point rounding is not modelled.
- The library's sort is a stable insertion sort; what an unstable or inconsistent comparison would do is not modelled.
- White space beyond the Latin-1 range when a review's fields are trimmed.
- Signature verification, JSON decoding, time zone databases and regular expressions: their results are inputs.
- The provider's side of a payment link beyond counting links, e-mail templates and payloads, and a retry executor without a provider: the result of a call is an input.
- Filtering and ordering the operators' queue; a review may be about any decision on record, which includes the queue's choice of the latest.
- `ResolvePaymentLinkCase`, detection, promise text extraction, the model registry, training, simulation and evaluation.
- Budget.GreedyBound: NERVs are at least 0 and the cross products of the items fit in 64 bits, because it fails when one wraps (Budget.BoundNeedsFittingProducts).
- Optimizer.NeverLosesExactlyWhen: for whole weights; for others Optimizer.CarefulProfileSelectsNoLoss bounds the loss by the truncated terms, and Optimizer.TruncationHidesALoss shows that it can occur.
- Portfolio.ScoreIsClose: the urgent amount fits in 64 bits; exactly then does it hold (Portfolio.CloseExactlyInRange).
- RateLimits.RateLimitsHold: only over disciplined traces, because dropping any one condition breaks it (Witnesses.LimitsNeedLeases and the members beside it).
- Webhooks.OnlyFirstsMatter: deliveries are processed one after the other; the insertion that decides which delivery of an id counts is atomic in the source.
