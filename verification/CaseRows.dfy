/**
 * The rows that belong to one recovery case, and the few ways in which transactions change them.
 * Identifiers are positions: row `i` of a table is the `i`-th row inserted.
 */
module CaseRows {
  import opened Wrappers
  import opened Domain
  import EconomicGate
  import Policy

  datatype ScheduleStatus =
    | Pending | Claimed | Running | RetryPending | ObservationPending | ObservationClaimed | Observed
    | FailedForGood | Superseded

  datatype ActionStatus = StillPlanned | HasExecuted | HasFailed

  /** A scheduled action together with its recovery action, which is inserted with it. */
  datatype Schedule = Schedule(
    action: ActionType, decision: nat, policy: nat, scheduledFor: Time, createdAt: Time, maxAttempts: nat,
    status: ScheduleStatus, attempt: nat, stamp: nat, leaseOwner: Option<nat>, leaseExpires: Option<Time>,
    nextRetry: Option<Time>, started: Option<Time>, completed: Option<Time>, actionStatus: ActionStatus)

  /** What an executor reports. A status the store does not know is recorded as a failure. */
  datatype ProviderStatus = Succeeded | OutcomePending | Failed | Unrecognised

  datatype ProviderResult = ProviderResult(status: ProviderStatus, retryable: bool, reference: string)

  /** An execution row; `kind` is the type of its recovery action. */
  datatype Execution = Execution(schedule: nat, attempt: nat, kind: ActionType, status: ProviderStatus, reference: string, completedAt: Time)

  datatype DecisionRow = DecisionRow(caseVersion: nat, gate: EconomicGate.GateResult, incentive: int, createdAt: Time)

  datatype PolicyRow = PolicyRow(decision: nat, verdict: Policy.Decision, humanSatisfied: bool)

  datatype ReviewDecision = ReviewApprove | ReviewReject | ReviewDefer | ReviewStop

  datatype Authorization = NotRequired | Approved | StaleApproved | ApprovalDenied | ApprovalStopped

  datatype Review = Review(key: string, decision: ReviewDecision, expected: nat, versionAtReview: nat,
                           outcome: Authorization, schedule: Option<nat>)

  datatype PromiseStatus = Active | Fulfilled | Broken | Expired | Cancelled

  datatype CheckStatus = CheckPending | CheckClaimed | CheckCompleted | CheckCancelled

  /** A promise to pay together with its check, which is inserted with it. */
  datatype Promise = Promise(status: PromiseStatus, due: Time, source: Option<string>, check: CheckStatus, checkLease: Option<Time>)

  /** A correlation id: the fixed one of a promise's check, or any other text. */
  datatype Correlation = OfCheck(promise: nat) | Text(text: string)

  datatype PromiseEvent = PromiseEvent(promise: nat, from: Option<PromiseStatus>, to: PromiseStatus, correlation: Correlation)

  datatype Category = DirectAction | Retry | KeptPromise | Natural | Unknown

  datatype Attribution = Attribution(reference: string, amount: int, category: Category, decision: Option<nat>,
                                     execution: Option<nat>, promise: Option<nat>, observedAt: Time)

  datatype Event = Event(sequence: int, kind: EventType)

  /** `trail` is a history variable: the states the case has been in, the current one last. */
  datatype CaseDb = CaseDb(
    state: CaseState, version: nat, trail: seq<CaseState>, deadline: Time, recovered: int,
    schedules: seq<Schedule>, executions: seq<Execution>, decisions: seq<DecisionRow>, policies: seq<PolicyRow>,
    reviews: seq<Review>, promises: seq<Promise>, promiseEvents: seq<PromiseEvent>,
    attributions: seq<Attribution>, responses: set<string>, events: seq<Event>)

  datatype Error =
    | Conflict | CaseTerminal | UniqueViolation | NotReviewable | InvalidInput | BlockedByGate | NoDueWork | NotFound
    | LostSilently

  /** A transaction commits new rows and a value, or leaves the rows as they were. */
  datatype Tx<+T> = Commit(rows: CaseDb, value: T) | Abort(error: Error)

  /** The rows after a transaction. */
  function After<T>(db: CaseDb, tx: Tx<T>): CaseDb {
    if tx.Commit? then tx.rows else db
  }

  // ----- the case row -----

  /** The only way the state of a case changes: one state, one version. */
  function Advance(db: CaseDb, to: CaseState): CaseDb {
    db.(state := to, version := db.version + 1, trail := db.trail + [to])
  }

  /** A case as it is first stored: detected, at version 1, with two events. */
  function NewCase(deadline: Time): CaseDb {
    CaseDb(Detected, 1, [Detected], deadline, 0, [], [], [], [], [], [], [], [], {},
           [Event(1, RevenueRiskDetected), Event(2, CaseCreated)])
  }

  // ----- the event log -----

  /** The largest sequence number in a log, 0 for an empty one. */
  function MaxSequence(events: seq<Event>): int {
    if events == [] then 0
    else
      var rest := MaxSequence(events[..|events| - 1]);
      var last := events[|events| - 1].sequence;
      if last > rest then last else rest
  }

  function Numbered(first: int, kinds: seq<EventType>): seq<Event> {
    seq(|kinds|, i requires 0 <= i < |kinds| => Event(first + i, kinds[i]))
  }

  /** Events are appended in blocks, numbered from the largest sequence number found. */
  function Appended(events: seq<Event>, kinds: seq<EventType>): seq<Event> {
    events + Numbered(MaxSequence(events) + 1, kinds)
  }

  function Log(db: CaseDb, kinds: seq<EventType>): CaseDb {
    db.(events := Appended(db.events, kinds))
  }

  // ----- schedules -----

  function SetSchedule(db: CaseDb, i: nat, s: Schedule): CaseDb
    requires i < |db.schedules|
  {
    db.(schedules := db.schedules[i := s])
  }

  const MAX_ATTEMPTS: nat := 3

  function NewSchedule(action: ActionType, decision: nat, policy: nat, stamp: nat, now: Time): Schedule {
    var due := if action == RetryLater then now + 24 * HOUR else now;
    Schedule(action, decision, policy, due, now, MAX_ATTEMPTS, Pending, 0, stamp, None, None, None, None, None, StillPlanned)
  }

  /** When a schedule next wants attention: `COALESCE(next_retry_at, scheduled_for)`. */
  function DueAt(s: Schedule): Time {
    if s.nextRetry.Some? then s.nextRetry.value else s.scheduledFor
  }

  predicate Lapsed(lease: Option<Time>, now: Time) {
    lease.Some? && lease.value <= now
  }

  predicate Claimable(s: Schedule, now: Time) {
    && (s.status.Pending? || s.status.RetryPending? || s.status.Claimed? || s.status.Running?)
    && DueAt(s) <= now
    && (s.status.Claimed? || s.status.Running? ==> Lapsed(s.leaseExpires, now))
  }

  predicate Observable(s: Schedule, now: Time) {
    && (s.status.ObservationPending? || s.status.ObservationClaimed?)
    && s.nextRetry.Some? && s.nextRetry.value <= now
    && (s.status.ObservationClaimed? ==> Lapsed(s.leaseExpires, now))
  }

  // ----- promises -----

  function SetPromise(db: CaseDb, p: nat, promise: Promise): CaseDb
    requires p < |db.promises|
  {
    db.(promises := db.promises[p := promise])
  }

  predicate HasActivePromise(db: CaseDb) {
    exists p :: 0 <= p < |db.promises| && db.promises[p].status.Active?
  }

  predicate OpenCheck(p: Promise) {
    p.check.CheckPending? || p.check.CheckClaimed?
  }
}
