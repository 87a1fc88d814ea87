/**
 * What each repository transaction does to the rows of a case, as a function of those rows. `CaseStore`
 * is the step-by-step form that is proved to compute these functions.
 */
module CaseSteps {
  import opened Wrappers
  import opened Domain
  import opened CaseRows
  import EconomicGate
  import Policy
  import AttributionRules

  // ----- decisions -----

  /** What the evaluator hands over: a decision taken at `caseVersion`, its gate result and its verdict. */
  datatype Snapshot = Snapshot(caseVersion: nat, gate: EconomicGate.GateResult, incentive: int, verdict: Policy.Decision, createdAt: Time)

  /** Bring a case to ACTION_PENDING, if it is in one of the states that precede a decision. */
  function PrepareForDecision(db: CaseDb): Tx<()> {
    match db.state
    case Detected => Commit(Log(Advance(Advance(db, Diagnosing), ActionPending), [DiagnosisStarted, DiagnosisCompleted]), ())
    case Diagnosing => Commit(Log(Advance(db, ActionPending), [DiagnosisCompleted]), ())
    case Reassessing => Commit(Log(Advance(db, ActionPending), [StateTransitioned]), ())
    case ActionPending => Commit(db, ())
    case _ => Abort(Conflict)
  }

  function VerdictEvent(v: Policy.Decision): EventType {
    match v case Approve => PolicyApproved case Deny => PolicyDenied case Escalate => PolicyEscalated case StopCase => CaseStopped
  }

  function DecisionEvents(s: Snapshot): seq<EventType> {
    var gate := if s.gate.allow then EconomicGateAllowed else EconomicGateBlocked;
    var four := [DecisionCreated, gate, PolicyEvaluated, VerdictEvent(s.verdict)];
    if s.verdict.Escalate? then four + [HumanReviewRequested] else four
  }

  /** The rows with a decision, its policy evaluation and its events. */
  function RecordDecision(db: CaseDb, s: Snapshot): CaseDb {
    var row := DecisionRow(s.caseVersion, s.gate, s.incentive, s.createdAt);
    var policy := PolicyRow(|db.decisions|, s.verdict, false);
    Log(db.(decisions := db.decisions + [row], policies := db.policies + [policy]), DecisionEvents(s))
  }

  function SaveDecision(db: CaseDb, s: Snapshot): Tx<()> {
    if db.version != s.caseVersion then Abort(Conflict)
    else if s.verdict.Escalate? then
      if db.state.ActionPending? then Commit(Advance(RecordDecision(db, s), Escalated), ()) else Abort(Conflict)
    else if s.verdict.StopCase? && !IsTerminal(db.state) then Commit(Advance(RecordDecision(db, s), Stopped), ())
    else Commit(RecordDecision(db, s), ())
  }

  /** Append a schedule for the latest decision and policy evaluation, two versions on. */
  function ScheduleDecision(db: CaseDb, s: Snapshot, decision: nat, policy: nat, now: Time): Tx<nat> {
    if !db.state.ActionPending? || db.version != s.caseVersion then Abort(Conflict)
    else
      var moved := Advance(Advance(db, PolicyReview), Scheduled);
      var schedule := NewSchedule(s.gate.action, decision, policy, moved.version, now);
      Commit(Log(moved.(schedules := db.schedules + [schedule]), [StateTransitioned, StateTransitioned, ActionScheduled]), |db.schedules|)
  }

  /** Decision and schedule commit together or not at all. */
  function SaveDecisionAndSchedule(db: CaseDb, s: Snapshot, now: Time): Tx<Option<nat>> {
    var saved := SaveDecision(db, s);
    if saved.Abort? then Abort(saved.error)
    else if !s.verdict.Approve? then Commit(saved.rows, None)
    else if !s.gate.allow then Abort(BlockedByGate)
    else if s.gate.action.Wait? then Commit(saved.rows, None)
    else
      var scheduled := ScheduleDecision(saved.rows, s, |db.decisions|, |db.policies|, now);
      if scheduled.Abort? then Abort(scheduled.error) else Commit(scheduled.rows, Some(scheduled.value))
  }

  // ----- executing schedules -----

  function Claimed(s: Schedule, owner: nat, now: Time, lease: int): Schedule {
    s.(status := ScheduleStatus.Claimed, leaseOwner := Some(owner), leaseExpires := Some(now + lease), attempt := s.attempt + 1)
  }

  /** Claim schedule `i`, one that is due and not under a live lease. */
  function ClaimDue(db: CaseDb, i: nat, owner: nat, now: Time, lease: int): Tx<Schedule> {
    if i < |db.schedules| && Claimable(db.schedules[i], now) then
      var s := Claimed(db.schedules[i], owner, now, lease);
      Commit(SetSchedule(db, i, s), s)
    else Abort(NoDueWork)
  }

  /** A human approval covers a schedule when the policy evaluation it cites says so. */
  predicate HumanApproved(db: CaseDb, policy: nat) {
    policy < |db.policies| && db.policies[policy].verdict.Approve? && db.policies[policy].humanSatisfied
  }

  function MarkExecuting(db: CaseDb, i: nat, now: Time): Tx<()> {
    if i < |db.schedules| && db.schedules[i].status.Claimed? then
      var s := db.schedules[i];
      var running := s.(status := Running, started := if s.started.Some? then s.started else Some(now));
      if db.state.Scheduled? then
        var moved := Advance(db, Executing);
        Commit(SetSchedule(moved, i, running.(stamp := moved.version)), ())
      else Commit(SetSchedule(db, i, running), ())
    else Abort(Conflict)
  }

  /** Statuses the store does not know count as failures. */
  function Normalised(s: ProviderStatus): ProviderStatus {
    if s.Succeeded? || s.OutcomePending? then s else Failed
  }

  function Pow2(n: nat): nat {
    if n == 0 then 1 else 2 * Pow2(n - 1)
  }

  function Backoff(attempt: nat): int {
    var exponent := if attempt - 1 < 6 then attempt - 1 else 6;
    (if exponent < 0 then 0 else Pow2(exponent)) * MINUTE
  }

  predicate RetryWanted(claim: Schedule, result: ProviderResult) {
    Normalised(result.status).Failed? && result.retryable && claim.attempt < claim.maxAttempts
  }

  predicate HasExecution(db: CaseDb, i: nat, attempt: nat) {
    exists k :: 0 <= k < |db.executions| && db.executions[k].schedule == i && db.executions[k].attempt == attempt
  }

  /** One execution row for each attempt: a second insertion does nothing. */
  function RecordExecution(db: CaseDb, i: nat, claim: Schedule, result: ProviderResult, now: Time): CaseDb {
    if HasExecution(db, i, claim.attempt) then db
    else db.(executions := db.executions + [Execution(i, claim.attempt, claim.action, Normalised(result.status), result.reference, now)])
  }

  function Retried(s: Schedule, claim: Schedule, now: Time): Schedule {
    s.(status := RetryPending, nextRetry := Some(now + Backoff(claim.attempt)), leaseOwner := None, leaseExpires := None)
  }

  function Finished(s: Schedule, failed: bool, now: Time): Schedule {
    s.(status := if failed then FailedForGood else ObservationPending, completed := Some(now),
       nextRetry := if failed then None else Some(now + 24 * HOUR), leaseOwner := None, leaseExpires := None,
       actionStatus := if failed then HasFailed else HasExecuted)
  }

  /** What a final result means for the case: only an EXECUTING case moves. */
  function Outcome(db: CaseDb, failed: bool): CaseDb {
    if !db.state.Executing? then db
    else if failed then Advance(Advance(db, Reassessing), ActionPending)
    else Advance(db, WaitingOutcome)
  }

  /** `claim` is the row the worker claimed. Neither the lease nor the status of the row is checked again. */
  function CompleteExecution(db: CaseDb, i: nat, claim: Schedule, result: ProviderResult, now: Time): Tx<()> {
    if i >= |db.schedules| then Abort(NotFound)
    else
      var recorded := RecordExecution(db, i, claim, result, now);
      if RetryWanted(claim, result) then Commit(SetSchedule(recorded, i, Retried(db.schedules[i], claim, now)), ())
      else
        var failed := Normalised(result.status).Failed?;
        var finished := SetSchedule(recorded, i, Finished(db.schedules[i], failed, now));
        Commit(Log(Outcome(finished, failed), [if failed then EventType.ActionFailed else EventType.ActionExecuted]), ())
  }

  /** A schedule that is not running is superseded; the event is written in any case, and the case stays as it is. */
  function MarkSuppressed(db: CaseDb, i: nat, now: Time): Tx<()> {
    if i >= |db.schedules| then Abort(NotFound)
    else
      var s := db.schedules[i];
      var open := s.status.Claimed? || s.status.Pending? || s.status.RetryPending?;
      var rows := if open then SetSchedule(db, i, s.(status := Superseded, completed := Some(now), leaseOwner := None, leaseExpires := None)) else db;
      Commit(Log(rows, [ActionSuppressed]), ())
  }

  function ClaimDueObservation(db: CaseDb, i: nat, owner: nat, now: Time, lease: int): Tx<Schedule> {
    if i < |db.schedules| && Observable(db.schedules[i], now) then
      var s := db.schedules[i].(status := ObservationClaimed, leaseOwner := Some(owner), leaseExpires := Some(now + lease));
      Commit(SetSchedule(db, i, s), s)
    else Abort(NoDueWork)
  }

  /** Close an observation; says whether the case is ready for a new decision. */
  function PrepareReassessment(db: CaseDb, i: nat, now: Time): Tx<bool> {
    if i >= |db.schedules| then Abort(NotFound)
    else
      var waiting := db.state.WaitingOutcome?;
      var moved :=
        if !waiting then db
        else if db.deadline <= now then Advance(db, Exhausted)
        else Advance(Advance(db, Reassessing), ActionPending);
      var s := moved.schedules[i];
      var closed := if s.status.ObservationClaimed? then SetSchedule(moved, i, s.(status := Observed, leaseOwner := None, leaseExpires := None)) else moved;
      Commit(Log(closed, [OutcomeObserved]), waiting && db.deadline > now)
  }

  // ----- promises -----

  predicate HasEvent(db: CaseDb, p: nat, correlation: Correlation) {
    exists k :: 0 <= k < |db.promiseEvents| && db.promiseEvents[k].promise == p && db.promiseEvents[k].correlation == correlation
  }

  function BySource(promises: seq<Promise>, source: string): (r: Option<nat>)
    ensures r.Some? ==> r.value < |promises| && promises[r.value].source == Some(source)
  {
    if promises == [] then None
    else if promises[|promises| - 1].source == Some(source) then Some(|promises| - 1)
    else BySource(promises[..|promises| - 1], source)
  }

  /** A promise and its check; at most one promise of a case may be ACTIVE. Says which promise, and whether it is new. */
  function CreatePromise(db: CaseDb, due: Time, source: Option<string>, correlation: Correlation): Tx<(nat, bool)> {
    var existing := if source.Some? then BySource(db.promises, source.value) else None;
    if existing.Some? then Commit(db, (existing.value, false))
    else if HasActivePromise(db) then Abort(UniqueViolation)
    else
      var p := |db.promises|;
      var promise := Promise(Active, due, source, CheckPending, None);
      var rows := db.(promises := db.promises + [promise], promiseEvents := db.promiseEvents + [PromiseEvent(p, None, Active, correlation)]);
      Commit(Log(rows, [PromiseCreated, PromiseCheckScheduled]), (p, true))
  }

  predicate CheckClaimable(p: Promise, now: Time) {
    OpenCheck(p) && p.due <= now && (p.check.CheckClaimed? ==> Lapsed(p.checkLease, now))
  }

  function ClaimDuePromise(db: CaseDb, p: nat, now: Time, lease: int): Tx<Promise> {
    if p < |db.promises| && CheckClaimable(db.promises[p], now) then
      var promise := db.promises[p].(check := CheckClaimed, checkLease := Some(now + lease));
      Commit(SetPromise(db, p, promise), promise)
    else Abort(NoDueWork)
  }

  function PromiseOutcomeEvent(s: PromiseStatus): EventType {
    match s
    case Fulfilled => PromiseFulfilled
    case Broken => PromiseBroken
    case Expired => PromiseExpired
    case _ => PromiseCancelled
  }

  /** Resolve an ACTIVE promise; the (promise, correlation) pair must be new. The check is not touched. */
  function TransitionPromise(db: CaseDb, p: nat, target: PromiseStatus, correlation: Correlation): Tx<()> {
    if p >= |db.promises| then Abort(NotFound)
    else if !db.promises[p].status.Active? then Abort(Conflict)
    else if target.Active? then Abort(InvalidInput)
    else if HasEvent(db, p, correlation) then Abort(UniqueViolation)
    else
      var rows := SetPromise(db, p, db.promises[p].(status := target));
      var events := rows.promiseEvents + [PromiseEvent(p, Some(Active), target, correlation)];
      Commit(Log(rows.(promiseEvents := events), [PromiseOutcomeEvent(target)]), ())
  }

  /** How a due promise turns out, unless the caller forces an outcome. */
  function PromiseVerdict(db: CaseDb, forced: Option<PromiseStatus>, now: Time): PromiseStatus {
    if forced.Some? then forced.value
    else if db.state.Recovered? then Fulfilled
    else if db.deadline <= now then Expired
    else Broken
  }

  function CloseCheck(db: CaseDb, p: nat, status: CheckStatus): CaseDb
    requires p < |db.promises|
  {
    SetPromise(db, p, db.promises[p].(check := status, checkLease := None))
  }

  /** A broken promise sends a waiting or escalated case back for a decision. */
  function AfterPromise(db: CaseDb, target: PromiseStatus): (after: CaseDb)
    ensures after.promises == db.promises && after.promiseEvents == db.promiseEvents
  {
    if target.Broken? && (db.state.WaitingOutcome? || db.state.Escalated?) then
      Log(Advance(Advance(db, Reassessing), ActionPending), [StateTransitioned, StateTransitioned])
    else db
  }

  function ResolvePromise(db: CaseDb, p: nat, forced: Option<PromiseStatus>, now: Time): Tx<PromiseStatus> {
    var target := PromiseVerdict(db, forced, now);
    var moved := TransitionPromise(db, p, target, OfCheck(p));
    if forced.Some? && !forced.value.Fulfilled? && !forced.value.Broken? then Abort(InvalidInput)
    else if moved.Abort? then Abort(moved.error)
    else Commit(AfterPromise(CloseCheck(moved.rows, p, CheckCompleted), target), target)
  }

  /** Only an open check is cancelled with its promise. Its lease, if any, is left on the row. */
  function CancelPromise(db: CaseDb, p: nat, correlation: Correlation): Tx<()> {
    var moved := TransitionPromise(db, p, Cancelled, correlation);
    if moved.Abort? then Abort(moved.error)
    else
      var promise := moved.rows.promises[p];
      Commit(if OpenCheck(promise) then SetPromise(moved.rows, p, promise.(check := CheckCancelled)) else moved.rows, ())
  }

  // ----- payments -----

  /** The position of the latest decision taken by `observed`. */
  function LatestDecision(decisions: seq<DecisionRow>, observed: Time): (r: Option<nat>)
    ensures r.Some? ==> r.value < |decisions| && decisions[r.value].createdAt <= observed
  {
    if decisions == [] then None
    else
      var n := |decisions| - 1;
      var best := LatestDecision(decisions[..n], observed);
      if decisions[n].createdAt <= observed && (best.None? || decisions[best.value].createdAt <= decisions[n].createdAt) then Some(n)
      else best
  }

  predicate Attributed(db: CaseDb, reference: string) {
    exists k :: 0 <= k < |db.attributions| && db.attributions[k].reference == reference
  }

  /** An ACTIVE promise that explains the payment is fulfilled in the same transaction. */
  function KeepPromise(db: CaseDb, finding: AttributionRules.Finding, correlation: Correlation): Tx<()> {
    if finding.promise.Some? && finding.promise.value < |db.promises| && db.promises[finding.promise.value].status.Active? then
      TransitionPromise(db, finding.promise.value, Fulfilled, correlation)
    else Commit(db, ())
  }

  /** Record what explains a payment and close the case as RECOVERED. Says whether the attribution is new. */
  function AttributeRecovery(db: CaseDb, reference: string, amount: int, observed: Time, correlation: Correlation): Tx<bool> {
    if reference == "" || amount <= 0 then Abort(InvalidInput)
    else if IsTerminal(db.state) then Abort(CaseTerminal)
    else if Attributed(db, reference) then Commit(db, false)
    else
      var found := AttributionRules.Cascade(db, reference, observed);
      if found.None? then Abort(LostSilently)
      else
        var row := AttributionRow(db, found.value, reference, amount, observed);
        var kept := KeepPromise(db.(attributions := db.attributions + [row]), found.value, correlation);
        if kept.Abort? then Abort(kept.error) else Commit(CloseRecovered(kept.rows, amount, row.decision), true)
  }

  function AttributionRow(db: CaseDb, finding: AttributionRules.Finding, reference: string, amount: int, observed: Time): Attribution {
    Attribution(reference, amount, finding.category, LatestDecision(db.decisions, observed), finding.execution, finding.promise, observed)
  }

  /** A payment closes the case from whatever state it is in, with one event more when there is a decision to learn from. */
  function CloseRecovered(db: CaseDb, amount: int, decision: Option<nat>): CaseDb {
    var closed := Advance(db, Recovered);
    var events := [StateTransitioned, RecoveryAttributed, RecoveryCompleted] + if decision.Some? then [FeedbackRecorded] else [];
    Log(closed.(recovered := closed.recovered + amount), events)
  }

  // ----- customers and operators -----

  datatype ResponseType = Acknowledgement | IntentToPay | PromiseResponse | OptOut | PaymentMethodIssue | Unresolved

  /** Says whether the response is new. */
  function SaveCustomerResponse(db: CaseDb, correlation: string, kind: ResponseType): Tx<bool> {
    if correlation in db.responses then Commit(db, false)
    else
      var saved := db.(responses := db.responses + {correlation});
      if db.state.WaitingOutcome? && !kind.Acknowledgement? && !kind.PromiseResponse? then
        var moved := Advance(Advance(saved, Reassessing), ActionPending);
        Commit(Log(moved, [CustomerResponded, StateTransitioned, StateTransitioned]), true)
      else Commit(Log(saved, [CustomerResponded]), true)
  }

  /** An operator's command, with the decision it is about and the policy verdict freshly evaluated for it. */
  datatype ReviewCommand = ReviewCommand(key: string, decision: ReviewDecision, expected: nat, about: nat,
                                         observedPolicyVersion: int, verdict: Policy.Decision)

  function AuthorizeApproval(state: CaseState, version: nat, deadline: Time, policyVersion: int, command: ReviewCommand, now: Time): Authorization {
    if !state.Escalated? || version != command.expected || policyVersion != command.observedPolicyVersion || deadline <= now then StaleApproved
    else match command.verdict
      case Approve => Approved
      case Escalate => Approved
      case StopCase => ApprovalStopped
      case Deny => ApprovalDenied
  }

  function Reauthorized(db: CaseDb, command: ReviewCommand, policyVersion: int, now: Time): Authorization {
    if command.decision.ReviewApprove? then AuthorizeApproval(db.state, db.version, db.deadline, policyVersion, command, now)
    else NotRequired
  }

  function ReviewEvents(decision: ReviewDecision, outcome: Authorization): seq<EventType> {
    var told := match decision
      case ReviewApprove => OperatorApproved
      case ReviewReject => OperatorRejected
      case ReviewDefer => OperatorDeferred
      case ReviewStop => OperatorStopped;
    var first := if outcome.StaleApproved? || outcome.ApprovalDenied? || outcome.ApprovalStopped? then StaleApproval else told;
    [first] + (if outcome.Approved? then [PolicyRevalidated, ActionScheduled] else if decision.ReviewStop? then [CaseStopped] else [])
  }

  /** An approval's policy evaluation, its schedule (even for WAIT) and the three states it passes through. */
  function ScheduleApproval(db: CaseDb, action: ActionType, about: nat, now: Time): CaseDb {
    var moved := Advance(Advance(Advance(db, ActionPending), PolicyReview), Scheduled);
    var policy := PolicyRow(about, Policy.Approve, true);
    var schedule := NewSchedule(action, about, |db.policies|, moved.version, now);
    moved.(policies := db.policies + [policy], schedules := db.schedules + [schedule])
  }

  predicate KnownReview(db: CaseDb, key: string) {
    exists k :: 0 <= k < |db.reviews| && db.reviews[k].key == key
  }

  /** Says whether the review is new. */
  function ApplyHumanReview(db: CaseDb, command: ReviewCommand, policyVersion: int, now: Time): Tx<bool> {
    if KnownReview(db, command.key) then Commit(db, false)
    else if command.about >= |db.decisions| then Abort(NotFound)
    else if !command.decision.ReviewApprove? && !db.state.Escalated? then Abort(NotReviewable)
    else
      var outcome := Reauthorized(db, command, policyVersion, now);
      var review := Review(command.key, command.decision, command.expected, db.version, outcome, if outcome.Approved? then Some(|db.schedules|) else None);
      var moved :=
        if outcome.Approved? then ScheduleApproval(db, db.decisions[command.about].gate.action, command.about, now)
        else if command.decision.ReviewStop? then Advance(db, Stopped)
        else db;
      Commit(Log(moved.(reviews := db.reviews + [review]), ReviewEvents(command.decision, outcome)), true)
  }

  // ----- the manual endpoints -----

  /** Compare-and-set on the version alone. The caller has checked the transition on a state it read before. */
  function TransitionCase(db: CaseDb, expected: nat, to: CaseState): Tx<()> {
    if db.version != expected then Abort(Conflict)
    else Commit(Log(Advance(db, to), [EventForTransition(to)]), ())
  }

  function AppendEvent(db: CaseDb, kind: EventType): Tx<()> {
    Commit(Log(db, [kind]), ())
  }
}
