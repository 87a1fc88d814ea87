/** The vocabulary of a recovery case: its states, the actions, the event types and the clock. */
module Domain {
  import opened Wrappers

  /** Nanoseconds since the zero time; 0 is `time.Time{}`. */
  type Time = int

  const SECOND: int := 1_000_000_000
  const MINUTE: int := 60 * SECOND
  const HOUR: int := 60 * MINUTE
  const DAY: int := 24 * HOUR
  const WEEK: int := 7 * DAY

  datatype CaseState =
    | Detected | Diagnosing | ActionPending | PolicyReview | Scheduled | Executing
    | WaitingOutcome | Reassessing | Recovered | Escalated | Exhausted | Stopped

  datatype ActionType =
    | Wait | RetryNow | RetryLater | SendReminder | SendPaymentLink | SendCheckoutRecoveryLink
    | RequestPaymentMethodUpdate | SuggestAlternateMethod | WaitForPromiseToPay | Retention
    | EscalateToHuman | StopAction

  datatype LeakType = FailedSubscription | CheckoutAbandonment

  datatype EventType =
    | RevenueRiskDetected | CaseCreated | DiagnosisStarted | DiagnosisCompleted | PolicyApproved
    | PolicyDenied | PolicyEscalated | ActionScheduled | ActionExecuted | ActionFailed | OutcomeObserved
    | PromiseCreated | PromiseFulfilled | PromiseBroken | PromiseExpired | PromiseCancelled
    | PromiseCheckScheduled | RecoveryCompleted | CaseEscalated | CaseStopped | CaseExhausted
    | StateTransitioned | DecisionCreated | EconomicGateAllowed | EconomicGateBlocked | PolicyEvaluated
    | ActionSuppressed | CustomerResponded | RecoveryAttributed | FeedbackRecorded | HumanReviewRequested
    | OperatorApproved | OperatorRejected | OperatorDeferred | OperatorStopped | PolicyRevalidated
    | StaleApproval

  predicate IsTerminal(s: CaseState) {
    s == Recovered || s == Exhausted || s == Stopped
  }

  /** The transition table. */
  function Targets(from: CaseState): set<CaseState> {
    match from
    case Detected => {Diagnosing, Stopped}
    case Diagnosing => {ActionPending, Escalated, Stopped}
    case ActionPending => {PolicyReview, Escalated, Exhausted, Stopped}
    case PolicyReview => {Scheduled, Reassessing, Escalated, Stopped}
    case Scheduled => {Executing, Reassessing, Stopped}
    case Executing => {WaitingOutcome, Reassessing, Escalated, Stopped}
    case WaitingOutcome => {Recovered, Reassessing, Escalated, Exhausted, Stopped}
    case Reassessing => {ActionPending, Recovered, Escalated, Exhausted, Stopped}
    case Escalated => {Reassessing, ActionPending, Recovered, Exhausted, Stopped}
    case Recovered => {}
    case Exhausted => {}
    case Stopped => {}
  }

  predicate CanTransition(from: CaseState, to: CaseState) {
    to in Targets(from)
  }

  /** The table the other way round: the states from which each state can be reached. */
  lemma WhereFrom(from: CaseState, to: CaseState)
    ensures CanTransition(from, to) <==>
      match to
      case Detected => false
      case Diagnosing => from == Detected
      case ActionPending => from in {Diagnosing, Reassessing, Escalated}
      case PolicyReview => from == ActionPending
      case Scheduled => from == PolicyReview
      case Executing => from == Scheduled
      case WaitingOutcome => from == Executing
      case Reassessing => from in {PolicyReview, Scheduled, Executing, WaitingOutcome, Escalated}
      case Recovered => from in {WaitingOutcome, Reassessing, Escalated}
      case Escalated => from in {Diagnosing, ActionPending, PolicyReview, Executing, WaitingOutcome, Reassessing}
      case Exhausted => from in {ActionPending, WaitingOutcome, Reassessing, Escalated}
      case Stopped => from !in {Recovered, Exhausted, Stopped}
  {
  }

  /** The event a manual transition writes. */
  function EventForTransition(to: CaseState): EventType {
    match to
    case Diagnosing => DiagnosisStarted
    case Scheduled => ActionScheduled
    case Executing => ActionExecuted
    case WaitingOutcome => OutcomeObserved
    case Recovered => RecoveryCompleted
    case Escalated => CaseEscalated
    case Stopped => CaseStopped
    case Exhausted => CaseExhausted
    case _ => StateTransitioned
  }

  predicate IsContact(a: ActionType) {
    || a.SendReminder? || a.SendPaymentLink? || a.SendCheckoutRecoveryLink? || a.RequestPaymentMethodUpdate?
    || a.SuggestAlternateMethod? || a.WaitForPromiseToPay? || a.Retention?
  }

  predicate IsRetry(a: ActionType) {
    a == RetryNow || a == RetryLater
  }

  /** The hard-coded terminal test and the table agree: a state is terminal exactly when nothing leaves it. */
  lemma TerminalIffNoTargets(s: CaseState)
    ensures IsTerminal(s) <==> Targets(s) == {}
  {
    if !IsTerminal(s) {
      assert Stopped in Targets(s);
    }
  }
}
