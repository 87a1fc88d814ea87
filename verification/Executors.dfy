/** Which executor carries an action out, how its failures are classified, and what becomes of an action that none supports. */
module Executors {
  import opened Wrappers
  import opened Domain
  import opened CaseRows
  import opened CaseSteps
  import opened Transactions
  import opened Workflow

  datatype Executor = Email | RazorpayLink | LocalLink | RetryRequest(configured: bool)

  predicate Supports(e: Executor, a: ActionType) {
    match e
    case Email => a.SendReminder? || a.RequestPaymentMethodUpdate? || a.SendCheckoutRecoveryLink? || a.SuggestAlternateMethod?
    case RazorpayLink => a.SendPaymentLink?
    case LocalLink => a.SendPaymentLink?
    case RetryRequest(_) => a.RetryNow? || a.RetryLater?
  }

  /** The first executor registered for an action. */
  function Chosen(executors: seq<Executor>, a: ActionType): (e: Option<Executor>)
    ensures e.Some? ==> e.value in executors && Supports(e.value, a)
    ensures e.None? ==> forall x :: x in executors ==> !Supports(x, a)
  {
    if executors == [] then None
    else if Supports(executors[0], a) then Some(executors[0])
    else Chosen(executors[1..], a)
  }

  method Dispatch(executors: seq<Executor>, a: ActionType) returns (e: Option<Executor>)
    ensures e == Chosen(executors, a)
  {
    for i := 0 to |executors|
      invariant Chosen(executors, a) == Chosen(executors[i..], a)
    {
      assert executors[i..][1..] == executors[i + 1..];
      if Supports(executors[i], a) {
        return Some(executors[i]);
      }
    }
    e := None;
  }

  /** One link executor or the other is registered, not both, and one retry executor. */
  predicate OneOfEachKind(executors: seq<Executor>) {
    (RazorpayLink !in executors || LocalLink !in executors) && (RetryRequest(true) !in executors || RetryRequest(false) !in executors)
  }

  /** Then the order of registration does not matter: no action has two executors. */
  lemma OrderDoesNotMatter(xs: seq<Executor>, ys: seq<Executor>, a: ActionType)
    requires forall e :: e in xs <==> e in ys
    requires OneOfEachKind(xs)
    ensures Chosen(xs, a) == Chosen(ys, a)
  {
    var x, y := Chosen(xs, a), Chosen(ys, a);
    if x.Some? {
      assert x.value in ys;
    }
    if y.Some? {
      assert y.value in xs;
    }
  }

  /** As the worker registers them, with one link executor or the other: who carries out what. */
  lemma WhoCarriesOut(link: Executor, configured: bool, a: ActionType)
    requires link == RazorpayLink || link == LocalLink
    ensures var chosen := Chosen([Email, link, RetryRequest(configured)], a);
      && (chosen == Some(Email) <==> a in {SendReminder, RequestPaymentMethodUpdate, SendCheckoutRecoveryLink, SuggestAlternateMethod})
      && (chosen == Some(link) <==> a == SendPaymentLink)
      && (chosen == Some(RetryRequest(configured)) <==> a in {RetryNow, RetryLater})
      && (chosen.None? <==> a in {Wait, WaitForPromiseToPay, Retention, EscalateToHuman, StopAction})
  {
    var all := [Email, link, RetryRequest(configured)];
    assert Chosen(all, a) == if Supports(Email, a) then Some(Email) else Chosen(all[1..], a);
    assert Chosen(all[1..], a) == if Supports(link, a) then Some(link) else Chosen(all[1..][1..], a);
    assert all[1..][1..] == [RetryRequest(configured)];
  }

  // ----- failures -----

  datatype Failure = DeadlineExceeded | NetworkTimeout | ProviderError(code: int) | OtherFailure

  /** Only a client error that waiting cannot cure is permanent. */
  function Retryable(f: Failure): (r: bool)
    ensures !r <==> f.ProviderError? && 400 <= f.code < 500 && f.code != 408 && f.code != 429
  {
    match f
    case DeadlineExceeded => true
    case NetworkTimeout => true
    case ProviderError(code) => !(code >= 400 && code < 500 && code != 408 && code != 429)
    case OtherFailure => true
  }

  /** What happens to an executor's call: the provider (or the outbox) takes it and gives a reference, or it breaks. */
  datatype Attempt = Taken(reference: string) | Broke(failure: Failure)

  /**
   * What an executor reports. Only e-mails and Razorpay links classify their failures; a local link is
   * never retried, a retry request always is, unless no provider is configured for it.
   */
  function Report(e: Executor, a: Attempt): ProviderResult {
    match e
    case Email => if a.Taken? then ProviderResult(Succeeded, false, a.reference) else ProviderResult(Failed, Retryable(a.failure), "")
    case RazorpayLink => if a.Taken? then ProviderResult(Succeeded, false, a.reference) else ProviderResult(Failed, Retryable(a.failure), "")
    case LocalLink => if a.Taken? then ProviderResult(Succeeded, false, a.reference) else ProviderResult(Failed, false, "")
    case RetryRequest(configured) =>
      if !configured then ProviderResult(Failed, false, "")
      else if a.Taken? then ProviderResult(OutcomePending, false, a.reference)
      else ProviderResult(Failed, true, "")
  }

  /** Exactly when a failed call is worth another attempt, executor by executor. */
  predicate WorthRetrying(e: Executor, f: Failure) {
    e == RetryRequest(true) || ((e.Email? || e.RazorpayLink?) && !(f.ProviderError? && 400 <= f.code < 500 && f.code != 408 && f.code != 429))
  }

  /** What becomes of a call, executor by executor, for the schedule and for an EXECUTING case. */
  predicate Settles(db: CaseDb, after: CaseDb, i: nat, claim: Schedule, e: Executor, a: Attempt)
    requires i < |after.schedules|
  {
    if a.Taken? && e != RetryRequest(false) then
      after.schedules[i].status.ObservationPending? && after.state.WaitingOutcome? && after.version == db.version + 1
    else if a.Broke? && WorthRetrying(e, a.failure) && claim.attempt < claim.maxAttempts then
      after.schedules[i].status.RetryPending? && after.state.Executing? && after.version == db.version
    else after.schedules[i].status.FailedForGood? && after.state.ActionPending? && after.version == db.version + 2
  }

  /**
   * A call that is taken leaves the case waiting for its outcome; a failure worth retrying is retried while
   * attempts last; any other failure ends the schedule and returns the case to a decision.
   */
  lemma FailureEndsOrRetries(db: CaseDb, i: nat, claim: Schedule, e: Executor, a: Attempt, now: Time)
    requires i < |db.schedules| && db.state.Executing?
    ensures var after := Apply(db, Complete(i, claim, Report(e, a), now));
      |after.schedules| == |db.schedules| && Settles(db, after, i, claim, e, a)
  {
    ReportIsRetryable(e, a);
  }

  lemma ReportIsRetryable(e: Executor, a: Attempt)
    ensures Report(e, a).status.Failed? <==> a.Broke? || e == RetryRequest(false)
    ensures Report(e, a).retryable <==> a.Broke? && WorthRetrying(e, a.failure)
  {
  }

  // ----- actions without an executor -----

  predicate Unsupported(a: ActionType) {
    a.Wait? || a.WaitForPromiseToPay? || a.Retention? || a.EscalateToHuman? || a.StopAction?
  }

  /** These are exactly the actions that no executor supports, whatever is registered. */
  lemma UnsupportedExactly(a: ActionType)
    ensures Unsupported(a) <==> forall executors :: Chosen(executors, a).None?
  {
    if !Unsupported(a) {
      var e := if IsRetry(a) then RetryRequest(true) else if a.SendPaymentLink? then LocalLink else Email;
      assert Chosen([e], a) == Some(e);
    }
  }

  /** What the registry reports for them. */
  const UNSUPPORTED: ProviderResult := ProviderResult(Failed, false, "")

  /**
   * So an operator who approves WAIT sets off a schedule that fails for good on its first attempt and
   * returns the case, six versions on, to a decision.
   */
  lemma ApprovedWaitFails(db: CaseDb, command: ReviewCommand, policyVersion: int, owner: nat, now: Time)
    requires !KnownReview(db, command.key) && command.about < |db.decisions| && command.decision.ReviewApprove?
    requires Reauthorized(db, command, policyVersion, now).Approved?
    requires Unsupported(db.decisions[command.about].gate.action)
    ensures var i := |db.schedules|;
      var claimed := Apply(Apply(db, Decide(command, policyVersion, now)), Claim(i, owner, now, LEASE));
      i < |claimed.schedules| &&
      var done := Apply(Apply(claimed, Mark(i, now)), Complete(i, claimed.schedules[i], UNSUPPORTED, now));
      done.schedules[i].status.FailedForGood? && done.state.ActionPending? && done.version == db.version + 6
  {
    var i, scheduled := |db.schedules|, Apply(db, Decide(command, policyVersion, now));
    assert scheduled.state.Scheduled? && Claimable(scheduled.schedules[i], now);
    var claimed := Apply(scheduled, Claim(i, owner, now, LEASE));
    var marked := Apply(claimed, Mark(i, now));
    assert marked.state.Executing? && marked.version == db.version + 4;
  }
}
