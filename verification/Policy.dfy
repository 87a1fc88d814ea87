/**
 * The final deterministic policy check. `Evaluate` is the imperative evaluation: it appends to three
 * lists and fills the checks map; `Judge` is its specification, and the laws are about `Judge`.
 */
module Policy {
  import opened Wrappers
  import opened Domain

  datatype RecentAction = RecentAction(kind: ActionType, createdAt: Time)

  datatype Limits = Limits(maxRetries: int, maxContactsPerDay: int, maxContactsPerWeek: int, minIntervalMinutes: int)

  /** A quiet window, after parsing: absent, present with an unreadable time, or in minutes of the day. */
  datatype Quiet = NoWindow | BadTimes | Window(start: int, end: int)

  datatype Merchant = Merchant(allowedActions: seq<ActionType>, allowedChannels: seq<string>, limits: Limits,
                               maxIncentive: int, highValueThreshold: int, lowConfidenceBps: int, quiet: Quiet)

  /** `localMinute` is None when the merchant's time zone does not load. */
  datatype Context = Context(
    state: CaseState, version: nat, cancelled: bool, deadline: Time, amountAtRisk: int, leak: LeakType,
    alreadyRecovered: bool, optedOut: bool, recent: seq<RecentAction>, activePromise: bool,
    nonRecoverable: bool, confidenceBps: int, mandateLost: bool, methodInvalid: bool,
    availableChannels: seq<string>, merchant: Merchant, localMinute: Option<int>, utcMinute: int)

  datatype Candidate = Candidate(action: ActionType, nerv: int, incentive: int)

  datatype Decision = Approve | Escalate | Deny | StopCase

  datatype Reason =
    | PaymentAlreadyRecovered | TerminalCaseState | SubscriptionCancelled | RecoveryWindowExpired
    | StaleDecision | GateBlocked | ActionNotAllowed | ChannelNotAllowed | CustomerOptOut
    | MaxRetries | KnownPermanentFailure | RetryCooldown | MaxContactsPerDay | MaxContactsPerWeek
    | MinContactInterval | ActivePromiseToPay | MandateInvalid | PaymentMethodInvalid | MaxDiscount
    | QuietHours | ChannelUnavailable
    | HighValueApproval | LowConfidenceEscalation
    | AllChecksPassed

  datatype Result = Result(decision: Decision, reasons: seq<Reason>, checks: map<Reason, bool>)

  // ----- history -----

  function CountRetries(recent: seq<RecentAction>): nat {
    if recent == [] then 0
    else (if IsRetry(recent[0].kind) then 1 else 0) + CountRetries(recent[1..])
  }

  /** Contacts no older than `age` at `now`. A timestamp in the future counts. */
  function CountContacts(recent: seq<RecentAction>, now: Time, age: int): nat {
    if recent == [] then 0
    else
      var counted := IsContact(recent[0].kind) && now - recent[0].createdAt <= age;
      (if counted then 1 else 0) + CountContacts(recent[1..], now, age)
  }

  /** The latest creation time among the contacts (or the retries), the zero time if there is none. */
  function Latest(recent: seq<RecentAction>, contact: bool): Time {
    if recent == [] then 0
    else
      var rest := Latest(recent[1..], contact);
      var relevant := if contact then IsContact(recent[0].kind) else IsRetry(recent[0].kind);
      if relevant && recent[0].createdAt > rest then recent[0].createdAt else rest
  }

  lemma {:induction false} LatestIsUpperBound(recent: seq<RecentAction>, contact: bool)
    ensures Latest(recent, contact) >= 0
    ensures forall i :: 0 <= i < |recent| && (if contact then IsContact(recent[i].kind) else IsRetry(recent[i].kind))
              ==> recent[i].createdAt <= Latest(recent, contact)
    ensures Latest(recent, contact) > 0 ==>
              exists i :: 0 <= i < |recent| && recent[i].createdAt == Latest(recent, contact)
                          && (if contact then IsContact(recent[i].kind) else IsRetry(recent[i].kind))
  {
    if recent != [] {
      LatestIsUpperBound(recent[1..], contact);
      forall i | 0 <= i < |recent| && (if contact then IsContact(recent[i].kind) else IsRetry(recent[i].kind))
        ensures recent[i].createdAt <= Latest(recent, contact)
      {
        if i > 0 { assert recent[i] == recent[1..][i - 1]; }
      }
      var rest := Latest(recent[1..], contact);
      if Latest(recent, contact) == rest && rest > 0 {
        var k :| 0 <= k < |recent[1..]| && recent[1..][k].createdAt == rest
                 && (if contact then IsContact(recent[1..][k].kind) else IsRetry(recent[1..][k].kind));
        assert recent[k + 1] == recent[1..][k];
      } else if Latest(recent, contact) > 0 {
        assert recent[0].createdAt == Latest(recent, contact);
      }
    }
  }

  lemma {:induction false} HistorySplit(a: seq<RecentAction>, b: seq<RecentAction>, now: Time, age: int)
    ensures CountRetries(a + b) == CountRetries(a) + CountRetries(b)
    ensures CountContacts(a + b, now, age) == CountContacts(a, now, age) + CountContacts(b, now, age)
    ensures forall contact :: Latest(a + b, contact)
              == (if Latest(a, contact) > Latest(b, contact) then Latest(a, contact) else Latest(b, contact))
  {
    if a == [] {
      assert a + b == b;
      LatestIsUpperBound(b, true);
      LatestIsUpperBound(b, false);
    } else {
      assert (a + b)[1..] == a[1..] + b;
      HistorySplit(a[1..], b, now, age);
    }
  }

  method History(recent: seq<RecentAction>, now: Time)
    returns (retry: nat, day: nat, week: nat, lastContact: Time, lastRetry: Time)
    ensures retry == CountRetries(recent)
    ensures day == CountContacts(recent, now, DAY)
    ensures week == CountContacts(recent, now, WEEK)
    ensures lastContact == Latest(recent, true) && lastRetry == Latest(recent, false)
  {
    retry, day, week, lastContact, lastRetry := 0, 0, 0, 0, 0;
    var i := 0;
    while i < |recent|
      invariant 0 <= i <= |recent|
      invariant retry == CountRetries(recent[..i])
      invariant day == CountContacts(recent[..i], now, DAY)
      invariant week == CountContacts(recent[..i], now, WEEK)
      invariant lastContact == Latest(recent[..i], true) && lastRetry == Latest(recent[..i], false)
    {
      var action := recent[i];
      HistorySplit(recent[..i], [action], now, DAY);
      HistorySplit(recent[..i], [action], now, WEEK);
      assert recent[..i + 1] == recent[..i] + [action];
      LatestIsUpperBound(recent[..i], true);
      LatestIsUpperBound(recent[..i], false);
      if IsRetry(action.kind) {
        retry := retry + 1;
        if action.createdAt > lastRetry { lastRetry := action.createdAt; }
      }
      if IsContact(action.kind) {
        var age := now - action.createdAt;
        if age <= DAY { day := day + 1; }
        if age <= WEEK { week := week + 1; }
        if action.createdAt > lastContact { lastContact := action.createdAt; }
      }
      i := i + 1;
    }
    assert recent[..|recent|] == recent;
  }

  // ----- quiet hours -----

  predicate InWindow(minute: int, start: int, end: int) {
    if start <= end then start <= minute < end else minute >= start || minute < end
  }

  /** Fails closed: an unknown time zone or an unreadable time counts as quiet. */
  predicate InQuietHours(q: Quiet, localMinute: Option<int>) {
    match q
    case NoWindow => false
    case BadTimes => true
    case Window(s, e) => localMinute.None? || InWindow(localMinute.value, s, e)
  }

  // ----- the specification -----

  /** `now.Sub(last) < interval`, with the zero time meaning "never". */
  predicate TooSoon(last: Time, now: Time, limits: Limits) {
    last != 0 && now - last < limits.minIntervalMinutes * MINUTE
  }

  predicate Stopped(c: Context, now: Time) {
    || (c.alreadyRecovered || c.state == Recovered)
    || (IsTerminal(c.state))
    || (c.cancelled)
    || (c.deadline <= now)
  }

  /** The case, the decision or the merchant's rules forbid the action outright. */
  predicate Forbidden(c: Context, v: nat, k: Candidate, g: bool) {
    || (c.version != v)
    || (!g)
    || (|c.merchant.allowedActions| > 0 && k.action !in c.merchant.allowedActions)
    || (IsContact(k.action) && |c.merchant.allowedChannels| == 0)
    || (c.optedOut && IsContact(k.action))
  }

  predicate OverRetries(c: Context, k: Candidate, now: Time) {
    || (IsRetry(k.action) && CountRetries(c.recent) >= c.merchant.limits.maxRetries)
    || (IsRetry(k.action) && c.nonRecoverable)
    || (IsRetry(k.action) && TooSoon(Latest(c.recent, false), now, c.merchant.limits))
  }

  predicate OverContacts(c: Context, k: Candidate, now: Time) {
    || (IsContact(k.action) && CountContacts(c.recent, now, DAY) >= c.merchant.limits.maxContactsPerDay)
    || (IsContact(k.action) && CountContacts(c.recent, now, WEEK) >= c.merchant.limits.maxContactsPerWeek)
    || (IsContact(k.action) && TooSoon(Latest(c.recent, true), now, c.merchant.limits))
  }

  /** The case's history forbids the action. */
  predicate OverLimits(c: Context, k: Candidate, now: Time) {
    OverRetries(c, k, now) || OverContacts(c, k, now)
  }

  /** The means to carry the action out are missing, or it is the wrong moment. */
  predicate Unavailable(c: Context, k: Candidate) {
    || (c.activePromise && (IsContact(k.action) || IsRetry(k.action)))
    || (IsRetry(k.action) && c.mandateLost)
    || (IsRetry(k.action) && c.methodInvalid)
    || (k.incentive > c.merchant.maxIncentive && c.merchant.maxIncentive >= 0)
    || (IsContact(k.action) && InQuietHours(c.merchant.quiet, c.localMinute))
    || (IsContact(k.action) && |c.availableChannels| == 0)
  }

  predicate Denied(c: Context, v: nat, k: Candidate, g: bool, now: Time) {
    Forbidden(c, v, k, g) || OverLimits(c, k, now) || Unavailable(c, k)
  }

  predicate Escalated(c: Context) {
    || (c.merchant.highValueThreshold > 0 && c.amountAtRisk >= c.merchant.highValueThreshold)
    || (c.confidenceBps < c.merchant.lowConfidenceBps)
  }

  /**
   * The verdict for candidate `k` of a decision taken at case version `v`, whose economic gate said `g`:
   * stop beats deny beats escalate beats approve.
   */
  function Judge(c: Context, v: nat, k: Candidate, g: bool, now: Time): Decision {
    if Stopped(c, now) then StopCase
    else if Denied(c, v, k, g, now) then Deny
    else if Escalated(c) then Escalate
    else Approve
  }

  // ----- the evaluation -----

  /** A list of reasons under construction, with the outcome of every check made so far. */
  datatype Tally = Tally(list: seq<Reason>, checks: map<Reason, bool>)

  /** Record one check: its outcome in the map, its name in the list when it fires. */
  function Plus(t: Tally, reason: Reason, fires: bool): Tally {
    Tally(if fires then t.list + [reason] else t.list, t.checks[reason := !fires])
  }

  /** The stop checks, in order. */
  function StopTally(c: Context, now: Time, before: Tally): Tally {
    var t1 := Plus(before, PaymentAlreadyRecovered, c.alreadyRecovered || c.state == Recovered);
    var t2 := Plus(t1, TerminalCaseState, IsTerminal(c.state));
    var t3 := Plus(t2, SubscriptionCancelled, c.cancelled);
    var t4 := Plus(t3, RecoveryWindowExpired, c.deadline <= now);
    t4
  }

  /** The first group of deny checks. */
  function ForbiddenTally(c: Context, v: nat, k: Candidate, g: bool, before: Tally): Tally {
    var t1 := Plus(before, StaleDecision, c.version != v);
    var t2 := Plus(t1, GateBlocked, !g);
    var t3 := Plus(t2, ActionNotAllowed, |c.merchant.allowedActions| > 0 && k.action !in c.merchant.allowedActions);
    var t4 := Plus(t3, ChannelNotAllowed, IsContact(k.action) && |c.merchant.allowedChannels| == 0);
    var t5 := Plus(t4, CustomerOptOut, c.optedOut && IsContact(k.action));
    t5
  }

  /** The deny checks on the history. */
  function LimitsTally(c: Context, k: Candidate, now: Time, before: Tally): Tally {
    ContactsTally(c, k, now, RetriesTally(c, k, now, before))
  }

  function RetriesTally(c: Context, k: Candidate, now: Time, before: Tally): Tally {
    var t1 := Plus(before, MaxRetries, IsRetry(k.action) && CountRetries(c.recent) >= c.merchant.limits.maxRetries);
    var t2 := Plus(t1, KnownPermanentFailure, IsRetry(k.action) && c.nonRecoverable);
    var t3 := Plus(t2, RetryCooldown, IsRetry(k.action) && TooSoon(Latest(c.recent, false), now, c.merchant.limits));
    t3
  }

  function ContactsTally(c: Context, k: Candidate, now: Time, before: Tally): Tally {
    var t1 := Plus(before, MaxContactsPerDay, IsContact(k.action) && CountContacts(c.recent, now, DAY) >= c.merchant.limits.maxContactsPerDay);
    var t2 := Plus(t1, MaxContactsPerWeek, IsContact(k.action) && CountContacts(c.recent, now, WEEK) >= c.merchant.limits.maxContactsPerWeek);
    var t3 := Plus(t2, MinContactInterval, IsContact(k.action) && TooSoon(Latest(c.recent, true), now, c.merchant.limits));
    t3
  }

  /** The last group of deny checks. */
  function MeansTally(c: Context, k: Candidate, before: Tally): Tally {
    var t1 := Plus(before, ActivePromiseToPay, c.activePromise && (IsContact(k.action) || IsRetry(k.action)));
    var t2 := Plus(t1, MandateInvalid, IsRetry(k.action) && c.mandateLost);
    var t3 := Plus(t2, PaymentMethodInvalid, IsRetry(k.action) && c.methodInvalid);
    var t4 := Plus(t3, MaxDiscount, k.incentive > c.merchant.maxIncentive && c.merchant.maxIncentive >= 0);
    var t5 := Plus(t4, QuietHours, IsContact(k.action) && InQuietHours(c.merchant.quiet, c.localMinute));
    var t6 := Plus(t5, ChannelUnavailable, IsContact(k.action) && |c.availableChannels| == 0);
    t6
  }

  /** The escalation checks. */
  function EscalationTally(c: Context, before: Tally): Tally {
    var t1 := Plus(before, HighValueApproval, c.merchant.highValueThreshold > 0 && c.amountAtRisk >= c.merchant.highValueThreshold);
    var t2 := Plus(t1, LowConfidenceEscalation, c.confidenceBps < c.merchant.lowConfidenceBps);
    t2
  }

  method Add(t: Tally, reason: Reason, condition: bool) returns (t': Tally)
    ensures t' == Plus(t, reason, condition)
    ensures |t'.list| > 0 <==> |t.list| > 0 || condition
  {
    t' := Tally(t.list, t.checks[reason := !condition]);
    if condition {
      t' := t'.(list := t'.list + [reason]);
    }
  }

  method CheckStops(c: Context, now: Time, before: Tally) returns (t: Tally)
    ensures |t.list| > 0 <==> |before.list| > 0 || Stopped(c, now)
    ensures t == StopTally(c, now, before)
  {
    t := before;
    t := Add(t, PaymentAlreadyRecovered, c.alreadyRecovered || c.state == Recovered);
    t := Add(t, TerminalCaseState, IsTerminal(c.state));
    t := Add(t, SubscriptionCancelled, c.cancelled);
    t := Add(t, RecoveryWindowExpired, !(c.deadline > now));
  }

  method CheckForbidden(c: Context, v: nat, k: Candidate, g: bool, before: Tally) returns (t: Tally)
    ensures |t.list| > 0 <==> |before.list| > 0 || Forbidden(c, v, k, g)
    ensures t == ForbiddenTally(c, v, k, g, before)
  {
    t := before;
    t := Add(t, StaleDecision, c.version != v);
    t := Add(t, GateBlocked, !g);
    t := Add(t, ActionNotAllowed, |c.merchant.allowedActions| > 0 && k.action !in c.merchant.allowedActions);
    t := Add(t, ChannelNotAllowed, IsContact(k.action) && |c.merchant.allowedChannels| == 0);
    t := Add(t, CustomerOptOut, c.optedOut && IsContact(k.action));
  }

  method CheckLimits(c: Context, k: Candidate, now: Time, before: Tally) returns (t: Tally)
    ensures |t.list| > 0 <==> |before.list| > 0 || OverLimits(c, k, now)
    ensures t == LimitsTally(c, k, now, before)
  {
    var retryCount, dayContacts, weekContacts, lastContact, lastRetry := History(c.recent, now);
    t := CheckRetries(c, k, now, before, retryCount, lastRetry);
    t := CheckContacts(c, k, now, t, dayContacts, weekContacts, lastContact);
  }

  method CheckRetries(c: Context, k: Candidate, now: Time, before: Tally, retryCount: nat, lastRetry: Time) returns (t: Tally)
    requires retryCount == CountRetries(c.recent) && lastRetry == Latest(c.recent, false)
    ensures |t.list| > 0 <==> |before.list| > 0 || OverRetries(c, k, now)
    ensures t == RetriesTally(c, k, now, before)
  {
    var interval := c.merchant.limits.minIntervalMinutes * MINUTE;
    t := before;
    t := Add(t, MaxRetries, IsRetry(k.action) && retryCount >= c.merchant.limits.maxRetries);
    t := Add(t, KnownPermanentFailure, IsRetry(k.action) && c.nonRecoverable);
    t := Add(t, RetryCooldown, IsRetry(k.action) && lastRetry != 0 && now - lastRetry < interval);
  }

  method CheckContacts(c: Context, k: Candidate, now: Time, before: Tally, dayContacts: nat, weekContacts: nat, lastContact: Time) returns (t: Tally)
    requires dayContacts == CountContacts(c.recent, now, DAY) && weekContacts == CountContacts(c.recent, now, WEEK)
    requires lastContact == Latest(c.recent, true)
    ensures |t.list| > 0 <==> |before.list| > 0 || OverContacts(c, k, now)
    ensures t == ContactsTally(c, k, now, before)
  {
    var interval := c.merchant.limits.minIntervalMinutes * MINUTE;
    t := before;
    t := Add(t, MaxContactsPerDay, IsContact(k.action) && dayContacts >= c.merchant.limits.maxContactsPerDay);
    t := Add(t, MaxContactsPerWeek, IsContact(k.action) && weekContacts >= c.merchant.limits.maxContactsPerWeek);
    t := Add(t, MinContactInterval, IsContact(k.action) && lastContact != 0 && now - lastContact < interval);
  }

  method CheckMeans(c: Context, k: Candidate, before: Tally) returns (t: Tally)
    ensures |t.list| > 0 <==> |before.list| > 0 || Unavailable(c, k)
    ensures t == MeansTally(c, k, before)
  {
    t := before;
    t := Add(t, ActivePromiseToPay, c.activePromise && (IsContact(k.action) || IsRetry(k.action)));
    t := Add(t, MandateInvalid, IsRetry(k.action) && c.mandateLost);
    t := Add(t, PaymentMethodInvalid, IsRetry(k.action) && c.methodInvalid);
    t := Add(t, MaxDiscount, k.incentive > c.merchant.maxIncentive && c.merchant.maxIncentive >= 0);
    t := Add(t, QuietHours, IsContact(k.action) && InQuietHours(c.merchant.quiet, c.localMinute));
    t := Add(t, ChannelUnavailable, IsContact(k.action) && |c.availableChannels| == 0);
  }

  method CheckEscalations(c: Context, before: Tally) returns (t: Tally)
    ensures |t.list| > 0 <==> |before.list| > 0 || Escalated(c)
    ensures t == EscalationTally(c, before)
  {
    t := before;
    t := Add(t, HighValueApproval, c.merchant.highValueThreshold > 0 && c.amountAtRisk >= c.merchant.highValueThreshold);
    t := Add(t, LowConfidenceEscalation, c.confidenceBps < c.merchant.lowConfidenceBps);
  }

  /** The verdict with its reasons, those of the strongest list that is not empty, and the outcome of all 23 checks. */
  function Explained(c: Context, v: nat, k: Candidate, g: bool, now: Time): Result {
    var stop := StopTally(c, now, Tally([], map[]));
    var deny := MeansTally(c, k, LimitsTally(c, k, now, ForbiddenTally(c, v, k, g, Tally([], stop.checks))));
    var escalate := EscalationTally(c, Tally([], deny.checks));
    var decision := Judge(c, v, k, g, now);
    var reasons := match decision
      case StopCase => stop.list
      case Deny => deny.list
      case Escalate => escalate.list
      case Approve => [AllChecksPassed];
    Result(decision, reasons, escalate.checks)
  }

  /** The full evaluation. The reasons reported are those of the strongest list that is not empty. */
  method Evaluate(c: Context, v: nat, k: Candidate, g: bool, now: Time) returns (result: Result)
    ensures result.decision == Judge(c, v, k, g, now)
    ensures result.reasons != []
    ensures result == Explained(c, v, k, g, now)
  {
    var stop := CheckStops(c, now, Tally([], map[]));
    var deny := CheckForbidden(c, v, k, g, Tally([], stop.checks));
    deny := CheckLimits(c, k, now, deny);
    deny := CheckMeans(c, k, deny);
    var escalate := CheckEscalations(c, Tally([], deny.checks));
    var decision, reasons := Approve, [AllChecksPassed];
    if |stop.list| > 0 {
      decision, reasons := StopCase, stop.list;
    } else if |deny.list| > 0 {
      decision, reasons := Deny, deny.list;
    } else if |escalate.list| > 0 {
      decision, reasons := Escalate, escalate.list;
    }
    result := Result(decision, reasons, escalate.checks);
  }

  // ----- laws -----

  function Severity(d: Decision): nat {
    match d case Approve => 0 case Escalate => 1 case Deny => 2 case StopCase => 3
  }

  /** Appending any action, whatever its kind and time, never improves the verdict. */
  lemma MoreHistoryNeverHelps(c: Context, a: RecentAction, v: nat, k: Candidate, g: bool, now: Time)
    ensures Severity(Judge(c.(recent := c.recent + [a]), v, k, g, now)) >= Severity(Judge(c, v, k, g, now))
  {
    HistorySplit(c.recent, [a], now, DAY);
    HistorySplit(c.recent, [a], now, WEEK);
    LatestIsUpperBound(c.recent, true);
    LatestIsUpperBound(c.recent, false);
    assert OverLimits(c, k, now) ==> OverLimits(c.(recent := c.recent + [a]), k, now);
  }
}
