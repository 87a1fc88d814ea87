/**
 * What the policy and the eligibility filter say, read from outside: every check as a rule of its own, in
 * terms of named actions, the actions on record and the clock, without any of the functions that compute it.
 */
module Verdicts {
  import opened Wrappers
  import opened Domain
  import opened Policy
  import Eligibility

  const CONTACTS: set<ActionType> :=
    {SendReminder, SendPaymentLink, SendCheckoutRecoveryLink, RequestPaymentMethodUpdate, SuggestAlternateMethod,
     WaitForPromiseToPay, Retention}

  const RETRIES: set<ActionType> := {RetryNow, RetryLater}

  /** The past actions of these kinds, and those among them created at `oldest` or later. */
  ghost function All(recent: seq<RecentAction>, kinds: set<ActionType>): set<int> {
    set i | 0 <= i < |recent| && recent[i].kind in kinds
  }

  ghost function Since(recent: seq<RecentAction>, kinds: set<ActionType>, oldest: Time): set<int> {
    set i | 0 <= i < |recent| && recent[i].kind in kinds && recent[i].createdAt >= oldest
  }

  /** Some past action of these kinds, with a time, is younger than so many minutes. */
  ghost predicate Younger(recent: seq<RecentAction>, kinds: set<ActionType>, now: Time, minutes: int) {
    exists i :: 0 <= i < |recent| && recent[i].kind in kinds && recent[i].createdAt > 0 && now - recent[i].createdAt < minutes * 60_000_000_000
  }

  const DAY_MINUTES: int := 1440

  /** Counted from the start of the window and around midnight, the minute comes before its end. */
  predicate QuietAt(minute: int, start: int, end: int) {
    (minute - start) % DAY_MINUTES < (end - start) % DAY_MINUTES
  }

  /** Minutes of the day, as parsing and the clock give them. */
  predicate Minute(m: int) {
    0 <= m < DAY_MINUTES
  }

  predicate OnTheClock(c: Context) {
    && (c.localMinute.Some? ==> Minute(c.localMinute.value)) && Minute(c.utcMinute)
    && (c.merchant.quiet.Window? ==> Minute(c.merchant.quiet.start) && Minute(c.merchant.quiet.end))
  }

  // ----- the policy's rules -----

  const STOPS: seq<Reason> := [PaymentAlreadyRecovered, TerminalCaseState, SubscriptionCancelled, RecoveryWindowExpired]
  const BANS: seq<Reason> := [StaleDecision, GateBlocked, ActionNotAllowed, ChannelNotAllowed, CustomerOptOut]
  const RETRY_LIMITS: seq<Reason> := [MaxRetries, KnownPermanentFailure, RetryCooldown]
  const CONTACT_LIMITS: seq<Reason> := [MaxContactsPerDay, MaxContactsPerWeek, MinContactInterval]
  const MEANS: seq<Reason> := [ActivePromiseToPay, MandateInvalid, PaymentMethodInvalid, MaxDiscount, QuietHours, ChannelUnavailable]
  const DENIALS: seq<Reason> := BANS + RETRY_LIMITS + CONTACT_LIMITS + MEANS
  const ESCALATIONS: seq<Reason> := [HighValueApproval, LowConfidenceEscalation]

  /** A candidate before the policy: the context, the version its decision was taken at, and what the gate said. */
  datatype Matter = Matter(c: Context, version: nat, k: Candidate, allowed: bool, now: Time)

  /** When each check objects. */
  ghost predicate Objects(r: Reason, m: Matter) {
    var c, action, limits := m.c, m.k.action, m.c.merchant.limits;
    match r
    case PaymentAlreadyRecovered => c.alreadyRecovered || c.state == Recovered
    case TerminalCaseState => c.state in {Recovered, Exhausted, Stopped}
    case SubscriptionCancelled => c.cancelled
    case RecoveryWindowExpired => m.now >= c.deadline
    case StaleDecision => m.version != c.version
    case GateBlocked => !m.allowed
    case ActionNotAllowed => c.merchant.allowedActions != [] && action !in c.merchant.allowedActions
    case ChannelNotAllowed => action in CONTACTS && c.merchant.allowedChannels == []
    case CustomerOptOut => action in CONTACTS && c.optedOut
    case MaxRetries => action in RETRIES && |All(c.recent, RETRIES)| >= limits.maxRetries
    case KnownPermanentFailure => action in RETRIES && c.nonRecoverable
    case RetryCooldown => action in RETRIES && Younger(c.recent, RETRIES, m.now, limits.minIntervalMinutes)
    case MaxContactsPerDay => action in CONTACTS && |Since(c.recent, CONTACTS, m.now - 24 * HOUR)| >= limits.maxContactsPerDay
    case MaxContactsPerWeek => action in CONTACTS && |Since(c.recent, CONTACTS, m.now - 168 * HOUR)| >= limits.maxContactsPerWeek
    case MinContactInterval => action in CONTACTS && Younger(c.recent, CONTACTS, m.now, limits.minIntervalMinutes)
    case ActivePromiseToPay => action in CONTACTS + RETRIES && c.activePromise
    case MandateInvalid => action in RETRIES && c.mandateLost
    case PaymentMethodInvalid => action in RETRIES && c.methodInvalid
    case MaxDiscount => 0 <= c.merchant.maxIncentive < m.k.incentive
    case QuietHours =>
      action in CONTACTS && c.merchant.quiet != NoWindow
      && (c.merchant.quiet.Window? && c.localMinute.Some? ==> QuietAt(c.localMinute.value, c.merchant.quiet.start, c.merchant.quiet.end))
    case ChannelUnavailable => action in CONTACTS && c.availableChannels == []
    case HighValueApproval => 0 < c.merchant.highValueThreshold <= c.amountAtRisk
    case LowConfidenceEscalation => c.confidenceBps < c.merchant.lowConfidenceBps
    case AllChecksPassed => false
  }

  /** The checks of a list that object, in its order. */
  ghost function Objections(rs: seq<Reason>, objects: Reason -> bool): seq<Reason> {
    if rs == [] then []
    else Objections(rs[..|rs| - 1], objects) + if objects(rs[|rs| - 1]) then [rs[|rs| - 1]] else []
  }

  // ----- counting, and the clock -----

  lemma KindsAre(a: ActionType)
    ensures IsContact(a) <==> a in CONTACTS
    ensures IsRetry(a) <==> a in RETRIES
  {
  }

  lemma {:induction false} RetriesAreCounted(recent: seq<RecentAction>)
    ensures CountRetries(recent) == |All(recent, RETRIES)|
  {
    if recent != [] {
      var n := |recent| - 1;
      RetriesAreCounted(recent[..n]);
      HistorySplit(recent[..n], [recent[n]], 0, 0);
      assert recent == recent[..n] + [recent[n]];
      KindsAre(recent[n].kind);
      assert All(recent, RETRIES) == All(recent[..n], RETRIES) + if recent[n].kind in RETRIES then {n} else {};
    }
  }

  lemma {:induction false} ContactsAreCounted(recent: seq<RecentAction>, now: Time, age: int)
    ensures CountContacts(recent, now, age) == |Since(recent, CONTACTS, now - age)|
  {
    if recent != [] {
      var n := |recent| - 1;
      ContactsAreCounted(recent[..n], now, age);
      HistorySplit(recent[..n], [recent[n]], now, age);
      assert recent == recent[..n] + [recent[n]];
      KindsAre(recent[n].kind);
      var before := Since(recent[..n], CONTACTS, now - age);
      assert Since(recent, CONTACTS, now - age)
          == before + if recent[n].kind in CONTACTS && recent[n].createdAt >= now - age then {n} else {};
    }
  }

  lemma LatestIsYoungest(recent: seq<RecentAction>, contact: bool, now: Time, limits: Limits)
    ensures TooSoon(Latest(recent, contact), now, limits)
       <==> Younger(recent, if contact then CONTACTS else RETRIES, now, limits.minIntervalMinutes)
  {
    LatestIsUpperBound(recent, contact);
    forall i | 0 <= i < |recent|
      ensures (if contact then IsContact(recent[i].kind) else IsRetry(recent[i].kind)) <==> recent[i].kind in (if contact then CONTACTS else RETRIES)
    {
      KindsAre(recent[i].kind);
    }
  }

  lemma AroundTheClock(minute: int, start: int, end: int)
    requires Minute(minute) && Minute(start) && Minute(end)
    ensures InWindow(minute, start, end) <==> QuietAt(minute, start, end)
  {
    AroundOnce(minute - start);
    AroundOnce(end - start);
  }

  lemma AroundOnce(x: int)
    requires -DAY_MINUTES < x < DAY_MINUTES
    ensures x % DAY_MINUTES == if x >= 0 then x else x + DAY_MINUTES
  {
  }

  // ----- each check is its rule -----

  /** A tally to which the checks of a list have been added. */
  ghost predicate Tallied(before: Tally, after: Tally, rs: seq<Reason>, objects: Reason -> bool) {
    && after.list == before.list + Objections(rs, objects)
    && after.checks.Keys == before.checks.Keys + (set r | r in rs)
    && (forall r :: r in rs ==> r in after.checks && after.checks[r] == !objects(r))
    && (forall r :: r in before.checks && r !in rs ==> r in after.checks && after.checks[r] == before.checks[r])
  }

  lemma TalliedOne(before: Tally, t: Tally, rs: seq<Reason>, objects: Reason -> bool, r: Reason, fires: bool)
    requires Tallied(before, t, rs, objects) && (fires <==> objects(r)) && r !in rs
    ensures Tallied(before, Plus(t, r, fires), rs + [r], objects)
  {
    ListedOne(before.list, t.list, rs, objects, r, fires);
    ReportedOne(before.checks, t.checks, rs, objects, r, fires);
  }

  lemma ListedOne(before: seq<Reason>, list: seq<Reason>, rs: seq<Reason>, objects: Reason -> bool, r: Reason, fires: bool)
    requires list == before + Objections(rs, objects) && (fires <==> objects(r))
    ensures (if fires then list + [r] else list) == before + Objections(rs + [r], objects)
  {
    assert (rs + [r])[..|rs + [r]| - 1] == rs;
  }

  lemma ReportedOne(before: map<Reason, bool>, checks: map<Reason, bool>, rs: seq<Reason>, objects: Reason -> bool, r: Reason, fires: bool)
    requires checks.Keys == before.Keys + (set x | x in rs) && (fires <==> objects(r))
    requires forall x :: x in rs ==> x in checks && checks[x] == !objects(x)
    requires forall x :: x in before && x !in rs ==> x in checks && checks[x] == before[x]
    ensures var after, all := checks[r := !fires], rs + [r];
      && after.Keys == before.Keys + (set x | x in all)
      && (forall x :: x in all ==> x in after && after[x] == !objects(x))
      && (forall x :: x in before && x !in all ==> x in after && after[x] == before[x])
  {
    assert forall x :: x in rs + [r] <==> x in rs || x == r;
  }

  /** The checks of a list, made one after another. */
  function PlusAll(t: Tally, rs: seq<Reason>, objects: Reason -> bool): Tally {
    if rs == [] then t
    else
      var r := rs[|rs| - 1];
      Plus(PlusAll(t, rs[..|rs| - 1], objects), r, objects(r))
  }

  lemma PlusOne(t: Tally, rs: seq<Reason>, r: Reason, objects: Reason -> bool)
    ensures PlusAll(t, rs + [r], objects) == Plus(PlusAll(t, rs, objects), r, objects(r))
  {
    assert (rs + [r])[..|rs + [r]| - 1] == rs;
  }

  lemma {:induction false} PlusAllTallies(t: Tally, rs: seq<Reason>, objects: Reason -> bool)
    requires forall i, j :: 0 <= i < j < |rs| ==> rs[i] != rs[j]
    ensures Tallied(t, PlusAll(t, rs, objects), rs, objects)
  {
    if rs != [] {
      var n := |rs| - 1;
      PlusAllTallies(t, rs[..n], objects);
      TalliedOne(t, PlusAll(t, rs[..n], objects), rs[..n], objects, rs[n], objects(rs[n]));
      assert rs[..n] + [rs[n]] == rs;
    }
  }

  ghost function Rule(m: Matter): Reason -> bool {
    r => Objects(r, m)
  }

  lemma FourPluses(t: Tally, a: Reason, b: Reason, c: Reason, d: Reason, f: Reason -> bool)
    ensures PlusAll(t, [a, b, c, d], f) == Plus(Plus(Plus(Plus(t, a, f(a)), b, f(b)), c, f(c)), d, f(d))
  {
    ThreePluses(t, a, b, c, f);
    PlusOne(t, [a, b, c], d, f);
    assert [a, b, c] + [d] == [a, b, c, d];
  }

  lemma ThreePluses(t: Tally, a: Reason, b: Reason, c: Reason, f: Reason -> bool)
    ensures PlusAll(t, [a, b, c], f) == Plus(Plus(Plus(t, a, f(a)), b, f(b)), c, f(c))
  {
    TwoPluses(t, a, b, f);
    PlusOne(t, [a, b], c, f);
    assert [a, b] + [c] == [a, b, c];
  }

  lemma TwoPluses(t: Tally, a: Reason, b: Reason, f: Reason -> bool)
    ensures PlusAll(t, [a, b], f) == Plus(Plus(t, a, f(a)), b, f(b))
  {
    PlusOne(t, [], a, f);
    PlusOne(t, [a], b, f);
    assert [] + [a] == [a] && [a] + [b] == [a, b];
  }

  lemma FivePluses(t: Tally, a: Reason, b: Reason, c: Reason, d: Reason, e: Reason, f: Reason -> bool)
    ensures PlusAll(t, [a, b, c, d, e], f) == Plus(Plus(Plus(Plus(Plus(t, a, f(a)), b, f(b)), c, f(c)), d, f(d)), e, f(e))
  {
    FourPluses(t, a, b, c, d, f);
    PlusOne(t, [a, b, c, d], e, f);
    assert [a, b, c, d] + [e] == [a, b, c, d, e];
  }

  lemma SixPluses(t: Tally, a: Reason, b: Reason, c: Reason, d: Reason, e: Reason, g: Reason, f: Reason -> bool)
    ensures PlusAll(t, [a, b, c, d, e, g], f) == Plus(Plus(Plus(Plus(Plus(Plus(t, a, f(a)), b, f(b)), c, f(c)), d, f(d)), e, f(e)), g, f(g))
  {
    FivePluses(t, a, b, c, d, e, f);
    PlusOne(t, [a, b, c, d, e], g, f);
    assert [a, b, c, d, e] + [g] == [a, b, c, d, e, g];
  }

  lemma {:induction false} PlusMore(t: Tally, rs: seq<Reason>, more: seq<Reason>, f: Reason -> bool)
    ensures PlusAll(t, rs + more, f) == PlusAll(PlusAll(t, rs, f), more, f)
  {
    if more == [] {
      assert rs + more == rs;
    } else {
      var n := |more| - 1;
      PlusMore(t, rs, more[..n], f);
      assert (rs + more)[..|rs + more| - 1] == rs + more[..n];
    }
  }

  lemma StopsAre(m: Matter, t: Tally)
    ensures StopTally(m.c, m.now, t) == PlusAll(t, STOPS, Rule(m))
  {
    FourPluses(t, PaymentAlreadyRecovered, TerminalCaseState, SubscriptionCancelled, RecoveryWindowExpired, Rule(m));
  }

  lemma BansAre(m: Matter, t: Tally)
    ensures ForbiddenTally(m.c, m.version, m.k, m.allowed, t) == PlusAll(t, BANS, Rule(m))
  {
    KindsAre(m.k.action);
    FivePluses(t, StaleDecision, GateBlocked, ActionNotAllowed, ChannelNotAllowed, CustomerOptOut, Rule(m));
  }

  lemma RetryLimitsAre(m: Matter, t: Tally)
    ensures RetriesTally(m.c, m.k, m.now, t) == PlusAll(t, RETRY_LIMITS, Rule(m))
  {
    KindsAre(m.k.action);
    RetriesAreCounted(m.c.recent);
    LatestIsYoungest(m.c.recent, false, m.now, m.c.merchant.limits);
    ThreePluses(t, MaxRetries, KnownPermanentFailure, RetryCooldown, Rule(m));
  }

  lemma ContactLimitsAre(m: Matter, t: Tally)
    ensures ContactsTally(m.c, m.k, m.now, t) == PlusAll(t, CONTACT_LIMITS, Rule(m))
  {
    ContactLimitsSay(m);
    ThreePluses(t, MaxContactsPerDay, MaxContactsPerWeek, MinContactInterval, Rule(m));
  }

  lemma ContactLimitsSay(m: Matter)
    ensures var c, contact, rule := m.c, IsContact(m.k.action), Rule(m);
      && rule(MaxContactsPerDay) == (contact && CountContacts(c.recent, m.now, DAY) >= c.merchant.limits.maxContactsPerDay)
      && rule(MaxContactsPerWeek) == (contact && CountContacts(c.recent, m.now, WEEK) >= c.merchant.limits.maxContactsPerWeek)
      && rule(MinContactInterval) == (contact && TooSoon(Latest(c.recent, true), m.now, c.merchant.limits))
  {
    KindsAre(m.k.action);
    ContactsAreCounted(m.c.recent, m.now, DAY);
    ContactsAreCounted(m.c.recent, m.now, WEEK);
    LatestIsYoungest(m.c.recent, true, m.now, m.c.merchant.limits);
  }

  /** The check on quiet hours fails closed, and otherwise goes by the merchant's own clock. */
  lemma QuietHoursAre(m: Matter)
    requires OnTheClock(m.c)
    ensures Objects(QuietHours, m) <==> IsContact(m.k.action) && InQuietHours(m.c.merchant.quiet, m.c.localMinute)
  {
    KindsAre(m.k.action);
    if m.c.merchant.quiet.Window? && m.c.localMinute.Some? {
      AroundTheClock(m.c.localMinute.value, m.c.merchant.quiet.start, m.c.merchant.quiet.end);
    }
  }

  lemma MeansAre(m: Matter, t: Tally)
    requires OnTheClock(m.c)
    ensures MeansTally(m.c, m.k, t) == PlusAll(t, MEANS, Rule(m))
  {
    MeansSay(m);
    SixPluses(t, ActivePromiseToPay, MandateInvalid, PaymentMethodInvalid, MaxDiscount, QuietHours, ChannelUnavailable, Rule(m));
  }

  lemma MeansSay(m: Matter)
    requires OnTheClock(m.c)
    ensures var c, a, rule := m.c, m.k.action, Rule(m);
      && rule(ActivePromiseToPay) == (c.activePromise && (IsContact(a) || IsRetry(a)))
      && rule(MandateInvalid) == (IsRetry(a) && c.mandateLost) && rule(PaymentMethodInvalid) == (IsRetry(a) && c.methodInvalid)
      && rule(MaxDiscount) == (m.k.incentive > c.merchant.maxIncentive && c.merchant.maxIncentive >= 0)
      && rule(QuietHours) == (IsContact(a) && InQuietHours(c.merchant.quiet, c.localMinute))
      && rule(ChannelUnavailable) == (IsContact(a) && |c.availableChannels| == 0)
  {
    KindsAre(m.k.action);
    QuietHoursAre(m);
  }

  lemma EscalationsAre(m: Matter, t: Tally)
    ensures EscalationTally(m.c, t) == PlusAll(t, ESCALATIONS, Rule(m))
  {
    TwoPluses(t, HighValueApproval, LowConfidenceEscalation, Rule(m));
  }

  lemma DenialsAre(m: Matter, t: Tally)
    requires OnTheClock(m.c)
    ensures MeansTally(m.c, m.k, LimitsTally(m.c, m.k, m.now, ForbiddenTally(m.c, m.version, m.k, m.allowed, t))) == PlusAll(t, DENIALS, Rule(m))
  {
    var t1 := ForbiddenTally(m.c, m.version, m.k, m.allowed, t);
    var t2 := RetriesTally(m.c, m.k, m.now, t1);
    var t3 := ContactsTally(m.c, m.k, m.now, t2);
    BansAre(m, t);
    RetryLimitsAre(m, t1);
    ContactLimitsAre(m, t2);
    MeansAre(m, t3);
    PlusMore(t, BANS, RETRY_LIMITS, Rule(m));
    PlusMore(t, BANS + RETRY_LIMITS, CONTACT_LIMITS, Rule(m));
    PlusMore(t, BANS + RETRY_LIMITS + CONTACT_LIMITS, MEANS, Rule(m));
  }

  lemma ListsAreDistinct()
    ensures forall i, j :: 0 <= i < j < |STOPS| ==> STOPS[i] != STOPS[j]
    ensures forall i, j :: 0 <= i < j < |DENIALS| ==> DENIALS[i] != DENIALS[j]
    ensures forall i, j :: 0 <= i < j < |ESCALATIONS| ==> ESCALATIONS[i] != ESCALATIONS[j]
    ensures forall r :: r in STOPS ==> r !in DENIALS && r !in ESCALATIONS
    ensures forall r :: r in DENIALS ==> r !in ESCALATIONS
    ensures forall r :: r in STOPS || r in DENIALS || r in ESCALATIONS || r == AllChecksPassed
  {
    assert DENIALS == [StaleDecision, GateBlocked, ActionNotAllowed, ChannelNotAllowed, CustomerOptOut, MaxRetries, KnownPermanentFailure,
                       RetryCooldown, MaxContactsPerDay, MaxContactsPerWeek, MinContactInterval, ActivePromiseToPay, MandateInvalid,
                       PaymentMethodInvalid, MaxDiscount, QuietHours, ChannelUnavailable];
  }

  lemma {:induction false} SomeObjection(rs: seq<Reason>, objects: Reason -> bool)
    ensures Objections(rs, objects) != [] <==> exists r :: r in rs && objects(r)
  {
    if rs != [] {
      SomeObjection(rs[..|rs| - 1], objects);
      assert forall r :: r in rs <==> r in rs[..|rs| - 1] || r == rs[|rs| - 1];
    }
  }

  // ----- the verdict -----

  function Stops(m: Matter): Tally {
    StopTally(m.c, m.now, Tally([], map[]))
  }

  function Denials(m: Matter): Tally {
    MeansTally(m.c, m.k, LimitsTally(m.c, m.k, m.now, ForbiddenTally(m.c, m.version, m.k, m.allowed, Tally([], Stops(m).checks))))
  }

  function Escalations(m: Matter): Tally {
    EscalationTally(m.c, Tally([], Denials(m).checks))
  }

  lemma ThreeTallies(m: Matter)
    requires OnTheClock(m.c)
    ensures Tallied(Tally([], map[]), Stops(m), STOPS, Rule(m))
    ensures Tallied(Tally([], Stops(m).checks), Denials(m), DENIALS, Rule(m))
    ensures Tallied(Tally([], Denials(m).checks), Escalations(m), ESCALATIONS, Rule(m))
  {
    ListsAreDistinct();
    StopsAre(m, Tally([], map[]));
    DenialsAre(m, Tally([], Stops(m).checks));
    EscalationsAre(m, Tally([], Denials(m).checks));
    PlusAllTallies(Tally([], map[]), STOPS, Rule(m));
    PlusAllTallies(Tally([], Stops(m).checks), DENIALS, Rule(m));
    PlusAllTallies(Tally([], Denials(m).checks), ESCALATIONS, Rule(m));
  }

  lemma StopsDecide(m: Matter)
    ensures Stops(m).list != [] <==> Policy.Stopped(m.c, m.now)
  {
  }

  lemma EscalationsDecide(m: Matter)
    ensures Escalations(m).list != [] <==> Policy.Escalated(m.c)
  {
  }

  lemma BansDecide(m: Matter, t: Tally)
    ensures ForbiddenTally(m.c, m.version, m.k, m.allowed, t).list != [] <==> t.list != [] || Forbidden(m.c, m.version, m.k, m.allowed)
  {
  }

  lemma LimitsDecide(m: Matter, t: Tally)
    ensures LimitsTally(m.c, m.k, m.now, t).list != [] <==> t.list != [] || OverLimits(m.c, m.k, m.now)
  {
  }

  lemma MeansDecide(m: Matter, t: Tally)
    ensures MeansTally(m.c, m.k, t).list != [] <==> t.list != [] || Unavailable(m.c, m.k)
  {
  }

  lemma DenialsDecide(m: Matter)
    ensures Denials(m).list != [] <==> Denied(m.c, m.version, m.k, m.allowed, m.now)
  {
    var before := Tally([], Stops(m).checks);
    var banned := ForbiddenTally(m.c, m.version, m.k, m.allowed, before);
    BansDecide(m, before);
    LimitsDecide(m, banned);
    MeansDecide(m, LimitsTally(m.c, m.k, m.now, banned));
  }

  /** Some check of the list objects. */
  ghost predicate AnyObjects(rs: seq<Reason>, m: Matter) {
    exists r :: r in rs && Objects(r, m)
  }

  lemma SomeAre(m: Matter)
    requires OnTheClock(m.c)
    ensures Stops(m).list == Objections(STOPS, Rule(m)) && (Stops(m).list != [] <==> AnyObjects(STOPS, m))
    ensures Denials(m).list == Objections(DENIALS, Rule(m)) && (Denials(m).list != [] <==> AnyObjects(DENIALS, m))
    ensures Escalations(m).list == Objections(ESCALATIONS, Rule(m)) && (Escalations(m).list != [] <==> AnyObjects(ESCALATIONS, m))
  {
    ThreeTallies(m);
    SomeObjection(STOPS, Rule(m));
    SomeObjection(DENIALS, Rule(m));
    SomeObjection(ESCALATIONS, Rule(m));
    RuleIs(m);
  }

  lemma RuleIs(m: Matter)
    ensures forall r :: Rule(m)(r) <==> Objects(r, m)
  {
  }

  /**
   * The verdict and its reasons: STOP when a stop check objects, else DENY when a deny check does, else
   * ESCALATE when an escalation check does, else APPROVE; the reasons are the objections of that kind, in order.
   */
  lemma VerdictIs(m: Matter)
    requires OnTheClock(m.c)
    ensures var result := Explained(m.c, m.version, m.k, m.allowed, m.now);
      if AnyObjects(STOPS, m) then result.decision.StopCase? && result.reasons == Objections(STOPS, Rule(m))
      else if AnyObjects(DENIALS, m) then result.decision.Deny? && result.reasons == Objections(DENIALS, Rule(m))
      else if AnyObjects(ESCALATIONS, m) then result.decision.Escalate? && result.reasons == Objections(ESCALATIONS, Rule(m))
      else result.decision.Approve? && result.reasons == [AllChecksPassed]
  {
    SomeAre(m);
    StopsDecide(m);
    DenialsDecide(m);
    EscalationsDecide(m);
  }

  /** Each of the 23 checks is reported, and as passed exactly when it does not object. */
  lemma ChecksAre(m: Matter)
    requires OnTheClock(m.c)
    ensures var checks := Explained(m.c, m.version, m.k, m.allowed, m.now).checks;
      && (forall r :: r in checks <==> r != AllChecksPassed)
      && forall r :: r in checks ==> checks[r] == !Objects(r, m)
  {
    ChecksByRule(m);
    RuleIs(m);
  }

  lemma ChecksByRule(m: Matter)
    requires OnTheClock(m.c)
    ensures var checks := Explained(m.c, m.version, m.k, m.allowed, m.now).checks;
      && (forall r :: r in checks <==> r != AllChecksPassed)
      && forall r :: r in checks ==> checks[r] == !Rule(m)(r)
  {
    ThreeTallies(m);
    ListsAreDistinct();
    AllReported(Stops(m), Denials(m), Escalations(m), Rule(m));
    EveryReason();
  }

  lemma EveryReason()
    ensures forall r :: r in STOPS || r in DENIALS || r in ESCALATIONS <==> r != AllChecksPassed
  {
    ListsAreDistinct();
    assert DENIALS == [StaleDecision, GateBlocked, ActionNotAllowed, ChannelNotAllowed, CustomerOptOut, MaxRetries, KnownPermanentFailure,
                       RetryCooldown, MaxContactsPerDay, MaxContactsPerWeek, MinContactInterval, ActivePromiseToPay, MandateInvalid,
                       PaymentMethodInvalid, MaxDiscount, QuietHours, ChannelUnavailable];
  }

  lemma AllReported(stop: Tally, deny: Tally, escalate: Tally, rule: Reason -> bool)
    requires Tallied(Tally([], map[]), stop, STOPS, rule) && Tallied(Tally([], stop.checks), deny, DENIALS, rule)
    requires Tallied(Tally([], deny.checks), escalate, ESCALATIONS, rule)
    requires forall r :: r in STOPS ==> r !in DENIALS && r !in ESCALATIONS
    requires forall r :: r in DENIALS ==> r !in ESCALATIONS
    ensures forall r :: r in escalate.checks <==> r in STOPS || r in DENIALS || r in ESCALATIONS
    ensures forall r :: r in escalate.checks ==> escalate.checks[r] == !rule(r)
  {
  }

  /** So no contact is approved or escalated at a minute that is quiet on the merchant's clock. */
  lemma QuietMeansNo(m: Matter, start: int, end: int)
    requires OnTheClock(m.c) && m.k.action in CONTACTS && m.c.merchant.quiet == Window(start, end)
    requires m.c.localMinute.None? || QuietAt(m.c.localMinute.value, start, end)
    ensures Judge(m.c, m.version, m.k, m.allowed, m.now) in {Deny, StopCase}
  {
    ListsAreDistinct();
    assert QuietHours in DENIALS by { assert MEANS[4] == QuietHours; }
    assert Objects(QuietHours, m);
    VerdictIs(m);
  }
}
