/** What the eligibility filter says, read from outside: each of its reasons as a rule, and the order in which they are tried. */
module Exclusions {
  import opened Wrappers
  import opened Domain
  import opened Policy
  import opened Eligibility
  import opened Verdicts

  const ORDER: seq<Why> :=
    [AlreadyRecovered, WindowExpired, LeakTypeIncompatible, MerchantActionNotAllowed, PromiseActive, OptedOut, NoChannel, Why.Quiet,
     MaxContactsReached, MaxRetriesReached, MandateUnavailable, MethodInvalid, RetryCooling, ActionCooling]

  /** Some past action of exactly this kind is younger than so many minutes; unlike the policy, whatever its time. */
  ghost predicate Again(recent: seq<RecentAction>, a: ActionType, now: Time, minutes: int) {
    exists i :: 0 <= i < |recent| && recent[i].kind == a && now - recent[i].createdAt < minutes * 60_000_000_000
  }

  /** When each reason speaks against an action, whatever the others say. */
  ghost predicate SpeaksAgainst(why: Why, c: Context, now: Time, a: ActionType) {
    var m := c.merchant;
    match why
    case AlreadyRecovered => a != StopAction && (c.alreadyRecovered || c.state == Recovered)
    case WindowExpired => a != StopAction && now >= c.deadline
    case LeakTypeIncompatible =>
      || (a in {RetryNow, RetryLater, RequestPaymentMethodUpdate, WaitForPromiseToPay} && c.leak != FailedSubscription)
      || (a == SendCheckoutRecoveryLink && c.leak != CheckoutAbandonment)
    case MerchantActionNotAllowed => a !in {StopAction, EscalateToHuman, Wait} && a !in m.allowedActions
    case PromiseActive => c.activePromise && a in CONTACTS + RETRIES - {WaitForPromiseToPay}
    case OptedOut => a in CONTACTS && c.optedOut
    case NoChannel => a in CONTACTS && !exists ch :: ch in m.allowedChannels && ch in c.availableChannels
    case Quiet => a in CONTACTS && m.quiet.Window? && QuietAt(c.utcMinute, m.quiet.start, m.quiet.end)
    case MaxContactsReached =>
      a in CONTACTS && (|Since(c.recent, CONTACTS, now - 24 * HOUR)| >= m.limits.maxContactsPerDay
                        || |Since(c.recent, CONTACTS, now - 168 * HOUR)| >= m.limits.maxContactsPerWeek)
    case MaxRetriesReached => a in RETRIES && |All(c.recent, RETRIES)| >= m.limits.maxRetries
    case MandateUnavailable => a in RETRIES && c.mandateLost
    case MethodInvalid => a in RETRIES && c.methodInvalid
    case RetryCooling => a in RETRIES && m.limits.minIntervalMinutes > 0 && Again(c.recent, a, now, m.limits.minIntervalMinutes)
    case ActionCooling => a in CONTACTS && m.limits.minIntervalMinutes > 0 && Again(c.recent, a, now, m.limits.minIntervalMinutes)
  }

  /** The reason that comes first in the order among those that speak against the action. */
  ghost predicate First(why: Why, c: Context, now: Time, a: ActionType) {
    exists k :: 0 <= k < |ORDER| && ORDER[k] == why && SpeaksAgainst(why, c, now, a)
                && forall j :: 0 <= j < k ==> !SpeaksAgainst(ORDER[j], c, now, a)
  }

  ghost function Position(why: Why): (k: nat)
    ensures k < |ORDER| && ORDER[k] == why
  {
    match why
    case AlreadyRecovered => 0 case WindowExpired => 1 case LeakTypeIncompatible => 2 case MerchantActionNotAllowed => 3
    case PromiseActive => 4 case OptedOut => 5 case NoChannel => 6 case Quiet => 7 case MaxContactsReached => 8
    case MaxRetriesReached => 9 case MandateUnavailable => 10 case MethodInvalid => 11 case RetryCooling => 12 case ActionCooling => 13
  }

  /** The rules in the filter's own terms. */
  lemma RulesAre(c: Context, now: Time, a: ActionType)
    requires OnTheClock(c)
    ensures SpeaksAgainst(LeakTypeIncompatible, c, now, a) <==> !Compatible(c.leak, a)
    ensures IsContact(a) <==> a in CONTACTS
    ensures IsRetry(a) <==> a in RETRIES
    ensures NoCommonChannel(c.merchant.allowedChannels, c.availableChannels) <==> !exists ch :: ch in c.merchant.allowedChannels && ch in c.availableChannels
    ensures UtcQuiet(c.merchant.quiet, c.utcMinute) <==> c.merchant.quiet.Window? && QuietAt(c.utcMinute, c.merchant.quiet.start, c.merchant.quiet.end)
    ensures CountContacts(c.recent, now, DAY) == |Since(c.recent, CONTACTS, now - 24 * HOUR)|
    ensures CountContacts(c.recent, now, WEEK) == |Since(c.recent, CONTACTS, now - 168 * HOUR)|
    ensures CountRetries(c.recent) == |All(c.recent, RETRIES)|
  {
    KindsAre(a);
    ContactsAreCounted(c.recent, now, DAY);
    ContactsAreCounted(c.recent, now, WEEK);
    RetriesAreCounted(c.recent);
    if c.merchant.quiet.Window? {
      AroundTheClock(c.utcMinute, c.merchant.quiet.start, c.merchant.quiet.end);
    }
  }

  lemma CoolingIs(c: Context, now: Time, a: ActionType)
    ensures InCooldown(c.recent, a, now, c.merchant.limits.minIntervalMinutes)
       <==> c.merchant.limits.minIntervalMinutes > 0 && Again(c.recent, a, now, c.merchant.limits.minIntervalMinutes)
  {
  }

  /** The guards of the filter's switch, one by one. */
  ghost predicate Guard(why: Why, c: Context, now: Time, a: ActionType) {
    var m := c.merchant;
    match why
    case AlreadyRecovered => (c.alreadyRecovered || c.state == Recovered) && a != StopAction
    case WindowExpired => c.deadline <= now && a != StopAction
    case LeakTypeIncompatible => !Compatible(c.leak, a)
    case MerchantActionNotAllowed => a != StopAction && a != EscalateToHuman && a != Wait && a !in m.allowedActions
    case PromiseActive => c.activePromise && (IsRetry(a) || IsContact(a)) && a != WaitForPromiseToPay
    case OptedOut => c.optedOut && IsContact(a)
    case NoChannel => IsContact(a) && NoCommonChannel(m.allowedChannels, c.availableChannels)
    case Quiet => IsContact(a) && UtcQuiet(m.quiet, c.utcMinute)
    case MaxContactsReached => IsContact(a) && (CountContacts(c.recent, now, DAY) >= m.limits.maxContactsPerDay
                                                || CountContacts(c.recent, now, WEEK) >= m.limits.maxContactsPerWeek)
    case MaxRetriesReached => IsRetry(a) && CountRetries(c.recent) >= m.limits.maxRetries
    case MandateUnavailable => IsRetry(a) && c.mandateLost
    case MethodInvalid => IsRetry(a) && c.methodInvalid
    case RetryCooling => IsRetry(a) && InCooldown(c.recent, a, now, m.limits.minIntervalMinutes)
    case ActionCooling => IsContact(a) && InCooldown(c.recent, a, now, m.limits.minIntervalMinutes)
  }

  lemma GuardIs(why: Why, c: Context, now: Time, a: ActionType)
    requires OnTheClock(c)
    ensures Guard(why, c, now, a) <==> SpeaksAgainst(why, c, now, a)
  {
    RulesAre(c, now, a);
    CoolingIs(c, now, a);
  }

  lemma GuardHolds(c: Context, now: Time, a: ActionType)
    ensures WhyNot(c, now, a).Some? ==> Guard(WhyNot(c, now, a).value, c, now, a)
  {
  }

  /** The switch passes a guard over only if it does not hold. */
  lemma GuardPassed(why: Why, c: Context, now: Time, a: ActionType)
    requires WhyNot(c, now, a).None? || Position(WhyNot(c, now, a).value) > Position(why)
    ensures !Guard(why, c, now, a)
  {
  }

  lemma PositionIs(k: nat)
    requires k < |ORDER|
    ensures Position(ORDER[k]) == k
  {
  }

  /** An action is excluded for the first reason that speaks against it, and eligible when none does. */
  lemma ExcludedExactlyWhen(c: Context, now: Time, a: ActionType)
    requires OnTheClock(c)
    ensures WhyNot(c, now, a).None? <==> forall why :: !SpeaksAgainst(why, c, now, a)
    ensures WhyNot(c, now, a).Some? ==> First(WhyNot(c, now, a).value, c, now, a)
  {
    var found := WhyNot(c, now, a);
    GuardHolds(c, now, a);
    forall why | found.None? || Position(found.value) > Position(why) ensures !SpeaksAgainst(why, c, now, a) {
      GuardPassed(why, c, now, a);
      GuardIs(why, c, now, a);
    }
    if found.Some? {
      GuardIs(found.value, c, now, a);
      var k := Position(found.value);
      forall j | 0 <= j < k ensures !SpeaksAgainst(ORDER[j], c, now, a) {
        PositionIs(j);
      }
    }
  }

  /** In the result, the eligible actions are those nothing speaks against; each of the others is excluded for its first reason. */
  lemma {:induction false} PartitionIs(c: Context, now: Time, actions: seq<ActionType>)
    requires OnTheClock(c)
    ensures var e := Partition(c, now, actions);
      && (forall a :: a in e.eligible <==> a in actions && forall why :: !SpeaksAgainst(why, c, now, a))
      && (forall x :: x in e.excluded ==> x.action in actions && First(x.why, c, now, x.action))
      && (forall a :: a in actions && a !in e.eligible ==> exists x :: x in e.excluded && x.action == a)
  {
    if actions != [] {
      var n := |actions| - 1;
      PartitionIs(c, now, actions[..n]);
      ExcludedExactlyWhen(c, now, actions[n]);
      assert forall a :: a in actions <==> a in actions[..n] || a == actions[n];
      PartitionGrows(c, now, actions);
    }
  }

  lemma PartitionGrows(c: Context, now: Time, actions: seq<ActionType>)
    requires actions != []
    ensures var e, before, a := Partition(c, now, actions), Partition(c, now, actions[..|actions| - 1]), actions[|actions| - 1];
      && (forall x :: x in e.eligible <==> x in before.eligible || (x == a && WhyNot(c, now, a).None?))
      && (forall x :: x in e.excluded <==> x in before.excluded || (WhyNot(c, now, a).Some? && x == Exclusion(a, WhyNot(c, now, a).value)))
  {
  }

  lemma AllActionsAreAll(a: ActionType)
    ensures a in ALL_ACTIONS
  {
    var k := match a
      case Wait => 0 case RetryNow => 1 case RetryLater => 2 case SendReminder => 3 case SendPaymentLink => 4 case SendCheckoutRecoveryLink => 5
      case RequestPaymentMethodUpdate => 6 case SuggestAlternateMethod => 7 case WaitForPromiseToPay => 8 case Retention => 9
      case EscalateToHuman => 10 case StopAction => 11;
    assert ALL_ACTIONS[k] == a;
  }

  /** Of all actions: eligible if and only if no reason speaks against it. */
  lemma EligibleExactlyWhen(c: Context, now: Time, a: ActionType)
    requires OnTheClock(c)
    ensures a in Partition(c, now, ALL_ACTIONS).eligible <==> forall why :: !SpeaksAgainst(why, c, now, a)
  {
    AllActionsAreAll(a);
    PartitionIs(c, now, ALL_ACTIONS);
  }
}
