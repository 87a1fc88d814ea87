/**
 * The eligibility filter that runs before scoring, and its exact relation to the final policy:
 * policy subsumes it except in four named situations.
 */
module Eligibility {
  import opened Wrappers
  import opened Domain
  import opened Policy

  datatype Why =
    | AlreadyRecovered | WindowExpired | LeakTypeIncompatible | MerchantActionNotAllowed | PromiseActive
    | OptedOut | NoChannel | Quiet | MaxContactsReached | MaxRetriesReached | MandateUnavailable
    | MethodInvalid | RetryCooling | ActionCooling

  datatype Exclusion = Exclusion(action: ActionType, why: Why)
  datatype Eligible = Eligible(eligible: seq<ActionType>, excluded: seq<Exclusion>)

  const ALL_ACTIONS: seq<ActionType> :=
    [Wait, RetryNow, RetryLater, SendReminder, SendPaymentLink, SendCheckoutRecoveryLink, RequestPaymentMethodUpdate,
     SuggestAlternateMethod, WaitForPromiseToPay, Retention, EscalateToHuman, StopAction]

  predicate Compatible(leak: LeakType, a: ActionType) {
    if a == RetryNow || a == RetryLater || a == RequestPaymentMethodUpdate || a == WaitForPromiseToPay then
      leak == FailedSubscription
    else if a == SendCheckoutRecoveryLink then leak == CheckoutAbandonment
    else true
  }

  /** Unlike the policy's test, this one reads the clock in UTC and fails open. */
  predicate UtcQuiet(q: Quiet, utcMinute: int) {
    q.Window? && InWindow(utcMinute, q.start, q.end)
  }

  /** Some action of exactly this kind is younger than the interval. */
  predicate InCooldown(recent: seq<RecentAction>, a: ActionType, now: Time, minutes: int) {
    minutes > 0 && exists i :: 0 <= i < |recent| && recent[i].kind == a && now - recent[i].createdAt < minutes * MINUTE
  }

  method CheckCooldown(recent: seq<RecentAction>, a: ActionType, now: Time, minutes: int) returns (cooling: bool)
    ensures cooling == InCooldown(recent, a, now, minutes)
  {
    if minutes <= 0 { return false; }
    for i := 0 to |recent|
      invariant forall j :: 0 <= j < i ==> !(recent[j].kind == a && now - recent[j].createdAt < minutes * MINUTE)
    {
      if recent[i].kind == a && now - recent[i].createdAt < minutes * MINUTE { return true; }
    }
    return false;
  }

  /** `channels` of the source: the channels that are both allowed and available. */
  predicate NoCommonChannel(allowed: seq<string>, available: seq<string>) {
    forall ch :: ch in allowed ==> ch !in available
  }

  method Intersection(a: seq<string>, b: seq<string>) returns (common: seq<string>)
    ensures forall ch :: ch in common <==> ch in a && ch in b
    ensures common == [] <==> NoCommonChannel(a, b)
  {
    common := [];
    for i := 0 to |a|
      invariant forall ch :: ch in common <==> ch in a[..i] && ch in b
    {
      if a[i] in b { common := common + [a[i]]; }
    }
    assert a[..|a|] == a;
    if common != [] { assert common[0] in a && common[0] in b; }
  }

  /** The first case of the switch that applies, or None when the action is eligible. */
  ghost function WhyNot(c: Context, now: Time, a: ActionType): Option<Why> {
    var m := c.merchant;
    if c.alreadyRecovered || c.state == Recovered then (if a != StopAction then Some(AlreadyRecovered) else None)
    else if c.deadline <= now then (if a != StopAction then Some(WindowExpired) else None)
    else if !Compatible(c.leak, a) then Some(LeakTypeIncompatible)
    else if a != StopAction && a != EscalateToHuman && a != Wait && a !in m.allowedActions then Some(MerchantActionNotAllowed)
    else if c.activePromise && (IsRetry(a) || IsContact(a)) && a != WaitForPromiseToPay then Some(PromiseActive)
    else if c.optedOut && IsContact(a) then Some(OptedOut)
    else if IsContact(a) && NoCommonChannel(m.allowedChannels, c.availableChannels) then Some(NoChannel)
    else if IsContact(a) && UtcQuiet(m.quiet, c.utcMinute) then Some(Why.Quiet)
    else if IsContact(a) && (CountContacts(c.recent, now, DAY) >= m.limits.maxContactsPerDay
                             || CountContacts(c.recent, now, WEEK) >= m.limits.maxContactsPerWeek) then Some(MaxContactsReached)
    else if IsRetry(a) && CountRetries(c.recent) >= m.limits.maxRetries then Some(MaxRetriesReached)
    else if IsRetry(a) && c.mandateLost then Some(MandateUnavailable)
    else if IsRetry(a) && c.methodInvalid then Some(MethodInvalid)
    else if IsRetry(a) && InCooldown(c.recent, a, now, m.limits.minIntervalMinutes) then Some(RetryCooling)
    else if IsContact(a) && InCooldown(c.recent, a, now, m.limits.minIntervalMinutes) then Some(ActionCooling)
    else None
  }

  /** The eligible actions of a list, in order, and the others with the reason that excludes them. */
  ghost function Partition(c: Context, now: Time, actions: seq<ActionType>): Eligible {
    if actions == [] then Eligible([], [])
    else
      var before := Partition(c, now, actions[..|actions| - 1]);
      var a := actions[|actions| - 1];
      match WhyNot(c, now, a)
      case None => before.(eligible := before.eligible + [a])
      case Some(why) => before.(excluded := before.excluded + [Exclusion(a, why)])
  }

  method Explain(c: Context, now: Time, a: ActionType, channels: seq<string>, day: nat, week: nat, retries: nat) returns (why: Option<Why>)
    requires channels == [] <==> NoCommonChannel(c.merchant.allowedChannels, c.availableChannels)
    requires day == CountContacts(c.recent, now, DAY) && week == CountContacts(c.recent, now, WEEK) && retries == CountRetries(c.recent)
    ensures why == WhyNot(c, now, a)
  {
    var m := c.merchant;
    var cooling := CheckCooldown(c.recent, a, now, m.limits.minIntervalMinutes);
    why := None;
    if c.alreadyRecovered || c.state == Recovered {
      if a != StopAction { why := Some(AlreadyRecovered); }
    } else if !(c.deadline > now) {
      if a != StopAction { why := Some(WindowExpired); }
    } else if !Compatible(c.leak, a) {
      why := Some(LeakTypeIncompatible);
    } else if a != StopAction && a != EscalateToHuman && a != Wait && a !in m.allowedActions {
      why := Some(MerchantActionNotAllowed);
    } else if c.activePromise && (IsRetry(a) || IsContact(a)) && a != WaitForPromiseToPay {
      why := Some(PromiseActive);
    } else if c.optedOut && IsContact(a) {
      why := Some(OptedOut);
    } else if IsContact(a) && |channels| == 0 {
      why := Some(NoChannel);
    } else if IsContact(a) && UtcQuiet(m.quiet, c.utcMinute) {
      why := Some(Why.Quiet);
    } else if IsContact(a) && (day >= m.limits.maxContactsPerDay || week >= m.limits.maxContactsPerWeek) {
      why := Some(MaxContactsReached);
    } else if IsRetry(a) && retries >= m.limits.maxRetries {
      why := Some(MaxRetriesReached);
    } else if IsRetry(a) && c.mandateLost {
      why := Some(MandateUnavailable);
    } else if IsRetry(a) && c.methodInvalid {
      why := Some(MethodInvalid);
    } else if IsRetry(a) && cooling {
      why := Some(RetryCooling);
    } else if IsContact(a) && cooling {
      why := Some(ActionCooling);
    }
  }

  method Evaluate(c: Context, now: Time) returns (result: Eligible)
    ensures result == Partition(c, now, ALL_ACTIONS)
  {
    var channels := Intersection(c.merchant.allowedChannels, c.availableChannels);
    var retries, day, week, lastContact, lastRetry := History(c.recent, now);
    result := Eligible([], []);
    for i := 0 to |ALL_ACTIONS|
      invariant result == Partition(c, now, ALL_ACTIONS[..i])
    {
      var a := ALL_ACTIONS[i];
      var why := Explain(c, now, a, channels, day, week, retries);
      assert ALL_ACTIONS[..i + 1][..i] == ALL_ACTIONS[..i];
      match why {
        case None => result := result.(eligible := result.eligible + [a]);
        case Some(w) => result := result.(excluded := result.excluded + [Exclusion(a, w)]);
      }
    }
    assert ALL_ACTIONS[..|ALL_ACTIONS|] == ALL_ACTIONS;
  }

  // ----- policy against eligibility -----

  /** Timestamps come from a database clock, so they are after the zero time. */
  predicate RealTimes(recent: seq<RecentAction>) {
    forall i :: 0 <= i < |recent| ==> recent[i].createdAt > 0
  }

  /** The four ways in which eligibility is stricter than policy. */
  predicate StricterByDesign(c: Context, a: ActionType) {
    || !Compatible(c.leak, a)
    || (a != StopAction && a != EscalateToHuman && a != Wait && c.merchant.allowedActions == [])
    || (IsContact(a) && NoCommonChannel(c.merchant.allowedChannels, c.availableChannels))
    || (IsContact(a) && UtcQuiet(c.merchant.quiet, c.utcMinute))
  }

  /** A cooldown seen by eligibility is always seen by policy. */
  lemma CooldownSubsumed(recent: seq<RecentAction>, a: ActionType, now: Time, limits: Limits)
    requires RealTimes(recent) && (IsContact(a) || IsRetry(a))
    requires InCooldown(recent, a, now, limits.minIntervalMinutes)
    ensures TooSoon(Latest(recent, IsContact(a)), now, limits)
  {
    LatestIsUpperBound(recent, IsContact(a));
    var i :| 0 <= i < |recent| && recent[i].kind == a && now - recent[i].createdAt < limits.minIntervalMinutes * MINUTE;
    assert recent[i].createdAt <= Latest(recent, IsContact(a));
  }

  /**
   * On the same snapshot and clock, an action that policy neither stops nor denies is excluded by
   * eligibility exactly in the four situations of `StricterByDesign`.
   */
  lemma PolicySubsumesEligibility(c: Context, v: nat, k: Candidate, g: bool, now: Time)
    requires RealTimes(c.recent)
    requires Judge(c, v, k, g, now) in {Approve, Escalate}
    ensures WhyNot(c, now, k.action).Some? <==> StricterByDesign(c, k.action)
  {
    if (IsContact(k.action) || IsRetry(k.action)) && InCooldown(c.recent, k.action, now, c.merchant.limits.minIntervalMinutes) {
      CooldownSubsumed(c.recent, k.action, now, c.merchant.limits);
    }
  }
}
