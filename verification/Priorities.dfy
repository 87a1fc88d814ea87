/** Priorities and budgets read from outside: how urgent a case is, who comes first, what is spent on what, and why an action is refused. */
module Priorities {
  import opened Wrappers
  import opened Domain
  import opened Money
  import opened Sorting
  import Portfolio
  import opened Budget

  // ----- priorities -----

  /** How urgent a case is, by the time left before its deadline. */
  predicate Urgent(left: int, urgency: int) {
    && (urgency == 15000 <==> left <= 1 * HOUR) && (urgency == 12500 <==> 1 * HOUR < left <= 6 * HOUR)
    && (urgency == 10000 <==> 6 * HOUR < left <= 24 * HOUR) && (urgency == 7500 <==> 24 * HOUR < left)
  }

  /** The item of a candidate: its own data, its urgency, and its recoverability between nothing and all. */
  predicate StandsFor(item: Portfolio.Item, c: Portfolio.Candidate, now: Time) {
    && item.caseId == c.caseId && item.action == c.action && item.nerv == c.nerv && item.arrivalAt == c.arrivalAt
    && Urgent(c.deadline - now, item.urgency)
    && 0 <= item.recoverability <= 10000
    && (0 <= c.recoverabilityBps <= 10000 ==> item.recoverability == c.recoverabilityBps)
    && (c.recoverabilityBps < 0 ==> item.recoverability == 0) && (c.recoverabilityBps > 10000 ==> item.recoverability == 10000)
    && item.score == Portfolio.Score(c.nerv, item.urgency, item.recoverability)
  }

  lemma ItemStandsFor(c: Portfolio.Candidate, now: Time)
    ensures StandsFor(Portfolio.ItemOf(c, now), c, now)
  {
  }

  /** Every item of a ranking stands for a candidate. */
  lemma PrioritiesStandFor(r: seq<Portfolio.Item>, cs: seq<Portfolio.Candidate>, now: Time, i: nat)
    requires Portfolio.IsRanking(r, cs, now) && i < |r|
    ensures exists c :: c in cs && StandsFor(r[i], c, now)
  {
    var items := Portfolio.Items(cs, now);
    SameElements(Map(Portfolio.Unranked, r), items);
    assert Map(Portfolio.Unranked, r)[i] in Map(Portfolio.Unranked, r);
    var k :| 0 <= k < |items| && items[k] == Portfolio.Unranked(r[i]);
    ItemStandsFor(cs[k], now);
    assert cs[k] in cs && StandsFor(r[i], cs[k], now);
  }

  /** Higher scores come first, then higher NERVs, then lower case ids. */
  lemma PrioritiesInOrder(r: seq<Portfolio.Item>, cs: seq<Portfolio.Candidate>, now: Time, i: nat, j: nat)
    requires Portfolio.IsRanking(r, cs, now) && i < j < |r|
    ensures r[i].score >= r[j].score && r[i].rank < r[j].rank
    ensures r[i].score == r[j].score ==> r[i].nerv >= r[j].nerv
    ensures r[i].score == r[j].score && r[i].nerv == r[j].nerv ==> r[i].caseId <= r[j].caseId
  {
    assert !Portfolio.Ahead(r[j], r[i]);
  }

  // ----- what is spent on what -----

  /** The positions of the included items with one of these actions. */
  ghost function Spending(items: seq<Portfolio.Item>, limits: Limits, actions: set<ActionType>): set<int> {
    set i | 0 <= i < |items| && Spends(items, limits, actions, i)
  }

  const TO_CUSTOMERS: set<ActionType> := {SendReminder, SendPaymentLink, SendCheckoutRecoveryLink, Retention}
  const TO_BANKS: set<ActionType> := {RetryNow, RetryLater}
  const LINKS: set<ActionType> := {SendPaymentLink, SendCheckoutRecoveryLink}

  /** What is included among the first items does not depend on those that follow. */
  lemma VerdictBefore(items: seq<Portfolio.Item>, limits: Limits, n: nat, i: nat)
    requires i < n <= |items|
    ensures Verdict(items[..n], limits, i) == Verdict(items, limits, i)
  {
    assert items[..n][..i] == items[..i];
  }

  ghost predicate Spends(items: seq<Portfolio.Item>, limits: Limits, actions: set<ActionType>, i: nat)
    requires i < |items|
  {
    Verdict(items, limits, i).None? && items[i].action in actions
  }

  lemma SpendingBefore(items: seq<Portfolio.Item>, limits: Limits, actions: set<ActionType>, n: nat)
    requires n <= |items|
    ensures Spending(items[..n], limits, actions) == set i | 0 <= i < n && Spends(items, limits, actions, i)
  {
    forall i | 0 <= i < n ensures Spends(items[..n], limits, actions, i) <==> Spends(items, limits, actions, i) {
      VerdictBefore(items, limits, n, i);
    }
  }

  lemma SpendingGrows(items: seq<Portfolio.Item>, limits: Limits, actions: set<ActionType>)
    requires items != []
    ensures var n := |items| - 1;
      |Spending(items, limits, actions)| == |Spending(items[..n], limits, actions)|
                                            + if Verdict(items, limits, n).None? && items[n].action in actions then 1 else 0
  {
    var n := |items| - 1;
    SpendingBefore(items, limits, actions, n);
    var before := set i | 0 <= i < n && Spends(items, limits, actions, i);
    assert Spending(items, limits, actions) == before + if Spends(items, limits, actions, n) then {n} else {};
  }

  /** The totals count the included actions: contacts, retries and reviews one by one, discounts and spending at the price of each. */
  ghost predicate Counted(items: seq<Portfolio.Item>, limits: Limits, totals: Limits) {
    && totals.contacts == |Spending(items, limits, TO_CUSTOMERS)|
    && totals.retries == |Spending(items, limits, TO_BANKS)|
    && totals.reviews == |Spending(items, limits, {EscalateToHuman})|
    && totals.discount == 3000 * |Spending(items, limits, {Retention})|
    && totals.spend == 35 * |Spending(items, limits, TO_BANKS)| + 25 * |Spending(items, limits, {SendReminder})|
                       + 70 * |Spending(items, limits, LINKS)| + 100 * |Spending(items, limits, {Retention})|
  }

  lemma {:induction false} TotalsCount(items: seq<Portfolio.Item>, limits: Limits)
    ensures Counted(items, limits, Spent(items, limits))
  {
    if items == [] {
      NothingSpent(limits);
    } else {
      var n := |items| - 1;
      TotalsCount(items[..n], limits);
      SpendingGrows(items, limits, TO_CUSTOMERS);
      SpendingGrows(items, limits, TO_BANKS);
      SpendingGrows(items, limits, {EscalateToHuman});
      SpendingGrows(items, limits, {Retention});
      SpendingGrows(items, limits, {SendReminder});
      SpendingGrows(items, limits, LINKS);
      NeedIs(items[n].action);
    }
  }

  lemma NothingSpent(limits: Limits)
    ensures forall actions :: Spending([], limits, actions) == {}
  {
  }

  lemma NeedIs(a: ActionType)
    ensures var need := Resources(a);
      && need.contacts == (if a in TO_CUSTOMERS then 1 else 0) && need.retries == (if a in TO_BANKS then 1 else 0)
      && need.reviews == (if a in {EscalateToHuman} then 1 else 0) && need.discount == (if a in {Retention} then 3000 else 0)
      && need.spend == (if a in TO_BANKS then 35 else 0) + (if a in {SendReminder} then 25 else 0)
                       + (if a in LINKS then 70 else 0) + (if a in {Retention} then 100 else 0)
  {
  }

  // ----- why an action is refused -----

  const REASONS: seq<Budget.Reason> := [SpendExhausted, ContactsExhausted, RetriesExhausted, DiscountExhausted, ReviewsExhausted]

  /** What would be used if item `i` were included after those before it. */
  function With(items: seq<Portfolio.Item>, limits: Limits, i: nat): Limits
    requires i < |items|
  {
    Plus(Spent(items[..i], limits), Resources(items[i].action))
  }

  /** How much of a limit that is, and how much there is of it. */
  function Used(r: Budget.Reason, totals: Limits): int {
    match r
    case SpendExhausted => totals.spend case ContactsExhausted => totals.contacts case RetriesExhausted => totals.retries
    case DiscountExhausted => totals.discount case ReviewsExhausted => totals.reviews
  }

  /** An item is refused for the first limit it would break, and included if it would break none. */
  lemma RefusedExactlyWhen(items: seq<Portfolio.Item>, limits: Limits, i: nat)
    requires i < |items|
    ensures var with, verdict := With(items, limits, i), Verdict(items, limits, i);
      && (verdict.None? <==> forall k :: 0 <= k < |REASONS| ==> Used(REASONS[k], with) <= Used(REASONS[k], limits))
      && forall k :: 0 <= k < |REASONS| ==>
           (verdict == Option.Some(REASONS[k])
            <==> Used(REASONS[k], with) > Used(REASONS[k], limits) && forall j :: 0 <= j < k ==> Used(REASONS[j], with) <= Used(REASONS[j], limits))
  {
    FirstBroken(Spent(items[..i], limits), Resources(items[i].action), limits);
  }

  lemma FirstBroken(before: Limits, need: Limits, limits: Limits)
    ensures var with, refusal := Plus(before, need), Refusal(before, need, limits);
      && (refusal.None? <==> forall k :: 0 <= k < |REASONS| ==> Used(REASONS[k], with) <= Used(REASONS[k], limits))
      && forall k :: 0 <= k < |REASONS| ==>
           (refusal == Option.Some(REASONS[k])
            <==> Used(REASONS[k], with) > Used(REASONS[k], limits) && forall j :: 0 <= j < k ==> Used(REASONS[j], with) <= Used(REASONS[j], limits))
  {
    assert REASONS[0] == SpendExhausted && REASONS[1] == ContactsExhausted && REASONS[2] == RetriesExhausted;
    assert REASONS[3] == DiscountExhausted && REASONS[4] == ReviewsExhausted;
  }

  // ----- in which order actions are considered -----

  /** What an action costs, and 1 if it costs nothing. */
  function Price(a: ActionType): int {
    if a in TO_BANKS then 35 else if a == SendReminder then 25 else if a in LINKS then 70 else if a == Retention then 100 else 1
  }

  /** By value for the price when greedy, equal ones by rank; otherwise by arrival, equal ones by case id. */
  lemma ConsideredInOrder(items: seq<Portfolio.Item>, greedy: bool, i: nat, j: nat)
    requires (greedy ==> Fitting(items)) && i < j < |Ordered(items, greedy)|
    ensures var x, y := Ordered(items, greedy)[i], Ordered(items, greedy)[j];
      if greedy then
        x.nerv * Price(y.action) >= y.nerv * Price(x.action)
        && (x.nerv * Price(y.action) == y.nerv * Price(x.action) ==> x.rank <= y.rank)
      else x.arrivalAt <= y.arrivalAt && (x.arrivalAt == y.arrivalAt ==> x.caseId <= y.caseId)
  {
    var s := Ordered(items, greedy);
    var x, y := s[i], s[j];
    if greedy {
      DenserIsWeakOrder(items);
      SortIsSorted(Denser, items);
      SameElements(s, items);
      assert x in s && y in s;
      PriceIs(x);
      PriceIs(y);
      assert !Denser(y, x);
    } else {
      EarlierIsWeakOrder(items);
      SortIsSorted(Earlier, items);
      assert !Earlier(y, x);
    }
  }

  lemma EarlierIsWeakOrder(items: seq<Portfolio.Item>)
    ensures WeakOrder(Earlier, items)
  {
  }

  lemma PriceIs(i: Portfolio.Item)
    ensures Divisor(i) == Price(i.action)
  {
  }
}
