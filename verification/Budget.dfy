/** Allocating five limited resources to ranked cases, greedily by value density or first come first served. */
module Budget {
  import opened Wrappers
  import opened Domain
  import opened Money
  import opened Sorting
  import opened Portfolio

  datatype Limits = Limits(spend: int, contacts: int, retries: int, discount: int, reviews: int)

  const NOTHING: Limits := Limits(0, 0, 0, 0, 0)

  datatype Reason = SpendExhausted | ContactsExhausted | RetriesExhausted | DiscountExhausted | ReviewsExhausted

  datatype Allocation = Allocation(item: Item, rank: nat, refusal: Option<Reason>)

  datatype Run = Run(totals: Limits, allocations: seq<Allocation>)

  /** What an action consumes; an action not listed is free. */
  function Resources(a: ActionType): (r: Limits)
    ensures r.spend >= 0 && r.contacts >= 0 && r.retries >= 0 && r.discount >= 0 && r.reviews >= 0
  {
    match a
    case RetryNow => Limits(35, 0, 1, 0, 0)
    case RetryLater => Limits(35, 0, 1, 0, 0)
    case SendReminder => Limits(25, 1, 0, 0, 0)
    case SendPaymentLink => Limits(70, 1, 0, 0, 0)
    case SendCheckoutRecoveryLink => Limits(70, 1, 0, 0, 0)
    case Retention => Limits(100, 1, 0, 3000, 0)
    case EscalateToHuman => Limits(0, 0, 0, 0, 1)
    case _ => NOTHING
  }

  function Cost(i: Item): nat {
    Resources(i.action).spend
  }

  function Divisor(i: Item): int {
    if Cost(i) < 1 then 1 else Cost(i)
  }

  /** Value density compared by 64-bit cross products, then by priority rank. */
  predicate Denser(x: Item, y: Item) {
    var left, right := Wrap64(x.nerv * Divisor(y)), Wrap64(y.nerv * Divisor(x));
    if left != right then left > right else x.rank < y.rank
  }

  predicate Earlier(x: Item, y: Item) {
    if x.arrivalAt != y.arrivalAt then x.arrivalAt < y.arrivalAt else x.caseId < y.caseId
  }

  function Ordered(items: seq<Item>, greedy: bool): seq<Item> {
    if greedy then Sort(Denser, items) else Sort(Earlier, items)
  }

  function Plus(a: Limits, b: Limits): Limits {
    Limits(a.spend + b.spend, a.contacts + b.contacts, a.retries + b.retries, a.discount + b.discount, a.reviews + b.reviews)
  }

  predicate AtMost(a: Limits, b: Limits) {
    a.spend <= b.spend && a.contacts <= b.contacts && a.retries <= b.retries && a.discount <= b.discount && a.reviews <= b.reviews
  }

  /** Whether adding `need` to `totals` would break the limit that a reason names. */
  predicate Breaks(r: Reason, totals: Limits, need: Limits, limits: Limits) {
    match r
    case SpendExhausted => totals.spend + need.spend > limits.spend
    case ContactsExhausted => totals.contacts + need.contacts > limits.contacts
    case RetriesExhausted => totals.retries + need.retries > limits.retries
    case DiscountExhausted => totals.discount + need.discount > limits.discount
    case ReviewsExhausted => totals.reviews + need.reviews > limits.reviews
  }

  /** The first limit, in the source's order, that would break. */
  function Refusal(totals: Limits, need: Limits, limits: Limits): (r: Option<Reason>)
    ensures r.Some? ==> Breaks(r.value, totals, need, limits)
    ensures r.None? <==> AtMost(Plus(totals, need), limits)
  {
    if Breaks(SpendExhausted, totals, need, limits) then Some(SpendExhausted)
    else if Breaks(ContactsExhausted, totals, need, limits) then Some(ContactsExhausted)
    else if Breaks(RetriesExhausted, totals, need, limits) then Some(RetriesExhausted)
    else if Breaks(DiscountExhausted, totals, need, limits) then Some(DiscountExhausted)
    else if Breaks(ReviewsExhausted, totals, need, limits) then Some(ReviewsExhausted)
    else None
  }

  /** The totals after the items of a list have been considered in order. */
  function Spent(items: seq<Item>, limits: Limits): Limits {
    if items == [] then NOTHING
    else
      var before := Spent(items[..|items| - 1], limits);
      var need := Resources(items[|items| - 1].action);
      if Refusal(before, need, limits).None? then Plus(before, need) else before
  }

  /** How item `i` of the list fares. */
  function Verdict(items: seq<Item>, limits: Limits, i: nat): Option<Reason>
    requires i < |items|
  {
    Refusal(Spent(items[..i], limits), Resources(items[i].action), limits)
  }

  function Allocations(items: seq<Item>, limits: Limits): seq<Allocation> {
    seq(|items|, i requires 0 <= i < |items| => Allocation(items[i], i + 1, Verdict(items, limits, i)))
  }

  method Check(totals: Limits, need: Limits, limits: Limits) returns (refusal: Option<Reason>)
    ensures refusal == Refusal(totals, need, limits)
  {
    refusal := None;
    if totals.spend + need.spend > limits.spend {
      refusal := Some(SpendExhausted);
    } else if totals.contacts + need.contacts > limits.contacts {
      refusal := Some(ContactsExhausted);
    } else if totals.retries + need.retries > limits.retries {
      refusal := Some(RetriesExhausted);
    } else if totals.discount + need.discount > limits.discount {
      refusal := Some(DiscountExhausted);
    } else if totals.reviews + need.reviews > limits.reviews {
      refusal := Some(ReviewsExhausted);
    }
  }

  lemma AllocationsStep(items: seq<Item>, limits: Limits, i: nat)
    requires i < |items|
    ensures Allocations(items[..i + 1], limits)
         == Allocations(items[..i], limits) + [Allocation(items[i], i + 1, Verdict(items, limits, i))]
    ensures Spent(items[..i + 1], limits)
         == if Verdict(items, limits, i).None? then Plus(Spent(items[..i], limits), Resources(items[i].action)) else Spent(items[..i], limits)
  {
    var more := items[..i + 1];
    assert more[..i] == items[..i];
    AllocationsPrefix(more, limits, i);
    assert Allocations(more, limits) == Allocations(more, limits)[..i] + [Allocations(more, limits)[i]];
  }

  method Fill(ordered: seq<Item>, limits: Limits) returns (run: Run)
    ensures run == Run(Spent(ordered, limits), Allocations(ordered, limits))
  {
    var totals, allocations := NOTHING, [];
    for i := 0 to |ordered|
      invariant totals == Spent(ordered[..i], limits)
      invariant allocations == Allocations(ordered[..i], limits)
    {
      var item := ordered[i];
      var need := Resources(item.action);
      var refusal := Check(totals, need, limits);
      AllocationsStep(ordered, limits, i);
      if refusal.None? {
        totals := Plus(totals, need);
      }
      allocations := allocations + [Allocation(item, i + 1, refusal)];
    }
    assert ordered[..|ordered|] == ordered;
    run := Run(totals, allocations);
  }

  method Allocate(items: seq<Item>, limits: Limits, greedy: bool) returns (run: Run)
    ensures run == Run(Spent(Ordered(items, greedy), limits), Allocations(Ordered(items, greedy), limits))
    ensures multiset(Map((a: Allocation) => a.item, run.allocations)) == multiset(items)
    ensures forall i :: 0 <= i < |run.allocations| ==> run.allocations[i].rank == i + 1
  {
    var ordered := Ordered(items, greedy);
    run := Fill(ordered, limits);
    assert Map((a: Allocation) => a.item, run.allocations) == ordered;
  }

  // ----- exact and maximal -----

  /** The resources of the included allocations, added up from the output alone. */
  function Included(allocations: seq<Allocation>): Limits {
    if allocations == [] then NOTHING
    else
      var before := Included(allocations[..|allocations| - 1]);
      var a := allocations[|allocations| - 1];
      if a.refusal.None? then Plus(before, Resources(a.item.action)) else before
  }

  lemma AllocationsPrefix(items: seq<Item>, limits: Limits, n: nat)
    requires n <= |items|
    ensures Allocations(items, limits)[..n] == Allocations(items[..n], limits)
  {
    forall i | 0 <= i < n ensures Allocations(items, limits)[i] == Allocations(items[..n], limits)[i] {
      assert items[..n][..i] == items[..i];
    }
  }

  /** The totals reported are the sum of what the included allocations consume. */
  lemma {:induction false} TotalsAreSums(items: seq<Item>, limits: Limits)
    ensures Included(Allocations(items, limits)) == Spent(items, limits)
  {
    if items != [] {
      var n := |items| - 1;
      TotalsAreSums(items[..n], limits);
      AllocationsPrefix(items, limits, n);
    }
  }

  /** Totals stay within all five limits; with a negative limit nothing at all is spent. */
  lemma {:induction false} TotalsWithinLimits(items: seq<Item>, limits: Limits)
    ensures Spent(items, limits) == NOTHING || AtMost(Spent(items, limits), limits)
    ensures AtMost(NOTHING, limits) ==> AtMost(Spent(items, limits), limits)
  {
    if items != [] {
      var before := Spent(items[..|items| - 1], limits);
      var need := Resources(items[|items| - 1].action);
      TotalsWithinLimits(items[..|items| - 1], limits);
    }
  }

  lemma {:induction false} TotalsGrow(items: seq<Item>, limits: Limits, n: nat)
    requires n <= |items|
    ensures AtMost(Spent(items[..n], limits), Spent(items, limits))
    decreases |items|
  {
    if n < |items| {
      var init := items[..|items| - 1];
      TotalsGrow(init, limits, n);
      assert init[..n] == items[..n];
    } else {
      assert items[..n] == items;
    }
  }

  /** Maximality: added to the final totals, a refused item would still break the limit its reason names. */
  lemma RefusedStaysRefused(items: seq<Item>, limits: Limits, i: nat)
    requires i < |items| && Verdict(items, limits, i).Some?
    ensures Breaks(Verdict(items, limits, i).value, Spent(items, limits), Resources(items[i].action), limits)
  {
    TotalsGrow(items, limits, i);
  }

  // ----- how good greedy is -----

  /** Sums over a selection of cases. */
  function Sum(f: Item -> int, s: seq<Item>): int {
    if s == [] then 0 else Sum(f, s[..|s| - 1]) + f(s[|s| - 1])
  }

  function Value(s: seq<Item>, chosen: set<CaseId>): int {
    Sum((i: Item) => if i.caseId in chosen then i.nerv else 0, s)
  }

  function Spend(s: seq<Item>, chosen: set<CaseId>): int {
    Sum((i: Item) => if i.caseId in chosen then Cost(i) else 0, s)
  }

  lemma {:induction false} SumWithout(f: Item -> int, s: seq<Item>, k: nat)
    requires k < |s|
    ensures Sum(f, s) == Sum(f, Without(s, k)) + f(s[k])
  {
    var n := |s| - 1;
    var w := Without(s, k);
    if k == n {
      assert w == s[..n];
    } else {
      SumWithout(f, s[..n], k);
      assert w[..|w| - 1] == Without(s[..n], k);
      assert w[|w| - 1] == s[n];
    }
  }

  lemma {:induction false} SumPermute(f: Item -> int, a: seq<Item>, b: seq<Item>)
    requires multiset(a) == multiset(b)
    ensures Sum(f, a) == Sum(f, b)
  {
    assert |multiset(a)| == |a| && |multiset(b)| == |b|;
    if a != [] {
      SameElements(a, b);
      assert a[0] in a;
      var k :| 0 <= k < |b| && b[k] == a[0];
      WithoutOne(a, 0);
      WithoutOne(b, k);
      SumPermute(f, Without(a, 0), Without(b, k));
      SumWithout(f, a, 0);
      SumWithout(f, b, k);
    }
  }

  predicate DistinctIds(s: seq<Item>) {
    forall i, j :: 0 <= i < j < |s| ==> s[i].caseId != s[j].caseId
  }

  /** The cross products that the order compares fit in 64 bits. */
  ghost predicate Fitting(s: seq<Item>) {
    forall x, y :: x in s && y in s ==> Fits64(x.nerv * Divisor(y))
  }

  /** They do, and no NERV is negative. */
  ghost predicate Modest(s: seq<Item>) {
    Fitting(s) && forall x :: x in s ==> x.nerv >= 0
  }

  /** A caller can tell beforehand: NERVs below a hundredth of the 64-bit range fit, whatever the actions. */
  lemma SmallNervsFit(s: seq<Item>)
    requires forall x :: x in s ==> -TWO_63 <= x.nerv * 100 < TWO_63
    ensures Fitting(s)
  {
    forall x, y | x in s && y in s ensures Fits64(x.nerv * Divisor(y)) {
      FractionBounds(x.nerv, Divisor(y), 100);
    }
  }

  /** The value density order, without the wrap-around. */
  predicate DenserExact(x: Item, y: Item) {
    if x.nerv * Divisor(y) != y.nerv * Divisor(x) then x.nerv * Divisor(y) > y.nerv * Divisor(x) else x.rank < y.rank
  }

  lemma DenserIsExact(x: Item, y: Item)
    requires Fits64(x.nerv * Divisor(y)) && Fits64(y.nerv * Divisor(x))
    ensures Denser(x, y) == DenserExact(x, y)
  {
  }

  /** Cross-multiplied ratios compose: a/da <= b/db and b/db <= c/dc give a/da <= c/dc. */
  lemma RatioTransitive(a: int, da: int, b: int, db: int, c: int, dc: int)
    requires da > 0 && db > 0 && dc > 0
    requires a * db <= b * da && b * dc <= c * db
    ensures a * dc <= c * da
  {
    assert a * db * dc <= b * da * dc by { Scale(a * db, b * da, dc); }
    assert b * dc * da <= c * db * da by { Scale(b * dc, c * db, da); }
    assert (a * dc) * db == a * db * dc && b * da * dc == b * dc * da && (c * da) * db == c * db * da;
    CancelAtMost(a * dc, c * da, db);
  }

  /** The density order is a strict weak order whenever its cross products fit. */
  lemma DenserIsWeakOrder(s: seq<Item>)
    requires Fitting(s)
    ensures WeakOrder(Denser, s)
  {
    forall x, y | x in s && y in s && Denser(x, y) ensures !Denser(y, x) {
      DenserIsExact(x, y);
      DenserIsExact(y, x);
    }
    forall x, y, z | x in s && y in s && z in s && Denser(x, z) ensures Denser(x, y) || Denser(y, z) {
      DenserIsExact(x, y);
      DenserIsExact(y, z);
      DenserIsExact(x, z);
      DenserSplits(x, y, z);
    }
  }

  lemma DenserSplits(x: Item, y: Item, z: Item)
    requires DenserExact(x, z)
    ensures DenserExact(x, y) || DenserExact(y, z)
  {
    var dx, dy, dz := Divisor(x), Divisor(y), Divisor(z);
    if !DenserExact(x, y) && !DenserExact(y, z) {
      assert x.nerv * dy <= y.nerv * dx && y.nerv * dz <= z.nerv * dy;
      RatioTransitive(x.nerv, dx, y.nerv, dy, z.nerv, dz);
      assert x.nerv * dz == z.nerv * dx;
      RatioTransitive(z.nerv, dz, x.nerv, dx, y.nerv, dy);
      RatioTransitive(y.nerv, dy, z.nerv, dz, x.nerv, dx);
      assert false;
    }
  }

  /** `s` in greedy order, with index `k` the first refusal. */
  ghost predicate FirstRefusal(s: seq<Item>, limits: Limits, k: nat) {
    k < |s| && Verdict(s, limits, k).Some? && forall i :: 0 <= i < k ==> Verdict(s, limits, i).None?
  }

  /** Only the spend limit ever refuses. */
  ghost predicate OnlySpendBinds(s: seq<Item>, limits: Limits) {
    forall i :: 0 <= i < |s| && Verdict(s, limits, i).Some? ==> Verdict(s, limits, i) == Some(SpendExhausted)
  }

  /** The cases greedy includes. */
  function Taken(s: seq<Item>, limits: Limits): set<CaseId> {
    set i | 0 <= i < |s| && Verdict(s, limits, i).None? :: s[i].caseId
  }

  /** The gain of an item over buying the same spend at the price of item `pivot`. */
  function Gain(i: Item, pivot: Item): int {
    i.nerv * Cost(pivot) - pivot.nerv * Cost(i)
  }

  function TotalGain(s: seq<Item>, chosen: set<CaseId>, pivot: Item): int {
    Sum((i: Item) => if i.caseId in chosen then Gain(i, pivot) else 0, s)
  }

  lemma {:induction false} GainIsValueMinusSpend(s: seq<Item>, chosen: set<CaseId>, pivot: Item)
    ensures TotalGain(s, chosen, pivot) == Value(s, chosen) * Cost(pivot) - pivot.nerv * Spend(s, chosen)
  {
    if s != [] {
      var init, last := s[..|s| - 1], s[|s| - 1];
      GainIsValueMinusSpend(init, chosen, pivot);
      var taken := last.caseId in chosen;
      assert TotalGain(s, chosen, pivot) == TotalGain(init, chosen, pivot) + if taken then Gain(last, pivot) else 0;
      SelectionStep(s, chosen);
      if taken {
        Distribute(Value(init, chosen), last.nerv, Spend(init, chosen), Cost(last), Cost(pivot), pivot.nerv);
      }
    }
  }

  lemma SelectionStep(s: seq<Item>, chosen: set<CaseId>)
    requires s != []
    ensures var init, last := s[..|s| - 1], s[|s| - 1];
      && Value(s, chosen) == Value(init, chosen) + (if last.caseId in chosen then last.nerv else 0)
      && Spend(s, chosen) == Spend(init, chosen) + (if last.caseId in chosen then Cost(last) else 0)
  {
  }

  lemma Distribute(value: int, more: int, spend: int, cost: int, c: int, v: int)
    ensures (value + more) * c - v * (spend + cost) == (value * c - v * spend) + (more * c - v * cost)
  {
  }

  /** A selection that adds only items without gain and drops only items without loss gains no more. */
  lemma {:induction false} Exchange(s: seq<Item>, chosen: set<CaseId>, reference: set<CaseId>, pivot: Item)
    requires forall i :: 0 <= i < |s| && s[i].caseId in chosen && s[i].caseId !in reference ==> Gain(s[i], pivot) <= 0
    requires forall i :: 0 <= i < |s| && s[i].caseId in reference && s[i].caseId !in chosen ==> Gain(s[i], pivot) >= 0
    ensures TotalGain(s, chosen, pivot) <= TotalGain(s, reference, pivot)
  {
    if s != [] {
      Exchange(s[..|s| - 1], chosen, reference, pivot);
    }
  }

  /** More cases are worth at least as much. */
  lemma {:induction false} ValueGrows(s: seq<Item>, chosen: set<CaseId>, more: set<CaseId>)
    requires forall i :: 0 <= i < |s| ==> s[i].nerv >= 0 && (s[i].caseId in chosen ==> s[i].caseId in more)
    ensures Value(s, chosen) <= Value(s, more)
  {
    if s != [] {
      ValueGrows(s[..|s| - 1], chosen, more);
    }
  }

  /** Before the first refusal everything is bought. */
  lemma {:induction false} SpentBeforeRefusal(s: seq<Item>, limits: Limits, k: nat, n: nat, bought: set<CaseId>)
    requires FirstRefusal(s, limits, k) && n <= k
    requires forall i :: 0 <= i < k ==> s[i].caseId in bought
    ensures Spent(s[..n], limits).spend == Spend(s[..n], bought)
  {
    if n > 0 {
      SpentBeforeRefusal(s, limits, k, n - 1, bought);
      assert s[..n][..n - 1] == s[..n - 1];
      assert Verdict(s, limits, n - 1).None?;
    }
  }

  /** Items from `k` on that are in the selection only when free add nothing to the spend. */
  lemma {:induction false} FreeTail(s: seq<Item>, k: nat, n: nat, chosen: set<CaseId>)
    requires k <= n <= |s|
    requires forall i :: k <= i < n && s[i].caseId in chosen ==> Cost(s[i]) == 0
    ensures Spend(s[..n], chosen) == Spend(s[..k], chosen)
  {
    if n > k {
      FreeTail(s, k, n - 1, chosen);
      assert s[..n][..n - 1] == s[..n - 1];
    }
  }

  /** The reference selection: what greedy takes before the first refusal, and everything free. */
  function Reference(s: seq<Item>, k: nat): set<CaseId> {
    set i | 0 <= i < |s| && (i < k || Cost(s[i]) == 0) :: s[i].caseId
  }

  /** Membership in an index-defined selection is membership of the index. */
  lemma ReferenceMembers(s: seq<Item>, k: nat)
    requires DistinctIds(s)
    ensures forall i :: 0 <= i < |s| ==> (s[i].caseId in Reference(s, k) <==> i < k || Cost(s[i]) == 0)
  {
    forall i | 0 <= i < |s| && s[i].caseId in Reference(s, k) ensures i < k || Cost(s[i]) == 0 {
      var j :| 0 <= j < |s| && (j < k || Cost(s[j]) == 0) && s[j].caseId == s[i].caseId;
      assert i == j;
    }
  }

  lemma DensitiesOrdered(s: seq<Item>, i: nat, j: nat)
    requires i < j < |s| && Sorted(Denser, s) && Modest(s)
    ensures s[i].nerv * Divisor(s[j]) >= s[j].nerv * Divisor(s[i])
  {
    assert s[i] in s && s[j] in s;
    DenserIsExact(s[j], s[i]);
  }

  /** Around the first refused item, gains have the right signs. */
  lemma GainSigns(s: seq<Item>, k: nat, i: nat)
    requires k < |s| && i < |s| && Sorted(Denser, s) && Modest(s) && Cost(s[k]) > 0
    ensures (i < k || Cost(s[i]) == 0) ==> Gain(s[i], s[k]) >= 0
    ensures !(i < k || Cost(s[i]) == 0) ==> Gain(s[i], s[k]) <= 0
  {
    assert s[i] in s && s[k] in s;
    assert s[i].nerv * Cost(s[k]) >= 0;
    if Cost(s[i]) == 0 {
      assert s[k].nerv * Cost(s[i]) == 0;
    } else if i < k {
      DensitiesOrdered(s, i, k);
    } else if k < i {
      DensitiesOrdered(s, k, i);
    }
  }

  /** On the sorted list: no affordable selection beats greedy by more than the first item greedy refuses. */
  lemma SortedGreedyBound(s: seq<Item>, limits: Limits, k: nat, chosen: set<CaseId>)
    requires Sorted(Denser, s) && Modest(s) && DistinctIds(s)
    requires 0 <= limits.spend && FirstRefusal(s, limits, k) && OnlySpendBinds(s, limits)
    requires Spend(s, chosen) <= limits.spend
    ensures Value(s, chosen) <= Value(s, Taken(s, limits)) + s[k].nerv
  {
    assert s[k] in s;
    RefusedCosts(s, limits, k);
    ReferenceGainsMost(s, limits, k, chosen);
    ReferenceFillsSpend(s, limits, k);
    ReferenceBound(s, chosen, Reference(s, k), s[k], limits.spend);
    TakenIsWorthReference(s, limits, k);
  }

  /** A selection that spends within the limit is worth at most the reference plus one pivot. */
  lemma ReferenceBound(s: seq<Item>, chosen: set<CaseId>, reference: set<CaseId>, pivot: Item, limit: int)
    requires Cost(pivot) > 0 && pivot.nerv >= 0
    requires Spend(s, chosen) <= limit < Spend(s, reference) + Cost(pivot)
    requires TotalGain(s, chosen, pivot) <= TotalGain(s, reference, pivot)
    ensures Value(s, chosen) <= Value(s, reference) + pivot.nerv
  {
    GainIsValueMinusSpend(s, chosen, pivot);
    GainIsValueMinusSpend(s, reference, pivot);
    BoundFromGain(Value(s, chosen), Spend(s, chosen), Value(s, reference), Spend(s, reference), Cost(pivot), pivot.nerv);
  }

  /** No selection gains more over the pivot's price than the reference selection. */
  lemma ReferenceGainsMost(s: seq<Item>, limits: Limits, k: nat, chosen: set<CaseId>)
    requires Sorted(Denser, s) && Modest(s) && DistinctIds(s)
    requires k < |s| && Cost(s[k]) > 0
    ensures TotalGain(s, chosen, s[k]) <= TotalGain(s, Reference(s, k), s[k])
  {
    ReferenceMembers(s, k);
    forall i | 0 <= i < |s|
      ensures !(i < k || Cost(s[i]) == 0) ==> Gain(s[i], s[k]) <= 0
      ensures (i < k || Cost(s[i]) == 0) ==> Gain(s[i], s[k]) >= 0
    {
      GainSigns(s, k, i);
    }
    Exchange(s, chosen, Reference(s, k), s[k]);
  }

  /** The reference selection leaves too little for the first refused item. */
  lemma ReferenceFillsSpend(s: seq<Item>, limits: Limits, k: nat)
    requires DistinctIds(s) && FirstRefusal(s, limits, k) && Verdict(s, limits, k) == Some(SpendExhausted) && Cost(s[k]) > 0
    ensures Spend(s, Reference(s, k)) + Cost(s[k]) > limits.spend
  {
    RefusedForSpend(s, limits, k);
    ReferenceSpend(s, limits, k);
  }

  lemma RefusedForSpend(s: seq<Item>, limits: Limits, k: nat)
    requires k < |s| && Verdict(s, limits, k) == Some(SpendExhausted)
    ensures Spent(s[..k], limits).spend + Cost(s[k]) > limits.spend
  {
  }

  /** What the reference selection spends is what greedy has spent at the first refusal. */
  lemma ReferenceSpend(s: seq<Item>, limits: Limits, k: nat)
    requires DistinctIds(s) && FirstRefusal(s, limits, k)
    ensures Spend(s, Reference(s, k)) == Spent(s[..k], limits).spend
  {
    ReferenceMembers(s, k);
    SpentBeforeRefusal(s, limits, k, k, Reference(s, k));
    FreeTail(s, k, |s|, Reference(s, k));
    assert s[..|s|] == s;
  }

  /** The arithmetic of the bound: v/c is the price per unit at the first refusal. */
  lemma BoundFromGain(value: int, spend: int, value': int, spend': int, c: int, v: int)
    requires c > 0 && v >= 0 && spend - spend' < c
    requires value * c - v * spend <= value' * c - v * spend'
    ensures value <= value' + v
  {
    Scale(spend - spend', c, v);
    assert v * spend - v * spend' == (spend - spend') * v;
    assert (value' + v) * c == value' * c + c * v;
    CancelAtMost(value, value' + v, c);
  }

  /** A refusal for spend means the item has a price. */
  lemma RefusedCosts(s: seq<Item>, limits: Limits, k: nat)
    requires k < |s| && 0 <= limits.spend && Verdict(s, limits, k) == Some(SpendExhausted)
    ensures Cost(s[k]) > 0
  {
    TotalsWithinLimits(s[..k], limits);
  }

  /** Greedy takes everything before the first refusal, and everything free. */
  lemma ReferenceIsTaken(s: seq<Item>, limits: Limits, k: nat)
    requires 0 <= limits.spend && FirstRefusal(s, limits, k) && OnlySpendBinds(s, limits)
    ensures Reference(s, k) <= Taken(s, limits)
  {
    forall i | 0 <= i < |s| && (i < k || Cost(s[i]) == 0) ensures Verdict(s, limits, i).None? {
      if i >= k && Verdict(s, limits, i) == Some(SpendExhausted) {
        RefusedCosts(s, limits, i);
      }
    }
  }

  lemma TakenIsWorthReference(s: seq<Item>, limits: Limits, k: nat)
    requires Modest(s)
    requires 0 <= limits.spend && FirstRefusal(s, limits, k) && OnlySpendBinds(s, limits)
    ensures Value(s, Reference(s, k)) <= Value(s, Taken(s, limits))
  {
    ReferenceIsTaken(s, limits, k);
    assert forall i :: 0 <= i < |s| ==> s[i] in s;
    ValueGrows(s, Reference(s, k), Taken(s, limits));
  }

  /** The NERV of the first item an allocation refuses; 0 when it refuses none. */
  function FirstExcludedNerv(s: seq<Item>, limits: Limits, k: nat): int
    requires k <= |s|
    decreases |s| - k
  {
    if k == |s| then 0
    else if Verdict(s, limits, k).Some? then s[k].nerv
    else FirstExcludedNerv(s, limits, k + 1)
  }

  lemma {:induction false} FirstExcluded(s: seq<Item>, limits: Limits, k: nat) returns (first: nat)
    requires k <= |s| && forall i :: 0 <= i < k ==> Verdict(s, limits, i).None?
    ensures first <= |s| && forall i :: 0 <= i < first ==> Verdict(s, limits, i).None?
    ensures first < |s| ==> FirstRefusal(s, limits, first)
    ensures FirstExcludedNerv(s, limits, k) == if first == |s| then 0 else s[first].nerv
    decreases |s| - k
  {
    if k == |s| || Verdict(s, limits, k).Some? {
      first := k;
    } else {
      first := FirstExcluded(s, limits, k + 1);
    }
  }

  lemma SelectionPermute(a: seq<Item>, b: seq<Item>, chosen: set<CaseId>)
    requires multiset(a) == multiset(b)
    ensures Value(a, chosen) == Value(b, chosen) && Spend(a, chosen) == Spend(b, chosen)
  {
    SumPermute((i: Item) => if i.caseId in chosen then i.nerv else 0, a, b);
    SumPermute((i: Item) => if i.caseId in chosen then Cost(i) else 0, a, b);
  }

  lemma OccursTwice(s: seq<Item>, i: nat, j: nat)
    requires i < j < |s| && s[i] == s[j]
    ensures multiset(s)[s[i]] >= 2
  {
    WithoutOne(s, i);
    assert Without(s, i)[j - 1] == s[j];
  }

  lemma OccursOnce(s: seq<Item>, x: Item)
    requires DistinctIds(s) && x in s
    ensures multiset(s)[x] == 1
  {
    var k :| 0 <= k < |s| && s[k] == x;
    WithoutOne(s, k);
    forall m | 0 <= m < |s| - 1 ensures Without(s, k)[m] != x {
      assert Without(s, k)[m] == s[if m < k then m else m + 1];
    }
    assert x !in Without(s, k);
  }

  lemma DistinctPermute(a: seq<Item>, b: seq<Item>)
    requires multiset(a) == multiset(b) && DistinctIds(a)
    ensures DistinctIds(b)
  {
    SameElements(a, b);
    forall i, j | 0 <= i < j < |b| ensures b[i].caseId != b[j].caseId {
      assert b[i] in b && b[j] in b;
      OccursOnce(a, b[i]);
      if b[i] == b[j] {
        OccursTwice(b, i, j);
        assert false;
      }
    }
  }

  /**
   * Greedy is never worse than any affordable selection by more than the first item it refuses, and is
   * optimal when it refuses none, provided NERVs are not negative and only the spend limit refuses.
   */
  lemma GreedyBound(items: seq<Item>, limits: Limits, chosen: set<CaseId>)
    requires Modest(items) && DistinctIds(items)
    requires 0 <= limits.spend && OnlySpendBinds(Ordered(items, true), limits)
    requires Spend(items, chosen) <= limits.spend
    ensures var s := Ordered(items, true);
      Value(items, chosen) <= Value(items, Taken(s, limits)) + FirstExcludedNerv(s, limits, 0)
  {
    var s := Ordered(items, true);
    GreedyOrder(items);
    SelectionPermute(items, s, chosen);
    SelectionPermute(items, s, Taken(s, limits));
    SortedBound(s, limits, chosen);
  }

  /** In greedy order the items are the same, sorted by density. */
  lemma GreedyOrder(items: seq<Item>)
    requires Modest(items) && DistinctIds(items)
    ensures var s := Ordered(items, true);
      multiset(s) == multiset(items) && Sorted(Denser, s) && Modest(s) && DistinctIds(s)
  {
    var s := Ordered(items, true);
    SameElements(items, s);
    DenserIsWeakOrder(items);
    SortIsSorted(Denser, items);
    DistinctPermute(items, s);
  }

  lemma SortedBound(s: seq<Item>, limits: Limits, chosen: set<CaseId>)
    requires Sorted(Denser, s) && Modest(s) && DistinctIds(s)
    requires 0 <= limits.spend && OnlySpendBinds(s, limits) && Spend(s, chosen) <= limits.spend
    ensures Value(s, chosen) <= Value(s, Taken(s, limits)) + FirstExcludedNerv(s, limits, 0)
  {
    var first := FirstExcluded(s, limits, 0);
    if first < |s| {
      SortedGreedyBound(s, limits, first, chosen);
    } else {
      AllTaken(s, limits, chosen);
    }
  }

  lemma AllTaken(s: seq<Item>, limits: Limits, chosen: set<CaseId>)
    requires Modest(s) && forall i :: 0 <= i < |s| ==> Verdict(s, limits, i).None?
    ensures Value(s, chosen) <= Value(s, Taken(s, limits))
  {
    forall i | 0 <= i < |s| ensures s[i].nerv >= 0 && s[i].caseId in Taken(s, limits) {
      assert s[i] in s;
    }
    ValueGrows(s, chosen, Taken(s, limits));
  }

  /** Everything an allocation takes, in either order, is affordable. */
  lemma TakenIsAffordable(items: seq<Item>, limits: Limits, greedy: bool)
    requires DistinctIds(items) && 0 <= limits.spend
    ensures Spend(items, Taken(Ordered(items, greedy), limits)) <= limits.spend
  {
    var s := Ordered(items, greedy);
    DistinctPermute(items, s);
    SelectionPermute(items, s, Taken(s, limits));
    TakenSpend(s, limits, |s|);
    assert s[..|s|] == s;
    SpendWithinLimit(s, limits);
  }

  lemma {:induction false} SpendWithinLimit(s: seq<Item>, limits: Limits)
    requires 0 <= limits.spend
    ensures Spent(s, limits).spend <= limits.spend
  {
    TotalsWithinLimits(s, limits);
  }

  lemma {:induction false} TakenSpend(s: seq<Item>, limits: Limits, n: nat)
    requires DistinctIds(s) && n <= |s|
    ensures Spend(s[..n], Taken(s, limits)) == Spent(s[..n], limits).spend
  {
    if n > 0 {
      TakenSpend(s, limits, n - 1);
      assert s[..n][..n - 1] == s[..n - 1];
      TakenMember(s, limits, n - 1);
    }
  }

  lemma TakenMember(s: seq<Item>, limits: Limits, i: nat)
    requires DistinctIds(s) && i < |s|
    ensures s[i].caseId in Taken(s, limits) <==> Verdict(s, limits, i).None?
  {
    if s[i].caseId in Taken(s, limits) {
      var j :| 0 <= j < |s| && Verdict(s, limits, j).None? && s[j].caseId == s[i].caseId;
      assert i == j;
    }
  }

  /** Hence greedy is at least first come first served, less the first item greedy refuses. */
  lemma GreedyAgainstArrivalOrder(items: seq<Item>, limits: Limits)
    requires Modest(items) && DistinctIds(items)
    requires 0 <= limits.spend && OnlySpendBinds(Ordered(items, true), limits)
    ensures var s := Ordered(items, true);
      Value(items, Taken(Ordered(items, false), limits)) <= Value(items, Taken(s, limits)) + FirstExcludedNerv(s, limits, 0)
  {
    TakenIsAffordable(items, limits, false);
    GreedyBound(items, limits, Taken(Ordered(items, false), limits));
  }

  const REMINDER: Item := Item(1, SendReminder, 30, 10000, 10000, 30, 2, 2)
  const LINK: Item := Item(0, SendPaymentLink, 80, 10000, 10000, 80, 1, 1)
  const TIGHT: Limits := Limits(70, 1000, 1000, 1000, 1000)

  /** The margin is needed: here greedy takes 30 where arrival order takes 80. */
  lemma GreedyCanLose()
    ensures Value([LINK, REMINDER], Taken(Ordered([LINK, REMINDER], true), TIGHT)) == 30
    ensures Value([LINK, REMINDER], Taken(Ordered([LINK, REMINDER], false), TIGHT)) == 80
  {
    PairOrders();
    PairNeeds();
    PairTaken(REMINDER, LINK);
    PairTaken(LINK, REMINDER);
    PairValue(Taken([REMINDER, LINK], TIGHT));
    PairValue(Taken([LINK, REMINDER], TIGHT));
  }

  /** The budget has room for either item, but not for both. */
  predicate EitherFits(first: Limits, second: Limits) {
    && first.spend <= TIGHT.spend < first.spend + second.spend && first.contacts <= TIGHT.contacts
    && first.retries <= TIGHT.retries && first.discount <= TIGHT.discount && first.reviews <= TIGHT.reviews
  }

  lemma PairNeeds()
    ensures EitherFits(Resources(REMINDER.action), Resources(LINK.action)) && EitherFits(Resources(LINK.action), Resources(REMINDER.action))
  {
    assert Resources(SendReminder) == Limits(25, 1, 0, 0, 0) && Resources(SendPaymentLink) == Limits(70, 1, 0, 0, 0);
  }

  lemma PairTaken(first: Item, second: Item)
    requires EitherFits(Resources(first.action), Resources(second.action)) && first.caseId != second.caseId
    ensures first.caseId in Taken([first, second], TIGHT) && second.caseId !in Taken([first, second], TIGHT)
  {
    PairVerdicts(first, second);
    TakenMember([first, second], TIGHT, 0);
    TakenMember([first, second], TIGHT, 1);
  }

  lemma PairOrders()
    ensures Ordered([LINK, REMINDER], true) == [REMINDER, LINK]
    ensures Ordered([LINK, REMINDER], false) == [LINK, REMINDER]
  {
    assert Denser(REMINDER, LINK) && !Denser(LINK, REMINDER);
    assert Earlier(LINK, REMINDER) && !Earlier(REMINDER, LINK);
    assert [LINK, REMINDER][1..] == [REMINDER];
  }

  lemma PairVerdicts(first: Item, second: Item)
    requires EitherFits(Resources(first.action), Resources(second.action))
    ensures Verdict([first, second], TIGHT, 0).None? && Verdict([first, second], TIGHT, 1).Some?
  {
    var need, other := Resources(first.action), Resources(second.action);
    PairVerdictsAre(first, second, TIGHT);
    Fits(need, TIGHT);
    SpentByOne(first, TIGHT);
    SpendRefuses(Plus(NOTHING, need), other, TIGHT);
  }

  lemma Fits(need: Limits, limits: Limits)
    requires need.spend <= limits.spend && need.contacts <= limits.contacts && need.retries <= limits.retries
    requires need.discount <= limits.discount && need.reviews <= limits.reviews
    ensures Refusal(NOTHING, need, limits).None?
  {
  }

  lemma SpendRefuses(totals: Limits, need: Limits, limits: Limits)
    requires totals.spend + need.spend > limits.spend
    ensures Refusal(totals, need, limits).Some?
  {
  }

  lemma PairVerdictsAre(first: Item, second: Item, limits: Limits)
    ensures Verdict([first, second], limits, 0) == Refusal(NOTHING, Resources(first.action), limits)
    ensures Verdict([first, second], limits, 1) == Refusal(Spent([first], limits), Resources(second.action), limits)
  {
    assert [first, second][..0] == [] && [first, second][..1] == [first];
  }

  lemma SpentByOne(item: Item, limits: Limits)
    requires Refusal(NOTHING, Resources(item.action), limits).None?
    ensures Spent([item], limits) == Plus(NOTHING, Resources(item.action))
  {
    assert [item][..0] == [];
  }

  lemma PairValue(chosen: set<CaseId>)
    ensures Value([LINK, REMINDER], chosen) == (if 0 in chosen then 80 else 0) + (if 1 in chosen then 30 else 0)
  {
    ValueStep([LINK], REMINDER, chosen);
    ValueStep([], LINK, chosen);
    assert [LINK] + [REMINDER] == [LINK, REMINDER] && [] + [LINK] == [LINK];
  }

  lemma ValueStep(s: seq<Item>, last: Item, chosen: set<CaseId>)
    ensures Value(s + [last], chosen) == Value(s, chosen) + if last.caseId in chosen then last.nerv else 0
    ensures Spend(s + [last], chosen) == Spend(s, chosen) + if last.caseId in chosen then Cost(last) else 0
  {
    assert (s + [last])[..|s|] == s;
  }

  // ----- when the cross products do not fit -----

  /** A reminder of the largest value, a retention offer and a payment link of next to none. */
  const HUGE: Item := Item(0, SendReminder, 0x4000_0000_0000_0000, 10000, 10000, 0, 0, 1)
  const SMALL: Item := Item(1, Retention, 1, 10000, 10000, 0, 0, 2)
  const MIDDLE: Item := Item(2, SendPaymentLink, 0, 10000, 10000, 0, 0, 3)
  const HUNDRED: Limits := Limits(100, 1000, 1000, 10000, 1000)

  lemma WrappedOrder()
    ensures Denser(SMALL, HUGE) && Denser(MIDDLE, HUGE) && Denser(SMALL, MIDDLE) && !Denser(MIDDLE, SMALL)
    ensures !Fits64(HUGE.nerv * Divisor(SMALL))
  {
    assert HUGE.nerv * 100 == 25 * TWO_64;
    assert HUGE.nerv * 70 == 17 * TWO_64 + TWO_63;
  }

  /** The largest NERV at the best price is sorted last. */
  lemma WrappedList()
    ensures Ordered([HUGE, SMALL, MIDDLE], true) == [SMALL, MIDDLE, HUGE]
  {
    WrappedOrder();
    SortThree(Denser, HUGE, SMALL, MIDDLE);
  }

  lemma SortThree<T>(less: (T, T) -> bool, a: T, b: T, c: T)
    requires less(b, a) && less(c, a) && less(b, c) && !less(c, b)
    ensures Sort(less, [a, b, c]) == [b, c, a]
  {
    assert [a, b, c][1..] == [b, c] && [b, c][1..] == [c] && [c][1..] == [];
    assert Sort(less, [c]) == [c];
    assert Sort(less, [b, c]) == Insert(less, b, [c]);
    assert Insert(less, b, [c]) == [b, c];
    assert Insert(less, a, [c]) == [c, a];
    assert Insert(less, a, [b, c]) == [b] + Insert(less, a, [c]);
  }

  /** A first item that fits, and two more that no longer do. */
  lemma OneOfThree(a: Item, b: Item, c: Item, limits: Limits)
    requires AtMost(Resources(a.action), limits)
    requires Resources(a.action).spend + Cost(b) > limits.spend && Resources(a.action).spend + Cost(c) > limits.spend
    ensures var s := [a, b, c];
      && Verdict(s, limits, 0).None? && Verdict(s, limits, 1) == Some(SpendExhausted) && Verdict(s, limits, 2) == Some(SpendExhausted)
  {
    var s := [a, b, c];
    Fits(Resources(a.action), limits);
    SpentByOne(a, limits);
    assert s[..0] == [] && s[..1] == [a] && s[..2] == [a, b] && [a, b][..1] == [a];
    SpendRefusesFirst(Spent([a], limits), Resources(b.action), limits);
    assert Spent([a, b], limits) == Spent([a], limits);
    SpendRefusesFirst(Spent([a], limits), Resources(c.action), limits);
  }

  lemma SpendRefusesFirst(totals: Limits, need: Limits, limits: Limits)
    requires totals.spend + need.spend > limits.spend
    ensures Refusal(totals, need, limits) == Some(SpendExhausted)
  {
  }

  lemma OneIsTaken(a: Item, b: Item, c: Item, limits: Limits)
    requires a.caseId != b.caseId && a.caseId != c.caseId && b.caseId != c.caseId
    requires Verdict([a, b, c], limits, 0).None? && Verdict([a, b, c], limits, 1).Some? && Verdict([a, b, c], limits, 2).Some?
    ensures a.caseId in Taken([a, b, c], limits) && b.caseId !in Taken([a, b, c], limits) && c.caseId !in Taken([a, b, c], limits)
    ensures FirstExcludedNerv([a, b, c], limits, 0) == b.nerv
  {
    TakenMember([a, b, c], limits, 0);
    TakenMember([a, b, c], limits, 1);
    TakenMember([a, b, c], limits, 2);
    assert FirstExcludedNerv([a, b, c], limits, 0) == FirstExcludedNerv([a, b, c], limits, 1);
  }

  lemma ThreeValue(a: Item, b: Item, c: Item, chosen: set<CaseId>)
    ensures Value([a, b, c], chosen)
         == (if a.caseId in chosen then a.nerv else 0) + (if b.caseId in chosen then b.nerv else 0) + (if c.caseId in chosen then c.nerv else 0)
    ensures Spend([a, b, c], chosen)
         == (if a.caseId in chosen then Cost(a) else 0) + (if b.caseId in chosen then Cost(b) else 0) + (if c.caseId in chosen then Cost(c) else 0)
  {
    ValueStep([a, b], c, chosen);
    ValueStep([a], b, chosen);
    ValueStep([], a, chosen);
    assert [a, b] + [c] == [a, b, c] && [a] + [b] == [a, b] && [] + [a] == [a];
  }

  /**
   * The bound itself fails when a cross product wraps: greedy takes 1 where 2^62 was to be had, and the
   * first item it refuses is worth nothing.
   */
  lemma BoundNeedsFittingProducts()
    ensures var items, s := [HUGE, SMALL, MIDDLE], Ordered([HUGE, SMALL, MIDDLE], true);
      && Spend(items, {HUGE.caseId}) <= HUNDRED.spend && OnlySpendBinds(s, HUNDRED)
      && Value(items, {HUGE.caseId}) > Value(items, Taken(s, HUNDRED)) + FirstExcludedNerv(s, HUNDRED, 0)
  {
    WrappedList();
    ThreeNeeds();
    OneOfThree(SMALL, MIDDLE, HUGE, HUNDRED);
    OneIsTaken(SMALL, MIDDLE, HUGE, HUNDRED);
    ThreeValue(HUGE, SMALL, MIDDLE, {HUGE.caseId});
    ThreeValue(HUGE, SMALL, MIDDLE, Taken([SMALL, MIDDLE, HUGE], HUNDRED));
  }

  lemma ThreeNeeds()
    ensures Resources(SMALL.action) == Limits(100, 1, 0, 3000, 0) && Cost(MIDDLE) == 70 && Cost(HUGE) == 25
  {
  }
}
