/** Ranking a merchant's open cases by urgency- and recoverability-weighted NERV. */
module Portfolio {
  import opened Domain
  import opened Money
  import opened Sorting

  type CaseId = nat

  datatype Candidate = Candidate(caseId: CaseId, action: ActionType, nerv: int, deadline: Time, arrivalAt: Time, recoverabilityBps: int)

  datatype Item = Item(caseId: CaseId, action: ActionType, nerv: int, urgency: int, recoverability: int, score: int,
                       arrivalAt: Time, rank: nat)

  function Urgency(deadline: Time, now: Time): (u: int)
    ensures u in {7500, 10000, 12500, 15000}
  {
    var left := deadline - now;
    if left <= HOUR then 15000
    else if left <= 6 * HOUR then 12500
    else if left <= 24 * HOUR then 10000
    else 7500
  }

  function Clamp(bps: int): (r: int)
    ensures 0 <= r <= 10000
  {
    if bps < 0 then 0 else if bps > 10000 then 10000 else bps
  }

  function Score(nerv: int, urgency: int, recoverability: int): int {
    MulDiv(MulDiv(nerv, urgency, 10000), recoverability, 10000)
  }

  function ItemOf(c: Candidate, now: Time): Item {
    var u := Urgency(c.deadline, now);
    var r := Clamp(c.recoverabilityBps);
    Item(c.caseId, c.action, c.nerv, u, r, Score(c.nerv, u, r), c.arrivalAt, 0)
  }

  predicate Ahead(x: Item, y: Item) {
    if x.score != y.score then x.score > y.score
    else if x.nerv != y.nerv then x.nerv > y.nerv
    else x.caseId < y.caseId
  }

  function Items(cs: seq<Candidate>, now: Time): seq<Item> {
    Map(c => ItemOf(c, now), cs)
  }

  function Numbered(sorted: seq<Item>): seq<Item> {
    seq(|sorted|, i requires 0 <= i < |sorted| => sorted[i].(rank := i + 1))
  }

  method BuildItems(candidates: seq<Candidate>, now: Time) returns (items: seq<Item>)
    ensures items == Items(candidates, now)
  {
    items := [];
    for i := 0 to |candidates|
      invariant |items| == i && forall j :: 0 <= j < i ==> items[j] == ItemOf(candidates[j], now)
    {
      items := items + [ItemOf(candidates[i], now)];
    }
  }

  method AssignRanks(sorted: seq<Item>) returns (items: seq<Item>)
    ensures items == Numbered(sorted)
  {
    items := sorted;
    for i := 0 to |items|
      invariant |items| == |sorted|
      invariant forall j :: 0 <= j < i ==> items[j] == sorted[j].(rank := j + 1)
      invariant forall j :: i <= j < |items| ==> items[j] == sorted[j]
    {
      items := items[i := items[i].(rank := i + 1)];
    }
  }

  /** What a ranking is: the items of the candidates, best first, with ranks 1 to n. */
  ghost predicate IsRanking(r: seq<Item>, cs: seq<Candidate>, now: Time) {
    && (forall i :: 0 <= i < |r| ==> r[i].rank == i + 1)
    && (forall i, j :: 0 <= i < j < |r| ==> !Ahead(r[j], r[i]))
    && multiset(Map(Unranked, r)) == multiset(Items(cs, now))
  }

  function Unranked(i: Item): Item {
    i.(rank := 0)
  }

  lemma AheadIsWeakOrder(s: seq<Item>)
    ensures WeakOrder(Ahead, s)
  {
  }

  lemma ItemsAreUnranked(cs: seq<Candidate>, now: Time)
    ensures forall i :: i in Items(cs, now) ==> i.rank == 0
  {
  }

  /** Numbering changes nothing but the ranks. */
  lemma NumberedIs(sorted: seq<Item>)
    requires forall i :: i in sorted ==> i.rank == 0
    ensures Map(Unranked, Numbered(sorted)) == sorted
  {
    var r := Numbered(sorted);
    forall i | 0 <= i < |r| ensures Unranked(r[i]) == sorted[i] {
      assert sorted[i] in sorted;
    }
  }

  lemma NumberedStaysSorted(sorted: seq<Item>)
    requires Sorted(Ahead, sorted)
    ensures forall i, j :: 0 <= i < j < |sorted| ==> !Ahead(Numbered(sorted)[j], Numbered(sorted)[i])
  {
    var r := Numbered(sorted);
    forall i, j | 0 <= i < j < |r| ensures !Ahead(r[j], r[i]) {
      assert !Ahead(sorted[j], sorted[i]);
    }
  }

  /** The ranking holds every candidate's item once, best first, with ranks 1 to n. */
  lemma RankingIsRanking(cs: seq<Candidate>, now: Time)
    ensures IsRanking(Numbered(Sort(Ahead, Items(cs, now))), cs, now)
  {
    var items := Items(cs, now);
    var sorted := Sort(Ahead, items);
    AheadIsWeakOrder(items);
    SortIsSorted(Ahead, items);
    ItemsAreUnranked(cs, now);
    SameElements(sorted, items);
    NumberedIs(sorted);
    NumberedStaysSorted(sorted);
  }

  method Rank(candidates: seq<Candidate>, now: Time) returns (items: seq<Item>)
    ensures items == Numbered(Sort(Ahead, Items(candidates, now)))
    ensures IsRanking(items, candidates, now)
  {
    var scored := BuildItems(candidates, now);
    items := AssignRanks(Sort(Ahead, scored));
    RankingIsRanking(candidates, now);
  }

  // ----- the ranking does not depend on the order of the input -----

  ghost predicate DistinctCases(cs: seq<Candidate>) {
    forall x, y :: x in cs && y in cs && x.caseId == y.caseId ==> x == y
  }

  lemma ItemsComparable(cs: seq<Candidate>, now: Time)
    requires DistinctCases(cs)
    ensures Comparable(Ahead, Items(cs, now))
  {
    var xs := Items(cs, now);
    forall x, y | x in xs && y in xs && x != y ensures Ahead(x, y) || Ahead(y, x) {
      var i :| 0 <= i < |xs| && xs[i] == x;
      var j :| 0 <= j < |xs| && xs[j] == y;
      assert cs[i] in cs && cs[j] in cs;
      assert x == ItemOf(cs[i], now) && y == ItemOf(cs[j], now);
    }
  }

  /** With distinct case ids the ranking is the same for every order of the input. */
  lemma RankIgnoresInputOrder(cs: seq<Candidate>, ds: seq<Candidate>, now: Time)
    requires multiset(cs) == multiset(ds) && DistinctCases(cs)
    ensures Numbered(Sort(Ahead, Items(cs, now))) == Numbered(Sort(Ahead, Items(ds, now)))
  {
    var xs := Items(cs, now);
    MapPermute(c => ItemOf(c, now), cs, ds);
    ItemsComparable(cs, now);
    SortIgnoresInputOrder(Ahead, xs, Items(ds, now));
  }

  // ----- the score -----

  /** The urgent amount fits in 64 bits: the condition under which the first product is not truncated to nonsense. */
  predicate InRange(nerv: int, urgency: int) {
    Fits64(nerv) && Fits64(Quo(nerv * urgency, 10000))
  }

  lemma ScoreUnwrapped(nerv: int, urgency: int, recoverability: int)
    requires InRange(nerv, urgency) && urgency > 0 && 0 <= recoverability <= 10000
    ensures Score(nerv, urgency, recoverability) == Quo(Quo(nerv * urgency, 10000) * recoverability, 10000)
    ensures nerv >= 0 ==> Score(nerv, urgency, recoverability) >= 0
    ensures nerv <= 0 ==> Score(nerv, urgency, recoverability) <= 0
  {
    var inner := Quo(nerv * urgency, 10000);
    assert nerv >= 0 ==> nerv * urgency >= 0;
    assert nerv <= 0 ==> nerv * urgency <= 0 by { if nerv <= 0 { assert (-nerv) * urgency >= 0; } }
    FractionFits(inner, recoverability, 10000);
  }

  /** The truncated score is within 2 minor units of the exact product. */
  lemma ScoreIsClose(nerv: int, urgency: int, recoverability: int)
    requires InRange(nerv, urgency) && urgency > 0 && 0 <= recoverability <= 10000
    ensures var exact := nerv * urgency * recoverability;
            var scaled := Score(nerv, urgency, recoverability) * 100_000_000;
            -200_000_000 < exact - scaled < 200_000_000
  {
    ScoreUnwrapped(nerv, urgency, recoverability);
    var product := nerv * urgency;
    var inner := Quo(product, 10000);
    var outer := Quo(inner * recoverability, 10000);
    var lost := product - inner * 10000;
    assert -10000 < lost < 10000;
    LostBounds(lost, recoverability);
    assert -10000 < inner * recoverability - outer * 10000 < 10000;
    assert product * recoverability == (inner * 10000 + lost) * recoverability;
    assert (inner * 10000 + lost) * recoverability == inner * recoverability * 10000 + lost * recoverability;
  }

  lemma LostBounds(lost: int, r: int)
    requires -10000 < lost < 10000 && 0 <= r <= 10000
    ensures -100_000_000 < lost * r < 100_000_000
  {
    if lost >= 0 {
      FractionBounds(lost, r, 10000);
    } else {
      FractionBounds(-lost, r, 10000);
      assert lost * r == -((-lost) * r);
    }
  }

  /** For a fixed urgency and recoverability the score never falls as NERV rises. */
  lemma ScoreIsMonotone(n: int, m: int, urgency: int, recoverability: int)
    requires n <= m && InRange(n, urgency) && InRange(m, urgency) && urgency > 0 && 0 <= recoverability <= 10000
    ensures Score(n, urgency, recoverability) <= Score(m, urgency, recoverability)
  {
    ScoreUnwrapped(n, urgency, recoverability);
    ScoreUnwrapped(m, urgency, recoverability);
    Scale(n, m, urgency);
    QuoMonotone(n * urgency, m * urgency, 10000);
    Scale(Quo(n * urgency, 10000), Quo(m * urgency, 10000), recoverability);
    QuoMonotone(Quo(n * urgency, 10000) * recoverability, Quo(m * urgency, 10000) * recoverability, 10000);
  }

  lemma Scale(a: int, b: int, k: int)
    requires a <= b && k >= 0
    ensures a * k <= b * k
  {
  }

  /** A product with at most one and a half times a 64-bit amount that does not fit comes back with the other sign, and far from zero. */
  lemma WrapFlips(q: int)
    requires TWO_63 <= q <= TWO_63 + TWO_63 / 2 || -TWO_63 - TWO_63 / 2 <= q < -TWO_63
    ensures q > 0 ==> -TWO_63 <= Wrap64(q) <= -TWO_63 / 2
    ensures q < 0 ==> TWO_63 / 2 <= Wrap64(q) < TWO_63
  {
    assert q % TWO_64 == if q > 0 then q else q + TWO_64;
  }

  /** Urgency is at most one and a half, so the urgent amount is at most half as large again as the amount. */
  lemma UrgentAmount(nerv: int, urgency: int)
    requires Fits64(nerv) && 0 < urgency <= 15000
    ensures var q := Quo(nerv * urgency, 10000);
      -TWO_63 - TWO_63 / 2 <= q <= TWO_63 + TWO_63 / 2 && (nerv >= 0 ==> q >= 0) && (nerv <= 0 ==> q <= 0)
  {
    if nerv >= 0 {
      Scale(nerv, TWO_63, urgency);
      Scale(urgency, 15000, TWO_63);
    } else {
      Scale(-nerv, TWO_63, urgency);
      Scale(urgency, 15000, TWO_63);
      assert (-nerv) * urgency == -(nerv * urgency);
    }
  }

  /** A fraction of an amount far from zero keeps its sign and is not zero. */
  lemma FarFromZero(x: int, recoverability: int)
    requires Fits64(x) && 0 < recoverability <= 10000 && (x <= -TWO_63 / 2 || x >= TWO_63 / 2)
    ensures x < 0 ==> MulDiv(x, recoverability, 10000) < 0
    ensures x > 0 ==> MulDiv(x, recoverability, 10000) > 0
  {
    FractionFits(x, recoverability, 10000);
    if x > 0 {
      Scale(1, recoverability, x);
    } else {
      Scale(1, recoverability, -x);
      assert (-x) * recoverability == -(x * recoverability);
    }
  }

  /** The score of a NERV keeps its sign exactly when the urgent amount fits in 64 bits. */
  lemma SignKeptExactlyInRange(nerv: int, urgency: int, recoverability: int)
    requires Fits64(nerv) && 0 < urgency <= 15000 && 0 < recoverability <= 10000
    ensures nerv > 0 ==> (Score(nerv, urgency, recoverability) >= 0 <==> InRange(nerv, urgency))
    ensures nerv < 0 ==> (Score(nerv, urgency, recoverability) <= 0 <==> InRange(nerv, urgency))
  {
    var q := Quo(nerv * urgency, 10000);
    UrgentAmount(nerv, urgency);
    if InRange(nerv, urgency) {
      ScoreUnwrapped(nerv, urgency, recoverability);
    } else {
      WrapFlips(q);
      FarFromZero(Wrap64(q), recoverability);
    }
  }

  /** The score is within 2 minor units of the exact product under exactly that condition. */
  lemma CloseExactlyInRange(nerv: int, urgency: int, recoverability: int)
    requires Fits64(nerv) && nerv != 0 && 0 < urgency <= 15000 && 0 < recoverability <= 10000
    ensures var exact, scaled := nerv * urgency * recoverability, Score(nerv, urgency, recoverability) * 100_000_000;
      -200_000_000 < exact - scaled < 200_000_000 <==> InRange(nerv, urgency)
  {
    if InRange(nerv, urgency) {
      ScoreIsClose(nerv, urgency, recoverability);
    } else {
      SignKeptExactlyInRange(nerv, urgency, recoverability);
      UrgentAmount(nerv, urgency);
      var product := nerv * urgency;
      if nerv > 0 {
        assert product >= TWO_63;
        Scale(1, recoverability, product);
      } else {
        assert product <= -TWO_63;
        Scale(1, recoverability, -product);
        assert (-product) * recoverability == -(product * recoverability);
      }
    }
  }

  /** From an amount in range upwards the score rises exactly as far as the range goes. */
  lemma MonotoneExactlyInRange(n: int, m: int, urgency: int, recoverability: int)
    requires 0 <= n <= m && Fits64(m) && InRange(n, urgency) && 0 < urgency <= 15000 && 0 < recoverability <= 10000
    ensures Score(n, urgency, recoverability) <= Score(m, urgency, recoverability) <==> InRange(m, urgency)
  {
    ScoreUnwrapped(n, urgency, recoverability);
    if InRange(m, urgency) {
      ScoreIsMonotone(n, m, urgency, recoverability);
    } else {
      SignKeptExactlyInRange(m, urgency, recoverability);
    }
  }

  /** And downwards from a loss in range it falls exactly as far. */
  lemma MonotoneExactlyInRangeBelow(n: int, m: int, urgency: int, recoverability: int)
    requires n <= m <= 0 && Fits64(n) && InRange(m, urgency) && 0 < urgency <= 15000 && 0 < recoverability <= 10000
    ensures Score(n, urgency, recoverability) <= Score(m, urgency, recoverability) <==> InRange(n, urgency)
  {
    ScoreUnwrapped(m, urgency, recoverability);
    if InRange(n, urgency) {
      ScoreIsMonotone(n, m, urgency, recoverability);
    } else {
      SignKeptExactlyInRange(n, urgency, recoverability);
    }
  }

  /** A caller can tell beforehand: up to two thirds of the 64-bit range every NERV is safe, at any urgency. */
  lemma SafeNerv(nerv: int, urgency: int)
    requires -6148914691236517204 <= nerv <= 6148914691236517204 && 0 < urgency <= 15000
    ensures InRange(nerv, urgency)
  {
    if nerv >= 0 {
      Scale(nerv, 6148914691236517204, urgency);
      Scale(urgency, 15000, 6148914691236517204);
    } else {
      Scale(-nerv, 6148914691236517204, urgency);
      Scale(urgency, 15000, 6148914691236517204);
      assert (-nerv) * urgency == -(nerv * urgency);
    }
  }

  /** Outside the range the sign is lost: the largest NERV, due within the hour, scores below zero. */
  lemma HugeNervScoresNegative()
    ensures !InRange(0x7fff_ffff_ffff_ffff, 15000)
    ensures Score(0x7fff_ffff_ffff_ffff, 15000, 10000) < 0
  {
    assert Quo(0x7fff_ffff_ffff_ffff * 15000, 10000) == 0xbfff_ffff_ffff_fffe;
    assert Wrap64(0xbfff_ffff_ffff_fffe) == -0x4000_0000_0000_0002;
    assert Quo(-0x4000_0000_0000_0002 * 10000, 10000) == -0x4000_0000_0000_0002;
  }
}
