/**
 * Next-best-action ranking by net expected recovery value (NERV). Probabilities are in millionths;
 * `fatigueBps` and `riskBps` are the rates after the source's rounding.
 */
module Optimizer {
  import opened Domain
  import opened Money
  import opened Sorting
  import EconomicGate

  datatype Cost = Cost(channel: int, operational: int, contact: bool)

  const RETENTION_INCENTIVE_BPS: int := 500

  /** The default cost model; an action it does not list costs nothing. */
  function CostOf(a: ActionType): Cost {
    match a
    case RetryNow => Cost(0, 35, false)
    case RetryLater => Cost(0, 35, false)
    case SendReminder => Cost(25, 0, true)
    case SendPaymentLink => Cost(25, 45, true)
    case SendCheckoutRecoveryLink => Cost(25, 45, true)
    case RequestPaymentMethodUpdate => Cost(25, 35, true)
    case SuggestAlternateMethod => Cost(25, 30, true)
    case WaitForPromiseToPay => Cost(0, 10, false)
    case Retention => Cost(25, 100, true)
    case _ => Cost(0, 0, false)
  }

  datatype Objective = MaximizeNetRecovery | MaximizeRetention | MinimizeContact | MinimizeRecoveryCost | Balanced

  datatype Weights = Weights(revenue: int, retention: int, contact: int, cost: int, fatigue: int, risk: int)

  /** `profileVersion` is 0 when the merchant has no optimization profile. */
  datatype Setting = Setting(amount: int, fatigueBps: int, riskBps: int, maxIncentive: int,
                             profileVersion: int, objective: Objective, weights: Weights)

  datatype Prediction = Prediction(action: ActionType, probability: int)

  datatype Candidate = Candidate(action: ActionType, probability: int, uplift: int, gross: int, cost: Cost, incentive: int,
                                 fatigue: int, risk: int, nerv: int, score: int, rank: nat)

  function ObjectiveScore(s: Setting, gross: int, nerv: int, cost: int, fatigue: int, risk: int): int {
    if s.profileVersion > 0 then
      var w := s.weights;
      var contact := if fatigue > 0 then s.amount else 0;
      MulDiv(gross, w.revenue, 10000) + MulDiv(gross - risk, w.retention, 10000) - MulDiv(contact, w.contact, 10000)
      - MulDiv(cost, w.cost, 10000) - MulDiv(fatigue, w.fatigue, 10000) - MulDiv(risk, w.risk, 10000)
    else match s.objective
      case MinimizeContact => nerv - fatigue * 2
      case MinimizeRecoveryCost => nerv - cost
      case MaximizeRetention => nerv - risk
      case Balanced => nerv - Quo(fatigue + risk, 2)
      case MaximizeNetRecovery => nerv
  }

  function Incentive(s: Setting, a: ActionType): int {
    if a != Retention then 0
    else
      var incentive := MulDiv(s.amount, RETENTION_INCENTIVE_BPS, 10000);
      if s.maxIncentive > 0 && incentive > s.maxIncentive then s.maxIncentive else incentive
  }

  function Scored(s: Setting, natural: int, a: ActionType, probability: int): Candidate {
    var uplift := probability - natural;
    var gross := MulDiv(s.amount, uplift, 1_000_000);
    var cost := CostOf(a);
    var fatigue := if cost.contact then MulDiv(s.amount, s.fatigueBps, 10000) else 0;
    var risk := if a == Wait then 0 else MulDiv(s.amount, s.riskBps, 10000);
    var incentive := Incentive(s, a);
    var nerv := gross - cost.channel - cost.operational - incentive - fatigue - risk;
    var score := ObjectiveScore(s, gross, nerv, cost.channel + cost.operational + incentive, fatigue, risk);
    Candidate(a, probability, uplift, gross, cost, incentive, fatigue, risk, nerv, score, 0)
  }

  /** The position of an action's wire name in byte order. */
  function NameOrder(a: ActionType): nat {
    match a
    case EscalateToHuman => 0
    case RequestPaymentMethodUpdate => 1
    case Retention => 2
    case RetryLater => 3
    case RetryNow => 4
    case SendCheckoutRecoveryLink => 5
    case SendPaymentLink => 6
    case SendReminder => 7
    case StopAction => 8
    case SuggestAlternateMethod => 9
    case Wait => 10
    case WaitForPromiseToPay => 11
  }

  predicate Better(x: Candidate, y: Candidate) {
    if x.score != y.score then x.score > y.score
    else if x.nerv != y.nerv then x.nerv > y.nerv
    else NameOrder(x.action) < NameOrder(y.action)
  }

  /** The map the source fills: a later prediction for an action replaces an earlier one, and WAIT is natural recovery. */
  function ByAction(predictions: seq<Prediction>): map<ActionType, int> {
    if predictions == [] then map[]
    else
      var last := predictions[|predictions| - 1];
      ByAction(predictions[..|predictions| - 1])[last.action := last.probability]
  }

  /** What a ranking is: one scored candidate for every action, best first, ranks 1 to n. */
  ghost predicate IsRanking(r: seq<Candidate>, s: Setting, natural: int, byAction: map<ActionType, int>) {
    && (forall i :: 0 <= i < |r| ==> r[i].action in byAction)
    && (forall i :: 0 <= i < |r| ==> r[i] == Scored(s, natural, r[i].action, byAction[r[i].action]).(rank := i + 1))
    && (forall i, j :: 0 <= i < j < |r| ==> Better(r[i], r[j]))
    && (forall a :: a in byAction ==> exists i :: 0 <= i < |r| && r[i].action == a)
  }

  lemma BetterIsWeakOrder(cs: seq<Candidate>)
    ensures WeakOrder(Better, cs)
  {
  }

  lemma NamesAreDistinct(a: ActionType, b: ActionType)
    requires NameOrder(a) == NameOrder(b)
    ensures a == b
  {
  }

  /** The scored candidates of a set of actions, in some order. */
  ghost predicate Covers(cs: seq<Candidate>, s: Setting, natural: int, byAction: map<ActionType, int>, done: set<ActionType>) {
    && (forall i :: 0 <= i < |cs| ==> cs[i].action in done && cs[i].action in byAction
                                      && cs[i] == Scored(s, natural, cs[i].action, byAction[cs[i].action]))
    && (forall i, j :: 0 <= i < j < |cs| ==> cs[i].action != cs[j].action)
    && (forall a :: a in done ==> exists i :: 0 <= i < |cs| && cs[i].action == a)
  }

  method FillMap(predictions: seq<Prediction>) returns (byAction: map<ActionType, int>)
    ensures byAction == ByAction(predictions)
  {
    byAction := map[];
    for i := 0 to |predictions|
      invariant byAction == ByAction(predictions[..i])
    {
      assert predictions[..i + 1][..i] == predictions[..i];
      byAction := byAction[predictions[i].action := predictions[i].probability];
    }
    assert predictions[..|predictions|] == predictions;
  }

  /** Scores every entry of the map, visiting it in an arbitrary order as Go does. */
  method ScoreAll(s: Setting, natural: int, byAction: map<ActionType, int>) returns (candidates: seq<Candidate>)
    ensures Covers(candidates, s, natural, byAction, byAction.Keys)
    ensures Wait in byAction ==> |candidates| > 0
  {
    candidates := [];
    var pending := byAction.Keys;
    ghost var done := {};
    while pending != {}
      invariant pending <= byAction.Keys && done == byAction.Keys - pending
      invariant Covers(candidates, s, natural, byAction, done)
      decreases pending
    {
      var a :| a in pending;
      CoversGrows(candidates, s, natural, byAction, done, a);
      candidates := candidates + [Scored(s, natural, a, byAction[a])];
      pending := pending - {a};
      done := done + {a};
    }
    assert done == byAction.Keys;
  }

  function Numbered(sorted: seq<Candidate>): seq<Candidate> {
    seq(|sorted|, i requires 0 <= i < |sorted| => sorted[i].(rank := i + 1))
  }

  method AssignRanks(sorted: seq<Candidate>) returns (ranked: seq<Candidate>)
    ensures ranked == Numbered(sorted)
  {
    ranked := sorted;
    for i := 0 to |sorted|
      invariant |ranked| == |sorted|
      invariant forall j :: 0 <= j < i ==> ranked[j] == sorted[j].(rank := j + 1)
      invariant forall j :: i <= j < |ranked| ==> ranked[j] == sorted[j]
    {
      ranked := ranked[i := ranked[i].(rank := i + 1)];
    }
  }

  // ----- the order of the map does not matter -----

  const ACTIONS: seq<ActionType> :=
    [Wait, RetryNow, RetryLater, SendReminder, SendPaymentLink, SendCheckoutRecoveryLink, RequestPaymentMethodUpdate,
     SuggestAlternateMethod, WaitForPromiseToPay, Retention, EscalateToHuman, StopAction]

  /** The scored candidates of the map, in one fixed order. */
  function InOrder(s: Setting, natural: int, byAction: map<ActionType, int>, actions: seq<ActionType>): seq<Candidate> {
    if actions == [] then []
    else
      var before := InOrder(s, natural, byAction, actions[..|actions| - 1]);
      var a := actions[|actions| - 1];
      if a in byAction then before + [Scored(s, natural, a, byAction[a])] else before
  }

  /** The ranking, as a function of the map alone. */
  function Ranking(s: Setting, natural: int, byAction: map<ActionType, int>): seq<Candidate> {
    Numbered(Sort(Better, InOrder(s, natural, byAction, ACTIONS)))
  }

  lemma {:induction false} InOrderCovers(s: Setting, natural: int, byAction: map<ActionType, int>, actions: seq<ActionType>)
    requires forall i, j :: 0 <= i < j < |actions| ==> actions[i] != actions[j]
    ensures Covers(InOrder(s, natural, byAction, actions), s, natural, byAction, set a | a in actions && a in byAction)
  {
    if actions != [] {
      var init := actions[..|actions| - 1];
      var a := actions[|actions| - 1];
      InOrderCovers(s, natural, byAction, init);
      var done := set x | x in init && x in byAction;
      assert a !in init;
      if a in byAction {
        CoversGrows(InOrder(s, natural, byAction, init), s, natural, byAction, done, a);
        assert (set x | x in actions && x in byAction) == done + {a};
      } else {
        assert (set x | x in actions && x in byAction) == done;
      }
    }
  }

  lemma ActionsAreAll(byAction: map<ActionType, int>)
    ensures (set a | a in ACTIONS && a in byAction) == byAction.Keys
    ensures forall i, j :: 0 <= i < j < |ACTIONS| ==> ACTIONS[i] != ACTIONS[j]
  {
    forall a ensures a in ACTIONS {
      match a {
        case Wait => assert ACTIONS[0] == a;
        case RetryNow => assert ACTIONS[1] == a;
        case RetryLater => assert ACTIONS[2] == a;
        case SendReminder => assert ACTIONS[3] == a;
        case SendPaymentLink => assert ACTIONS[4] == a;
        case SendCheckoutRecoveryLink => assert ACTIONS[5] == a;
        case RequestPaymentMethodUpdate => assert ACTIONS[6] == a;
        case SuggestAlternateMethod => assert ACTIONS[7] == a;
        case WaitForPromiseToPay => assert ACTIONS[8] == a;
        case Retention => assert ACTIONS[9] == a;
        case EscalateToHuman => assert ACTIONS[10] == a;
        case StopAction => assert ACTIONS[11] == a;
      }
    }
  }

  /** Two lists that cover the same actions are permutations of each other. */
  lemma CoversPermute(cs: seq<Candidate>, ds: seq<Candidate>, s: Setting, natural: int, byAction: map<ActionType, int>, done: set<ActionType>)
    requires Covers(cs, s, natural, byAction, done) && Covers(ds, s, natural, byAction, done)
    ensures multiset(cs) == multiset(ds)
  {
    forall x ensures multiset(cs)[x] == multiset(ds)[x] {
      OnceEach(cs, x);
      OnceEach(ds, x);
      CoveredBoth(cs, ds, s, natural, byAction, done, x);
      CoveredBoth(ds, cs, s, natural, byAction, done, x);
      assert x in cs <==> x in multiset(cs);
      assert x in ds <==> x in multiset(ds);
    }
  }

  lemma CoveredBoth(cs: seq<Candidate>, ds: seq<Candidate>, s: Setting, natural: int, byAction: map<ActionType, int>,
                    done: set<ActionType>, x: Candidate)
    requires Covers(cs, s, natural, byAction, done) && Covers(ds, s, natural, byAction, done)
    ensures x in cs ==> x in ds
  {
    if x in cs {
      var i :| 0 <= i < |cs| && cs[i] == x;
      var k :| 0 <= k < |ds| && ds[k].action == x.action;
      assert ds[k] == x;
    }
  }

  lemma CoversSortsTheSame(cs: seq<Candidate>, s: Setting, natural: int, byAction: map<ActionType, int>)
    requires Covers(cs, s, natural, byAction, byAction.Keys)
    ensures Numbered(Sort(Better, cs)) == Ranking(s, natural, byAction)
  {
    var ds := InOrder(s, natural, byAction, ACTIONS);
    MapIsCovered(s, natural, byAction);
    CoversPermute(cs, ds, s, natural, byAction, byAction.Keys);
    BetterIsWeakOrder(cs);
    CoversComparable(cs, s, natural, byAction);
    SortIgnoresInputOrder(Better, cs, ds);
  }

  lemma CoversComparable(cs: seq<Candidate>, s: Setting, natural: int, byAction: map<ActionType, int>)
    requires Covers(cs, s, natural, byAction, byAction.Keys)
    ensures Comparable(Better, cs)
  {
    forall x, y | x in cs && y in cs && x != y ensures Better(x, y) || Better(y, x) {
      if NameOrder(x.action) == NameOrder(y.action) { NamesAreDistinct(x.action, y.action); }
    }
  }

  /**
   * Ranks the predicted actions and WAIT. The result is a function of the map alone, so the order in
   * which Go happens to visit the map is invisible.
   */
  method Rank(s: Setting, predictions: seq<Prediction>, natural: int) returns (ranked: seq<Candidate>, selected: Candidate)
    ensures ranked == Ranking(s, natural, ByAction(predictions)[Wait := natural])
    ensures |ranked| > 0 && selected == ranked[0]
  {
    var byAction := FillMap(predictions);
    byAction := byAction[Wait := natural];
    var candidates := ScoreAll(s, natural, byAction);
    ranked := AssignRanks(Sort(Better, candidates));
    CoversSortsTheSame(candidates, s, natural, byAction);
    selected := ranked[0];
  }

  lemma NumberedIsRanking(cs: seq<Candidate>, sorted: seq<Candidate>, ranked: seq<Candidate>,
                          s: Setting, natural: int, byAction: map<ActionType, int>)
    requires Covers(cs, s, natural, byAction, byAction.Keys) && sorted == Sort(Better, cs)
    requires |ranked| == |sorted| && forall i :: 0 <= i < |sorted| ==> ranked[i] == sorted[i].(rank := i + 1)
    ensures IsRanking(ranked, s, natural, byAction)
  {
    SortedCovers(cs, s, natural, byAction);
    forall i, j | 0 <= i < j < |ranked| ensures Better(ranked[i], ranked[j]) {
      assert Better(sorted[i], sorted[j]);
    }
    forall a | a in byAction ensures exists i :: 0 <= i < |ranked| && ranked[i].action == a {
      var i :| 0 <= i < |sorted| && sorted[i].action == a;
      assert ranked[i].action == a;
    }
  }

  lemma MapIsCovered(s: Setting, natural: int, byAction: map<ActionType, int>)
    ensures Covers(InOrder(s, natural, byAction, ACTIONS), s, natural, byAction, byAction.Keys)
  {
    ActionsAreAll(byAction);
    InOrderCovers(s, natural, byAction, ACTIONS);
  }

  /** The ranking holds every action of the map once, scored, best first, with ranks 1 to n. */
  lemma RankingIsRanking(s: Setting, natural: int, byAction: map<ActionType, int>)
    ensures IsRanking(Ranking(s, natural, byAction), s, natural, byAction)
  {
    var cs := InOrder(s, natural, byAction, ACTIONS);
    MapIsCovered(s, natural, byAction);
    var sorted := Sort(Better, cs);
    NumberedIsRanking(cs, sorted, Numbered(sorted), s, natural, byAction);
  }

  lemma CoversGrows(cs: seq<Candidate>, s: Setting, natural: int, byAction: map<ActionType, int>, done: set<ActionType>, a: ActionType)
    requires Covers(cs, s, natural, byAction, done) && a !in done && a in byAction
    ensures Covers(cs + [Scored(s, natural, a, byAction[a])], s, natural, byAction, done + {a})
  {
    var cs' := cs + [Scored(s, natural, a, byAction[a])];
    forall b | b in done + {a} ensures exists i :: 0 <= i < |cs'| && cs'[i].action == b {
      if b == a {
        assert cs'[|cs|].action == a;
      } else {
        var i :| 0 <= i < |cs| && cs[i].action == b;
        assert cs'[i].action == b;
      }
    }
  }

  lemma SortedCovers(cs: seq<Candidate>, s: Setting, natural: int, byAction: map<ActionType, int>)
    requires Covers(cs, s, natural, byAction, byAction.Keys)
    ensures var r := Sort(Better, cs);
            && (forall i :: 0 <= i < |r| ==>
                  r[i].action in byAction && r[i] == Scored(s, natural, r[i].action, byAction[r[i].action]))
            && (forall i, j :: 0 <= i < j < |r| ==> Better(r[i], r[j]))
            && (forall a :: a in byAction ==> exists i :: 0 <= i < |r| && r[i].action == a)
  {
    var r := Sort(Better, cs);
    BetterIsWeakOrder(cs);
    SortIsSorted(Better, cs);
    SameElements(r, cs);
    forall i | 0 <= i < |r|
      ensures r[i].action in byAction && r[i] == Scored(s, natural, r[i].action, byAction[r[i].action])
    {
      assert r[i] in r;
      assert r[i] in cs;
    }
    forall i, j | 0 <= i < j < |r| ensures Better(r[i], r[j]) {
      DistinctAfterSort(cs, r, i, j);
      if NameOrder(r[i].action) == NameOrder(r[j].action) { NamesAreDistinct(r[i].action, r[j].action); }
    }
    forall a | a in byAction ensures exists i :: 0 <= i < |r| && r[i].action == a {
      var k :| 0 <= k < |cs| && cs[k].action == a;
      assert cs[k] in r;
    }
  }

  /** A permutation of candidates with distinct actions still has distinct actions. */
  lemma DistinctAfterSort(cs: seq<Candidate>, r: seq<Candidate>, i: nat, j: nat)
    requires multiset(cs) == multiset(r) && i < j < |r|
    requires forall i, j :: 0 <= i < j < |cs| ==> cs[i].action != cs[j].action
    ensures r[i].action != r[j].action
  {
    SameElements(cs, r);
    assert r[i] in cs && r[j] in cs;
    if r[i] == r[j] {
      assert r == r[..j] + [r[j]] + r[j + 1..];
      assert r[..j][i] == r[i];
      assert multiset(r)[r[i]] >= 2;
      OnceEach(cs, r[i]);
      assert false;
    }
  }

  lemma {:induction false} OnceEach(cs: seq<Candidate>, x: Candidate)
    requires forall i, j :: 0 <= i < j < |cs| ==> cs[i].action != cs[j].action
    ensures multiset(cs)[x] <= 1
  {
    if cs != [] {
      var rest := cs[1..];
      assert cs == [cs[0]] + rest;
      OnceEach(rest, x);
      forall k | 0 <= k < |rest| ensures rest[k] != cs[0] {
        assert rest[k] == cs[k + 1];
      }
      assert cs[0] !in rest;
      assert multiset(rest)[cs[0]] == 0;
    }
  }

  // ----- laws -----

  /** Inputs the source guarantees: a positive 64-bit amount, and penalty rates between 0 and 100%. */
  predicate RealInputs(s: Setting) {
    0 < s.amount && Fits64(s.amount) && 0 <= s.fatigueBps <= 10000 && 0 <= s.riskBps <= 10000
  }

  /** WAIT is the zero of the scale, under every objective and every vector of weights. */
  lemma WaitScoresZero(s: Setting, natural: int)
    ensures Scored(s, natural, Wait, natural).score == 0 && Scored(s, natural, Wait, natural).nerv == 0
  {
    var w := s.weights;
    assert s.amount * 0 == 0 && 0 * w.revenue == 0 && 0 * w.retention == 0 && 0 * w.contact == 0 && 0 * w.cost == 0
           && 0 * w.fatigue == 0 && 0 * w.risk == 0;
    assert Quo(0, 10000) == 0 && Quo(0, 1_000_000) == 0 && Quo(0, 2) == 0;
  }

  /** So the selected candidate never scores below zero, whatever the merchant's profile. */
  lemma SelectedScoreNonNegative(s: Setting, natural: int, byAction: map<ActionType, int>)
    ensures var r := Ranking(s, natural, byAction[Wait := natural]); |r| > 0 && r[0].score >= 0
  {
    var r := Ranking(s, natural, byAction[Wait := natural]);
    RankingIsRanking(s, natural, byAction[Wait := natural]);
    assert Wait in byAction[Wait := natural];
    var i :| 0 <= i < |r| && r[i].action == Wait;
    WaitScoresZero(s, natural);
    if i > 0 { assert Better(r[0], r[i]); }
  }

  /** Without a profile every objective only subtracts penalties from NERV. */
  lemma ScoreAtMostNerv(s: Setting, natural: int, a: ActionType, probability: int)
    requires s.profileVersion <= 0 && RealInputs(s)
    ensures Scored(s, natural, a, probability).score <= Scored(s, natural, a, probability).nerv
  {
    FractionFits(s.amount, s.fatigueBps, 10000);
    FractionFits(s.amount, s.riskBps, 10000);
    FractionFits(s.amount, RETENTION_INCENTIVE_BPS, 10000);
  }

  /**
   * Without a profile the selected NERV is not negative, so the gate never calls the selection
   * economically unjustified.
   */
  lemma SelectedNervNonNegative(s: Setting, natural: int, byAction: map<ActionType, int>, threshold: int)
    requires RealInputs(s) && s.profileVersion <= 0
    ensures var r := Ranking(s, natural, byAction[Wait := natural]);
            && |r| > 0 && r[0].nerv >= 0
            && EconomicGate.Evaluate(r[0].action, r[0].nerv, threshold).reason != EconomicGate.EconomicallyUnjustified
  {
    var r := Ranking(s, natural, byAction[Wait := natural]);
    RankingIsRanking(s, natural, byAction[Wait := natural]);
    SelectedScoreNonNegative(s, natural, byAction);
    ScoreAtMostNerv(s, natural, r[0].action, byAction[Wait := natural][r[0].action]);
  }

  const CARELESS: Setting := Setting(1000, 0, 0, 0, 1, MaximizeNetRecovery, Weights(10000, 0, 0, 0, 0, 0))

  /** With a profile the selected NERV can be negative: weights that ignore cost select a losing action. */
  lemma ProfileCanSelectNegativeNerv(byAction: map<ActionType, int>)
    requires byAction == map[RetryNow := 20_000, Wait := 0]
    ensures var r := Ranking(CARELESS, 0, byAction); |r| > 0 && r[0].nerv < 0
  {
    LosingScores();
    BestIsSelected(CARELESS, 0, byAction, RetryNow);
  }

  /** The action that beats all others is the one selected. */
  lemma BestIsSelected(s: Setting, natural: int, byAction: map<ActionType, int>, a: ActionType)
    requires a in byAction
    requires forall b :: b in byAction && b != a ==> !Better(Scored(s, natural, b, byAction[b]), Scored(s, natural, a, byAction[a]))
    ensures var r := Ranking(s, natural, byAction); |r| > 0 && r[0] == Scored(s, natural, a, byAction[a]).(rank := 1)
  {
    var r := Ranking(s, natural, byAction);
    RankingIsRanking(s, natural, byAction);
    var i :| 0 <= i < |r| && r[i].action == a;
    HeadIsBest(r, s, natural, byAction, i);
  }

  lemma HeadIsBest(r: seq<Candidate>, s: Setting, natural: int, byAction: map<ActionType, int>, i: nat)
    requires IsRanking(r, s, natural, byAction) && i < |r|
    ensures r[0] == r[i] || Better(r[0], r[i])
  {
    assert i == 0 || Better(r[0], r[i]);
  }

  lemma LosingScores()
    ensures Scored(CARELESS, 0, RetryNow, 20_000).nerv < 0 && Scored(CARELESS, 0, RetryNow, 20_000).score == 20
    ensures Scored(CARELESS, 0, Wait, 0).score == 0
  {
    WaitScoresZero(CARELESS, 0);
    assert Quo(20_000_000, 1_000_000) == 20;
    assert Quo(200_000, 10000) == 20;
  }

  // ----- profiles that do not select a loss -----

  /** Weights as the database admits them, and amounts small enough for every weighted term to fit in 64 bits. */
  predicate ProfileInputs(s: Setting) {
    && 0 < s.amount < TWO_63 / 16 && 0 <= s.fatigueBps <= 10000 && 0 <= s.riskBps <= 10000
    && var w := s.weights;
    && 0 <= w.revenue <= 20000 && 0 <= w.retention <= 20000 && 0 <= w.contact <= 20000
    && 0 <= w.cost <= 20000 && 0 <= w.fatigue <= 20000 && 0 <= w.risk <= 20000
  }

  /** Every loss weighs at least as much as the gain it is set against; fatigue comes with the weight of the contact itself. */
  predicate Careful(w: Weights) {
    w.cost >= w.revenue + w.retention && w.fatigue + w.contact >= w.revenue + w.retention && w.risk >= w.revenue
  }

  /** Weights in whole multiples, for which no weighted term is truncated. */
  predicate Whole(w: Weights) {
    && w.revenue % 10000 == 0 && w.retention % 10000 == 0 && w.contact % 10000 == 0
    && w.cost % 10000 == 0 && w.fatigue % 10000 == 0 && w.risk % 10000 == 0
  }

  lemma TermFits(x: int, w: int)
    requires -TWO_63 / 2 <= x <= TWO_63 / 2 - 1 && 0 <= w <= 20000
    ensures MulDiv(x, w, 10000) == Quo(x * w, 10000) && (x >= 0 ==> x * w >= 0) && (x <= 0 ==> x * w <= 0)
  {
    FractionBounds(x, w, 20000);
    var product := x * w;
    assert -TWO_63 * 10000 <= product < TWO_63 * 10000;
    QuoFits(product);
  }

  lemma QuoFits(product: int)
    requires -TWO_63 * 10000 <= product < TWO_63 * 10000
    ensures Fits64(Quo(product, 10000))
  {
  }

  lemma WholeTerm(x: int, w: int)
    requires w % 10000 == 0
    ensures 10000 * Quo(x * w, 10000) == x * w
  {
    var n := w / 10000;
    assert w == n * 10000;
    Regroup(x, n, 10000);
    QuoOfMultiple(x * n, 10000);
  }

  lemma Regroup(x: int, n: int, d: int)
    ensures x * (n * d) == (x * n) * d
  {
  }

  /** A weighted term in ten-thousandths: truncated toward zero, and exact for a whole weight. */
  lemma WeightedTerm(x: int, w: int)
    requires -TWO_63 / 2 <= x <= TWO_63 / 2 - 1 && 0 <= w <= 20000
    ensures var term := 10000 * MulDiv(x, w, 10000);
      && (x >= 0 ==> 0 <= term <= x * w < term + 10000) && (x <= 0 ==> term - 10000 < x * w <= term <= 0)
      && (w % 10000 == 0 ==> term == x * w)
  {
    TermFits(x, w);
    if w % 10000 == 0 {
      WholeTerm(x, w);
    }
  }

  /** The arithmetic of the bound: what a positive score says of gross value less all losses. */
  lemma PositiveScore(w: Weights, gross: int, cost: int, fatigue: int, risk: int, contact: int)
    requires Careful(w) && Bounded(w, gross, cost, fatigue, risk, contact)
    requires MulDiv(gross, w.revenue, 10000) + MulDiv(gross - risk, w.retention, 10000) - MulDiv(contact, w.contact, 10000)
             - MulDiv(cost, w.cost, 10000) - MulDiv(fatigue, w.fatigue, 10000) - MulDiv(risk, w.risk, 10000) > 0
    ensures (w.revenue + w.retention) * (gross - cost - fatigue - risk) > -40000
    ensures Whole(w) ==> gross - cost - fatigue - risk > 0
  {
    var both, nerv := w.revenue + w.retention, gross - cost - fatigue - risk;
    TermsRelate(w, gross, cost, fatigue, risk, contact);
    TermsAddUp(MulDiv(gross, w.revenue, 10000), MulDiv(gross - risk, w.retention, 10000), MulDiv(contact, w.contact, 10000),
               MulDiv(cost, w.cost, 10000), MulDiv(fatigue, w.fatigue, 10000), MulDiv(risk, w.risk, 10000),
               gross * w.revenue, (gross - risk) * w.retention, cost * both, fatigue * both, risk * w.revenue, Whole(w));
    Weighing(w.revenue, w.retention, gross, cost, fatigue, risk);
    if Whole(w) {
      PositiveFactor(nerv, both);
    }
  }

  predicate Bounded(w: Weights, gross: int, cost: int, fatigue: int, risk: int, contact: int) {
    && 0 <= w.revenue <= 20000 && 0 <= w.retention <= 20000 && 0 <= w.contact <= 20000
    && w.cost <= 20000 && 0 <= w.fatigue <= 20000 && w.risk <= 20000
    && -TWO_63 / 8 <= gross <= TWO_63 / 8 && 0 <= cost <= TWO_63 / 8 && 0 <= fatigue <= TWO_63 / 8
    && 0 <= risk <= TWO_63 / 8 && fatigue <= contact <= TWO_63 / 8
  }

  /** Six truncated terms beside the exact products they are set against. */
  predicate Related(t1: int, t2: int, t3: int, t4: int, t5: int, t6: int, p1: int, p2: int, l4: int, l5: int, l6: int, whole: bool) {
    && t3 >= 0 && t4 >= 0 && t5 >= 0 && t6 >= 0
    && (10000 * t1 <= p1 || (t1 <= 0 && t2 <= 0)) && 10000 * t2 - 10000 < p2
    && l4 < 10000 * t4 + 10000 && l5 < 10000 * t5 + 10000 * t3 + 20000 && l6 < 10000 * t6 + 10000
    && (whole ==> p1 == 10000 * t1 && p2 == 10000 * t2 && l4 <= 10000 * t4 && l5 <= 10000 * t5 + 10000 * t3 && l6 <= 10000 * t6)
  }

  lemma TermsRelate(w: Weights, gross: int, cost: int, fatigue: int, risk: int, contact: int)
    requires Careful(w) && Bounded(w, gross, cost, fatigue, risk, contact)
    ensures Related(MulDiv(gross, w.revenue, 10000), MulDiv(gross - risk, w.retention, 10000), MulDiv(contact, w.contact, 10000),
               MulDiv(cost, w.cost, 10000), MulDiv(fatigue, w.fatigue, 10000), MulDiv(risk, w.risk, 10000),
               gross * w.revenue, (gross - risk) * w.retention, cost * (w.revenue + w.retention), fatigue * (w.revenue + w.retention),
               risk * w.revenue, Whole(w))
  {
    Gains(gross, risk, w.revenue, w.retention);
    WeightedLoss(cost, w.revenue + w.retention, w.cost);
    WeightedPair(fatigue, contact, w.revenue + w.retention, w.fatigue, w.contact);
    WeightedLoss(risk, w.revenue, w.risk);
  }

  /** The two gains, truncated: the first is not above its exact value unless both are losses. */
  lemma Gains(gross: int, risk: int, revenue: int, retention: int)
    requires -TWO_63 / 8 <= gross <= TWO_63 / 8 && 0 <= risk <= TWO_63 / 8 && 0 <= revenue <= 20000 && 0 <= retention <= 20000
    ensures var t1, t2 := MulDiv(gross, revenue, 10000), MulDiv(gross - risk, retention, 10000);
      && (10000 * t1 <= gross * revenue || (t1 <= 0 && t2 <= 0)) && 10000 * t2 - 10000 < (gross - risk) * retention
      && (revenue % 10000 == 0 ==> 10000 * t1 == gross * revenue)
      && (retention % 10000 == 0 ==> 10000 * t2 == (gross - risk) * retention)
  {
    WeightedTerm(gross, revenue);
    WeightedTerm(gross - risk, retention);
  }

  lemma PositiveFactor(x: int, w: int)
    requires w >= 0 && w * x > 0
    ensures x > 0
  {
  }

  /** A loss under a weight no lighter than `light`, truncated, costs the score at least its light weight, less one unit. */
  lemma WeightedLoss(x: int, light: int, heavy: int)
    requires 0 <= x <= TWO_63 / 8 && 0 <= light <= heavy <= 20000
    ensures MulDiv(x, heavy, 10000) >= 0 && x * light < 10000 * MulDiv(x, heavy, 10000) + 10000
    ensures heavy % 10000 == 0 ==> x * light <= 10000 * MulDiv(x, heavy, 10000)
  {
    WeightedTerm(x, heavy);
    HeavierTerm(x, light, heavy);
  }

  /** Fatigue and the contact that causes it weigh together. */
  lemma WeightedPair(fatigue: int, contact: int, light: int, heavy: int, extra: int)
    requires 0 <= fatigue <= contact <= TWO_63 / 8 && 0 <= heavy <= 20000 && 0 <= extra <= 20000 && 0 <= light <= heavy + extra
    ensures MulDiv(fatigue, heavy, 10000) >= 0 && MulDiv(contact, extra, 10000) >= 0
    ensures fatigue * light < 10000 * MulDiv(fatigue, heavy, 10000) + 10000 * MulDiv(contact, extra, 10000) + 20000
    ensures heavy % 10000 == 0 && extra % 10000 == 0 ==> fatigue * light <= 10000 * MulDiv(fatigue, heavy, 10000) + 10000 * MulDiv(contact, extra, 10000)
  {
    WeightedTerm(fatigue, heavy);
    WeightedTerm(contact, extra);
    HeavierTerm(fatigue, light, heavy + extra);
    Regather(fatigue, heavy, extra);
    HeavierTerm(extra, fatigue, contact);
    assert extra * fatigue == fatigue * extra && extra * contact == contact * extra;
  }

  lemma Regather(x: int, a: int, b: int)
    ensures x * (a + b) == x * a + x * b
  {
  }

  /** At most five truncations, each of less than one unit, favour the score. */
  lemma TermsAddUp(t1: int, t2: int, t3: int, t4: int, t5: int, t6: int, p1: int, p2: int, l4: int, l5: int, l6: int, whole: bool)
    requires Related(t1, t2, t3, t4, t5, t6, p1, p2, l4, l5, l6, whole) && t1 + t2 - t3 - t4 - t5 - t6 > 0
    ensures p1 + p2 - l4 - l5 - l6 > -40000 && (whole ==> p1 + p2 - l4 - l5 - l6 > 0)
  {
  }

  lemma HeavierTerm(x: int, light: int, heavy: int)
    requires x >= 0 && light <= heavy
    ensures x * light <= x * heavy
  {
  }

  lemma Weighing(a: int, b: int, gross: int, cost: int, fatigue: int, risk: int)
    ensures (a + b) * (gross - cost - fatigue - risk)
         == gross * a + (gross - risk) * b - cost * (a + b) - fatigue * (a + b) - risk * a
  {
  }

  lemma GrossFits(amount: int, uplift: int)
    requires 0 < amount < TWO_63 / 16 && -1_000_000 <= uplift <= 1_000_000
    ensures -amount <= MulDiv(amount, uplift, 1_000_000) <= amount
  {
    if uplift >= 0 {
      FractionFits(amount, uplift, 1_000_000);
    } else {
      FractionFits(-amount, -uplift, 1_000_000);
      assert (-amount) * (-uplift) == amount * uplift;
    }
  }

  lemma ShareFits(amount: int, bps: int)
    requires 0 < amount < TWO_63 / 16 && 0 <= bps <= 10000
    ensures 0 <= MulDiv(amount, bps, 10000) <= amount
  {
    FractionFits(amount, bps, 10000);
  }

  lemma IncentiveFits(s: Setting, a: ActionType)
    requires 0 < s.amount < TWO_63 / 16
    ensures 0 <= Incentive(s, a) <= s.amount
  {
    ShareFits(s.amount, RETENTION_INCENTIVE_BPS);
  }

  /** The candidate's amounts stay within the size of the case. */
  lemma AmountsFit(s: Setting, natural: int, a: ActionType, probability: int)
    requires ProfileInputs(s) && 0 <= natural <= 1_000_000 && 0 <= probability <= 1_000_000
    ensures var k := Scored(s, natural, a, probability);
      && -s.amount <= k.gross <= s.amount && 0 <= k.fatigue <= s.amount && 0 <= k.risk <= s.amount && 0 <= k.incentive <= s.amount
  {
    GrossFits(s.amount, probability - natural);
    ShareFits(s.amount, s.fatigueBps);
    ShareFits(s.amount, s.riskBps);
    IncentiveFits(s, a);
  }

  /** A candidate that scores above zero under careful weights loses less than the truncations of its terms can hide, and nothing under whole ones. */
  lemma CarefulScore(s: Setting, natural: int, a: ActionType, probability: int)
    requires s.profileVersion > 0 && ProfileInputs(s) && Careful(s.weights)
    requires 0 <= natural <= 1_000_000 && 0 <= probability <= 1_000_000
    requires Scored(s, natural, a, probability).score > 0
    ensures (s.weights.revenue + s.weights.retention) * Scored(s, natural, a, probability).nerv > -40000
    ensures Whole(s.weights) ==> Scored(s, natural, a, probability).nerv > 0
  {
    var k := Scored(s, natural, a, probability);
    AmountsFit(s, natural, a, probability);
    var cost := k.cost.channel + k.cost.operational + k.incentive;
    PositiveScore(s.weights, k.gross, cost, k.fatigue, k.risk, if k.fatigue > 0 then s.amount else 0);
  }

  /** Probabilities are between 0 and 1. */
  predicate RealPredictions(natural: int, byAction: map<ActionType, int>) {
    0 <= natural <= 1_000_000 && forall a :: a in byAction ==> 0 <= byAction[a] <= 1_000_000
  }

  /**
   * Under careful weights, whatever the objective, the selected NERV is not negative if the weights are
   * whole, and otherwise less than 40000 parts of the combined weight below zero: the truncations of the
   * weighted terms are all that can hide a loss.
   */
  lemma CarefulProfileSelectsNoLoss(s: Setting, natural: int, byAction: map<ActionType, int>)
    requires s.profileVersion > 0 && ProfileInputs(s) && Careful(s.weights) && RealPredictions(natural, byAction)
    ensures var r := Ranking(s, natural, byAction[Wait := natural]);
      && |r| > 0 && (r[0].nerv >= 0 || (s.weights.revenue + s.weights.retention) * r[0].nerv > -40000)
      && (Whole(s.weights) ==> r[0].nerv >= 0)
  {
    var all := byAction[Wait := natural];
    var r := Ranking(s, natural, all);
    RankingIsRanking(s, natural, all);
    SelectedScoreNonNegative(s, natural, byAction);
    WaitScoresZero(s, natural);
    assert Wait in all;
    var i :| 0 <= i < |r| && r[i].action == Wait;
    if r[0].score > 0 {
      CarefulScore(s, natural, r[0].action, all[r[0].action]);
    } else if i > 0 {
      assert Better(r[0], r[i]);
    }
  }

  // ----- and exactly which whole weights those are -----

  /** Weights as the database admits them. */
  predicate Admitted(w: Weights) {
    && 0 <= w.revenue <= 20000 && 0 <= w.retention <= 20000 && 0 <= w.contact <= 20000
    && 0 <= w.cost <= 20000 && 0 <= w.fatigue <= 20000 && 0 <= w.risk <= 20000
  }

  function SelectedNerv(s: Setting, natural: int, byAction: map<ActionType, int>): int {
    var r := Ranking(s, natural, byAction[Wait := natural]);
    if |r| > 0 then r[0].nerv else 0
  }

  /** Inputs that a profile with these weights may meet. */
  predicate Meets(w: Weights, s: Setting, natural: int, byAction: map<ActionType, int>) {
    s.profileVersion > 0 && s.weights == w && ProfileInputs(s) && RealPredictions(natural, byAction)
  }

  /** No input makes a profile with these weights select a loss. */
  ghost predicate NeverLoses(w: Weights) {
    forall s, natural, byAction :: Meets(w, s, natural, byAction) ==> SelectedNerv(s, natural, byAction) >= 0
  }

  /** A profile with whole weights never selects a loss if and only if its weights are careful. */
  lemma NeverLosesExactlyWhen(w: Weights)
    requires Admitted(w) && Whole(w)
    ensures NeverLoses(w) <==> Careful(w)
  {
    if Careful(w) {
      forall s, natural, byAction | Meets(w, s, natural, byAction) ensures SelectedNerv(s, natural, byAction) >= 0 {
        CarefulProfileSelectsNoLoss(s, natural, byAction);
      }
    } else {
      var s, action, probability := CarelessCase(w);
      LossIsSelected(w, s, action, probability);
    }
  }

  /** Careless weights have an input on which they select a loss: of cost, of risk, or of fatigue. */
  lemma CarelessCase(w: Weights) returns (s: Setting, action: ActionType, probability: int)
    requires Admitted(w) && Whole(w) && !Careful(w)
    ensures s.profileVersion > 0 && s.weights == w && ProfileInputs(s) && action != Wait && 0 <= probability <= 1_000_000
    ensures var k := Scored(s, 0, action, probability); k.score > 0 && k.nerv < 0
  {
    var both := w.revenue + w.retention;
    if w.cost < both {
      s, action, probability := Setting(1000, 0, 0, 0, 1, MaximizeNetRecovery, w), RetryNow, 34_000;
      CostIsIgnored(w, s);
    } else if w.risk < w.revenue {
      s, action, probability := Setting(1000, 0, 10000, 0, 1, MaximizeNetRecovery, w), RetryNow, 1_000_000;
      RiskIsIgnored(w, s);
    } else {
      s, action, probability := Setting(1000, 10000, 0, 0, 1, MaximizeNetRecovery, w), SendReminder, 1_000_000;
      FatigueIsIgnored(w, s);
    }
  }

  /** The weighted terms of whole weights, in units. */
  lemma WholeUnits(x: int, w: int)
    requires -TWO_63 / 2 <= x <= TWO_63 / 2 - 1 && 0 <= w <= 20000 && w % 10000 == 0
    ensures MulDiv(x, w, 10000) == x * (w / 10000)
  {
    WeightedTerm(x, w);
    Regroup(x, w / 10000, 10000);
  }

  /** 34 gained at a cost of 35. */
  lemma CostIsIgnored(w: Weights, s: Setting)
    requires Admitted(w) && Whole(w) && w.cost < w.revenue + w.retention && s == Setting(1000, 0, 0, 0, 1, MaximizeNetRecovery, w)
    ensures Scored(s, 0, RetryNow, 34_000).score > 0 && Scored(s, 0, RetryNow, 34_000).nerv == -1
  {
    var a, b, c := w.revenue / 10000, w.retention / 10000, w.cost / 10000;
    assert Quo(34_000_000, 1_000_000) == 34;
    NothingWeighs(w);
    WholeUnits(34, w.revenue);
    WholeUnits(34, w.retention);
    WholeUnits(35, w.cost);
    assert c <= a + b - 1 && a + b <= 4;
  }

  /** 1000 gained at a risk of 1000 and a cost of 35. */
  lemma RiskIsIgnored(w: Weights, s: Setting)
    requires Admitted(w) && Whole(w) && w.risk < w.revenue && s == Setting(1000, 0, 10000, 0, 1, MaximizeNetRecovery, w)
    ensures Scored(s, 0, RetryNow, 1_000_000).score > 0 && Scored(s, 0, RetryNow, 1_000_000).nerv == -35
  {
    var a, c, r := w.revenue / 10000, w.cost / 10000, w.risk / 10000;
    assert Quo(1_000_000_000, 1_000_000) == 1000 && Quo(10_000_000, 10000) == 1000;
    NothingWeighs(w);
    WholeUnits(1000, w.revenue);
    WholeUnits(35, w.cost);
    WholeUnits(1000, w.risk);
    assert r <= a - 1 && c <= 2;
  }

  /** 1000 gained with a fatigue of 1000 and a cost of 25. */
  lemma FatigueIsIgnored(w: Weights, s: Setting)
    requires Admitted(w) && Whole(w) && w.fatigue + w.contact < w.revenue + w.retention && s == Setting(1000, 10000, 0, 0, 1, MaximizeNetRecovery, w)
    ensures Scored(s, 0, SendReminder, 1_000_000).score > 0 && Scored(s, 0, SendReminder, 1_000_000).nerv == -25
  {
    var a, b, c, f, t := w.revenue / 10000, w.retention / 10000, w.cost / 10000, w.fatigue / 10000, w.contact / 10000;
    assert Quo(1_000_000_000, 1_000_000) == 1000 && Quo(10_000_000, 10000) == 1000;
    NothingWeighs(w);
    WholeUnits(1000, w.revenue);
    WholeUnits(1000, w.retention);
    WholeUnits(1000, w.contact);
    WholeUnits(25, w.cost);
    WholeUnits(1000, w.fatigue);
    assert f + t <= a + b - 1 && c <= 2;
  }

  lemma NothingWeighs(w: Weights)
    requires Admitted(w)
    ensures MulDiv(0, w.revenue, 10000) == 0 && MulDiv(0, w.retention, 10000) == 0 && MulDiv(0, w.contact, 10000) == 0
    ensures MulDiv(0, w.fatigue, 10000) == 0 && MulDiv(0, w.risk, 10000) == 0
  {
    assert Quo(0, 10000) == 0;
  }

  /** A losing candidate that scores above zero is selected over WAIT. */
  lemma LossIsSelected(w: Weights, s: Setting, action: ActionType, probability: int)
    requires Admitted(w) && s.profileVersion > 0 && s.weights == w && ProfileInputs(s) && action != Wait && 0 <= probability <= 1_000_000
    requires Scored(s, 0, action, probability).score > 0 && Scored(s, 0, action, probability).nerv < 0
    ensures !NeverLoses(w)
  {
    var byAction := map[action := probability];
    assert Meets(w, s, 0, byAction);
    WaitScoresZero(s, 0);
    BeatsWaiting(s, byAction, action, probability);
  }

  lemma BeatsWaiting(s: Setting, byAction: map<ActionType, int>, action: ActionType, probability: int)
    requires byAction == map[action := probability] && action != Wait
    requires Scored(s, 0, action, probability).score > 0 && Scored(s, 0, Wait, 0).score == 0
    ensures SelectedNerv(s, 0, byAction) == Scored(s, 0, action, probability).nerv
  {
    BestIsSelected(s, 0, byAction[Wait := 0], action);
  }

  const HALVES: Weights := Weights(5000, 0, 0, 5000, 5000, 5000)

  /** For weights that are not whole the bound of `CarefulProfileSelectsNoLoss` is not 0: truncated halves hide a loss of one unit. */
  lemma TruncationHidesALoss()
    ensures Careful(HALVES) && !NeverLoses(HALVES)
  {
    var s := Setting(1000, 10, 10, 0, 1, MaximizeNetRecovery, HALVES);
    HalvesScore(s);
    LossIsSelected(HALVES, s, SendReminder, 26_000);
  }

  lemma HalvesScore(s: Setting)
    requires s == Setting(1000, 10, 10, 0, 1, MaximizeNetRecovery, HALVES)
    ensures Scored(s, 0, SendReminder, 26_000).score == 1 && Scored(s, 0, SendReminder, 26_000).nerv == -1
  {
    assert Quo(26_000_000, 1_000_000) == 26 && Quo(10_000, 10000) == 1;
    assert Quo(130_000, 10000) == 13 && Quo(125_000, 10000) == 12 && Quo(5000, 10000) == 0 && Quo(0, 10000) == 0;
  }
}
