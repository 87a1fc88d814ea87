/** The ranking of actions read from outside: the amounts of each candidate, what it is worth under each objective, and who comes first. */
module Rankings {
  import opened Domain
  import opened Money
  import opened Optimizer

  /** `q` is `n / d`, truncated toward zero. */
  predicate Truncated(q: int, n: int, d: int) {
    (n >= 0 ==> q * d <= n < q * d + d) && (n <= 0 ==> q * d - d < n <= q * d)
  }

  const BY_CHANNEL: set<ActionType> :=
    {SendReminder, SendPaymentLink, SendCheckoutRecoveryLink, RequestPaymentMethodUpdate, SuggestAlternateMethod, Retention}

  /** What carrying an action out costs, besides its channel. */
  predicate Costs(a: ActionType, operational: int) {
    && (a in {RetryNow, RetryLater, RequestPaymentMethodUpdate} <==> operational == 35)
    && (a in {SendPaymentLink, SendCheckoutRecoveryLink} <==> operational == 45)
    && (a == SuggestAlternateMethod <==> operational == 30) && (a == WaitForPromiseToPay <==> operational == 10)
    && (a == Retention <==> operational == 100)
    && (a in {Wait, SendReminder, EscalateToHuman, StopAction} <==> operational == 0)
  }

  /** The amounts of a ranked candidate, in minor units. */
  predicate Amounts(s: Setting, k: Candidate) {
    && Truncated(k.gross, s.amount * k.uplift, 1_000_000)
    && k.cost.channel == (if k.action in BY_CHANNEL then 25 else 0) && Costs(k.action, k.cost.operational)
    && (if k.action in BY_CHANNEL then Truncated(k.fatigue, s.amount * s.fatigueBps, 10000) else k.fatigue == 0)
    && (if k.action == Wait then k.risk == 0 else Truncated(k.risk, s.amount * s.riskBps, 10000))
    && Gives(s, k.action, k.incentive)
    && k.nerv == k.gross - k.cost.channel - k.cost.operational - k.incentive - k.fatigue - k.risk
  }

  /** Five per cent off for RETENTION, no more than the merchant allows. */
  predicate Gives(s: Setting, a: ActionType, incentive: int) {
    if a != Retention then incentive == 0
    else if s.maxIncentive > 0 then
      incentive <= s.maxIncentive && (incentive == s.maxIncentive || Truncated(incentive, s.amount * 500, 10000))
      && incentive * 10000 <= s.amount * 500
    else Truncated(incentive, s.amount * 500, 10000)
  }

  /** What a candidate is worth to the merchant, by its amounts alone. */
  function Worth(s: Setting, k: Candidate): int {
    if s.profileVersion > 0 then
      var w, spent, reached := s.weights, k.cost.channel + k.cost.operational + k.incentive, if k.fatigue > 0 then s.amount else 0;
      Quo(w.revenue * k.gross, 10000) + Quo(w.retention * (k.gross - k.risk), 10000) - Quo(w.contact * reached, 10000)
      - Quo(w.cost * spent, 10000) - Quo(w.fatigue * k.fatigue, 10000) - Quo(w.risk * k.risk, 10000)
    else match s.objective
      case MinimizeContact => k.nerv - k.fatigue - k.fatigue
      case MinimizeRecoveryCost => k.nerv - k.cost.channel - k.cost.operational - k.incentive
      case MaximizeRetention => k.nerv - k.risk
      case Balanced => k.nerv - (k.fatigue + k.risk) / 2
      case MaximizeNetRecovery => k.nerv
  }

  lemma TruncatedIs(n: int, d: int)
    requires d > 0
    ensures Truncated(Quo(n, d), n, d)
  {
  }

  lemma GrossIs(amount: int, uplift: int)
    requires 0 < amount && Fits64(amount) && -1_000_000 <= uplift <= 1_000_000
    ensures MulDiv(amount, uplift, 1_000_000) == Quo(amount * uplift, 1_000_000)
  {
    if uplift >= 0 {
      FractionFits(amount, uplift, 1_000_000);
    } else {
      FractionFits(-amount, -uplift, 1_000_000);
      assert (-amount) * (-uplift) == amount * uplift;
    }
  }

  lemma CostsAre(a: ActionType)
    ensures var c := CostOf(a); Costs(a, c.operational) && c.channel == (if a in BY_CHANNEL then 25 else 0) && (c.contact <==> a in BY_CHANNEL)
  {
  }

  lemma IncentiveIs(s: Setting, a: ActionType)
    requires RealInputs(s)
    ensures Gives(s, a, Incentive(s, a))
  {
    FractionFits(s.amount, RETENTION_INCENTIVE_BPS, 10000);
    TruncatedIs(s.amount * RETENTION_INCENTIVE_BPS, 10000);
  }

  lemma ScoredAmounts(s: Setting, natural: int, a: ActionType, probability: int)
    requires RealInputs(s) && -1_000_000 <= probability - natural <= 1_000_000
    ensures Amounts(s, Scored(s, natural, a, probability))
  {
    GrossIs(s.amount, probability - natural);
    TruncatedIs(s.amount * (probability - natural), 1_000_000);
    FractionFits(s.amount, s.fatigueBps, 10000);
    TruncatedIs(s.amount * s.fatigueBps, 10000);
    FractionFits(s.amount, s.riskBps, 10000);
    TruncatedIs(s.amount * s.riskBps, 10000);
    CostsAre(a);
    IncentiveIs(s, a);
  }

  // ----- which predictions are ranked -----

  predicate LastFor(predictions: seq<Prediction>, a: ActionType, k: int) {
    0 <= k < |predictions| && predictions[k].action == a && forall j :: k < j < |predictions| ==> predictions[j].action != a
  }

  /** Only predicted actions are ranked, besides WAIT. */
  lemma {:induction false} PredictedAreRanked(predictions: seq<Prediction>, a: ActionType)
    ensures a in ByAction(predictions) <==> exists k :: 0 <= k < |predictions| && predictions[k].action == a
  {
    if predictions != [] {
      var n := |predictions| - 1;
      PredictedAreRanked(predictions[..n], a);
      assert forall k :: 0 <= k < n ==> predictions[..n][k] == predictions[k];
    }
  }

  /** Of several predictions for an action the last counts. */
  lemma {:induction false} LastPredictionCounts(predictions: seq<Prediction>, a: ActionType, k: nat)
    requires LastFor(predictions, a, k)
    ensures a in ByAction(predictions) && ByAction(predictions)[a] == predictions[k].probability
  {
    var n := |predictions| - 1;
    if k < n {
      assert predictions[n].action != a;
      LastPredictionCounts(predictions[..n], a, k);
    }
  }

  // ----- who comes first -----

  /** The amounts a merchant's profile weighs are small enough to be weighed in 64 bits. */
  predicate Weighable(s: Setting) {
    s.profileVersion > 0 ==> ProfileInputs(s)
  }

  lemma TermIs(x: int, w: int)
    requires -TWO_63 / 4 <= x <= TWO_63 / 4 && 0 <= w <= 20000
    ensures MulDiv(x, w, 10000) == Quo(w * x, 10000)
  {
    TermFits(x, w);
    assert x * w == w * x;
  }

  lemma SixTerms(s: Setting, gross: int, spent: int, reached: int, fatigue: int, risk: int)
    requires ProfileInputs(s) && -s.amount <= gross <= s.amount && 0 <= fatigue <= s.amount && 0 <= risk <= s.amount
    requires 0 <= spent <= s.amount + 200 && 0 <= reached <= s.amount
    ensures var w := s.weights;
      && MulDiv(gross, w.revenue, 10000) == Quo(w.revenue * gross, 10000)
      && MulDiv(gross - risk, w.retention, 10000) == Quo(w.retention * (gross - risk), 10000)
      && MulDiv(reached, w.contact, 10000) == Quo(w.contact * reached, 10000)
      && MulDiv(spent, w.cost, 10000) == Quo(w.cost * spent, 10000)
      && MulDiv(fatigue, w.fatigue, 10000) == Quo(w.fatigue * fatigue, 10000)
      && MulDiv(risk, w.risk, 10000) == Quo(w.risk * risk, 10000)
  {
    TermIs(gross, s.weights.revenue);
    TermIs(gross - risk, s.weights.retention);
    TermIs(reached, s.weights.contact);
    TermIs(spent, s.weights.cost);
    TermIs(fatigue, s.weights.fatigue);
    TermIs(risk, s.weights.risk);
  }

  lemma WeighedScore(s: Setting, k: Candidate)
    requires s.profileVersion > 0 && ProfileInputs(s) && -s.amount <= k.gross <= s.amount && 0 <= k.fatigue <= s.amount && 0 <= k.risk <= s.amount
    requires 0 <= k.cost.channel + k.cost.operational + k.incentive <= s.amount + 200
    ensures ObjectiveScore(s, k.gross, k.nerv, k.cost.channel + k.cost.operational + k.incentive, k.fatigue, k.risk) == Worth(s, k)
  {
    SixTerms(s, k.gross, k.cost.channel + k.cost.operational + k.incentive, if k.fatigue > 0 then s.amount else 0, k.fatigue, k.risk);
  }

  lemma ScoreIs(s: Setting, natural: int, a: ActionType, probability: int)
    ensures var k := Scored(s, natural, a, probability);
      && k.score == ObjectiveScore(s, k.gross, k.nerv, k.cost.channel + k.cost.operational + k.incentive, k.fatigue, k.risk)
      && 0 <= k.cost.channel + k.cost.operational <= 200
  {
  }

  lemma WeighedScoreIsWorth(s: Setting, natural: int, a: ActionType, probability: int)
    requires s.profileVersion > 0 && ProfileInputs(s) && 0 <= natural <= 1_000_000 && 0 <= probability <= 1_000_000
    ensures var k := Scored(s, natural, a, probability); k.score == Worth(s, k)
  {
    AmountsFit(s, natural, a, probability);
    ScoreIs(s, natural, a, probability);
    WeighedScore(s, Scored(s, natural, a, probability));
  }

  lemma PlainScoreIsWorth(s: Setting, natural: int, a: ActionType, probability: int)
    requires s.profileVersion <= 0 && RealInputs(s)
    ensures var k := Scored(s, natural, a, probability); k.score == Worth(s, k)
  {
    HalfIs(s, natural, a, probability);
  }

  /** A candidate's score is its worth. */
  lemma ScoreIsWorth(s: Setting, natural: int, a: ActionType, probability: int)
    requires RealInputs(s) && Weighable(s) && 0 <= natural <= 1_000_000 && 0 <= probability <= 1_000_000
    ensures var k := Scored(s, natural, a, probability); k.score == Worth(s, k)
  {
    if s.profileVersion > 0 {
      WeighedScoreIsWorth(s, natural, a, probability);
    } else {
      PlainScoreIsWorth(s, natural, a, probability);
    }
  }

  lemma HalfIs(s: Setting, natural: int, a: ActionType, probability: int)
    requires RealInputs(s)
    ensures var k := Scored(s, natural, a, probability); Quo(k.fatigue + k.risk, 2) == (k.fatigue + k.risk) / 2
  {
    FractionFits(s.amount, s.fatigueBps, 10000);
    FractionFits(s.amount, s.riskBps, 10000);
  }

  /** What actions are called outside: equal candidates come in the byte order of these names. */
  function WireName(a: ActionType): string {
    match a
    case Wait => "WAIT"
    case RetryNow => "RETRY_NOW"
    case RetryLater => "RETRY_LATER"
    case SendReminder => "SEND_REMINDER"
    case SendPaymentLink => "SEND_PAYMENT_LINK"
    case SendCheckoutRecoveryLink => "SEND_CHECKOUT_RECOVERY_LINK"
    case RequestPaymentMethodUpdate => "REQUEST_PAYMENT_METHOD_UPDATE"
    case SuggestAlternateMethod => "SUGGEST_ALTERNATE_METHOD"
    case WaitForPromiseToPay => "WAIT_FOR_PROMISE_TO_PAY"
    case Retention => "RETENTION_ACTION"
    case EscalateToHuman => "ESCALATE_TO_HUMAN"
    case StopAction => "STOP"
  }

  /** The strings differ first at `k`, where `a` ends or has the smaller byte. */
  predicate DiffersAt(a: string, b: string, k: nat) {
    k <= |a| && k < |b| && a[..k] == b[..k] && (k < |a| ==> a[k] < b[k])
  }

  ghost predicate Precedes(a: string, b: string) {
    exists k: nat :: DiffersAt(a, b, k)
  }

  lemma PrecedesOn(a: string, b: string, c: string)
    requires Precedes(a, b) && Precedes(b, c)
    ensures Precedes(a, c)
  {
    var j: nat :| DiffersAt(a, b, j);
    var k: nat :| DiffersAt(b, c, k);
    var m := if j < k then j else k;
    assert a[..m] == a[..j][..m] && b[..m] == b[..j][..m] && b[..m] == b[..k][..m] && c[..m] == c[..k][..m];
    assert j < k ==> b[j] == b[..k][j] && c[j] == c[..k][j];
    assert k < j ==> a[k] == a[..j][k] && b[k] == b[..j][k];
    assert DiffersAt(a, c, m);
  }

  lemma PrecedesNotItself(a: string)
    ensures !Precedes(a, a)
  {
  }

  lemma PrecedesNotBoth(a: string, b: string)
    requires Precedes(a, b)
    ensures !Precedes(b, a) && a != b
  {
    PrecedesNotItself(a);
    if Precedes(b, a) {
      PrecedesOn(a, b, a);
    }
  }

  const IN_ORDER: seq<ActionType> :=
    [EscalateToHuman, RequestPaymentMethodUpdate, Retention, RetryLater, RetryNow, SendCheckoutRecoveryLink, SendPaymentLink, SendReminder,
     StopAction, SuggestAlternateMethod, Wait, WaitForPromiseToPay]

  /** Where the names of neighbours differ. */
  const NEIGHBOURS: seq<nat> := [0, 2, 3, 6, 0, 5, 5, 1, 1, 0, 4]

  lemma NeighboursPrecede(n: nat)
    requires n < |NEIGHBOURS|
    ensures Precedes(WireName(IN_ORDER[n]), WireName(IN_ORDER[n + 1]))
  {
    if n < 4 { FirstNeighbours(n); }
    else if n < 8 { MiddleNeighbours(n); }
    else { LastNeighbours(n); }
  }

  lemma FirstNeighbours(n: nat)
    requires n < 4
    ensures Precedes(WireName(IN_ORDER[n]), WireName(IN_ORDER[n + 1]))
  {
    assert DiffersAt(WireName(IN_ORDER[n]), WireName(IN_ORDER[n + 1]), NEIGHBOURS[n]);
  }

  lemma MiddleNeighbours(n: nat)
    requires 4 <= n < 8
    ensures Precedes(WireName(IN_ORDER[n]), WireName(IN_ORDER[n + 1]))
  {
    assert DiffersAt(WireName(IN_ORDER[n]), WireName(IN_ORDER[n + 1]), NEIGHBOURS[n]);
  }

  lemma LastNeighbours(n: nat)
    requires 8 <= n < |NEIGHBOURS|
    ensures Precedes(WireName(IN_ORDER[n]), WireName(IN_ORDER[n + 1]))
  {
    assert DiffersAt(WireName(IN_ORDER[n]), WireName(IN_ORDER[n + 1]), NEIGHBOURS[n]);
  }

  lemma {:induction false} EarlierPrecede(m: nat, n: nat)
    requires m < n < |IN_ORDER|
    ensures Precedes(WireName(IN_ORDER[m]), WireName(IN_ORDER[n]))
    decreases n
  {
    NeighboursPrecede(n - 1);
    if m < n - 1 {
      EarlierPrecede(m, n - 1);
      PrecedesOn(WireName(IN_ORDER[m]), WireName(IN_ORDER[n - 1]), WireName(IN_ORDER[n]));
    }
  }

  lemma OrderIs(a: ActionType)
    ensures NameOrder(a) < |IN_ORDER| && IN_ORDER[NameOrder(a)] == a
  {
  }

  /** The order in which equal candidates are listed is the byte order of their names. */
  lemma NamesAreInByteOrder(a: ActionType, b: ActionType)
    ensures NameOrder(a) < NameOrder(b) <==> Precedes(WireName(a), WireName(b))
  {
    OrderIs(a);
    OrderIs(b);
    if NameOrder(a) < NameOrder(b) {
      EarlierPrecede(NameOrder(a), NameOrder(b));
    } else if NameOrder(b) < NameOrder(a) {
      EarlierPrecede(NameOrder(b), NameOrder(a));
      PrecedesNotBoth(WireName(b), WireName(a));
    } else if Precedes(WireName(a), WireName(b)) {
      PrecedesNotBoth(WireName(a), WireName(b));
    }
  }

  /** Of two candidates that are ranked the first is worth more, or as much at a higher NERV, or equal in both and named first. */
  ghost predicate ComesFirst(s: Setting, x: Candidate, y: Candidate) {
    || Worth(s, x) > Worth(s, y)
    || (Worth(s, x) == Worth(s, y) && x.nerv > y.nerv)
    || (Worth(s, x) == Worth(s, y) && x.nerv == y.nerv && Precedes(WireName(x.action), WireName(y.action)))
  }

  lemma RankedIs(s: Setting, natural: int, byAction: map<ActionType, int>, i: nat)
    requires i < |Ranking(s, natural, byAction)|
    ensures var k := Ranking(s, natural, byAction)[i];
      && k.action in byAction && k == Scored(s, natural, k.action, byAction[k.action]).(rank := i + 1)
      && k.probability == byAction[k.action] && k.uplift == byAction[k.action] - natural
  {
    RankingIsRanking(s, natural, byAction);
  }

  /** What a ranking lists: for each action its probability, its uplift over doing nothing, and its amounts. */
  lemma RankingAmounts(s: Setting, natural: int, byAction: map<ActionType, int>, i: nat)
    requires RealInputs(s) && RealPredictions(natural, byAction) && i < |Ranking(s, natural, byAction)|
    ensures var k := Ranking(s, natural, byAction)[i];
      k.action in byAction && k.probability == byAction[k.action] && k.uplift == k.probability - natural && k.rank == i + 1 && Amounts(s, k)
  {
    RankedIs(s, natural, byAction, i);
    var k := Ranking(s, natural, byAction)[i];
    ScoredAmounts(s, natural, k.action, byAction[k.action]);
  }

  /** And in which order: whatever the objective or the weights, best worth first. */
  lemma RankingOrder(s: Setting, natural: int, byAction: map<ActionType, int>, i: nat, j: nat)
    requires RealInputs(s) && Weighable(s) && RealPredictions(natural, byAction) && i < j < |Ranking(s, natural, byAction)|
    ensures ComesFirst(s, Ranking(s, natural, byAction)[i], Ranking(s, natural, byAction)[j])
  {
    var r := Ranking(s, natural, byAction);
    RankingIsRanking(s, natural, byAction);
    RankedScore(s, natural, byAction, i);
    RankedScore(s, natural, byAction, j);
    NamesAreInByteOrder(r[i].action, r[j].action);
    assert Better(r[i], r[j]);
  }

  lemma RankedScore(s: Setting, natural: int, byAction: map<ActionType, int>, i: nat)
    requires RealInputs(s) && Weighable(s) && RealPredictions(natural, byAction) && i < |Ranking(s, natural, byAction)|
    ensures var k := Ranking(s, natural, byAction)[i]; k.score == Worth(s, k)
  {
    RankedIs(s, natural, byAction, i);
    var k := Ranking(s, natural, byAction)[i];
    ScoreIsWorth(s, natural, k.action, byAction[k.action]);
    WorthIgnoresRank(s, Scored(s, natural, k.action, byAction[k.action]), i + 1);
  }

  lemma WorthIgnoresRank(s: Setting, k: Candidate, rank: nat)
    ensures Worth(s, k.(rank := rank)) == Worth(s, k)
  {
  }
}
