/** When an observed payment is recorded, and under which category. */
module Payments {
  import opened Wrappers
  import opened Domain
  import opened CaseRows
  import opened CaseSteps
  import opened Transactions
  import opened Ledgers
  import opened AttributionRules

  /** The promise that explains the payment is ACTIVE, and its log already has an entry with this correlation id. */
  predicate CorrelationClash(db: CaseDb, observed: Time, correlation: Correlation) {
    var p := FirstDue(db.promises, observed);
    p.Some? && db.promises[p.value].status.Active? && HasEvent(db, p.value, correlation)
  }

  /** What a caller can check beforehand: the payment is well-formed, its case is open, and neither the overlap nor a clash gets in the way. */
  predicate Recordable(db: CaseDb, reference: string, amount: int, observed: Time, correlation: Correlation) {
    && reference != "" && amount > 0 && !IsTerminal(db.state) && !Overlap(db, reference, observed)
    && (ByReference(db, reference).Some? || !CorrelationClash(db, observed, correlation))
  }

  /** A payment is recorded exactly then. */
  lemma RecordedExactlyWhen(db: CaseDb, reference: string, amount: int, observed: Time, correlation: Correlation)
    requires Accounted(db)
    ensures AttributeRecovery(db, reference, amount, observed, correlation).Commit? <==> Recordable(db, reference, amount, observed, correlation)
    ensures Recordable(db, reference, amount, observed, correlation) ==>
              var after := Apply(db, Attribute(reference, amount, observed, correlation));
              after.state.Recovered? && after.version == db.version + 1 && after.trail == db.trail + [Recovered]
    ensures !Recordable(db, reference, amount, observed, correlation) ==> Apply(db, Attribute(reference, amount, observed, correlation)) == db
  {
    CascadeIsNone(db, reference, observed);
  }

  lemma CascadeIsNone(db: CaseDb, reference: string, observed: Time)
    ensures Cascade(db, reference, observed).None? <==> Overlap(db, reference, observed)
  {
  }

  /** The attribution that a payment leaves behind is the one that precedence gives for all the evidence present. */
  lemma RecordedByPrecedence(db: CaseDb, reference: string, amount: int, observed: Time, correlation: Correlation,
                             candidates: seq<Candidate>, c: Candidate)
    requires Accounted(db) && Recordable(db, reference, amount, observed, correlation)
    requires forall d :: d in candidates <==> Present(db, reference, observed, d)
    requires Strongest(candidates, c)
    ensures var after := Apply(db, Attribute(reference, amount, observed, correlation));
      && |after.attributions| == 1 && after.attributions[0].category == c.category
      && after.attributions[0].reference == reference && after.attributions[0].amount == amount
      && after.state.Recovered? && after.recovered == db.recovered + amount && after.version == db.version + 1
  {
    RecordedExactlyWhen(db, reference, amount, observed, correlation);
    CascadeFollowsPrecedence(db, reference, observed, candidates, c);
  }

  /** A payment is put down to nature only if nothing had been executed by then, no promise was near, and no execution bears its reference. */
  lemma NaturalOnlyIfUntouched(db: CaseDb, reference: string, amount: int, observed: Time, correlation: Correlation)
    requires Accounted(db) && Recordable(db, reference, amount, observed, correlation)
    requires var after := Apply(db, Attribute(reference, amount, observed, correlation)).attributions;
      |after| == 1 && after[0].category.Natural?
    ensures !AnyCompleted(db.executions, observed)
    ensures forall i :: 0 <= i < |db.executions| && Delivered(db.executions[i]) ==> db.executions[i].reference != reference
    ensures forall p :: 0 <= p < |db.promises| ==> !MatchesPromise(db.promises[p], observed)
  {
    NaturalMeansUntouched(db, reference, observed);
  }

  // ----- what explains a payment, in kinds and hours -----

  /** A delivered call that bears the payment's reference. */
  predicate Bears(e: Execution, reference: string) {
    (e.status.Succeeded? || e.status.OutcomePending?) && e.reference == reference
  }

  /** A delivered call that had completed by the payment, at most so many hours before. */
  predicate DeliveredWithin(e: Execution, observed: Time, hours: int) {
    (e.status.Succeeded? || e.status.OutcomePending?) && 0 <= observed - e.completedAt <= hours * HOUR
  }

  predicate OfRetry(e: Execution) {
    e.kind == RetryNow || e.kind == RetryLater
  }

  /** A promise that is open or kept, due within a day of the payment. */
  predicate Near(p: Promise, observed: Time) {
    (p.status.Active? || p.status.Fulfilled?) && -24 * HOUR <= observed - p.due <= 24 * HOUR
  }

  ghost predicate Borne(db: CaseDb, reference: string) {
    exists k :: 0 <= k < |db.executions| && Bears(db.executions[k], reference)
  }

  ghost predicate Promising(db: CaseDb, observed: Time) {
    exists p :: 0 <= p < |db.promises| && Near(db.promises[p], observed)
  }

  ghost predicate RetriedWithin(db: CaseDb, observed: Time, hours: int) {
    exists k :: 0 <= k < |db.executions| && DeliveredWithin(db.executions[k], observed, hours) && OfRetry(db.executions[k])
  }

  ghost predicate ActedWithin(db: CaseDb, observed: Time, hours: int) {
    exists k :: 0 <= k < |db.executions| && DeliveredWithin(db.executions[k], observed, hours)
  }

  ghost predicate CompletedBy(db: CaseDb, observed: Time) {
    exists k :: 0 <= k < |db.executions| && db.executions[k].completedAt <= observed
  }

  /** What a row of the ledger says, given the evidence that there was. */
  ghost predicate Explained(db: CaseDb, row: Attribution) {
    if Borne(db, row.reference) then
      && row.execution.Some? && row.promise.None? && BearsLast(db, row.reference, row.execution.value)
      && row.category == if OfRetry(db.executions[row.execution.value]) then Retry else DirectAction
    else if Promising(db, row.observedAt) then
      row.category.KeptPromise? && row.execution.None? && row.promise.Some? && NearFirst(db, row.observedAt, row.promise.value)
    else if RetriedWithin(db, row.observedAt, 24) then
      row.category.Retry? && row.promise.None? && row.execution.Some? && RetriedLast(db, row.observedAt, row.execution.value)
    else if ActedWithin(db, row.observedAt, 168) then
      row.category.DirectAction? && row.promise.None? && row.execution.Some? && ActedLast(db, row.observedAt, row.execution.value)
    else
      row.execution.None? && row.promise.None? && row.category == if CompletedBy(db, row.observedAt) then Unknown else Natural
  }

  predicate BearsLast(db: CaseDb, reference: string, k: nat) {
    && k < |db.executions| && Bears(db.executions[k], reference)
    && forall j :: 0 <= j < |db.executions| && Bears(db.executions[j], reference) ==> db.executions[j].completedAt <= db.executions[k].completedAt
  }

  predicate RetriedLast(db: CaseDb, observed: Time, k: nat) {
    && k < |db.executions| && DeliveredWithin(db.executions[k], observed, 24) && OfRetry(db.executions[k])
    && forall j :: 0 <= j < |db.executions| && DeliveredWithin(db.executions[j], observed, 24) && OfRetry(db.executions[j])
         ==> db.executions[j].completedAt <= db.executions[k].completedAt
  }

  predicate ActedLast(db: CaseDb, observed: Time, k: nat) {
    && k < |db.executions| && DeliveredWithin(db.executions[k], observed, 168)
    && forall j :: 0 <= j < |db.executions| && DeliveredWithin(db.executions[j], observed, 168)
         ==> db.executions[j].completedAt <= db.executions[k].completedAt
  }

  predicate NearFirst(db: CaseDb, observed: Time, p: nat) {
    && p < |db.promises| && Near(db.promises[p], observed)
    && forall q :: 0 <= q < |db.promises| && Near(db.promises[q], observed) ==> db.promises[p].due <= db.promises[q].due
  }

  /** The latest decision by the time of the payment, if there is one. */
  predicate LatestBy(decisions: seq<DecisionRow>, observed: Time, latest: Option<nat>) {
    if latest.None? then forall d :: 0 <= d < |decisions| ==> decisions[d].createdAt > observed
    else
      && latest.value < |decisions| && decisions[latest.value].createdAt <= observed
      && forall d :: 0 <= d < |decisions| && decisions[d].createdAt <= observed ==> decisions[d].createdAt <= decisions[latest.value].createdAt
  }

  /** The cascade in these terms. */
  lemma CascadeExplains(db: CaseDb, reference: string, observed: Time)
    requires !Overlap(db, reference, observed)
    ensures Cascade(db, reference, observed).Some?
    ensures var f := Cascade(db, reference, observed).value;
      forall amount, decision :: Explained(db, Attribution(reference, amount, f.category, decision, f.execution, f.promise, observed))
  {
    EvidenceIs(db, reference, observed);
  }

  lemma EvidenceIs(db: CaseDb, reference: string, observed: Time)
    ensures ByReference(db, reference).Some? <==> Borne(db, reference)
    ensures ByReference(db, reference).Some? ==> BearsLast(db, reference, ByReference(db, reference).value)
    ensures FirstDue(db.promises, observed).Some? <==> Promising(db, observed)
    ensures FirstDue(db.promises, observed).Some? ==> NearFirst(db, observed, FirstDue(db.promises, observed).value)
    ensures ByRetry(db, observed).Some? <==> RetriedWithin(db, observed, 24)
    ensures ByRetry(db, observed).Some? ==> RetriedLast(db, observed, ByRetry(db, observed).value)
    ensures ByAction(db, observed).Some? <==> ActedWithin(db, observed, 168)
    ensures ByAction(db, observed).Some? ==> ActedLast(db, observed, ByAction(db, observed).value)
  {
  }

  lemma {:induction false} LatestDecisionIs(decisions: seq<DecisionRow>, observed: Time)
    ensures LatestBy(decisions, observed, LatestDecision(decisions, observed))
  {
    if decisions != [] {
      var n := |decisions| - 1;
      LatestDecisionIs(decisions[..n], observed);
      assert forall k :: 0 <= k < n ==> decisions[..n][k] == decisions[k];
    }
  }

  /** What a payment records: under its reference and amount, what explains it, and the decision it is put down to. */
  lemma RecordedAs(db: CaseDb, reference: string, amount: int, observed: Time, correlation: Correlation)
    requires Accounted(db) && Recordable(db, reference, amount, observed, correlation)
    ensures var after := Apply(db, Attribute(reference, amount, observed, correlation));
      && |after.attributions| == 1 && Explained(db, after.attributions[0])
      && after.attributions[0].reference == reference && after.attributions[0].amount == amount && after.attributions[0].observedAt == observed
      && LatestBy(db.decisions, observed, after.attributions[0].decision)
      && after.recovered == db.recovered + amount
  {
    RecordedExactlyWhen(db, reference, amount, observed, correlation);
    CascadeExplains(db, reference, observed);
    LatestDecisionIs(db.decisions, observed);
    LedgerRow(db, reference, amount, observed, correlation);
  }

  lemma LedgerRow(db: CaseDb, reference: string, amount: int, observed: Time, correlation: Correlation)
    requires Accounted(db) && AttributeRecovery(db, reference, amount, observed, correlation).Commit?
    requires Cascade(db, reference, observed).Some?
    ensures var f := Cascade(db, reference, observed).value;
      Apply(db, Attribute(reference, amount, observed, correlation)).attributions
        == [Attribution(reference, amount, f.category, LatestDecision(db.decisions, observed), f.execution, f.promise, observed)]
    ensures Apply(db, Attribute(reference, amount, observed, correlation)).recovered == db.recovered + amount
  {
  }

  /** A payment can be recorded if and only if it is well-formed, its case is open, no delivered call bears its reference while a promise is near, and no promise event stands in the way. */
  lemma RecordableExactlyWhen(db: CaseDb, reference: string, amount: int, observed: Time, correlation: Correlation)
    ensures Recordable(db, reference, amount, observed, correlation) <==>
      && reference != "" && amount > 0 && db.state !in {Recovered, Exhausted, Stopped} && !(Borne(db, reference) && Promising(db, observed))
      && (Borne(db, reference) || !CorrelationClash(db, observed, correlation))
  {
    EvidenceIs(db, reference, observed);
  }

  /** Why a payment is not recorded. For the last reason but one the caller gets no error. */
  lemma UnrecordedBecause(db: CaseDb, reference: string, amount: int, observed: Time, correlation: Correlation)
    requires Accounted(db) && !Recordable(db, reference, amount, observed, correlation)
    ensures var tx := AttributeRecovery(db, reference, amount, observed, correlation);
      tx.Abort? && tx.error ==
        if reference == "" || amount <= 0 then InvalidInput
        else if db.state in {Recovered, Exhausted, Stopped} then CaseTerminal
        else if Borne(db, reference) && Promising(db, observed) then LostSilently
        else UniqueViolation
  {
    EvidenceIs(db, reference, observed);
    RecordedExactlyWhen(db, reference, amount, observed, correlation);
  }

  /** The ACTIVE promise that explains a payment is kept by it; every other promise stays as it is. */
  lemma PaymentKeepsPromise(db: CaseDb, reference: string, amount: int, observed: Time, correlation: Correlation)
    requires Accounted(db) && Recordable(db, reference, amount, observed, correlation)
    ensures var after := Apply(db, Attribute(reference, amount, observed, correlation));
      && |after.promises| == |db.promises|
      && forall p :: 0 <= p < |db.promises| ==>
           if after.attributions[0].promise == Some(p) && db.promises[p].status.Active? then after.promises[p] == db.promises[p].(status := Fulfilled)
           else after.promises[p] == db.promises[p]
  {
    RecordedExactlyWhen(db, reference, amount, observed, correlation);
    CascadeExplains(db, reference, observed);
    LedgerRow(db, reference, amount, observed, correlation);
  }

  // ----- checks that payments leave open -----

  /** Every promise that is not ACTIVE has a closed check. */
  predicate ChecksClosed(db: CaseDb) {
    forall p :: 0 <= p < |db.promises| && !db.promises[p].status.Active? ==> !OpenCheck(db.promises[p])
  }

  /** A payment that can be recorded and that no exact reference but an ACTIVE promise explains. */
  predicate PaysPromise(db: CaseDb, t: Txn) {
    && t.Attribute? && Recordable(db, t.reference, t.amount, t.now, t.correlation) && ByReference(db, t.reference).None?
    && var promise := FirstDue(db.promises, t.now);
    promise.Some? && db.promises[promise.value].status.Active?
  }

  lemma PaymentChecks(db: CaseDb, t: Txn)
    requires Kept(db) && Accounted(db) && ChecksClosed(db) && t.Attribute?
    ensures !ChecksClosed(Apply(db, t)) <==> PaysPromise(db, t)
  {
    RecordedExactlyWhen(db, t.reference, t.amount, t.now, t.correlation);
    if PaysPromise(db, t) {
      var p := FirstDue(db.promises, t.now).value;
      assert OpenCheck(db.promises[p]);
      assert !Apply(db, t).promises[p].status.Active? && OpenCheck(Apply(db, t).promises[p]);
    }
  }

  lemma ResolutionChecks(db: CaseDb, t: Txn)
    requires Kept(db) && ChecksClosed(db) && (t.Resolve? || t.Cancel?)
    ensures ChecksClosed(Apply(db, t))
  {
    var p := t.p;
    if p < |db.promises| && Apply(db, t).promises != db.promises {
      assert forall q :: 0 <= q < |db.promises| && q != p ==> Apply(db, t).promises[q] == db.promises[q];
      assert !OpenCheck(Apply(db, t).promises[p]);
    }
  }

  /** The only transaction that leaves a resolved promise with an open check is a payment that fulfils it. */
  lemma CheckLeftOpenExactlyWhen(db: CaseDb, t: Txn)
    requires Kept(db) && Accounted(db) && ChecksClosed(db)
    ensures !ChecksClosed(Apply(db, t)) <==> PaysPromise(db, t)
  {
    Frame(db, t);
    if t.Attribute? { PaymentChecks(db, t); }
    else if t.Resolve? || t.Cancel? { ResolutionChecks(db, t); }
    else if t.Promised? || t.ClaimCheck? { OtherChecks(db, t); }
  }

  lemma OtherChecks(db: CaseDb, t: Txn)
    requires ChecksClosed(db) && (t.Promised? || t.ClaimCheck?)
    requires Kept(db)
    ensures ChecksClosed(Apply(db, t))
  {
  }
}
