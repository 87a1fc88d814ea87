/** What a completed call leaves on record, and what is made of it when a payment arrives. */
module Executions {
  import opened Wrappers
  import opened Domain
  import opened CaseRows
  import opened CaseSteps
  import opened Transactions
  import opened Ledgers
  import opened AttributionRules
  import opened Payments
  import Executors

  /** The attempt has an execution row already. */
  predicate OnRecord(db: CaseDb, i: nat, attempt: nat) {
    exists k :: 0 <= k < |db.executions| && db.executions[k].schedule == i && db.executions[k].attempt == attempt
  }

  /** What is on record of a call, given what the provider said of it. */
  predicate Records(e: Execution, i: nat, claim: Schedule, result: ProviderResult, now: Time) {
    && e.schedule == i && e.attempt == claim.attempt && e.kind == claim.action && e.reference == result.reference && e.completedAt == now
    && (e.status.Succeeded? <==> result.status.Succeeded?)
    && (e.status.OutcomePending? <==> result.status.OutcomePending?)
    && (e.status.Failed? <==> result.status.Failed? || result.status.Unrecognised?)
    && (Delivered(e) <==> result.status.Succeeded? || result.status.OutcomePending?)
  }

  /** A completion appends exactly one row for an attempt that has none, and none for one that has. */
  lemma CompletionRecords(db: CaseDb, i: nat, claim: Schedule, result: ProviderResult, now: Time)
    requires i < |db.schedules|
    ensures var after := Apply(db, Complete(i, claim, result, now)).executions;
      if OnRecord(db, i, claim.attempt) then after == db.executions
      else |after| == |db.executions| + 1 && after[..|db.executions|] == db.executions && Records(after[|db.executions|], i, claim, result, now)
  {
  }

  /** For every executor: a call that is taken is on record as delivered under the reference it was given, any other as failed. */
  lemma ReportIsRecorded(db: CaseDb, i: nat, claim: Schedule, e: Executors.Executor, a: Executors.Attempt, now: Time)
    requires i < |db.schedules| && !OnRecord(db, i, claim.attempt)
    ensures var after := Apply(db, Complete(i, claim, Executors.Report(e, a), now)).executions;
      |after| == |db.executions| + 1 &&
      var row := after[|db.executions|];
      && (Delivered(row) <==> a.Taken? && e != Executors.RetryRequest(false))
      && (Delivered(row) ==> row.reference == a.reference && (row.status.OutcomePending? <==> e.RetryRequest?))
      && (!Delivered(row) ==> row.status.Failed? && row.reference == "")
  {
    CompletionRecords(db, i, claim, Executors.Report(e, a), now);
  }

  // ----- payments after failed calls -----

  /** No call on record was delivered. */
  predicate FailedAlone(db: CaseDb) {
    forall k :: 0 <= k < |db.executions| ==> db.executions[k].status.Failed?
  }

  /** A completion keeps it so if and only if the call failed, or its attempt is on record already. */
  lemma StaysFailedAlone(db: CaseDb, i: nat, claim: Schedule, result: ProviderResult, now: Time)
    requires i < |db.schedules| && FailedAlone(db)
    ensures FailedAlone(Apply(db, Complete(i, claim, result, now)))
       <==> OnRecord(db, i, claim.attempt) || !(result.status.Succeeded? || result.status.OutcomePending?)
  {
    CompletionRecords(db, i, claim, result, now);
    var after := Apply(db, Complete(i, claim, result, now)).executions;
    if !OnRecord(db, i, claim.attempt) {
      assert forall k :: 0 <= k < |db.executions| ==> after[k] == db.executions[k];
      assert Records(after[|db.executions|], i, claim, result, now);
    }
  }

  /** No other transaction adds an execution. */
  lemma OnlyCompletionsRecord(db: CaseDb, t: Txn)
    requires !t.Complete?
    ensures Apply(db, t).executions == db.executions
  {
    Frame(db, t);
  }

  /** A payment after failed calls alone, with no promise near, is UNKNOWN if one of them had completed by then, and otherwise NATURAL. */
  lemma FailedCallsExplainNothing(db: CaseDb, reference: string, amount: int, observed: Time, correlation: Correlation)
    requires Accounted(db) && FailedAlone(db) && reference != "" && amount > 0 && !IsTerminal(db.state)
    requires !Promising(db, observed)
    ensures var after := Apply(db, Attribute(reference, amount, observed, correlation)).attributions;
      |after| == 1 && after[0].category == if CompletedBy(db, observed) then Unknown else Natural
  {
    NothingDelivered(db, reference, observed);
    EvidenceIs(db, reference, observed);
    RecordedAs(db, reference, amount, observed, correlation);
  }

  lemma NothingDelivered(db: CaseDb, reference: string, observed: Time)
    requires FailedAlone(db)
    ensures !Borne(db, reference) && !RetriedWithin(db, observed, 24) && !ActedWithin(db, observed, 168)
  {
  }

  /** So a payment that comes after a failed call is UNKNOWN, whatever was called. */
  lemma FailedCallThenPayment(db: CaseDb, i: nat, claim: Schedule, result: ProviderResult, now: Time,
                              reference: string, amount: int, observed: Time, correlation: Correlation)
    requires i < |db.schedules| && Accounted(db) && FailedAlone(db) && !OnRecord(db, i, claim.attempt)
    requires !(result.status.Succeeded? || result.status.OutcomePending?) && now <= observed && reference != "" && amount > 0
    requires var after := Apply(db, Complete(i, claim, result, now)); !IsTerminal(after.state) && !Promising(after, observed)
    ensures var after := Apply(Apply(db, Complete(i, claim, result, now)), Attribute(reference, amount, observed, correlation)).attributions;
      |after| == 1 && after[0].category.Unknown?
  {
    var after := Apply(db, Complete(i, claim, result, now));
    CompletionRecords(db, i, claim, result, now);
    assert after.executions[|db.executions|].completedAt <= observed;
    StaysFailedAlone(db, i, claim, result, now);
    StaysAccountedFor(db, i, claim, result, now);
    FailedCallsExplainNothing(after, reference, amount, observed, correlation);
  }

  lemma StaysAccountedFor(db: CaseDb, i: nat, claim: Schedule, result: ProviderResult, now: Time)
    requires Accounted(db)
    ensures Accounted(Apply(db, Complete(i, claim, result, now)))
  {
    StaysAccounted(db, Complete(i, claim, result, now));
  }
}
