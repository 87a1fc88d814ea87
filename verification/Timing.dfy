/** When a schedule can be claimed, retried and observed: leases, delays and backoff across transactions. */
module Timing {
  import opened Wrappers
  import opened Domain
  import opened CaseRows
  import opened CaseSteps
  import opened Transactions

  /** While a lease runs nobody else can claim the schedule; once it has ended anybody can. */
  lemma LeaseExcludes(db: CaseDb, i: nat, owner: nat, now: Time, lease: int, other: nat, later: Time)
    requires ClaimDue(db, i, owner, now, lease).Commit? && now <= later
    ensures ClaimDue(Apply(db, Claim(i, owner, now, lease)), i, other, later, lease).Commit? <==> later >= now + lease
  {
  }

  /** A decision to retry later cannot be claimed for 24 hours; any other schedule is due at once. */
  lemma NewScheduleDue(db: CaseDb, s: Snapshot, now: Time, owner: nat, later: Time, lease: int)
    requires |Apply(db, Save(s, now)).schedules| > |db.schedules|
    ensures var delay := if s.gate.action.RetryLater? then 24 * HOUR else 0;
      ClaimDue(Apply(db, Save(s, now)), |db.schedules|, owner, later, lease).Commit? <==> later >= now + delay
  {
  }

  /** The wait after a failed attempt: one minute, doubled with every attempt, and never more than 64. */
  lemma BackoffDoubles(attempt: nat)
    requires attempt >= 1
    ensures Backoff(1) == MINUTE && Backoff(7) == 64 * MINUTE
    ensures Backoff(attempt + 1) == if attempt < 7 then 2 * Backoff(attempt) else Backoff(attempt)
    ensures MINUTE <= Backoff(attempt) <= 64 * MINUTE
  {
    assert Pow2(0) == 1 && Pow2(1) == 2 && Pow2(2) == 4 && Pow2(3) == 8 && Pow2(4) == 16;
    assert Pow2(5) == 2 * Pow2(4) && Pow2(6) == 2 * Pow2(5);
  }

  /** A retry can be claimed exactly from the end of its backoff on. */
  lemma RetryBacksOff(db: CaseDb, i: nat, claim: Schedule, result: ProviderResult, now: Time, owner: nat, later: Time, lease: int)
    requires i < |db.schedules| && RetryWanted(claim, result)
    ensures ClaimDue(Apply(db, Complete(i, claim, result, now)), i, owner, later, lease).Commit? <==> later >= now + Backoff(claim.attempt)
  {
  }

  /** A schedule that has finished is never claimed again; its outcome can be observed from 24 hours after success on, and never after failure. */
  lemma FinishedIsObserved(db: CaseDb, i: nat, claim: Schedule, result: ProviderResult, now: Time, owner: nat, later: Time, lease: int)
    requires i < |db.schedules| && !RetryWanted(claim, result)
    ensures var after := Apply(db, Complete(i, claim, result, now));
      && ClaimDue(after, i, owner, later, lease).Abort?
      && (ClaimDueObservation(after, i, owner, later, lease).Commit? <==> !Normalised(result.status).Failed? && later >= now + 24 * HOUR)
  {
  }

  /** A case that has waited in vain is decided again before its deadline, and exhausted from the deadline on. */
  lemma DeadlineExhausts(db: CaseDb, i: nat, now: Time)
    requires i < |db.schedules| && db.state.WaitingOutcome?
    ensures var after := Apply(db, Reassess(i, now)).state; if db.deadline <= now then after.Exhausted? else after.ActionPending?
    ensures PrepareReassessment(db, i, now).value <==> now < db.deadline
  {
  }
}
