/** What an operator's review does to a case: which command has which effect, and what is recorded of it. */
module Reviews {
  import opened Wrappers
  import opened Domain
  import opened CaseRows
  import opened CaseSteps
  import opened Transactions
  import Policy
  import opened Outcomes

  /** The review is new, about a decision on record, and of a case that awaits one, unless it is an approval. */
  predicate Taken(db: CaseDb, command: ReviewCommand) {
    && (forall k :: 0 <= k < |db.reviews| ==> db.reviews[k].key != command.key)
    && command.about < |db.decisions|
    && (command.decision.ReviewApprove? || db.state.Escalated?)
  }

  /** Neither the case nor the merchant's policy has changed since the operator saw them, and there is time left. */
  predicate UpToDate(db: CaseDb, command: ReviewCommand, policyVersion: int, now: Time) {
    db.state.Escalated? && db.version == command.expected && policyVersion == command.observedPolicyVersion && now < db.deadline
  }

  predicate Approves(db: CaseDb, command: ReviewCommand, policyVersion: int, now: Time) {
    command.decision.ReviewApprove? && UpToDate(db, command, policyVersion, now) && (command.verdict.Approve? || command.verdict.Escalate?)
  }

  /** A review that is not taken changes nothing at all; one that is known already succeeds all the same. */
  lemma NotTaken(db: CaseDb, command: ReviewCommand, policyVersion: int, now: Time)
    requires !Taken(db, command)
    ensures Apply(db, Decide(command, policyVersion, now)) == db
    ensures var tx := ApplyHumanReview(db, command, policyVersion, now);
      if exists k :: 0 <= k < |db.reviews| && db.reviews[k].key == command.key then tx.Commit? && !tx.value
      else tx.Abort? && tx.error == if command.about >= |db.decisions| then NotFound else NotReviewable
  {
  }

  /** A review that is taken is recorded, with the version it was given at and how its approval turned out. */
  lemma ReviewIsRecorded(db: CaseDb, command: ReviewCommand, policyVersion: int, now: Time)
    requires Taken(db, command)
    ensures var after := Apply(db, Decide(command, policyVersion, now)).reviews;
      && |after| == |db.reviews| + 1 && after[..|db.reviews|] == db.reviews &&
      var row := after[|db.reviews|];
      && row.key == command.key && row.decision == command.decision && row.expected == command.expected && row.versionAtReview == db.version
      && (row.outcome.NotRequired? <==> !command.decision.ReviewApprove?)
      && (row.outcome.StaleApproved? <==> command.decision.ReviewApprove? && !UpToDate(db, command, policyVersion, now))
      && (row.outcome.Approved? <==> Approves(db, command, policyVersion, now))
      && (row.outcome.ApprovalDenied? <==> command.decision.ReviewApprove? && UpToDate(db, command, policyVersion, now) && command.verdict.Deny?)
      && (row.outcome.ApprovalStopped? <==> command.decision.ReviewApprove? && UpToDate(db, command, policyVersion, now) && command.verdict.StopCase?)
      && row.schedule == if Approves(db, command, policyVersion, now) then Some(|db.schedules|) else None
  {
  }

  /** What a review leaves alone when it neither approves nor stops. */
  predicate Untouched(db: CaseDb, after: CaseDb) {
    && after.state == db.state && after.version == db.version && after.trail == db.trail
    && after.schedules == db.schedules && after.policies == db.policies
  }

  /**
   * A STOP closes the case, an approval that is up to date schedules its action, and nothing else moves the
   * case: not REJECT, not DEFER, and not an approval that is stale, denied or stopped by the policy.
   */
  lemma ReviewEffect(db: CaseDb, command: ReviewCommand, policyVersion: int, now: Time)
    requires Taken(db, command)
    ensures var after := Apply(db, Decide(command, policyVersion, now));
      && (after.state.Stopped? && after.version == db.version + 1 && after.trail == db.trail + [Stopped] <==> command.decision.ReviewStop?)
      && (after.trail == db.trail + [ActionPending, PolicyReview, Scheduled] <==> Approves(db, command, policyVersion, now))
      && (Untouched(db, after) <==> !command.decision.ReviewStop? && !Approves(db, command, policyVersion, now))
      && (command.decision.ReviewStop? ==> after.schedules == db.schedules && after.policies == db.policies)
  {
    var after := Apply(db, Decide(command, policyVersion, now));
    assert |after.trail| == |db.trail| + if Approves(db, command, policyVersion, now) then 3 else if command.decision.ReviewStop? then 1 else 0;
  }

  /** What an approval schedules: the action decided on, whatever it is, under an evaluation of its own, a day on for RETRY_LATER. */
  lemma ApprovalSchedules(db: CaseDb, command: ReviewCommand, policyVersion: int, now: Time)
    requires Taken(db, command) && Approves(db, command, policyVersion, now)
    ensures var after := Apply(db, Decide(command, policyVersion, now));
      && after.state.Scheduled? && after.version == db.version + 3
      && after.policies == db.policies + [PolicyRow(command.about, Policy.Approve, true)]
      && |after.schedules| == |db.schedules| + 1 && after.schedules[..|db.schedules|] == db.schedules &&
      var s := after.schedules[|db.schedules|];
      && s.action == db.decisions[command.about].gate.action && s.decision == command.about && s.policy == |db.policies|
      && s.scheduledFor == (if s.action.RetryLater? then now + 24 * HOUR else now) && s.createdAt == now
      && s.status.Pending? && s.attempt == 0 && s.maxAttempts == 3 && s.stamp == after.version && s.actionStatus.StillPlanned?
  {
  }

  /** What is written: the operator's word, or that the approval came to nothing; and then what follows from it. */
  lemma ReviewEvents(db: CaseDb, command: ReviewCommand, policyVersion: int, now: Time)
    requires Taken(db, command)
    ensures Wrote(db, Apply(db, Decide(command, policyVersion, now)),
                  match command.decision
                  case ReviewApprove => if Approves(db, command, policyVersion, now) then [OperatorApproved, PolicyRevalidated, ActionScheduled] else [StaleApproval]
                  case ReviewReject => [OperatorRejected]
                  case ReviewDefer => [OperatorDeferred]
                  case ReviewStop => [OperatorStopped, CaseStopped])
  {
  }
}
