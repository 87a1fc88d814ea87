/**
 * What decisions, promises, responses and workers do to a case, read from outside: which command has which
 * effect, under which condition, with the events it writes.
 */
module Outcomes {
  import opened Wrappers
  import opened Domain
  import opened CaseRows
  import opened CaseSteps
  import opened Transactions
  import opened Ledgers
  import Policy
  import Payments
  import AttributionRules

  /** The log goes on with exactly these events. */
  predicate Wrote(db: CaseDb, after: CaseDb, kinds: seq<EventType>) {
    && |after.events| == |db.events| + |kinds| && after.events[..|db.events|] == db.events
    && forall k :: 0 <= k < |kinds| ==> after.events[|db.events| + k].kind == kinds[k]
  }

  /** The case went through exactly these states, one version each. */
  predicate Went(db: CaseDb, after: CaseDb, path: seq<CaseState>) {
    && after.trail == db.trail + path && after.version == db.version + |path|
    && after.state == if path == [] then db.state else path[|path| - 1]
  }

  // ----- decisions -----

  /** A case is brought to a decision from four states, and from no other. */
  lemma PreparedExactlyWhen(db: CaseDb)
    ensures var tx, after := PrepareForDecision(db), Apply(db, Prepare);
      && (tx.Commit? <==> db.state in {Detected, Diagnosing, Reassessing, ActionPending})
      && (tx.Abort? ==> after == db && tx.error == Conflict)
      && (tx.Commit? ==> after.state.ActionPending?)
      && (db.state.Detected? ==> Went(db, after, [Diagnosing, ActionPending]) && Wrote(db, after, [DiagnosisStarted, DiagnosisCompleted]))
      && (db.state.Diagnosing? ==> Went(db, after, [ActionPending]) && Wrote(db, after, [DiagnosisCompleted]))
      && (db.state.Reassessing? ==> Went(db, after, [ActionPending]) && Wrote(db, after, [StateTransitioned]))
      && (db.state.ActionPending? ==> after == db)
  {
  }

  /** What a decision does to the case that it is still about. */
  datatype Upshot = Schedules | Escalates | Stops | Rests

  /** The verdict decides: APPROVE schedules, except WAIT; ESCALATE escalates; STOP closes a case that is open; DENY does nothing. */
  function UpshotOf(db: CaseDb, s: Snapshot): Upshot {
    if s.verdict == Policy.Approve && s.gate.action != Wait then Schedules
    else if s.verdict == Policy.Escalate then Escalates
    else if s.verdict == Policy.StopCase && db.state !in {Recovered, Exhausted, Stopped} then Stops
    else Rests
  }

  /** A decision is saved if the case has not changed; to schedule or escalate the case must await one, and to approve its gate must allow it. */
  lemma SavedExactlyWhen(db: CaseDb, s: Snapshot, now: Time)
    ensures SaveDecisionAndSchedule(db, s, now).Commit? <==>
      && s.caseVersion == db.version
      && (UpshotOf(db, s).Schedules? || UpshotOf(db, s).Escalates? ==> db.state == ActionPending)
      && (s.verdict == Policy.Approve ==> s.gate.allow)
    ensures var tx := SaveDecisionAndSchedule(db, s, now);
      tx.Abort? ==>
        && Apply(db, Save(s, now)) == db
        && tx.error == if s.caseVersion == db.version && s.verdict == Policy.Approve && !s.gate.allow then BlockedByGate else Conflict
  {
  }

  /** Where a saved decision takes the case. */
  lemma SavedMoves(db: CaseDb, s: Snapshot, now: Time)
    requires SaveDecisionAndSchedule(db, s, now).Commit?
    ensures Went(db, Apply(db, Save(s, now)),
                 match UpshotOf(db, s)
                 case Schedules => [PolicyReview, Scheduled]
                 case Escalates => [Escalated]
                 case Stops => [Stopped]
                 case Rests => [])
  {
  }

  /** What is recorded of it. */
  lemma SavedRows(db: CaseDb, s: Snapshot, now: Time)
    requires SaveDecisionAndSchedule(db, s, now).Commit?
    ensures var after := Apply(db, Save(s, now));
      && after.decisions == db.decisions + [DecisionRow(db.version, s.gate, s.incentive, s.createdAt)]
      && after.policies == db.policies + [PolicyRow(|db.decisions|, s.verdict, false)]
      && (if UpshotOf(db, s).Schedules? then NewlyScheduled(db, after, s.gate.action, now) else after.schedules == db.schedules)
  {
  }

  /** A schedule for the decision and the evaluation just recorded, stamped with the version the case is now at. */
  predicate NewlyScheduled(db: CaseDb, after: CaseDb, action: ActionType, now: Time) {
    && |after.schedules| == |db.schedules| + 1 && after.schedules[..|db.schedules|] == db.schedules
    && var s := after.schedules[|db.schedules|];
    && s.action == action && s.decision == |db.decisions| && s.policy == |db.policies|
    && s.scheduledFor == (if action == RetryLater then now + 24 * HOUR else now) && s.createdAt == now
    && s.status.Pending? && s.attempt == 0 && s.maxAttempts == 3 && s.stamp == after.version && s.actionStatus.StillPlanned?
    && s.leaseOwner.None? && s.leaseExpires.None? && s.nextRetry.None? && s.started.None? && s.completed.None?
  }

  /** And what it writes: the decision, its gate, its evaluation and its verdict, and what follows. */
  lemma SavedEvents(db: CaseDb, s: Snapshot, now: Time)
    requires SaveDecisionAndSchedule(db, s, now).Commit?
    ensures Wrote(db, Apply(db, Save(s, now)),
                  [DecisionCreated, if s.gate.allow then EconomicGateAllowed else EconomicGateBlocked, PolicyEvaluated]
                  + (match s.verdict
                     case Approve => if UpshotOf(db, s).Schedules? then [PolicyApproved, StateTransitioned, StateTransitioned, ActionScheduled] else [PolicyApproved]
                     case Deny => [PolicyDenied]
                     case Escalate => [PolicyEscalated, HumanReviewRequested]
                     case StopCase => [CaseStopped]))
  {
  }

  // ----- workers -----

  /** Every schedule but one stays as it is. */
  predicate OnlyChanges(before: seq<Schedule>, after: seq<Schedule>, i: nat) {
    |after| == |before| && forall k :: 0 <= k < |before| && k != i ==> after[k] == before[k]
  }

  /** When a schedule wants attention: at its next retry if it has one, otherwise when it was scheduled for. */
  predicate DueBy(s: Schedule, now: Time) {
    (s.nextRetry.Some? ==> s.nextRetry.value <= now) && (s.nextRetry.None? ==> s.scheduledFor <= now)
  }

  predicate LeaseOver(lease: Option<Time>, now: Time) {
    lease.Some? && lease.value <= now
  }

  /** A schedule is claimed if it is due and waiting, or in hand under a lease that is over. */
  lemma ClaimedExactlyWhen(db: CaseDb, i: nat, owner: nat, now: Time, lease: int)
    ensures ClaimDue(db, i, owner, now, lease).Commit? <==>
      && i < |db.schedules| && DueBy(db.schedules[i], now)
      && (db.schedules[i].status in {Pending, RetryPending}
          || (db.schedules[i].status in {ScheduleStatus.Claimed, Running} && LeaseOver(db.schedules[i].leaseExpires, now)))
    ensures ClaimDue(db, i, owner, now, lease).Abort? ==>
              ClaimDue(db, i, owner, now, lease).error == NoDueWork && Apply(db, Claim(i, owner, now, lease)) == db
  {
  }

  /** A claim takes a lease and counts an attempt, and that is all it does. */
  lemma ClaimTakes(db: CaseDb, i: nat, owner: nat, now: Time, lease: int)
    requires ClaimDue(db, i, owner, now, lease).Commit?
    ensures var after := Apply(db, Claim(i, owner, now, lease));
      && after == db.(schedules := after.schedules) && OnlyChanges(db.schedules, after.schedules, i)
      && after.schedules[i] == db.schedules[i].(status := ScheduleStatus.Claimed, leaseOwner := Some(owner), leaseExpires := Some(now + lease),
                                               attempt := db.schedules[i].attempt + 1)
      && ClaimDue(db, i, owner, now, lease).value == after.schedules[i]
  {
  }

  /** Only a claimed schedule is marked as running; a SCHEDULED case moves with it, and the schedule takes the new version as its stamp. */
  lemma MarkedExactlyWhen(db: CaseDb, i: nat, now: Time)
    ensures MarkExecuting(db, i, now).Commit? <==> i < |db.schedules| && db.schedules[i].status == ScheduleStatus.Claimed
    ensures var after := Apply(db, Mark(i, now));
      if !(i < |db.schedules| && db.schedules[i].status == ScheduleStatus.Claimed) then after == db && MarkExecuting(db, i, now).error == Conflict
      else
        && Went(db, after, if db.state.Scheduled? then [Executing] else []) && after.events == db.events && OnlyChanges(db.schedules, after.schedules, i)
        && var was, s := db.schedules[i], after.schedules[i];
        && s.status.Running? && s.started == (if was.started.Some? then was.started else Some(now))
        && s.stamp == (if db.state.Scheduled? then after.version else was.stamp)
        && s == was.(status := s.status, started := s.started, stamp := s.stamp)
  {
  }

  /** Whether a report ends the schedule, and how: as failed, or as carried out. */
  predicate Failing(result: ProviderResult) {
    !result.status.Succeeded? && !result.status.OutcomePending?
  }

  predicate TriesAgain(claim: Schedule, result: ProviderResult) {
    Failing(result) && result.retryable && claim.attempt < claim.maxAttempts
  }

  /** What a report does to the schedule: another attempt later, the end, or a wait for the outcome. The lease is given up in any case. */
  lemma CompletionSettles(db: CaseDb, i: nat, claim: Schedule, result: ProviderResult, now: Time)
    requires i < |db.schedules|
    ensures var after := Apply(db, Complete(i, claim, result, now));
      && OnlyChanges(db.schedules, after.schedules, i)
      && var was, s := db.schedules[i], after.schedules[i];
      && s.leaseOwner.None? && s.leaseExpires.None? && s.attempt == was.attempt && s.stamp == was.stamp && s.action == was.action
      && s.decision == was.decision && s.policy == was.policy && s.started == was.started
      && (if TriesAgain(claim, result) then
            s.status.RetryPending? && s.nextRetry.Some? && s.completed == was.completed && s.actionStatus == was.actionStatus
          else if Failing(result) then
            s.status.FailedForGood? && s.nextRetry.None? && s.completed == Some(now) && s.actionStatus.HasFailed?
          else
            s.status.ObservationPending? && s.nextRetry == Some(now + 24 * HOUR) && s.completed == Some(now) && s.actionStatus.HasExecuted?)
  {
  }

  /** And to the case: an EXECUTING case waits for the outcome of a call that was taken, and is decided again after one that failed for good. */
  lemma CompletionMovesCase(db: CaseDb, i: nat, claim: Schedule, result: ProviderResult, now: Time)
    requires i < |db.schedules|
    ensures Went(db, Apply(db, Complete(i, claim, result, now)),
                 if TriesAgain(claim, result) || !db.state.Executing? then []
                 else if Failing(result) then [Reassessing, ActionPending] else [WaitingOutcome])
  {
  }

  /** What is written of it: nothing before another attempt, and otherwise how it ended. */
  lemma CompletionWrites(db: CaseDb, i: nat, claim: Schedule, result: ProviderResult, now: Time)
    requires i < |db.schedules|
    ensures Wrote(db, Apply(db, Complete(i, claim, result, now)),
                  if TriesAgain(claim, result) then [] else if Failing(result) then [EventType.ActionFailed] else [EventType.ActionExecuted])
  {
    if !TriesAgain(claim, result) {
      var finished := SetSchedule(RecordExecution(db, i, claim, result, now), i, Finished(db.schedules[i], Failing(result), now));
      LogWrites(Outcome(finished, Failing(result)), [if Failing(result) then EventType.ActionFailed else EventType.ActionExecuted]);
    }
  }

  /** A suppression withdraws a schedule that is waiting or claimed, no other, and leaves the case as it is. */
  lemma SuppressionWithdraws(db: CaseDb, i: nat, now: Time)
    requires i < |db.schedules|
    ensures var after := Apply(db, Suppress(i, now));
      && Went(db, after, []) && Wrote(db, after, [ActionSuppressed]) && OnlyChanges(db.schedules, after.schedules, i)
      && after.schedules[i] == if db.schedules[i].status in {Pending, ScheduleStatus.Claimed, RetryPending}
                               then db.schedules[i].(status := Superseded, completed := Some(now), leaseOwner := None, leaseExpires := None)
                               else db.schedules[i]
  {
  }

  /** An observation is taken if it is waiting or in hand under a lease that is over, and its time has come. */
  lemma ObservedExactlyWhen(db: CaseDb, i: nat, owner: nat, now: Time, lease: int)
    ensures ClaimDueObservation(db, i, owner, now, lease).Commit? <==>
      && i < |db.schedules| && db.schedules[i].nextRetry.Some? && db.schedules[i].nextRetry.value <= now
      && (db.schedules[i].status == ObservationPending
          || (db.schedules[i].status == ObservationClaimed && LeaseOver(db.schedules[i].leaseExpires, now)))
    ensures var after := Apply(db, ClaimObservation(i, owner, now, lease));
      if ClaimDueObservation(db, i, owner, now, lease).Abort? then after == db && ClaimDueObservation(db, i, owner, now, lease).error == NoDueWork
      else
        && after == db.(schedules := after.schedules) && OnlyChanges(db.schedules, after.schedules, i)
        && after.schedules[i] == db.schedules[i].(status := ObservationClaimed, leaseOwner := Some(owner), leaseExpires := Some(now + lease))
  {
  }

  /** Closing an observation moves only a case that waits for its outcome: to a decision while there is time, and otherwise to its end. */
  lemma ReassessmentMoves(db: CaseDb, i: nat, now: Time)
    requires i < |db.schedules|
    ensures var after := Apply(db, Reassess(i, now));
      && Went(db, after, if !db.state.WaitingOutcome? then [] else if now < db.deadline then [Reassessing, ActionPending] else [Exhausted])
      && Wrote(db, after, [OutcomeObserved]) && OnlyChanges(db.schedules, after.schedules, i)
      && after.schedules[i] == if db.schedules[i].status.ObservationClaimed?
                               then db.schedules[i].(status := Observed, leaseOwner := None, leaseExpires := None) else db.schedules[i]
  {
  }

  /** Of a schedule that does not exist nothing can be reported, withdrawn or closed. */
  lemma NoSuchSchedule(db: CaseDb, i: nat, claim: Schedule, result: ProviderResult, now: Time)
    requires i >= |db.schedules|
    ensures CompleteExecution(db, i, claim, result, now) == Abort(NotFound)
    ensures MarkSuppressed(db, i, now) == Abort(NotFound) && PrepareReassessment(db, i, now) == Abort(NotFound)
  {
  }

  // ----- promises -----

  /** Every promise but one stays as it is. */
  predicate OnlyPromise(before: seq<Promise>, after: seq<Promise>, p: nat) {
    |after| == |before| && forall k :: 0 <= k < |before| && k != p ==> after[k] == before[k]
  }

  /** A response that has led to a promise leads to no other. */
  predicate FromSource(db: CaseDb, source: Option<string>) {
    source.Some? && exists p :: 0 <= p < |db.promises| && db.promises[p].source == source
  }

  predicate OneActive(db: CaseDb) {
    exists p :: 0 <= p < |db.promises| && db.promises[p].status.Active?
  }

  lemma {:induction false} BySourceIs(promises: seq<Promise>, source: string)
    ensures BySource(promises, source).Some? <==> exists p :: 0 <= p < |promises| && promises[p].source == Some(source)
  {
    if promises != [] {
      var n := |promises| - 1;
      BySourceIs(promises[..n], source);
      assert forall p :: 0 <= p < n ==> promises[..n][p] == promises[p];
    }
  }

  /** A promise is made unless its response has led to one before, or another is ACTIVE; its check is due with it. */
  lemma PromiseMadeExactlyWhen(db: CaseDb, due: Time, source: Option<string>, correlation: Correlation)
    ensures var tx, after := CreatePromise(db, due, source, correlation), Apply(db, Promised(due, source, correlation));
      if FromSource(db, source) then tx.Commit? && after == db && !tx.value.1 && db.promises[tx.value.0].source == source
      else if OneActive(db) then tx == Abort(UniqueViolation) && after == db
      else
        && tx.Commit? && tx.value == (|db.promises|, true) && Went(db, after, []) && Wrote(db, after, [PromiseCreated, PromiseCheckScheduled])
        && after.promises == db.promises + [Promise(Active, due, source, CheckPending, None)]
        && after.promiseEvents == db.promiseEvents + [PromiseEvent(|db.promises|, None, Active, correlation)]
  {
    if source.Some? {
      BySourceIs(db.promises, source.value);
    }
  }

  /** A check is taken if it is open, its promise is due, and no lease on it is running. */
  lemma CheckTakenExactlyWhen(db: CaseDb, p: nat, now: Time, lease: int)
    ensures ClaimDuePromise(db, p, now, lease).Commit? <==>
      && p < |db.promises| && db.promises[p].due <= now
      && (db.promises[p].check == CheckPending || (db.promises[p].check == CheckClaimed && LeaseOver(db.promises[p].checkLease, now)))
    ensures var after := Apply(db, ClaimCheck(p, now, lease));
      if ClaimDuePromise(db, p, now, lease).Abort? then after == db && ClaimDuePromise(db, p, now, lease).error == NoDueWork
      else
        && after == db.(promises := after.promises) && OnlyPromise(db.promises, after.promises, p)
        && after.promises[p] == db.promises[p].(check := CheckClaimed, checkLease := Some(now + lease))
  {
  }

  /** How a due promise turns out: kept if the case has been recovered, expired if its time is over, and otherwise broken. */
  predicate TurnsOut(db: CaseDb, now: Time, status: PromiseStatus) {
    && (status.Fulfilled? <==> db.state == Recovered)
    && (status.Expired? <==> db.state != Recovered && now >= db.deadline)
    && (status.Broken? <==> db.state != Recovered && now < db.deadline)
  }

  predicate LoggedFor(db: CaseDb, p: nat, correlation: Correlation) {
    exists k :: 0 <= k < |db.promiseEvents| && db.promiseEvents[k].promise == p && db.promiseEvents[k].correlation == correlation
  }

  function WhyUnresolved(db: CaseDb, p: nat): Error {
    if p >= |db.promises| then NotFound else if db.promises[p].status != Active then Conflict else UniqueViolation
  }

  /** A promise is resolved if it is ACTIVE and not resolved before under its check's id; a simulated outcome is kept or broken. */
  lemma ResolvedExactlyWhen(db: CaseDb, p: nat, forced: Option<PromiseStatus>, now: Time)
    ensures ResolvePromise(db, p, forced, now).Commit? <==>
      && p < |db.promises| && db.promises[p].status == Active && !LoggedFor(db, p, OfCheck(p))
      && (forced.Some? ==> forced.value in {Fulfilled, Broken})
    ensures var tx := ResolvePromise(db, p, forced, now);
      tx.Abort? ==>
        && Apply(db, Resolve(p, forced, now)) == db
        && tx.error == if forced.Some? && forced.value !in {Fulfilled, Broken} then InvalidInput else WhyUnresolved(db, p)
  {
  }

  /** Whether a promise that turns out so takes the case back to a decision: a broken one, while the case waits or is escalated. */
  predicate SendsBack(db: CaseDb, target: PromiseStatus) {
    target.Broken? && db.state in {WaitingOutcome, Escalated}
  }

  /** Its check is closed with it, and a broken promise takes a case that waits or is escalated back to a decision. */
  lemma ResolutionTurnsOut(db: CaseDb, p: nat, forced: Option<PromiseStatus>, now: Time)
    requires ResolvePromise(db, p, forced, now).Commit?
    ensures var after, target := Apply(db, Resolve(p, forced, now)), ResolvePromise(db, p, forced, now).value;
      && (if forced.Some? then target == forced.value else TurnsOut(db, now, target))
      && OnlyPromise(db.promises, after.promises, p)
      && after.promises[p] == db.promises[p].(status := target, check := CheckCompleted, checkLease := None)
      && after.promiseEvents == db.promiseEvents + [PromiseEvent(p, Some(Active), target, OfCheck(p))]
      && Went(db, after, if SendsBack(db, target) then [Reassessing, ActionPending] else [])
  {
  }

  /** What is written of it. */
  lemma ResolutionEvents(db: CaseDb, p: nat, forced: Option<PromiseStatus>, now: Time)
    requires ResolvePromise(db, p, forced, now).Commit?
    ensures var target := ResolvePromise(db, p, forced, now).value;
      Wrote(db, Apply(db, Resolve(p, forced, now)),
            [match target case Fulfilled => PromiseFulfilled case Expired => PromiseExpired case _ => PromiseBroken]
            + if SendsBack(db, target) then [StateTransitioned, StateTransitioned] else [])
  {
    var target := ResolvePromise(db, p, forced, now).value;
    var moved := TransitionPromise(db, p, target, OfCheck(p)).rows;
    TransitionWrites(db, p, target);
    SentBackWrites(db, CloseCheck(moved, p, CheckCompleted), target);
    WroteOn(db, CloseCheck(moved, p, CheckCompleted), Apply(db, Resolve(p, forced, now)),
            [match target case Fulfilled => PromiseFulfilled case Expired => PromiseExpired case _ => PromiseBroken],
            if SendsBack(db, target) then [StateTransitioned, StateTransitioned] else []);
  }

  lemma TransitionWrites(db: CaseDb, p: nat, target: PromiseStatus)
    requires TransitionPromise(db, p, target, OfCheck(p)).Commit? && (target.Fulfilled? || target.Expired? || target.Broken?)
    ensures var closed := CloseCheck(TransitionPromise(db, p, target, OfCheck(p)).rows, p, CheckCompleted);
      closed.state == db.state && Wrote(db, closed, [match target case Fulfilled => PromiseFulfilled case Expired => PromiseExpired case _ => PromiseBroken])
  {
  }

  lemma SentBackWrites(db: CaseDb, closed: CaseDb, target: PromiseStatus)
    requires closed.state == db.state
    ensures Wrote(closed, AfterPromise(closed, target), if SendsBack(db, target) then [StateTransitioned, StateTransitioned] else [])
  {
    if SendsBack(db, target) {
      LogWrites(Advance(Advance(closed, Reassessing), ActionPending), [StateTransitioned, StateTransitioned]);
    }
  }

  /** A promise is cancelled if it is ACTIVE and the cancellation is new. */
  lemma CancelledExactlyWhen(db: CaseDb, p: nat, correlation: Correlation)
    ensures CancelPromise(db, p, correlation).Commit? <==> p < |db.promises| && db.promises[p].status == Active && !LoggedFor(db, p, correlation)
    ensures var tx := CancelPromise(db, p, correlation);
      tx.Abort? ==> tx.error == WhyUnresolved(db, p) && Apply(db, Cancel(p, correlation)) == db
  {
  }

  /** An open check goes with it, and the case stays as it is. */
  lemma CancellationTakesCheck(db: CaseDb, p: nat, correlation: Correlation)
    requires CancelPromise(db, p, correlation).Commit?
    ensures var after := Apply(db, Cancel(p, correlation));
      && OnlyPromise(db.promises, after.promises, p) && Went(db, after, []) && Wrote(db, after, [PromiseCancelled])
      && after.promises[p].status.Cancelled?
      && after.promises[p].check == (if db.promises[p].check in {CheckPending, CheckClaimed} then CheckCancelled else db.promises[p].check)
      && after.promiseEvents == db.promiseEvents + [PromiseEvent(p, Some(Active), Cancelled, correlation)]
  {
  }

  // ----- payments -----

  /** The ACTIVE promise that a recorded payment keeps, if it keeps one. */
  predicate KeepsPromise(db: CaseDb, row: Attribution) {
    row.promise.Some? && row.promise.value < |db.promises| && db.promises[row.promise.value].status == Active
  }

  lemma WroteOn(a: CaseDb, b: CaseDb, c: CaseDb, first: seq<EventType>, more: seq<EventType>)
    requires Wrote(a, b, first) && Wrote(b, c, more)
    ensures Wrote(a, c, first + more)
  {
    assert c.events[..|a.events|] == c.events[..|b.events|][..|a.events|];
    forall k | 0 <= k < |first + more| ensures c.events[|a.events| + k].kind == (first + more)[k] {
      if k < |first| {
        assert c.events[|a.events| + k] == c.events[..|b.events|][|a.events| + k];
      } else {
        assert c.events[|b.events| + (k - |first|)].kind == more[k - |first|];
      }
    }
  }

  lemma PromiseKeptFirst(db: CaseDb, row: Attribution, finding: AttributionRules.Finding, correlation: Correlation)
    requires KeepPromise(db, finding, correlation).Commit? && row.promise == finding.promise
    ensures var kept := KeepPromise(db, finding, correlation).rows;
      && Went(db, kept, []) && Wrote(db, kept, if KeepsPromise(db, row) then [PromiseFulfilled] else [])
      && kept.promiseEvents == db.promiseEvents
           + if KeepsPromise(db, row) then [PromiseEvent(row.promise.value, Some(Active), Fulfilled, correlation)] else []
  {
  }

  lemma CaseClosedThen(db: CaseDb, amount: int, decision: Option<nat>)
    ensures var closed := CloseRecovered(db, amount, decision);
      && Went(db, closed, [Recovered]) && closed.promiseEvents == db.promiseEvents
      && Wrote(db, closed, [StateTransitioned, RecoveryAttributed, RecoveryCompleted] + if decision.Some? then [FeedbackRecorded] else [])
  {
    var kinds := [StateTransitioned, RecoveryAttributed, RecoveryCompleted] + if decision.Some? then [FeedbackRecorded] else [];
    var closed := Advance(db, Recovered);
    LogWrites(closed.(recovered := closed.recovered + amount), kinds);
  }

  lemma LogWrites(db: CaseDb, kinds: seq<EventType>)
    ensures Wrote(db, Log(db, kinds), kinds)
  {
  }

  /** The rows of a recorded payment: the attribution, the promise it keeps, and the end of the case. */
  lemma PaymentStages(db: CaseDb, reference: string, amount: int, observed: Time, correlation: Correlation) returns (finding: AttributionRules.Finding)
    requires Accounted(db) && Payments.Recordable(db, reference, amount, observed, correlation)
    ensures var after := Apply(db, Attribute(reference, amount, observed, correlation));
      && |after.attributions| == 1 && after.attributions[0].promise == finding.promise
      && var kept := KeepPromise(db.(attributions := after.attributions), finding, correlation);
         kept.Commit? && after == CloseRecovered(kept.rows, amount, after.attributions[0].decision)
  {
    Payments.RecordedExactlyWhen(db, reference, amount, observed, correlation);
    Payments.CascadeExplains(db, reference, observed);
    Payments.LedgerRow(db, reference, amount, observed, correlation);
    finding := AttributionRules.Cascade(db, reference, observed).value;
  }

  /** A recorded payment closes the case from any state, and writes what it did: the promise it kept, the recovery, and what is learnt if there was a decision. */
  lemma PaymentCloses(db: CaseDb, reference: string, amount: int, observed: Time, correlation: Correlation)
    requires Accounted(db) && Payments.Recordable(db, reference, amount, observed, correlation)
    ensures var after := Apply(db, Attribute(reference, amount, observed, correlation));
      && |after.attributions| == 1 && Went(db, after, [Recovered])
      && Wrote(db, after, (if KeepsPromise(db, after.attributions[0]) then [PromiseFulfilled] else [])
                          + ([StateTransitioned, RecoveryAttributed, RecoveryCompleted]
                             + if after.attributions[0].decision.Some? then [FeedbackRecorded] else []))
      && after.promiseEvents == db.promiseEvents
           + if KeepsPromise(db, after.attributions[0]) then [PromiseEvent(after.attributions[0].promise.value, Some(Active), Fulfilled, correlation)] else []
  {
    var finding := PaymentStages(db, reference, amount, observed, correlation);
    var after := Apply(db, Attribute(reference, amount, observed, correlation));
    ClosedInStages(db, after, finding, amount, correlation);
  }

  lemma ClosedInStages(db: CaseDb, after: CaseDb, finding: AttributionRules.Finding, amount: int, correlation: Correlation)
    requires |after.attributions| == 1 && after.attributions[0].promise == finding.promise
    requires var kept := KeepPromise(db.(attributions := after.attributions), finding, correlation);
      kept.Commit? && after == CloseRecovered(kept.rows, amount, after.attributions[0].decision)
    ensures Went(db, after, [Recovered])
    ensures Wrote(db, after, (if KeepsPromise(db, after.attributions[0]) then [PromiseFulfilled] else [])
                             + ([StateTransitioned, RecoveryAttributed, RecoveryCompleted]
                                + if after.attributions[0].decision.Some? then [FeedbackRecorded] else []))
    ensures after.promiseEvents == db.promiseEvents
              + if KeepsPromise(db, after.attributions[0]) then [PromiseEvent(after.attributions[0].promise.value, Some(Active), Fulfilled, correlation)] else []
  {
    var row, recorded := after.attributions[0], db.(attributions := after.attributions);
    var kept := KeepPromise(recorded, finding, correlation).rows;
    PromiseKeptFirst(recorded, row, finding, correlation);
    CaseClosedThen(kept, amount, row.decision);
    TwoStages(db, recorded, kept, after, if KeepsPromise(db, row) then [PromiseFulfilled] else [],
              [StateTransitioned, RecoveryAttributed, RecoveryCompleted] + if row.decision.Some? then [FeedbackRecorded] else []);
  }

  lemma TwoStages(db: CaseDb, recorded: CaseDb, kept: CaseDb, after: CaseDb, first: seq<EventType>, more: seq<EventType>)
    requires recorded.events == db.events && recorded.trail == db.trail && recorded.version == db.version && recorded.state == db.state
    requires Went(recorded, kept, []) && Wrote(recorded, kept, first) && Went(kept, after, [Recovered]) && Wrote(kept, after, more)
    ensures Went(db, after, [Recovered]) && Wrote(db, after, first + more)
  {
    WroteOn(recorded, kept, after, first, more);
  }

  // ----- responses and manual transitions -----

  /** A response counts once; it takes a case that waits back to a decision unless it acknowledges or promises. */
  lemma ResponseReopensExactlyWhen(db: CaseDb, correlation: string, kind: ResponseType)
    ensures var after := Apply(db, Respond(correlation, kind));
      if correlation in db.responses then after == db
      else if db.state == WaitingOutcome && kind in {IntentToPay, OptOut, PaymentMethodIssue, Unresolved} then
        && Went(db, after, [Reassessing, ActionPending]) && Wrote(db, after, [CustomerResponded, StateTransitioned, StateTransitioned])
        && after.responses == db.responses + {correlation}
      else Went(db, after, []) && Wrote(db, after, [CustomerResponded]) && after.responses == db.responses + {correlation}
  {
  }

  /** A manual transition looks at the version alone, and names its target in the log for the eight states that have an event. */
  lemma TransitionedExactlyWhen(db: CaseDb, expected: nat, to: CaseState)
    ensures var after := Apply(db, Transition(expected, to));
      if db.version != expected then after == db && TransitionCase(db, expected, to) == Abort(Conflict)
      else
        && Went(db, after, [to]) && |after.events| == |db.events| + 1 && after.events[..|db.events|] == db.events
        && (after.events[|db.events|].kind == StateTransitioned <==> to in {Detected, ActionPending, PolicyReview, Reassessing})
  {
  }

}
