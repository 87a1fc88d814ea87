/**
 * The repository: the tables of one case as fields, and each transaction as a method that updates them
 * step by step. A method that fails part-way puts the rows back as they were when the transaction began.
 */
module CaseStore {
  import opened Wrappers
  import opened Domain
  import opened CaseRows
  import CaseSteps
  import AttributionRules
  import Policy

  datatype Reply<+T> = Ok(value: T) | Fail(error: Error)

  /** What a caller sees of a transaction. */
  function ReplyOf<T>(tx: Tx<T>): Reply<T> {
    if tx.Commit? then Ok(tx.value) else Fail(tx.error)
  }

  class Store {
    var state: CaseState
    var version: nat
    var deadline: Time
    var recovered: int
    var schedules: seq<Schedule>
    var executions: seq<Execution>
    var decisions: seq<DecisionRow>
    var policies: seq<PolicyRow>
    var reviews: seq<Review>
    var promises: seq<Promise>
    var promiseEvents: seq<PromiseEvent>
    var attributions: seq<Attribution>
    var responses: set<string>
    var events: seq<Event>
    /** History only: the states the case has been in. */
    var trail: seq<CaseState>

    function View(): CaseDb
      reads this
    {
      CaseDb(state, version, trail, deadline, recovered, schedules, executions, decisions, policies, reviews, promises,
             promiseEvents, attributions, responses, events)
    }

    /** A case is created DETECTED, at version 1, with its two events. */
    constructor (deadline: Time)
      ensures View() == NewCase(deadline)
    {
      this.state, this.version, this.deadline, this.recovered := Detected, 1, deadline, 0;
      this.schedules, this.executions, this.decisions, this.policies, this.reviews := [], [], [], [], [];
      this.promises, this.promiseEvents, this.attributions, this.responses := [], [], [], {};
      this.events, this.trail := [Event(1, RevenueRiskDetected), Event(2, CaseCreated)], [Detected];
    }

    // ----- shared by the transactions -----

    method Rollback(to: CaseDb)
      modifies this
      ensures View() == to
    {
      state, version, trail, deadline, recovered := to.state, to.version, to.trail, to.deadline, to.recovered;
      schedules, executions, decisions, policies := to.schedules, to.executions, to.decisions, to.policies;
      RestoreOthers(to);
    }

    method RestoreOthers(to: CaseDb)
      modifies this`reviews, this`promises, this`promiseEvents, this`attributions, this`responses, this`events
      ensures reviews == to.reviews && promises == to.promises && promiseEvents == to.promiseEvents
      ensures attributions == to.attributions && responses == to.responses && events == to.events
    {
      reviews, promises, promiseEvents, attributions := to.reviews, to.promises, to.promiseEvents, to.attributions;
      responses, events := to.responses, to.events;
    }

    method SetState(to: CaseState)
      modifies this`state, this`version, this`trail
      ensures View() == Advance(old(View()), to)
    {
      state, version, trail := to, version + 1, trail + [to];
    }

    method NextSequence() returns (sequence: int)
      ensures sequence == MaxSequence(events) + 1
    {
      var max := 0;
      for i := 0 to |events|
        invariant max == MaxSequence(events[..i])
      {
        assert events[..i + 1][..i] == events[..i];
        if events[i].sequence > max { max := events[i].sequence; }
      }
      assert events[..|events|] == events;
      sequence := max + 1;
    }

    method InsertEvents(kinds: seq<EventType>)
      modifies this`events
      ensures View() == Log(old(View()), kinds)
    {
      var sequence := NextSequence();
      for i := 0 to |kinds|
        invariant events == old(events) + Numbered(sequence, kinds[..i])
      {
        assert Numbered(sequence, kinds[..i + 1]) == Numbered(sequence, kinds[..i]) + [Event(sequence + i, kinds[i])];
        events := events + [Event(sequence + i, kinds[i])];
      }
      assert kinds[..|kinds|] == kinds;
    }

    // ----- decisions -----

    method PrepareForDecision() returns (reply: Reply<()>)
      modifies this
      ensures View() == After(old(View()), CaseSteps.PrepareForDecision(old(View())))
      ensures reply == ReplyOf(CaseSteps.PrepareForDecision(old(View())))
    {
      var targets: seq<(CaseState, EventType)>;
      match state {
        case Detected => targets := [(Diagnosing, DiagnosisStarted), (ActionPending, DiagnosisCompleted)];
        case Diagnosing => targets := [(ActionPending, DiagnosisCompleted)];
        case Reassessing => targets := [(ActionPending, StateTransitioned)];
        case ActionPending => return Ok(());
        case _ => return Fail(Conflict);
      }
      SetState(targets[0].0);
      if |targets| > 1 {
        SetState(targets[1].0);
        InsertEvents([targets[0].1, targets[1].1]);
      } else {
        InsertEvents([targets[0].1]);
      }
      reply := Ok(());
    }

    method SaveDecision(s: CaseSteps.Snapshot) returns (reply: Reply<()>)
      modifies this
      ensures View() == After(old(View()), CaseSteps.SaveDecision(old(View()), s))
      ensures reply == ReplyOf(CaseSteps.SaveDecision(old(View()), s))
    {
      if version != s.caseVersion {
        return Fail(Conflict);
      }
      var begun := View();
      decisions := decisions + [DecisionRow(s.caseVersion, s.gate, s.incentive, s.createdAt)];
      policies := policies + [PolicyRow(|decisions| - 1, s.verdict, false)];
      InsertEvents(CaseSteps.DecisionEvents(s));
      if s.verdict.Escalate? {
        if !state.ActionPending? {
          Rollback(begun);
          return Fail(Conflict);
        }
        SetState(Escalated);
      } else if s.verdict.StopCase? && !IsTerminal(state) {
        SetState(Stopped);
      }
      reply := Ok(());
    }

    method ScheduleDecision(s: CaseSteps.Snapshot, decision: nat, policy: nat, now: Time) returns (reply: Reply<nat>)
      modifies this
      ensures View() == After(old(View()), CaseSteps.ScheduleDecision(old(View()), s, decision, policy, now))
      ensures reply == ReplyOf(CaseSteps.ScheduleDecision(old(View()), s, decision, policy, now))
    {
      if !state.ActionPending? || version != s.caseVersion {
        return Fail(Conflict);
      }
      SetState(PolicyReview);
      SetState(Scheduled);
      schedules := schedules + [NewSchedule(s.gate.action, decision, policy, version, now)];
      InsertEvents([StateTransitioned, StateTransitioned, ActionScheduled]);
      reply := Ok(|schedules| - 1);
    }

    method SaveDecisionAndSchedule(s: CaseSteps.Snapshot, now: Time) returns (reply: Reply<Option<nat>>)
      modifies this
      ensures View() == After(old(View()), CaseSteps.SaveDecisionAndSchedule(old(View()), s, now))
      ensures reply == ReplyOf(CaseSteps.SaveDecisionAndSchedule(old(View()), s, now))
    {
      var begun := View();
      var saved := SaveDecision(s);
      if saved.Fail? {
        return Fail(saved.error);
      }
      reply := Ok(None);
      if s.verdict.Approve? {
        if !s.gate.allow {
          Rollback(begun);
          return Fail(BlockedByGate);
        }
        if !s.gate.action.Wait? {
          var scheduled := ScheduleDecision(s, |decisions| - 1, |policies| - 1, now);
          if scheduled.Fail? {
            Rollback(begun);
            return Fail(scheduled.error);
          }
          reply := Ok(Some(scheduled.value));
        }
      }
    }

    // ----- executing schedules -----

    method ClaimDue(i: nat, owner: nat, now: Time, lease: int) returns (reply: Reply<Schedule>)
      modifies this`schedules
      ensures View() == After(old(View()), CaseSteps.ClaimDue(old(View()), i, owner, now, lease))
      ensures reply == ReplyOf(CaseSteps.ClaimDue(old(View()), i, owner, now, lease))
    {
      if i >= |schedules| || !Claimable(schedules[i], now) {
        return Fail(NoDueWork);
      }
      var s := schedules[i];
      s := s.(status := Claimed, leaseOwner := Some(owner), leaseExpires := Some(now + lease));
      s := s.(attempt := s.attempt + 1);
      schedules := schedules[i := s];
      reply := Ok(s);
    }

    method MarkExecuting(i: nat, now: Time) returns (reply: Reply<()>)
      modifies this
      ensures View() == After(old(View()), CaseSteps.MarkExecuting(old(View()), i, now))
      ensures reply == ReplyOf(CaseSteps.MarkExecuting(old(View()), i, now))
    {
      if i >= |schedules| || !schedules[i].status.Claimed? {
        return Fail(Conflict);
      }
      var s := schedules[i].(status := Running);
      if s.started.None? {
        s := s.(started := Some(now));
      }
      schedules := schedules[i := s];
      if state.Scheduled? {
        SetState(Executing);
        schedules := schedules[i := s.(stamp := version)];
      }
      reply := Ok(());
    }

    method ExecutionExists(i: nat, attempt: nat) returns (found: bool)
      ensures found == CaseSteps.HasExecution(View(), i, attempt)
    {
      found := false;
      for k := 0 to |executions|
        invariant !found
        invariant forall j :: 0 <= j < k ==> executions[j].schedule != i || executions[j].attempt != attempt
      {
        if executions[k].schedule == i && executions[k].attempt == attempt {
          return true;
        }
      }
    }

    /** Insert the execution of an attempt unless it has one. */
    method RecordExecution(i: nat, claim: Schedule, result: ProviderResult, now: Time)
      modifies this`executions
      ensures View() == CaseSteps.RecordExecution(old(View()), i, claim, result, now)
    {
      var recorded := ExecutionExists(i, claim.attempt);
      if !recorded {
        executions := executions + [Execution(i, claim.attempt, claim.action, CaseSteps.Normalised(result.status), result.reference, now)];
      }
    }

    /** A final result moves an EXECUTING case on. */
    method MoveOn(failed: bool)
      modifies this`state, this`version, this`trail
      ensures View() == CaseSteps.Outcome(old(View()), failed)
    {
      if state.Executing? {
        SetState(if failed then Reassessing else WaitingOutcome);
        if failed {
          SetState(ActionPending);
        }
      }
    }

    method CompleteExecution(i: nat, claim: Schedule, result: ProviderResult, now: Time) returns (reply: Reply<()>)
      modifies this
      ensures View() == After(old(View()), CaseSteps.CompleteExecution(old(View()), i, claim, result, now))
      ensures reply == ReplyOf(CaseSteps.CompleteExecution(old(View()), i, claim, result, now))
    {
      if i >= |schedules| {
        return Fail(NotFound);
      }
      var failed := !result.status.Succeeded? && !result.status.OutcomePending?;
      RecordExecution(i, claim, result, now);
      if failed && result.retryable && claim.attempt < claim.maxAttempts {
        var due := now + CaseSteps.Backoff(claim.attempt);
        schedules := schedules[i := schedules[i].(status := RetryPending, nextRetry := Some(due), leaseOwner := None, leaseExpires := None)];
        return Ok(());
      }
      var final, action, event, observe := ObservationPending, HasExecuted, EventType.ActionExecuted, Some(now + 24 * HOUR);
      if failed {
        final, action, event, observe := FailedForGood, HasFailed, EventType.ActionFailed, None;
      }
      schedules := schedules[i := schedules[i].(status := final, completed := Some(now), nextRetry := observe, leaseOwner := None,
                                                leaseExpires := None, actionStatus := action)];
      MoveOn(failed);
      InsertEvents([event]);
      reply := Ok(());
    }

    method MarkSuppressed(i: nat, now: Time) returns (reply: Reply<()>)
      modifies this
      ensures View() == After(old(View()), CaseSteps.MarkSuppressed(old(View()), i, now))
      ensures reply == ReplyOf(CaseSteps.MarkSuppressed(old(View()), i, now))
    {
      if i >= |schedules| {
        return Fail(NotFound);
      }
      var s := schedules[i];
      if s.status.Claimed? || s.status.Pending? || s.status.RetryPending? {
        schedules := schedules[i := s.(status := Superseded, completed := Some(now), leaseOwner := None, leaseExpires := None)];
      }
      InsertEvents([ActionSuppressed]);
      reply := Ok(());
    }

    method ClaimDueObservation(i: nat, owner: nat, now: Time, lease: int) returns (reply: Reply<Schedule>)
      modifies this`schedules
      ensures View() == After(old(View()), CaseSteps.ClaimDueObservation(old(View()), i, owner, now, lease))
      ensures reply == ReplyOf(CaseSteps.ClaimDueObservation(old(View()), i, owner, now, lease))
    {
      if i >= |schedules| || !Observable(schedules[i], now) {
        return Fail(NoDueWork);
      }
      var s := schedules[i].(status := ObservationClaimed, leaseOwner := Some(owner), leaseExpires := Some(now + lease));
      schedules := schedules[i := s];
      reply := Ok(s);
    }

    method PrepareReassessment(i: nat, now: Time) returns (reply: Reply<bool>)
      modifies this
      ensures View() == After(old(View()), CaseSteps.PrepareReassessment(old(View()), i, now))
      ensures reply == ReplyOf(CaseSteps.PrepareReassessment(old(View()), i, now))
    {
      if i >= |schedules| {
        return Fail(NotFound);
      }
      var ready := false;
      if state.WaitingOutcome? {
        if deadline <= now {
          SetState(Exhausted);
        } else {
          SetState(Reassessing);
          SetState(ActionPending);
          ready := true;
        }
      }
      if schedules[i].status.ObservationClaimed? {
        schedules := schedules[i := schedules[i].(status := Observed, leaseOwner := None, leaseExpires := None)];
      }
      InsertEvents([OutcomeObserved]);
      reply := Ok(ready);
    }

    // ----- promises -----

    method ActivePromiseExists() returns (found: bool)
      ensures found == HasActivePromise(View())
    {
      for p := 0 to |promises|
        invariant forall q :: 0 <= q < p ==> !promises[q].status.Active?
      {
        if promises[p].status.Active? {
          return true;
        }
      }
      found := false;
    }

    method FindBySource(source: string) returns (found: Option<nat>)
      ensures found == CaseSteps.BySource(promises, source)
    {
      found := None;
      for p := 0 to |promises|
        invariant found == CaseSteps.BySource(promises[..p], source)
      {
        assert promises[..p + 1][..p] == promises[..p];
        if promises[p].source == Some(source) { found := Some(p); }
      }
      assert promises[..|promises|] == promises;
    }

    method CreatePromise(due: Time, source: Option<string>, correlation: Correlation) returns (reply: Reply<(nat, bool)>)
      modifies this
      ensures View() == After(old(View()), CaseSteps.CreatePromise(old(View()), due, source, correlation))
      ensures reply == ReplyOf(CaseSteps.CreatePromise(old(View()), due, source, correlation))
    {
      if source.Some? {
        var existing := FindBySource(source.value);
        if existing.Some? {
          return Ok((existing.value, false));
        }
      }
      var taken := ActivePromiseExists();
      if taken {
        return Fail(UniqueViolation);
      }
      var p := |promises|;
      promises := promises + [Promise(Active, due, source, CheckPending, None)];
      promiseEvents := promiseEvents + [PromiseEvent(p, None, Active, correlation)];
      InsertEvents([PromiseCreated, PromiseCheckScheduled]);
      reply := Ok((p, true));
    }

    method ClaimDuePromise(p: nat, now: Time, lease: int) returns (reply: Reply<Promise>)
      modifies this`promises
      ensures View() == After(old(View()), CaseSteps.ClaimDuePromise(old(View()), p, now, lease))
      ensures reply == ReplyOf(CaseSteps.ClaimDuePromise(old(View()), p, now, lease))
    {
      if p >= |promises| || !CaseSteps.CheckClaimable(promises[p], now) {
        return Fail(NoDueWork);
      }
      promises := promises[p := promises[p].(check := CheckClaimed, checkLease := Some(now + lease))];
      reply := Ok(promises[p]);
    }

    method PromiseEventExists(p: nat, correlation: Correlation) returns (found: bool)
      ensures found == CaseSteps.HasEvent(View(), p, correlation)
    {
      for k := 0 to |promiseEvents|
        invariant forall j :: 0 <= j < k ==> promiseEvents[j].promise != p || promiseEvents[j].correlation != correlation
      {
        if promiseEvents[k].promise == p && promiseEvents[k].correlation == correlation {
          return true;
        }
      }
      found := false;
    }

    method TransitionPromise(p: nat, target: PromiseStatus, correlation: Correlation) returns (reply: Reply<()>)
      modifies this
      ensures View() == After(old(View()), CaseSteps.TransitionPromise(old(View()), p, target, correlation))
      ensures reply == ReplyOf(CaseSteps.TransitionPromise(old(View()), p, target, correlation))
    {
      if p >= |promises| {
        return Fail(NotFound);
      }
      if !promises[p].status.Active? {
        return Fail(Conflict);
      }
      if target.Active? {
        return Fail(InvalidInput);
      }
      var seen := PromiseEventExists(p, correlation);
      if seen {
        return Fail(UniqueViolation);
      }
      promises := promises[p := promises[p].(status := target)];
      promiseEvents := promiseEvents + [PromiseEvent(p, Some(Active), target, correlation)];
      InsertEvents([CaseSteps.PromiseOutcomeEvent(target)]);
      reply := Ok(());
    }

    method ResolvePromise(p: nat, forced: Option<PromiseStatus>, now: Time) returns (reply: Reply<PromiseStatus>)
      modifies this
      ensures View() == After(old(View()), CaseSteps.ResolvePromise(old(View()), p, forced, now))
      ensures reply == ReplyOf(CaseSteps.ResolvePromise(old(View()), p, forced, now))
    {
      if forced.Some? && !forced.value.Fulfilled? && !forced.value.Broken? {
        return Fail(InvalidInput);
      }
      var target := if forced.Some? then forced.value else Broken;
      if forced.None? && state.Recovered? {
        target := Fulfilled;
      } else if forced.None? && deadline <= now {
        target := Expired;
      }
      var resolved := TransitionPromise(p, target, OfCheck(p));
      if resolved.Fail? {
        return Fail(resolved.error);
      }
      promises := promises[p := promises[p].(check := CheckCompleted, checkLease := None)];
      if target.Broken? && (state.WaitingOutcome? || state.Escalated?) {
        SetState(Reassessing);
        SetState(ActionPending);
        InsertEvents([StateTransitioned, StateTransitioned]);
      }
      reply := Ok(target);
    }

    method CancelPromise(p: nat, correlation: Correlation) returns (reply: Reply<()>)
      modifies this
      ensures View() == After(old(View()), CaseSteps.CancelPromise(old(View()), p, correlation))
      ensures reply == ReplyOf(CaseSteps.CancelPromise(old(View()), p, correlation))
    {
      reply := TransitionPromise(p, Cancelled, correlation);
      if reply.Ok? && OpenCheck(promises[p]) {
        promises := promises[p := promises[p].(check := CheckCancelled)];
      }
    }

    // ----- payments -----

    method AlreadyAttributed(reference: string) returns (found: bool)
      ensures found == CaseSteps.Attributed(View(), reference)
    {
      for k := 0 to |attributions|
        invariant forall j :: 0 <= j < k ==> attributions[j].reference != reference
      {
        if attributions[k].reference == reference {
          return true;
        }
      }
      found := false;
    }

    /** Whether no execution had completed by the time of the observation. */
    method NothingCompleted(observed: Time) returns (none: bool)
      ensures none == !AttributionRules.AnyCompleted(executions, observed)
    {
      for k := 0 to |executions|
        invariant forall j :: 0 <= j < k ==> executions[j].completedAt > observed
      {
        if executions[k].completedAt <= observed {
          return false;
        }
      }
      none := true;
    }

    /** The evidence, strongest first; each stage is tried only if the ones before it found nothing. */
    method Classify(reference: string, observed: Time) returns (finding: Option<AttributionRules.Finding>)
      ensures finding == AttributionRules.Cascade(View(), reference, observed)
    {
      var category, execution, promise := Unknown, None, None;
      var exact := AttributionRules.ByReference(View(), reference);
      if exact.Some? {
        category, execution := DirectAction, exact;
        if IsRetry(executions[exact.value].kind) {
          category := Retry;
        }
      }
      var matching := AttributionRules.FirstDue(promises, observed);
      if category.Unknown? && matching.Some? {
        category, promise := KeptPromise, matching;
      } else if matching.Some? {
        return None;
      }
      if category.Unknown? {
        var retry := AttributionRules.ByRetry(View(), observed);
        if retry.Some? {
          category, execution := Retry, retry;
        }
      }
      if category.Unknown? {
        var action := AttributionRules.ByAction(View(), observed);
        if action.Some? {
          category, execution := DirectAction, action;
        }
      }
      if category.Unknown? {
        var none := NothingCompleted(observed);
        if none {
          category := Natural;
        }
      }
      finding := Some(AttributionRules.Finding(category, execution, promise));
    }

    method AttributeRecovery(reference: string, amount: int, observed: Time, correlation: Correlation) returns (reply: Reply<bool>)
      modifies this
      ensures View() == After(old(View()), CaseSteps.AttributeRecovery(old(View()), reference, amount, observed, correlation))
      ensures reply == ReplyOf(CaseSteps.AttributeRecovery(old(View()), reference, amount, observed, correlation))
    {
      if reference == "" || amount <= 0 {
        return Fail(InvalidInput);
      }
      if state.Recovered? || state.Exhausted? || state.Stopped? {
        return Fail(CaseTerminal);
      }
      var existing := AlreadyAttributed(reference);
      if existing {
        return Ok(false);
      }
      var begun := View();
      var finding := Classify(reference, observed);
      if finding.None? {
        return Fail(LostSilently);
      }
      var row := CaseSteps.AttributionRow(View(), finding.value, reference, amount, observed);
      attributions := attributions + [row];
      var kept := KeepPromise(finding.value, correlation);
      if kept.Fail? {
        Rollback(begun);
        return Fail(kept.error);
      }
      CloseRecovered(amount, row.decision);
      reply := Ok(true);
    }

    method KeepPromise(finding: AttributionRules.Finding, correlation: Correlation) returns (reply: Reply<()>)
      modifies this
      ensures View() == After(old(View()), CaseSteps.KeepPromise(old(View()), finding, correlation))
      ensures reply == ReplyOf(CaseSteps.KeepPromise(old(View()), finding, correlation))
    {
      var promise := finding.promise;
      reply := Ok(());
      if promise.Some? && promise.value < |promises| && promises[promise.value].status.Active? {
        reply := TransitionPromise(promise.value, Fulfilled, correlation);
      }
    }

    method CloseRecovered(amount: int, decision: Option<nat>)
      modifies this
      ensures View() == CaseSteps.CloseRecovered(old(View()), amount, decision)
    {
      SetState(Recovered);
      recovered := recovered + amount;
      var kinds := [StateTransitioned, RecoveryAttributed, RecoveryCompleted];
      if decision.Some? {
        kinds := kinds + [FeedbackRecorded];
      }
      InsertEvents(kinds);
    }

    // ----- customers and operators -----

    method SaveCustomerResponse(correlation: string, kind: CaseSteps.ResponseType) returns (reply: Reply<bool>)
      modifies this
      ensures View() == After(old(View()), CaseSteps.SaveCustomerResponse(old(View()), correlation, kind))
      ensures reply == ReplyOf(CaseSteps.SaveCustomerResponse(old(View()), correlation, kind))
    {
      if correlation in responses {
        return Ok(false);
      }
      responses := responses + {correlation};
      var kinds := [CustomerResponded];
      if state.WaitingOutcome? && !kind.Acknowledgement? && !kind.PromiseResponse? {
        SetState(Reassessing);
        SetState(ActionPending);
        kinds := kinds + [StateTransitioned, StateTransitioned];
      }
      InsertEvents(kinds);
      reply := Ok(true);
    }

    method ReviewExists(key: string) returns (found: bool)
      ensures found == CaseSteps.KnownReview(View(), key)
    {
      for k := 0 to |reviews|
        invariant forall j :: 0 <= j < k ==> reviews[j].key != key
      {
        if reviews[k].key == key {
          return true;
        }
      }
      found := false;
    }

    method ScheduleApproval(action: ActionType, about: nat, now: Time)
      modifies this
      ensures View() == CaseSteps.ScheduleApproval(old(View()), action, about, now)
    {
      policies := policies + [PolicyRow(about, Policy.Approve, true)];
      SetState(ActionPending);
      SetState(PolicyReview);
      SetState(Scheduled);
      schedules := schedules + [NewSchedule(action, about, |policies| - 1, version, now)];
    }

    method ApplyHumanReview(command: CaseSteps.ReviewCommand, policyVersion: int, now: Time) returns (reply: Reply<bool>)
      modifies this
      ensures View() == After(old(View()), CaseSteps.ApplyHumanReview(old(View()), command, policyVersion, now))
      ensures reply == ReplyOf(CaseSteps.ApplyHumanReview(old(View()), command, policyVersion, now))
    {
      var known := ReviewExists(command.key);
      if known {
        return Ok(false);
      }
      if command.about >= |decisions| {
        return Fail(NotFound);
      }
      var outcome := NotRequired;
      if command.decision.ReviewApprove? {
        outcome := CaseSteps.AuthorizeApproval(state, version, deadline, policyVersion, command, now);
      } else if !state.Escalated? {
        return Fail(NotReviewable);
      }
      var review := Review(command.key, command.decision, command.expected, version, outcome, None);
      if outcome.Approved? {
        ScheduleApproval(decisions[command.about].gate.action, command.about, now);
        review := review.(schedule := Some(|schedules| - 1));
      }
      if command.decision.ReviewStop? {
        SetState(Stopped);
      }
      reviews := reviews + [review];
      InsertEvents(CaseSteps.ReviewEvents(command.decision, outcome));
      reply := Ok(true);
    }

    // ----- the manual endpoints -----

    method TransitionCase(expected: nat, to: CaseState) returns (reply: Reply<()>)
      modifies this
      ensures View() == After(old(View()), CaseSteps.TransitionCase(old(View()), expected, to))
      ensures reply == ReplyOf(CaseSteps.TransitionCase(old(View()), expected, to))
    {
      if version != expected {
        return Fail(Conflict);
      }
      SetState(to);
      InsertEvents([EventForTransition(to)]);
      reply := Ok(());
    }

    method AppendEvent(kind: EventType) returns (reply: Reply<()>)
      modifies this`events
      ensures View() == After(old(View()), CaseSteps.AppendEvent(old(View()), kind))
      ensures reply == ReplyOf(CaseSteps.AppendEvent(old(View()), kind))
    {
      InsertEvents([kind]);
      reply := Ok(());
    }
  }
}
