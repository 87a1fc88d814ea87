/**
 * Building blocks for traces that show what can happen: a decision, a claim, a check, a mark, an answer, a
 * completion, each as a short trace from a given state with what it leads to.
 */
module Scripts {
  import opened Wrappers
  import opened Domain
  import opened CaseRows
  import opened CaseSteps
  import opened Transactions
  import opened Workflow
  import RateLimits
  import Orchestrator
  import EconomicGate
  import Policy
  import Eligibility

  // ----- the merchant, the customer and the diagnosis -----

  /** A merchant that allows two retries in all, an hour apart. */
  const LIMITS: Policy.Limits := Policy.Limits(2, 0, 0, 60)

  /** A failed subscription payment for that merchant, which allows nothing but retries and waiting. */
  const FACTS: Policy.Context :=
    Policy.Context(Detected, 0, false, 0, 1000, FailedSubscription, false, false, [], false, false, 9000, false, false, [],
                   Policy.Merchant([RetryNow, Wait], [], LIMITS, 0, 0, 5000, Policy.NoWindow), None, 0)

  /** The same for a merchant whose operators are asked about amounts as high as this. */
  const PRECIOUS: Policy.Context := FACTS.(merchant := FACTS.merchant.(highValueThreshold := 500))

  /** The same for a merchant that allows fifty-one retries. */
  const PATIENT: Policy.Context := FACTS.(merchant := FACTS.merchant.(limits := LIMITS.(maxRetries := 51)))

  const RETRY: Policy.Candidate := Policy.Candidate(RetryNow, 100, 0)

  const WAITING: Policy.Candidate := Policy.Candidate(Wait, 0, 0)

  const FAILURE: ProviderResult := ProviderResult(Failed, true, "")

  const SUCCESS: ProviderResult := ProviderResult(OutcomePending, false, "retry")

  // ----- disciplined traces, but for one condition -----

  /**
   * The condition of disciplined traces that a trace may break: none, the end of leases, not citing versions
   * ahead, the forward clock, the ban on manual transitions, or the whole history in view.
   */
  datatype Waiver = Nothing | Leases | Foresight | Clock | Manual | History

  /** What is waived, and the facts that every evaluation of the trace finds: they never change. */
  datatype Rules = Rules(waiver: Waiver, facts: Policy.Context)

  const FAIR: Rules := Rules(Nothing, FACTS)
  const LEASELESS: Rules := Rules(Leases, FACTS)
  const FORESEEING: Rules := Rules(Foresight, PRECIOUS)
  const BACKWARDS: Rules := Rules(Clock, FACTS)
  const HANDLED: Rules := Rules(Manual, FACTS)
  const FORGETFUL: Rules := Rules(History, PATIENT)

  /** Only WAIT and actions that are eligible and can be scored are ever ranked, so only they are decided on. */
  ghost predicate Rankable(c: Policy.Context, action: ActionType, now: Time) {
    action.Wait? || (Scoreable(action) && Eligibility.WhyNot(c, now, action).None?)
  }

  predicate Scoreable(a: ActionType) {
    || a.RetryNow? || a.RetryLater? || a.SendReminder? || a.SendPaymentLink? || a.SendCheckoutRecoveryLink?
    || a.RequestPaymentMethodUpdate? || a.SuggestAlternateMethod?
  }

  /** An evaluation of flight `f` finds the facts of the trace, and a decision weighs a candidate that can have been ranked. */
  ghost predicate Evaluates(w: Rules, sys: System, f: nat, facts: Policy.Context, candidate: Policy.Candidate, at: Time) {
    && facts == w.facts && (w.waiver.History? || |Past(sys.db.schedules)| <= HISTORY_LIMIT)
    && (f < |sys.flights| && sys.flights[f].purpose.Deciding? ==>
          Rankable(ContextOf(sys.db, sys.flights[f].state, sys.flights[f].version, facts), candidate.action, at))
  }

  /** A step that is disciplined in every respect but the one waived. */
  ghost predicate Tame(w: Rules, sys: System, step: Step, at: Time) {
    && (w.waiver.Clock? || sys.clock <= at) && (w.waiver.Manual? || !(step.Begin? && step.purpose.Moving?))
    && (w.waiver.Leases? || (Actor(step).Some? && Actor(step).value < |sys.runs| ==> at < sys.runs[Actor(step).value].now + LEASE))
    && (w.waiver.Foresight? || (step.Begin? && step.purpose.Approving? ==> step.purpose.expected <= sys.db.version))
    && (step.Check? ==> step.facts == w.facts)
    && (step.Assess? ==> Evaluates(w, sys, step.f, step.facts, step.candidate, at))
  }

  ghost predicate TameTrace(w: Rules, sys: System, trace: seq<Timed>) {
    trace == [] ||
    var n := |trace| - 1;
    TameTrace(w, sys, trace[..n]) && Tame(w, Reach(sys, trace[..n]), trace[n].step, trace[n].at)
  }

  /** Without a waiver such traces are disciplined. */
  lemma {:induction false} NothingWaived(w: Rules, sys: System, trace: seq<Timed>)
    requires w.waiver.Nothing? && TameTrace(w, sys, trace)
    ensures RateLimits.FairTrace(sys, trace, w.facts.merchant.limits)
  {
    if trace != [] {
      NothingWaived(w, sys, trace[..|trace| - 1]);
    }
  }

  ghost predicate Steps(w: Rules, a: System, t: Timed, b: System) {
    Tame(w, a, t.step, t.at) && b == Next(a, t.step, t.at)
  }

  ghost predicate Path(w: Rules, states: seq<System>, trace: seq<Timed>) {
    |states| == |trace| + 1 && forall k :: 0 <= k < |trace| ==> Steps(w, states[k], trace[k], states[k + 1])
  }

  /** `b` can be reached from `a`, breaking no condition of discipline but the one waived. */
  ghost predicate Leads(w: Rules, a: System, b: System) {
    exists states, trace :: Path(w, states, trace) && states[0] == a && states[|trace|] == b
  }

  lemma LeadsOn(w: Rules, a: System, b: System, c: System)
    requires Leads(w, a, b) && Leads(w, b, c)
    ensures Leads(w, a, c)
  {
    var p, s :| Path(w, p, s) && p[0] == a && p[|s|] == b;
    var q, t :| Path(w, q, t) && q[0] == b && q[|t|] == c;
    PathJoin(w, p, s, q, t);
    var states, trace := p + q[1..], s + t;
    assert Path(w, states, trace) && states[0] == a && states[|trace|] == c;
  }

  lemma PathJoin(w: Rules, p: seq<System>, s: seq<Timed>, q: seq<System>, t: seq<Timed>)
    requires Path(w, p, s) && Path(w, q, t) && p[|s|] == q[0]
    ensures Path(w, p + q[1..], s + t)
  {
    var states, trace := p + q[1..], s + t;
    forall k | 0 <= k < |trace| ensures Steps(w, states[k], trace[k], states[k + 1]) {
      if k < |s| {
        assert states[k] == p[k] && states[k + 1] == p[k + 1] && trace[k] == s[k];
      } else {
        var m := k - |s|;
        assert states[k] == q[m] && states[k + 1] == q[m + 1] && trace[k] == t[m];
      }
    }
  }

  lemma OneStep(w: Rules, a: System, step: Step, at: Time)
    requires Tame(w, a, step, at)
    ensures Leads(w, a, Next(a, step, at))
  {
    var b, t := Next(a, step, at), Timed(step, at);
    assert Path(w, [a, b], [t]);
  }

  /** Such a state is the result of a trace. */
  lemma LeadsByTrace(w: Rules, a: System, b: System) returns (trace: seq<Timed>)
    requires Leads(w, a, b)
    ensures TameTrace(w, a, trace) && Reach(a, trace) == b
  {
    var p, t :| Path(w, p, t) && p[0] == a && p[|t|] == b;
    PathReaches(w, p, t, |t|);
    assert t[..|t|] == t;
    trace := t;
  }

  lemma {:induction false} PathReaches(w: Rules, states: seq<System>, trace: seq<Timed>, n: nat)
    requires Path(w, states, trace) && n <= |trace|
    ensures TameTrace(w, states[0], trace[..n]) && Reach(states[0], trace[..n]) == states[n]
  {
    if n > 0 {
      PathReaches(w, states, trace, n - 1);
      assert Steps(w, states[n - 1], trace[n - 1], states[n]);
      assert trace[..n][..n - 1] == trace[..n - 1];
    }
  }

  predicate InLease(w: Rules, run: Run, at: Time) {
    w.waiver.Leases? || at < run.now + LEASE
  }

  // ----- claims and checks -----

  lemma Claims(w: Rules, a: System, i: nat, at: Time) returns (b: System)
    requires a.clock <= at
    requires i < |a.db.schedules| && Claimable(a.db.schedules[i], at)
    ensures Leads(w, a, b)
    ensures var run := NewRun(a.db, i, 0, at);
      b == System(SetSchedule(a.db, i, run.claim), at, a.runs + [run], a.flights)
  {
    OneStep(w, a, ClaimWork(i, 0), at);
    b := Next(a, ClaimWork(i, 0), at);
  }

  /** The facts differ from `FACTS` at most in the limit on retries and in whether an operator is asked. */
  predicate Usual(facts: Policy.Context) {
    facts.merchant.limits.maxRetries >= 0 && (facts.merchant.highValueThreshold == 0 || facts.merchant.highValueThreshold == 500)
    && facts == FACTS.(merchant := FACTS.merchant.(limits := LIMITS.(maxRetries := facts.merchant.limits.maxRetries),
                                                   highValueThreshold := facts.merchant.highValueThreshold))
  }

  /** The history in view leaves room for one more retry. */
  predicate RoomForRetry(w: Rules, recent: seq<Policy.RecentAction>, now: Time) {
    && Policy.CountRetries(recent) < w.facts.merchant.limits.maxRetries
    && !Policy.TooSoon(Policy.Latest(recent, false), now, LIMITS)
    && Eligibility.RealTimes(recent)
  }

  /** Nothing stands in the way of a retry. */
  predicate Smooth(w: Rules, db: CaseDb, now: Time) {
    && db.promises == [] && now < db.deadline && RoomForRetry(w, RecentHistory(db.schedules), now)
    && (w.waiver.History? || |Past(db.schedules)| <= HISTORY_LIMIT)
  }

  function VerdictFor(facts: Policy.Context): Policy.Decision {
    if facts.merchant.highValueThreshold > 0 then Policy.Escalate else Policy.Approve
  }

  lemma VerdictOf(w: Rules, c: Policy.Context, now: Time)
    requires Usual(w.facts) && !IsTerminal(c.state) && now < c.deadline && RoomForRetry(w, c.recent, now)
    requires c == w.facts.(state := c.state, version := c.version, deadline := c.deadline, recent := c.recent)
    ensures Policy.Judge(c, c.version, RETRY, true, now) == VerdictFor(w.facts)
  {
    assert c.merchant.limits.minIntervalMinutes == 60;
    assert !Policy.OverRetries(c, RETRY, now) && !Policy.OverContacts(c, RETRY, now);
    assert RetryNow in c.merchant.allowedActions;
    assert !Policy.Denied(c, c.version, RETRY, true, now) && !Policy.Stopped(c, now);
  }

  lemma RetryEligible(w: Rules, c: Policy.Context, now: Time)
    requires Usual(w.facts) && !IsTerminal(c.state) && now < c.deadline && RoomForRetry(w, c.recent, now)
    requires c == w.facts.(state := c.state, version := c.version, deadline := c.deadline, recent := c.recent)
    ensures Rankable(c, RetryNow, now)
  {
    assert RetryNow in c.merchant.allowedActions;
    if Eligibility.InCooldown(c.recent, RetryNow, now, 60) {
      Eligibility.CooldownSubsumed(c.recent, RetryNow, now, LIMITS);
    }
  }

  /** A retry is ranked, and approved or escalated as the merchant has it, in any open state. */
  lemma RetryApproved(w: Rules, db: CaseDb, state: CaseState, version: nat, now: Time)
    requires Usual(w.facts) && Smooth(w, db, now) && !IsTerminal(state)
    ensures Policy.Judge(ContextOf(db, state, version, w.facts), version, RETRY, true, now) == VerdictFor(w.facts)
    ensures Rankable(ContextOf(db, state, version, w.facts), RetryNow, now)
  {
    VerdictOf(w, ContextOf(db, state, version, w.facts), now);
    RetryEligible(w, ContextOf(db, state, version, w.facts), now);
  }

  /** The decision on record is to retry. */
  predicate Retries(db: CaseDb, decision: nat) {
    decision < |db.decisions| && db.decisions[decision].gate.allow && CandidateOf(db.decisions[decision]) == RETRY
  }

  /** A merchant that asks an operator has been given an approval of the schedule. */
  predicate Approved(w: Rules, db: CaseDb, policy: nat) {
    VerdictFor(w.facts).Approve? || HumanApproved(db, policy)
  }

  /** A run that reads the case when its schedule is fresh passes its check. */
  lemma Clears(w: Rules, a: System, r: nat, at: Time) returns (b: System)
    requires a.clock <= at && r < |a.runs| && InLease(w, a.runs[r], at)
    requires a.runs[r].phase.JustClaimed? && a.runs[r].claim.stamp == a.db.version && !IsTerminal(a.db.state)
    requires Usual(w.facts) && Retries(a.db, a.runs[r].claim.decision) && Smooth(w, a.db, a.runs[r].now)
    requires Approved(w, a.db, a.runs[r].claim.policy)
    ensures Leads(w, a, b)
    ensures b.db == a.db && b.clock == at && b.flights == a.flights && |b.runs| == |a.runs|
    ensures forall q :: 0 <= q < |a.runs| && q != r ==> b.runs[q] == a.runs[q]
    ensures b.runs[r].phase.Cleared? && b.runs[r].i == a.runs[r].i && b.runs[r].claim == a.runs[r].claim && b.runs[r].now == a.runs[r].now
  {
    var seen := Next(a, See(r), at);
    b := Next(seen, Check(r, w.facts), at);
    ClearedRun(w, a.db, a.runs[r]);
    OneStep(w, a, See(r), at);
    OneStep(w, seen, Check(r, w.facts), at);
    LeadsOn(w, a, seen, b);
  }

  lemma ClearedRun(w: Rules, db: CaseDb, run: Run)
    requires run.phase.JustClaimed? && run.claim.stamp == db.version && !IsTerminal(db.state) && Usual(w.facts)
    requires Retries(db, run.claim.decision) && Smooth(w, db, run.now) && Approved(w, db, run.claim.policy)
    ensures var cleared := NextRun(db, NextRun(db, run, See(0)), Check(0, w.facts));
      cleared.phase.Cleared? && cleared.i == run.i && cleared.claim == run.claim && cleared.now == run.now
  {
    RetryApproved(w, db, db.state, db.version, run.now);
  }

  /** A run that was claimed after the deadline is refused by its check. */
  lemma Refuses(w: Rules, a: System, r: nat, at: Time) returns (b: System)
    requires a.clock <= at && r < |a.runs| && InLease(w, a.runs[r], at)
    requires a.runs[r].phase.JustClaimed? && a.db.deadline <= a.runs[r].now
    ensures Leads(w, a, b)
    ensures b.db == a.db && b.clock == at && b.flights == a.flights && |b.runs| == |a.runs|
    ensures forall q :: 0 <= q < |a.runs| && q != r ==> b.runs[q] == a.runs[q]
    ensures b.runs[r].phase.Refused? && b.runs[r].i == a.runs[r].i && b.runs[r].now == a.runs[r].now
  {
    var seen := Next(a, See(r), at);
    b := Next(seen, Check(r, w.facts), at);
    RefusedRun(w, a.db, a.runs[r]);
    OneStep(w, a, See(r), at);
    OneStep(w, seen, Check(r, w.facts), at);
    LeadsOn(w, a, seen, b);
  }

  lemma RefusedRun(w: Rules, db: CaseDb, run: Run)
    requires run.phase.JustClaimed? && db.deadline <= run.now
    ensures var refused := NextRun(db, NextRun(db, run, See(0)), Check(0, w.facts));
      refused.phase.Refused? && refused.i == run.i && refused.now == run.now
  {
  }

  lemma Happens(w: Rules, a: System, t: Txn, at: Time) returns (b: System)
    requires a.clock <= at && External(t)
    ensures Leads(w, a, b) && b == System(Apply(a.db, t), at, a.runs, a.flights)
  {
    OneStep(w, a, Outside(t), at);
    b := Next(a, Outside(t), at);
  }

  // ----- execution -----

  lemma Starts(w: Rules, a: System, r: nat, at: Time) returns (b: System)
    requires a.clock <= at && r < |a.runs| && InLease(w, a.runs[r], at)
    requires a.runs[r].phase.Cleared? && MarkExecuting(a.db, a.runs[r].i, a.runs[r].now).Commit?
    ensures Leads(w, a, b)
    ensures b == System(MarkExecuting(a.db, a.runs[r].i, a.runs[r].now).rows, at,
                        a.runs[r := a.runs[r].(phase := Started(None), marked := true)], a.flights)
  {
    OneStep(w, a, Start(r, None), at);
    b := Next(a, Start(r, None), at);
  }

  lemma Answers(w: Rules, a: System, r: nat, result: ProviderResult, at: Time) returns (b: System)
    requires a.clock <= at && r < |a.runs| && InLease(w, a.runs[r], at)
    requires a.runs[r].phase == Started(None)
    ensures Leads(w, a, b)
    ensures b == System(a.db, at, a.runs[r := a.runs[r].(phase := Answered(result), called := true)], a.flights)
  {
    OneStep(w, a, Call(r, result), at);
    b := Next(a, Call(r, result), at);
  }

  lemma Finishes(w: Rules, a: System, r: nat, at: Time) returns (b: System)
    requires a.clock <= at && r < |a.runs| && InLease(w, a.runs[r], at)
    requires a.runs[r].phase.Answered?
    ensures Leads(w, a, b)
    ensures b.db == Apply(a.db, Complete(a.runs[r].i, a.runs[r].claim, a.runs[r].phase.result, at))
    ensures b.clock == at && b.flights == a.flights && |b.runs| == |a.runs|
    ensures forall q :: 0 <= q < |a.runs| && q != r ==> b.runs[q] == a.runs[q]
    ensures b.runs[r].phase.Over?
  {
    OneStep(w, a, Finish(r), at);
    b := Next(a, Finish(r), at);
  }

  /** What stays the same of the rows that decisions and checks read. */
  predicate SameRecords(a: CaseDb, b: CaseDb) {
    a.decisions == b.decisions && a.promises == b.promises && a.attributions == b.attributions && a.deadline == b.deadline && a.reviews == b.reviews
  }

  /** An EXECUTING case whose execution succeeds waits for the outcome. */
  lemma Succeeds(db: CaseDb, i: nat, claim: Schedule, at: Time)
    requires i < |db.schedules| && db.state.Executing?
    ensures var after := Apply(db, Complete(i, claim, SUCCESS, at));
      && after.state.WaitingOutcome? && after.version == db.version + 1 && SameRecords(db, after)
      && after.schedules == db.schedules[i := Finished(db.schedules[i], false, at)]
  {
  }

  /** A failure that may be retried reopens the schedule and leaves the case alone. */
  lemma Fails(db: CaseDb, i: nat, claim: Schedule, at: Time)
    requires i < |db.schedules| && claim.attempt < claim.maxAttempts
    ensures var after := Apply(db, Complete(i, claim, FAILURE, at));
      && after.state == db.state && after.version == db.version && SameRecords(db, after)
      && after.schedules == db.schedules[i := Retried(db.schedules[i], claim, at)]
  {
  }

  // ----- customers and decisions -----

  /** A customer's signal returns a waiting case to a decision. */
  lemma Responds(w: Rules, a: System, key: string, at: Time) returns (b: System)
    requires a.clock <= at
    requires a.db.state.WaitingOutcome? && key !in a.db.responses
    ensures Leads(w, a, b)
    ensures b.clock == at && b.runs == a.runs && b.flights == a.flights && b.db.schedules == a.db.schedules && SameRecords(a.db, b.db)
    ensures b.db.state.ActionPending? && b.db.version == a.db.version + 2 && b.db.responses == a.db.responses + {key}
  {
    OneStep(w, a, Outside(Respond(key, IntentToPay)), at);
    b := Next(a, Outside(Respond(key, IntentToPay)), at);
  }

  /** How many versions a decision takes that schedules an action. */
  function Versions(state: CaseState): nat {
    if state.Detected? then 4 else if state.Reassessing? || state.Diagnosing? then 3 else 2
  }

  /** What a decision to retry leaves behind. */
  predicate RetryDecided(a: CaseDb, b: CaseDb, later: Time) {
    && b.state.Scheduled? && b.version == a.version + Versions(a.state)
    && b.deadline == a.deadline && b.responses == a.responses && b.reviews == a.reviews && b.promises == a.promises
    && b.attributions == a.attributions && a.decisions <= b.decisions && b.executions == a.executions
    && Retries(b, |a.decisions|)
    && b.schedules == a.schedules + [NewSchedule(RetryNow, |a.decisions|, |a.policies|, b.version, later)]
  }

  /** A case that is ready for a decision gets one: retry now. */
  lemma Decides(w: Rules, a: System, at: Time, later: Time) returns (b: System)
    requires a.clock <= at && (w.waiver.Clock? || at <= later)
    requires a.db.state.Detected? || a.db.state.ActionPending? || a.db.state.Reassessing?
    requires Usual(w.facts) && VerdictFor(w.facts).Approve? && Smooth(w, a.db, at)
    ensures Leads(w, a, b)
    ensures b.clock == later && b.runs == a.runs && |b.flights| == |a.flights| + 1 && b.flights[|a.flights|].stage.Landed?
    ensures forall f :: 0 <= f < |a.flights| ==> b.flights[f] == a.flights[f]
    ensures RetryDecided(a.db, b.db, later)
  {
    RetryPrepared(w, a.db, at);
    b := DecidesTo(w, a, RETRY, at, later);
    DecisionSchedules(w, a.db, at, later);
  }

  lemma PreparedRows(db: CaseDb)
    requires PrepareForDecision(db).Commit?
    ensures var p := PrepareForDecision(db).rows;
      && p.schedules == db.schedules && p.promises == db.promises && p.deadline == db.deadline && p.state.ActionPending?
      && p.attributions == db.attributions && p.decisions == db.decisions && p.executions == db.executions && p.policies == db.policies
      && p.responses == db.responses && p.reviews == db.reviews && p.version == db.version + Versions(db.state) - 2
  {
  }

  /** Preparation leaves a retry ranked and judged as before. */
  lemma RetryPrepared(w: Rules, db: CaseDb, at: Time)
    requires Usual(w.facts) && Smooth(w, db, at) && PrepareForDecision(db).Commit?
    ensures var p := PrepareForDecision(db).rows;
      && Policy.Judge(ContextOf(p, p.state, p.version, w.facts), p.version, RETRY, true, at) == VerdictFor(w.facts)
      && Rankable(ContextOf(p, p.state, p.version, w.facts), RetryNow, at)
  {
    var p := PrepareForDecision(db).rows;
    PreparedRows(db);
    StillSmooth(w, db, p, at);
    RetryApproved(w, p, p.state, p.version, at);
  }

  lemma StillSmooth(w: Rules, a: CaseDb, b: CaseDb, at: Time)
    requires Smooth(w, a, at) && b.schedules == a.schedules && b.promises == a.promises && b.deadline == a.deadline
    ensures Smooth(w, b, at)
  {
  }

  lemma DecisionSchedules(w: Rules, db: CaseDb, at: Time, later: Time)
    requires db.state.Detected? || db.state.ActionPending? || db.state.Reassessing?
    requires Usual(w.facts) && VerdictFor(w.facts).Approve? && Smooth(w, db, at)
    ensures RetryDecided(db, Orchestrator.SerialDecision(db, w.facts, RETRY, 0, at, later), later)
  {
    var p := PrepareForDecision(db).rows;
    PreparedRows(db);
    RetryPrepared(w, db, at);
    SavedSchedules(p, Orchestrator.Evaluate(p, w.facts, RETRY, 0, at), later);
  }

  lemma SavedSchedules(p: CaseDb, s: Snapshot, later: Time)
    requires p.state.ActionPending? && s.caseVersion == p.version && s.verdict.Approve?
    requires s.gate.allow && s.gate.action == RetryNow && s.gate.nerv == 100 && s.incentive == 0
    ensures var after := CaseRows.After(p, SaveDecisionAndSchedule(p, s, later));
      && after.state.Scheduled? && after.version == p.version + 2 && after.deadline == p.deadline && after.responses == p.responses
      && after.reviews == p.reviews && after.promises == p.promises && after.attributions == p.attributions
      && p.decisions <= after.decisions && after.executions == p.executions && Retries(after, |p.decisions|)
      && after.schedules == p.schedules + [NewSchedule(RetryNow, |p.decisions|, |p.policies|, after.version, later)]
  {
  }

  // ----- manual transitions -----

  lemma ByHand(w: Rules, a: System, to: CaseState, at: Time) returns (b: System)
    requires w.waiver.Manual? && a.clock <= at && CanTransition(a.db.state, to)
    ensures Leads(w, a, b)
    ensures b.clock == at && b.runs == a.runs && b.db == Log(Advance(a.db, to), [EventForTransition(to)])
  {
    var begun := HandRaised(w, a, to, at);
    b := HandLowered(w, begun, to, at);
    LeadsOn(w, a, begun, b);
  }

  lemma HandRaised(w: Rules, a: System, to: CaseState, at: Time) returns (b: System)
    requires w.waiver.Manual? && a.clock <= at
    ensures Leads(w, a, b)
    ensures b.clock == at && b.runs == a.runs && b.db == a.db && |b.flights| > 0
    ensures var f := b.flights[|b.flights| - 1];
      f.purpose == Moving(to) && f.stage.Looked? && f.state == a.db.state && f.version == a.db.version
  {
    var begun := Next(a, Begin(Moving(to)), at);
    b := Next(begun, Look(|a.flights|), at);
    OneStep(w, a, Begin(Moving(to)), at);
    OneStep(w, begun, Look(|a.flights|), at);
    LeadsOn(w, a, begun, b);
  }

  lemma HandLowered(w: Rules, a: System, to: CaseState, at: Time) returns (b: System)
    requires a.clock <= at && CanTransition(a.db.state, to) && |a.flights| > 0
    requires var f := a.flights[|a.flights| - 1];
      f.purpose == Moving(to) && f.stage.Looked? && f.state == a.db.state && f.version == a.db.version
    ensures Leads(w, a, b)
    ensures b.clock == at && b.runs == a.runs && b.db == Log(Advance(a.db, to), [EventForTransition(to)])
  {
    var step := Land(|a.flights| - 1, 0);
    OneStep(w, a, step, at);
    b := Next(a, step, at);
    HandWrites(a, to, at);
    MovedByHand(a.db, to);
  }

  lemma HandWrites(a: System, to: CaseState, at: Time)
    requires CanTransition(a.db.state, to) && |a.flights| > 0
    requires var f := a.flights[|a.flights| - 1]; f.purpose == Moving(to) && f.stage.Looked? && f.state == a.db.state
    ensures var next := Next(a, Land(|a.flights| - 1, 0), at);
      next.db == Apply(a.db, Transition(a.flights[|a.flights| - 1].version, to)) && next.clock == at && next.runs == a.runs
  {
  }

  lemma MovedByHand(db: CaseDb, to: CaseState)
    ensures Apply(db, Transition(db.version, to)) == Log(Advance(db, to), [EventForTransition(to)])
  {
  }

  // ----- decisions that do not schedule, and approvals -----

  /** A case that is ready for a decision gets one that schedules nothing but asks an operator. */
  predicate Unscheduled(a: System, b: System, at: Time) {
    && b.clock == at && b.runs == a.runs && |b.flights| == |a.flights| + 1
    && (forall f :: 0 <= f < |a.flights| ==> b.flights[f] == a.flights[f])
    && Asked(a.db, b.db)
  }

  predicate Asked(a: CaseDb, b: CaseDb) {
    && b.schedules == a.schedules && b.promises == a.promises && b.attributions == a.attributions
    && b.deadline == a.deadline && b.reviews == a.reviews && b.responses == a.responses
    && a.decisions <= b.decisions && |b.decisions| == |a.decisions| + 1 && b.state.Escalated?
  }

  /** A decision evaluated at one time and written at another. */
  lemma DecidesTo(w: Rules, a: System, candidate: Policy.Candidate, at: Time, later: Time) returns (b: System)
    requires a.clock <= at && (w.waiver.Clock? || at <= later) && (w.waiver.History? || |Past(a.db.schedules)| <= HISTORY_LIMIT)
    requires PrepareForDecision(a.db).Commit?
    requires var p := PrepareForDecision(a.db).rows; Rankable(ContextOf(p, p.state, p.version, w.facts), candidate.action, at)
    ensures Leads(w, a, b)
    ensures b.db == Orchestrator.SerialDecision(a.db, w.facts, candidate, 0, at, later)
    ensures b.clock == later && b.runs == a.runs && |b.flights| == |a.flights| + 1 && b.flights[|a.flights|].stage.Landed?
    ensures forall f :: 0 <= f < |a.flights| ==> b.flights[f] == a.flights[f]
  {
    var f := |a.flights|;
    var looked := LooksAt(w, a, at);
    var judged := Next(looked, Assess(f, w.facts, candidate, 0), at);
    b := Next(judged, Land(f, 0), later);
    OneStep(w, looked, Assess(f, w.facts, candidate, 0), at);
    OneStep(w, judged, Land(f, 0), later);
    LeadsOn(w, a, looked, judged);
    LeadsOn(w, a, judged, b);
    Orchestrator.DecideIsATrace(a, w.facts, candidate, 0, at, later);
    FlightLands(a, w.facts, candidate, at, later);
  }

  /** A decision is begun and the case read. */
  lemma LooksAt(w: Rules, a: System, at: Time) returns (b: System)
    requires a.clock <= at && PrepareForDecision(a.db).Commit?
    ensures Leads(w, a, b) && b == Next(Next(a, Begin(Deciding), at), Look(|a.flights|), at)
    ensures b.db == PrepareForDecision(a.db).rows && b.db.schedules == a.db.schedules && b.clock == at && |b.flights| == |a.flights| + 1
    ensures var f := b.flights[|a.flights|]; f.purpose.Deciding? && f.state == b.db.state && f.version == b.db.version
  {
    var f, begun := |a.flights|, Next(a, Begin(Deciding), at);
    b := Next(begun, Look(f), at);
    OneStep(w, a, Begin(Deciding), at);
    OneStep(w, begun, Look(f), at);
    LeadsOn(w, a, begun, b);
  }

  lemma FlightLands(a: System, facts: Policy.Context, candidate: Policy.Candidate, at: Time, later: Time)
    requires PrepareForDecision(a.db).Commit?
    ensures var f := |a.flights|;
      var judged := Next(Next(Next(a, Begin(Deciding), at), Look(f), at), Assess(f, facts, candidate, 0), at);
      var b := Next(judged, Land(f, 0), later);
      b.runs == a.runs && |b.flights| == f + 1 && b.flights[f].stage.Landed? && forall g :: 0 <= g < f ==> b.flights[g] == a.flights[g]
  {
  }

  /** A retry is decided on, and an operator asked. */
  lemma RetryAsks(w: Rules, a: System, at: Time) returns (b: System)
    requires a.clock <= at && a.db.state.Detected? && Usual(w.facts) && VerdictFor(w.facts).Escalate? && Smooth(w, a.db, at)
    ensures Leads(w, a, b) && Unscheduled(a, b, at)
    ensures b.db.version == a.db.version + 3 && Retries(b.db, |a.db.decisions|)
  {
    RetryPrepared(w, a.db, at);
    b := DecidesTo(w, a, RETRY, at, at);
    RetryAsked(w, a.db, at);
  }

  lemma RetryAsked(w: Rules, db: CaseDb, at: Time)
    requires db.state.Detected? && Usual(w.facts) && VerdictFor(w.facts).Escalate? && Smooth(w, db, at)
    ensures var after := Orchestrator.SerialDecision(db, w.facts, RETRY, 0, at, at);
      Asked(db, after) && after.version == db.version + 3 && Retries(after, |db.decisions|)
  {
    RetryPrepared(w, db, at);
  }

  /** Waiting is decided on, and an operator asked. */
  lemma WaitAsks(w: Rules, a: System, at: Time) returns (b: System)
    requires a.clock <= at && a.db.state.ActionPending? && at < a.db.deadline && |Past(a.db.schedules)| <= HISTORY_LIMIT
    requires Usual(w.facts) && VerdictFor(w.facts).Escalate?
    ensures Leads(w, a, b) && Unscheduled(a, b, at) && b.db.version == a.db.version + 1
  {
    b := DecidesTo(w, a, WAITING, at, at);
    WaitAsked(w, a.db, at);
  }

  lemma WaitAsked(w: Rules, db: CaseDb, at: Time)
    requires db.state.ActionPending? && at < db.deadline && Usual(w.facts) && VerdictFor(w.facts).Escalate?
    ensures var after := Orchestrator.SerialDecision(db, w.facts, WAITING, 0, at, at);
      Asked(db, after) && after.version == db.version + 1
  {
    WaitEscalates(w, ContextOf(db, db.state, db.version, w.facts), at);
  }

  lemma WaitEscalates(w: Rules, c: Policy.Context, now: Time)
    requires Usual(w.facts) && VerdictFor(w.facts).Escalate? && !IsTerminal(c.state) && now < c.deadline
    requires c == w.facts.(state := c.state, version := c.version, deadline := c.deadline, recent := c.recent, activePromise := c.activePromise)
    ensures Policy.Judge(c, c.version, WAITING, true, now) == Policy.Escalate
  {
    assert Wait in c.merchant.allowedActions;
    assert !Policy.OverRetries(c, WAITING, now) && !Policy.OverContacts(c, WAITING, now);
  }

  /** An approval of the first decision, begun and evaluated: for the version the case is at, or with foresight for a later one. */
  predicate Judges(f: Flight, key: string, expected: nat) {
    f.purpose == Approving(key, 0, expected, 0) && f.stage.Judged? && (f.verdict.Approve? || f.verdict.Escalate?)
  }

  lemma Weighs(w: Rules, a: System, key: string, expected: nat, at: Time) returns (b: System)
    requires (w.waiver.Foresight? || expected <= a.db.version) && a.clock <= at
    requires Usual(w.facts) && Retries(a.db, 0) && Smooth(w, a.db, at) && !IsTerminal(a.db.state)
    ensures Leads(w, a, b)
    ensures b.db == a.db && b.clock == at && b.runs == a.runs && |b.flights| == |a.flights| + 1
    ensures forall f :: 0 <= f < |a.flights| ==> b.flights[f] == a.flights[f]
    ensures Judges(b.flights[|a.flights|], key, expected)
  {
    var looked := Reviews(w, a, key, expected, at);
    b := Next(looked, Assess(|a.flights|, w.facts, RETRY, 0), at);
    OneStep(w, looked, Assess(|a.flights|, w.facts, RETRY, 0), at);
    LeadsOn(w, a, looked, b);
    WeighedFlight(w, a.db, looked.flights[|a.flights|], at);
  }

  /** A review of the first decision is begun, and has read the case. */
  lemma Reviews(w: Rules, a: System, key: string, expected: nat, at: Time) returns (b: System)
    requires (w.waiver.Foresight? || expected <= a.db.version) && a.clock <= at
    ensures Leads(w, a, b)
    ensures b.db == a.db && b.clock == at && b.runs == a.runs && |b.flights| == |a.flights| + 1
    ensures forall f :: 0 <= f < |a.flights| ==> b.flights[f] == a.flights[f]
    ensures var f := b.flights[|a.flights|];
      f.purpose == Approving(key, 0, expected, 0) && f.stage.Looked? && f.state == a.db.state && f.version == a.db.version
  {
    var f, begun := |a.flights|, Next(a, Begin(Approving(key, 0, expected, 0)), at);
    b := Next(begun, Look(f), at);
    OneStep(w, a, Begin(Approving(key, 0, expected, 0)), at);
    OneStep(w, begun, Look(f), at);
    LeadsOn(w, a, begun, b);
  }

  lemma WeighedFlight(w: Rules, db: CaseDb, f: Flight, at: Time)
    requires Usual(w.facts) && Retries(db, 0) && Smooth(w, db, at) && !IsTerminal(db.state)
    requires f.purpose.Approving? && f.purpose.about == 0 && f.stage.Looked? && f.state == db.state && f.version == db.version
    ensures var g := Evaluated(db, f, w.facts, RETRY, 0, at);
      g.purpose == f.purpose && g.stage.Judged? && (g.verdict.Approve? || g.verdict.Escalate?)
  {
    RetryApproved(w, db, db.state, db.version, at);
  }

  /** The approval lands when the case is at that version, and schedules the action. */
  lemma ApprovalLands(w: Rules, a: System, f: nat, key: string, at: Time) returns (b: System)
    requires a.clock <= at && f < |a.flights| && Judges(a.flights[f], key, a.db.version)
    requires a.db.state.Escalated? && at < a.db.deadline && !KnownReview(a.db, key) && Retries(a.db, 0)
    ensures Leads(w, a, b)
    ensures b.clock == at && b.runs == a.runs && |b.flights| == |a.flights|
    ensures forall g :: 0 <= g < |a.flights| && g != f ==> b.flights[g] == a.flights[g]
    ensures ApprovalScheduled(a.db, b.db, key, at)
  {
    OneStep(w, a, Land(f, 0), at);
    b := Next(a, Land(f, 0), at);
    ApprovalSchedules(a.db, CommandOf(a.flights[f]), at);
  }

  /** What an approval leaves behind. */
  predicate ApprovalScheduled(a: CaseDb, b: CaseDb, key: string, at: Time) {
    && b.state.Scheduled? && b.version == a.version + 3 && b.decisions == a.decisions && b.promises == a.promises
    && b.deadline == a.deadline && b.attributions == a.attributions && b.responses == a.responses
    && b.schedules == a.schedules + [NewSchedule(RetryNow, 0, |a.policies|, b.version, at)] && HumanApproved(b, |a.policies|)
    && |b.reviews| == |a.reviews| + 1 && a.reviews <= b.reviews && b.reviews[|a.reviews|].key == key
  }

  lemma ApprovalSchedules(db: CaseDb, command: ReviewCommand, at: Time)
    requires command == ReviewCommand(command.key, ReviewApprove, db.version, 0, 0, command.verdict)
    requires command.verdict.Approve? || command.verdict.Escalate?
    requires db.state.Escalated? && at < db.deadline && !KnownReview(db, command.key) && Retries(db, 0)
    ensures ApprovalScheduled(db, Apply(db, Decide(command, 0, at)), command.key, at)
  {
  }
}
