/**
 * What the policy's rules come to in the workflow: what a stop or deny rule objects to is not scheduled by a
 * decision, not scheduled by an operator's approval, and not carried out by a run, approved or not.
 */
module Safeguards {
  import opened Wrappers
  import opened Domain
  import opened CaseRows
  import opened CaseSteps
  import opened Transactions
  import opened Workflow
  import opened Verdicts
  import Authorization
  import Outcomes
  import Reviews
  import Policy

  /** What an evaluation is told of a case: its own rows as they are, the case as it was read, and everything else as given. */
  lemma ContextIs(db: CaseDb, state: CaseState, version: nat, facts: Policy.Context)
    ensures var c := ContextOf(db, state, version, facts);
      && c.state == state && c.version == version && c.deadline == db.deadline && c.recent == RecentHistory(db.schedules)
      && (c.alreadyRecovered <==> state == Recovered)
      && (c.activePromise <==> exists p :: 0 <= p < |db.promises| && db.promises[p].status == Active)
      && c == facts.(state := c.state, version := c.version, deadline := c.deadline, recent := c.recent,
                     alreadyRecovered := c.alreadyRecovered, activePromise := c.activePromise)
  {
  }

  /** Some stop or deny rule objects. */
  ghost predicate Barred(m: Matter) {
    AnyObjects(STOPS, m) || AnyObjects(DENIALS, m)
  }

  lemma BarredIsRefused(m: Matter)
    requires OnTheClock(m.c)
    ensures Barred(m) <==> Policy.Judge(m.c, m.version, m.k, m.allowed, m.now) in {Policy.Deny, Policy.StopCase}
  {
    VerdictIs(m);
  }

  /** What a run weighs when it has read the case. */
  function AtHand(db: CaseDb, run: Run, facts: Policy.Context): Matter
    requires run.claim.decision < |db.decisions|
  {
    var d := db.decisions[run.claim.decision];
    Matter(ContextOf(db, run.state, run.version, facts), run.version, Policy.Candidate(d.gate.action, d.gate.nerv, d.incentive), d.gate.allow, run.now)
  }

  /** A run does not carry out what a rule bars, whatever approval its schedule has. */
  lemma BarredIsNotCarriedOut(db: CaseDb, run: Run, facts: Policy.Context)
    requires run.phase.SawCase? && run.claim.decision < |db.decisions| && OnTheClock(facts) && Barred(AtHand(db, run, facts))
    ensures NextRun(db, run, Check(0, facts)).phase.Refused?
  {
    BarredIsRefused(AtHand(db, run, facts));
    Authorization.ClearedExactlyWhen(db, run, facts);
  }

  /** What a flight weighs when it is evaluated: a decision its candidate at the gate's verdict, an approval the decision on record. */
  function Weighed(db: CaseDb, f: Flight, facts: Policy.Context, candidate: Policy.Candidate, threshold: int, at: Time): Matter {
    var g := Evaluated(db, f, facts, candidate, threshold, at);
    Matter(ContextOf(db, f.state, f.version, facts), f.version, g.candidate, g.gate.allow, at)
  }

  lemma EvaluatedIs(db: CaseDb, f: Flight, facts: Policy.Context, candidate: Policy.Candidate, threshold: int, at: Time)
    requires f.stage.Looked? && !f.purpose.Moving? && (f.purpose.Approving? ==> f.purpose.about < |db.decisions|)
    ensures var g, m := Evaluated(db, f, facts, candidate, threshold, at), Weighed(db, f, facts, candidate, threshold, at);
      && g.stage.Judged? && g.purpose == f.purpose && g.verdict == Policy.Judge(m.c, m.version, m.k, m.allowed, m.now)
      && (f.purpose.Deciding? ==> m.k == candidate && (m.allowed <==> candidate.action == Wait || (candidate.nerv >= 0 && candidate.nerv >= threshold)))
      && (f.purpose.Approving? ==>
            var d := db.decisions[f.purpose.about];
            m.k == Policy.Candidate(d.gate.action, d.gate.nerv, d.incentive) && m.allowed == d.gate.allow)
  {
  }

  /** A decision does not schedule what a rule bars, whenever it lands. */
  lemma BarredIsNotDecided(db: CaseDb, f: Flight, facts: Policy.Context, candidate: Policy.Candidate, threshold: int, at: Time, later: CaseDb, now: Time)
    requires f.stage.Looked? && f.purpose.Deciding? && OnTheClock(facts) && Barred(Weighed(db, f, facts, candidate, threshold, at))
    ensures var g := Evaluated(db, f, facts, candidate, threshold, at);
      Apply(later, Save(SnapshotOf(g), now)).schedules == later.schedules
  {
    EvaluatedIs(db, f, facts, candidate, threshold, at);
    BarredIsRefused(Weighed(db, f, facts, candidate, threshold, at));
    var s := SnapshotOf(Evaluated(db, f, facts, candidate, threshold, at));
    Outcomes.SavedExactlyWhen(later, s, now);
    if SaveDecisionAndSchedule(later, s, now).Commit? {
      Outcomes.SavedRows(later, s, now);
    }
  }

  /** And an operator's approval does not schedule it either: it can override an escalation, but no rule that stops or denies. */
  lemma BarredIsNotApproved(db: CaseDb, f: Flight, facts: Policy.Context, candidate: Policy.Candidate, threshold: int, at: Time,
                            later: CaseDb, policyVersion: int, now: Time)
    requires f.stage.Looked? && f.purpose.Approving? && f.purpose.about < |db.decisions| && OnTheClock(facts)
    requires Barred(Weighed(db, f, facts, candidate, threshold, at))
    ensures var g := Evaluated(db, f, facts, candidate, threshold, at);
      var after := Apply(later, Decide(CommandOf(g), policyVersion, now));
      after.schedules == later.schedules && after.state == later.state && after.version == later.version
  {
    EvaluatedIs(db, f, facts, candidate, threshold, at);
    BarredIsRefused(Weighed(db, f, facts, candidate, threshold, at));
    var command := CommandOf(Evaluated(db, f, facts, candidate, threshold, at));
    if Reviews.Taken(later, command) {
      Reviews.ReviewEffect(later, command, policyVersion, now);
    } else {
      Reviews.NotTaken(later, command, policyVersion, now);
    }
  }

  lemma InDenials(r: Policy.Reason)
    requires r == Policy.ActivePromiseToPay || r == Policy.CustomerOptOut
    ensures r in DENIALS
  {
    assert BANS[4] == Policy.CustomerOptOut && MEANS[0] == Policy.ActivePromiseToPay;
  }

  /** While a promise is ACTIVE no run contacts the customer or retries the payment, approved or not. */
  lemma PromiseHolds(db: CaseDb, run: Run, facts: Policy.Context, p: nat)
    requires run.phase.SawCase? && run.claim.decision < |db.decisions| && OnTheClock(facts)
    requires p < |db.promises| && db.promises[p].status.Active? && db.decisions[run.claim.decision].gate.action in CONTACTS + RETRIES
    ensures NextRun(db, run, Check(0, facts)).phase.Refused?
  {
    ContextIs(db, run.state, run.version, facts);
    InDenials(Policy.ActivePromiseToPay);
    assert Objects(Policy.ActivePromiseToPay, AtHand(db, run, facts));
    BarredIsNotCarriedOut(db, run, facts);
  }

  /** A customer who has opted out is not contacted, approved or not. */
  lemma OptOutHolds(db: CaseDb, run: Run, facts: Policy.Context)
    requires run.phase.SawCase? && run.claim.decision < |db.decisions| && OnTheClock(facts)
    requires facts.optedOut && db.decisions[run.claim.decision].gate.action in CONTACTS
    ensures NextRun(db, run, Check(0, facts)).phase.Refused?
  {
    ContextIs(db, run.state, run.version, facts);
    InDenials(Policy.CustomerOptOut);
    assert Objects(Policy.CustomerOptOut, AtHand(db, run, facts));
    BarredIsNotCarriedOut(db, run, facts);
  }
}
