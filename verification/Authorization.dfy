/** What stands behind every call to a provider: a fresh schedule, an open case, its gate and its policy, or an operator. */
module Authorization {
  import opened Wrappers
  import opened Domain
  import opened CaseRows
  import opened CaseSteps
  import opened Transactions
  import opened Ledgers
  import opened Workflow
  import opened Lifecycle
  import EconomicGate
  import Policy

  // ----- what a schedule cites -----

  /** Review `k` approved exactly schedule `i`, when the case was ESCALATED at the version the operator expected. */
  predicate Backs(db: CaseDb, k: nat, i: nat) {
    && k < |db.reviews|
    && db.reviews[k].decision.ReviewApprove? && db.reviews[k].outcome.Approved? && db.reviews[k].schedule == Some(i)
    && db.reviews[k].expected == db.reviews[k].versionAtReview
    && Sighting(db, Escalated, db.reviews[k].versionAtReview)
  }

  /** A schedule carries out a decision on record, under an approving policy evaluation that is its own. */
  ghost predicate Cites(db: CaseDb, i: nat)
    requires i < |db.schedules|
  {
    var s := db.schedules[i];
    && s.decision < |db.decisions| && s.action == db.decisions[s.decision].gate.action
    && s.policy < |db.policies| && db.policies[s.policy].decision == s.decision && db.policies[s.policy].verdict.Approve?
    && (!db.policies[s.policy].humanSatisfied ==> db.decisions[s.decision].gate.allow)
    && (db.policies[s.policy].humanSatisfied ==> exists k: nat :: Backs(db, k, i))
  }

  /** A gate result is what the gate says of the action, its NERV and the threshold. */
  predicate Honest(g: EconomicGate.GateResult) {
    g == EconomicGate.Evaluate(g.action, g.nerv, g.threshold)
  }

  ghost predicate Documented(db: CaseDb) {
    && (forall i :: 0 <= i < |db.schedules| ==> Cites(db, i))
    && (forall i, j :: 0 <= i < j < |db.schedules| ==> db.schedules[i].policy != db.schedules[j].policy)
    && (forall d :: 0 <= d < |db.decisions| ==> Honest(db.decisions[d].gate))
  }

  /** The rows a schedule cites are only ever added to, and what it cites does not change. */
  predicate Archived(a: CaseDb, b: CaseDb) {
    && a.decisions <= b.decisions && a.policies <= b.policies && a.reviews <= b.reviews && a.trail <= b.trail
    && |a.schedules| <= |b.schedules| && a.deadline == b.deadline
    && forall i :: 0 <= i < |a.schedules| ==>
      && b.schedules[i].action == a.schedules[i].action && b.schedules[i].decision == a.schedules[i].decision
      && b.schedules[i].policy == a.schedules[i].policy && b.schedules[i].stamp >= a.schedules[i].stamp
  }

  lemma ArchiveKeepsCites(a: CaseDb, b: CaseDb, i: nat)
    requires Archived(a, b) && i < |a.schedules| && Cites(a, i)
    ensures Cites(b, i)
  {
    if a.policies[a.schedules[i].policy].humanSatisfied {
      var k: nat :| Backs(a, k, i);
      assert Backs(b, k, i);
    }
  }

  lemma WorkerArchives(db: CaseDb, t: Txn)
    requires (t.Claim? || t.Mark? || t.Suppress? || t.ClaimObservation?) && Stamped(db.schedules, db.version)
    ensures Archived(db, Apply(db, t)) && |Apply(db, t).schedules| == |db.schedules|
  {
    Frame(db, t);
    ExecutingMoves(db, t);
  }

  lemma ReassessmentArchives(db: CaseDb, t: Txn)
    requires t.Reassess?
    ensures Archived(db, Apply(db, t)) && |Apply(db, t).schedules| == |db.schedules|
  {
    Frame(db, t);
    ExecutingMoves(db, t);
  }

  lemma CompletionArchives(db: CaseDb, t: Txn)
    requires t.Complete?
    ensures Archived(db, Apply(db, t)) && |Apply(db, t).schedules| == |db.schedules|
  {
    Frame(db, t);
    ExecutingMoves(db, t);
    CompletionKeepsCitations(db, t);
  }

  lemma CompletionKeepsCitations(db: CaseDb, t: Txn)
    requires t.Complete?
    ensures var after := Apply(db, t).schedules;
      && |after| == |db.schedules|
      && forall i :: 0 <= i < |after| ==>
        && after[i].action == db.schedules[i].action && after[i].decision == db.schedules[i].decision
        && after[i].policy == db.schedules[i].policy && after[i].stamp == db.schedules[i].stamp
  {
  }

  lemma SaveAdds(db: CaseDb, t: Txn)
    requires t.Save?
    ensures var after := Apply(db, t);
      && db.decisions <= after.decisions && db.policies <= after.policies && after.reviews == db.reviews && db.schedules <= after.schedules
  {
  }

  lemma SaveArchives(db: CaseDb, t: Txn)
    requires t.Save?
    ensures Archived(db, Apply(db, t))
  {
    SaveMoves(db, t);
    SaveAdds(db, t);
  }

  lemma DecideArchives(db: CaseDb, t: Txn)
    requires t.Decide?
    ensures Archived(db, Apply(db, t))
  {
    Frame(db, t);
    OutsideMoves(db, t);
  }

  lemma Archives(db: CaseDb, t: Txn)
    requires Stamped(db.schedules, db.version) && LegalMove(db, t)
    ensures Archived(db, Apply(db, t))
    ensures !t.Save? && !t.Decide? ==> |Apply(db, t).schedules| == |db.schedules|
  {
    Frame(db, t);
    if t.Save? { SaveArchives(db, t); }
    else if t.Decide? { DecideArchives(db, t); }
    else if t.Complete? { CompletionArchives(db, t); }
    else if t.Reassess? { ReassessmentArchives(db, t); }
    else if WritesSchedules(t) { WorkerArchives(db, t); }
    else { Moves(db, t); }
  }

  // ----- new schedules -----

  lemma OwnPolicies(db: CaseDb)
    requires forall i :: 0 <= i < |db.schedules| ==> Cites(db, i)
    ensures forall i :: 0 <= i < |db.schedules| ==> db.schedules[i].policy < |db.policies|
  {
    forall i | 0 <= i < |db.schedules| ensures db.schedules[i].policy < |db.policies| {
      assert Cites(db, i);
    }
  }

  lemma SaveCites(db: CaseDb, t: Txn)
    requires t.Save? && Documented(db) && Honest(t.snapshot.gate)
    ensures Documented(Apply(db, t))
  {
    var after := Apply(db, t);
    SaveArchives(db, t);
    OwnPolicies(db);
    forall i | 0 <= i < |after.schedules| ensures Cites(after, i) {
      if i < |db.schedules| { ArchiveKeepsCites(db, after, i); }
    }
  }

  lemma DecideCites(db: CaseDb, t: Txn)
    requires t.Decide? && Documented(db) && Trailed(db)
    ensures Documented(Apply(db, t))
  {
    var after := Apply(db, t);
    DecideArchives(db, t);
    OwnPolicies(db);
    forall i | 0 <= i < |after.schedules| ensures Cites(after, i) {
      if i < |db.schedules| { ArchiveKeepsCites(db, after, i); }
      else { assert Backs(after, |db.reviews|, i); }
    }
    Frame(db, t);
  }

  lemma StaysDocumented(db: CaseDb, t: Txn)
    requires Documented(db) && Sound(db) && LegalMove(db, t) && (t.Save? ==> Honest(t.snapshot.gate))
    ensures Documented(Apply(db, t))
  {
    if t.Save? { SaveCites(db, t); }
    else if t.Decide? { DecideCites(db, t); }
    else {
      Archives(db, t);
      Frame(db, t);
      forall i | 0 <= i < |db.schedules| ensures Cites(Apply(db, t), i) {
        ArchiveKeepsCites(db, Apply(db, t), i);
      }
    }
  }

  // ----- runs -----

  /** What a run knows about its schedule is still what the schedule says. */
  predicate Recalls(db: CaseDb, run: Run) {
    && run.i < |db.schedules|
    && var s := db.schedules[run.i];
    && run.claim.action == s.action && run.claim.decision == s.decision && run.claim.policy == s.policy && run.claim.stamp <= s.stamp
  }

  /** What a run that got past its checks had in front of it. */
  predicate Vetted(db: CaseDb, run: Run) {
    && run.sawFresh && !IsTerminal(run.state) && run.now < db.deadline
    && run.claim.decision < |db.decisions| && db.decisions[run.claim.decision].gate.allow
    && (run.verdict.Approve? || (run.verdict.Escalate? && HumanApproved(db, run.claim.policy)))
  }

  predicate PastChecks(run: Run) {
    run.phase.Cleared? || run.phase.Started? || run.phase.Answered? || run.marked || run.called
  }

  predicate Proper(db: CaseDb, run: Run) {
    && Recalls(db, run)
    && (!run.phase.JustClaimed? && run.version == run.claim.stamp ==> run.sawFresh)
    && (PastChecks(run) ==> Vetted(db, run) && !run.phase.JustClaimed? && !run.phase.SawCase?)
  }

  ghost predicate Answerable(sys: System) {
    && Lawful(sys) && Documented(sys.db)
    && (forall r :: 0 <= r < |sys.runs| ==> Proper(sys.db, sys.runs[r]))
    && (forall f :: 0 <= f < |sys.flights| && sys.flights[f].purpose.Deciding? && sys.flights[f].stage.Judged? ==> Honest(sys.flights[f].gate))
  }

  lemma ArchiveKeepsProper(a: CaseDb, b: CaseDb, run: Run)
    requires Archived(a, b) && Proper(a, run)
    ensures Proper(b, run)
  {
  }

  /** Judged before any write of the same step, a run that is cleared has been vetted. */
  lemma ClearedIsVetted(db: CaseDb, run: Run, facts: Policy.Context)
    requires run.phase.SawCase? && Proper(db, run) && Authorised(db, run, facts)
    ensures Vetted(db, run.(phase := Cleared, verdict := Recheck(db, run, facts)))
  {
  }

  /**
   * Exactly when a run that has read the case goes on: its schedule's stamp is the version it read, the case is not
   * RECOVERED, the gate allowed the decision, and the policy approves again, or escalates and an operator has approved.
   */
  lemma ClearedExactlyWhen(db: CaseDb, run: Run, facts: Policy.Context)
    requires run.phase.SawCase?
    ensures var next := NextRun(db, run, Check(0, facts)).phase;
      && (next.Cleared? || next.Refused?)
      && (next.Cleared? <==>
            && run.claim.stamp == run.version && run.state != Recovered
            && run.claim.decision < |db.decisions| && db.decisions[run.claim.decision].gate.allow
            && var d := db.decisions[run.claim.decision];
               var verdict := Policy.Judge(ContextOf(db, run.state, run.version, facts), run.version,
                                           Policy.Candidate(d.gate.action, d.gate.nerv, d.incentive), true, run.now);
            && (verdict == Policy.Approve
                || (verdict == Policy.Escalate && run.claim.policy < |db.policies|
                    && db.policies[run.claim.policy].verdict == Policy.Approve && db.policies[run.claim.policy].humanSatisfied)))
  {
  }

  lemma SeenIsProper(db: CaseDb, run: Run)
    requires Proper(db, run) && Stamped(db.schedules, db.version) && run.phase.JustClaimed?
    ensures Proper(db, NextRun(db, run, See(0)))
  {
  }

  lemma CheckedIsProper(db: CaseDb, run: Run, facts: Policy.Context)
    requires Proper(db, run) && run.phase.SawCase?
    ensures Proper(db, NextRun(db, run, Check(0, facts)))
  {
    if Authorised(db, run, facts) {
      ClearedIsVetted(db, run, facts);
    }
  }

  lemma NextRunIsProper(db: CaseDb, run: Run, step: Step)
    requires Proper(db, run) && Stamped(db.schedules, db.version)
    ensures Proper(db, NextRun(db, run, step))
  {
    if step.See? && run.phase.JustClaimed? {
      SeenIsProper(db, run);
      assert NextRun(db, run, step) == NextRun(db, run, See(0));
    } else if step.Check? && run.phase.SawCase? {
      CheckedIsProper(db, run, step.facts);
      assert NextRun(db, run, step) == NextRun(db, run, Check(0, step.facts));
    } else {
      FurtherRun(db, run, step);
    }
  }

  /** Any other step leaves what the run knows as it is, and takes it past its checks only if it was. */
  lemma FurtherRun(db: CaseDb, run: Run, step: Step)
    requires !(step.See? && run.phase.JustClaimed?) && !(step.Check? && run.phase.SawCase?)
    requires PastChecks(run) ==> !run.phase.JustClaimed? && !run.phase.SawCase?
    ensures var next := NextRun(db, run, step);
      && next.(phase := run.phase, marked := run.marked, called := run.called, retried := run.retried) == run
      && (PastChecks(next) ==> PastChecks(run)) && (next.phase.JustClaimed? <==> run.phase.JustClaimed?)
      && (next.phase.SawCase? <==> run.phase.SawCase?)
  {
  }

  /** A run that has just claimed its schedule knows it as it is. */
  lemma NewRunIsProper(db: CaseDb, i: nat, owner: nat, at: Time)
    requires i < |db.schedules|
    ensures Proper(SetSchedule(db, i, NewRun(db, i, owner, at).claim), NewRun(db, i, owner, at))
  {
  }

  lemma RunsStayProper(sys: System, step: Step, at: Time)
    requires Answerable(sys) && Archived(sys.db, NextDb(sys, step, at))
    ensures forall r :: 0 <= r < |NextRuns(sys, step, at)| ==> Proper(NextDb(sys, step, at), NextRuns(sys, step, at)[r])
  {
    var runs, db := NextRuns(sys, step, at), NextDb(sys, step, at);
    forall r | 0 <= r < |runs| ensures Proper(db, runs[r]) {
      if r < |sys.runs| {
        OldRunsAre(sys, step, at, r);
        NextRunIsProper(sys.db, sys.runs[r], step);
        ArchiveKeepsProper(sys.db, db, runs[r]);
      } else {
        NewRunIsProper(sys.db, step.i, step.owner, at);
      }
    }
  }

  lemma OldRunsAre(sys: System, step: Step, at: Time, r: nat)
    requires r < |sys.runs|
    ensures var runs := NextRuns(sys, step, at);
      r < |runs| && (runs[r] == sys.runs[r] || runs[r] == NextRun(sys.db, sys.runs[r], step))
  {
  }

  lemma FlightsStayHonest(sys: System, step: Step, at: Time)
    requires Answerable(sys)
    ensures forall f :: 0 <= f < |NextFlights(sys, step, at)| && NextFlights(sys, step, at)[f].purpose.Deciding? && NextFlights(sys, step, at)[f].stage.Judged?
              ==> Honest(NextFlights(sys, step, at)[f].gate)
  {
  }

  /** What the transaction of a step does to the record: it is only added to, and every schedule is still documented. */
  lemma StaysRecorded(sys: System, step: Step, at: Time)
    requires Answerable(sys)
    ensures Documented(NextDb(sys, step, at)) && Archived(sys.db, NextDb(sys, step, at))
  {
    var t := TxnOf(sys, step, at);
    if t.Some? {
      StepsAreLegal(sys, step, at);
      JudgedIsHonest(sys, step, at);
      MoveRecords(sys.db, t.value);
    }
  }

  lemma JudgedIsHonest(sys: System, step: Step, at: Time)
    requires Answerable(sys)
    ensures var t := TxnOf(sys, step, at); t.Some? && t.value.Save? ==> Honest(t.value.snapshot.gate)
  {
  }

  lemma MoveRecords(db: CaseDb, t: Txn)
    requires Documented(db) && Sound(db) && LegalMove(db, t) && (t.Save? ==> Honest(t.snapshot.gate))
    ensures Documented(Apply(db, t)) && Archived(db, Apply(db, t))
  {
    StaysDocumented(db, t);
    Archives(db, t);
  }

  lemma StaysAnswerable(sys: System, step: Step, at: Time)
    requires Answerable(sys)
    ensures Answerable(Next(sys, step, at)) && Next(sys, step, at).db.deadline == sys.db.deadline
  {
    StaysLawful(sys, step, at);
    StaysRecorded(sys, step, at);
    RunsStayProper(sys, step, at);
    FlightsStayHonest(sys, step, at);
  }

  lemma {:induction false} AnswerableForever(sys: System, trace: seq<Timed>)
    requires Answerable(sys)
    ensures Answerable(Reach(sys, trace)) && Reach(sys, trace).db.deadline == sys.db.deadline
  {
    if trace != [] {
      var last := trace[|trace| - 1];
      AnswerableForever(sys, trace[..|trace| - 1]);
      StaysAnswerable(Reach(sys, trace[..|trace| - 1]), last.step, last.at);
    }
  }

  lemma StartsAnswerable(deadline: Time, clock: Time)
    ensures Answerable(Initial(deadline, clock))
  {
    StartsLawful(deadline, clock);
  }

  /**
   * Every run that called the provider had read the case when its schedule was the fresh one, in a state
   * that is not terminal and before the deadline; the gate had allowed the decision, on a NERV of at least
   * 0 and the threshold unless the action is WAIT; and its policy check approved, or escalated with an
   * operator's approval of exactly this schedule, given while the case was ESCALATED at the expected version.
   */
  lemma EveryCallIsAuthorised(deadline: Time, clock: Time, trace: seq<Timed>, r: nat)
    requires r < |Reach(Initial(deadline, clock), trace).runs| && Reach(Initial(deadline, clock), trace).runs[r].called
    ensures var db, run := Reach(Initial(deadline, clock), trace).db, Reach(Initial(deadline, clock), trace).runs[r];
      && run.sawFresh && Sighting(db, run.state, run.version) && !IsTerminal(run.state) && run.now < deadline
      && run.i < |db.schedules| && db.schedules[run.i].decision < |db.decisions|
      && var g := db.decisions[db.schedules[run.i].decision].gate;
      && g.action == db.schedules[run.i].action && g.allow && (g.action.Wait? || (g.nerv >= 0 && g.nerv >= g.threshold))
      && (run.verdict.Approve? || (run.verdict.Escalate? && exists k: nat :: Backs(db, k, run.i)))
  {
    StartsAnswerable(deadline, clock);
    AnswerableForever(Initial(deadline, clock), trace);
    var db, run := Reach(Initial(deadline, clock), trace).db, Reach(Initial(deadline, clock), trace).runs[r];
    assert Proper(db, run);
    assert Cites(db, run.i);
  }
}
