/**
 * The fresh schedule. Stamps are distinct, so at most one schedule carries the version of its case; without
 * manual transitions into those states a SCHEDULED or EXECUTING case always has one, whichever runs outlive their leases.
 */
module Freshness {
  import opened Wrappers
  import opened Domain
  import opened CaseRows
  import opened CaseSteps
  import opened Transactions
  import opened Ledgers
  import opened Workflow
  import opened Lifecycle

  predicate HasStarted(s: Schedule) {
    s.started.Some?
  }

  /** A schedule that never started is pending, claimed or superseded. */
  predicate Orderly(schedules: seq<Schedule>) {
    forall i :: 0 <= i < |schedules| && !HasStarted(schedules[i]) ==>
      schedules[i].status.Pending? || schedules[i].status.Claimed? || schedules[i].status.Superseded?
  }

  /** The fresh schedule of a SCHEDULED case has not started. */
  predicate Waiting(db: CaseDb, i: nat) {
    Fresh(db, i) && !HasStarted(db.schedules[i])
  }

  /** The fresh schedule of an EXECUTING case has started and not finished. */
  predicate UnderWay(db: CaseDb, i: nat) {
    && Fresh(db, i) && HasStarted(db.schedules[i])
    && var s := db.schedules[i].status;
    (s.Running? || s.Claimed? || s.RetryPending? || s.Superseded?)
  }

  ghost predicate HasFresh(db: CaseDb) {
    && (db.state.Scheduled? ==> exists i: nat :: Waiting(db, i))
    && (db.state.Executing? ==> exists i: nat :: UnderWay(db, i))
  }

  predicate RunBegan(schedules: seq<Schedule>, run: Run) {
    && run.i < |schedules|
    && (run.marked ==> HasStarted(schedules[run.i]))
    && (ResultOf(run.phase).Some? || run.phase.Started? ==> run.marked)
  }

  /** Every run works on a schedule that exists, and one that marked it has started it. */
  predicate RunsBegan(sys: System) {
    forall r :: 0 <= r < |sys.runs| ==> RunBegan(sys.db.schedules, sys.runs[r])
  }

  /** A manual transition into SCHEDULED or EXECUTING, for which no schedule is stamped. */
  predicate Unstamped(purpose: Purpose) {
    purpose.Moving? && (purpose.to.Scheduled? || purpose.to.Executing?)
  }

  /** No such transition is under way; any other manual transition may be. */
  predicate NoUnstamped(sys: System) {
    forall f :: 0 <= f < |sys.flights| ==> !Unstamped(sys.flights[f].purpose)
  }

  /** Schedules are never removed, and one that has started stays so. */
  predicate Onward(a: seq<Schedule>, b: seq<Schedule>) {
    |a| <= |b| && forall i :: 0 <= i < |a| && HasStarted(a[i]) ==> HasStarted(b[i])
  }

  lemma CompletionOnward(db: CaseDb, t: Txn)
    requires t.Complete?
    ensures Onward(db.schedules, Apply(db, t).schedules)
  {
  }

  lemma HandlingOnward(db: CaseDb, t: Txn)
    requires t.Claim? || t.Mark? || t.Suppress? || t.ClaimObservation? || t.Reassess?
    ensures Onward(db.schedules, Apply(db, t).schedules)
  {
  }

  lemma SchedulingOnward(db: CaseDb, t: Txn)
    requires t.Save? || t.Decide?
    ensures Onward(db.schedules, Apply(db, t).schedules)
  {
  }

  lemma GoesOnward(db: CaseDb, t: Txn)
    ensures Onward(db.schedules, Apply(db, t).schedules)
  {
    if t.Complete? { CompletionOnward(db, t); }
    else if t.Save? || t.Decide? { SchedulingOnward(db, t); }
    else if WritesSchedules(t) { HandlingOnward(db, t); }
    else { Frame(db, t); }
  }

  // ----- transactions keep the fresh schedule -----

  lemma MarkKeepsFresh(db: CaseDb, t: Txn)
    requires t.Mark? && HasFresh(db) && Orderly(db.schedules)
    ensures HasFresh(Apply(db, t)) && Orderly(Apply(db, t).schedules)
  {
    var after := Apply(db, t);
    if MarkExecuting(db, t.i, t.now).Commit? {
      if db.state.Scheduled? {
        assert UnderWay(after, t.i);
      } else if db.state.Executing? {
        var i: nat :| UnderWay(db, i);
        assert UnderWay(after, i);
      }
    }
  }

  lemma CompletionKeepsFresh(db: CaseDb, t: Txn)
    requires t.Complete? && HasFresh(db) && Orderly(db.schedules)
    requires t.i < |db.schedules| ==> HasStarted(db.schedules[t.i])
    ensures HasFresh(Apply(db, t)) && Orderly(Apply(db, t).schedules)
  {
    var after := Apply(db, t);
    if db.state.Scheduled? {
      var i: nat :| Waiting(db, i);
      assert Waiting(after, i);
    } else if after.state.Executing? {
      var i: nat :| UnderWay(db, i);
      assert UnderWay(after, i);
    }
  }

  lemma WorkKeepsFresh(db: CaseDb, t: Txn)
    requires t.Claim? || t.Suppress? || t.ClaimObservation?
    requires HasFresh(db) && Orderly(db.schedules)
    ensures HasFresh(Apply(db, t)) && Orderly(Apply(db, t).schedules)
  {
    var after := Apply(db, t);
    if db.state.Scheduled? {
      var i: nat :| Waiting(db, i);
      assert Waiting(after, i);
    } else if db.state.Executing? {
      var i: nat :| UnderWay(db, i);
      assert UnderWay(after, i);
    }
  }

  lemma ReassessmentKeepsFresh(db: CaseDb, t: Txn)
    requires t.Reassess?
    requires HasFresh(db) && Orderly(db.schedules)
    ensures HasFresh(Apply(db, t)) && Orderly(Apply(db, t).schedules)
  {
    var after := Apply(db, t);
    if db.state.Scheduled? {
      var i: nat :| Waiting(db, i);
      assert Waiting(after, i);
    } else if db.state.Executing? {
      var i: nat :| UnderWay(db, i);
      assert UnderWay(after, i);
    }
  }

  lemma SavingKeepsFresh(db: CaseDb, t: Txn)
    requires t.Save?
    requires HasFresh(db) && Orderly(db.schedules)
    ensures HasFresh(Apply(db, t)) && Orderly(Apply(db, t).schedules)
  {
    var after := Apply(db, t);
    if after.schedules != db.schedules {
      assert Waiting(after, |db.schedules|);
    } else if after.state.Scheduled? {
      assert after.version == db.version;
      var i: nat :| Waiting(db, i);
      assert Waiting(after, i);
    } else if after.state.Executing? {
      assert after.version == db.version;
      var i: nat :| UnderWay(db, i);
      assert UnderWay(after, i);
    }
  }

  lemma ReviewKeepsFresh(db: CaseDb, t: Txn)
    requires t.Decide?
    requires HasFresh(db) && Orderly(db.schedules)
    ensures HasFresh(Apply(db, t)) && Orderly(Apply(db, t).schedules)
  {
    var after := Apply(db, t);
    if after.schedules != db.schedules {
      assert Waiting(after, |db.schedules|);
    } else if after.state.Scheduled? {
      assert after.version == db.version;
      var i: nat :| Waiting(db, i);
      assert Waiting(after, i);
    } else if after.state.Executing? {
      assert after.version == db.version;
      var i: nat :| UnderWay(db, i);
      assert UnderWay(after, i);
    }
  }

  /** Other transactions do not touch schedules and enter neither SCHEDULED nor EXECUTING. */
  lemma OtherwiseElsewhere(db: CaseDb, t: Txn)
    requires !WritesSchedules(t) && !t.Transition?
    ensures Apply(db, t).version == db.version || !(Apply(db, t).state.Scheduled? || Apply(db, t).state.Executing?)
    ensures Apply(db, t).version == db.version ==> Apply(db, t).state == db.state
  {
  }

  lemma KeepsFresh(db: CaseDb, t: Txn)
    requires HasFresh(db) && Orderly(db.schedules) && (t.Transition? ==> !t.to.Scheduled? && !t.to.Executing?)
    requires t.Complete? && t.i < |db.schedules| ==> HasStarted(db.schedules[t.i])
    ensures HasFresh(Apply(db, t)) && Orderly(Apply(db, t).schedules)
  {
    if t.Mark? { MarkKeepsFresh(db, t); }
    else if t.Complete? { CompletionKeepsFresh(db, t); }
    else if t.Save? { SavingKeepsFresh(db, t); }
    else if t.Decide? { ReviewKeepsFresh(db, t); }
    else if t.Reassess? { ReassessmentKeepsFresh(db, t); }
    else if WritesSchedules(t) { WorkKeepsFresh(db, t); }
    else if t.Transition? { Frame(db, t); }
    else { UntouchedKeepsFresh(db, t); }
  }

  lemma UntouchedKeepsFresh(db: CaseDb, t: Txn)
    requires HasFresh(db) && Orderly(db.schedules) && !WritesSchedules(t) && !t.Transition?
    ensures HasFresh(Apply(db, t)) && Orderly(Apply(db, t).schedules)
  {
    Frame(db, t);
    OtherwiseElsewhere(db, t);
    var after := Apply(db, t);
    if after.state.Scheduled? {
      var i: nat :| Waiting(db, i);
      assert Waiting(after, i);
    } else if after.state.Executing? {
      var i: nat :| UnderWay(db, i);
      assert UnderWay(after, i);
    }
  }

  // ----- every reachable state -----

  ghost predicate Prompt(sys: System) {
    HasFresh(sys.db) && Orderly(sys.db.schedules) && RunsBegan(sys) && NoUnstamped(sys)
  }

  /** A run that marks its schedule has started it in the same step. */
  lemma NextRunBegan(sys: System, step: Step, at: Time, r: nat)
    requires Actor(step) == Some(r) && r < |sys.runs| && RunBegan(sys.db.schedules, sys.runs[r])
    requires Onward(sys.db.schedules, NextDb(sys, step, at).schedules)
    ensures RunBegan(NextDb(sys, step, at).schedules, NextRun(sys.db, sys.runs[r], step))
  {
  }

  lemma RunsStayBegun(sys: System, step: Step, at: Time)
    requires RunsBegan(sys)
    ensures RunsBegan(Next(sys, step, at))
  {
    var t, after, runs := TxnOf(sys, step, at), NextDb(sys, step, at).schedules, NextRuns(sys, step, at);
    if t.Some? {
      GoesOnward(sys.db, t.value);
    }
    forall r | 0 <= r < |runs| ensures RunBegan(after, runs[r]) {
      if r < |sys.runs| {
        assert RunBegan(sys.db.schedules, sys.runs[r]);
        if Actor(step) == Some(r) { NextRunBegan(sys, step, at, r); }
      }
    }
  }

  lemma StaysPrompt(sys: System, step: Step, at: Time)
    requires Prompt(sys) && !(step.Begin? && Unstamped(step.purpose))
    ensures Prompt(Next(sys, step, at))
  {
    RunsStayBegun(sys, step, at);
    NoUnstampedStep(sys, step, at);
    var t := TxnOf(sys, step, at);
    if t.Some? {
      KeepsFresh(sys.db, t.value);
    }
  }

  lemma NoUnstampedStep(sys: System, step: Step, at: Time)
    requires NoUnstamped(sys) && !(step.Begin? && Unstamped(step.purpose))
    ensures NoUnstamped(Next(sys, step, at))
    ensures var t := TxnOf(sys, step, at); t.Some? && t.value.Transition? ==> !t.value.to.Scheduled? && !t.value.to.Executing?
  {
  }

  /** No step of the trace starts a manual transition into SCHEDULED or EXECUTING. */
  predicate Stamping(trace: seq<Timed>) {
    forall k :: 0 <= k < |trace| ==> !(trace[k].step.Begin? && Unstamped(trace[k].step.purpose))
  }

  lemma {:induction false} PromptForever(sys: System, trace: seq<Timed>)
    requires Prompt(sys) && Stamping(trace)
    ensures Prompt(Reach(sys, trace))
  {
    if trace != [] {
      var last := trace[|trace| - 1];
      PromptForever(sys, trace[..|trace| - 1]);
      StaysPrompt(Reach(sys, trace[..|trace| - 1]), last.step, last.at);
    }
  }

  lemma StartsPrompt(deadline: Time, clock: Time)
    ensures Prompt(Initial(deadline, clock))
  {
  }

  /** The statuses in which a schedule can still be the fresh one. */
  predicate StillOpen(s: ScheduleStatus) {
    s.Pending? || s.Claimed? || s.Running? || s.RetryPending? || s.Superseded?
  }

  /**
   * In every state reachable without manual transitions into SCHEDULED or EXECUTING, whatever others there are, a SCHEDULED or EXECUTING case has exactly one
   * fresh schedule, and it is pending, claimed, executing, waiting for a retry or superseded.
   */
  lemma ExactlyOneFresh(deadline: Time, clock: Time, trace: seq<Timed>) returns (i: nat)
    requires Stamping(trace)
    requires var db := Reach(Initial(deadline, clock), trace).db; db.state.Scheduled? || db.state.Executing?
    ensures var db := Reach(Initial(deadline, clock), trace).db;
      Fresh(db, i) && StillOpen(db.schedules[i].status) && forall j: nat :: Fresh(db, j) ==> j == i
  {
    var start := Initial(deadline, clock);
    StartsPrompt(deadline, clock);
    PromptForever(start, trace);
    AlwaysLawful(deadline, clock, trace);
    var db := Reach(start, trace).db;
    if db.state.Scheduled? {
      i :| Waiting(db, i);
    } else {
      i :| UnderWay(db, i);
    }
  }

  /** A crash never loses it: unless it is superseded, the fresh schedule is claimed again once it is due and its lease has ended. */
  lemma FreshIsNeverLost(deadline: Time, clock: Time, trace: seq<Timed>, owner: nat, now: Time) returns (i: nat)
    requires Stamping(trace)
    requires var db := Reach(Initial(deadline, clock), trace).db; db.state.Scheduled? || db.state.Executing?
    ensures var db := Reach(Initial(deadline, clock), trace).db;
      && Fresh(db, i)
      && (db.schedules[i].status.Superseded? || now < DueAt(db.schedules[i]) || ClaimDue(db, i, owner, now, LEASE).Commit?
          || (db.schedules[i].leaseExpires.Some? && now < db.schedules[i].leaseExpires.value))
  {
    i := ExactlyOneFresh(deadline, clock, trace);
    AlwaysLawful(deadline, clock, trace);
    var db := Reach(Initial(deadline, clock), trace).db;
    var s := db.schedules[i];
    if !s.status.Superseded? && DueAt(s) <= now && (s.leaseExpires.Some? ==> s.leaseExpires.value <= now) {
      OpenScheduleIsClaimable(db, i, owner, now, LEASE);
    }
  }

  /** The exact condition on manual transitions: one loses the fresh schedule if and only if it goes to SCHEDULED or EXECUTING. */
  lemma ManualTransitionLosesFreshness(db: CaseDb, to: CaseState)
    requires Stamped(db.schedules, db.version)
    ensures HasFresh(Apply(db, Transition(db.version, to))) <==> !to.Scheduled? && !to.Executing?
    ensures to.Scheduled? || to.Executing? ==> forall i: nat :: !Fresh(Apply(db, Transition(db.version, to)), i)
  {
  }

  /** The table has such edges, one from PolicyReview and one from Scheduled. */
  lemma UnstampedEdges(from: CaseState, to: CaseState)
    requires to.Scheduled? || to.Executing?
    ensures CanTransition(from, to) <==> (from.PolicyReview? && to.Scheduled?) || (from.Scheduled? && to.Executing?)
  {
  }
}
