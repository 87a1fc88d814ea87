/**
 * Disciplined traces: the clock does not go backwards, no run takes a step after its lease has ended, and
 * nobody uses the manual transition endpoint. Under that discipline a run that is past its checks works
 * on the newest schedule, and an action that has started is part of the history before the next decision.
 */
module Discipline {
  import opened Wrappers
  import opened Domain
  import opened CaseRows
  import opened CaseSteps
  import opened Transactions
  import opened Ledgers
  import opened Workflow
  import opened Lifecycle
  import opened Freshness
  import opened Attempts
  import opened Authorization
  import Policy

  predicate InTime(sys: System, step: Step, at: Time) {
    && sys.clock <= at
    && !(step.Begin? && step.purpose.Moving?)
    && (Actor(step).Some? && Actor(step).value < |sys.runs| ==> at < sys.runs[Actor(step).value].now + LEASE)
  }

  /** A run that is not over and whose lease has not ended. */
  predicate Live(run: Run, clock: Time) {
    !run.phase.Over? && clock < run.now + LEASE
  }

  /** A run that read the case when its schedule was fresh. */
  predicate Current(run: Run) {
    (run.phase.SawCase? || run.phase.Cleared? || run.phase.Started? || run.phase.Answered?) && run.version == run.claim.stamp
  }

  predicate AtWork(run: Run) {
    run.phase.Started? || run.phase.Answered?
  }

  /** The schedule is still held under the lease the run was given. */
  predicate Held(schedules: seq<Schedule>, run: Run) {
    && run.i < |schedules|
    && var s := schedules[run.i];
    && s.attempt == run.claim.attempt && s.leaseExpires == Some(run.now + LEASE)
    && (if AtWork(run) then s.status.Running? else s.status.Claimed?)
  }

  predicate Busy(state: CaseState) {
    state.Scheduled? || state.Executing?
  }

  /** The run works on the newest schedule, and unless the case is closed that schedule is still the fresh one. */
  predicate UpToDate(db: CaseDb, run: Run) {
    && run.i == |db.schedules| - 1
    && (IsTerminal(db.state) || (Fresh(db, run.i) && Busy(db.state) && (AtWork(run) ==> db.state.Executing?)))
  }

  predicate RunFit(db: CaseDb, run: Run, clock: Time) {
    && (Live(run, clock) ==> Held(db.schedules, run))
    && (Live(run, clock) && Current(run) ==> UpToDate(db, run))
    && (run.phase.Cleared? || AtWork(run) ==> run.version == run.claim.stamp)
  }

  predicate RunsFit(db: CaseDb, runs: seq<Run>, clock: Time) {
    forall r :: 0 <= r < |runs| ==> RunFit(db, runs[r], clock)
  }

  /** Newer schedules have newer stamps, and a stamp is a version at which the case was SCHEDULED or EXECUTING. */
  predicate Ascending(db: CaseDb) {
    && (forall i, j :: 0 <= i < j < |db.schedules| ==> db.schedules[i].stamp < db.schedules[j].stamp)
    && forall i :: 0 <= i < |db.schedules| ==>
      Sighting(db, Scheduled, db.schedules[i].stamp) || Sighting(db, Executing, db.schedules[i].stamp)
  }

  predicate Planned(s: Schedule) {
    s.actionStatus.StillPlanned?
  }

  /**
   * An action that has started is either done, or is what an EXECUTING case is executing, or the case is
   * closed: so a case that awaits a decision has no started action outside its history.
   */
  predicate Settled(db: CaseDb) {
    forall i :: 0 <= i < |db.schedules| ==>
      && (!Planned(db.schedules[i]) ==> HasStarted(db.schedules[i]))
      && (HasStarted(db.schedules[i]) && Planned(db.schedules[i]) ==> IsTerminal(db.state) || (db.state.Executing? && Fresh(db, i)))
  }

  // ----- transactions that are no run's -----

  /** Such a transaction leaves schedules in hand alone, takes a busy case only to its end, and schedules only a case that is not busy. */
  predicate Calm(a: CaseDb, b: CaseDb) {
    && |a.schedules| <= |b.schedules| <= |a.schedules| + 1
    && (forall i :: 0 <= i < |a.schedules| ==> Alike(a.schedules[i], b.schedules[i]))
    && (|b.schedules| > |a.schedules| ==>
          && !Busy(a.state) && !IsTerminal(a.state) && b.state.Scheduled?
          && var s := b.schedules[|a.schedules|]; s.stamp == b.version && !HasStarted(s) && Planned(s))
    && (Busy(a.state) || IsTerminal(a.state) ==> (b.version == a.version && b.state == a.state) || IsTerminal(b.state))
  }

  predicate Alike(a: Schedule, b: Schedule) {
    && a.action == b.action && a.createdAt == b.createdAt && a.stamp == b.stamp && a.started == b.started
    && a.actionStatus == b.actionStatus && a.attempt == b.attempt
    && (a.status.Claimed? || a.status.Running? ==> b == a)
  }

  predicate NoRuns(t: Txn) {
    !t.Claim? && !t.Mark? && !t.Complete? && !t.Suppress? && !t.Transition?
  }

  lemma SaveIsCalm(db: CaseDb, t: Txn)
    requires t.Save?
    ensures Calm(db, Apply(db, t))
  {
  }

  lemma DecideIsCalm(db: CaseDb, t: Txn)
    requires t.Decide?
    ensures Calm(db, Apply(db, t))
  {
  }

  lemma ObservingIsCalm(db: CaseDb, t: Txn)
    requires t.ClaimObservation? || t.Reassess?
    ensures Calm(db, Apply(db, t))
  {
  }

  lemma ElsewhereIsCalm(db: CaseDb, t: Txn)
    requires NoRuns(t) && !WritesSchedules(t)
    ensures Calm(db, Apply(db, t))
  {
    Frame(db, t);
  }

  lemma IsCalm(db: CaseDb, t: Txn)
    requires NoRuns(t)
    ensures Calm(db, Apply(db, t))
  {
    if t.Save? { SaveIsCalm(db, t); }
    else if t.Decide? { DecideIsCalm(db, t); }
    else if WritesSchedules(t) { ObservingIsCalm(db, t); }
    else { ElsewhereIsCalm(db, t); }
  }

  lemma CalmKeepsRun(a: CaseDb, b: CaseDb, run: Run, before: Time, clock: Time)
    requires Calm(a, b) && RunFit(a, run, before) && before <= clock
    ensures RunFit(b, run, clock)
  {
  }

  lemma CalmKeepsSettled(a: CaseDb, b: CaseDb)
    requires Calm(a, b) && Settled(a)
    ensures Settled(b)
  {
  }

  lemma CalmKeepsAscending(a: CaseDb, b: CaseDb)
    requires Calm(a, b) && Ascending(a) && Stamped(a.schedules, a.version) && a.trail <= b.trail
    requires Trailed(b) && (|b.schedules| > |a.schedules| ==> b.version > a.version)
    ensures Ascending(b)
  {
  }

  // ----- the steps of runs -----

  /** Two runs that hold the same schedule are the same run. */
  lemma OneHolder(schedules: seq<Schedule>, runs: seq<Run>, r: nat, q: nat)
    requires OwnAttempts(runs) && r < |runs| && q < |runs| && runs[r].i == runs[q].i
    requires Held(schedules, runs[r]) && Held(schedules, runs[q])
    ensures r == q
  {
  }

  lemma ClaimFits(db: CaseDb, runs: seq<Run>, i: nat, owner: nat, before: Time, at: Time, run: Run)
    requires RunsFit(db, runs, before) && before <= at && i < |db.schedules| && Claimable(db.schedules[i], at)
    requires run.i == i && run.claim == CaseSteps.Claimed(db.schedules[i], owner, at, LEASE) && run.now == at && run.phase.JustClaimed?
    ensures RunsFit(SetSchedule(db, i, run.claim), runs + [run], at)
  {
    var after, longer := SetSchedule(db, i, run.claim), runs + [run];
    forall r | 0 <= r < |longer| ensures RunFit(after, longer[r], at) {
      if r < |runs| {
        assert RunFit(db, runs[r], before);
      }
    }
  }

  /** A step that changes only the schedule its run holds leaves every other live run as it was. */
  lemma OthersStayHeld(db: CaseDb, after: CaseDb, runs: seq<Run>, r: nat, q: nat, before: Time, at: Time)
    requires RunsFit(db, runs, before) && OwnAttempts(runs) && before <= at
    requires r < |runs| && q < |runs| && q != r && Live(runs[r], at) && Live(runs[q], at)
    requires |after.schedules| == |db.schedules|
    requires forall k :: 0 <= k < |db.schedules| && k != runs[r].i ==> after.schedules[k] == db.schedules[k]
    ensures Held(after.schedules, runs[q]) && runs[q].i != runs[r].i
    ensures Current(runs[r]) ==> !Current(runs[q])
  {
    assert RunFit(db, runs[r], before) && RunFit(db, runs[q], before);
    if runs[r].i == runs[q].i {
      OneHolder(db.schedules, runs, r, q);
    }
  }

  lemma MarkFits(db: CaseDb, runs: seq<Run>, r: nat, before: Time, at: Time, run: Run)
    requires RunsFit(db, runs, before) && OwnAttempts(runs) && before <= at && r < |runs|
    requires Live(runs[r], at) && runs[r].phase.Cleared? && AtWork(run)
    requires run.i == runs[r].i && run.claim == runs[r].claim && run.now == runs[r].now && run.version == runs[r].version
    ensures RunsFit(Apply(db, Mark(run.i, run.now)), runs[r := run], at)
  {
    var after, next := Apply(db, Mark(run.i, run.now)), runs[r := run];
    assert RunFit(db, runs[r], before);
    forall q | 0 <= q < |runs| ensures RunFit(after, next[q], at) {
      if q != r {
        assert RunFit(db, runs[q], before);
        if Live(runs[q], at) { OthersStayHeld(db, after, runs, r, q, before, at); }
      }
    }
  }

  lemma SuppressFits(db: CaseDb, runs: seq<Run>, r: nat, before: Time, at: Time)
    requires RunsFit(db, runs, before) && OwnAttempts(runs) && before <= at && r < |runs|
    requires Live(runs[r], at) && runs[r].phase.Refused?
    ensures RunsFit(Apply(db, Suppress(runs[r].i, runs[r].now)), runs[r := runs[r].(phase := Over)], at)
  {
    var after, next := Apply(db, Suppress(runs[r].i, runs[r].now)), runs[r := runs[r].(phase := Over)];
    assert RunFit(db, runs[r], before);
    forall q | 0 <= q < |runs| ensures RunFit(after, next[q], at) {
      if q != r {
        assert RunFit(db, runs[q], before);
        if Live(runs[q], at) { OthersStayHeld(db, after, runs, r, q, before, at); }
      }
    }
  }

  lemma CompleteFits(db: CaseDb, runs: seq<Run>, r: nat, before: Time, at: Time, result: ProviderResult, run: Run)
    requires RunsFit(db, runs, before) && OwnAttempts(runs) && before <= at && r < |runs|
    requires Live(runs[r], at) && AtWork(runs[r]) && run.phase.Over?
    ensures RunsFit(Apply(db, Complete(runs[r].i, runs[r].claim, result, at)), runs[r := run], at)
  {
    var i := runs[r].i;
    var after, next := Apply(db, Complete(i, runs[r].claim, result, at)), runs[r := run];
    assert RunFit(db, runs[r], before);
    CompletedSchedules(db, i, runs[r].claim, result, at);
    forall q | 0 <= q < |runs| ensures RunFit(after, next[q], at) {
      if q != r {
        assert RunFit(db, runs[q], before);
        if Live(runs[q], at) { OthersStayHeld(db, after, runs, r, q, before, at); }
      }
    }
  }

  lemma FreshIsNewest(db: CaseDb, i: nat)
    requires Ascending(db) && Stamped(db.schedules, db.version) && Fresh(db, i)
    ensures i == |db.schedules| - 1
  {
    var newest := db.schedules[|db.schedules| - 1].stamp;
    assert newest <= db.version;
  }

  /** A run that has just read the case at the version its schedule is stamped with has read it fresh. */
  lemma SeeFits(db: CaseDb, run: Run, before: Time, at: Time)
    requires RunFit(db, run, before) && before <= at && run.phase.JustClaimed?
    requires Ascending(db) && Stamped(db.schedules, db.version) && Trailed(db) && Recalls(db, run)
    ensures RunFit(db, NextRun(db, run, See(0)), at)
  {
    if db.version == run.claim.stamp {
      FreshIsNewest(db, run.i);
    }
  }

  lemma CheckFits(db: CaseDb, run: Run, facts: Policy.Context, before: Time, at: Time)
    requires RunFit(db, run, before) && before <= at && run.phase.SawCase?
    ensures RunFit(db, NextRun(db, run, Check(0, facts)), at)
  {
  }

  lemma CallFits(db: CaseDb, run: Run, result: ProviderResult, before: Time, at: Time)
    requires RunFit(db, run, before) && before <= at && run.phase == Started(None)
    ensures RunFit(db, NextRun(db, run, Call(0, result)), at)
  {
  }

  // ----- what runs do to schedules -----

  lemma MarkSettles(db: CaseDb, run: Run, clock: Time)
    requires RunFit(db, run, clock) && Live(run, clock) && run.phase.Cleared?
    requires Settled(db) && Ascending(db) && Stamped(db.schedules, db.version) && Trailed(db)
    ensures Settled(Apply(db, Mark(run.i, run.now))) && Ascending(Apply(db, Mark(run.i, run.now)))
  {
    MarkKeepsSettled(db, run, clock);
    MarkKeepsAscending(db, run, clock);
  }

  lemma MarkKeepsSettled(db: CaseDb, run: Run, clock: Time)
    requires RunFit(db, run, clock) && Live(run, clock) && run.phase.Cleared? && Settled(db) && Stamped(db.schedules, db.version)
    ensures Settled(Apply(db, Mark(run.i, run.now)))
  {
  }

  lemma MarkKeepsAscending(db: CaseDb, run: Run, clock: Time)
    requires RunFit(db, run, clock) && Live(run, clock) && run.phase.Cleared?
    requires Ascending(db) && Stamped(db.schedules, db.version) && Trailed(db)
    ensures Ascending(Apply(db, Mark(run.i, run.now)))
  {
  }

  lemma CompleteSettles(db: CaseDb, run: Run, clock: Time, result: ProviderResult, at: Time)
    requires RunFit(db, run, clock) && Live(run, clock) && AtWork(run) && run.i < |db.schedules| && HasStarted(db.schedules[run.i])
    requires Settled(db) && Stamped(db.schedules, db.version)
    ensures Settled(Apply(db, Complete(run.i, run.claim, result, at)))
  {
    var after := Apply(db, Complete(run.i, run.claim, result, at));
    CompletedSchedules(db, run.i, run.claim, result, at);
    forall k | 0 <= k < |db.schedules| && k != run.i && HasStarted(db.schedules[k]) && Planned(db.schedules[k])
      ensures IsTerminal(db.state)
    {
      assert db.state.Executing? ==> !Fresh(db, k) || !Fresh(db, run.i);
    }
  }

  // ----- every disciplined trace -----

  predicate NoManual(sys: System) {
    forall f :: 0 <= f < |sys.flights| ==> !sys.flights[f].purpose.Moving?
  }

  lemma NoManualStep(sys: System, step: Step, at: Time)
    requires NoManual(sys) && !(step.Begin? && step.purpose.Moving?)
    ensures NoManual(Next(sys, step, at))
  {
  }

  ghost predicate Governed(sys: System) {
    && Answerable(sys) && Prompt(sys) && NoManual(sys) && Counted(sys.db.schedules, sys.runs)
    && RunsFit(sys.db, sys.runs, sys.clock) && Ascending(sys.db) && Settled(sys.db)
  }

  /** Steps that belong to no run: of operators, customers, payments, promises and decisions. */
  predicate Runless(step: Step) {
    step.Outside? || step.Begin? || step.Look? || step.Assess? || step.Land?
  }

  lemma RunlessTxn(sys: System, step: Step, at: Time)
    requires Runless(step) && NoManual(sys)
    ensures NextRuns(sys, step, at) == sys.runs
    ensures TxnOf(sys, step, at).Some? ==> NoRuns(TxnOf(sys, step, at).value)
  {
  }

  lemma RunlessStep(sys: System, step: Step, at: Time)
    requires Governed(sys) && InTime(sys, step, at) && Runless(step)
    ensures RunsFit(NextDb(sys, step, at), NextRuns(sys, step, at), at)
    ensures Ascending(NextDb(sys, step, at)) && Settled(NextDb(sys, step, at))
  {
    RunlessTxn(sys, step, at);
    RunlessCalm(sys, step, at);
    forall r | 0 <= r < |sys.runs| ensures RunFit(NextDb(sys, step, at), sys.runs[r], at) {
      CalmKeepsRun(sys.db, NextDb(sys, step, at), sys.runs[r], sys.clock, at);
    }
  }

  lemma RunlessCalm(sys: System, step: Step, at: Time)
    requires Lawful(sys) && Settled(sys.db) && Ascending(sys.db) && NoManual(sys) && Runless(step)
    ensures var db := NextDb(sys, step, at); Calm(sys.db, db) && Settled(db) && Ascending(db)
  {
    var t := TxnOf(sys, step, at);
    RunlessTxn(sys, step, at);
    if t.Some? {
      StaysLawful(sys, step, at);
      StepsAreLegal(sys, step, at);
      Archives(sys.db, t.value);
      CalmTxn(sys.db, t.value);
    }
  }

  lemma CalmTxn(db: CaseDb, t: Txn)
    requires NoRuns(t) && Settled(db) && Ascending(db) && Stamped(db.schedules, db.version)
    requires Trailed(Apply(db, t)) && db.trail <= Apply(db, t).trail
    ensures Calm(db, Apply(db, t)) && Settled(Apply(db, t)) && Ascending(Apply(db, t))
  {
    var after := Apply(db, t);
    IsCalm(db, t);
    CalmKeepsSettled(db, after);
    Appends(db, t);
    CalmKeepsAscending(db, after);
  }

  /** A schedule is appended only together with new versions. */
  lemma Appends(db: CaseDb, t: Txn)
    requires NoRuns(t)
    ensures |Apply(db, t).schedules| > |db.schedules| ==> Apply(db, t).version > db.version
  {
    Frame(db, t);
  }

  lemma ClaimIs(sys: System, step: Step, at: Time)
    requires step.ClaimWork?
    ensures if step.i < |sys.db.schedules| && Claimable(sys.db.schedules[step.i], at) then
              var run := NewRun(sys.db, step.i, step.owner, at);
              NextDb(sys, step, at) == SetSchedule(sys.db, step.i, run.claim) && NextRuns(sys, step, at) == sys.runs + [run]
            else NextDb(sys, step, at) == sys.db && NextRuns(sys, step, at) == sys.runs
  {
  }

  lemma ClaimingStep(sys: System, step: Step, at: Time)
    requires Governed(sys) && InTime(sys, step, at) && step.ClaimWork?
    ensures RunsFit(NextDb(sys, step, at), NextRuns(sys, step, at), at)
    ensures Ascending(NextDb(sys, step, at)) && Settled(NextDb(sys, step, at))
  {
    ClaimIs(sys, step, at);
    if step.i < |sys.db.schedules| && Claimable(sys.db.schedules[step.i], at) {
      var run := NewRun(sys.db, step.i, step.owner, at);
      ClaimFits(sys.db, sys.runs, step.i, step.owner, sys.clock, at, run);
      HandlingSettles(sys.db, step.i, run.claim);
    } else {
      LaterFits(sys.db, sys.runs, sys.clock, at);
    }
  }

  lemma LaterFits(db: CaseDb, runs: seq<Run>, before: Time, at: Time)
    requires RunsFit(db, runs, before) && before <= at
    ensures RunsFit(db, runs, at)
  {
    forall q | 0 <= q < |runs| ensures RunFit(db, runs[q], at) {
      assert RunFit(db, runs[q], before);
    }
  }

  /** Claiming or withdrawing a schedule changes nothing that these invariants look at. */
  lemma HandlingSettles(db: CaseDb, i: nat, s: Schedule)
    requires i < |db.schedules| && s.stamp == db.schedules[i].stamp
    requires s.started == db.schedules[i].started && s.actionStatus == db.schedules[i].actionStatus
    ensures Settled(db) ==> Settled(SetSchedule(db, i, s))
    ensures Ascending(db) ==> Ascending(SetSchedule(db, i, s))
  {
  }

  /** Suppression is the change of one schedule and an event. */
  lemma Suppressed(db: CaseDb, i: nat, now: Time) returns (s: Schedule)
    requires i < |db.schedules|
    ensures s.stamp == db.schedules[i].stamp && s.started == db.schedules[i].started && s.actionStatus == db.schedules[i].actionStatus
    ensures Apply(db, Suppress(i, now)) == Log(SetSchedule(db, i, s), [ActionSuppressed])
  {
    s := Apply(db, Suppress(i, now)).schedules[i];
  }

  /** A run's own step that runs no transaction. */
  lemma ReadingFits(db: CaseDb, run: Run, step: Step, before: Time, at: Time)
    requires RunFit(db, run, before) && before <= at && (step.See? || step.Check? || step.Call?)
    requires Ascending(db) && Stamped(db.schedules, db.version) && Trailed(db) && Recalls(db, run)
    ensures RunFit(db, NextRun(db, run, step), at)
  {
    if step.See? && run.phase.JustClaimed? { SeeFits(db, run, before, at); }
    else if step.Check? && run.phase.SawCase? { CheckFits(db, run, step.facts, before, at); }
    else if step.Call? && run.phase == Started(None) { CallFits(db, run, step.result, before, at); }
  }

  lemma ReadingIs(sys: System, step: Step, at: Time)
    requires step.See? || step.Check? || step.Call?
    ensures NextDb(sys, step, at) == sys.db
    ensures var r := Actor(step).value;
      NextRuns(sys, step, at) == if r < |sys.runs| then sys.runs[r := NextRun(sys.db, sys.runs[r], step)] else sys.runs
  {
  }

  lemma ReadingStep(sys: System, step: Step, at: Time)
    requires Lawful(sys) && RunsFit(sys.db, sys.runs, sys.clock) && Ascending(sys.db) && sys.clock <= at
    requires step.See? || step.Check? || step.Call?
    requires Actor(step).value < |sys.runs| ==> Recalls(sys.db, sys.runs[Actor(step).value])
    ensures RunsFit(NextDb(sys, step, at), NextRuns(sys, step, at), at)
    ensures NextDb(sys, step, at) == sys.db
  {
    var r := Actor(step).value;
    ReadingIs(sys, step, at);
    LaterFits(sys.db, sys.runs, sys.clock, at);
    if r < |sys.runs| {
      var next := NextRun(sys.db, sys.runs[r], step);
      assert RunFit(sys.db, sys.runs[r], sys.clock);
      ReadingFits(sys.db, sys.runs[r], step, sys.clock, at);
      OneRunFits(sys.db, sys.runs, r, next, at);
    }
  }

  lemma OneRunFits(db: CaseDb, runs: seq<Run>, r: nat, run: Run, at: Time)
    requires RunsFit(db, runs, at) && r < |runs| && RunFit(db, run, at)
    ensures RunsFit(db, runs[r := run], at)
  {
    var next := runs[r := run];
    forall q | 0 <= q < |next| ensures RunFit(db, next[q], at) {
      assert q != r ==> RunFit(db, runs[q], at);
    }
  }

  /** Whether a run's step runs a transaction. */
  predicate Acts(run: Run, step: Step) {
    match step
    case Withdraw(_) => run.phase.Refused?
    case Start(_, reconciled) => run.phase.Cleared? && (reconciled.Some? ==> run.claim.attempt > 1)
    case Finish(_) => ResultOf(run.phase).Some?
    case _ => false
  }

  lemma IdleStep(sys: System, step: Step, at: Time)
    requires RunsFit(sys.db, sys.runs, sys.clock) && sys.clock <= at && (step.Withdraw? || step.Start? || step.Finish?)
    requires step.r < |sys.runs| ==> !Acts(sys.runs[step.r], step)
    ensures NextDb(sys, step, at) == sys.db && NextRuns(sys, step, at) == sys.runs
    ensures RunsFit(sys.db, sys.runs, at)
  {
    LaterFits(sys.db, sys.runs, sys.clock, at);
  }

  lemma WithdrawingStep(sys: System, step: Step, at: Time)
    requires Governed(sys) && InTime(sys, step, at) && step.Withdraw? && step.r < |sys.runs| && Acts(sys.runs[step.r], step)
    ensures RunsFit(NextDb(sys, step, at), NextRuns(sys, step, at), at)
    ensures Ascending(NextDb(sys, step, at)) && Settled(NextDb(sys, step, at))
  {
    var run := sys.runs[step.r];
    SuppressFits(sys.db, sys.runs, step.r, sys.clock, at);
    assert RunFit(sys.db, run, sys.clock);
    var s := Suppressed(sys.db, run.i, run.now);
    HandlingSettles(sys.db, run.i, s);
    LogSettles(SetSchedule(sys.db, run.i, s), [ActionSuppressed]);
  }

  lemma LogSettles(db: CaseDb, kinds: seq<EventType>)
    requires Settled(db) && Ascending(db)
    ensures Settled(Log(db, kinds)) && Ascending(Log(db, kinds))
  {
  }

  lemma StartingStep(sys: System, step: Step, at: Time)
    requires Governed(sys) && InTime(sys, step, at) && step.Start? && step.r < |sys.runs| && Acts(sys.runs[step.r], step)
    ensures RunsFit(NextDb(sys, step, at), NextRuns(sys, step, at), at)
    ensures Ascending(NextDb(sys, step, at)) && Settled(NextDb(sys, step, at))
  {
    var run := sys.runs[step.r];
    assert RunFit(sys.db, run, sys.clock);
    assert MarkExecuting(sys.db, run.i, run.now).Commit?;
    MarkFits(sys.db, sys.runs, step.r, sys.clock, at, NextRuns(sys, step, at)[step.r]);
    MarkSettles(sys.db, run, sys.clock);
  }

  lemma CompleteAscends(db: CaseDb, run: Run, result: ProviderResult, at: Time)
    requires Ascending(db) && Sound(db)
    ensures Ascending(Apply(db, Complete(run.i, run.claim, result, at)))
  {
    var t := Complete(run.i, run.claim, result, at);
    StaysTrailed(db, t);
    CompletionKeepsStamps(db, t);
  }

  lemma FinishingIs(sys: System, step: Step, at: Time)
    requires step.Finish? && step.r < |sys.runs| && Acts(sys.runs[step.r], step)
    ensures var run, result := sys.runs[step.r], ResultOf(sys.runs[step.r].phase).value;
      && NextDb(sys, step, at) == Apply(sys.db, Complete(run.i, run.claim, result, at))
      && NextRuns(sys, step, at) == sys.runs[step.r := NextRun(sys.db, run, step)] && NextRun(sys.db, run, step).phase.Over?
  {
  }

  lemma FinishingStep(sys: System, step: Step, at: Time)
    requires Governed(sys) && InTime(sys, step, at) && step.Finish? && step.r < |sys.runs| && Acts(sys.runs[step.r], step)
    ensures RunsFit(NextDb(sys, step, at), NextRuns(sys, step, at), at)
    ensures Ascending(NextDb(sys, step, at)) && Settled(NextDb(sys, step, at))
  {
    var run, result := sys.runs[step.r], ResultOf(sys.runs[step.r].phase).value;
    FinishingIs(sys, step, at);
    assert RunFit(sys.db, run, sys.clock);
    CompleteFits(sys.db, sys.runs, step.r, sys.clock, at, result, NextRun(sys.db, run, step));
    CompleteSettles(sys.db, run, sys.clock, result, at);
    CompleteAscends(sys.db, run, result, at);
  }

  lemma RecallingRun(sys: System, r: nat)
    requires Answerable(sys)
    ensures r < |sys.runs| ==> Recalls(sys.db, sys.runs[r])
  {
    assert r < |sys.runs| ==> Proper(sys.db, sys.runs[r]);
  }

  lemma FitStep(sys: System, step: Step, at: Time)
    requires Governed(sys) && InTime(sys, step, at)
    ensures RunsFit(NextDb(sys, step, at), NextRuns(sys, step, at), at)
    ensures Ascending(NextDb(sys, step, at)) && Settled(NextDb(sys, step, at))
  {
    if Runless(step) { RunlessStep(sys, step, at); }
    else if step.ClaimWork? { ClaimingStep(sys, step, at); }
    else if step.See? || step.Check? || step.Call? { RecallingRun(sys, Actor(step).value); ReadingStep(sys, step, at); }
    else if step.r >= |sys.runs| || !Acts(sys.runs[step.r], step) { IdleStep(sys, step, at); }
    else if step.Withdraw? { WithdrawingStep(sys, step, at); }
    else if step.Start? { StartingStep(sys, step, at); }
    else { FinishingStep(sys, step, at); }
  }

  lemma StaysGoverned(sys: System, step: Step, at: Time)
    requires Governed(sys) && InTime(sys, step, at)
    ensures Governed(Next(sys, step, at))
  {
    StaysAnswerable(sys, step, at);
    StaysPrompt(sys, step, at);
    NoManualStep(sys, step, at);
    StaysCounted(sys, step, at);
    FitStep(sys, step, at);
  }

  lemma StartsGoverned(deadline: Time, clock: Time)
    ensures Governed(Initial(deadline, clock))
  {
    StartsAnswerable(deadline, clock);
    StartsPrompt(deadline, clock);
    var sys := Initial(deadline, clock);
    assert Counted(sys.db.schedules, sys.runs);
    NoSchedulesFit(sys.db, clock);
  }

  /** Every step of the trace is taken in time, in the state in which it is taken. */
  predicate Orderly(sys: System, trace: seq<Timed>) {
    trace == [] ||
    var n := |trace| - 1;
    Orderly(sys, trace[..n]) && InTime(Reach(sys, trace[..n]), trace[n].step, trace[n].at)
  }

  lemma {:induction false} GovernedForever(sys: System, trace: seq<Timed>)
    requires Governed(sys) && Orderly(sys, trace)
    ensures Governed(Reach(sys, trace))
  {
    if trace != [] {
      var n := |trace| - 1;
      GovernedForever(sys, trace[..n]);
      StaysGoverned(Reach(sys, trace[..n]), trace[n].step, trace[n].at);
    }
  }

  /** What happens in an orderly trace happened in an orderly trace up to then. */
  lemma {:induction false} OrderlyUpTo(sys: System, trace: seq<Timed>, n: nat)
    requires n <= |trace| && Orderly(sys, trace)
    ensures Orderly(sys, trace[..n])
    ensures n < |trace| ==> InTime(Reach(sys, trace[..n]), trace[n].step, trace[n].at)
  {
    if n < |trace| {
      var last := |trace| - 1;
      OrderlyUpTo(sys, trace[..last], n);
      assert trace[..last][..n] == trace[..n];
    } else {
      assert trace[..n] == trace;
    }
  }

  lemma NoSchedulesFit(db: CaseDb, clock: Time)
    requires db.schedules == []
    ensures RunsFit(db, [], clock) && Ascending(db) && Settled(db)
  {
  }
}
