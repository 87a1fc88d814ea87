/**
 * What the workflow does not promise. The repository's reliability notes say that retries are bounded and
 * that any later mutation supersedes stale work; these are the steps on which that does not hold, and what
 * becomes of a case whose only open schedule is suppressed.
 */
module Hazards {
  import opened Wrappers
  import opened Domain
  import opened CaseRows
  import opened CaseSteps
  import opened Transactions
  import opened Ledgers
  import opened Workflow
  import opened Freshness
  import Lifecycle
  import Payments
  import Attempts
  import Discipline

  // ----- completion is not fenced -----

  /** A run that outlived its lease can reopen any schedule, even one that is finished, by reporting a retryable failure. */
  lemma LateCompletionRevives(db: CaseDb, i: nat, claim: Schedule, result: ProviderResult, now: Time, owner: nat, later: Time)
    requires i < |db.schedules| && RetryWanted(claim, result) && later >= now + Backoff(claim.attempt)
    ensures var after := Apply(db, Complete(i, claim, result, now));
      && after.schedules[i].status.RetryPending? && after.state == db.state && after.events == db.events
      && ClaimDue(after, i, owner, later, LEASE).Commit?
  {
  }

  predicate Done(s: ScheduleStatus) {
    s.ObservationPending? || s.ObservationClaimed? || s.Observed? || s.FailedForGood?
  }

  /** A run's report that asks for a retry of schedule `i`. */
  predicate LateRetry(sys: System, step: Step, i: nat) {
    && step.Finish? && step.r < |sys.runs| && sys.runs[step.r].i == i
    && var result := ResultOf(sys.runs[step.r].phase);
    result.Some? && RetryWanted(sys.runs[step.r].claim, result.value)
  }

  /** Exactly such a report reopens a finished schedule. */
  lemma RevivedExactlyWhen(sys: System, step: Step, at: Time, i: nat)
    requires i < |sys.db.schedules| && Done(sys.db.schedules[i].status)
    ensures var after := NextDb(sys, step, at).schedules;
      i < |after| && (after[i].status.RetryPending? <==> LateRetry(sys, step, i))
  {
    var t := TxnOf(sys, step, at);
    if t.Some? {
      GoesOnward(sys.db, t.value);
      if t.value.Complete? {
        if t.value.i < |sys.db.schedules| {
          Attempts.CompletedSchedules(sys.db, t.value.i, t.value.claim, t.value.result, t.value.now);
        }
      } else if !t.value.Claim? {
        Attempts.QuietTxn(sys.db, t.value);
      }
    }
  }

  predicate DoneAt(schedules: seq<Schedule>, i: nat) {
    i < |schedules| && Done(schedules[i].status)
  }

  lemma ScheduleRowsKept(db: CaseDb, t: Txn)
    requires t.Save? || t.Decide?
    ensures db.schedules <= Apply(db, t).schedules
  {
  }

  lemma HandlingKeepsDone(db: CaseDb, t: Txn, i: nat)
    requires DoneAt(db.schedules, i) && (t.Claim? || t.Mark? || t.Suppress? || t.ClaimObservation?)
    ensures DoneAt(Apply(db, t).schedules, i)
  {
  }

  lemma ReassessingKeepsDone(db: CaseDb, t: Txn, i: nat)
    requires DoneAt(db.schedules, i) && t.Reassess?
    ensures DoneAt(Apply(db, t).schedules, i)
  {
  }

  lemma DoneStaysDone(db: CaseDb, t: Txn, i: nat)
    requires DoneAt(db.schedules, i) && (t.Complete? ==> t.i != i)
    ensures DoneAt(Apply(db, t).schedules, i)
  {
    if t.Complete? {
      if t.i < |db.schedules| { Attempts.CompletedSchedules(db, t.i, t.claim, t.result, t.now); }
    } else if t.Save? || t.Decide? {
      ScheduleRowsKept(db, t);
    } else if t.Reassess? {
      ReassessingKeepsDone(db, t, i);
    } else if WritesSchedules(t) {
      HandlingKeepsDone(db, t, i);
    } else {
      Frame(db, t);
    }
  }

  /** While runs keep to their leases a finished schedule stays finished. */
  lemma NeverRevivedInTime(sys: System, step: Step, at: Time, i: nat)
    requires Discipline.Governed(sys) && Discipline.InTime(sys, step, at)
    requires i < |sys.db.schedules| && Done(sys.db.schedules[i].status)
    ensures var after := NextDb(sys, step, at).schedules; i < |after| && Done(after[i].status)
  {
    var t := TxnOf(sys, step, at);
    CompletesWhatRuns(sys, step, at);
    if t.Some? {
      DoneStaysDone(sys.db, t.value, i);
    }
  }

  lemma StillFinished(sys: System, step: Step, at: Time, i: nat)
    requires Discipline.Governed(sys) && Discipline.InTime(sys, step, at) && DoneAt(sys.db.schedules, i)
    ensures DoneAt(Next(sys, step, at).db.schedules, i)
  {
    NeverRevivedInTime(sys, step, at, i);
  }

  /** Over an orderly trace, a schedule that is finished at any moment is finished ever after. */
  lemma {:induction false} FinishedStaysFinished(sys: System, trace: seq<Timed>, k: nat, i: nat)
    requires Discipline.Governed(sys) && Discipline.Orderly(sys, trace) && k <= |trace|
    requires DoneAt(Reach(sys, trace[..k]).db.schedules, i)
    ensures DoneAt(Reach(sys, trace).db.schedules, i)
  {
    if k < |trace| {
      var n := |trace| - 1;
      assert trace[..n][..k] == trace[..k];
      FinishedStaysFinished(sys, trace[..n], k, i);
      Discipline.GovernedForever(sys, trace[..n]);
      StillFinished(Reach(sys, trace[..n]), trace[n].step, trace[n].at, i);
    } else {
      assert trace[..k] == trace;
    }
  }

  /** In particular a case that starts empty never has a finished schedule reopened. */
  lemma NeverRevived(deadline: Time, clock: Time, trace: seq<Timed>, k: nat, i: nat)
    requires Discipline.Orderly(Initial(deadline, clock), trace) && k <= |trace|
    requires DoneAt(Reach(Initial(deadline, clock), trace[..k]).db.schedules, i)
    ensures DoneAt(Reach(Initial(deadline, clock), trace).db.schedules, i)
  {
    Discipline.StartsGoverned(deadline, clock);
    FinishedStaysFinished(Initial(deadline, clock), trace, k, i);
  }

  /** In time, a run completes only a schedule that is running. */
  lemma CompletesWhatRuns(sys: System, step: Step, at: Time)
    requires Discipline.RunsFit(sys.db, sys.runs, sys.clock) && Discipline.InTime(sys, step, at)
    ensures var t := TxnOf(sys, step, at);
      t.Some? && t.value.Complete? ==> t.value.i < |sys.db.schedules| && sys.db.schedules[t.value.i].status.Running?
  {
    if step.Finish? && step.r < |sys.runs| {
      assert Discipline.RunFit(sys.db, sys.runs[step.r], sys.clock);
    }
  }

  // ----- marking does not look at the version -----

  /** A claimed schedule that is stale takes a SCHEDULED case over from the fresh one, which becomes stale. */
  lemma StaleMarkTakesOver(db: CaseDb, i: nat, j: nat, now: Time)
    requires Stamped(db.schedules, db.version) && i < |db.schedules| && db.schedules[i].status.Claimed?
    requires db.state.Scheduled? && Fresh(db, j) && i != j
    ensures !Fresh(db, i) && Fresh(Apply(db, Mark(i, now)), i) && !Fresh(Apply(db, Mark(i, now)), j)
    ensures Apply(db, Mark(i, now)).state.Executing?
  {
  }

  /** A cleared run whose schedule is claimed and is not the fresh one. */
  predicate StaleStart(sys: System, step: Step, j: nat) {
    && step.Start? && step.r < |sys.runs| && Discipline.Acts(sys.runs[step.r], step) && sys.runs[step.r].i != j
    && sys.runs[step.r].i < |sys.db.schedules| && sys.db.schedules[sys.runs[step.r].i].status.Claimed?
  }

  /** Exactly the start of such a run takes a SCHEDULED case over from its fresh schedule. */
  lemma TakenOverExactlyWhen(sys: System, step: Step, at: Time, j: nat)
    requires Stamped(sys.db.schedules, sys.db.version) && sys.db.state.Scheduled? && Fresh(sys.db, j) && step.Start?
    ensures Fresh(NextDb(sys, step, at), j) <==> !StaleStart(sys, step, j)
  {
  }

  /** While runs keep to their leases that does not happen. */
  lemma NeverTakenOverInTime(sys: System, step: Step, at: Time, j: nat)
    requires Discipline.Governed(sys) && Discipline.InTime(sys, step, at) && sys.db.state.Scheduled? && Fresh(sys.db, j)
    ensures !StaleStart(sys, step, j)
  {
    Discipline.FreshIsNewest(sys.db, j);
    if step.Start? && step.r < |sys.runs| {
      assert Discipline.RunFit(sys.db, sys.runs[step.r], sys.clock);
    }
  }

  lemma StartsInTime(sys: System, step: Step, at: Time, j: nat)
    requires Discipline.Governed(sys) && Discipline.InTime(sys, step, at) && sys.db.state.Scheduled? && Fresh(sys.db, j) && step.Start?
    ensures Fresh(Next(sys, step, at).db, j)
  {
    NeverTakenOverInTime(sys, step, at, j);
    TakenOverExactlyWhen(sys, step, at, j);
  }

  lemma ReachOneMore(sys: System, trace: seq<Timed>, k: nat)
    requires k < |trace|
    ensures Reach(sys, trace[..k + 1]) == Next(Reach(sys, trace[..k]), trace[k].step, trace[k].at)
  {
    assert trace[..k + 1][..k] == trace[..k];
  }

  /** Over an orderly trace no start takes a SCHEDULED case over from its fresh schedule. */
  lemma FreshKeepsTheCase(sys: System, trace: seq<Timed>, k: nat, j: nat)
    requires Discipline.Governed(sys) && Discipline.Orderly(sys, trace) && k < |trace| && trace[k].step.Start?
    requires var before := Reach(sys, trace[..k]).db; before.state.Scheduled? && Fresh(before, j)
    ensures Fresh(Reach(sys, trace[..k + 1]).db, j)
  {
    Discipline.OrderlyUpTo(sys, trace, k);
    Discipline.GovernedForever(sys, trace[..k]);
    StartsInTime(Reach(sys, trace[..k]), trace[k].step, trace[k].at, j);
    ReachOneMore(sys, trace, k);
  }

  /** In particular a case that starts empty is never taken over. */
  lemma NeverTakenOver(deadline: Time, clock: Time, trace: seq<Timed>, k: nat, j: nat)
    requires Discipline.Orderly(Initial(deadline, clock), trace) && k < |trace| && trace[k].step.Start?
    requires var before := Reach(Initial(deadline, clock), trace[..k]).db; before.state.Scheduled? && Fresh(before, j)
    ensures Fresh(Reach(Initial(deadline, clock), trace[..k + 1]).db, j)
  {
    Discipline.StartsGoverned(deadline, clock);
    FreshKeepsTheCase(Initial(deadline, clock), trace, k, j);
  }

  // ----- suppression strands a case -----

  predicate Closed(s: ScheduleStatus) {
    s.Superseded? || s.FailedForGood? || s.Observed? || s.ObservationPending? || s.ObservationClaimed?
  }

  predicate AllClosed(schedules: seq<Schedule>) {
    forall i :: 0 <= i < |schedules| ==> Closed(schedules[i].status)
  }

  predicate Busy(state: CaseState) {
    state.Scheduled? || state.Executing?
  }

  /** A busy case with no open schedule, no run in the middle of executing one, and no evaluation under way but approvals. */
  predicate Stranded(sys: System) {
    && Busy(sys.db.state) && AllClosed(sys.db.schedules)
    && (forall r :: 0 <= r < |sys.runs| ==> !sys.runs[r].phase.Started? && !sys.runs[r].phase.Answered?)
    && (forall f :: 0 <= f < |sys.flights| ==> sys.flights[f].purpose.Approving? || sys.flights[f].stage.Landed?)
  }

  /** Transactions that can still happen to a stranded case. */
  predicate Harmless(t: Txn) {
    && !t.Complete? && !t.Save? && !t.Transition?
  }

  lemma HarmlessKeeps(db: CaseDb, t: Txn)
    requires Busy(db.state) && AllClosed(db.schedules) && Harmless(t)
    ensures AllClosed(Apply(db, t).schedules)
    ensures Apply(db, t).state == db.state || (t.Attribute? && Apply(db, t).state.Recovered?)
  {
    Frame(db, t);
  }

  /** No step of the trace starts a manual transition. */
  predicate Unattended(trace: seq<Timed>) {
    forall k :: 0 <= k < |trace| ==> !(trace[k].step.Begin? && trace[k].step.purpose.Moving?)
  }

  lemma StrandedStep(sys: System, step: Step, at: Time)
    requires Stranded(sys) && !(step.Begin? && step.purpose.Moving?)
    ensures Stranded(Next(sys, step, at)) || Next(sys, step, at).db.state.Recovered?
    ensures Next(sys, step, at).db.state == sys.db.state || Next(sys, step, at).db.state.Recovered?
  {
    var t := TxnOf(sys, step, at);
    if t.Some? {
      assert Harmless(t.value);
      HarmlessKeeps(sys.db, t.value);
    }
    StrandedRuns(sys, step, at);
    StrandedFlights(sys, step, at);
  }

  lemma StrandedRuns(sys: System, step: Step, at: Time)
    requires Stranded(sys)
    ensures forall r :: 0 <= r < |NextRuns(sys, step, at)| ==> !NextRuns(sys, step, at)[r].phase.Started? && !NextRuns(sys, step, at)[r].phase.Answered?
  {
  }

  lemma StrandedFlights(sys: System, step: Step, at: Time)
    requires Stranded(sys) && !(step.Begin? && step.purpose.Moving?)
    ensures forall f :: 0 <= f < |NextFlights(sys, step, at)| ==> NextFlights(sys, step, at)[f].purpose.Approving? || NextFlights(sys, step, at)[f].stage.Landed?
  {
  }

  /** Nothing but a payment ever moves a stranded case again, however many workers, operators and customers try. */
  lemma {:induction false} StrandedForever(sys: System, trace: seq<Timed>)
    requires Stranded(sys) && Lifecycle.Lawful(sys) && Unattended(trace)
    ensures Reach(sys, trace).db.state == sys.db.state || Reach(sys, trace).db.state.Recovered?
    ensures Reach(sys, trace).db.state == sys.db.state ==> Stranded(Reach(sys, trace))
  {
    if trace != [] {
      var n := |trace| - 1;
      var before := Reach(sys, trace[..n]);
      StrandedForever(sys, trace[..n]);
      if before.db.state.Recovered? {
        Lifecycle.LawfulForever(sys, trace[..n]);
        Lifecycle.TerminalForever(before, [trace[n]]);
        assert Reach(before, [trace[n]]) == Next(Reach(before, [trace[n]][..0]), trace[n].step, trace[n].at);
      } else {
        StrandedStep(before, trace[n].step, trace[n].at);
      }
    }
  }

  /** A payment that is recorded. */
  predicate Pays(db: CaseDb, step: Step) {
    && step.Outside? && step.txn.Attribute?
    && Payments.Recordable(db, step.txn.reference, step.txn.amount, step.txn.now, step.txn.correlation)
  }

  /** Exactly a recorded payment moves a stranded case. */
  lemma StrandedMovesExactlyWhen(sys: System, step: Step, at: Time)
    requires Stranded(sys) && Accounted(sys.db) && !(step.Begin? && step.purpose.Moving?)
    ensures NextDb(sys, step, at).state != sys.db.state <==> Pays(sys.db, step)
  {
    StrandedStep(sys, step, at);
    var t := TxnOf(sys, step, at);
    if t.Some? {
      OnlyPaymentsMove(sys.db, t.value);
      OnlyOutsidersPay(sys, step, at);
      if t.value.Attribute? {
        Payments.RecordedExactlyWhen(sys.db, t.value.reference, t.value.amount, t.value.now, t.value.correlation);
      }
    }
  }

  lemma OnlyPaymentsMove(db: CaseDb, t: Txn)
    requires Busy(db.state) && AllClosed(db.schedules) && Harmless(t)
    ensures !t.Attribute? ==> Apply(db, t).state == db.state
  {
    HarmlessKeeps(db, t);
  }

  lemma OnlyOutsidersPay(sys: System, step: Step, at: Time)
    ensures var t := TxnOf(sys, step, at); t.Some? && t.value.Attribute? ==> step.Outside? && step.txn == t.value
  {
  }

  /** What a suppression needs to be the one that strands the case: the case is busy, and nothing else is open or under way. */
  predicate LastHope(sys: System, r: nat)
    requires r < |sys.runs|
  {
    var i := sys.runs[r].i;
    && Busy(sys.db.state) && i < |sys.db.schedules| && !sys.db.schedules[i].status.Running?
    && (forall k :: 0 <= k < |sys.db.schedules| && k != i ==> Closed(sys.db.schedules[k].status))
    && (forall q :: 0 <= q < |sys.runs| ==> !sys.runs[q].phase.Started? && !sys.runs[q].phase.Answered?)
    && (forall f :: 0 <= f < |sys.flights| ==> sys.flights[f].purpose.Approving? || sys.flights[f].stage.Landed?)
  }

  lemma SuppressedSchedules(db: CaseDb, i: nat, now: Time)
    requires i < |db.schedules|
    ensures var after := Apply(db, Suppress(i, now));
      && after.state == db.state && |after.schedules| == |db.schedules|
      && (Closed(after.schedules[i].status) <==> !db.schedules[i].status.Running?)
      && forall k :: 0 <= k < |db.schedules| && k != i ==> after.schedules[k] == db.schedules[k]
  {
  }

  /** The suppression that a failed policy recheck ends in strands the case exactly when nothing else could have moved it. */
  lemma SuppressionStrands(sys: System, r: nat, at: Time)
    requires r < |sys.runs| && sys.runs[r].phase.Refused? && sys.runs[r].i < |sys.db.schedules|
    ensures Stranded(Next(sys, Withdraw(r), at)) <==> LastHope(sys, r)
    ensures Next(sys, Withdraw(r), at).db.version == sys.db.version
  {
    var next, i := Next(sys, Withdraw(r), at), sys.runs[r].i;
    SuppressedSchedules(sys.db, i, sys.runs[r].now);
    assert next.runs == sys.runs[r := sys.runs[r].(phase := Over)] && next.flights == sys.flights;
    if Stranded(next) {
      assert Closed(next.db.schedules[i].status);
      forall k | 0 <= k < |sys.db.schedules| && k != i ensures Closed(sys.db.schedules[k].status) {
        assert Closed(next.db.schedules[k].status);
      }
      forall q | 0 <= q < |sys.runs| ensures !sys.runs[q].phase.Started? && !sys.runs[q].phase.Answered? {
        assert q != r ==> next.runs[q] == sys.runs[q];
      }
    }
  }

  lemma SuppressedState(sys: System, r: nat, at: Time)
    requires r < |sys.runs| && sys.runs[r].phase.Refused?
    ensures Next(sys, Withdraw(r), at).db.state == sys.db.state && Next(sys, Withdraw(r), at).db.version == sys.db.version
  {
  }
}
