/** How often a schedule is claimed, marked, executed and sent back for a retry, counted over all runs there ever were. */
module Attempts {
  import opened Wrappers
  import opened Domain
  import opened CaseRows
  import opened CaseSteps
  import opened Transactions
  import opened Ledgers
  import opened Workflow

  datatype Feat = Claiming | FirstClaiming | RetryClaiming | Reclaiming | Marking | Calling | Retrying

  predicate Did(run: Run, f: Feat) {
    match f
    case Claiming => true
    case FirstClaiming => run.kind.FirstClaim?
    case RetryClaiming => run.kind.RetryClaim?
    case Reclaiming => run.kind.Reclaim?
    case Marking => run.marked
    case Calling => run.called
    case Retrying => run.retried
  }

  function One(run: Run, i: nat, f: Feat): nat {
    if run.i == i && Did(run, f) then 1 else 0
  }

  /** The number of runs on schedule `i` that did `f`. */
  function Count(runs: seq<Run>, i: nat, f: Feat): nat {
    if runs == [] then 0 else Count(runs[..|runs| - 1], i, f) + One(runs[|runs| - 1], i, f)
  }

  lemma CountAppend(runs: seq<Run>, run: Run, i: nat, f: Feat)
    ensures Count(runs + [run], i, f) == Count(runs, i, f) + One(run, i, f)
  {
    assert (runs + [run])[..|runs|] == runs;
  }

  lemma {:induction false} CountUpdate(runs: seq<Run>, r: nat, run: Run, i: nat, f: Feat)
    requires r < |runs|
    ensures Count(runs[r := run], i, f) == Count(runs, i, f) - One(runs[r], i, f) + One(run, i, f)
  {
    var n := |runs| - 1;
    if r == n {
      assert runs[r := run][..n] == runs[..n];
    } else {
      CountUpdate(runs[..n], r, run, i, f);
      assert runs[r := run][..n] == runs[..n][r := run];
    }
  }

  lemma {:induction false} CountKinds(runs: seq<Run>, i: nat)
    ensures Count(runs, i, Claiming) == Count(runs, i, FirstClaiming) + Count(runs, i, RetryClaiming) + Count(runs, i, Reclaiming)
  {
    if runs != [] {
      CountKinds(runs[..|runs| - 1], i);
    }
  }

  /** Every run that does `f` also does `g`. */
  lemma {:induction false} CountAtMost(runs: seq<Run>, i: nat, f: Feat, g: Feat)
    requires forall r :: 0 <= r < |runs| && Did(runs[r], f) ==> Did(runs[r], g)
    ensures Count(runs, i, f) <= Count(runs, i, g)
  {
    if runs != [] {
      CountAtMost(runs[..|runs| - 1], i, f, g);
    }
  }

  // ----- no two runs share an attempt -----

  predicate OwnAttempts(runs: seq<Run>) {
    forall r, s :: 0 <= r < s < |runs| && runs[r].i == runs[s].i ==> runs[r].claim.attempt != runs[s].claim.attempt
  }

  /** The attempts of the runs on schedule `i` that asked for a retry. */
  function RetryAttempts(runs: seq<Run>, i: nat): set<nat> {
    if runs == [] then {}
    else
      var last := runs[|runs| - 1];
      RetryAttempts(runs[..|runs| - 1], i) + if last.i == i && last.retried then {last.claim.attempt} else {}
  }

  lemma {:induction false} RetryAttemptHasRun(runs: seq<Run>, i: nat, attempt: nat)
    requires attempt in RetryAttempts(runs, i)
    ensures exists r :: 0 <= r < |runs| && runs[r].i == i && runs[r].retried && runs[r].claim.attempt == attempt
  {
    var n := |runs| - 1;
    if attempt in RetryAttempts(runs[..n], i) {
      RetryAttemptHasRun(runs[..n], i, attempt);
      var r :| 0 <= r < n && runs[..n][r].i == i && runs[..n][r].retried && runs[..n][r].claim.attempt == attempt;
      assert runs[r] == runs[..n][r];
    }
  }

  lemma {:induction false} RetriesAreAttempts(runs: seq<Run>, i: nat)
    requires OwnAttempts(runs)
    ensures Count(runs, i, Retrying) == |RetryAttempts(runs, i)|
  {
    if runs != [] {
      var n := |runs| - 1;
      RetriesAreAttempts(runs[..n], i);
      if runs[n].i == i && runs[n].retried && runs[n].claim.attempt in RetryAttempts(runs[..n], i) {
        RetryAttemptHasRun(runs[..n], i, runs[n].claim.attempt);
      }
    }
  }

  /** Asking for a retry takes an attempt below the maximum. */
  lemma RetriesAreFew(runs: seq<Run>, i: nat)
    requires OwnAttempts(runs)
    requires forall r :: 0 <= r < |runs| && runs[r].i == i && runs[r].retried ==> 1 <= runs[r].claim.attempt < MAX_ATTEMPTS
    ensures Count(runs, i, Retrying) <= MAX_ATTEMPTS - 1
  {
    RetriesAreAttempts(runs, i);
    forall attempt | attempt in RetryAttempts(runs, i) ensures 1 <= attempt < MAX_ATTEMPTS {
      RetryAttemptHasRun(runs, i, attempt);
    }
    RangeSize(RetryAttempts(runs, i), MAX_ATTEMPTS);
  }

  lemma {:induction false} RangeSize(s: set<nat>, max: nat)
    requires forall x :: x in s ==> 1 <= x < max
    ensures |s| <= if max == 0 then 0 else max - 1
  {
    if max <= 1 {
      assert s == {};
    } else {
      RangeSize(s - {max - 1}, max - 1);
    }
  }

  // ----- the invariant -----

  /** Runs work on existing schedules, under attempt numbers that are theirs alone. */
  predicate RunsAttempt(schedules: seq<Schedule>, runs: seq<Run>) {
    && OwnAttempts(runs)
    && forall r :: 0 <= r < |runs| ==>
      && runs[r].i < |schedules|
      && 1 <= runs[r].claim.attempt <= schedules[runs[r].i].attempt
      && runs[r].claim.maxAttempts == schedules[runs[r].i].maxAttempts
  }

  /** What a run has done, it has done once, in the phase it is in. */
  predicate RunsInPhase(runs: seq<Run>) {
    forall r :: 0 <= r < |runs| ==>
      && (runs[r].marked ==> runs[r].phase.Started? || runs[r].phase.Answered? || runs[r].phase.Over?)
      && (runs[r].called ==> runs[r].phase.Answered? || runs[r].phase.Over?)
      && (runs[r].retried ==> runs[r].phase.Over?)
      && (runs[r].phase.Started? || runs[r].phase.Answered? || runs[r].called || runs[r].retried ==> runs[r].marked)
      && (runs[r].retried ==> runs[r].claim.attempt < runs[r].claim.maxAttempts)
  }

  function RetryDue(s: Schedule): nat {
    if s.status.RetryPending? then 1 else 0
  }

  /** A schedule that has never been claimed is pending, or superseded without having been claimed. */
  predicate Unclaimed(s: ScheduleStatus) {
    s.Pending? || s.Superseded?
  }

  predicate ScheduleCounted(runs: seq<Run>, s: Schedule, i: nat) {
    && s.maxAttempts == MAX_ATTEMPTS
    && s.attempt == Count(runs, i, Claiming)
    && Count(runs, i, FirstClaiming) <= 1
    && (s.status.Pending? ==> Count(runs, i, Claiming) == 0)
    && (Count(runs, i, FirstClaiming) == 0 ==> Unclaimed(s.status) && Count(runs, i, Claiming) == 0)
    && Count(runs, i, RetryClaiming) + RetryDue(s) <= Count(runs, i, Retrying)
  }

  predicate Counted(schedules: seq<Schedule>, runs: seq<Run>) {
    && RunsAttempt(schedules, runs) && RunsInPhase(runs)
    && (forall i :: 0 <= i < |schedules| ==> ScheduleCounted(runs, schedules[i], i))
  }

  // ----- steps keep it -----

  /** A transaction other than a claim or a completion starts no retry and counts no attempt. */
  predicate Quiet(a: seq<Schedule>, b: seq<Schedule>) {
    && |a| <= |b|
    && (forall i :: 0 <= i < |a| ==> b[i].attempt == a[i].attempt && b[i].maxAttempts == a[i].maxAttempts
                                     && (b[i].status.Pending? ==> a[i].status.Pending?)
                                     && (Unclaimed(a[i].status) ==> Unclaimed(b[i].status)) && (b[i].status.RetryPending? ==> a[i].status.RetryPending?))
    && forall i :: |a| <= i < |b| ==> b[i].attempt == 0 && b[i].maxAttempts == MAX_ATTEMPTS && b[i].status.Pending?
  }

  lemma SavingIsQuiet(db: CaseDb, t: Txn)
    requires t.Save?
    ensures Quiet(db.schedules, Apply(db, t).schedules)
  {
  }

  lemma ReviewingIsQuiet(db: CaseDb, t: Txn)
    requires t.Decide?
    ensures Quiet(db.schedules, Apply(db, t).schedules)
  {
  }

  lemma HandlingIsQuiet(db: CaseDb, t: Txn)
    requires t.Mark? || t.Suppress? || t.ClaimObservation?
    ensures Quiet(db.schedules, Apply(db, t).schedules)
  {
  }

  lemma ReassessingIsQuiet(db: CaseDb, t: Txn)
    requires t.Reassess?
    ensures Quiet(db.schedules, Apply(db, t).schedules)
  {
  }

  lemma QuietTxn(db: CaseDb, t: Txn)
    requires !t.Claim? && !t.Complete?
    ensures Quiet(db.schedules, Apply(db, t).schedules)
  {
    if t.Save? { SavingIsQuiet(db, t); }
    else if t.Decide? { ReviewingIsQuiet(db, t); }
    else if t.Reassess? { ReassessingIsQuiet(db, t); }
    else if WritesSchedules(t) { HandlingIsQuiet(db, t); }
    else { Frame(db, t); }
  }

  lemma {:induction false} NoRunsYet(runs: seq<Run>, i: nat, f: Feat)
    requires forall r :: 0 <= r < |runs| ==> runs[r].i < i
    ensures Count(runs, i, f) == 0
  {
    if runs != [] {
      NoRunsYet(runs[..|runs| - 1], i, f);
    }
  }

  lemma QuietKeeps(before: seq<Schedule>, after: seq<Schedule>, runs: seq<Run>)
    requires Counted(before, runs) && Quiet(before, after)
    ensures Counted(after, runs)
  {
    forall i | |before| <= i < |after| ensures ScheduleCounted(runs, after[i], i) {
      NoRunsYet(runs, i, Claiming);
      NoRunsYet(runs, i, FirstClaiming);
      NoRunsYet(runs, i, RetryClaiming);
      NoRunsYet(runs, i, Retrying);
    }
  }

  lemma CountsUpdate(runs: seq<Run>, r: nat, run: Run, i: nat)
    requires r < |runs| && run.i == runs[r].i && run.kind == runs[r].kind
    ensures Count(runs[r := run], i, Claiming) == Count(runs, i, Claiming)
    ensures Count(runs[r := run], i, FirstClaiming) == Count(runs, i, FirstClaiming)
    ensures Count(runs[r := run], i, RetryClaiming) == Count(runs, i, RetryClaiming)
    ensures Count(runs[r := run], i, Retrying) == Count(runs, i, Retrying) - One(runs[r], i, Retrying) + One(run, i, Retrying)
  {
    CountUpdate(runs, r, run, i, Claiming);
    CountUpdate(runs, r, run, i, FirstClaiming);
    CountUpdate(runs, r, run, i, RetryClaiming);
    CountUpdate(runs, r, run, i, Retrying);
  }

  /** A run that moves on without asking for a retry. */
  lemma ProgressKeeps(schedules: seq<Schedule>, runs: seq<Run>, r: nat, run: Run)
    requires Counted(schedules, runs) && r < |runs| && RunsInPhase(runs[r := run])
    requires run.i == runs[r].i && run.claim == runs[r].claim && run.kind == runs[r].kind && run.retried == runs[r].retried
    ensures Counted(schedules, runs[r := run])
  {
    forall i | 0 <= i < |schedules| ensures ScheduleCounted(runs[r := run], schedules[i], i) {
      CountsUpdate(runs, r, run, i);
    }
  }

  /** The last step of a run: it may ask for a retry, and then the schedule may be waiting for one. */
  lemma CompletionKeeps(schedules: seq<Schedule>, runs: seq<Run>, r: nat, s: Schedule, retried: bool)
    requires Counted(schedules, runs) && r < |runs| && ResultOf(runs[r].phase).Some?
    requires retried ==> runs[r].claim.attempt < runs[r].claim.maxAttempts
    requires var was := schedules[runs[r].i];
      s.attempt == was.attempt && s.maxAttempts == was.maxAttempts && !s.status.Pending? && (s.status.RetryPending? ==> retried)
    ensures Counted(schedules[runs[r].i := s], runs[r := runs[r].(phase := Over, retried := retried)])
  {
    var i, run := runs[r].i, runs[r].(phase := Over, retried := retried);
    var after, longer := schedules[i := s], runs[r := run];
    OverInPhase(schedules, runs, r, retried);
    forall k | 0 <= k < |after| ensures ScheduleCounted(longer, after[k], k) {
      CountsUpdate(runs, r, run, k);
      assert ScheduleCounted(runs, schedules[k], k);
    }
  }

  lemma OverInPhase(schedules: seq<Schedule>, runs: seq<Run>, r: nat, retried: bool)
    requires Counted(schedules, runs) && r < |runs| && ResultOf(runs[r].phase).Some?
    requires retried ==> runs[r].claim.attempt < runs[r].claim.maxAttempts
    ensures RunsInPhase(runs[r := runs[r].(phase := Over, retried := retried)])
  {
  }

  /** A claim: one attempt more, for a run of its own. */
  lemma ClaimKeeps(schedules: seq<Schedule>, runs: seq<Run>, i: nat, owner: nat, now: Time, run: Run)
    requires Counted(schedules, runs) && i < |schedules| && Claimable(schedules[i], now)
    requires run.i == i && run.claim == CaseSteps.Claimed(schedules[i], owner, now, LEASE) && run.kind == KindOfClaim(schedules[i])
    requires run.phase.JustClaimed? && !run.marked && !run.called && !run.retried
    ensures Counted(schedules[i := run.claim], runs + [run])
  {
    var after, longer := schedules[i := run.claim], runs + [run];
    forall k | 0 <= k < |after| ensures ScheduleCounted(longer, after[k], k) {
      CountAppend(runs, run, k, Claiming);
      CountAppend(runs, run, k, FirstClaiming);
      CountAppend(runs, run, k, RetryClaiming);
      CountAppend(runs, run, k, Retrying);
      CountKinds(runs, k);
      assert ScheduleCounted(runs, schedules[k], k);
    }
  }

  // ----- every reachable state -----

  lemma ClaimStep(sys: System, step: Step, at: Time)
    requires Counted(sys.db.schedules, sys.runs) && step.ClaimWork?
    ensures Counted(Next(sys, step, at).db.schedules, Next(sys, step, at).runs)
  {
    ClaimRows(sys, step, at);
    if step.i < |sys.db.schedules| && Claimable(sys.db.schedules[step.i], at) {
      ClaimKeeps(sys.db.schedules, sys.runs, step.i, step.owner, at, NewRun(sys.db, step.i, step.owner, at));
    }
  }

  lemma ClaimRows(sys: System, step: Step, at: Time)
    requires step.ClaimWork?
    ensures var next := Next(sys, step, at);
      if step.i < |sys.db.schedules| && Claimable(sys.db.schedules[step.i], at) then
        var run := NewRun(sys.db, step.i, step.owner, at);
        && next.db.schedules == sys.db.schedules[step.i := run.claim] && next.runs == sys.runs + [run] && run.i == step.i
        && run.claim == CaseSteps.Claimed(sys.db.schedules[step.i], step.owner, at, LEASE) && run.kind == KindOfClaim(sys.db.schedules[step.i])
        && run.phase.JustClaimed? && !run.marked && !run.called && !run.retried
      else next.db.schedules == sys.db.schedules && next.runs == sys.runs
  {
  }

  /** The row of a schedule after a run on it completes. */
  function Completed(s: Schedule, claim: Schedule, result: ProviderResult, now: Time): (c: Schedule)
    ensures c.attempt == s.attempt && c.maxAttempts == s.maxAttempts && !c.status.Pending?
    ensures c.status.RetryPending? <==> RetryWanted(claim, result)
  {
    if RetryWanted(claim, result) then Retried(s, claim, now) else Finished(s, Normalised(result.status).Failed?, now)
  }

  lemma CompletedSchedules(db: CaseDb, i: nat, claim: Schedule, result: ProviderResult, now: Time)
    requires i < |db.schedules|
    ensures Apply(db, Complete(i, claim, result, now)).schedules == db.schedules[i := Completed(db.schedules[i], claim, result, now)]
  {
  }

  lemma FinishStep(sys: System, step: Step, at: Time)
    requires Counted(sys.db.schedules, sys.runs) && step.Finish?
    ensures Counted(Next(sys, step, at).db.schedules, Next(sys, step, at).runs)
  {
    var r := step.r;
    if r < |sys.runs| && ResultOf(sys.runs[r].phase).Some? {
      var run, result := sys.runs[r], ResultOf(sys.runs[r].phase).value;
      var s := Completed(sys.db.schedules[run.i], run.claim, result, at);
      CompletedSchedules(sys.db, run.i, run.claim, result, at);
      assert NextDb(sys, step, at) == Apply(sys.db, Complete(run.i, run.claim, result, at));
      assert NextRuns(sys, step, at) == sys.runs[r := run.(phase := Over, retried := RetryWanted(run.claim, result))];
      CompletionKeeps(sys.db.schedules, sys.runs, r, s, RetryWanted(run.claim, result));
    } else {
      assert NextRuns(sys, step, at) == sys.runs;
    }
  }

  lemma OtherStep(sys: System, step: Step, at: Time)
    requires Counted(sys.db.schedules, sys.runs) && !step.ClaimWork? && !step.Finish?
    ensures Counted(Next(sys, step, at).db.schedules, Next(sys, step, at).runs)
  {
    var r := Actor(step);
    OtherTxn(sys, step, at);
    if r.Some? && r.value < |sys.runs| {
      RunProgress(sys.db, sys.runs, r.value, step);
      ProgressKeeps(NextDb(sys, step, at).schedules, sys.runs, r.value, NextRun(sys.db, sys.runs[r.value], step));
    }
  }

  lemma OtherTxn(sys: System, step: Step, at: Time)
    requires Counted(sys.db.schedules, sys.runs) && !step.ClaimWork? && !step.Finish?
    ensures Counted(NextDb(sys, step, at).schedules, sys.runs)
  {
    var t := TxnOf(sys, step, at);
    if t.Some? {
      QuietTxn(sys.db, t.value);
      QuietKeeps(sys.db.schedules, Apply(sys.db, t.value).schedules, sys.runs);
    }
  }

  lemma RunProgress(db: CaseDb, runs: seq<Run>, r: nat, step: Step)
    requires RunsInPhase(runs) && r < |runs| && !step.Finish?
    ensures var run := NextRun(db, runs[r], step);
      && run.i == runs[r].i && run.claim == runs[r].claim && run.kind == runs[r].kind && run.retried == runs[r].retried
      && RunsInPhase(runs[r := run])
  {
  }

  lemma StaysCounted(sys: System, step: Step, at: Time)
    requires Counted(sys.db.schedules, sys.runs)
    ensures Counted(Next(sys, step, at).db.schedules, Next(sys, step, at).runs)
  {
    if step.ClaimWork? { ClaimStep(sys, step, at); }
    else if step.Finish? { FinishStep(sys, step, at); }
    else { OtherStep(sys, step, at); }
  }

  lemma {:induction false} CountedForever(sys: System, trace: seq<Timed>)
    requires Counted(sys.db.schedules, sys.runs)
    ensures Counted(Reach(sys, trace).db.schedules, Reach(sys, trace).runs)
  {
    if trace != [] {
      var last, before := trace[|trace| - 1], Reach(sys, trace[..|trace| - 1]);
      CountedForever(sys, trace[..|trace| - 1]);
      StaysCounted(before, last.step, last.at);
    }
  }

  /** The bounds that hold of schedule `i`, for every interleaving and crash pattern. */
  predicate Bounded(schedules: seq<Schedule>, runs: seq<Run>, i: nat)
    requires i < |schedules|
  {
    var s := schedules[i];
    && s.attempt == Count(runs, i, Claiming)
    && s.attempt <= MAX_ATTEMPTS + Count(runs, i, Reclaiming)
    && Count(runs, i, Retrying) <= MAX_ATTEMPTS - 1
    && Count(runs, i, Calling) <= Count(runs, i, Marking) <= s.attempt
  }

  lemma CountedIsBounded(schedules: seq<Schedule>, runs: seq<Run>, i: nat)
    requires Counted(schedules, runs) && i < |schedules|
    ensures Bounded(schedules, runs, i)
  {
    assert ScheduleCounted(runs, schedules[i], i);
    CountKinds(runs, i);
    RetriesAreFew(runs, i);
    CountAtMost(runs, i, Calling, Marking);
    CountAtMost(runs, i, Marking, Claiming);
  }

  lemma NothingRuns(runs: seq<Run>)
    requires runs == []
    ensures RunsAttempt([], runs) && RunsInPhase(runs)
  {
    assert OwnAttempts(runs);
  }

  lemma NothingCounted(schedules: seq<Schedule>, runs: seq<Run>)
    requires schedules == [] && RunsAttempt(schedules, runs) && RunsInPhase(runs)
    ensures Counted(schedules, runs)
  {
  }

  /**
   * Every attempt belongs to one run; beyond the maximum there are only attempts that reclaim a lapsed
   * lease; fewer retries than the maximum are ever asked for; and the provider is called at most once for
   * each successful mark, at most once per attempt.
   */
  lemma AttemptsAreBounded(deadline: Time, clock: Time, trace: seq<Timed>, i: nat)
    requires i < |Reach(Initial(deadline, clock), trace).db.schedules|
    ensures Bounded(Reach(Initial(deadline, clock), trace).db.schedules, Reach(Initial(deadline, clock), trace).runs, i)
  {
    var start, end := Initial(deadline, clock), Reach(Initial(deadline, clock), trace);
    NothingRuns(start.runs);
    NothingCounted(start.db.schedules, start.runs);
    CountedForever(start, trace);
    CountedIsBounded(end.db.schedules, end.runs, i);
  }

  /** A claim takes the count beyond the maximum exactly when the count has reached it: that the row is claimable is all that is asked. */
  lemma ClaimIgnoresTheMaximum(db: CaseDb, i: nat, owner: nat, now: Time)
    requires i < |db.schedules| && Claimable(db.schedules[i], now)
    ensures ClaimDue(db, i, owner, now, LEASE).Commit?
    ensures ClaimDue(db, i, owner, now, LEASE).value.attempt > db.schedules[i].maxAttempts <==> db.schedules[i].attempt >= db.schedules[i].maxAttempts
  {
  }

  /**
   * In every reachable state the count is beyond the maximum exactly when a schedule has been claimed three
   * times after its first claim, and since only two of those can answer a request for a retry, only when a
   * lapsed lease has been claimed again.
   */
  lemma BeyondMaximumExactlyWhen(deadline: Time, clock: Time, trace: seq<Timed>, i: nat)
    requires i < |Reach(Initial(deadline, clock), trace).db.schedules|
    ensures var end := Reach(Initial(deadline, clock), trace);
      && (end.db.schedules[i].attempt > MAX_ATTEMPTS <==> Count(end.runs, i, RetryClaiming) + Count(end.runs, i, Reclaiming) >= MAX_ATTEMPTS)
      && Count(end.runs, i, RetryClaiming) <= MAX_ATTEMPTS - 1
      && (end.db.schedules[i].attempt > MAX_ATTEMPTS ==> Count(end.runs, i, Reclaiming) >= 1)
  {
    var start, end := Initial(deadline, clock), Reach(Initial(deadline, clock), trace);
    NothingRuns(start.runs);
    NothingCounted(start.db.schedules, start.runs);
    CountedForever(start, trace);
    CountedExactly(end.db.schedules, end.runs, i);
  }

  lemma CountedExactly(schedules: seq<Schedule>, runs: seq<Run>, i: nat)
    requires Counted(schedules, runs) && i < |schedules|
    ensures schedules[i].attempt > MAX_ATTEMPTS <==> Count(runs, i, RetryClaiming) + Count(runs, i, Reclaiming) >= MAX_ATTEMPTS
    ensures Count(runs, i, RetryClaiming) <= MAX_ATTEMPTS - 1
  {
    assert ScheduleCounted(runs, schedules[i], i);
    CountedIsBounded(schedules, runs, i);
    CountKinds(runs, i);
  }
}
