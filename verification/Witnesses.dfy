/**
 * What does happen: traces from a new case to the states that the documentation rules out, and what the
 * limits of `RateLimits` come to without the discipline they are proved under.
 */
module Witnesses {
  import opened Wrappers
  import opened Domain
  import opened CaseRows
  import opened CaseSteps
  import opened Transactions
  import opened Ledgers
  import opened Workflow
  import opened Freshness
  import opened Scripts
  import AttributionRules
  import opened Payments
  import Hazards
  import Policy
  import Sorting
  import Optimizer
  import Money
  import RateLimits

  const DEADLINE: Time := 1000 * DAY

  const START: System := Initial(DEADLINE, 1)

  // ----- the past -----

  lemma {:induction false} NothingPast(schedules: seq<Schedule>)
    requires forall i :: 0 <= i < |schedules| ==> schedules[i].actionStatus.StillPlanned?
    ensures Past(schedules) == [] && RecentHistory(schedules) == []
  {
    if schedules != [] {
      NothingPast(schedules[..|schedules| - 1]);
    }
  }

  /** Only the first action is done. */
  lemma {:induction false} FirstPast(schedules: seq<Schedule>)
    requires schedules != [] && !schedules[0].actionStatus.StillPlanned?
    requires forall i :: 1 <= i < |schedules| ==> schedules[i].actionStatus.StillPlanned?
    ensures Past(schedules) == [Policy.RecentAction(schedules[0].action, schedules[0].createdAt)]
  {
    if |schedules| > 1 {
      FirstPast(schedules[..|schedules| - 1]);
    } else {
      NothingPast(schedules[..0]);
    }
  }

  /** It was done at least an hour ago, and leaves room for another. */
  lemma {:induction false} OnePast(w: Rules, schedules: seq<Schedule>, now: Time)
    requires schedules != [] && !schedules[0].actionStatus.StillPlanned? && 0 < schedules[0].createdAt <= now - HOUR
    requires forall i :: 1 <= i < |schedules| ==> schedules[i].actionStatus.StillPlanned?
    requires w.facts.merchant.limits.maxRetries >= 2
    ensures RoomForRetry(w, RecentHistory(schedules), now) && |Past(schedules)| == 1
  {
    FirstPast(schedules);
    var done := Policy.RecentAction(schedules[0].action, schedules[0].createdAt);
    SortOne(done);
    assert RecentHistory(schedules) == [done];
    OneDoneLeavesRoom(w, done, now);
  }

  lemma SortOne(done: Policy.RecentAction)
    ensures Sorting.Sort(Newer, [done]) == [done]
  {
    assert [done][1..] == [];
  }

  lemma OneDoneLeavesRoom(w: Rules, done: Policy.RecentAction, now: Time)
    requires 0 < done.createdAt <= now - HOUR && w.facts.merchant.limits.maxRetries >= 2
    ensures RoomForRetry(w, [done], now)
  {
    assert [done][1..] == [];
  }

  // ----- attempts beyond the maximum -----

  lemma FirstDecision(w: Rules, at: Time) returns (b: System)
    requires w.facts == FACTS
    requires 1 <= at < DEADLINE
    ensures Leads(w, START, b) && b.clock == at && b.runs == [] && |b.flights| == 1 && b.flights[0].stage.Landed?
    ensures b.db.state.Scheduled? && b.db.deadline == DEADLINE && b.db.responses == {} && b.db.promises == [] && b.db.attributions == [] && b.db.executions == []
    ensures Retries(b.db, 0)
    ensures b.db.schedules == [NewSchedule(RetryNow, 0, 0, b.db.version, at)]
  {
    NothingPast(START.db.schedules);
    b := Decides(w, START, at, at);
  }

  /** Four claims, each when the lease of the one before has ended: an attempt count of four against a maximum of three. */
  lemma AttemptBeyondMaximum() returns (end: System)
    ensures Leads(FAIR, START, end)
    ensures |end.db.schedules| == 1 && end.db.schedules[0].attempt == 4 && end.db.schedules[0].maxAttempts == 3
  {
    var a := FirstDecision(FAIR, 1);
    var b := Claims(FAIR, a, 0, 1);
    var c := Claims(FAIR, b, 0, 1 + LEASE);
    var d := Claims(FAIR, c, 0, 1 + 2 * LEASE);
    end := Claims(FAIR, d, 0, 1 + 3 * LEASE);
    LeadsOn(FAIR, START, a, b);
    LeadsOn(FAIR, START, b, c);
    LeadsOn(FAIR, START, c, d);
    LeadsOn(FAIR, START, d, end);
  }

  // ----- a stranded case -----

  /** The deadline passes between the decision and its execution, and the policy recheck refuses the run. */
  lemma RunIsRefused() returns (end: System)
    ensures Leads(FAIR, START, end) && end.clock == DEADLINE && end.db.state.Scheduled?
    ensures |end.runs| == 1 && end.runs[0].phase.Refused? && end.runs[0].i == 0 && end.runs[0].now == DEADLINE
    ensures |end.db.schedules| == 1 && end.db.schedules[0].status.Claimed? && |end.flights| == 1 && end.flights[0].stage.Landed?
  {
    var a := FirstDecision(FAIR, DEADLINE - 1);
    var b := Claims(FAIR, a, 0, DEADLINE);
    end := Refuses(FAIR, b, 0, DEADLINE);
    LeadsOn(FAIR, START, a, b);
    LeadsOn(FAIR, START, b, end);
  }

  /** Its schedule is suppressed and the case is stranded, in the most disciplined of traces. */
  lemma CaseIsStranded() returns (end: System)
    ensures Leads(FAIR, START, end) && Hazards.Stranded(end) && end.db.state.Scheduled?
  {
    var c := RunIsRefused();
    end := LastIsSuppressed(c, DEADLINE);
    LeadsOn(FAIR, START, c, end);
  }

  lemma LastIsSuppressed(a: System, at: Time) returns (b: System)
    requires a.clock <= at && |a.runs| == 1 && a.runs[0].phase.Refused? && a.runs[0].i == 0 && at < a.runs[0].now + LEASE
    requires Hazards.Busy(a.db.state) && |a.db.schedules| == 1 && a.db.schedules[0].status.Claimed?
    requires |a.flights| == 1 && a.flights[0].stage.Landed?
    ensures Leads(FAIR, a, b) && Hazards.Stranded(b) && b.db.state == a.db.state
  {
    OneStep(FAIR, a, Withdraw(0), at);
    b := Next(a, Withdraw(0), at);
    LastSuppression(a, at);
  }

  lemma LastSuppression(a: System, at: Time)
    requires |a.runs| == 1 && a.runs[0].phase.Refused? && a.runs[0].i == 0
    requires Hazards.Busy(a.db.state) && |a.db.schedules| == 1 && a.db.schedules[0].status.Claimed?
    requires |a.flights| == 1 && a.flights[0].stage.Landed?
    ensures Hazards.Stranded(Next(a, Withdraw(0), at)) && Next(a, Withdraw(0), at).db.state == a.db.state
  {
    Hazards.SuppressionStrands(a, 0, at);
    Hazards.SuppressedState(a, 0, at);
  }

  // ----- a promise fulfilled with its check open -----

  lemma CheckLeftOpen() returns (end: System)
    ensures Leads(FAIR, START, end) && !ChecksClosed(end.db)
  {
    var promise, payment := Promised(5, None, Text("promise")), Attribute("payment", 1, 5, Text("payment"));
    var a := Happens(FAIR, START, promise, 1);
    PromiseIsMade(START.db);
    end := Happens(FAIR, a, payment, 5);
    LeadsOn(FAIR, START, a, end);
    PromiseIsPaid(a.db, payment);
  }

  lemma PromiseIsMade(db: CaseDb)
    requires db == NewCase(DEADLINE)
    ensures var after := Apply(db, Promised(5, None, Text("promise")));
      && after.promises == [Promise(Active, 5, None, CheckPending, None)] && after.state == db.state
      && after.promiseEvents == [PromiseEvent(0, None, Active, Text("promise"))] && after.attributions == [] && after.executions == []
  {
  }

  lemma PromiseIsPaid(db: CaseDb, t: Txn)
    requires db.promises == [Promise(Active, 5, None, CheckPending, None)] && !IsTerminal(db.state)
    requires db.promiseEvents == [PromiseEvent(0, None, Active, Text("promise"))]
    requires db.attributions == [] && db.executions == [] && t == Attribute("payment", 1, 5, Text("payment"))
    ensures !ChecksClosed(Apply(db, t))
  {
    var found := AttributionRules.Cascade(db, "payment", 5);
    assert AttributionRules.MatchesPromise(db.promises[0], 5);
    assert AttributionRules.FirstDue(db.promises, 5) == Some(0);
    assert AttributionRules.ByReference(db, "payment").None?;
    assert found == Some(AttributionRules.Finding(KeptPromise, None, Some(0)));
    assert Text("payment") != Text("promise");
    var after := Apply(db, t);
    assert after.promises[0].status.Fulfilled? && OpenCheck(after.promises[0]);
  }

  // ----- runs that outlive their leases -----

  /** Everything a decision or a check reads of the case, apart from its schedules. */
  predicate Plain(a: System) {
    && a.db.promises == [] && a.db.attributions == [] && a.db.deadline == DEADLINE && Retries(a.db, 0)
  }

  /** The first schedule is held by its first run, which has had a retryable failure for an answer and has stalled. */
  predicate Stalled(a: System) {
    && Plain(a) && a.clock == 1 && |a.runs| == 1 && a.db.responses == {} && a.db.state.Executing?
    && |a.db.schedules| == 1
    && var s := a.db.schedules[0];
    && s.action == RetryNow && s.decision == 0 && s.createdAt == 1 && s.scheduledFor == 1 && s.maxAttempts == 3
    && s.status.Running? && s.attempt == 1 && s.stamp == a.db.version && s.leaseExpires == Some(1 + LEASE)
    && s.nextRetry.None? && HasStarted(s) && s.actionStatus.StillPlanned?
    && a.runs[0].i == 0 && a.runs[0].phase == Answered(FAILURE) && a.runs[0].claim.attempt == 1 && a.runs[0].claim.maxAttempts == 3
  }

  lemma FirstRunStalls() returns (end: System)
    ensures Leads(LEASELESS, START, end) && Stalled(end)
  {
    var a := FirstDecision(LEASELESS, 1);
    var b := Claims(LEASELESS, a, 0, 1);
    NothingPast(b.db.schedules);
    var c := Clears(LEASELESS, b, 0, 1);
    var d := Starts(LEASELESS, c, 0, 1);
    end := Answers(LEASELESS, d, 0, FAILURE, 1);
    LeadsOn(LEASELESS, START, a, b);
    LeadsOn(LEASELESS, START, b, c);
    LeadsOn(LEASELESS, START, c, d);
    LeadsOn(LEASELESS, START, d, end);
  }

  /** A second run has reclaimed the schedule, been cleared, and stalled too. */
  predicate TwiceStalled(a: System) {
    && Plain(a) && a.clock == 1 + LEASE && |a.runs| == 2 && a.db.responses == {} && a.db.state.Executing?
    && |a.db.schedules| == 1
    && var s := a.db.schedules[0];
    && s.action == RetryNow && s.decision == 0 && s.createdAt == 1 && s.scheduledFor == 1 && s.maxAttempts == 3
    && s.status.Claimed? && s.attempt == 2 && s.stamp == a.db.version && s.leaseExpires == Some(1 + 2 * LEASE)
    && s.nextRetry.None? && HasStarted(s) && s.actionStatus.StillPlanned?
    && a.runs[0].i == 0 && a.runs[0].phase == Answered(FAILURE) && a.runs[0].claim.attempt == 1 && a.runs[0].claim.maxAttempts == 3
    && a.runs[1].i == 0 && a.runs[1].phase.Cleared?
  }

  lemma SecondRunStalls(a: System) returns (end: System)
    requires Stalled(a)
    ensures Leads(LEASELESS, a, end) && TwiceStalled(end)
  {
    var b := Claims(LEASELESS, a, 0, 1 + LEASE);
    NothingPast(b.db.schedules);
    end := Clears(LEASELESS, b, 1, 1 + LEASE);
    LeadsOn(LEASELESS, a, b, end);
  }

  /** A third run has finished the schedule, and the case waits for the outcome. */
  predicate FinishedMeanwhile(a: System) {
    && Plain(a) && a.clock == 1 + 2 * LEASE && |a.runs| == 3 && a.db.responses == {} && a.db.state.WaitingOutcome?
    && |a.db.schedules| == 1
    && var s := a.db.schedules[0];
    && s.action == RetryNow && s.createdAt == 1 && s.maxAttempts == 3
    && s.status.ObservationPending? && s.completed.Some? && s.stamp < a.db.version && HasStarted(s) && s.actionStatus.HasExecuted?
    && a.runs[0].i == 0 && a.runs[0].phase == Answered(FAILURE) && a.runs[0].claim.attempt == 1 && a.runs[0].claim.maxAttempts == 3
    && a.runs[1].i == 0 && a.runs[1].phase.Cleared?
  }

  /** A third run has reclaimed and marked the schedule and had its answer. */
  predicate ThirdAnswered(a: System) {
    && Plain(a) && a.clock == 1 + 2 * LEASE && |a.runs| == 3 && a.db.responses == {} && a.db.state.Executing?
    && |a.db.schedules| == 1
    && var s := a.db.schedules[0];
    && s.action == RetryNow && s.createdAt == 1 && s.maxAttempts == 3 && s.status.Running? && s.stamp <= a.db.version && HasStarted(s)
    && a.runs[0].i == 0 && a.runs[0].phase == Answered(FAILURE) && a.runs[0].claim.attempt == 1 && a.runs[0].claim.maxAttempts == 3
    && a.runs[1].i == 0 && a.runs[1].phase.Cleared?
    && a.runs[2].i == 0 && a.runs[2].phase == Answered(SUCCESS)
  }

  lemma ThirdRunAnswers(a: System) returns (end: System)
    requires TwiceStalled(a)
    ensures Leads(LEASELESS, a, end) && ThirdAnswered(end)
  {
    var at := 1 + 2 * LEASE;
    var b := Claims(LEASELESS, a, 0, at);
    NothingPast(b.db.schedules);
    var c := Clears(LEASELESS, b, 2, at);
    var d := Starts(LEASELESS, c, 2, at);
    end := Answers(LEASELESS, d, 2, SUCCESS, at);
    LeadsOn(LEASELESS, a, b, c);
    LeadsOn(LEASELESS, a, c, d);
    LeadsOn(LEASELESS, a, d, end);
  }

  lemma ThirdRunFinishes(a: System) returns (end: System)
    requires ThirdAnswered(a)
    ensures Leads(LEASELESS, a, end) && FinishedMeanwhile(end)
  {
    end := Finishes(LEASELESS, a, 2, a.clock);
    Succeeds(a.db, 0, a.runs[2].claim, a.clock);
    RecordsKept(a, end);
    RespondersKept(a.db, 0, a.runs[2].claim, SUCCESS, a.clock);
  }

  lemma RespondersKept(db: CaseDb, i: nat, claim: Schedule, result: ProviderResult, at: Time)
    ensures Apply(db, Complete(i, claim, result, at)).responses == db.responses
  {
  }

  lemma MeanwhileFinished() returns (end: System)
    ensures Leads(LEASELESS, START, end) && FinishedMeanwhile(end)
  {
    var a := FirstRunStalls();
    var b := SecondRunStalls(a);
    var c := ThirdRunAnswers(b);
    end := ThirdRunFinishes(c);
    LeadsOn(LEASELESS, START, a, b);
    LeadsOn(LEASELESS, START, b, c);
    LeadsOn(LEASELESS, START, c, end);
  }

  /** A schedule that has been executed and awaits observation is reopened by the first run's late answer. */
  lemma FinishedIsRevived() returns (before: System, end: System)
    ensures Leads(LEASELESS, START, before) && Leads(LEASELESS, before, end)
    ensures |before.db.schedules| == 1 && before.db.schedules[0].status.ObservationPending? && before.db.schedules[0].completed.Some?
    ensures |end.db.schedules| == 1 && end.db.schedules[0].status.RetryPending? && end.db.state.WaitingOutcome?
  {
    before := MeanwhileFinished();
    end := Finishes(LEASELESS, before, 0, before.clock);
    Fails(before.db, 0, before.runs[0].claim, before.clock);
  }

  /** A second action has been decided and is fresh; the first has been reopened and claimed; its second run is still cleared. */
  predicate Poised(a: System) {
    && Plain(a) && |a.runs| >= 2 && a.db.state.Scheduled? && 1 <= a.clock < 1 + DAY
    && |a.db.schedules| == 2
    && var s, t := a.db.schedules[0], a.db.schedules[1];
    && s.action == RetryNow && s.createdAt == 1 && s.status.Claimed? && s.stamp < a.db.version && HasStarted(s) && s.actionStatus.HasExecuted?
    && t.action == RetryNow && 1 <= t.createdAt <= a.clock && t.stamp == a.db.version && !HasStarted(t) && t.actionStatus.StillPlanned?
    && a.runs[1].i == 0 && a.runs[1].phase.Cleared?
  }

  /** The first schedule finished, the second just decided. */
  predicate DecidedAgain(a: System) {
    && Plain(a) && a.clock == 1 + 2 * LEASE + HOUR && |a.runs| == 3 && a.db.responses == {"first"} && a.db.state.Scheduled?
    && |a.db.schedules| == 2
    && var s, t := a.db.schedules[0], a.db.schedules[1];
    && s.action == RetryNow && s.createdAt == 1 && s.maxAttempts == 3
    && s.status.ObservationPending? && s.stamp < a.db.version && HasStarted(s) && s.actionStatus.HasExecuted?
    && t == NewSchedule(RetryNow, t.decision, t.policy, a.db.version, a.clock) && Retries(a.db, t.decision)
    && a.runs[0].i == 0 && a.runs[0].phase == Answered(FAILURE) && a.runs[0].claim.attempt == 1 && a.runs[0].claim.maxAttempts == 3
    && a.runs[1].i == 0 && a.runs[1].phase.Cleared?
  }

  lemma SecondDecision(a: System) returns (end: System)
    requires FinishedMeanwhile(a)
    ensures Leads(LEASELESS, a, end) && DecidedAgain(end)
  {
    var b := Responds(LEASELESS, a, "first", a.clock);
    OnePast(LEASELESS, b.db.schedules, b.clock + HOUR);
    end := Decides(LEASELESS, b, b.clock + HOUR, b.clock + HOUR);
    LeadsOn(LEASELESS, a, b, end);
  }

  /** The first run's late failure reopens the first schedule, which is claimed once more. */
  lemma FirstIsReclaimed(a: System) returns (end: System)
    requires DecidedAgain(a)
    ensures Leads(LEASELESS, a, end) && Poised(end)
  {
    var b := Finishes(LEASELESS, a, 0, a.clock);
    Fails(a.db, 0, a.runs[0].claim, a.clock);
    RecordsKept(a, b);
    end := Claims(LEASELESS, b, 0, a.clock + MINUTE);
    LeadsOn(LEASELESS, a, b, end);
  }

  lemma RecordsKept(a: System, b: System)
    requires Plain(a) && SameRecords(a.db, b.db)
    ensures Plain(b)
  {
  }

  /** The second run, long out of its lease, starts the stale first schedule: it takes the case over, and the fresh one is fresh no more. */
  lemma StaleTakesOver() returns (before: System, end: System)
    ensures Leads(LEASELESS, START, before) && Leads(LEASELESS, before, end)
    ensures before.db.state.Scheduled? && Fresh(before.db, 1) && !Fresh(before.db, 0)
    ensures end.db.state.Executing? && Fresh(end.db, 0) && !Fresh(end.db, 1) && 1 < |end.db.schedules|
  {
    var a := MeanwhileFinished();
    var b := SecondDecision(a);
    before := FirstIsReclaimed(b);
    LeadsOn(LEASELESS, START, a, b);
    LeadsOn(LEASELESS, START, b, before);
    end := Starts(LEASELESS, before, 1, before.clock);
  }

  // ----- the limits without live leases -----

  predicate DoneOnce(s: Schedule) {
    s.action == RetryNow && s.createdAt == 1 && HasStarted(s) && s.actionStatus.HasExecuted?
  }

  /** As `Poised`, with a run cleared for the second action as well. */
  predicate PoisedTwice(a: System) {
    && Plain(a) && a.clock == 1 + 2 * LEASE + HOUR + MINUTE && |a.runs| == 5 && a.db.responses == {"first"} && a.db.state.Scheduled?
    && |a.db.schedules| == 2
    && DoneOnce(a.db.schedules[0]) && a.db.schedules[0].status.Claimed?
    && a.db.schedules[1].action == RetryNow && a.db.schedules[1].status.Claimed? && a.db.schedules[1].actionStatus.StillPlanned?
    && a.runs[1].i == 0 && a.runs[1].phase.Cleared? && a.runs[3].i == 1 && a.runs[3].phase.Cleared?
  }

  lemma SecondIsCleared(a: System) returns (end: System)
    requires DecidedAgain(a)
    ensures Leads(LEASELESS, a, end) && Plain(end) && end.clock == a.clock && |end.runs| == 4 && end.db.responses == {"first"} && end.db.state.Scheduled?
    ensures |end.db.schedules| == 2 && end.db.schedules[0] == a.db.schedules[0]
    ensures end.db.schedules[1].action == RetryNow && end.db.schedules[1].status.Claimed? && end.db.schedules[1].actionStatus.StillPlanned?
    ensures end.runs[0] == a.runs[0] && end.runs[1] == a.runs[1] && end.runs[3].i == 1 && end.runs[3].phase.Cleared?
  {
    var b := Claims(LEASELESS, a, 1, a.clock);
    OnePast(LEASELESS, b.db.schedules, b.clock);
    end := Clears(LEASELESS, b, 3, a.clock);
    LeadsOn(LEASELESS, a, b, end);
  }

  lemma BothArePoised(a: System) returns (end: System)
    requires DecidedAgain(a)
    ensures Leads(LEASELESS, a, end) && PoisedTwice(end)
  {
    var b := SecondIsCleared(a);
    var c := Finishes(LEASELESS, b, 0, b.clock);
    Fails(b.db, 0, b.runs[0].claim, b.clock);
    RespondersKept(b.db, 0, b.runs[0].claim, FAILURE, b.clock);
    RecordsKept(b, c);
    end := Claims(LEASELESS, c, 0, c.clock + MINUTE);
    LeadsOn(LEASELESS, a, b, c);
    LeadsOn(LEASELESS, a, c, end);
  }

  /** Both actions are being executed at once, and the second run's answer is in. */
  predicate BothRunning(a: System) {
    && Plain(a) && a.clock == 1 + 2 * LEASE + HOUR + MINUTE && |a.runs| == 5 && a.db.responses == {"first"} && a.db.state.Executing?
    && |a.db.schedules| == 2
    && DoneOnce(a.db.schedules[0])
    && a.db.schedules[1].action == RetryNow && HasStarted(a.db.schedules[1]) && a.db.schedules[1].actionStatus.StillPlanned?
    && a.runs[1].i == 0 && a.runs[1].phase == Answered(SUCCESS)
  }

  lemma BothRun(a: System) returns (end: System)
    requires PoisedTwice(a)
    ensures Leads(LEASELESS, a, end) && BothRunning(end)
  {
    var b := Starts(LEASELESS, a, 1, a.clock);
    var c := Starts(LEASELESS, b, 3, a.clock);
    end := Answers(LEASELESS, c, 1, SUCCESS, a.clock);
    LeadsOn(LEASELESS, a, b, c);
    LeadsOn(LEASELESS, a, c, end);
  }

  /** The first action is over and the case has been decided a third time, while the second action is still under way and in no history. */
  predicate DecidedThrice(a: System) {
    && Plain(a) && a.clock == 1 + 2 * LEASE + HOUR + MINUTE && |a.runs| == 5 && a.db.state.Scheduled?
    && |a.db.schedules| == 3
    && DoneOnce(a.db.schedules[0])
    && a.db.schedules[1].action == RetryNow && HasStarted(a.db.schedules[1]) && a.db.schedules[1].actionStatus.StillPlanned?
    && var t := a.db.schedules[2];
    && t == NewSchedule(RetryNow, t.decision, t.policy, a.db.version, a.clock) && Retries(a.db, t.decision)
  }

  /** The first action is over, and the case waits for its outcome. */
  predicate FirstOver(a: System) {
    && Plain(a) && a.clock == 1 + 2 * LEASE + HOUR + MINUTE && |a.runs| == 5 && a.db.responses == {"first"} && a.db.state.WaitingOutcome?
    && |a.db.schedules| == 2
    && DoneOnce(a.db.schedules[0])
    && a.db.schedules[1].action == RetryNow && HasStarted(a.db.schedules[1]) && a.db.schedules[1].actionStatus.StillPlanned?
  }

  lemma FirstIsOver(a: System) returns (end: System)
    requires BothRunning(a)
    ensures Leads(LEASELESS, a, end) && FirstOver(end)
  {
    end := Finishes(LEASELESS, a, 1, a.clock);
    Succeeds(a.db, 0, a.runs[1].claim, a.clock);
    RespondersKept(a.db, 0, a.runs[1].claim, SUCCESS, a.clock);
    RecordsKept(a, end);
  }

  lemma ThirdDecision(a: System) returns (end: System)
    requires FirstOver(a)
    ensures Leads(LEASELESS, a, end) && DecidedThrice(end)
  {
    var b := Responds(LEASELESS, a, "second", a.clock);
    RecordsKept(a, b);
    OnePast(LEASELESS, b.db.schedules, b.clock);
    end := Decides(LEASELESS, b, a.clock, a.clock);
    LeadsOn(LEASELESS, a, b, end);
  }

  /** The worker's recheck does not see the action under way either. */
  predicate ThirdCleared(a: System) {
    && |a.runs| == 6 && a.runs[5].i == 2 && a.runs[5].phase.Cleared? && a.db.state.Scheduled?
    && |a.db.schedules| == 3 && a.db.schedules[2].status.Claimed? && a.db.schedules[2].action == RetryNow
    && DoneOnce(a.db.schedules[0]) && a.db.schedules[1].action == RetryNow && HasStarted(a.db.schedules[1])
  }

  lemma ThirdIsCleared(a: System) returns (end: System)
    requires DecidedThrice(a)
    ensures Leads(LEASELESS, a, end) && ThirdCleared(end)
  {
    var b := ThirdIsClaimed(a);
    end := ThirdIsChecked(b);
    LeadsOn(LEASELESS, a, b, end);
  }

  predicate ThirdClaimed(a: System) {
    && Plain(a) && a.clock == 1 + 2 * LEASE + HOUR + MINUTE && a.db.state.Scheduled? && |a.runs| == 6
    && a.runs[5].phase.JustClaimed? && a.runs[5].i == 2 && a.runs[5].now == a.clock && a.runs[5].claim.stamp == a.db.version
    && Retries(a.db, a.runs[5].claim.decision) && |a.db.schedules| == 3
    && DoneOnce(a.db.schedules[0])
    && a.db.schedules[1].action == RetryNow && HasStarted(a.db.schedules[1]) && a.db.schedules[1].actionStatus.StillPlanned?
    && a.db.schedules[2].status.Claimed? && a.db.schedules[2].action == RetryNow && a.db.schedules[2].actionStatus.StillPlanned?
  }

  lemma ThirdIsChecked(a: System) returns (end: System)
    requires ThirdClaimed(a)
    ensures Leads(LEASELESS, a, end) && ThirdCleared(end)
  {
    OnePast(LEASELESS, a.db.schedules, a.clock);
    end := Clears(LEASELESS, a, 5, a.clock);
  }

  lemma ThirdIsClaimed(a: System) returns (b: System)
    requires DecidedThrice(a)
    ensures Leads(LEASELESS, a, b) && ThirdClaimed(b)
  {
    b := Claims(LEASELESS, a, 2, a.clock);
  }

  predicate AllStarted(schedules: seq<Schedule>) {
    forall i :: 0 <= i < |schedules| ==> schedules[i].action == RetryNow && HasStarted(schedules[i])
  }

  lemma ThirdStarts(a: System) returns (end: System)
    requires ThirdCleared(a)
    ensures Leads(LEASELESS, a, end) && |end.db.schedules| == 3 && AllStarted(end.db.schedules)
  {
    ThirdMark(a.db, a.runs[5].now);
    end := Starts(LEASELESS, a, 5, a.clock);
  }

  lemma ThirdMark(db: CaseDb, now: Time)
    requires |db.schedules| == 3 && db.schedules[2].status.Claimed?
    requires db.schedules[0].action == RetryNow && db.schedules[1].action == RetryNow && db.schedules[2].action == RetryNow
    requires HasStarted(db.schedules[0]) && HasStarted(db.schedules[1])
    ensures MarkExecuting(db, 2, now).Commit? && |MarkExecuting(db, 2, now).rows.schedules| == 3
    ensures AllStarted(MarkExecuting(db, 2, now).rows.schedules)
  {
  }

  lemma {:induction false} AllRetried(schedules: seq<Schedule>)
    requires AllStarted(schedules)
    ensures Policy.CountRetries(RateLimits.Starts(schedules)) == |schedules|
  {
    if schedules != [] {
      var n := |schedules| - 1;
      AllRetried(schedules[..n]);
      Policy.HistorySplit(RateLimits.Starts(schedules[..n]), [Policy.RecentAction(RetryNow, schedules[n].createdAt)], 0, 0);
    }
  }

  /**
   * Without live leases the limits are not kept: in a trace disciplined in every other respect a merchant
   * that allows two retries gets three.
   */
  lemma LimitsNeedLeases() returns (end: System)
    ensures Leads(LEASELESS, START, end) && !RateLimits.LimitsKept(end.db.schedules, LIMITS)
  {
    var a := TwoUnderWay();
    end := ThirdUnderWay(a);
    LeadsOn(LEASELESS, START, a, end);
    AllRetried(end.db.schedules);
  }

  lemma TwoUnderWay() returns (end: System)
    ensures Leads(LEASELESS, START, end) && BothRunning(end)
  {
    var a := MeanwhileFinished();
    var b := SecondDecision(a);
    var c := BothArePoised(b);
    end := BothRun(c);
    LeadsOn(LEASELESS, START, a, b);
    LeadsOn(LEASELESS, START, b, c);
    LeadsOn(LEASELESS, START, c, end);
  }

  lemma ThirdUnderWay(a: System) returns (end: System)
    requires BothRunning(a)
    ensures Leads(LEASELESS, a, end) && |end.db.schedules| == 3 && AllStarted(end.db.schedules)
  {
    var b := FirstIsOver(a);
    var c := ThirdDecision(b);
    var d := ThirdIsCleared(c);
    end := ThirdStarts(d);
    LeadsOn(LEASELESS, a, b, c);
    LeadsOn(LEASELESS, a, c, d);
    LeadsOn(LEASELESS, a, d, end);
  }

  // ----- the limits with foresight -----

  /** A retry has been decided on and escalated; two approvals of it have been weighed, one for this version and one for version 12. */
  predicate TwiceWeighed(a: System) {
    && Plain(a) && a.clock == 1 && a.runs == [] && |a.flights| == 3 && a.db.state.Escalated? && a.db.version == 4
    && a.db.schedules == [] && a.db.responses == {} && a.db.reviews == []
    && Judges(a.flights[1], "first", 4) && Judges(a.flights[2], "second", 12)
  }

  lemma ApprovalsAreWeighed() returns (end: System)
    ensures Leads(FORESEEING, START, end) && TwiceWeighed(end)
  {
    NothingPast(START.db.schedules);
    var a := RetryAsks(FORESEEING, START, 1);
    NothingPast(a.db.schedules);
    var b := Weighs(FORESEEING, a, "first", 4, 1);
    end := Weighs(FORESEEING, b, "second", 12, 1);
    LeadsOn(FORESEEING, START, a, b);
    LeadsOn(FORESEEING, START, b, end);
  }

  /** The first approval has been written. */
  predicate FirstApproved(a: System) {
    && Plain(a) && a.clock == 1 && a.runs == [] && |a.flights| == 3 && Judges(a.flights[2], "second", 12)
    && a.db.state.Scheduled? && a.db.version == 7 && a.db.responses == {} && |a.db.reviews| == 1 && a.db.reviews[0].key == "first"
    && |a.db.schedules| == 1 && a.db.schedules[0] == NewSchedule(RetryNow, 0, a.db.schedules[0].policy, 7, 1)
    && HumanApproved(a.db, a.db.schedules[0].policy)
  }

  lemma FirstIsApproved(a: System) returns (end: System)
    requires TwiceWeighed(a)
    ensures Leads(FORESEEING, a, end) && FirstApproved(end)
  {
    end := ApprovalLands(FORESEEING, a, 1, "first", 1);
  }

  predicate FirstCleared(a: System) {
    && Plain(a) && a.clock == 1 && |a.flights| == 3 && Judges(a.flights[2], "second", 12)
    && a.db.state.Scheduled? && a.db.version == 7 && a.db.responses == {} && |a.db.reviews| == 1 && a.db.reviews[0].key == "first"
    && |a.db.schedules| == 1 && a.db.schedules[0].action == RetryNow && a.db.schedules[0].createdAt == 1
    && a.db.schedules[0].status.Claimed? && a.db.schedules[0].started.None?
    && |a.runs| == 1 && a.runs[0].i == 0 && a.runs[0].phase.Cleared? && a.runs[0].now == 1
  }

  lemma FirstIsCleared(a: System) returns (end: System)
    requires FirstApproved(a)
    ensures Leads(FORESEEING, a, end) && FirstCleared(end)
  {
    var b := Claims(FORESEEING, a, 0, 1);
    NothingPast(b.db.schedules);
    end := Clears(FORESEEING, b, 0, 1);
    LeadsOn(FORESEEING, a, b, end);
  }

  /** The approved action is being executed, and its answer is in. */
  predicate FirstAnswered(a: System) {
    && Plain(a) && a.clock == 1 && |a.flights| == 3 && Judges(a.flights[2], "second", 12)
    && a.db.state.Executing? && a.db.version == 8 && a.db.responses == {} && |a.db.reviews| == 1 && a.db.reviews[0].key == "first"
    && |a.db.schedules| == 1 && a.db.schedules[0].action == RetryNow && a.db.schedules[0].createdAt == 1 && HasStarted(a.db.schedules[0])
    && |a.runs| == 1 && a.runs[0].i == 0 && a.runs[0].phase == Answered(SUCCESS) && a.runs[0].now == 1
  }

  lemma FirstIsAnswered(a: System) returns (end: System)
    requires FirstCleared(a)
    ensures Leads(FORESEEING, a, end) && FirstAnswered(end)
  {
    var b := Starts(FORESEEING, a, 0, 1);
    end := Answers(FORESEEING, b, 0, SUCCESS, 1);
    LeadsOn(FORESEEING, a, b, end);
  }

  /** The action is over and the customer has responded; waiting has been decided on, and an operator asked: the foreseen version. */
  predicate AtTwelve(a: System) {
    && Plain(a) && a.clock == 1 && |a.runs| == 1 && |a.flights| >= 3 && Judges(a.flights[2], "second", 12)
    && a.db.state.Escalated? && a.db.version == 12 && |a.db.reviews| == 1 && a.db.reviews[0].key == "first"
    && |a.db.schedules| == 1 && DoneOnce(a.db.schedules[0])
  }

  predicate FirstDone(a: System) {
    && Plain(a) && a.clock == 1 && |a.runs| == 1 && |a.flights| == 3 && Judges(a.flights[2], "second", 12)
    && a.db.state.WaitingOutcome? && a.db.version == 9 && a.db.responses == {} && |a.db.reviews| == 1 && a.db.reviews[0].key == "first"
    && |a.db.schedules| == 1 && DoneOnce(a.db.schedules[0])
  }

  lemma FirstIsDone(a: System) returns (end: System)
    requires FirstAnswered(a)
    ensures Leads(FORESEEING, a, end) && FirstDone(end)
  {
    end := Finishes(FORESEEING, a, 0, 1);
    Succeeds(a.db, 0, a.runs[0].claim, 1);
    RespondersKept(a.db, 0, a.runs[0].claim, SUCCESS, 1);
    RecordsKept(a, end);
  }

  lemma TwelveIsReached(a: System) returns (end: System)
    requires FirstDone(a)
    ensures Leads(FORESEEING, a, end) && AtTwelve(end)
  {
    var b := Responds(FORESEEING, a, "signal", 1);
    RecordsKept(a, b);
    FirstPast(b.db.schedules);
    end := WaitAsks(FORESEEING, b, 1);
    LeadsOn(FORESEEING, a, b, end);
  }

  /** The second approval, weighed when there was no history, schedules the retry again in the same instant; it waits an hour for a worker. */
  predicate TwoAtOnce(a: System) {
    && Plain(a) && a.clock == 1 && |a.runs| == 1 && a.db.state.Scheduled?
    && |a.db.schedules| == 2 && DoneOnce(a.db.schedules[0])
    && a.db.schedules[1] == NewSchedule(RetryNow, 0, a.db.schedules[1].policy, a.db.version, 1)
    && HumanApproved(a.db, a.db.schedules[1].policy)
  }

  lemma SecondIsApproved(a: System) returns (end: System)
    requires AtTwelve(a)
    ensures Leads(FORESEEING, a, end) && TwoAtOnce(end)
  {
    assert "first" != "second";
    end := ApprovalLands(FORESEEING, a, 2, "second", 1);
  }

  predicate LateCleared(a: System) {
    && a.clock == 1 + HOUR && |a.runs| == 2 && a.db.state.Scheduled? && |a.db.schedules| == 2 && DoneOnce(a.db.schedules[0])
    && a.db.schedules[1].action == RetryNow && a.db.schedules[1].createdAt == 1 && a.db.schedules[1].status.Claimed?
    && a.runs[1].i == 1 && a.runs[1].phase.Cleared? && a.runs[1].now == 1 + HOUR
  }

  lemma SecondClearsLate(a: System) returns (end: System)
    requires TwoAtOnce(a)
    ensures Leads(FORESEEING, a, end) && LateCleared(end)
  {
    var b := Claims(FORESEEING, a, 1, 1 + HOUR);
    OnePast(FORESEEING, b.db.schedules, 1 + HOUR);
    end := Clears(FORESEEING, b, 1, 1 + HOUR);
    LeadsOn(FORESEEING, a, b, end);
  }

  lemma SecondStartsLate(a: System) returns (end: System)
    requires LateCleared(a)
    ensures Leads(FORESEEING, a, end) && TwoStarted(end.db.schedules)
  {
    SecondMark(a.db, a.runs[1].now);
    end := Starts(FORESEEING, a, 1, 1 + HOUR);
  }

  predicate TwoStarted(s: seq<Schedule>) {
    && |s| == 2 && s[0].action == RetryNow && s[1].action == RetryNow && HasStarted(s[0]) && HasStarted(s[1])
    && s[0].createdAt == s[1].createdAt
  }

  lemma NoInterval(s: seq<Schedule>)
    requires TwoStarted(s)
    ensures !RateLimits.LimitsKept(s, LIMITS)
  {
    assert RateLimits.BothRetry(s[0], s[1]);
    assert s[1].createdAt - s[0].createdAt < LIMITS.minIntervalMinutes * MINUTE;
  }

  lemma TwelveIsForeseen() returns (end: System)
    ensures Leads(FORESEEING, START, end) && AtTwelve(end)
  {
    var a := ApprovalsAreWeighed();
    var b := FirstIsApproved(a);
    var c := FirstIsCleared(b);
    var d := FirstIsAnswered(c);
    var e := FirstIsDone(d);
    end := TwelveIsReached(e);
    LeadsOn(FORESEEING, START, a, b);
    LeadsOn(FORESEEING, START, b, c);
    LeadsOn(FORESEEING, START, c, d);
    LeadsOn(FORESEEING, START, d, e);
    LeadsOn(FORESEEING, START, e, end);
  }

  /**
   * If operators may cite a version that the case has not reached, the limits are not kept: in a trace
   * disciplined in every other respect two retries are scheduled in the same instant by a merchant that
   * wants them an hour apart. Every retry is approved, and merchant, customer and diagnosis never change.
   */
  lemma LimitsNeedHindsight() returns (end: System)
    ensures Leads(FORESEEING, START, end) && !RateLimits.LimitsKept(end.db.schedules, PRECIOUS.merchant.limits)
  {
    var a := TwelveIsForeseen();
    var b := SecondIsApproved(a);
    var c := SecondClearsLate(b);
    end := SecondStartsLate(c);
    LeadsOn(FORESEEING, START, a, b);
    LeadsOn(FORESEEING, START, b, c);
    LeadsOn(FORESEEING, START, c, end);
    NoInterval(end.db.schedules);
  }

  // ----- the limits with other limits, and with a clock that goes back -----

  /** One action has been decided, executed and answered by the customer, and the case awaits another decision. */
  predicate OneDone(a: System) {
    && Plain(a) && a.clock == 1 && |a.runs| == 1 && a.db.state.ActionPending? && |a.db.schedules| == 1 && DoneOnce(a.db.schedules[0])
  }

  predicate OneAnswered(a: System) {
    && Plain(a) && a.clock == 1 && |a.runs| == 1 && a.db.state.Executing? && a.db.responses == {} && a.db.executions == []
    && |a.db.schedules| == 1 && a.db.schedules[0].action == RetryNow && a.db.schedules[0].createdAt == 1 && HasStarted(a.db.schedules[0])
    && a.runs[0].i == 0 && a.runs[0].phase == Answered(SUCCESS) && a.runs[0].now == 1
  }

  lemma OneIsAnswered(w: Rules) returns (end: System)
    requires w.facts == FACTS
    ensures Leads(w, START, end) && OneAnswered(end)
  {
    var a := FirstDecision(w, 1);
    var b := Claims(w, a, 0, 1);
    NothingPast(b.db.schedules);
    var c := Clears(w, b, 0, 1);
    var d := Starts(w, c, 0, 1);
    end := Answers(w, d, 0, SUCCESS, 1);
    LeadsOn(w, START, a, b);
    LeadsOn(w, START, b, c);
    LeadsOn(w, START, c, d);
    LeadsOn(w, START, d, end);
  }

  lemma OneIsDone(w: Rules) returns (end: System)
    requires w.facts == FACTS
    ensures Leads(w, START, end) && OneDone(end)
  {
    var a := OneIsAnswered(w);
    var b := Finishes(w, a, 0, 1);
    Succeeds(a.db, 0, a.runs[0].claim, 1);
    RespondersKept(a.db, 0, a.runs[0].claim, SUCCESS, 1);
    RecordsKept(a, b);
    end := Responds(w, b, "signal", 1);
    RecordsKept(b, end);
    LeadsOn(w, START, a, b);
    LeadsOn(w, START, b, end);
  }

  /** A second retry is scheduled at `created` and started an hour after the first. */
  lemma AnotherStarts(w: Rules, a: System, created: Time) returns (end: System)
    requires w.facts == FACTS
    requires OneDone(a) && (created == 1 + HOUR || (w.waiver.Clock? && created == 1))
    ensures Leads(w, a, end) && |end.db.schedules| == 2 && AllStarted(end.db.schedules)
    ensures end.db.schedules[0].createdAt == 1 && end.db.schedules[1].createdAt == created
  {
    OnePast(w, a.db.schedules, 1 + HOUR);
    var b := Decides(w, a, 1 + HOUR, created);
    end := SecondRuns(w, b, created);
    LeadsOn(w, a, b, end);
  }

  predicate SecondPending(a: System, created: Time) {
    && Plain(a) && a.clock == created && 1 <= created <= 1 + HOUR && |a.runs| == 1 && a.db.state.Scheduled?
    && |a.db.schedules| == 2 && DoneOnce(a.db.schedules[0]) && Retries(a.db, a.db.schedules[1].decision)
    && a.db.schedules[1] == NewSchedule(RetryNow, a.db.schedules[1].decision, a.db.schedules[1].policy, a.db.version, created)
  }

  predicate SecondCleared(a: System, created: Time) {
    && a.clock == 1 + HOUR && |a.runs| == 2 && a.db.state.Scheduled? && |a.db.schedules| == 2 && DoneOnce(a.db.schedules[0])
    && a.db.schedules[1].action == RetryNow && a.db.schedules[1].createdAt == created && a.db.schedules[1].status.Claimed?
    && a.runs[1].i == 1 && a.runs[1].phase.Cleared? && a.runs[1].now == 1 + HOUR
  }

  lemma SecondClears(w: Rules, a: System, created: Time) returns (end: System)
    requires w.facts == FACTS
    requires SecondPending(a, created)
    ensures Leads(w, a, end) && SecondCleared(end, created)
  {
    var b := Claims(w, a, 1, 1 + HOUR);
    OnePast(w, b.db.schedules, 1 + HOUR);
    end := Clears(w, b, 1, 1 + HOUR);
    LeadsOn(w, a, b, end);
  }

  lemma SecondMark(db: CaseDb, now: Time)
    requires |db.schedules| == 2 && DoneOnce(db.schedules[0]) && db.schedules[1].status.Claimed? && db.schedules[1].action == RetryNow
    ensures var marked := MarkExecuting(db, 1, now);
      && marked.Commit? && |marked.rows.schedules| == 2 && AllStarted(marked.rows.schedules)
      && marked.rows.schedules[0] == db.schedules[0] && marked.rows.schedules[1].createdAt == db.schedules[1].createdAt
  {
  }

  lemma SecondRuns(w: Rules, a: System, created: Time) returns (end: System)
    requires w.facts == FACTS
    requires SecondPending(a, created)
    ensures Leads(w, a, end) && |end.db.schedules| == 2 && AllStarted(end.db.schedules)
    ensures end.db.schedules[0].createdAt == 1 && end.db.schedules[1].createdAt == created
  {
    var b := SecondClears(w, a, created);
    SecondMark(b.db, b.runs[1].now);
    end := Starts(w, b, 1, 1 + HOUR);
    LeadsOn(w, a, b, end);
  }

  /** The same merchant after it has come to allow only one retry. */
  const STRICTER: Policy.Limits := LIMITS.(maxRetries := 1)

  /** A disciplined trace under one set of limits does not keep stricter ones: the limits must not change. */
  lemma LimitsMustBeFixed() returns (end: System)
    ensures Leads(FAIR, START, end) && !RateLimits.LimitsKept(end.db.schedules, STRICTER)
  {
    var a := OneIsDone(FAIR);
    end := AnotherStarts(FAIR, a, 1 + HOUR);
    LeadsOn(FAIR, START, a, end);
    AllRetried(end.db.schedules);
  }

  /** If the clock goes back between an evaluation and its writing, two retries an hour apart by the clock are recorded as one instant. */
  lemma LimitsNeedTheClock() returns (end: System)
    ensures Leads(BACKWARDS, START, end) && !RateLimits.LimitsKept(end.db.schedules, LIMITS)
  {
    var a := OneIsDone(BACKWARDS);
    end := AnotherStarts(BACKWARDS, a, 1);
    LeadsOn(BACKWARDS, START, a, end);
    NoInterval(end.db.schedules);
  }

  // ----- manual transitions -----

  /** A manual transition to EXECUTING leaves a case that was just scheduled without a fresh schedule. */
  lemma NothingIsFresh() returns (end: System)
    ensures Leads(HANDLED, START, end) && end.db.state.Executing? && forall i: nat :: !Fresh(end.db, i)
  {
    var a := FirstDecision(HANDLED, 1);
    UnstampedEdges(a.db.state, Executing);
    end := ByHand(HANDLED, a, Executing, 1);
    LeadsOn(HANDLED, START, a, end);
  }

  predicate OneCleared(a: System) {
    && Plain(a) && a.clock == 1 && |a.runs| == 1 && a.db.state.Scheduled? && |a.db.schedules| == 1
    && a.db.schedules[0].action == RetryNow && a.db.schedules[0].createdAt == 1 && a.db.schedules[0].status.Claimed?
    && a.db.schedules[0].actionStatus.StillPlanned? && a.runs[0].i == 0 && a.runs[0].phase.Cleared? && a.runs[0].now == 1
  }

  lemma OneIsCleared() returns (end: System)
    ensures Leads(HANDLED, START, end) && OneCleared(end)
  {
    var a := FirstDecision(HANDLED, 1);
    var b := Claims(HANDLED, a, 0, 1);
    NothingPast(b.db.schedules);
    end := Clears(HANDLED, b, 0, 1);
    LeadsOn(HANDLED, START, a, b);
    LeadsOn(HANDLED, START, b, end);
  }

  predicate BothPlanned(a: System) {
    && Plain(a) && a.clock == 1 && a.db.state.Scheduled? && |a.db.schedules| == 2
    && a.db.schedules[0].action == RetryNow && a.db.schedules[0].createdAt == 1 && a.db.schedules[0].status.Claimed?
    && a.db.schedules[1].action == RetryNow && a.db.schedules[1].createdAt == 1 && a.db.schedules[1].actionStatus.StillPlanned?
    && a.db.schedules[0].actionStatus.StillPlanned?
  }

  /** An operator sends the case back for another decision while its run is about to start. */
  lemma AnotherIsDecided(a: System) returns (end: System)
    requires OneCleared(a)
    ensures Leads(HANDLED, a, end) && BothPlanned(end) && |end.runs| == 1 && end.runs[0] == a.runs[0] && Retries(end.db, end.db.schedules[1].decision)
    ensures end.db.schedules[1] == NewSchedule(RetryNow, end.db.schedules[1].decision, end.db.schedules[1].policy, end.db.version, 1)
  {
    var b := IsSentBack(a);
    end := IsDecidedAgain(b);
    LeadsOn(HANDLED, a, b, end);
  }

  lemma IsDecidedAgain(a: System) returns (end: System)
    requires Plain(a) && a.clock == 1 && a.db.state.Reassessing? && |a.runs| == 1 && |a.db.schedules| == 1
    requires a.db.schedules[0].action == RetryNow && a.db.schedules[0].createdAt == 1 && a.db.schedules[0].status.Claimed?
    requires a.db.schedules[0].actionStatus.StillPlanned?
    ensures Leads(HANDLED, a, end) && BothPlanned(end) && end.runs == a.runs && Retries(end.db, end.db.schedules[1].decision)
    ensures end.db.schedules[1] == NewSchedule(RetryNow, end.db.schedules[1].decision, end.db.schedules[1].policy, end.db.version, 1)
  {
    NothingPast(a.db.schedules);
    end := Decides(HANDLED, a, 1, 1);
    assert end.db.schedules[0] == a.db.schedules[0];
  }

  lemma IsSentBack(a: System) returns (b: System)
    requires OneCleared(a)
    ensures Leads(HANDLED, a, b) && Plain(b) && b.clock == 1 && b.runs == a.runs && b.db.schedules == a.db.schedules && b.db.state.Reassessing?
  {
    ScheduledGoesBack();
    b := ByHand(HANDLED, a, Reassessing, 1);
  }

  lemma ScheduledGoesBack()
    ensures CanTransition(Scheduled, Reassessing)
  {
  }

  lemma AnotherIsCleared(a: System) returns (end: System)
    requires BothPlanned(a) && |a.runs| == 1 && a.runs[0].i == 0 && a.runs[0].phase.Cleared? && a.runs[0].now == 1
    requires Retries(a.db, a.db.schedules[1].decision)
    requires a.db.schedules[1] == NewSchedule(RetryNow, a.db.schedules[1].decision, a.db.schedules[1].policy, a.db.version, 1)
    ensures Leads(HANDLED, a, end) && BothPlanned(end) && |end.runs| == 2 && end.runs[0] == a.runs[0]
    ensures end.runs[1].i == 1 && end.runs[1].phase.Cleared? && end.runs[1].now == 1 && end.db.schedules[1].status.Claimed?
  {
    var b := Claims(HANDLED, a, 1, 1);
    NothingPast(b.db.schedules);
    end := Clears(HANDLED, b, 1, 1);
    LeadsOn(HANDLED, a, b, end);
  }

  lemma BothStart(a: System) returns (end: System)
    requires BothPlanned(a) && |a.runs| == 2 && a.runs[0].i == 0 && a.runs[0].phase.Cleared? && a.runs[0].now == 1
    requires a.runs[1].i == 1 && a.runs[1].phase.Cleared? && a.runs[1].now == 1 && a.db.schedules[1].status.Claimed?
    ensures Leads(HANDLED, a, end) && TwoStarted(end.db.schedules)
  {
    var b := Starts(HANDLED, a, 0, 1);
    end := Starts(HANDLED, b, 1, 1);
    LeadsOn(HANDLED, a, b, end);
  }

  /** If operators may move the case by hand, two retries are decided and started in the same instant, every run within its lease. */
  lemma LimitsNeedNoHand() returns (end: System)
    ensures Leads(HANDLED, START, end) && !RateLimits.LimitsKept(end.db.schedules, LIMITS)
  {
    var a := OneIsCleared();
    var b := AnotherIsDecided(a);
    var c := AnotherIsCleared(b);
    end := BothStart(c);
    LeadsOn(HANDLED, START, a, b);
    LeadsOn(HANDLED, START, b, c);
    LeadsOn(HANDLED, START, c, end);
    NoInterval(end.db.schedules);
  }

  // ----- payments -----

  /** A payment closes a case that has just been scheduled: a step that the transition table does not have. */
  lemma PaymentJumps() returns (before: System, end: System)
    ensures Leads(FAIR, START, before) && Leads(FAIR, before, end)
    ensures before.db.state.Scheduled? && end.db.trail == before.db.trail + [Recovered] && !CanTransition(Scheduled, Recovered)
  {
    before := FirstDecision(FAIR, 1);
    end := Happens(FAIR, before, Attribute("payment", 1, 1, Text("payment")), 1);
    PaymentCloses(before.db);
  }

  lemma PaymentCloses(db: CaseDb)
    requires db.state.Scheduled? && db.attributions == [] && db.executions == [] && db.promises == []
    ensures !CanTransition(Scheduled, Recovered)
    ensures Apply(db, Attribute("payment", 1, 1, Text("payment"))).trail == db.trail + [Recovered]
  {
    var found := AttributionRules.Cascade(db, "payment", 1);
    assert found.Some? && found.value.promise.None?;
  }

  /** A retry has been delivered under the reference "retry", and the customer has then promised to pay. */
  lemma DeliveredAndPromised() returns (end: System)
    ensures Leads(FAIR, START, end) && end.db.state.WaitingOutcome?
    ensures |end.db.executions| == 1 && AttributionRules.MatchesReference(end.db.executions[0], "retry")
    ensures |end.db.promises| == 1 && AttributionRules.MatchesPromise(end.db.promises[0], 1)
  {
    var a := OneIsAnswered(FAIR);
    var b := Finishes(FAIR, a, 0, 1);
    Succeeds(a.db, 0, a.runs[0].claim, 1);
    Delivers(a.db, 0, a.runs[0].claim, 1);
    end := Happens(FAIR, b, Promised(1 + HOUR, None, Text("promise")), 1);
    Promises(b.db);
    LeadsOn(FAIR, START, a, b);
    LeadsOn(FAIR, START, b, end);
  }

  lemma Delivers(db: CaseDb, i: nat, claim: Schedule, at: Time)
    requires i < |db.schedules| && db.executions == []
    ensures var after := Apply(db, Complete(i, claim, SUCCESS, at)).executions;
      |after| == 1 && AttributionRules.MatchesReference(after[0], "retry")
  {
  }

  lemma Promises(db: CaseDb)
    requires db.promises == []
    ensures var after := Apply(db, Promised(1 + HOUR, None, Text("promise")));
      && |after.promises| == 1 && AttributionRules.MatchesPromise(after.promises[0], 1)
      && after.state == db.state && after.executions == db.executions
  {
  }

  /** The payment for that retry, with its very reference, is then dropped: whatever its amount, nothing is recorded. */
  lemma PaymentIsDropped() returns (before: System)
    ensures Leads(FAIR, START, before) && !IsTerminal(before.db.state)
    ensures forall amount, correlation :: Apply(before.db, Attribute("retry", amount, 1, correlation)) == before.db
  {
    before := DeliveredAndPromised();
    OverlapDrops(before.db);
  }

  lemma OverlapDrops(db: CaseDb)
    requires |db.executions| == 1 && AttributionRules.MatchesReference(db.executions[0], "retry")
    requires |db.promises| == 1 && AttributionRules.MatchesPromise(db.promises[0], 1)
    requires !IsTerminal(db.state)
    ensures AttributionRules.Overlap(db, "retry", 1)
    ensures forall amount, correlation :: Apply(db, Attribute("retry", amount, 1, correlation)) == db
  {
    assert AttributionRules.ByReference(db, "retry").Some? && AttributionRules.FirstDue(db.promises, 1).Some?;
  }

  // ----- the limit on the history in view -----

  /** Fifty actions are all an evaluation sees: a merchant that allows more than fifty retries is never told that they are used up. */
  lemma FiftyActionsAreAll(db: CaseDb, state: CaseState, version: nat, facts: Policy.Context)
    requires facts.merchant.limits.maxRetries > HISTORY_LIMIT
    ensures Policy.CountRetries(ContextOf(db, state, version, facts).recent) < facts.merchant.limits.maxRetries
  {
    FewerThanEntries(RecentHistory(db.schedules));
  }

  lemma {:induction false} FewerThanEntries(h: seq<Policy.RecentAction>)
    ensures Policy.CountRetries(h) <= |h|
  {
    if h != [] {
      FewerThanEntries(h[1..]);
    }
  }

  /** Retried at least an hour ago, or not yet started. */
  predicate Aged(s: Schedule, now: Time) {
    s.actionStatus.StillPlanned? || (s.action == RetryNow && 1 <= s.createdAt <= now - HOUR)
  }

  predicate AgedEntry(x: Policy.RecentAction, now: Time) {
    x.kind == RetryNow && 1 <= x.createdAt <= now - HOUR
  }

  lemma {:induction false} PastIsAged(schedules: seq<Schedule>, now: Time)
    requires forall i :: 0 <= i < |schedules| ==> Aged(schedules[i], now)
    ensures forall x :: x in Past(schedules) ==> AgedEntry(x, now)
  {
    if schedules != [] {
      PastIsAged(schedules[..|schedules| - 1], now);
    }
  }

  lemma AgedLeavesRoom(schedules: seq<Schedule>, now: Time)
    requires forall i :: 0 <= i < |schedules| ==> Aged(schedules[i], now)
    ensures RoomForRetry(FORGETFUL, RecentHistory(schedules), now)
  {
    var h := RecentHistory(schedules);
    PastIsAged(schedules, now);
    Sorting.SameElements(Sorting.Sort(Newer, Past(schedules)), Past(schedules));
    forall i | 0 <= i < |h| ensures AgedEntry(h[i], now) {
      assert h[i] in Past(schedules);
    }
    FewerThanEntries(h);
    Policy.LatestIsUpperBound(h, false);
  }

  /** `n` retries have been decided and executed, an hour apart, and the case is ready for another decision. */
  predicate RetriedOften(a: System, n: nat) {
    && a.db.promises == [] && a.db.deadline == DEADLINE && a.clock == 1 + n * HOUR && |a.runs| == n && |a.db.schedules| == n
    && (a.db.state.Detected? || a.db.state.ActionPending?)
    && (forall i :: 0 <= i < n ==> DoneBy(a.db.schedules[i], a.clock - HOUR))
    && forall key :: key in a.db.responses ==> |key| < n
  }

  predicate DoneBy(s: Schedule, t: Time) {
    s.action == RetryNow && HasStarted(s) && s.actionStatus.HasExecuted? && 1 <= s.createdAt <= t
  }

  /** The same, with one more decided. */
  predicate Deciding(a: System, n: nat) {
    && a.db.promises == [] && a.db.deadline == DEADLINE && a.clock == 1 + n * HOUR && |a.runs| == n && |a.db.schedules| == n + 1
    && a.db.state.Scheduled?
    && (forall i :: 0 <= i < n ==> DoneBy(a.db.schedules[i], a.clock - HOUR))
    && (forall key :: key in a.db.responses ==> |key| < n)
    && a.db.schedules[n] == NewSchedule(RetryNow, a.db.schedules[n].decision, a.db.schedules[n].policy, a.db.version, a.clock)
    && Retries(a.db, a.db.schedules[n].decision)
  }

  /** Retries an hour old do not stand in the way of another. */
  lemma AgainIsSmooth(db: CaseDb, n: nat, now: Time)
    requires db.promises == [] && db.deadline == DEADLINE && now == 1 + n * HOUR && n < 100 && n <= |db.schedules| <= n + 1
    requires forall i :: 0 <= i < n ==> DoneBy(db.schedules[i], now - HOUR)
    requires |db.schedules| == n + 1 ==> db.schedules[n].actionStatus.StillPlanned?
    ensures Usual(FORGETFUL.facts) && VerdictFor(FORGETFUL.facts).Approve? && Smooth(FORGETFUL, db, now)
  {
    AgedLeavesRoom(db.schedules, now);
  }

  lemma DecideAgain(a: System, n: nat) returns (end: System)
    requires RetriedOften(a, n) && n < 100
    ensures Leads(FORGETFUL, a, end) && Deciding(end, n)
  {
    AgainIsSmooth(a.db, n, a.clock);
    end := Decides(FORGETFUL, a, a.clock, a.clock);
  }

  predicate Checked(a: System, n: nat) {
    && a.db.promises == [] && a.db.deadline == DEADLINE && a.clock == 1 + n * HOUR && |a.runs| == n + 1 && |a.db.schedules| == n + 1
    && a.db.state.Scheduled?
    && (forall i :: 0 <= i < n ==> DoneBy(a.db.schedules[i], a.clock - HOUR))
    && (forall key :: key in a.db.responses ==> |key| < n)
    && a.db.schedules[n].action == RetryNow && a.db.schedules[n].createdAt == a.clock && a.db.schedules[n].status.Claimed?
    && a.runs[n].i == n && a.runs[n].phase.Cleared? && a.runs[n].now == a.clock
  }

  lemma CheckAgain(a: System, n: nat) returns (end: System)
    requires Deciding(a, n) && n < 100
    ensures Leads(FORGETFUL, a, end) && Checked(end, n)
  {
    var b := ClaimAgain(a, n);
    end := ClearAgain(b, n);
    LeadsOn(FORGETFUL, a, b, end);
  }

  predicate ClaimedAgain(a: System, n: nat) {
    && a.db.promises == [] && a.db.deadline == DEADLINE && a.clock == 1 + n * HOUR && |a.runs| == n + 1 && |a.db.schedules| == n + 1
    && a.db.state.Scheduled?
    && (forall i :: 0 <= i < n ==> DoneBy(a.db.schedules[i], a.clock - HOUR))
    && (forall key :: key in a.db.responses ==> |key| < n)
    && a.db.schedules[n].action == RetryNow && a.db.schedules[n].createdAt == a.clock && a.db.schedules[n].status.Claimed?
    && a.db.schedules[n].actionStatus.StillPlanned?
    && a.runs[n].i == n && a.runs[n].phase.JustClaimed? && a.runs[n].now == a.clock && a.runs[n].claim.stamp == a.db.version
    && Retries(a.db, a.runs[n].claim.decision)
  }

  lemma ClaimAgain(a: System, n: nat) returns (end: System)
    requires Deciding(a, n) && n < 100
    ensures Leads(FORGETFUL, a, end) && ClaimedAgain(end, n)
  {
    end := Claims(FORGETFUL, a, n, a.clock);
  }

  lemma ClearAgain(a: System, n: nat) returns (end: System)
    requires ClaimedAgain(a, n) && n < 100
    ensures Leads(FORGETFUL, a, end) && Checked(end, n)
  {
    AgainIsSmooth(a.db, n, a.clock);
    end := Clears(FORGETFUL, a, n, a.clock);
  }

  predicate Executed(a: System, n: nat) {
    && a.db.promises == [] && a.db.deadline == DEADLINE && a.clock == 1 + n * HOUR && |a.runs| == n + 1 && |a.db.schedules| == n + 1
    && a.db.state.Executing?
    && (forall i :: 0 <= i < n ==> DoneBy(a.db.schedules[i], a.clock - HOUR))
    && (forall key :: key in a.db.responses ==> |key| < n)
    && a.db.schedules[n].action == RetryNow && a.db.schedules[n].createdAt == a.clock && HasStarted(a.db.schedules[n])
    && a.runs[n].i == n && a.runs[n].phase == Answered(SUCCESS) && a.runs[n].now == a.clock
  }

  lemma ExecuteAgain(a: System, n: nat) returns (end: System)
    requires Checked(a, n)
    ensures Leads(FORGETFUL, a, end) && Executed(end, n)
  {
    var b := Starts(FORGETFUL, a, n, a.clock);
    end := Answers(FORGETFUL, b, n, SUCCESS, a.clock);
    LeadsOn(FORGETFUL, a, b, end);
  }

  function Key(n: nat): (key: string)
    ensures |key| == n
  {
    seq(n, _ => 'x')
  }

  predicate Awaiting(a: System, n: nat) {
    && a.db.promises == [] && a.db.deadline == DEADLINE && a.clock == 1 + n * HOUR && |a.runs| == n + 1 && |a.db.schedules| == n + 1
    && a.db.state.WaitingOutcome?
    && (forall i :: 0 <= i < n + 1 ==> DoneBy(a.db.schedules[i], a.clock))
    && (forall key :: key in a.db.responses ==> |key| < n)
  }

  lemma FinishAgain(a: System, n: nat) returns (end: System)
    requires Executed(a, n)
    ensures Leads(FORGETFUL, a, end) && Awaiting(end, n)
  {
    AllSucceed(a.db, n, a.runs[n].claim, a.clock);
    end := Finishes(FORGETFUL, a, n, a.clock);
  }

  lemma AllSucceed(db: CaseDb, n: nat, claim: Schedule, now: Time)
    requires |db.schedules| == n + 1 && now >= 1 && db.state.Executing?
    requires forall i :: 0 <= i < n ==> DoneBy(db.schedules[i], now - HOUR)
    requires db.schedules[n].action == RetryNow && db.schedules[n].createdAt == now && HasStarted(db.schedules[n])
    ensures var after := Apply(db, Complete(n, claim, SUCCESS, now));
      && after.state.WaitingOutcome? && after.promises == db.promises && after.deadline == db.deadline && after.responses == db.responses
      && |after.schedules| == n + 1 && forall i :: 0 <= i < n + 1 ==> DoneBy(after.schedules[i], now)
  {
    Succeeds(db, n, claim, now);
    RespondersKept(db, n, claim, SUCCESS, now);
    AllDone(db.schedules, Apply(db, Complete(n, claim, SUCCESS, now)).schedules, n, now);
  }

  lemma AllDone(before: seq<Schedule>, after: seq<Schedule>, n: nat, now: Time)
    requires |before| == n + 1 && now >= 1 && after == before[n := Finished(before[n], false, now)]
    requires forall i :: 0 <= i < n ==> DoneBy(before[i], now - HOUR)
    requires before[n].action == RetryNow && before[n].createdAt == now && HasStarted(before[n])
    ensures forall i :: 0 <= i < n + 1 ==> DoneBy(after[i], now)
  {
    forall i | 0 <= i < n + 1 ensures DoneBy(after[i], now) {
      if i < n {
        assert DoneBy(before[i], now - HOUR);
      }
    }
  }

  lemma RespondAgain(a: System, n: nat) returns (end: System)
    requires Awaiting(a, n)
    ensures Leads(FORGETFUL, a, end) && RetriedOften(end, n + 1)
  {
    end := Responds(FORGETFUL, a, Key(n), a.clock + HOUR);
  }

  lemma RetryAgain(a: System, n: nat) returns (end: System)
    requires RetriedOften(a, n) && n < 100
    ensures Leads(FORGETFUL, a, end) && RetriedOften(end, n + 1)
  {
    var b := DecideAgain(a, n);
    var c := CheckAgain(b, n);
    var d := ExecuteAgain(c, n);
    var e := FinishAgain(d, n);
    end := RespondAgain(e, n);
    LeadsOn(FORGETFUL, a, b, c);
    LeadsOn(FORGETFUL, a, c, d);
    LeadsOn(FORGETFUL, a, d, e);
    LeadsOn(FORGETFUL, a, e, end);
  }

  lemma Standing(w: Rules, a: System)
    ensures Leads(w, a, a)
  {
    assert Scripts.Path(w, [a], []);
  }

  /** Retry after retry, as often as you like within the deadline. */
  lemma {:induction false} ManyRetries(n: nat) returns (end: System)
    requires n <= 100
    ensures Leads(FORGETFUL, START, end) && RetriedOften(end, n)
  {
    if n == 0 {
      Standing(FORGETFUL, START);
      end := START;
    } else {
      var before := ManyRetries(n - 1);
      end := RetryAgain(before, n - 1);
      LeadsOn(FORGETFUL, START, before, end);
    }
  }

  /** With more than fifty actions the limits are not kept: in a trace disciplined in every other respect a merchant that allows fifty-one retries gets fifty-two. */
  lemma LimitsNeedTheHistory() returns (end: System)
    ensures Leads(FORGETFUL, START, end) && !RateLimits.LimitsKept(end.db.schedules, PATIENT.merchant.limits)
  {
    end := ManyRetries(52);
    AllRetried(end.db.schedules);
  }

  // ----- the decisions of these traces are the ranking's -----

  const PLAIN_SETTING: Optimizer.Setting :=
    Optimizer.Setting(1000, 0, 0, 0, 0, Optimizer.MaximizeNetRecovery, Optimizer.Weights(0, 0, 0, 0, 0, 0))

  /** With a chance of recovery of 13.5 per cent on an amount of 1000 the retry is ranked first, at the NERV it has in these traces. */
  lemma RetryIsSelected(byAction: map<ActionType, int>)
    requires byAction == map[RetryNow := 135_000, Wait := 0]
    ensures var r := Optimizer.Ranking(PLAIN_SETTING, 0, byAction);
      |r| > 0 && Policy.Candidate(r[0].action, r[0].nerv, r[0].incentive) == RETRY
  {
    RetryScores();
    Optimizer.BestIsSelected(PLAIN_SETTING, 0, byAction, RetryNow);
  }

  lemma RetryScores()
    ensures var k := Optimizer.Scored(PLAIN_SETTING, 0, RetryNow, 135_000); k.nerv == 100 && k.score == 100 && k.incentive == 0
    ensures Optimizer.Scored(PLAIN_SETTING, 0, Wait, 0).score == 0
  {
    Optimizer.WaitScoresZero(PLAIN_SETTING, 0);
    assert Money.Quo(135_000_000, 1_000_000) == 135;
  }

  /** When nothing else is eligible waiting is ranked first. */
  lemma WaitIsSelected(byAction: map<ActionType, int>)
    requires byAction == map[Wait := 0]
    ensures var r := Optimizer.Ranking(PLAIN_SETTING, 0, byAction);
      |r| > 0 && Policy.Candidate(r[0].action, r[0].nerv, r[0].incentive) == WAITING
  {
    Optimizer.WaitScoresZero(PLAIN_SETTING, 0);
    Optimizer.BestIsSelected(PLAIN_SETTING, 0, byAction, Wait);
  }
}
