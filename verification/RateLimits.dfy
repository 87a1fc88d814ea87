/**
 * The merchant's contact and retry limits, over whole traces: not only at the moment of one policy check,
 * but for everything a case ever starts.
 */
module RateLimits {
  import opened Wrappers
  import opened Domain
  import opened CaseRows
  import opened CaseSteps
  import opened Transactions
  import opened Ledgers
  import opened Sorting
  import opened Workflow
  import opened Lifecycle
  import opened Freshness
  import opened Attempts
  import opened Authorization
  import opened Discipline
  import Policy

  // ----- what was started -----

  /** The actions that ever started, in the order they were scheduled. */
  function Starts(schedules: seq<Schedule>): seq<Policy.RecentAction> {
    if schedules == [] then []
    else
      var last := schedules[|schedules| - 1];
      var rest := Starts(schedules[..|schedules| - 1]);
      if HasStarted(last) then rest + [Policy.RecentAction(last.action, last.createdAt)] else rest
  }

  /** When everything that started is done, the history is exactly what was started. */
  lemma {:induction false} PastIsStarts(schedules: seq<Schedule>)
    requires forall i :: 0 <= i < |schedules| ==> (HasStarted(schedules[i]) <==> !Planned(schedules[i]))
    ensures Past(schedules) == Starts(schedules)
  {
    if schedules != [] {
      PastIsStarts(schedules[..|schedules| - 1]);
    }
  }

  /** Only what matters to the limits: which actions started, and when they were scheduled. */
  predicate SameStarts(a: seq<Schedule>, b: seq<Schedule>) {
    |a| == |b| && forall i :: 0 <= i < |a| ==>
      a[i].action == b[i].action && a[i].createdAt == b[i].createdAt && (HasStarted(a[i]) <==> HasStarted(b[i]))
  }

  lemma {:induction false} StartsAgree(a: seq<Schedule>, b: seq<Schedule>)
    requires SameStarts(a, b)
    ensures Starts(a) == Starts(b)
  {
    if a != [] {
      StartsAgree(a[..|a| - 1], b[..|b| - 1]);
    }
  }

  // ----- counting does not depend on order -----

  /** All that the policy makes of a history. */
  datatype Tally = Tally(retries: nat, contacts: nat, lastContact: Time, lastRetry: Time)

  function TallyOf(h: seq<Policy.RecentAction>, now: Time, age: int): Tally {
    Tally(Policy.CountRetries(h), Policy.CountContacts(h, now, age), Policy.Latest(h, true), Policy.Latest(h, false))
  }

  function Join(a: Tally, b: Tally): Tally {
    Tally(a.retries + b.retries, a.contacts + b.contacts,
          if a.lastContact > b.lastContact then a.lastContact else b.lastContact,
          if a.lastRetry > b.lastRetry then a.lastRetry else b.lastRetry)
  }

  lemma TallyJoins(a: seq<Policy.RecentAction>, b: seq<Policy.RecentAction>, now: Time, age: int)
    ensures TallyOf(a + b, now, age) == Join(TallyOf(a, now, age), TallyOf(b, now, age))
  {
    Policy.HistorySplit(a, b, now, age);
  }

  lemma TallyWithout(h: seq<Policy.RecentAction>, k: nat, now: Time, age: int)
    requires k < |h|
    ensures TallyOf(h, now, age) == Join(TallyOf([h[k]], now, age), TallyOf(Without(h, k), now, age))
  {
    assert h == h[..k] + ([h[k]] + h[k + 1..]);
    TallyJoins(h[..k], h[k + 1..], now, age);
    TallyJoins([h[k]], h[k + 1..], now, age);
    TallyJoins(h[..k], [h[k]] + h[k + 1..], now, age);
  }

  lemma {:induction false} TallyPermutes(a: seq<Policy.RecentAction>, b: seq<Policy.RecentAction>, now: Time, age: int)
    requires multiset(a) == multiset(b)
    ensures TallyOf(a, now, age) == TallyOf(b, now, age)
  {
    assert |multiset(a)| == |a| && |multiset(b)| == |b|;
    if a == [] {
      assert b == [];
    } else {
      SameElements(a, b);
      assert a[0] in a;
      var k :| 0 <= k < |b| && b[k] == a[0];
      WithoutOne(a, 0);
      WithoutOne(b, k);
      TallyPermutes(Without(a, 0), Without(b, k), now, age);
      TallyWithout(a, 0, now, age);
      TallyWithout(b, k, now, age);
    }
  }

  // ----- every schedule was allowed by what had started before it -----

  /** Scheduling `s` after `earlier` respects the limits, counted at the moment `s` is scheduled. */
  predicate Allowed(earlier: seq<Schedule>, s: Schedule, limits: Policy.Limits) {
    var h := Starts(earlier);
    && (IsContact(s.action) ==>
          && Policy.CountContacts(h, s.createdAt, DAY) < limits.maxContactsPerDay
          && Policy.CountContacts(h, s.createdAt, WEEK) < limits.maxContactsPerWeek
          && !Policy.TooSoon(Policy.Latest(h, true), s.createdAt, limits))
    && (IsRetry(s.action) ==>
          && Policy.CountRetries(h) < limits.maxRetries
          && !Policy.TooSoon(Policy.Latest(h, false), s.createdAt, limits))
  }

  predicate AllAllowed(schedules: seq<Schedule>, limits: Policy.Limits) {
    forall j :: 0 <= j < |schedules| ==> Allowed(schedules[..j], schedules[j], limits)
  }

  /** Only the newest of the schedules there were may have started since, and none if one has been added. */
  predicate Steady(a: seq<Schedule>, b: seq<Schedule>) {
    && |a| <= |b| <= |a| + 1
    && forall i :: 0 <= i < |a| ==>
      && a[i].action == b[i].action && a[i].createdAt == b[i].createdAt
      && (i < |a| - 1 || |a| < |b| ==> (HasStarted(a[i]) <==> HasStarted(b[i])))
  }

  lemma StaysAllowed(a: seq<Schedule>, b: seq<Schedule>, limits: Policy.Limits)
    requires AllAllowed(a, limits) && Steady(a, b)
    requires |b| > |a| ==> Allowed(b[..|a|], b[|a|], limits)
    ensures AllAllowed(b, limits)
  {
    forall j | 0 <= j < |a| ensures Allowed(b[..j], b[j], limits) {
      assert SameStarts(a[..j], b[..j]);
      StartsAgree(a[..j], b[..j]);
      assert Allowed(a[..j], a[j], limits);
    }
  }

  /** As time passes fewer contacts are recent. */
  lemma {:induction false} ContactsAge(h: seq<Policy.RecentAction>, now: Time, later: Time, age: int)
    requires now <= later
    ensures Policy.CountContacts(h, later, age) <= Policy.CountContacts(h, now, age)
  {
    if h != [] {
      ContactsAge(h[1..], now, later, age);
    }
  }

  /** A verdict that does not deny an action, on a history that is complete, allows it to be scheduled then or later. */
  lemma VerdictAllows(c: Policy.Context, v: nat, k: Policy.Candidate, g: bool, now: Time, earlier: seq<Schedule>, s: Schedule, limits: Policy.Limits)
    requires Policy.Judge(c, v, k, g, now).Approve? || Policy.Judge(c, v, k, g, now).Escalate?
    requires multiset(c.recent) == multiset(Starts(earlier)) && c.merchant.limits == limits
    requires s.action == k.action && now <= s.createdAt
    ensures Allowed(earlier, s, limits)
  {
    var h := Starts(earlier);
    TallyPermutes(c.recent, h, now, DAY);
    TallyPermutes(c.recent, h, now, WEEK);
    assert !Policy.OverLimits(c, k, now);
    assert TallyOf(h, now, DAY) == TallyOf(c.recent, now, DAY) && TallyOf(h, now, WEEK) == TallyOf(c.recent, now, WEEK);
    ContactsAge(h, now, s.createdAt, DAY);
    ContactsAge(h, now, s.createdAt, WEEK);
  }

  // ----- limits over windows -----

  /** Contacts that started, scheduled in the window of length `span` that begins at `from`. */
  function ContactsWithin(schedules: seq<Schedule>, from: Time, span: int): nat {
    if schedules == [] then 0
    else
      var last := schedules[|schedules| - 1];
      var counted := HasStarted(last) && IsContact(last.action) && from <= last.createdAt <= from + span;
      ContactsWithin(schedules[..|schedules| - 1], from, span) + if counted then 1 else 0
  }

  /** Contacts of a window are recent at its end, and at any moment within it. */
  lemma {:induction false} WindowIsRecent(schedules: seq<Schedule>, from: Time, now: Time, age: int)
    requires now <= from + age
    ensures ContactsWithin(schedules, from, age) <= Policy.CountContacts(Starts(schedules), now, age)
  {
    if schedules != [] {
      var n := |schedules| - 1;
      var last := schedules[n];
      WindowIsRecent(schedules[..n], from, now, age);
      if HasStarted(last) {
        var entry := Policy.RecentAction(last.action, last.createdAt);
        Policy.HistorySplit(Starts(schedules[..n]), [entry], now, age);
      }
    }
  }

  lemma {:induction false} WindowLimited(schedules: seq<Schedule>, limits: Policy.Limits, from: Time, age: int, max: int)
    requires AllAllowed(schedules, limits)
    requires forall j :: 0 <= j < |schedules| && IsContact(schedules[j].action) ==> Policy.CountContacts(Starts(schedules[..j]), schedules[j].createdAt, age) < max
    ensures ContactsWithin(schedules, from, age) <= if max > 0 then max else 0
  {
    if schedules != [] {
      var n := |schedules| - 1;
      PrefixAllowed(schedules, limits, n);
      forall j | 0 <= j < n && IsContact(schedules[..n][j].action)
        ensures Policy.CountContacts(Starts(schedules[..n][..j]), schedules[..n][j].createdAt, age) < max
      {
        assert schedules[..n][..j] == schedules[..j];
      }
      WindowLimited(schedules[..n], limits, from, age, max);
      if from <= schedules[n].createdAt <= from + age {
        WindowIsRecent(schedules[..n], from, schedules[n].createdAt, age);
      }
    }
  }

  lemma PrefixAllowed(schedules: seq<Schedule>, limits: Policy.Limits, n: nat)
    requires AllAllowed(schedules, limits) && n <= |schedules|
    ensures AllAllowed(schedules[..n], limits)
  {
    forall j | 0 <= j < n ensures Allowed(schedules[..n][..j], schedules[..n][j], limits) {
      assert schedules[..n][..j] == schedules[..j];
      assert Allowed(schedules[..j], schedules[j], limits);
    }
  }

  lemma {:induction false} RetriesLimited(schedules: seq<Schedule>, limits: Policy.Limits)
    requires AllAllowed(schedules, limits)
    ensures Policy.CountRetries(Starts(schedules)) <= if limits.maxRetries > 0 then limits.maxRetries else 0
  {
    if schedules != [] {
      var n := |schedules| - 1;
      PrefixAllowed(schedules, limits, n);
      RetriesLimited(schedules[..n], limits);
      assert Allowed(schedules[..n], schedules[n], limits);
      if HasStarted(schedules[n]) {
        Policy.HistorySplit(Starts(schedules[..n]), [Policy.RecentAction(schedules[n].action, schedules[n].createdAt)], 0, 0);
      }
    }
  }

  /** A started action is among those that started. */
  lemma {:induction false} StartedIsListed(schedules: seq<Schedule>, i: nat)
    requires i < |schedules| && HasStarted(schedules[i])
    ensures Policy.RecentAction(schedules[i].action, schedules[i].createdAt) in Starts(schedules)
  {
    var n := |schedules| - 1;
    if i < n {
      StartedIsListed(schedules[..n], i);
    }
  }

  lemma Spaced(schedules: seq<Schedule>, limits: Policy.Limits, i: nat, j: nat)
    requires AllAllowed(schedules, limits) && i < j < |schedules| && HasStarted(schedules[i])
    requires (IsContact(schedules[i].action) && IsContact(schedules[j].action)) || (IsRetry(schedules[i].action) && IsRetry(schedules[j].action))
    requires schedules[i].createdAt > 0
    ensures schedules[j].createdAt - schedules[i].createdAt >= limits.minIntervalMinutes * MINUTE
  {
    var earlier := schedules[..j];
    var contact := IsContact(schedules[j].action);
    StartedIsListed(earlier, i);
    Policy.LatestIsUpperBound(Starts(earlier), contact);
    assert Allowed(earlier, schedules[j], limits);
  }

  // ----- evaluations in flight -----

  predicate AwaitsDecision(state: CaseState) {
    state.ActionPending? || state.Escalated?
  }

  /** An evaluation is what the policy says, at a time that has passed; while the case is still at the version it read, its history is complete. */
  predicate Informed(db: CaseDb, f: Flight, clock: Time, limits: Policy.Limits) {
    && f.verdict == Policy.Judge(f.context, f.version, f.candidate, f.gate.allow, f.judgedAt)
    && f.judgedAt <= clock && f.context.merchant.limits == limits
    && (f.purpose.Deciding? ==> f.gate.action == f.candidate.action)
    && (f.purpose.Approving? ==> f.purpose.about < |db.decisions| && f.candidate.action == db.decisions[f.purpose.about].gate.action)
    && (f.version == db.version && AwaitsDecision(db.state) ==> multiset(f.context.recent) == multiset(Starts(db.schedules)))
  }

  /** An operator does not approve a version the case had not reached when the approval began. */
  predicate NotAhead(db: CaseDb, f: Flight) {
    f.purpose.Approving? ==> f.purpose.expected <= db.version && (!f.stage.Begun? ==> f.purpose.expected <= f.version)
  }

  predicate FlightFit(db: CaseDb, f: Flight, clock: Time, limits: Policy.Limits) {
    && (f.stage.Judged? ==> !f.purpose.Moving? && Informed(db, f, clock, limits))
    && NotAhead(db, f)
  }

  predicate Timely(schedules: seq<Schedule>, clock: Time) {
    clock > 0 && forall i :: 0 <= i < |schedules| ==> 0 < schedules[i].createdAt <= clock
  }

  ghost predicate Limited(sys: System, limits: Policy.Limits) {
    && Governed(sys) && AllAllowed(sys.db.schedules, limits) && Timely(sys.db.schedules, sys.clock)
    && forall f :: 0 <= f < |sys.flights| ==> FlightFit(sys.db, sys.flights[f], sys.clock, limits)
  }

  /** A disciplined step, under limits that do not change, with the whole history in view of every evaluation. */
  predicate Fair(sys: System, step: Step, at: Time, limits: Policy.Limits) {
    && InTime(sys, step, at)
    && (step.Begin? && step.purpose.Approving? ==> step.purpose.expected <= sys.db.version)
    && (step.Assess? ==> step.facts.merchant.limits == limits && |Past(sys.db.schedules)| <= HISTORY_LIMIT)
  }

  // ----- what steps do to started actions -----

  /** A transaction that belongs to no run starts nothing. */
  lemma RunlessSteady(db: CaseDb, t: Txn)
    requires NoRuns(t)
    ensures Steady(db.schedules, Apply(db, t).schedules)
    ensures |Apply(db, t).schedules| == |db.schedules| ==> SameStarts(db.schedules, Apply(db, t).schedules)
  {
    IsCalm(db, t);
  }

  lemma HandlingSteady(db: CaseDb, t: Txn)
    requires t.Claim? || t.Suppress?
    ensures SameStarts(db.schedules, Apply(db, t).schedules)
  {
  }

  lemma CompletionSteady(db: CaseDb, t: Txn)
    requires t.Complete?
    ensures SameStarts(db.schedules, Apply(db, t).schedules)
  {
    if t.i < |db.schedules| {
      CompletedSchedules(db, t.i, t.claim, t.result, t.now);
    }
  }

  lemma MarkSteady(db: CaseDb, t: Txn)
    requires t.Mark? && t.i == |db.schedules| - 1
    ensures Steady(db.schedules, Apply(db, t).schedules) && |Apply(db, t).schedules| == |db.schedules|
  {
  }

  lemma TxnSteady(db: CaseDb, t: Txn)
    requires !t.Transition? && (t.Mark? ==> t.i == |db.schedules| - 1 && !AwaitsDecision(db.state))
    ensures Steady(db.schedules, Apply(db, t).schedules)
    ensures Apply(db, t).version == db.version && AwaitsDecision(db.state) ==> SameStarts(db.schedules, Apply(db, t).schedules)
  {
    if t.Claim? || t.Suppress? { HandlingSteady(db, t); }
    else if t.Complete? { CompletionSteady(db, t); }
    else if t.Mark? { MarkSteady(db, t); }
    else {
      RunlessSteady(db, t);
      Appends(db, t);
    }
  }

  /** A disciplined run that marks works on the newest schedule, and not while the case awaits a decision. */
  lemma MarkingIsTimely(sys: System, step: Step, at: Time)
    requires RunsFit(sys.db, sys.runs, sys.clock) && InTime(sys, step, at) && NoManual(sys)
    ensures TxnOf(sys, step, at).Some? && TxnOf(sys, step, at).value.Mark? ==>
              TxnOf(sys, step, at).value.i == |sys.db.schedules| - 1 && !AwaitsDecision(sys.db.state)
    ensures TxnOf(sys, step, at).Some? ==> !TxnOf(sys, step, at).value.Transition?
  {
    if step.Start? && step.r < |sys.runs| {
      assert RunFit(sys.db, sys.runs[step.r], sys.clock);
    }
  }

  /** Only the newest action is ever started, and never while the case awaits a decision. */
  lemma StepSteady(sys: System, step: Step, at: Time)
    requires RunsFit(sys.db, sys.runs, sys.clock) && InTime(sys, step, at) && NoManual(sys)
    ensures Steady(sys.db.schedules, NextDb(sys, step, at).schedules)
    ensures NextDb(sys, step, at).version == sys.db.version && AwaitsDecision(sys.db.state) ==>
              SameStarts(sys.db.schedules, NextDb(sys, step, at).schedules)
  {
    var t := TxnOf(sys, step, at);
    MarkingIsTimely(sys, step, at);
    if t.Some? {
      TxnSteady(sys.db, t.value);
    }
  }

  // ----- flights stay informed -----

  lemma SameVersionSameState(sys: System, step: Step, at: Time)
    requires Lawful(sys)
    ensures NextDb(sys, step, at).version >= sys.db.version
    ensures NextDb(sys, step, at).version == sys.db.version ==> NextDb(sys, step, at).state == sys.db.state
    ensures sys.db.decisions <= NextDb(sys, step, at).decisions
  {
    var t := TxnOf(sys, step, at);
    if t.Some? {
      StepsAreLegal(sys, step, at);
      Moves(sys.db, t.value);
      Archives(sys.db, t.value);
    }
  }

  lemma WaitingFlightStaysFit(sys: System, step: Step, at: Time, f: nat, limits: Policy.Limits)
    requires Limited(sys, limits) && Fair(sys, step, at, limits) && f < |sys.flights|
    ensures FlightFit(NextDb(sys, step, at), sys.flights[f], at, limits)
  {
    var flight, db := sys.flights[f], NextDb(sys, step, at);
    assert FlightFit(sys.db, flight, sys.clock, limits);
    SameVersionSameState(sys, step, at);
    if flight.stage.Judged? && flight.version == db.version && AwaitsDecision(db.state) {
      VersionDeterminesState(sys, f);
      StepSteady(sys, step, at);
      StartsAgree(sys.db.schedules, db.schedules);
    }
  }

  /** An evaluation of a case that awaits a decision sees every action that has started. */
  lemma AssessmentIsInformed(sys: System, f: nat, facts: Policy.Context, candidate: Policy.Candidate, threshold: int, at: Time, limits: Policy.Limits)
    requires Limited(sys, limits) && f < |sys.flights| && sys.clock <= at
    requires facts.merchant.limits == limits && |Past(sys.db.schedules)| <= HISTORY_LIMIT
    ensures FlightFit(sys.db, Evaluated(sys.db, sys.flights[f], facts, candidate, threshold, at), at, limits)
  {
    assert FlightFit(sys.db, sys.flights[f], sys.clock, limits);
    if sys.flights[f].stage.Looked? && !sys.flights[f].purpose.Moving? {
      if AwaitsDecision(sys.db.state) {
        PastIsStarts(sys.db.schedules);
      }
      EvaluationIsInformed(sys.db, sys.flights[f], facts, candidate, threshold, at, limits);
    }
  }

  lemma EvaluationIsInformed(db: CaseDb, f: Flight, facts: Policy.Context, candidate: Policy.Candidate, threshold: int, at: Time, limits: Policy.Limits)
    requires f.stage.Looked? && facts.merchant.limits == limits
    requires AwaitsDecision(db.state) ==> multiset(RecentHistory(db.schedules)) == multiset(Starts(db.schedules))
    ensures var g := Evaluated(db, f, facts, candidate, threshold, at); g.stage.Judged? ==> Informed(db, g, at, limits)
  {
  }

  lemma FlightsStayFit(sys: System, step: Step, at: Time, limits: Policy.Limits)
    requires Limited(sys, limits) && Fair(sys, step, at, limits)
    ensures forall f :: 0 <= f < |NextFlights(sys, step, at)| ==> FlightFit(NextDb(sys, step, at), NextFlights(sys, step, at)[f], at, limits)
  {
    var flights, db := NextFlights(sys, step, at), NextDb(sys, step, at);
    SameVersionSameState(sys, step, at);
    forall f | 0 <= f < |flights| ensures FlightFit(db, flights[f], at, limits) {
      if f < |sys.flights| {
        WaitingFlightStaysFit(sys, step, at, f, limits);
        if step.Assess? && step.f == f {
          AssessmentIsInformed(sys, f, step.facts, step.candidate, step.threshold, at, limits);
        }
      }
    }
  }

  // ----- what gets scheduled was allowed -----

  lemma SaveAppends(db: CaseDb, s: Snapshot, now: Time)
    ensures var after := Apply(db, Save(s, now));
      |after.schedules| > |db.schedules| ==>
        && db.state.ActionPending? && db.version == s.caseVersion && s.verdict.Approve?
        && after.schedules[..|db.schedules|] == db.schedules && |after.schedules| == |db.schedules| + 1
        && after.schedules[|db.schedules|].action == s.gate.action && after.schedules[|db.schedules|].createdAt == now
  {
  }

  lemma DecideAppends(db: CaseDb, command: ReviewCommand, policyVersion: int, now: Time)
    ensures var after := Apply(db, Decide(command, policyVersion, now));
      |after.schedules| > |db.schedules| ==>
        && db.state.Escalated? && db.version == command.expected && (command.verdict.Approve? || command.verdict.Escalate?)
        && command.decision.ReviewApprove? && command.about < |db.decisions|
        && after.schedules[..|db.schedules|] == db.schedules && |after.schedules| == |db.schedules| + 1
        && after.schedules[|db.schedules|].action == db.decisions[command.about].gate.action
        && after.schedules[|db.schedules|].createdAt == now
  {
  }

  /** Nothing but the landing of an evaluation adds a schedule. */
  lemma OnlyLandingsSchedule(sys: System, step: Step, at: Time)
    requires !step.Land?
    ensures |NextDb(sys, step, at).schedules| == |sys.db.schedules|
  {
    var t := TxnOf(sys, step, at);
    if t.Some? {
      NoLandingTxn(sys, step, at);
      if t.value.Decide? { DecideAppends(sys.db, t.value.command, t.value.policyVersion, t.value.now); }
      Scheduling(sys.db, t.value);
    }
  }

  lemma NoLandingTxn(sys: System, step: Step, at: Time)
    requires !step.Land?
    ensures var t := TxnOf(sys, step, at); t.Some? ==> !t.value.Save? && (t.value.Decide? ==> External(t.value))
  {
  }

  lemma Scheduling(db: CaseDb, t: Txn)
    ensures |Apply(db, t).schedules| >= |db.schedules|
    ensures !t.Save? && !t.Decide? ==> |Apply(db, t).schedules| == |db.schedules|
  {
    Frame(db, t);
    if t.Claim? || t.Suppress? { HandlingSteady(db, t); }
    else if t.Complete? { CompletionSteady(db, t); }
    else if NoRuns(t) { RunlessSteady(db, t); }
  }

  lemma LandingIsAllowed(sys: System, step: Step, at: Time, limits: Policy.Limits)
    requires Limited(sys, limits) && Fair(sys, step, at, limits) && step.Land?
    requires |NextDb(sys, step, at).schedules| > |sys.db.schedules|
    ensures var n, b := |sys.db.schedules|, NextDb(sys, step, at).schedules;
      |b| == n + 1 && b[..n] == sys.db.schedules && b[n].createdAt == at && Allowed(b[..n], b[n], limits)
  {
    var f := sys.flights[step.f];
    assert FlightFit(sys.db, f, sys.clock, limits);
    VersionDeterminesState(sys, step.f);
    if f.purpose.Deciding? {
      SaveAppends(sys.db, SnapshotOf(f), at);
    } else {
      assert !f.purpose.Moving?;
      DecideAppends(sys.db, CommandOf(f), step.policyVersion, at);
    }
    var n, b := |sys.db.schedules|, NextDb(sys, step, at).schedules;
    VerdictAllows(f.context, f.version, f.candidate, f.gate.allow, f.judgedAt, sys.db.schedules, b[n], limits);
  }

  /** Whatever a step adds to the schedules was allowed, and scheduled now. */
  lemma AdditionIsAllowed(sys: System, step: Step, at: Time, limits: Policy.Limits)
    requires Limited(sys, limits) && Fair(sys, step, at, limits)
    requires |NextDb(sys, step, at).schedules| > |sys.db.schedules|
    ensures var n, b := |sys.db.schedules|, NextDb(sys, step, at).schedules;
      |b| == n + 1 && b[n].createdAt == at && Allowed(b[..n], b[n], limits)
  {
    if !step.Land? {
      OnlyLandingsSchedule(sys, step, at);
    }
    LandingIsAllowed(sys, step, at, limits);
  }

  lemma StaysTimely(a: seq<Schedule>, b: seq<Schedule>, before: Time, at: Time)
    requires Timely(a, before) && Steady(a, b) && before <= at && (|b| > |a| ==> b[|a|].createdAt == at)
    ensures Timely(b, at)
  {
  }

  lemma StaysLimited(sys: System, step: Step, at: Time, limits: Policy.Limits)
    requires Limited(sys, limits) && Fair(sys, step, at, limits)
    ensures Limited(Next(sys, step, at), limits)
  {
    var a, b := sys.db.schedules, NextDb(sys, step, at).schedules;
    StaysGoverned(sys, step, at);
    FlightsStayFit(sys, step, at, limits);
    StepSteady(sys, step, at);
    if |b| > |a| {
      AdditionIsAllowed(sys, step, at, limits);
    }
    StaysAllowed(a, b, limits);
    StaysTimely(a, b, sys.clock, at);
  }

  // ----- whole traces -----

  /** Every step of the trace is disciplined in the state in which it is taken. */
  predicate FairTrace(sys: System, trace: seq<Timed>, limits: Policy.Limits) {
    trace == [] ||
    var n := |trace| - 1;
    FairTrace(sys, trace[..n], limits) && Fair(Reach(sys, trace[..n]), trace[n].step, trace[n].at, limits)
  }

  lemma {:induction false} LimitedForever(sys: System, trace: seq<Timed>, limits: Policy.Limits)
    requires Limited(sys, limits) && FairTrace(sys, trace, limits)
    ensures Limited(Reach(sys, trace), limits)
  {
    if trace != [] {
      var n := |trace| - 1;
      LimitedForever(sys, trace[..n], limits);
      StaysLimited(Reach(sys, trace[..n]), trace[n].step, trace[n].at, limits);
    }
  }

  function AtLeastZero(n: int): nat {
    if n < 0 then 0 else n
  }

  predicate BothContact(a: Schedule, b: Schedule) {
    IsContact(a.action) && IsContact(b.action)
  }

  predicate BothRetry(a: Schedule, b: Schedule) {
    IsRetry(a.action) && IsRetry(b.action)
  }

  /**
   * Among the actions that ever started: any 24 hours hold at most the daily number of contacts and any 7
   * days the weekly number, two contacts, or two retries, are at least the minimum interval apart, and
   * there are at most the maximum number of retries in all.
   */
  ghost predicate LimitsKept(s: seq<Schedule>, limits: Policy.Limits) {
    && (forall from: Time :: ContactsWithin(s, from, DAY) <= AtLeastZero(limits.maxContactsPerDay))
    && (forall from: Time :: ContactsWithin(s, from, WEEK) <= AtLeastZero(limits.maxContactsPerWeek))
    && (forall i, j :: 0 <= i < j < |s| && HasStarted(s[i]) && HasStarted(s[j]) && (BothContact(s[i], s[j]) || BothRetry(s[i], s[j]))
          ==> s[j].createdAt - s[i].createdAt >= limits.minIntervalMinutes * MINUTE)
    && Policy.CountRetries(Starts(s)) <= AtLeastZero(limits.maxRetries)
  }

  lemma AllowedKeepsLimits(s: seq<Schedule>, limits: Policy.Limits, clock: Time)
    requires AllAllowed(s, limits) && Timely(s, clock)
    ensures LimitsKept(s, limits)
  {
    DayAndWeekLimited(s, limits);
    forall i, j | 0 <= i < j < |s| && HasStarted(s[i]) && HasStarted(s[j]) && (BothContact(s[i], s[j]) || BothRetry(s[i], s[j]))
      ensures s[j].createdAt - s[i].createdAt >= limits.minIntervalMinutes * MINUTE
    {
      Spaced(s, limits, i, j);
    }
    RetriesLimited(s, limits);
  }

  lemma DayAndWeekLimited(s: seq<Schedule>, limits: Policy.Limits)
    requires AllAllowed(s, limits)
    ensures forall from: Time :: ContactsWithin(s, from, DAY) <= AtLeastZero(limits.maxContactsPerDay)
    ensures forall from: Time :: ContactsWithin(s, from, WEEK) <= AtLeastZero(limits.maxContactsPerWeek)
  {
    forall j | 0 <= j < |s| ensures Allowed(s[..j], s[j], limits) {
    }
    forall from: Time ensures ContactsWithin(s, from, DAY) <= AtLeastZero(limits.maxContactsPerDay) {
      WindowLimited(s, limits, from, DAY, limits.maxContactsPerDay);
    }
    forall from: Time ensures ContactsWithin(s, from, WEEK) <= AtLeastZero(limits.maxContactsPerWeek) {
      WindowLimited(s, limits, from, WEEK, limits.maxContactsPerWeek);
    }
  }

  lemma StartsLimited(deadline: Time, clock: Time, limits: Policy.Limits)
    requires clock > 0
    ensures Limited(Initial(deadline, clock), limits)
  {
    StartsGoverned(deadline, clock);
    NothingScheduled(Initial(deadline, clock).db.schedules, clock, limits);
  }

  lemma NothingScheduled(schedules: seq<Schedule>, clock: Time, limits: Policy.Limits)
    requires schedules == [] && clock > 0
    ensures AllAllowed(schedules, limits) && Timely(schedules, clock)
  {
  }

  /** Over a disciplined trace, every limit is kept in every state. */
  lemma RateLimitsHold(deadline: Time, clock: Time, trace: seq<Timed>, limits: Policy.Limits)
    requires clock > 0 && FairTrace(Initial(deadline, clock), trace, limits)
    ensures LimitsKept(Reach(Initial(deadline, clock), trace).db.schedules, limits)
  {
    StartsLimited(deadline, clock, limits);
    LimitedForever(Initial(deadline, clock), trace, limits);
    var end := Reach(Initial(deadline, clock), trace);
    AllowedKeepsLimits(end.db.schedules, limits, end.clock);
  }
}
