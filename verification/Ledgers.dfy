/**
 * What every transaction keeps in the other tables of a case: the numbering of the event log, the
 * attribution ledger, the version stamps, the promises with their checks, and one execution per attempt.
 */
module Ledgers {
  import opened Wrappers
  import opened Domain
  import opened CaseRows
  import opened CaseSteps
  import opened Transactions
  import AttributionRules

  // ----- the event log -----

  /** Events are numbered 1..n, in order, without gap or repeat. */
  predicate WellNumbered(events: seq<Event>) {
    forall k :: 0 <= k < |events| ==> events[k].sequence == k + 1
  }

  lemma {:induction false} MaxOfNumbered(events: seq<Event>)
    requires WellNumbered(events)
    ensures MaxSequence(events) == |events|
  {
    if events != [] {
      MaxOfNumbered(events[..|events| - 1]);
    }
  }

  lemma AppendedNumbers(events: seq<Event>)
    requires WellNumbered(events)
    ensures forall kinds :: WellNumbered(Appended(events, kinds)) && events <= Appended(events, kinds)
  {
    MaxOfNumbered(events);
  }

  predicate LogGrew(before: seq<Event>, after: seq<Event>) {
    WellNumbered(after) && before <= after
  }

  lemma HandlingEvents(db: CaseDb, t: Txn)
    requires WellNumbered(db.events) && (t.Claim? || t.Mark? || t.Suppress? || t.ClaimObservation?)
    ensures LogGrew(db.events, Apply(db, t).events)
  {
    AppendedNumbers(db.events);
  }

  lemma OutcomeEvents(db: CaseDb, t: Txn)
    requires WellNumbered(db.events) && (t.Complete? || t.Reassess?)
    ensures LogGrew(db.events, Apply(db, t).events)
  {
    AppendedNumbers(db.events);
  }

  lemma OutsideEvents(db: CaseDb, t: Txn)
    requires WellNumbered(db.events) && (t.Prepare? || t.Promised? || t.ClaimCheck? || t.Respond? || t.Transition? || t.Append?)
    ensures LogGrew(db.events, Apply(db, t).events)
  {
    AppendedNumbers(db.events);
  }

  lemma ReviewLogged(db: CaseDb, t: Txn)
    requires WellNumbered(db.events) && t.Decide?
    ensures LogGrew(db.events, Apply(db, t).events)
  {
    AppendedNumbers(db.events);
  }

  lemma CancelEvents(db: CaseDb, t: Txn)
    requires WellNumbered(db.events) && t.Cancel?
    ensures LogGrew(db.events, Apply(db, t).events)
  {
    AppendedNumbers(db.events);
  }

  lemma ResolveEvents(db: CaseDb, t: Txn)
    requires WellNumbered(db.events) && t.Resolve?
    ensures LogGrew(db.events, Apply(db, t).events)
  {
    AppendedNumbers(db.events);
    AppendedNumbers(Appended(db.events, [PromiseOutcomeEvent(PromiseVerdict(db, t.forced, t.now))]));
  }

  lemma PaymentEvents(db: CaseDb, t: Txn)
    requires WellNumbered(db.events) && t.Attribute?
    ensures LogGrew(db.events, Apply(db, t).events)
  {
    var tx := AttributeRecovery(db, t.reference, t.amount, t.now, t.correlation);
    if tx.Commit? && tx.value {
      KeepingEvents(db, t);
    }
  }

  lemma KeepingEvents(db: CaseDb, t: Txn)
    requires WellNumbered(db.events) && t.Attribute? && AttributionRules.Cascade(db, t.reference, t.now).Some?
    ensures var tx := AttributeRecovery(db, t.reference, t.amount, t.now, t.correlation);
      tx.Commit? && tx.value ==> LogGrew(db.events, tx.rows.events)
  {
    var found := AttributionRules.Cascade(db, t.reference, t.now).value;
    var row := AttributionRow(db, found, t.reference, t.amount, t.now);
    var kept := KeepPromise(db.(attributions := db.attributions + [row]), found, t.correlation);
    KeepPromiseLogs(db.(attributions := db.attributions + [row]), found, t.correlation);
    if kept.Commit? {
      AppendedNumbers(kept.rows.events);
    }
  }

  lemma KeepPromiseLogs(db: CaseDb, found: AttributionRules.Finding, correlation: Correlation)
    requires WellNumbered(db.events)
    ensures LogGrew(db.events, After(db, KeepPromise(db, found, correlation)).events)
  {
    AppendedNumbers(db.events);
  }

  lemma SaveEvents(db: CaseDb, t: Txn)
    requires WellNumbered(db.events) && t.Save?
    ensures LogGrew(db.events, Apply(db, t).events)
  {
    AppendedNumbers(db.events);
    AppendedNumbers(Appended(db.events, DecisionEvents(t.snapshot)));
  }

  /** However many events a transaction appends, in however many blocks. */
  lemma EventsStayNumbered(db: CaseDb, t: Txn)
    requires WellNumbered(db.events)
    ensures LogGrew(db.events, Apply(db, t).events)
  {
    if t.Resolve? { ResolveEvents(db, t); }
    else if t.Attribute? { PaymentEvents(db, t); }
    else if t.Save? { SaveEvents(db, t); }
    else if t.Cancel? { CancelEvents(db, t); }
    else if t.Decide? { ReviewLogged(db, t); }
    else if t.Complete? || t.Reassess? { OutcomeEvents(db, t); }
    else if t.Claim? || t.Mark? || t.Suppress? || t.ClaimObservation? { HandlingEvents(db, t); }
    else { OutsideEvents(db, t); }
  }

  // ----- which transaction writes which table -----

  predicate WritesSchedules(t: Txn) {
    t.Save? || t.Claim? || t.Mark? || t.Complete? || t.Suppress? || t.ClaimObservation? || t.Reassess? || t.Decide?
  }

  predicate WritesPromises(t: Txn) {
    t.Promised? || t.ClaimCheck? || t.Resolve? || t.Cancel? || t.Attribute?
  }

  predicate Framed(db: CaseDb, t: Txn, after: CaseDb) {
    && (!t.Attribute? ==> after.attributions == db.attributions && after.recovered == db.recovered)
    && (!WritesSchedules(t) ==> after.schedules == db.schedules)
    && (!WritesPromises(t) ==> after.promises == db.promises && after.promiseEvents == db.promiseEvents)
    && (!t.Complete? ==> after.executions == db.executions)
    && (!t.Save? ==> after.decisions == db.decisions)
    && (!t.Save? && !t.Decide? ==> after.policies == db.policies)
    && (!t.Decide? ==> after.reviews == db.reviews)
  }

  lemma ReassessmentFrame(db: CaseDb, t: Txn)
    requires t.Reassess?
    ensures Framed(db, t, Apply(db, t))
  {
  }

  lemma WorkerFrame(db: CaseDb, t: Txn)
    requires t.Claim? || t.Mark? || t.Suppress? || t.ClaimObservation?
    ensures Framed(db, t, Apply(db, t))
  {
  }

  lemma CompletionFrame(db: CaseDb, t: Txn)
    requires t.Complete?
    ensures Framed(db, t, Apply(db, t))
  {
  }

  lemma DecisionFrame(db: CaseDb, t: Txn)
    requires t.Prepare? || t.Save?
    ensures Framed(db, t, Apply(db, t))
  {
  }

  lemma ReviewFrame(db: CaseDb, t: Txn)
    requires t.Decide?
    ensures Framed(db, t, Apply(db, t))
  {
  }

  lemma PromiseFrame(db: CaseDb, t: Txn)
    requires t.Promised? || t.ClaimCheck? || t.Cancel?
    ensures Framed(db, t, Apply(db, t))
  {
  }

  lemma PaymentFrame(db: CaseDb, t: Txn)
    requires t.Attribute?
    ensures Framed(db, t, Apply(db, t))
  {
  }

  lemma ResolveFrame(db: CaseDb, t: Txn)
    requires t.Resolve?
    ensures Framed(db, t, Apply(db, t))
  {
  }

  lemma Frame(db: CaseDb, t: Txn)
    ensures Framed(db, t, Apply(db, t))
  {
    if t.Attribute? { PaymentFrame(db, t); }
    else if t.Resolve? { ResolveFrame(db, t); }
    else if WritesPromises(t) { PromiseFrame(db, t); }
    else if t.Prepare? || t.Save? { DecisionFrame(db, t); }
    else if t.Decide? { ReviewFrame(db, t); }
    else if t.Complete? { CompletionFrame(db, t); }
    else if t.Reassess? { ReassessmentFrame(db, t); }
    else if WritesSchedules(t) { WorkerFrame(db, t); }
  }

  // ----- attributions -----

  function Total(attributions: seq<Attribution>): int {
    if attributions == [] then 0 else Total(attributions[..|attributions| - 1]) + attributions[|attributions| - 1].amount
  }

  /** At most one attribution, only on a RECOVERED case, and the recovered amount is exactly what was attributed. */
  predicate Accounted(db: CaseDb) {
    |db.attributions| <= 1 && (db.attributions != [] ==> db.state.Recovered?) && db.recovered == Total(db.attributions)
  }

  lemma AttributionAccounts(db: CaseDb, t: Txn)
    requires Accounted(db) && t.Attribute?
    ensures Accounted(Apply(db, t))
  {
    var tx := AttributeRecovery(db, t.reference, t.amount, t.now, t.correlation);
    if tx.Commit? {
      assert db.attributions == [];
      assert |tx.rows.attributions| == 1;
      assert tx.rows.attributions[..0] == [];
      assert Total(tx.rows.attributions) == tx.rows.attributions[0].amount;
    }
  }

  /** The step that finds the payment already attributed and returns it can never be taken. */
  lemma ExistingAttributionIsUnreachable(db: CaseDb, reference: string, amount: int, now: Time, correlation: Correlation)
    requires Accounted(db)
    ensures AttributeRecovery(db, reference, amount, now, correlation).Commit? ==> AttributeRecovery(db, reference, amount, now, correlation).value
  {
  }

  predicate LegalMove(db: CaseDb, t: Txn) {
    t.Transition? && t.expected == db.version ==> CanTransition(db.state, t.to)
  }

  /** The path of a transaction follows the table, except that an attribution may jump to RECOVERED. */
  lemma Moves(db: CaseDb, t: Txn)
    requires LegalMove(db, t)
    ensures Moved(db, Apply(db, t), Path(db, t))
    ensures Legal(db.state, Path(db, t)) || (t.Attribute? && !IsTerminal(db.state) && Path(db, t) == [Recovered])
  {
    if t.Prepare? || t.Save? { DecidingMoves(db, t); }
    else if t.Attribute? { AttributionMoves(db, t); }
    else if WritesPromises(t) { PromiseMoves(db, t); }
    else if WritesSchedules(t) && !t.Decide? { ExecutingMoves(db, t); }
    else { OutsideMoves(db, t); }
  }

  lemma StaysAccounted(db: CaseDb, t: Txn)
    requires Accounted(db) && LegalMove(db, t)
    ensures Accounted(Apply(db, t))
  {
    Frame(db, t);
    if t.Attribute? {
      AttributionAccounts(db, t);
    } else {
      TerminalIsAbsorbing(db, t);
    }
  }

  /** No transaction moves a case out of a terminal state. */
  lemma TerminalIsAbsorbing(db: CaseDb, t: Txn)
    requires LegalMove(db, t)
    ensures IsTerminal(db.state) ==> Apply(db, t).state == db.state && Apply(db, t).version == db.version && Apply(db, t).trail == db.trail
  {
    Moves(db, t);
    if IsTerminal(db.state) {
      NoPathFromTerminal(db.state, Path(db, t));
    }
  }

  lemma NoPathFromTerminal(from: CaseState, path: seq<CaseState>)
    requires IsTerminal(from) && Legal(from, path)
    ensures path == []
  {
    TerminalIffNoTargets(from);
    assert forall to :: !CanTransition(from, to);
  }

  // ----- the trail of states -----

  /** A step of the trail: an edge of the table, or the jump of an attribution. */
  predicate Edge(from: CaseState, to: CaseState) {
    CanTransition(from, to) || (to.Recovered? && !IsTerminal(from))
  }

  predicate Walk(trail: seq<CaseState>) {
    forall k :: 1 <= k < |trail| ==> Edge(trail[k - 1], trail[k])
  }

  /** The version counts the states the case has been in, so (case, version) determines the state. */
  predicate Trailed(db: CaseDb) {
    1 <= db.version == |db.trail| && db.trail[db.version - 1] == db.state && db.trail[0] == Detected && Walk(db.trail)
  }

  lemma WalkExtends(trail: seq<CaseState>, path: seq<CaseState>)
    requires trail != [] && Walk(trail)
    requires Legal(trail[|trail| - 1], path) || (!IsTerminal(trail[|trail| - 1]) && path == [Recovered])
    ensures Walk(trail + path)
  {
    var longer := trail + path;
    forall k | 1 <= k < |longer| ensures Edge(longer[k - 1], longer[k]) {
      if k >= |trail| {
        assert longer[k] == path[k - |trail|];
      }
    }
  }

  lemma StaysTrailed(db: CaseDb, t: Txn)
    requires Trailed(db) && LegalMove(db, t)
    ensures Trailed(Apply(db, t)) && db.trail <= Apply(db, t).trail
  {
    Moves(db, t);
    WalkExtends(db.trail, Path(db, t));
  }

  // ----- the version stamps of schedules -----

  /** Stamps are versions the case has had, and no two schedules carry the same one. */
  predicate Stamped(schedules: seq<Schedule>, version: nat) {
    && (forall i :: 0 <= i < |schedules| ==> 1 <= schedules[i].stamp <= version)
    && forall i, j :: 0 <= i < j < |schedules| ==> schedules[i].stamp != schedules[j].stamp
  }

  predicate SameStamps(a: seq<Schedule>, b: seq<Schedule>) {
    |a| == |b| && forall i :: 0 <= i < |a| ==> a[i].stamp == b[i].stamp
  }

  /** One schedule, old or new, has been stamped with the current version; no other stamp has changed. */
  predicate Restamped(a: seq<Schedule>, b: seq<Schedule>, i: nat, version: nat) {
    && i < |b| && |b| == (if i == |a| then |a| + 1 else |a|) && b[i].stamp == version
    && forall k :: 0 <= k < |a| && k != i ==> b[k].stamp == a[k].stamp
  }

  lemma KeepsStamps(db: CaseDb, t: Txn)
    requires t.Claim? || t.Suppress? || t.ClaimObservation? || t.Reassess?
    ensures SameStamps(db.schedules, Apply(db, t).schedules)
  {
  }

  lemma CompletionKeepsStamps(db: CaseDb, t: Txn)
    requires t.Complete?
    ensures SameStamps(db.schedules, Apply(db, t).schedules)
  {
  }

  lemma StampsOnce(db: CaseDb, t: Txn) returns (i: nat)
    requires t.Mark? || t.Save? || t.Decide?
    ensures SameStamps(db.schedules, Apply(db, t).schedules)
         || (Apply(db, t).version > db.version && Restamped(db.schedules, Apply(db, t).schedules, i, Apply(db, t).version))
  {
    i := if t.Mark? then t.i else |db.schedules|;
  }

  /** Whatever workers, operators and payments do, in whatever order, at most one schedule is fresh. */
  lemma StaysStamped(db: CaseDb, t: Txn)
    requires Stamped(db.schedules, db.version) && LegalMove(db, t)
    ensures Stamped(Apply(db, t).schedules, Apply(db, t).version)
  {
    Moves(db, t);
    Frame(db, t);
    if t.Mark? || t.Save? || t.Decide? {
      var i := StampsOnce(db, t);
    } else if t.Complete? {
      CompletionKeepsStamps(db, t);
    } else if WritesSchedules(t) {
      KeepsStamps(db, t);
    }
  }

  // ----- one execution per attempt -----

  predicate OnePerAttempt(executions: seq<Execution>) {
    forall j, k :: 0 <= j < k < |executions| ==>
      executions[j].schedule != executions[k].schedule || executions[j].attempt != executions[k].attempt
  }

  lemma StaysOnePerAttempt(db: CaseDb, t: Txn)
    requires OnePerAttempt(db.executions)
    ensures OnePerAttempt(Apply(db, t).executions) && db.executions <= Apply(db, t).executions
  {
    Frame(db, t);
    if t.Complete? {
      CompletionRecords(db, t.i, t.claim, t.result, t.now);
    }
  }

  lemma CompletionRecords(db: CaseDb, i: nat, claim: Schedule, result: ProviderResult, now: Time)
    ensures After(db, CompleteExecution(db, i, claim, result, now)).executions
         == if i < |db.schedules| then RecordExecution(db, i, claim, result, now).executions else db.executions
  {
  }

  // ----- promises -----

  /** The resolutions of promise `p` in the promise log. */
  function Resolutions(events: seq<PromiseEvent>, p: nat): nat {
    if events == [] then 0
    else
      var last := events[|events| - 1];
      Resolutions(events[..|events| - 1], p) + if last.promise == p && last.from.Some? then 1 else 0
  }

  /** An ACTIVE promise has an open check and no resolution, any other exactly one resolution; at most one is ACTIVE. */
  predicate PromisesKept(promises: seq<Promise>, events: seq<PromiseEvent>) {
    && (forall p :: 0 <= p < |promises| ==> Resolutions(events, p) == if promises[p].status.Active? then 0 else 1)
    && (forall p :: 0 <= p < |promises| && promises[p].status.Active? ==> OpenCheck(promises[p]))
    && (forall p :: 0 <= p < |promises| && promises[p].check.CheckClaimed? ==> promises[p].checkLease.Some?)
    && (forall p, q :: 0 <= p < q < |promises| ==> !(promises[p].status.Active? && promises[q].status.Active?))
    && (forall k :: 0 <= k < |events| ==> events[k].promise < |promises|)
  }

  lemma ResolutionsStep(events: seq<PromiseEvent>, e: PromiseEvent)
    ensures forall p :: Resolutions(events + [e], p) == Resolutions(events, p) + if e.promise == p && e.from.Some? then 1 else 0
  {
    assert (events + [e])[..|events|] == events;
  }

  lemma {:induction false} NoResolutions(events: seq<PromiseEvent>, p: nat)
    requires forall k :: 0 <= k < |events| ==> events[k].promise < p
    ensures Resolutions(events, p) == 0
  {
    if events != [] {
      NoResolutions(events[..|events| - 1], p);
    }
  }

  predicate Kept(db: CaseDb) {
    PromisesKept(db.promises, db.promiseEvents)
  }

  lemma TransitionKeeps(db: CaseDb, p: nat, target: PromiseStatus, correlation: Correlation)
    requires Kept(db)
    ensures Kept(After(db, TransitionPromise(db, p, target, correlation)))
  {
    var tx := TransitionPromise(db, p, target, correlation);
    if tx.Commit? {
      ResolutionKeeps(db.promises, db.promiseEvents, p, target, correlation);
    }
  }

  lemma ResolutionKeeps(promises: seq<Promise>, events: seq<PromiseEvent>, p: nat, target: PromiseStatus, correlation: Correlation)
    requires PromisesKept(promises, events) && p < |promises| && promises[p].status.Active? && !target.Active?
    ensures PromisesKept(promises[p := promises[p].(status := target)], events + [PromiseEvent(p, Some(Active), target, correlation)])
  {
    var event := PromiseEvent(p, Some(Active), target, correlation);
    var after, log := promises[p := promises[p].(status := target)], events + [event];
    ResolutionsStep(events, event);
    forall q | 0 <= q < |after| ensures Resolutions(log, q) == if after[q].status.Active? then 0 else 1 {
      assert Resolutions(events, q) == if promises[q].status.Active? then 0 else 1;
    }
  }

  lemma CreateKeeps(db: CaseDb, due: Time, source: Option<string>, correlation: Correlation)
    requires Kept(db)
    ensures Kept(After(db, CreatePromise(db, due, source, correlation)))
  {
    var tx := CreatePromise(db, due, source, correlation);
    if tx.Commit? && tx.value.1 {
      CreationKeeps(db.promises, db.promiseEvents, due, source, correlation);
    }
  }

  lemma CreationKeeps(promises: seq<Promise>, events: seq<PromiseEvent>, due: Time, source: Option<string>, correlation: Correlation)
    requires PromisesKept(promises, events) && forall p :: 0 <= p < |promises| ==> !promises[p].status.Active?
    ensures PromisesKept(promises + [Promise(Active, due, source, CheckPending, None)], events + [PromiseEvent(|promises|, None, Active, correlation)])
  {
    ResolutionsStep(events, PromiseEvent(|promises|, None, Active, correlation));
    NoResolutions(events, |promises|);
  }

  lemma ResolveKeeps(db: CaseDb, p: nat, forced: Option<PromiseStatus>, now: Time)
    requires Kept(db)
    ensures Kept(After(db, ResolvePromise(db, p, forced, now)))
  {
    var target := PromiseVerdict(db, forced, now);
    var moved := TransitionPromise(db, p, target, OfCheck(p));
    TransitionKeeps(db, p, target, OfCheck(p));
    if moved.Commit? {
      CloseKeeps(moved.rows, p, CheckCompleted);
    }
  }

  lemma CloseKeeps(db: CaseDb, p: nat, status: CheckStatus)
    requires Kept(db) && p < |db.promises| && !db.promises[p].status.Active? && !status.CheckClaimed?
    ensures Kept(CloseCheck(db, p, status))
  {
  }

  lemma CancelKeeps(db: CaseDb, p: nat, correlation: Correlation)
    requires Kept(db)
    ensures Kept(After(db, CancelPromise(db, p, correlation)))
  {
    TransitionKeeps(db, p, Cancelled, correlation);
  }

  lemma KeepingKeeps(db: CaseDb, found: AttributionRules.Finding, correlation: Correlation)
    requires Kept(db)
    ensures Kept(After(db, KeepPromise(db, found, correlation)))
  {
    if found.promise.Some? {
      TransitionKeeps(db, found.promise.value, Fulfilled, correlation);
    }
  }

  lemma PaymentKeeps(db: CaseDb, t: Txn)
    requires Kept(db) && t.Attribute?
    ensures Kept(Apply(db, t))
  {
    var found := AttributionRules.Cascade(db, t.reference, t.now);
    if found.Some? {
      var row := AttributionRow(db, found.value, t.reference, t.amount, t.now);
      KeepingKeeps(db.(attributions := db.attributions + [row]), found.value, t.correlation);
    }
  }

  /** A promise leaves ACTIVE at most once, and while ACTIVE its check can still be claimed. */
  lemma PromisesStayKept(db: CaseDb, t: Txn)
    requires Kept(db)
    ensures Kept(Apply(db, t))
  {
    Frame(db, t);
    match t
    case Promised(due, source, correlation) => CreateKeeps(db, due, source, correlation);
    case Resolve(p, forced, now) => ResolveKeeps(db, p, forced, now);
    case Cancel(p, correlation) => CancelKeeps(db, p, correlation);
    case Attribute(_, _, _, _) => PaymentKeeps(db, t);
    case _ => assert t.ClaimCheck? || !WritesPromises(t);
  }

  /** A resolved promise never changes again, whatever is done to it. */
  lemma ResolvedStaysResolved(db: CaseDb, t: Txn, p: nat)
    requires p < |db.promises| && !db.promises[p].status.Active?
    ensures ResolvedStill(db.promises, Apply(db, t).promises, p)
  {
    if t.Attribute? { PaymentKeepsResolved(db, t, p); }
    else if t.Resolve? { ResolutionKeepsResolved(db, t, p); }
    else if WritesPromises(t) { OtherKeepsResolved(db, t, p); }
    else { Frame(db, t); }
  }

  predicate ResolvedStill(before: seq<Promise>, after: seq<Promise>, p: nat)
    requires p < |before|
  {
    p < |after| && after[p].status == before[p].status
  }

  lemma PaymentKeepsResolved(db: CaseDb, t: Txn, p: nat)
    requires p < |db.promises| && !db.promises[p].status.Active? && t.Attribute?
    ensures ResolvedStill(db.promises, Apply(db, t).promises, p)
  {
  }

  lemma ResolutionKeepsResolved(db: CaseDb, t: Txn, p: nat)
    requires p < |db.promises| && !db.promises[p].status.Active? && t.Resolve?
    ensures ResolvedStill(db.promises, Apply(db, t).promises, p)
  {
  }

  lemma OtherKeepsResolved(db: CaseDb, t: Txn, p: nat)
    requires p < |db.promises| && !db.promises[p].status.Active? && WritesPromises(t) && !t.Attribute? && !t.Resolve?
    ensures ResolvedStill(db.promises, Apply(db, t).promises, p)
  {
  }

  /** So an ACTIVE promise is claimed again at any time from its due date and its lease's end on. */
  lemma ActivePromiseIsClaimable(db: CaseDb, p: nat, now: Time, lease: int)
    requires Kept(db) && p < |db.promises| && db.promises[p].status.Active? && db.promises[p].due <= now
    requires db.promises[p].check.CheckClaimed? ==> db.promises[p].checkLease.value <= now
    ensures ClaimDuePromise(db, p, now, lease).Commit?
  {
    assert OpenCheck(db.promises[p]);
  }

  /** The converse fails: a promise that a payment fulfils keeps an open check, whose resolution is then refused. */
  lemma PaymentLeavesCheckOpen(db: CaseDb, t: Txn, p: nat)
    requires Kept(db) && t.Attribute? && AttributeRecovery(db, t.reference, t.amount, t.now, t.correlation).Commit?
    requires p < |db.promises| && db.promises[p].status.Active? && Apply(db, t).promises[p].status.Fulfilled?
    ensures OpenCheck(Apply(db, t).promises[p])
    ensures forall forced, later :: ResolvePromise(Apply(db, t), p, forced, later).Abort?
  {
    assert OpenCheck(db.promises[p]);
  }

  // ----- leases -----

  /** A claimed or running schedule carries the end of its lease. */
  predicate Leased(schedules: seq<Schedule>) {
    forall i :: 0 <= i < |schedules| && (schedules[i].status.Claimed? || schedules[i].status.Running?) ==> schedules[i].leaseExpires.Some?
  }

  lemma StaysLeased(db: CaseDb, t: Txn)
    requires Leased(db.schedules)
    ensures Leased(Apply(db, t).schedules)
  {
    Frame(db, t);
    if t.Complete? { CompletionLeases(db, t); }
    else if t.Save? || t.Decide? { SchedulingLeases(db, t); }
    else if WritesSchedules(t) { ClaimingLeases(db, t); }
  }

  lemma CompletionLeases(db: CaseDb, t: Txn)
    requires Leased(db.schedules) && t.Complete?
    ensures Leased(Apply(db, t).schedules)
  {
  }

  lemma SchedulingLeases(db: CaseDb, t: Txn)
    requires Leased(db.schedules) && (t.Save? || t.Decide?)
    ensures Leased(Apply(db, t).schedules)
  {
  }

  lemma ClaimingLeases(db: CaseDb, t: Txn)
    requires Leased(db.schedules) && (t.Claim? || t.Mark? || t.Suppress? || t.ClaimObservation? || t.Reassess?)
    ensures Leased(Apply(db, t).schedules)
  {
  }

  /** A crash never loses a schedule that is pending, claimed, running or waiting for a retry. */
  lemma OpenScheduleIsClaimable(db: CaseDb, i: nat, owner: nat, now: Time, lease: int)
    requires Leased(db.schedules) && i < |db.schedules| && DueAt(db.schedules[i]) <= now
    requires db.schedules[i].status.Pending? || db.schedules[i].status.RetryPending? || db.schedules[i].status.Claimed? || db.schedules[i].status.Running?
    requires db.schedules[i].leaseExpires.Some? ==> db.schedules[i].leaseExpires.value <= now
    ensures ClaimDue(db, i, owner, now, lease).Commit?
  {
  }

  // ----- all of them -----

  predicate Sound(db: CaseDb) {
    && Trailed(db) && WellNumbered(db.events) && Accounted(db) && Stamped(db.schedules, db.version)
    && OnePerAttempt(db.executions) && Kept(db) && Leased(db.schedules)
  }

  lemma NewCaseIsSound(deadline: Time)
    ensures Sound(NewCase(deadline))
  {
  }

  lemma StaysSound(db: CaseDb, t: Txn)
    requires Sound(db) && LegalMove(db, t)
    ensures Sound(Apply(db, t))
  {
    StaysTrailed(db, t);
    EventsStayNumbered(db, t);
    StaysAccounted(db, t);
    StaysStamped(db, t);
    StaysOnePerAttempt(db, t);
    PromisesStayKept(db, t);
    StaysLeased(db, t);
  }
}
