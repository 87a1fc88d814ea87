/**
 * One case with everything that can happen to it at once: any number of worker runs, decision flights,
 * operator reviews and manual transitions, whose steps interleave in any order. A run or a flight that
 * crashes simply takes no further step; one that outlives its lease keeps taking them.
 */
module Workflow {
  import opened Wrappers
  import opened Domain
  import opened CaseRows
  import opened CaseSteps
  import opened Transactions
  import opened Ledgers
  import opened Sorting
  import EconomicGate
  import Policy

  const LEASE: int := 2 * MINUTE

  // ----- what runs and flights remember -----

  /** Where a worker run is in `RunOnce`. */
  datatype Phase =
    | JustClaimed
    | SawCase
    | Refused
    | Cleared
    | Started(reconciled: Option<ProviderResult>)
    | Answered(result: ProviderResult)
    | Over

  datatype ClaimKind = FirstClaim | RetryClaim | Reclaim

  /**
   * One call of `RunOnce` that claimed schedule `i`: `claim` is the row as claimed, `now` the time of the claim.
   * The last five fields are history: whether the schedule was fresh when the run read the case, the verdict
   * of its policy check, and what it has done since.
   */
  datatype Run = Run(i: nat, claim: Schedule, kind: ClaimKind, now: Time, phase: Phase, state: CaseState, version: nat,
                     sawFresh: bool, verdict: Policy.Decision, marked: bool, called: bool, retried: bool)

  /** A decision, an operator's approval, or a manual transition. */
  datatype Purpose =
    | Deciding
    | Approving(key: string, about: nat, expected: nat, observedPolicyVersion: int)
    | Moving(to: CaseState)

  datatype Stage = Begun | Looked | Judged | Landed

  /** A read-evaluate-write cycle: the case as read, then the evaluation, both possibly stale when it is written. */
  datatype Flight = Flight(purpose: Purpose, stage: Stage, state: CaseState, version: nat,
                           context: Policy.Context, candidate: Policy.Candidate, gate: EconomicGate.GateResult,
                           verdict: Policy.Decision, judgedAt: Time)

  datatype System = System(db: CaseDb, clock: Time, runs: seq<Run>, flights: seq<Flight>)

  datatype Step =
    | Outside(txn: Txn)
    | Begin(purpose: Purpose)
    | Look(f: nat)
    | Assess(f: nat, facts: Policy.Context, candidate: Policy.Candidate, threshold: int)
    | Land(f: nat, policyVersion: int)
    | ClaimWork(i: nat, owner: nat)
    | See(r: nat)
    | Check(r: nat, facts: Policy.Context)
    | Withdraw(r: nat)
    | Start(r: nat, reconciled: Option<ProviderResult>)
    | Call(r: nat, result: ProviderResult)
    | Finish(r: nat)

  // ----- what they read -----

  /** Actions no longer waiting to run, as the policy sees them. */
  function Past(schedules: seq<Schedule>): seq<Policy.RecentAction> {
    if schedules == [] then []
    else
      var last := schedules[|schedules| - 1];
      var rest := Past(schedules[..|schedules| - 1]);
      if last.actionStatus.StillPlanned? then rest else rest + [Policy.RecentAction(last.action, last.createdAt)]
  }

  predicate Newer(a: Policy.RecentAction, b: Policy.RecentAction) {
    a.createdAt > b.createdAt
  }

  const HISTORY_LIMIT: nat := 50

  /** The newest fifty past actions. */
  function RecentHistory(schedules: seq<Schedule>): seq<Policy.RecentAction> {
    var all := Sort(Newer, Past(schedules));
    if |all| <= HISTORY_LIMIT then all else all[..HISTORY_LIMIT]
  }

  predicate Descending(s: seq<Policy.RecentAction>) {
    forall i, j :: 0 <= i < j < |s| ==> s[i].createdAt >= s[j].createdAt
  }

  /** What an evaluation sees of the past: newest first, up to fifty actions, and none that it does not see is newer. */
  lemma HistoryIsNewest(schedules: seq<Schedule>) returns (unseen: seq<Policy.RecentAction>)
    ensures var past, seen := Past(schedules), RecentHistory(schedules);
      && |seen| == (if |past| <= 50 then |past| else 50) && multiset(past) == multiset(seen + unseen)
      && Descending(seen)
      && forall i, j :: 0 <= i < |seen| && 0 <= j < |unseen| ==> seen[i].createdAt >= unseen[j].createdAt
  {
    var all := Sort(Newer, Past(schedules));
    NewestFirst(Past(schedules));
    var n := if |all| <= HISTORY_LIMIT then |all| else HISTORY_LIMIT;
    unseen := all[n..];
    assert all == all[..n] + unseen;
    assert RecentHistory(schedules) == all[..n];
    FirstAreNewest(all, n);
  }

  lemma FirstAreNewest(all: seq<Policy.RecentAction>, n: nat)
    requires n <= |all| && Descending(all)
    ensures Descending(all[..n])
    ensures forall i, j :: 0 <= i < |all[..n]| && 0 <= j < |all[n..]| ==> all[..n][i].createdAt >= all[n..][j].createdAt
  {
    forall i, j | 0 <= i < |all[..n]| && 0 <= j < |all[n..]| ensures all[..n][i].createdAt >= all[n..][j].createdAt {
      assert all[n..][j] == all[n + j];
    }
  }

  lemma NewestFirst(past: seq<Policy.RecentAction>)
    ensures Descending(Sort(Newer, past))
  {
    NewerIsWeakOrder(past);
    SortIsSorted(Newer, past);
    var all := Sort(Newer, past);
    forall i, j | 0 <= i < j < |all| ensures all[i].createdAt >= all[j].createdAt {
      assert !Newer(all[j], all[i]);
    }
  }

  lemma NewerIsWeakOrder(past: seq<Policy.RecentAction>)
    ensures WeakOrder(Newer, past)
  {
  }

  /** The decision context: the case as it was read, the other rows as they are now, everything else from `facts`. */
  function ContextOf(db: CaseDb, state: CaseState, version: nat, facts: Policy.Context): Policy.Context {
    facts.(state := state, version := version, deadline := db.deadline, alreadyRecovered := state.Recovered?,
           recent := RecentHistory(db.schedules), activePromise := HasActivePromise(db))
  }

  function CandidateOf(d: DecisionRow): Policy.Candidate {
    Policy.Candidate(d.gate.action, d.gate.nerv, d.incentive)
  }

  /** A run goes no further when the case has moved on, or the decision on record was blocked by its gate. */
  predicate Outdated(db: CaseDb, run: Run) {
    || run.version != run.claim.stamp || run.state.Recovered?
    || run.claim.decision >= |db.decisions| || !db.decisions[run.claim.decision].gate.allow
  }

  /** The fresh policy check of a run. */
  function Recheck(db: CaseDb, run: Run, facts: Policy.Context): Policy.Decision {
    if Outdated(db, run) then Policy.Deny
    else
      var d := db.decisions[run.claim.decision];
      Policy.Judge(ContextOf(db, run.state, run.version, facts), run.version, CandidateOf(d), d.gate.allow, run.now)
  }

  /** Whether a run may go on to execute: an escalated verdict needs an operator's approval. */
  predicate Authorised(db: CaseDb, run: Run, facts: Policy.Context) {
    var verdict := Recheck(db, run, facts);
    !Outdated(db, run) && (verdict.Approve? || (verdict.Escalate? && HumanApproved(db, run.claim.policy)))
  }

  predicate Fresh(db: CaseDb, i: nat) {
    i < |db.schedules| && db.schedules[i].stamp == db.version
  }

  function SnapshotOf(f: Flight): Snapshot {
    Snapshot(f.version, f.gate, f.candidate.incentive, f.verdict, f.judgedAt)
  }

  function CommandOf(f: Flight): ReviewCommand
    requires f.purpose.Approving?
  {
    ReviewCommand(f.purpose.key, ReviewApprove, f.purpose.expected, f.purpose.about, f.purpose.observedPolicyVersion, f.verdict)
  }

  // ----- steps -----

  /** Transactions that anyone may call at any time, without a run or a flight. */
  predicate External(t: Txn) {
    || t.ClaimObservation? || t.Reassess? || t.Attribute? || t.Promised? || t.ClaimCheck? || t.Resolve? || t.Cancel?
    || t.Respond? || t.Append? || (t.Decide? && !t.command.decision.ReviewApprove?)
  }

  /** What a run that has started will report, once it can. */
  function ResultOf(p: Phase): Option<ProviderResult> {
    match p
    case Started(reconciled) => reconciled
    case Answered(result) => Some(result)
    case _ => None
  }

  function LandingTxn(f: Flight, policyVersion: int, at: Time): Option<Txn> {
    match f.purpose
    case Deciding => if f.stage.Judged? then Some(Save(SnapshotOf(f), at)) else None
    case Approving(_, _, _, _) => if f.stage.Judged? then Some(Decide(CommandOf(f), policyVersion, at)) else None
    case Moving(to) => if f.stage.Looked? && CanTransition(f.state, to) then Some(Transition(f.version, to)) else None
  }

  /** The transaction a step runs, if it runs one. */
  function TxnOf(sys: System, step: Step, at: Time): Option<Txn> {
    match step
    case Outside(t) => if External(t) then Some(t) else None
    case Begin(purpose) => if purpose.Deciding? then Some(Prepare) else None
    case Land(f, policyVersion) => if f < |sys.flights| then LandingTxn(sys.flights[f], policyVersion, at) else None
    case ClaimWork(i, owner) => Some(Claim(i, owner, at, LEASE))
    case Withdraw(r) => if r < |sys.runs| && sys.runs[r].phase.Refused? then Some(Suppress(sys.runs[r].i, sys.runs[r].now)) else None
    case Start(r, reconciled) =>
      if r < |sys.runs| && sys.runs[r].phase.Cleared? && (reconciled.Some? ==> sys.runs[r].claim.attempt > 1)
      then Some(Mark(sys.runs[r].i, sys.runs[r].now)) else None
    case Finish(r) =>
      if r < |sys.runs| && ResultOf(sys.runs[r].phase).Some?
      then Some(Complete(sys.runs[r].i, sys.runs[r].claim, ResultOf(sys.runs[r].phase).value, at)) else None
    case _ => None
  }

  function KindOfClaim(s: Schedule): ClaimKind {
    if s.status.Pending? then FirstClaim else if s.status.RetryPending? then RetryClaim else Reclaim
  }

  /** The run that a claim of schedule `i` creates. */
  function NewRun(db: CaseDb, i: nat, owner: nat, at: Time): Run
    requires i < |db.schedules|
  {
    Run(i, CaseSteps.Claimed(db.schedules[i], owner, at, LEASE), KindOfClaim(db.schedules[i]), at, JustClaimed, db.state, 0,
        false, Policy.Deny, false, false, false)
  }

  /** The run that a step concerns, afterwards. */
  function NextRun(db: CaseDb, run: Run, step: Step): Run {
    match step
    case See(_) => if run.phase.JustClaimed? then run.(phase := SawCase, state := db.state, version := db.version, sawFresh := Fresh(db, run.i)) else run
    case Check(_, facts) =>
      if run.phase.SawCase? then run.(phase := if Authorised(db, run, facts) then Cleared else Refused, verdict := Recheck(db, run, facts)) else run
    case Withdraw(_) => if run.phase.Refused? then run.(phase := Over) else run
    case Start(_, reconciled) =>
      if !run.phase.Cleared? || (reconciled.Some? && run.claim.attempt <= 1) then run
      else if MarkExecuting(db, run.i, run.now).Commit? then run.(phase := Started(reconciled), marked := true)
      else run.(phase := Over)
    case Call(_, result) => if run.phase == Started(None) then run.(phase := Answered(result), called := true) else run
    case Finish(_) =>
      if ResultOf(run.phase).Some? then run.(phase := Over, retried := RetryWanted(run.claim, ResultOf(run.phase).value)) else run
    case _ => run
  }

  function Actor(step: Step): Option<nat> {
    match step
    case See(r) => Some(r)
    case Check(r, _) => Some(r)
    case Withdraw(r) => Some(r)
    case Start(r, _) => Some(r)
    case Call(r, _) => Some(r)
    case Finish(r) => Some(r)
    case _ => None
  }

  function NextRuns(sys: System, step: Step, at: Time): seq<Run> {
    if step.ClaimWork? then
      var claimed := ClaimDue(sys.db, step.i, step.owner, at, LEASE);
      if claimed.Abort? then sys.runs else sys.runs + [NewRun(sys.db, step.i, step.owner, at)]
    else
      var r := Actor(step);
      if r.Some? && r.value < |sys.runs| then sys.runs[r.value := NextRun(sys.db, sys.runs[r.value], step)] else sys.runs
  }

  const NO_GATE: EconomicGate.GateResult := EconomicGate.GateResult(Wait, 0, 0, false, EconomicGate.EconomicallyUnjustified)

  /** An evaluation: a decision weighs a fresh candidate, an approval the candidate and gate on record. */
  function Evaluated(db: CaseDb, f: Flight, facts: Policy.Context, candidate: Policy.Candidate, threshold: int, at: Time): Flight {
    if !f.stage.Looked? || f.purpose.Moving? || (f.purpose.Approving? && f.purpose.about >= |db.decisions|) then f
    else
      var c := if f.purpose.Approving? then CandidateOf(db.decisions[f.purpose.about]) else candidate;
      var g := if f.purpose.Approving? then db.decisions[f.purpose.about].gate else EconomicGate.Evaluate(c.action, c.nerv, threshold);
      var context := ContextOf(db, f.state, f.version, facts);
      f.(stage := Judged, context := context, candidate := c, gate := g, judgedAt := at,
         verdict := Policy.Judge(context, f.version, c, g.allow, at))
  }

  function NextFlights(sys: System, step: Step, at: Time): seq<Flight> {
    match step
    case Begin(purpose) =>
      if purpose.Deciding? && PrepareForDecision(sys.db).Abort? then sys.flights
      else
        var blank := ContextOf(sys.db, sys.db.state, 0, NO_FACTS);
        sys.flights + [Flight(purpose, Begun, sys.db.state, 0, blank, Policy.Candidate(Wait, 0, 0), NO_GATE, Policy.Deny, at)]
    case Look(f) =>
      if f < |sys.flights| && sys.flights[f].stage.Begun?
      then sys.flights[f := sys.flights[f].(stage := Looked, state := sys.db.state, version := sys.db.version)] else sys.flights
    case Assess(f, facts, candidate, threshold) =>
      if f < |sys.flights| then sys.flights[f := Evaluated(sys.db, sys.flights[f], facts, candidate, threshold, at)] else sys.flights
    case Land(f, policyVersion) =>
      if f < |sys.flights| && LandingTxn(sys.flights[f], policyVersion, at).Some?
      then sys.flights[f := sys.flights[f].(stage := Landed)] else sys.flights
    case _ => sys.flights
  }

  const NO_FACTS: Policy.Context :=
    Policy.Context(Detected, 0, false, 0, 0, FailedSubscription, false, false, [], false, false, 0, false, false, [],
                   Policy.Merchant([], [], Policy.Limits(0, 0, 0, 0), 0, 0, 0, Policy.NoWindow), None, 0)

  function NextDb(sys: System, step: Step, at: Time): CaseDb {
    var t := TxnOf(sys, step, at);
    if t.Some? then Apply(sys.db, t.value) else sys.db
  }

  /** One step at time `at`. A step that is not possible changes nothing but the clock. */
  function Next(sys: System, step: Step, at: Time): System {
    System(NextDb(sys, step, at), at, NextRuns(sys, step, at), NextFlights(sys, step, at))
  }

  function Initial(deadline: Time, clock: Time): System {
    System(NewCase(deadline), clock, [], [])
  }

  datatype Timed = Timed(step: Step, at: Time)

  /** The system after a whole trace. */
  function Reach(sys: System, trace: seq<Timed>): System {
    if trace == [] then sys
    else
      var last := trace[|trace| - 1];
      Next(Reach(sys, trace[..|trace| - 1]), last.step, last.at)
  }
}
