/**
 * The transactions on one case as data, and what every one of them keeps whatever its arguments and
 * whoever calls it: the transition table, the numbering of the event log, the attribution ledger, the
 * version stamps of the schedules, the promises and the executions.
 */
module Transactions {
  import opened Wrappers
  import opened Domain
  import opened CaseRows
  import opened CaseSteps

  datatype Txn =
    | Prepare
    | Save(snapshot: Snapshot, now: Time)
    | Claim(i: nat, owner: nat, now: Time, lease: int)
    | Mark(i: nat, now: Time)
    | Complete(i: nat, claim: Schedule, result: ProviderResult, now: Time)
    | Suppress(i: nat, now: Time)
    | ClaimObservation(i: nat, owner: nat, now: Time, lease: int)
    | Reassess(i: nat, now: Time)
    | Attribute(reference: string, amount: int, now: Time, correlation: Correlation)
    | Promised(due: Time, source: Option<string>, correlation: Correlation)
    | ClaimCheck(p: nat, now: Time, lease: int)
    | Resolve(p: nat, forced: Option<PromiseStatus>, now: Time)
    | Cancel(p: nat, correlation: Correlation)
    | Respond(response: string, kind: ResponseType)
    | Decide(command: ReviewCommand, policyVersion: int, now: Time)
    | Transition(expected: nat, to: CaseState)
    | Append(event: EventType)

  function Apply(db: CaseDb, t: Txn): CaseDb {
    match t
    case Prepare => After(db, PrepareForDecision(db))
    case Save(s, now) => After(db, SaveDecisionAndSchedule(db, s, now))
    case Claim(i, owner, now, lease) => After(db, ClaimDue(db, i, owner, now, lease))
    case Mark(i, now) => After(db, MarkExecuting(db, i, now))
    case Complete(i, claim, result, now) => After(db, CompleteExecution(db, i, claim, result, now))
    case Suppress(i, now) => After(db, MarkSuppressed(db, i, now))
    case ClaimObservation(i, owner, now, lease) => After(db, ClaimDueObservation(db, i, owner, now, lease))
    case Reassess(i, now) => After(db, PrepareReassessment(db, i, now))
    case Attribute(reference, amount, now, correlation) => After(db, AttributeRecovery(db, reference, amount, now, correlation))
    case Promised(due, source, correlation) => After(db, CreatePromise(db, due, source, correlation))
    case ClaimCheck(p, now, lease) => After(db, ClaimDuePromise(db, p, now, lease))
    case Resolve(p, forced, now) => After(db, ResolvePromise(db, p, forced, now))
    case Cancel(p, correlation) => After(db, CancelPromise(db, p, correlation))
    case Respond(response, kind) => After(db, SaveCustomerResponse(db, response, kind))
    case Decide(command, policyVersion, now) => After(db, ApplyHumanReview(db, command, policyVersion, now))
    case Transition(expected, to) => After(db, TransitionCase(db, expected, to))
    case Append(event) => After(db, AppendEvent(db, event))
  }

  // ----- how the state of the case moves -----

  /** Each state of the path may follow the one before it, by the transition table. */
  predicate Legal(from: CaseState, path: seq<CaseState>) {
    && (path != [] ==> CanTransition(from, path[0]))
    && forall k :: 1 <= k < |path| ==> CanTransition(path[k - 1], path[k])
  }

  /** From one set of rows to the next the case went through exactly the states of the path. */
  predicate Moved(db: CaseDb, after: CaseDb, path: seq<CaseState>) {
    && after.trail == db.trail + path
    && after.version == db.version + |path|
    && after.state == (if path == [] then db.state else path[|path| - 1])
    && after.deadline == db.deadline
  }

  /** The states that a transaction takes the case through. */
  function Path(db: CaseDb, t: Txn): seq<CaseState> {
    var after := Apply(db, t);
    if after.version == db.version + 1 then [after.state]
    else if after.version == db.version + 2 then
      match t
      case Prepare => [Diagnosing, ActionPending]
      case Save(_, _) => [PolicyReview, Scheduled]
      case _ => [Reassessing, ActionPending]
    else if after.version == db.version + 3 then [ActionPending, PolicyReview, Scheduled]
    else []
  }

  /** The edges of the table that transactions use. */
  lemma Corridors(from: CaseState)
    ensures CanTransition(Detected, Diagnosing) && CanTransition(Diagnosing, ActionPending) && CanTransition(Reassessing, ActionPending)
    ensures CanTransition(ActionPending, PolicyReview) && CanTransition(PolicyReview, Scheduled) && CanTransition(ActionPending, Escalated)
    ensures CanTransition(Scheduled, Executing) && CanTransition(Executing, WaitingOutcome) && CanTransition(Executing, Reassessing)
    ensures CanTransition(WaitingOutcome, Reassessing) && CanTransition(WaitingOutcome, Exhausted)
    ensures CanTransition(Escalated, ActionPending) && CanTransition(Escalated, Reassessing)
    ensures !IsTerminal(from) ==> CanTransition(from, Stopped)
  {
  }

  lemma PrepareMoves(db: CaseDb, t: Txn)
    requires t.Prepare?
    ensures Moved(db, Apply(db, t), Path(db, t)) && Legal(db.state, Path(db, t))
  {
    Corridors(db.state);
  }

  lemma SaveMoves(db: CaseDb, t: Txn)
    requires t.Save?
    ensures Moved(db, Apply(db, t), Path(db, t)) && Legal(db.state, Path(db, t))
  {
    Corridors(db.state);
  }

  lemma DecidingMoves(db: CaseDb, t: Txn)
    requires t.Prepare? || t.Save?
    ensures Moved(db, Apply(db, t), Path(db, t)) && Legal(db.state, Path(db, t))
  {
    if t.Prepare? { PrepareMoves(db, t); }
    else { SaveMoves(db, t); }
  }

  lemma CompletionMoves(db: CaseDb, t: Txn)
    requires t.Complete?
    ensures Moved(db, Apply(db, t), Path(db, t)) && Legal(db.state, Path(db, t))
  {
    Corridors(db.state);
  }

  lemma ReassessmentMoves(db: CaseDb, t: Txn)
    requires t.Reassess?
    ensures Moved(db, Apply(db, t), Path(db, t)) && Legal(db.state, Path(db, t))
  {
    Corridors(db.state);
  }

  lemma MarkMoves(db: CaseDb, t: Txn)
    requires t.Mark?
    ensures Moved(db, Apply(db, t), Path(db, t)) && Legal(db.state, Path(db, t))
  {
    Corridors(db.state);
  }

  lemma HandlingMoves(db: CaseDb, t: Txn)
    requires t.Claim? || t.Suppress? || t.ClaimObservation?
    ensures Moved(db, Apply(db, t), Path(db, t)) && Legal(db.state, Path(db, t))
  {
    Corridors(db.state);
  }

  lemma ExecutingMoves(db: CaseDb, t: Txn)
    requires t.Claim? || t.Mark? || t.Complete? || t.Suppress? || t.ClaimObservation? || t.Reassess?
    ensures Moved(db, Apply(db, t), Path(db, t)) && Legal(db.state, Path(db, t))
  {
    if t.Complete? { CompletionMoves(db, t); }
    else if t.Reassess? { ReassessmentMoves(db, t); }
    else if t.Mark? { MarkMoves(db, t); }
    else { HandlingMoves(db, t); }
  }

  lemma ResolveMoves(db: CaseDb, t: Txn)
    requires t.Resolve?
    ensures Moved(db, Apply(db, t), Path(db, t)) && Legal(db.state, Path(db, t))
  {
    Corridors(db.state);
  }

  lemma CheckMoves(db: CaseDb, t: Txn)
    requires t.Promised? || t.ClaimCheck? || t.Cancel?
    ensures Moved(db, Apply(db, t), Path(db, t)) && Legal(db.state, Path(db, t))
  {
    Corridors(db.state);
  }

  lemma PromiseMoves(db: CaseDb, t: Txn)
    requires t.Promised? || t.ClaimCheck? || t.Resolve? || t.Cancel?
    ensures Moved(db, Apply(db, t), Path(db, t)) && Legal(db.state, Path(db, t))
  {
    if t.Resolve? { ResolveMoves(db, t); }
    else { CheckMoves(db, t); }
  }

  lemma ReviewMoves(db: CaseDb, t: Txn)
    requires t.Decide?
    ensures Moved(db, Apply(db, t), Path(db, t)) && Legal(db.state, Path(db, t))
  {
    Corridors(db.state);
  }

  lemma ResponseMoves(db: CaseDb, t: Txn)
    requires t.Respond?
    ensures Moved(db, Apply(db, t), Path(db, t)) && Legal(db.state, Path(db, t))
  {
    Corridors(db.state);
  }

  lemma ManualMoves(db: CaseDb, t: Txn)
    requires t.Append? || (t.Transition? && (t.expected == db.version ==> CanTransition(db.state, t.to)))
    ensures Moved(db, Apply(db, t), Path(db, t)) && Legal(db.state, Path(db, t))
  {
    Corridors(db.state);
  }

  lemma OutsideMoves(db: CaseDb, t: Txn)
    requires t.Respond? || t.Decide? || t.Append? || (t.Transition? && (t.expected == db.version ==> CanTransition(db.state, t.to)))
    ensures Moved(db, Apply(db, t), Path(db, t)) && Legal(db.state, Path(db, t))
  {
    if t.Decide? { ReviewMoves(db, t); }
    else if t.Respond? { ResponseMoves(db, t); }
    else { ManualMoves(db, t); }
  }

  lemma AttributionMoves(db: CaseDb, t: Txn)
    requires t.Attribute?
    ensures Moved(db, Apply(db, t), Path(db, t))
    ensures Path(db, t) == [] || (!IsTerminal(db.state) && Path(db, t) == [Recovered])
  {
  }
}
