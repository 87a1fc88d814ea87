/** Which evidence explains an observed payment: the store's cascade, and the precedence contract it implements. */
module AttributionRules {
  import opened Wrappers
  import opened Domain
  import opened CaseRows

  const RETRY_WINDOW: int := 1440 * MINUTE
  const DIRECT_WINDOW: int := 10080 * MINUTE
  const PROMISE_WINDOW: int := 1440 * MINUTE

  datatype Evidence = ExactReference | PromiseToPay | RetryEvidence | DirectEvidence | NaturalEvidence | NoEvidence

  const PRECEDENCE: seq<Evidence> :=
    [ExactReference, PromiseToPay, RetryEvidence, DirectEvidence, NaturalEvidence, NoEvidence]

  datatype Candidate = Candidate(name: Evidence, category: Category)

  /** What the cascade settles on. */
  datatype Finding = Finding(category: Category, execution: Option<nat>, promise: Option<nat>)

  predicate Delivered(e: Execution) {
    e.status.Succeeded? || e.status.OutcomePending?
  }

  predicate Within(t: Time, observed: Time, window: int) {
    observed - window <= t <= observed
  }

  predicate MatchesReference(e: Execution, reference: string) {
    Delivered(e) && e.reference == reference
  }

  predicate RecentRetry(e: Execution, observed: Time) {
    Delivered(e) && Within(e.completedAt, observed, RETRY_WINDOW) && IsRetry(e.kind)
  }

  predicate RecentAction(e: Execution, observed: Time) {
    Delivered(e) && Within(e.completedAt, observed, DIRECT_WINDOW)
  }

  predicate MatchesPromise(p: Promise, observed: Time) {
    (p.status.Active? || p.status.Fulfilled?) && observed - PROMISE_WINDOW <= p.due <= observed + PROMISE_WINDOW
  }

  /** The matching execution completed last (`ORDER BY completed_at DESC LIMIT 1`). */
  function LastCompleted(executions: seq<Execution>, matches: Execution -> bool): (r: Option<nat>)
    ensures r.Some? <==> exists i :: 0 <= i < |executions| && matches(executions[i])
    ensures r.Some? ==> r.value < |executions| && matches(executions[r.value])
    ensures forall i :: r.Some? && 0 <= i < |executions| && matches(executions[i])
                        ==> executions[i].completedAt <= executions[r.value].completedAt
  {
    if executions == [] then None
    else
      var n := |executions| - 1;
      var best := LastCompleted(executions[..n], matches);
      if matches(executions[n]) && (best.None? || executions[best.value].completedAt <= executions[n].completedAt) then Some(n)
      else best
  }

  /** The matching promise due first (`ORDER BY due_at LIMIT 1`). */
  function FirstDue(promises: seq<Promise>, observed: Time): (r: Option<nat>)
    ensures r.Some? <==> exists i :: 0 <= i < |promises| && MatchesPromise(promises[i], observed)
    ensures r.Some? ==> r.value < |promises| && MatchesPromise(promises[r.value], observed)
    ensures forall i :: r.Some? && 0 <= i < |promises| && MatchesPromise(promises[i], observed)
                        ==> promises[r.value].due <= promises[i].due
  {
    if promises == [] then None
    else
      var n := |promises| - 1;
      var best := FirstDue(promises[..n], observed);
      if MatchesPromise(promises[n], observed) && (best.None? || promises[n].due < promises[best.value].due) then Some(n)
      else best
  }

  function ByReference(db: CaseDb, reference: string): Option<nat> {
    LastCompleted(db.executions, (e: Execution) => MatchesReference(e, reference))
  }

  function ByRetry(db: CaseDb, observed: Time): Option<nat> {
    LastCompleted(db.executions, (e: Execution) => RecentRetry(e, observed))
  }

  function ByAction(db: CaseDb, observed: Time): Option<nat> {
    LastCompleted(db.executions, (e: Execution) => RecentAction(e, observed))
  }

  predicate AnyCompleted(executions: seq<Execution>, observed: Time) {
    exists i :: 0 <= i < |executions| && executions[i].completedAt <= observed
  }

  function KindCategory(kind: ActionType): Category {
    if IsRetry(kind) then Retry else DirectAction
  }

  /** Exact-reference evidence and a matching promise at once: the combination the cascade drops. */
  predicate Overlap(db: CaseDb, reference: string, observed: Time) {
    ByReference(db, reference).Some? && FirstDue(db.promises, observed).Some?
  }

  /** The store's cascade, or None for the overlap. */
  function Cascade(db: CaseDb, reference: string, observed: Time): Option<Finding> {
    var exact := ByReference(db, reference);
    var promise := FirstDue(db.promises, observed);
    if exact.Some? && promise.Some? then None
    else if exact.Some? then Some(Finding(KindCategory(db.executions[exact.value].kind), exact, None))
    else if promise.Some? then Some(Finding(KeptPromise, None, promise))
    else if ByRetry(db, observed).Some? then Some(Finding(Retry, ByRetry(db, observed), None))
    else if ByAction(db, observed).Some? then Some(Finding(DirectAction, ByAction(db, observed), None))
    else if !AnyCompleted(db.executions, observed) then Some(Finding(Natural, None, None))
    else Some(Finding(Unknown, None, None))
  }

  // ----- the precedence contract -----

  /** Every piece of evidence present for a payment, of whatever strength. */
  predicate Present(db: CaseDb, reference: string, observed: Time, c: Candidate) {
    match c.name
    case ExactReference =>
      && ByReference(db, reference).Some?
      && c.category == (if db.executions[ByReference(db, reference).value].kind in {RetryNow, RetryLater} then Retry else DirectAction)
    case PromiseToPay => FirstDue(db.promises, observed).Some? && c.category == KeptPromise
    case RetryEvidence => ByRetry(db, observed).Some? && c.category == Retry
    case DirectEvidence => ByAction(db, observed).Some? && c.category == DirectAction
    case NaturalEvidence => !AnyCompleted(db.executions, observed) && c.category == Natural
    case NoEvidence => c.category == Unknown
  }

  /** `c` is in the list, and nothing in the list has a name that comes before its own. */
  predicate Strongest(candidates: seq<Candidate>, c: Candidate) {
    && c in candidates
    && forall k, j :: 0 <= k < j < |PRECEDENCE| && PRECEDENCE[j] == c.name ==> forall d :: d in candidates ==> d.name != PRECEDENCE[k]
  }

  /** The first name in the order of precedence that some candidate carries decides. */
  method ResolveCandidates(candidates: seq<Candidate>) returns (category: Category)
    ensures candidates == [] ==> category == Unknown
    ensures candidates != [] ==> exists c :: Strongest(candidates, c) && category == c.category
  {
    for i := 0 to |PRECEDENCE|
      invariant forall k, d :: 0 <= k < i && d in candidates ==> d.name != PRECEDENCE[k]
    {
      for j := 0 to |candidates|
        invariant forall d :: d in candidates[..j] ==> d.name != PRECEDENCE[i]
      {
        if candidates[j].name == PRECEDENCE[i] {
          var c := candidates[j];
          assert Strongest(candidates, c);
          return c.category;
        }
      }
    }
    category := Unknown;
    if candidates != [] {
      AllNamed(candidates[0].name);
    }
  }

  lemma AllNamed(e: Evidence)
    ensures exists k :: 0 <= k < |PRECEDENCE| && PRECEDENCE[k] == e
  {
    assert PRECEDENCE[0] == ExactReference && PRECEDENCE[1] == PromiseToPay && PRECEDENCE[2] == RetryEvidence;
    assert PRECEDENCE[3] == DirectEvidence && PRECEDENCE[4] == NaturalEvidence && PRECEDENCE[5] == NoEvidence;
  }

  /** Evidence whose name comes first in the order of precedence outranks any other. */
  lemma StrongestOutranks(candidates: seq<Candidate>, c: Candidate, d: Candidate, k: nat)
    requires Strongest(candidates, c) && d in candidates
    requires k < |PRECEDENCE| && d.name == PRECEDENCE[k]
    ensures exists j :: 0 <= j <= k && PRECEDENCE[j] == c.name
  {
    AllNamed(c.name);
  }

  lemma PresentIsFunctional(db: CaseDb, reference: string, observed: Time, c: Candidate, d: Candidate)
    requires Present(db, reference, observed, c) && Present(db, reference, observed, d) && c.name == d.name
    ensures c.category == d.category
  {
  }

  /**
   * The category the store settles on is the one the precedence contract gives for all the evidence
   * present, however it is listed; the store settles on none exactly when exact-reference evidence
   * overlaps a matching promise.
   */
  lemma CascadeFollowsPrecedence(db: CaseDb, reference: string, observed: Time, candidates: seq<Candidate>, c: Candidate)
    requires forall d :: d in candidates <==> Present(db, reference, observed, d)
    requires Strongest(candidates, c)
    ensures Cascade(db, reference, observed).None? <==> Overlap(db, reference, observed)
    ensures Cascade(db, reference, observed).Some? ==> Cascade(db, reference, observed).value.category == c.category
  {
    var found := Cascade(db, reference, observed);
    if found.Some? {
      var k := Winner(db, reference, observed);
      var d := Candidate(PRECEDENCE[k], found.value.category);
      assert Present(db, reference, observed, d);
      StrongestOutranks(candidates, c, d, k);
      var j :| 0 <= j <= k && PRECEDENCE[j] == c.name;
      NothingBelow(db, reference, observed, c, j);
      PresentIsFunctional(db, reference, observed, c, d);
    }
  }

  /** The position, in the order of precedence, of the evidence the cascade settles on. */
  function Winner(db: CaseDb, reference: string, observed: Time): nat {
    if ByReference(db, reference).Some? then 0
    else if FirstDue(db.promises, observed).Some? then 1
    else if ByRetry(db, observed).Some? then 2
    else if ByAction(db, observed).Some? then 3
    else if !AnyCompleted(db.executions, observed) then 4
    else 5
  }

  lemma NothingBelow(db: CaseDb, reference: string, observed: Time, c: Candidate, j: nat)
    requires j < |PRECEDENCE| && PRECEDENCE[j] == c.name && Present(db, reference, observed, c)
    ensures j >= Winner(db, reference, observed)
  {
    assert PRECEDENCE[0] == ExactReference && PRECEDENCE[1] == PromiseToPay && PRECEDENCE[2] == RetryEvidence;
    assert PRECEDENCE[3] == DirectEvidence && PRECEDENCE[4] == NaturalEvidence && PRECEDENCE[5] == NoEvidence;
  }

  /** A natural recovery is recorded only if nothing at all had been executed by then. */
  lemma NaturalMeansUntouched(db: CaseDb, reference: string, observed: Time)
    requires Cascade(db, reference, observed).Some? && Cascade(db, reference, observed).value.category == Natural
    ensures !AnyCompleted(db.executions, observed)
    ensures forall i :: 0 <= i < |db.executions| && Delivered(db.executions[i]) ==> db.executions[i].reference != reference
    ensures forall p :: 0 <= p < |db.promises| ==> !MatchesPromise(db.promises[p], observed)
  {
    assert forall i :: 0 <= i < |db.executions| ==> !MatchesReference(db.executions[i], reference);
  }
}
