/**
 * The worker and the decision coordinator, as they sequence repository calls when nothing interrupts
 * them. Each is proved to do what the corresponding steps of `Workflow` do, so whatever is proved there of
 * every interleaving holds in particular of these sequences.
 */
module Orchestrator {
  import opened Wrappers
  import opened Domain
  import opened CaseRows
  import opened CaseSteps
  import opened Transactions
  import opened Workflow
  import opened CaseStore
  import EconomicGate
  import Policy

  // ----- one run, uninterrupted -----

  /** The run as it stands when it has claimed schedule `i` of `db` and read the case. */
  function Reader(db: CaseDb, i: nat, owner: nat, now: Time): Run
    requires i < |db.schedules| && Claimable(db.schedules[i], now)
  {
    NextRun(ClaimDue(db, i, owner, now, LEASE).rows, NewRun(db, i, owner, now), See(0))
  }

  /** The rows after one uninterrupted run: `reconciled` is what the provider knows of the key, `answer` what it replies to a call. */
  function SerialRun(db: CaseDb, i: nat, owner: nat, now: Time, facts: Policy.Context,
                     reconciled: Option<ProviderResult>, answer: ProviderResult, later: Time): CaseDb {
    var claimed := ClaimDue(db, i, owner, now, LEASE);
    if claimed.Abort? then db
    else if !Authorised(claimed.rows, Reader(db, i, owner, now), facts) then
      CaseRows.After(claimed.rows, MarkSuppressed(claimed.rows, i, now))
    else
      var marked := MarkExecuting(claimed.rows, i, now);
      if marked.Abort? then claimed.rows
      else
        var result := if claimed.value.attempt > 1 && reconciled.Some? then reconciled.value else answer;
        CaseRows.After(marked.rows, CompleteExecution(marked.rows, i, claimed.value, result, later))
  }

  /** Whether the run gets as far as calling the provider. */
  predicate Calls(db: CaseDb, i: nat, owner: nat, now: Time, facts: Policy.Context, reconciled: Option<ProviderResult>) {
    var claimed := ClaimDue(db, i, owner, now, LEASE);
    && claimed.Commit? && Authorised(claimed.rows, Reader(db, i, owner, now), facts)
    && MarkExecuting(claimed.rows, i, now).Commit? && !(claimed.value.attempt > 1 && reconciled.Some?)
  }

  /** What a decision that follows a run is made of: its facts and candidate, and when it is evaluated and saved. */
  datatype Redecision = Redecision(facts: Policy.Context, candidate: Policy.Candidate, threshold: int, at: Time, later: Time)

  /** The rows after a run and, when the provider's answer is a permanent failure, the decision that follows. */
  function SerialRunOnce(db: CaseDb, i: nat, owner: nat, now: Time, facts: Policy.Context,
                         reconciled: Option<ProviderResult>, answer: ProviderResult, later: Time, next: Redecision): CaseDb {
    var after := SerialRun(db, i, owner, now, facts, reconciled, answer, later);
    if Calls(db, i, owner, now, facts, reconciled) && answer.status.Failed? && !answer.retryable
    then SerialDecision(after, next.facts, next.candidate, next.threshold, next.at, next.later) else after
  }

  class Worker {
    const store: Store
    const reassessor: Coordinator?
    const workerId: nat

    constructor (store: Store, reassessor: Coordinator?, workerId: nat)
      ensures this.store == store && this.reassessor == reassessor && this.workerId == workerId
    {
      this.store, this.reassessor, this.workerId := store, reassessor, workerId;
    }

    /** One run on the due schedule `i`, with the lookups of other services and the provider's replies as arguments. */
    method RunOnce(i: nat, now: Time, facts: Policy.Context, reconciled: Option<ProviderResult>, answer: ProviderResult, later: Time,
                   next: Redecision) returns (result: Option<ProviderResult>)
      requires reassessor != null ==> reassessor.store == store
      modifies store
      ensures store.View() == if reassessor == null then SerialRun(old(store.View()), i, workerId, now, facts, reconciled, answer, later)
                              else SerialRunOnce(old(store.View()), i, workerId, now, facts, reconciled, answer, later, next)
      ensures result.Some? ==> result == reconciled || result.value == answer
    {
      var called;
      result, called := Execute(i, now, facts, reconciled, answer, later);
      if called && answer.status.Failed? && !answer.retryable && reassessor != null {
        var reassessed := reassessor.Decide(next.facts, next.candidate, next.threshold, next.at, next.later);
      }
    }

    /** The run up to its completion; says whether the provider was called. */
    method Execute(i: nat, now: Time, facts: Policy.Context, reconciled: Option<ProviderResult>, answer: ProviderResult, later: Time)
      returns (result: Option<ProviderResult>, called: bool)
      modifies store
      ensures store.View() == SerialRun(old(store.View()), i, workerId, now, facts, reconciled, answer, later)
      ensures called == Calls(old(store.View()), i, workerId, now, facts, reconciled)
      ensures result.Some? ==> result == reconciled || result.value == answer
    {
      called := false;
      ghost var before := store.View();
      var claimed := store.ClaimDue(i, workerId, now, LEASE);
      if claimed.Fail? {
        return None, false;
      }
      var s := claimed.value;
      ghost var run := Reader(before, i, workerId, now);
      if store.version != s.stamp || store.state.Recovered? || s.decision >= |store.decisions| || !store.decisions[s.decision].gate.allow {
        assert Outdated(store.View(), run);
        var stale := store.MarkSuppressed(i, now);
        return None, false;
      }
      var context := ContextOf(store.View(), store.state, store.version, facts);
      var verdict := Policy.Judge(context, store.version, CandidateOf(store.decisions[s.decision]), true, now);
      assert verdict == Recheck(store.View(), run, facts);
      if !verdict.Approve? && !(verdict.Escalate? && HumanApproved(store.View(), s.policy)) {
        var refused := store.MarkSuppressed(i, now);
        return None, false;
      }
      var marked := store.MarkExecuting(i, now);
      if marked.Fail? {
        return None, false;
      }
      called := !(s.attempt > 1 && reconciled.Some?);
      result := if called then Some(answer) else reconciled;
      var completed := store.CompleteExecution(i, s, result.value, later);
    }
  }

  // ----- the same run as steps of the workflow -----

  /** What a step of run `run` does to the rows, seen from that run alone. */
  function RunDb(db: CaseDb, run: Run, step: Step, at: Time): CaseDb {
    match step
    case Withdraw(_) => if run.phase.Refused? then Apply(db, Suppress(run.i, run.now)) else db
    case Start(_, reconciled) =>
      if run.phase.Cleared? && (reconciled.Some? ==> run.claim.attempt > 1) then Apply(db, Mark(run.i, run.now)) else db
    case Finish(_) =>
      if ResultOf(run.phase).Some? then Apply(db, Complete(run.i, run.claim, ResultOf(run.phase).value, at)) else db
    case _ => db
  }

  lemma RunStep(sys: System, step: Step, at: Time, r: nat)
    requires Actor(step) == Some(r) && r < |sys.runs|
    ensures Next(sys, step, at).db == RunDb(sys.db, sys.runs[r], step, at)
    ensures |Next(sys, step, at).runs| == |sys.runs| && Next(sys, step, at).runs[r] == NextRun(sys.db, sys.runs[r], step)
  {
  }

  /** The first steps of run `r` after its claim: it reads the case and is checked. */
  function FirstSteps(r: nat, now: Time, facts: Policy.Context): seq<Timed> {
    [Timed(See(r), now), Timed(Check(r, facts), now)]
  }

  /** The steps after the check; those that do not apply do nothing. */
  function LaterSteps(r: nat, now: Time, reconciled: Option<ProviderResult>, answer: ProviderResult, later: Time): seq<Timed> {
    [Timed(Withdraw(r), now), Timed(Start(r, reconciled), now), Timed(Call(r, answer), now), Timed(Finish(r), later)]
  }

  function Script(r: nat, now: Time, facts: Policy.Context, reconciled: Option<ProviderResult>, answer: ProviderResult, later: Time): seq<Timed> {
    FirstSteps(r, now, facts) + LaterSteps(r, now, reconciled, answer, later)
  }

  /** The rows and one run. */
  datatype Scene = Scene(db: CaseDb, run: Run)

  function Play(s: Scene, t: Timed): Scene {
    Scene(RunDb(s.db, s.run, t.step, t.at), NextRun(s.db, s.run, t.step))
  }

  /** The scene after the steps of a script, seen from the run alone. */
  function Perform(s: Scene, script: seq<Timed>): Scene {
    if script == [] then s else Play(Perform(s, script[..|script| - 1]), script[|script| - 1])
  }

  predicate ActsOnly(script: seq<Timed>, r: nat) {
    forall k :: 0 <= k < |script| ==> Actor(script[k].step) == Some(r)
  }

  lemma {:induction false} ReachPerforms(sys: System, r: nat, script: seq<Timed>)
    requires r < |sys.runs| && ActsOnly(script, r)
    ensures |Reach(sys, script).runs| == |sys.runs|
    ensures Perform(Scene(sys.db, sys.runs[r]), script) == Scene(Reach(sys, script).db, Reach(sys, script).runs[r])
  {
    if script != [] {
      var n := |script| - 1;
      ReachPerforms(sys, r, script[..n]);
      RunStep(Reach(sys, script[..n]), script[n].step, script[n].at, r);
    }
  }

  /** One script after another. */
  lemma {:induction false} PerformOn(s: Scene, first: seq<Timed>, rest: seq<Timed>)
    ensures Perform(s, first + rest) == Perform(Perform(s, first), rest)
  {
    if rest == [] {
      assert first + rest == first;
    } else {
      var n := |rest| - 1;
      PerformOn(s, first, rest[..n]);
      assert (first + rest)[..|first + rest| - 1] == first + rest[..n];
    }
  }

  lemma PerformOne(s: Scene, t: Timed)
    ensures Perform(s, [t]) == Play(s, t)
  {
    assert Perform(s, [t][..0]) == s;
  }

  lemma PerformTwo(s: Scene, t: Timed, u: Timed)
    ensures Perform(s, [t, u]) == Play(Play(s, t), u)
  {
    PerformOne(s, t);
    PerformOn(s, [t], [u]);
    PerformOne(Play(s, t), u);
    assert [t, u] == [t] + [u];
  }

  lemma PerformFour(s: Scene, t: Timed, u: Timed, v: Timed, w: Timed)
    ensures Perform(s, [t, u, v, w]) == Play(Play(Play(Play(s, t), u), v), w)
  {
    PerformTwo(s, t, u);
    PerformOn(s, [t, u], [v, w]);
    PerformTwo(Play(Play(s, t), u), v, w);
    assert [t, u, v, w] == [t, u] + [v, w];
  }

  /** A step that does not apply to the phase its run is in. */
  lemma NoOp(s: Scene, t: Timed)
    requires (t.step.Withdraw? && !s.run.phase.Refused?) || (t.step.Start? && !s.run.phase.Cleared?)
          || (t.step.Call? && s.run.phase != Started(None)) || (t.step.Finish? && ResultOf(s.run.phase).None?)
    ensures Play(s, t) == s
  {
  }

  /** The scene when the run has read the case and been checked. */
  function Checked(db: CaseDb, run: Run, facts: Policy.Context): Scene {
    Scene(db, NextRun(db, NextRun(db, run, See(0)), Check(0, facts)))
  }

  lemma FirstScenes(db: CaseDb, run: Run, r: nat, now: Time, facts: Policy.Context)
    requires run.phase.JustClaimed?
    ensures Perform(Scene(db, run), FirstSteps(r, now, facts)) == Checked(db, run, facts)
    ensures Checked(db, run, facts).db == db
    ensures Checked(db, run, facts).run.phase == if Authorised(db, NextRun(db, run, See(0)), facts) then Cleared else Refused
    ensures Checked(db, run, facts).run.i == run.i && Checked(db, run, facts).run.claim == run.claim && Checked(db, run, facts).run.now == run.now
  {
    PerformTwo(Scene(db, run), Timed(See(r), now), Timed(Check(r, facts), now));
  }

  lemma WithdrawnScene(refused: Scene, t: Timed)
    requires refused.run.phase.Refused? && t.step.Withdraw?
    ensures Play(refused, t).db == Apply(refused.db, Suppress(refused.run.i, refused.run.now)) && Play(refused, t).run.phase.Over?
  {
  }

  lemma OverIsOver(s: Scene, t: Timed)
    requires s.run.phase.Over? && (t.step.Start? || t.step.Call? || t.step.Finish?)
    ensures Play(s, t) == s
  {
    NoOp(s, t);
  }

  /** What remains of a script after a check that refuses the run: its schedule is suppressed, and the rest does nothing. */
  lemma RefusedScenes(refused: Scene, withdraw: Timed, start: Timed, call: Timed, finish: Timed)
    requires refused.run.phase.Refused? && withdraw.step.Withdraw? && start.step.Start? && call.step.Call? && finish.step.Finish?
    ensures var over := Play(refused, withdraw);
      && over.db == Apply(refused.db, Suppress(refused.run.i, refused.run.now))
      && Play(over, start) == over && Play(over, call) == over && Play(over, finish) == over
  {
    var over := Play(refused, withdraw);
    WithdrawnScene(refused, withdraw);
    OverIsOver(over, start);
    OverIsOver(over, call);
    OverIsOver(over, finish);
  }

  lemma RefusedRest(refused: Scene, r: nat, now: Time, reconciled: Option<ProviderResult>, answer: ProviderResult, later: Time)
    requires refused.run.phase.Refused?
    ensures Perform(refused, LaterSteps(r, now, reconciled, answer, later)).db == Apply(refused.db, Suppress(refused.run.i, refused.run.now))
  {
    PerformFour(refused, Timed(Withdraw(r), now), Timed(Start(r, reconciled), now), Timed(Call(r, answer), now), Timed(Finish(r), later));
    RefusedScenes(refused, Timed(Withdraw(r), now), Timed(Start(r, reconciled), now), Timed(Call(r, answer), now), Timed(Finish(r), later));
  }

  /** A script whose check refuses the run ends with the suppression of its schedule. */
  lemma RefusedScript(db: CaseDb, run: Run, r: nat, now: Time, facts: Policy.Context, reconciled: Option<ProviderResult>, answer: ProviderResult, later: Time)
    requires run.phase.JustClaimed? && run.now == now && !Authorised(db, NextRun(db, run, See(0)), facts)
    ensures Perform(Scene(db, run), Script(r, now, facts, reconciled, answer, later)).db == Apply(db, Suppress(run.i, now))
  {
    FirstScenes(db, run, r, now, facts);
    PerformOn(Scene(db, run), FirstSteps(r, now, facts), LaterSteps(r, now, reconciled, answer, later));
    RefusedRest(Checked(db, run, facts), r, now, reconciled, answer, later);
  }

  /** The rows after a cleared run has marked its schedule, called the provider unless it could reconcile, and completed. */
  function Executed(db: CaseDb, run: Run, now: Time, result: ProviderResult, later: Time): CaseDb {
    var marked := MarkExecuting(db, run.i, now);
    if marked.Abort? then db else Apply(marked.rows, Complete(run.i, run.claim, result, later))
  }

  lemma ClearedRest(cleared: Scene, r: nat, now: Time, reconciled: Option<ProviderResult>, answer: ProviderResult, later: Time)
    requires cleared.run.phase.Cleared? && cleared.run.now == now && (reconciled.Some? ==> cleared.run.claim.attempt > 1)
    ensures Perform(cleared, LaterSteps(r, now, reconciled, answer, later)).db
         == Executed(cleared.db, cleared.run, now, if reconciled.Some? then reconciled.value else answer, later)
  {
    PerformFour(cleared, Timed(Withdraw(r), now), Timed(Start(r, reconciled), now), Timed(Call(r, answer), now), Timed(Finish(r), later));
    NoOp(cleared, Timed(Withdraw(r), now));
    LastScenes(cleared, r, reconciled, answer, now, later);
  }

  /** What is executed depends on the schedule and the claim of the run alone. */
  lemma ExecutedAlike(db: CaseDb, a: Run, b: Run, now: Time, result: ProviderResult, later: Time)
    requires a.i == b.i && a.claim == b.claim
    ensures Executed(db, a, now, result, later) == Executed(db, b, now, result, later)
  {
  }

  lemma ClearedScript(db: CaseDb, run: Run, r: nat, now: Time, facts: Policy.Context, reconciled: Option<ProviderResult>, answer: ProviderResult, later: Time)
    requires run.phase.JustClaimed? && run.now == now && Authorised(db, NextRun(db, run, See(0)), facts)
    requires reconciled.Some? ==> run.claim.attempt > 1
    ensures Perform(Scene(db, run), Script(r, now, facts, reconciled, answer, later)).db
         == Executed(db, run, now, if reconciled.Some? then reconciled.value else answer, later)
  {
    var cleared := Checked(db, run, facts);
    FirstScenes(db, run, r, now, facts);
    PerformOn(Scene(db, run), FirstSteps(r, now, facts), LaterSteps(r, now, reconciled, answer, later));
    ClearedRest(cleared, r, now, reconciled, answer, later);
    ExecutedAlike(db, cleared.run, run, now, if reconciled.Some? then reconciled.value else answer, later);
  }

  lemma LastScenes(cleared: Scene, r: nat, reconciled: Option<ProviderResult>, answer: ProviderResult, now: Time, later: Time)
    requires cleared.run.phase.Cleared? && cleared.run.now == now && (reconciled.Some? ==> cleared.run.claim.attempt > 1)
    ensures Play(Play(Play(cleared, Timed(Start(r, reconciled), now)), Timed(Call(r, answer), now)), Timed(Finish(r), later)).db
         == Executed(cleared.db, cleared.run, now, if reconciled.Some? then reconciled.value else answer, later)
  {
    StartedScene(cleared, r, reconciled, now);
    var started := Play(cleared, Timed(Start(r, reconciled), now));
    if started.run.phase.Over? {
      OverIsOver(started, Timed(Call(r, answer), now));
      OverIsOver(started, Timed(Finish(r), later));
    } else {
      AnsweredScene(started, r, reconciled, answer, now);
      FinishedScene(Play(started, Timed(Call(r, answer), now)), r, if reconciled.Some? then reconciled.value else answer, later);
    }
  }

  /** A cleared run marks its schedule, or is over when the mark is refused. */
  lemma StartedScene(cleared: Scene, r: nat, reconciled: Option<ProviderResult>, now: Time)
    requires cleared.run.phase.Cleared? && cleared.run.now == now && (reconciled.Some? ==> cleared.run.claim.attempt > 1)
    ensures var started, marked := Play(cleared, Timed(Start(r, reconciled), now)), MarkExecuting(cleared.db, cleared.run.i, now);
      && started.run.i == cleared.run.i && started.run.claim == cleared.run.claim
      && started.run.phase == (if marked.Commit? then Started(reconciled) else Over)
      && started.db == CaseRows.After(cleared.db, marked)
  {
  }

  /** A started run calls the provider unless it could reconcile; either way it knows its result. */
  lemma AnsweredScene(started: Scene, r: nat, reconciled: Option<ProviderResult>, answer: ProviderResult, now: Time)
    requires started.run.phase == Started(reconciled)
    ensures var answered := Play(started, Timed(Call(r, answer), now));
      && answered.db == started.db && answered.run.i == started.run.i && answered.run.claim == started.run.claim
      && ResultOf(answered.run.phase) == Some(if reconciled.Some? then reconciled.value else answer)
  {
  }

  lemma FinishedScene(answered: Scene, r: nat, result: ProviderResult, later: Time)
    requires ResultOf(answered.run.phase) == Some(result)
    ensures Play(answered, Timed(Finish(r), later)).db == Apply(answered.db, Complete(answered.run.i, answered.run.claim, result, later))
  {
  }

  /** An uninterrupted `RunOnce` is a trace of the workflow: its claim, then the script of its run. */
  lemma RunOnceIsATrace(sys: System, i: nat, owner: nat, now: Time, facts: Policy.Context,
                        reconciled: Option<ProviderResult>, answer: ProviderResult, later: Time)
    requires i < |sys.db.schedules| && Claimable(sys.db.schedules[i], now)
    ensures var known := if NewRun(sys.db, i, owner, now).claim.attempt > 1 then reconciled else None;
      Reach(Next(sys, ClaimWork(i, owner), now), Script(|sys.runs|, now, facts, known, answer, later)).db
        == SerialRun(sys.db, i, owner, now, facts, reconciled, answer, later)
  {
    var claimed := Next(sys, ClaimWork(i, owner), now);
    var r, run := |sys.runs|, NewRun(sys.db, i, owner, now);
    var known := if run.claim.attempt > 1 then reconciled else None;
    assert claimed.runs == sys.runs + [run];
    ReachPerforms(claimed, r, Script(r, now, facts, known, answer, later));
    if Authorised(claimed.db, NextRun(claimed.db, run, See(0)), facts) {
      ClearedScript(claimed.db, run, r, now, facts, known, answer, later);
    } else {
      RefusedScript(claimed.db, run, r, now, facts, known, answer, later);
    }
    SerialIs(sys.db, i, owner, now, facts, reconciled, answer, later);
  }

  lemma SerialIs(db: CaseDb, i: nat, owner: nat, now: Time, facts: Policy.Context, reconciled: Option<ProviderResult>, answer: ProviderResult, later: Time)
    requires i < |db.schedules| && Claimable(db.schedules[i], now)
    ensures var claimed, run := ClaimDue(db, i, owner, now, LEASE).rows, NewRun(db, i, owner, now);
      SerialRun(db, i, owner, now, facts, reconciled, answer, later)
        == if Authorised(claimed, NextRun(claimed, run, See(0)), facts) then
             Executed(claimed, run, now, if run.claim.attempt > 1 && reconciled.Some? then reconciled.value else answer, later)
           else Apply(claimed, Suppress(i, now))
  {
    var claimed, run := ClaimDue(db, i, owner, now, LEASE).rows, NewRun(db, i, owner, now);
    ClaimedIs(db, i, owner, now);
    if Authorised(claimed, NextRun(claimed, run, See(0)), facts) {
      ExecutedIs(claimed, run, now, if run.claim.attempt > 1 && reconciled.Some? then reconciled.value else answer, later);
    } else {
      assert Apply(claimed, Suppress(i, now)) == CaseRows.After(claimed, MarkSuppressed(claimed, i, now));
    }
  }

  lemma ClaimedIs(db: CaseDb, i: nat, owner: nat, now: Time)
    requires i < |db.schedules| && Claimable(db.schedules[i], now)
    ensures var claimed, run := ClaimDue(db, i, owner, now, LEASE), NewRun(db, i, owner, now);
      claimed.Commit? && claimed.value == run.claim && run.i == i
  {
  }

  lemma ExecutedIs(db: CaseDb, run: Run, now: Time, result: ProviderResult, later: Time)
    ensures var marked := MarkExecuting(db, run.i, now);
      Executed(db, run, now, result, later)
        == if marked.Abort? then db else CaseRows.After(marked.rows, CompleteExecution(marked.rows, run.i, run.claim, result, later))
  {
  }

  // ----- one decision, uninterrupted -----

  /** The decision the evaluator hands over for the case as it stands. */
  function Evaluate(db: CaseDb, facts: Policy.Context, candidate: Policy.Candidate, threshold: int, now: Time): Snapshot {
    var gate := EconomicGate.Evaluate(candidate.action, candidate.nerv, threshold);
    var context := ContextOf(db, db.state, db.version, facts);
    Snapshot(db.version, gate, candidate.incentive, Policy.Judge(context, db.version, candidate, gate.allow, now), now)
  }

  function SerialDecision(db: CaseDb, facts: Policy.Context, candidate: Policy.Candidate, threshold: int, now: Time, later: Time): CaseDb {
    var prepared := PrepareForDecision(db);
    if prepared.Abort? then db
    else CaseRows.After(prepared.rows, SaveDecisionAndSchedule(prepared.rows, Evaluate(prepared.rows, facts, candidate, threshold, now), later))
  }

  class Coordinator {
    const store: Store

    constructor (store: Store)
      ensures this.store == store
    {
      this.store := store;
    }

    /** Prepare, evaluate, save: the ranking's candidate and the other services' facts are arguments. */
    method Decide(facts: Policy.Context, candidate: Policy.Candidate, threshold: int, now: Time, later: Time) returns (reply: Reply<Option<nat>>)
      modifies store
      ensures store.View() == SerialDecision(old(store.View()), facts, candidate, threshold, now, later)
      ensures reply.Ok? ==> PrepareForDecision(old(store.View())).Commit?
    {
      var prepared := store.PrepareForDecision();
      if prepared.Fail? {
        return Fail(prepared.error);
      }
      var snapshot := Evaluate(store.View(), facts, candidate, threshold, now);
      reply := store.SaveDecisionAndSchedule(snapshot, later);
    }

    /** Close a due observation and, when it leaves the case ready, decide again. */
    method RunObservationOnce(i: nat, owner: nat, now: Time, facts: Policy.Context, candidate: Policy.Candidate, threshold: int, later: Time)
      modifies store
      ensures var claimed := ClaimDueObservation(old(store.View()), i, owner, now, LEASE);
        store.View() == if claimed.Abort? then old(store.View())
          else
            var closed := PrepareReassessment(claimed.rows, i, now);
            if closed.Commit? && closed.value then SerialDecision(closed.rows, facts, candidate, threshold, now, later)
            else CaseRows.After(claimed.rows, closed)
    {
      var claimed := store.ClaimDueObservation(i, owner, now, LEASE);
      if claimed.Ok? {
        var ready := store.PrepareReassessment(i, now);
        if ready.Ok? && ready.value {
          var reply := Decide(facts, candidate, threshold, now, later);
        }
      }
    }
  }

  /** The flight of a decision, as it stands at each of its steps. */
  lemma DecisionSteps(sys: System, facts: Policy.Context, candidate: Policy.Candidate, threshold: int, now: Time)
    requires PrepareForDecision(sys.db).Commit?
    ensures var f, begun := |sys.flights|, Next(sys, Begin(Deciding), now);
      var judged := Next(Next(begun, Look(f), now), Assess(f, facts, candidate, threshold), now);
      && begun.db == PrepareForDecision(sys.db).rows && judged.db == begun.db && f < |judged.flights|
      && judged.flights[f].purpose.Deciding? && judged.flights[f].stage.Judged?
      && SnapshotOf(judged.flights[f]) == Evaluate(begun.db, facts, candidate, threshold, now)
  {
  }

  /** An uninterrupted `Decide` is a trace of the workflow. */
  lemma DecideIsATrace(sys: System, facts: Policy.Context, candidate: Policy.Candidate, threshold: int, now: Time, later: Time)
    requires PrepareForDecision(sys.db).Commit?
    ensures var f, begun := |sys.flights|, Next(sys, Begin(Deciding), now);
      var judged := Next(Next(begun, Look(f), now), Assess(f, facts, candidate, threshold), now);
      Next(judged, Land(f, 0), later).db == SerialDecision(sys.db, facts, candidate, threshold, now, later)
  {
    DecisionSteps(sys, facts, candidate, threshold, now);
  }

  /** A decision as the last four steps of a trace; those that do not apply do nothing. */
  function Redecided(sys: System, next: Redecision): System {
    var f := |sys.flights|;
    var judged := Next(Next(Next(sys, Begin(Deciding), next.at), Look(f), next.at), Assess(f, next.facts, next.candidate, next.threshold), next.at);
    Next(judged, Land(f, 0), next.later)
  }

  lemma RedecidedIs(sys: System, next: Redecision)
    ensures Redecided(sys, next).db == SerialDecision(sys.db, next.facts, next.candidate, next.threshold, next.at, next.later)
  {
    if PrepareForDecision(sys.db).Commit? {
      DecideIsATrace(sys, next.facts, next.candidate, next.threshold, next.at, next.later);
    } else {
      NotDecided(sys, next);
    }
  }

  lemma NotDecided(sys: System, next: Redecision)
    requires PrepareForDecision(sys.db).Abort?
    ensures Redecided(sys, next).db == sys.db
  {
  }

  /** The whole of `RunOnce`, with the decision that a permanent failure leads to, is a trace of the workflow too. */
  lemma RunOnceDecidesInATrace(sys: System, i: nat, owner: nat, now: Time, facts: Policy.Context,
                               reconciled: Option<ProviderResult>, answer: ProviderResult, later: Time, next: Redecision)
    requires i < |sys.db.schedules| && Claimable(sys.db.schedules[i], now)
    requires Calls(sys.db, i, owner, now, facts, reconciled) && answer.status.Failed? && !answer.retryable
    ensures var known := if NewRun(sys.db, i, owner, now).claim.attempt > 1 then reconciled else None;
      var run := Reach(Next(sys, ClaimWork(i, owner), now), Script(|sys.runs|, now, facts, known, answer, later));
      Redecided(run, next).db == SerialRunOnce(sys.db, i, owner, now, facts, reconciled, answer, later, next)
  {
    RunOnceIsATrace(sys, i, owner, now, facts, reconciled, answer, later);
    var known := if NewRun(sys.db, i, owner, now).claim.attempt > 1 then reconciled else None;
    RedecidedIs(Reach(Next(sys, ClaimWork(i, owner), now), Script(|sys.runs|, now, facts, known, answer, later)), next);
  }
}
