/** What holds of a case in every reachable state, however runs, flights and crashes interleave. */
module Lifecycle {
  import opened Wrappers
  import opened Domain
  import opened CaseRows
  import opened CaseSteps
  import opened Transactions
  import opened Ledgers
  import opened Workflow
  import Payments

  /** The case was in this state when it had this version. */
  predicate Sighting(db: CaseDb, state: CaseState, version: nat) {
    1 <= version <= |db.trail| && db.trail[version - 1] == state
  }

  /** Whatever a run or a flight has read of the case was true at that version. */
  predicate Truthful(sys: System) {
    && (forall f :: 0 <= f < |sys.flights| && !sys.flights[f].stage.Begun? ==> Sighting(sys.db, sys.flights[f].state, sys.flights[f].version))
    && forall r :: 0 <= r < |sys.runs| && !sys.runs[r].phase.JustClaimed? ==> Sighting(sys.db, sys.runs[r].state, sys.runs[r].version)
  }

  predicate Lawful(sys: System) {
    Sound(sys.db) && Truthful(sys)
  }

  /** The compare-and-set on the version never lands a transition the table forbids, although it does not read the state again. */
  lemma StepsAreLegal(sys: System, step: Step, at: Time)
    requires Lawful(sys)
    ensures TxnOf(sys, step, at).Some? ==> LegalMove(sys.db, TxnOf(sys, step, at).value)
  {
  }

  lemma FlightsStayTruthful(sys: System, step: Step, at: Time)
    requires Lawful(sys) && sys.db.trail <= NextDb(sys, step, at).trail
    ensures forall f :: 0 <= f < |NextFlights(sys, step, at)| && !NextFlights(sys, step, at)[f].stage.Begun?
              ==> Sighting(NextDb(sys, step, at), NextFlights(sys, step, at)[f].state, NextFlights(sys, step, at)[f].version)
  {
    var flights := NextFlights(sys, step, at);
    forall f | 0 <= f < |flights| && !flights[f].stage.Begun?
      ensures Sighting(NextDb(sys, step, at), flights[f].state, flights[f].version)
    {
      if f < |sys.flights| {
        NextFlightIsTruthful(sys, step, at, f);
      }
    }
  }

  lemma NextFlightIsTruthful(sys: System, step: Step, at: Time, f: nat)
    requires Lawful(sys) && f < |sys.flights|
    ensures var next := NextFlights(sys, step, at);
      f < |next| && (!next[f].stage.Begun? ==> Sighting(sys.db, next[f].state, next[f].version))
  {
  }

  lemma NextRunIsTruthful(db: CaseDb, run: Run, step: Step)
    requires Trailed(db) && (!run.phase.JustClaimed? ==> Sighting(db, run.state, run.version))
    ensures var next := NextRun(db, run, step); !next.phase.JustClaimed? ==> Sighting(db, next.state, next.version)
  {
  }

  lemma RunsStayTruthful(sys: System, step: Step, at: Time)
    requires Lawful(sys) && sys.db.trail <= NextDb(sys, step, at).trail
    ensures forall r :: 0 <= r < |NextRuns(sys, step, at)| && !NextRuns(sys, step, at)[r].phase.JustClaimed?
              ==> Sighting(NextDb(sys, step, at), NextRuns(sys, step, at)[r].state, NextRuns(sys, step, at)[r].version)
  {
    var runs := NextRuns(sys, step, at);
    forall r | 0 <= r < |runs| && !runs[r].phase.JustClaimed?
      ensures Sighting(NextDb(sys, step, at), runs[r].state, runs[r].version)
    {
      if r < |sys.runs| {
        NextRunIsTruthful(sys.db, sys.runs[r], step);
      }
    }
  }

  lemma StaysLawful(sys: System, step: Step, at: Time)
    requires Lawful(sys)
    ensures Lawful(Next(sys, step, at)) && sys.db.trail <= Next(sys, step, at).db.trail
  {
    var t := TxnOf(sys, step, at);
    if t.Some? {
      StepsAreLegal(sys, step, at);
      StaysSound(sys.db, t.value);
      StaysTrailed(sys.db, t.value);
    }
    FlightsStayTruthful(sys, step, at);
    RunsStayTruthful(sys, step, at);
  }

  /** From a lawful state every trace leads to lawful states, and only ever adds to the trail. */
  lemma {:induction false} LawfulForever(sys: System, trace: seq<Timed>)
    requires Lawful(sys)
    ensures Lawful(Reach(sys, trace)) && sys.db.trail <= Reach(sys, trace).db.trail
  {
    if trace != [] {
      var last := trace[|trace| - 1];
      LawfulForever(sys, trace[..|trace| - 1]);
      StaysLawful(Reach(sys, trace[..|trace| - 1]), last.step, last.at);
    }
  }

  lemma StartsLawful(deadline: Time, clock: Time)
    ensures Lawful(Initial(deadline, clock))
  {
    NewCaseIsSound(deadline);
  }

  /**
   * In every reachable state: the trail follows the table but for jumps to RECOVERED, the log is numbered
   * 1..n, the recovered amount is what was attributed, stamps are distinct and no newer than the case, an
   * attempt has one execution, and a promise is resolved at most once.
   */
  lemma AlwaysLawful(deadline: Time, clock: Time, trace: seq<Timed>)
    ensures Lawful(Reach(Initial(deadline, clock), trace))
  {
    StartsLawful(deadline, clock);
    LawfulForever(Initial(deadline, clock), trace);
  }

  /** A case that reaches a terminal state stays in it, whatever happens afterwards. */
  lemma {:induction false} TerminalForever(sys: System, trace: seq<Timed>)
    requires Lawful(sys) && IsTerminal(sys.db.state)
    ensures Reach(sys, trace).db.state == sys.db.state && Reach(sys, trace).db.version == sys.db.version
  {
    if trace != [] {
      var last, before := trace[|trace| - 1], Reach(sys, trace[..|trace| - 1]);
      TerminalForever(sys, trace[..|trace| - 1]);
      LawfulForever(sys, trace[..|trace| - 1]);
      StepsAreLegal(before, last.step, last.at);
      var t := TxnOf(before, last.step, last.at);
      if t.Some? {
        TerminalIsAbsorbing(before.db, t.value);
      }
    }
  }

  /** A version once reached means the same state for ever: what was read at the current version is still so. */
  lemma VersionDeterminesState(sys: System, f: nat)
    requires Lawful(sys) && f < |sys.flights| && !sys.flights[f].stage.Begun?
    ensures sys.flights[f].version <= sys.db.version
    ensures sys.flights[f].version == sys.db.version ==> sys.flights[f].state == sys.db.state
  {
  }

  /** The states a step takes the case through. */
  function StepPath(sys: System, step: Step, at: Time): seq<CaseState> {
    var t := TxnOf(sys, step, at);
    if t.Some? then Path(sys.db, t.value) else []
  }

  /** Only an attribution takes a step the table does not have, and then only to RECOVERED. */
  lemma OnlyAttributionLeavesTheTable(sys: System, step: Step, at: Time)
    requires Lawful(sys)
    ensures Next(sys, step, at).db.trail == sys.db.trail + StepPath(sys, step, at)
    ensures Legal(sys.db.state, StepPath(sys, step, at))
         || (TxnOf(sys, step, at).Some? && TxnOf(sys, step, at).value.Attribute? && StepPath(sys, step, at) == [Recovered])
  {
    var t := TxnOf(sys, step, at);
    if t.Some? {
      StepsAreLegal(sys, step, at);
      Moves(sys.db, t.value);
    }
  }

  /** A payment that can be recorded, for a case in a state that the table does not let go to RECOVERED. */
  predicate Jumps(db: CaseDb, t: Txn) {
    t.Attribute? && Payments.Recordable(db, t.reference, t.amount, t.now, t.correlation) && !CanTransition(db.state, Recovered)
  }

  /** Exactly such a payment leaves the table. */
  lemma LeavesTheTableExactlyWhen(sys: System, step: Step, at: Time)
    requires Lawful(sys)
    ensures !Legal(sys.db.state, StepPath(sys, step, at)) <==> TxnOf(sys, step, at).Some? && Jumps(sys.db, TxnOf(sys, step, at).value)
  {
    var t := TxnOf(sys, step, at);
    OnlyAttributionLeavesTheTable(sys, step, at);
    if t.Some? && t.value.Attribute? {
      Payments.RecordedExactlyWhen(sys.db, t.value.reference, t.value.amount, t.value.now, t.value.correlation);
    }
  }

  /** The open states from which the table has no edge to RECOVERED. */
  lemma NoEdgeToRecovered(s: CaseState)
    requires !IsTerminal(s)
    ensures !CanTransition(s, Recovered) <==> !s.WaitingOutcome? && !s.Reassessing? && !s.Escalated?
  {
  }

  /** That jump is real: any payment that can be recorded for a case in SCHEDULED closes it. */
  lemma AttributionJumps(db: CaseDb, reference: string, amount: int, observed: Time, correlation: Correlation)
    requires Accounted(db) && db.state.Scheduled? && Payments.Recordable(db, reference, amount, observed, correlation)
    ensures !CanTransition(Scheduled, Recovered)
    ensures Apply(db, Attribute(reference, amount, observed, correlation)).trail == db.trail + [Recovered]
  {
    Payments.RecordedExactlyWhen(db, reference, amount, observed, correlation);
  }
}
