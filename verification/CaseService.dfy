/** The services in front of the repository: manual transitions and operator reviews, as their callers meet them. */
module CaseService {
  import opened Wrappers
  import opened Domain
  import opened CaseRows
  import opened CaseSteps
  import opened Transactions
  import opened Workflow
  import opened CaseStore
  import Policy

  datatype Refusal = VersionConflict | InvalidTransition

  datatype ActorType = Operator | Supervisor | SystemTest | OtherActor

  /** What an operator submits. `decision` is None when the word is none of the four. */
  datatype ReviewInput = ReviewInput(decision: Option<ReviewDecision>, operator: string, reason: string, key: string,
                                     actor: ActorType, expected: nat, reviewAfter: Option<Time>)

  /** White space of the Latin-1 range. */
  predicate IsSpace(c: char) {
    c == ' ' || '\t' <= c <= '\r' || c == '\U{85}' || c == '\U{a0}'
  }

  predicate Blank(s: string) {
    forall i :: 0 <= i < |s| ==> IsSpace(s[i])
  }

  /** A review is acceptable when it says who, why and what, under a key, and a deferral says until when. */
  predicate Acceptable(input: ReviewInput, now: Time) {
    && input.decision.Some?
    && !Blank(input.operator) && !Blank(input.reason) && !Blank(input.key)
    && !input.actor.OtherActor?
    && (input.decision.value.ReviewDefer? ==> input.reviewAfter.Some? && input.reviewAfter.value > now)
  }

  class Service {
    const store: Store

    constructor (store: Store)
      ensures this.store == store
    {
      this.store := store;
    }

    /** A manual transition; an expected version of 0 means that the caller does not care. */
    method Transition(expected: nat, to: CaseState) returns (refusal: Option<Refusal>)
      modifies store
      ensures refusal.None? <==> (expected == 0 || expected == old(store.version)) && CanTransition(old(store.state), to)
      ensures refusal == Some(VersionConflict) <==> expected != 0 && expected != old(store.version)
      ensures store.View() == if refusal.None? then Log(Advance(old(store.View()), to), [EventForTransition(to)]) else old(store.View())
    {
      var current, state := store.version, store.state;
      if expected != 0 && expected != current {
        return Some(VersionConflict);
      }
      if !CanTransition(state, to) {
        return Some(InvalidTransition);
      }
      var moved := store.TransitionCase(current, to);
      refusal := None;
    }

    method IsBlank(s: string) returns (blank: bool)
      ensures blank == Blank(s)
    {
      for i := 0 to |s|
        invariant forall j :: 0 <= j < i ==> IsSpace(s[j])
      {
        if !IsSpace(s[i]) {
          return false;
        }
      }
      blank := true;
    }

    /** An operator's review: an approval is weighed afresh against the policy, anything else is taken as given. */
    method Review(input: ReviewInput, about: nat, observedPolicyVersion: int, policyVersion: int, facts: Policy.Context, now: Time)
      returns (reply: Reply<bool>)
      modifies store
      ensures !Acceptable(input, now) ==> reply == Fail(InvalidInput) && store.View() == old(store.View())
      ensures input.decision == Some(ReviewDefer) && (input.reviewAfter.None? || input.reviewAfter.value <= now) ==> reply == Fail(InvalidInput)
      ensures input.decision.None? || input.operator == "" || input.reason == "" || input.key == "" || input.actor.OtherActor? ==> reply == Fail(InvalidInput)
      ensures Acceptable(input, now) && about >= |old(store.View()).decisions| ==> reply == Fail(NotFound) && store.View() == old(store.View())
      ensures Acceptable(input, now) && about < |old(store.View()).decisions| ==>
                var command := Command(old(store.View()), input, about, observedPolicyVersion, facts, now);
                && store.View() == CaseRows.After(old(store.View()), ApplyHumanReview(old(store.View()), command, policyVersion, now))
                && reply == ReplyOf(ApplyHumanReview(old(store.View()), command, policyVersion, now))
    {
      if input.decision.None? {
        return Fail(InvalidInput);
      }
      var noOperator := IsBlank(input.operator);
      var noReason := IsBlank(input.reason);
      var noKey := IsBlank(input.key);
      if noOperator || noReason || noKey || input.actor.OtherActor? {
        return Fail(InvalidInput);
      }
      var decision := input.decision.value;
      if decision.ReviewDefer? && (input.reviewAfter.None? || input.reviewAfter.value <= now) {
        return Fail(InvalidInput);
      }
      if about >= |store.decisions| {
        return Fail(NotFound);
      }
      var verdict := Policy.Approve;
      if decision.ReviewApprove? {
        var d := store.decisions[about];
        var context := ContextOf(store.View(), store.state, store.version, facts);
        verdict := Policy.Judge(context, store.version, CandidateOf(d), d.gate.allow, now);
      }
      reply := store.ApplyHumanReview(ReviewCommand(input.key, decision, input.expected, about, observedPolicyVersion, verdict), policyVersion, now);
    }
  }

  /** The command that an acceptable review amounts to. */
  function Command(db: CaseDb, input: ReviewInput, about: nat, observedPolicyVersion: int, facts: Policy.Context, now: Time): ReviewCommand
    requires about < |db.decisions| && input.decision.Some?
  {
    var d := db.decisions[about];
    var verdict := Policy.Judge(ContextOf(db, db.state, db.version, facts), db.version, CandidateOf(d), d.gate.allow, now);
    ReviewCommand(input.key, input.decision.value, input.expected, about, observedPolicyVersion,
                  if input.decision.value.ReviewApprove? then verdict else Policy.Approve)
  }

  /** An operator can override an escalation, but nothing else: neither a newer case or policy, nor the deadline, nor a verdict of DENY or STOP. */
  lemma ApprovalSchedulesOnlyIf(db: CaseDb, command: ReviewCommand, policyVersion: int, now: Time)
    ensures |Apply(db, Decide(command, policyVersion, now)).schedules| > |db.schedules| <==>
      && !KnownReview(db, command.key) && command.about < |db.decisions| && command.decision.ReviewApprove?
      && db.state.Escalated? && db.version == command.expected && policyVersion == command.observedPolicyVersion
      && now < db.deadline && (command.verdict.Approve? || command.verdict.Escalate?)
  {
  }

  /** The action approved may be WAIT: unlike a decision, an approval schedules that too. */
  lemma ApprovalMayScheduleWait(db: CaseDb, command: ReviewCommand, policyVersion: int, now: Time)
    requires |Apply(db, Decide(command, policyVersion, now)).schedules| > |db.schedules|
    requires db.decisions[command.about].gate.action.Wait?
    ensures Apply(db, Decide(command, policyVersion, now)).schedules[|db.schedules|].action.Wait?
  {
    ApprovalSchedulesOnlyIf(db, command, policyVersion, now);
  }

  lemma DecisionNeverSchedulesWait(db: CaseDb, s: Snapshot, now: Time)
    ensures |Apply(db, Save(s, now)).schedules| > |db.schedules| ==> s.verdict.Approve? && s.gate.allow && !s.gate.action.Wait?
  {
  }

  /** Applying the same review twice does nothing the second time. */
  lemma ReviewIsIdempotent(db: CaseDb, command: ReviewCommand, policyVersion: int, now: Time, again: ReviewCommand, laterPolicy: int, later: Time)
    requires ApplyHumanReview(db, command, policyVersion, now).Commit? && again.key == command.key
    ensures Apply(Apply(db, Decide(command, policyVersion, now)), Decide(again, laterPolicy, later)) == Apply(db, Decide(command, policyVersion, now))
  {
    var after := Apply(db, Decide(command, policyVersion, now));
    if KnownReview(db, command.key) {
      assert after == db;
    } else {
      assert after.reviews[|db.reviews|].key == command.key;
    }
    assert KnownReview(after, command.key);
  }
}
