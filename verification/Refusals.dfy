/** What a refused batch says about itself: each reason is given only for its own cause. */
module Refusals {
  import opened Wrappers
  import opened Vocabulary
  import opened Graph
  import opened CaseDecisions
  import opened KnowledgeAuthorizer

  predicate Looking(d: CaseDecision) {
    d.kind == Observe || d.kind == Investigate
  }

  function LookingFor(d: CaseDecision): RevealKind {
    if d.kind == Observe then RevealObserve else RevealInvestigate
  }

  predicate Locked(input: Preflight, d: CaseDecision, e: EntityID) {
    (Looking(d) || d.kind == Question) && e in input.solutionLocked && input.casePhase != Denouement
  }

  predicate Ineligible(input: Preflight, d: CaseDecision, e: EntityID) {
    || ((Looking(d) || d.kind == Question) && e !in input.caseEvidence)
    || (Looking(d) && (e !in input.eligibility || LookingFor(d) !in input.eligibility[e].kinds))
  }

  predicate TooSoon(input: Preflight, d: CaseDecision, e: EntityID) {
    Looking(d) && e in input.eligibility && Rank(input.casePhase) < Rank(input.eligibility[e].minimumPhase)
  }

  predicate LooksElsewhere(input: Preflight, d: CaseDecision, e: EntityID) {
    Looking(d) && e in input.eligibility && forall x :: x in d.targetRefs ==> x !in input.eligibility[e].targets
  }

  predicate NotBelieved(input: Preflight, d: CaseDecision, e: EntityID) {
    d.kind == Question && |d.targetRefs| == 1 && ActorEvidence(d.targetRefs[0], e) !in input.beliefs
  }

  predicate NotKnown(input: Preflight, d: CaseDecision, e: EntityID) {
    d.kind == Share && ActorEvidence(input.actingActor, e) !in input.known
  }

  predicate NotTrusted(input: Preflight, policies: Policies, d: CaseDecision, e: EntityID) {
    d.kind == Share && |d.targetRefs| == 1 &&
    match policies.shares
    case None => true
    case Some(answer) => answer(input.actingActor, d.targetRefs[0], e) == ShareDenied
  }

  predicate ShareUnanswered(input: Preflight, policies: Policies, d: CaseDecision, e: EntityID) {
    d.kind == Share && |d.targetRefs| == 1 && policies.shares.Some? &&
    policies.shares.value(input.actingActor, d.targetRefs[0], e) == ShareUnavailable
  }

  predicate TargetsUnfit(input: Preflight, d: CaseDecision) {
    || ((d.kind == Question || d.kind == Share) && |d.targetRefs| != 1)
    || (d.kind == Question && |d.targetRefs| == 1 && d.targetRefs[0] !in input.caseCharacters)
  }

  /** The cause of a reason, when it lies in one proposed piece of evidence. */
  predicate EvidenceCause(input: Preflight, policies: Policies, d: CaseDecision, reason: Refusal, e: EntityID) {
    match reason
    case PolicyUnavailable => ShareUnanswered(input, policies, d, e)
    case Refused(SolutionLocked) => Locked(input, d, e)
    case Refused(IneligibleReveal) => Ineligible(input, d, e)
    case Refused(IneligiblePhase) => TooSoon(input, d, e)
    case Refused(InvalidTarget) => LooksElsewhere(input, d, e)
    case Refused(QuestionTargetMismatch) => NotBelieved(input, d, e)
    case Refused(ShareSourceUnknown) => NotKnown(input, d, e)
    case Refused(ShareTargetUnauthorized) => NotTrusted(input, policies, d, e)
    case _ => false
  }

  /** The cause of a reason that concerns the whole proposal. */
  predicate WholeCause(input: Preflight, policies: Policies, d: CaseDecision, reason: Refusal) {
    match reason
    case Refused(WrongCase) => d.caseID != input.caseID
    case Refused(WrongActor) => d.actorID != input.actingActor
    case Refused(InvalidTarget) => TargetsUnfit(input, d)
    case Refused(UnsupportedKind) => d.kind.Unregistered? || (d.kind in {RequestHint, Accuse, Other} && d.revealRefs != [])
    case Refused(WitnessUnauthorized) =>
      Looking(d) && d.revealRefs != [] && policies.witnesses.Some? &&
      policies.witnesses.value(input.actingActor, d.targetRefs) in {Witness(""), Witness(input.actingActor)}
    case PolicyUnavailable =>
      Looking(d) && d.revealRefs != [] && policies.witnesses.Some? &&
      policies.witnesses.value(input.actingActor, d.targetRefs) == WitnessUnavailable
    case _ => false
  }

  ghost predicate Caused(input: Preflight, policies: Policies, d: CaseDecision, reason: Refusal) {
    || WholeCause(input, policies, d, reason)
    || exists i :: 0 <= i < |d.revealRefs| && EvidenceCause(input, policies, d, reason, d.revealRefs[i])
  }

  lemma LookCaused(input: Preflight, policies: Policies, d: CaseDecision)
    requires Looking(d) && AuthorizeLook(input, policies, d, LookingFor(d)).Err?
    ensures Caused(input, policies, d, AuthorizeLook(input, policies, d, LookingFor(d)).error)
  {
    var check := e => RevealRefusal(input, LookingFor(d), d.targetRefs, e);
    FirstRefusalMeaning(d.revealRefs, check);
    if FirstRefusal(d.revealRefs, check).Some? {
      var i :| 0 <= i < |d.revealRefs| && check(d.revealRefs[i]) == FirstRefusal(d.revealRefs, check);
      assert EvidenceCause(input, policies, d, check(d.revealRefs[i]).value, d.revealRefs[i]);
    }
  }

  lemma QuestionCaused(input: Preflight, policies: Policies, d: CaseDecision)
    requires d.kind == Question && AuthorizeQuestion(input, d).Err?
    ensures Caused(input, policies, d, AuthorizeQuestion(input, d).error)
  {
    if |d.targetRefs| == 1 && d.targetRefs[0] in input.caseCharacters {
      var check := e => QuestionRefusal(input, d.targetRefs[0], e);
      FirstRefusalMeaning(d.revealRefs, check);
      var i :| 0 <= i < |d.revealRefs| && check(d.revealRefs[i]) == FirstRefusal(d.revealRefs, check);
      assert EvidenceCause(input, policies, d, check(d.revealRefs[i]).value, d.revealRefs[i]);
    }
  }

  lemma ShareCaused(input: Preflight, policies: Policies, d: CaseDecision)
    requires d.kind == Share && AuthorizeShare(input, policies, d).Err?
    ensures Caused(input, policies, d, AuthorizeShare(input, policies, d).error)
  {
    if |d.targetRefs| == 1 {
      var check := e => ShareRefusal(input, policies, d.targetRefs[0], e);
      FirstRefusalMeaning(d.revealRefs, check);
      var i :| 0 <= i < |d.revealRefs| && check(d.revealRefs[i]) == FirstRefusal(d.revealRefs, check);
      assert EvidenceCause(input, policies, d, check(d.revealRefs[i]).value, d.revealRefs[i]);
    }
  }

  /** Every refusal names its own cause; in particular a policy that gave no answer is never reported as a denial, nor a
      denial as a policy that gave none. */
  lemma RefusalsAreCaused(input: Preflight, policies: Policies)
    requires input.decision.Some? && AuthorizeWithWitnesses(input, policies).Err?
    ensures Caused(input, policies, input.decision.value, AuthorizeWithWitnesses(input, policies).error)
  {
    var d := input.decision.value;
    if d.caseID == input.caseID && d.actorID == input.actingActor {
      if Looking(d) {
        LookCaused(input, policies, d);
      } else if d.kind == Question {
        QuestionCaused(input, policies, d);
      } else if d.kind == Share {
        ShareCaused(input, policies, d);
      }
    }
  }
}
