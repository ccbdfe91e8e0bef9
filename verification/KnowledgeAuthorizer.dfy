/** Deciding, from one read-only snapshot, which actor may learn which evidence. */
module KnowledgeAuthorizer {
  import opened Wrappers
  import opened Vocabulary
  import opened Graph
  import opened CaseDecisions

  datatype Reason =
    | WrongTurn | WrongCase | WrongActor | InvalidTarget | IneligibleReveal | IneligiblePhase
    | SolutionLocked | QuestionTargetMismatch | ShareSourceUnknown | ShareTargetUnauthorized
    | WitnessUnauthorized | UnsupportedKind

  /** A permanent refusal of the whole batch, or a policy lookup that failed and may be retried. */
  datatype Refusal = Refused(reason: Reason) | PolicyUnavailable

  datatype Eligibility = Eligibility(minimumPhase: CasePhase, kinds: seq<RevealKind>, targets: seq<EntityID>)

  datatype ActorEvidence = ActorEvidence(actor: EntityID, evidence: EntityID)

  datatype AuthoredBelief = AuthoredBelief(
    id: EntityID, holder: EntityID, evidence: EntityID, stance: Stance, prose: string)

  datatype Preflight = Preflight(
    decision: Option<CaseDecision>,
    actingActor: EntityID,
    caseID: EntityID,
    casePhase: CasePhase,
    caseEvidence: set<EntityID>,
    caseCharacters: set<EntityID>,
    eligibility: map<EntityID, Eligibility>,
    beliefs: map<ActorEvidence, AuthoredBelief>,
    known: set<ActorEvidence>,
    solutionLocked: set<EntityID>)

  datatype Testimony = Testimony(
    belief: EntityID, source: EntityID, recipient: EntityID, evidence: EntityID, stance: Stance, prose: string)

  datatype Entry = Entry(recipient: EntityID, evidence: EntityID, testimony: Option<Testimony>)

  datatype ShareReply = ShareAllowed | ShareDenied | ShareUnavailable

  datatype WitnessReply = Witness(id: EntityID) | NoWitness | WitnessUnavailable

  /** The injected relationship policies; either may be absent. */
  datatype Policies = Policies(
    shares: Option<(EntityID, EntityID, EntityID) -> ShareReply>,
    witnesses: Option<(EntityID, seq<EntityID>) -> WitnessReply>)

  function ActorEntries(actor: EntityID, evidence: seq<EntityID>): seq<Entry> {
    seq(|evidence|, i requires 0 <= i < |evidence| => Entry(actor, evidence[i], None))
  }

  predicate Intersects(left: seq<EntityID>, right: seq<EntityID>) {
    exists x :: x in left && x in right
  }

  function Refuse(reason: Reason): Option<Refusal> {
    Some(Refused(reason))
  }

  /** Why one piece of evidence may not be revealed by looking, if it may not. */
  function RevealRefusal(input: Preflight, kind: RevealKind, targets: seq<EntityID>, evidence: EntityID): Option<Refusal> {
    if evidence in input.solutionLocked && input.casePhase != Denouement then Refuse(SolutionLocked)
    else if evidence !in input.caseEvidence then Refuse(IneligibleReveal)
    else if evidence !in input.eligibility || kind !in input.eligibility[evidence].kinds then Refuse(IneligibleReveal)
    else if Rank(input.casePhase) < Rank(input.eligibility[evidence].minimumPhase) then Refuse(IneligiblePhase)
    else if !Intersects(targets, input.eligibility[evidence].targets) then Refuse(InvalidTarget)
    else None
  }

  function QuestionRefusal(input: Preflight, target: EntityID, evidence: EntityID): Option<Refusal> {
    if evidence in input.solutionLocked && input.casePhase != Denouement then Refuse(SolutionLocked)
    else if evidence !in input.caseEvidence then Refuse(IneligibleReveal)
    else if ActorEvidence(target, evidence) !in input.beliefs then Refuse(QuestionTargetMismatch)
    else None
  }

  /** Sharing asks only what the sharer knows and whether the bond admits the recipient. */
  function ShareRefusal(input: Preflight, policies: Policies, recipient: EntityID, evidence: EntityID): Option<Refusal> {
    if ActorEvidence(input.actingActor, evidence) !in input.known then Refuse(ShareSourceUnknown)
    else match policies.shares
      case None => Refuse(ShareTargetUnauthorized)
      case Some(authorized) =>
        match authorized(input.actingActor, recipient, evidence)
        case ShareAllowed => None
        case ShareDenied => Refuse(ShareTargetUnauthorized)
        case ShareUnavailable => Some(PolicyUnavailable)
  }

  /** The first refusal in proposal order. */
  function FirstRefusal(refs: seq<EntityID>, check: EntityID -> Option<Refusal>): Option<Refusal> {
    if refs == [] then None
    else if check(refs[0]).Some? then check(refs[0])
    else FirstRefusal(refs[1..], check)
  }

  function AuthorizeLook(
    input: Preflight, policies: Policies, d: CaseDecision, kind: RevealKind
  ): Result<seq<Entry>, Refusal> {
    match FirstRefusal(d.revealRefs, evidence => RevealRefusal(input, kind, d.targetRefs, evidence))
    case Some(refusal) => Err(refusal)
    case None =>
      var own := ActorEntries(input.actingActor, d.revealRefs);
      if policies.witnesses == None || d.revealRefs == [] then Ok(own)
      else match policies.witnesses.value(input.actingActor, d.targetRefs)
        case WitnessUnavailable => Err(PolicyUnavailable)
        case NoWitness => Ok(own)
        case Witness(id) =>
          if id == "" || id == input.actingActor then Err(Refused(WitnessUnauthorized))
          else Ok(own + ActorEntries(id, d.revealRefs))
  }

  function QuestionEntry(input: Preflight, target: EntityID, evidence: EntityID): Entry
    requires ActorEvidence(target, evidence) in input.beliefs
  {
    var belief := input.beliefs[ActorEvidence(target, evidence)];
    Entry(input.actingActor, evidence,
          Some(Testimony(belief.id, belief.holder, input.actingActor, evidence, belief.stance, belief.prose)))
  }

  function QuestionEntries(input: Preflight, target: EntityID, evidence: seq<EntityID>): seq<Entry>
    requires forall i :: 0 <= i < |evidence| ==> ActorEvidence(target, evidence[i]) in input.beliefs
  {
    seq(|evidence|, i requires 0 <= i < |evidence| => QuestionEntry(input, target, evidence[i]))
  }

  function AuthorizeQuestion(input: Preflight, d: CaseDecision): Result<seq<Entry>, Refusal> {
    if |d.targetRefs| != 1 || d.targetRefs[0] !in input.caseCharacters then Err(Refused(InvalidTarget))
    else
      var target := d.targetRefs[0];
      match FirstRefusal(d.revealRefs, evidence => QuestionRefusal(input, target, evidence))
      case Some(refusal) => Err(refusal)
      case None =>
        FirstRefusalMeaning(d.revealRefs, evidence => QuestionRefusal(input, target, evidence));
        Ok(QuestionEntries(input, target, d.revealRefs))
  }

  function AuthorizeShare(input: Preflight, policies: Policies, d: CaseDecision): Result<seq<Entry>, Refusal> {
    if |d.targetRefs| != 1 then Err(Refused(InvalidTarget))
    else match FirstRefusal(d.revealRefs, evidence => ShareRefusal(input, policies, d.targetRefs[0], evidence))
      case Some(refusal) => Err(refusal)
      case None => Ok(ActorEntries(d.targetRefs[0], d.revealRefs))
  }

  /** Derives the complete commit plan, or refuses the whole batch, before anything is written. */
  function AuthorizeWithWitnesses(input: Preflight, policies: Policies): Result<seq<Entry>, Refusal> {
    if input.decision == None then Err(Refused(UnsupportedKind))
    else
      var d := input.decision.value;
      if d.caseID != input.caseID then Err(Refused(WrongCase))
      else if d.actorID != input.actingActor then Err(Refused(WrongActor))
      else match d.kind
        case Observe => AuthorizeLook(input, policies, d, RevealObserve)
        case Investigate => AuthorizeLook(input, policies, d, RevealInvestigate)
        case Question => AuthorizeQuestion(input, d)
        case Share => AuthorizeShare(input, policies, d)
        case RequestHint => if d.revealRefs != [] then Err(Refused(UnsupportedKind)) else Ok([])
        case Accuse => if d.revealRefs != [] then Err(Refused(UnsupportedKind)) else Ok([])
        case Other => if d.revealRefs != [] then Err(Refused(UnsupportedKind)) else Ok([])
        case Unregistered(_) => Err(Refused(UnsupportedKind))
  }

  // ---- What an accepted batch is -------------------------------------------

  lemma {:induction false} FirstRefusalMeaning(refs: seq<EntityID>, check: EntityID -> Option<Refusal>)
    ensures FirstRefusal(refs, check) == None <==> forall i :: 0 <= i < |refs| ==> check(refs[i]) == None
    ensures FirstRefusal(refs, check).Some? ==>
              exists i :: 0 <= i < |refs| && check(refs[i]) == FirstRefusal(refs, check) &&
                forall j :: 0 <= j < i ==> check(refs[j]) == None
  {
    if refs != [] {
      FirstRefusalMeaning(refs[1..], check);
      if check(refs[0]) == None && FirstRefusal(refs[1..], check).Some? {
        var i :| 0 <= i < |refs[1..]| && check(refs[1..][i]) == FirstRefusal(refs[1..], check) &&
          forall j :: 0 <= j < i ==> check(refs[1..][j]) == None;
        assert check(refs[i + 1]) == FirstRefusal(refs, check);
        forall j | 0 <= j < i + 1 ensures check(refs[j]) == None {
          assert j > 0 ==> refs[j] == refs[1..][j - 1];
        }
      }
    }
  }

  /** The conditions on a proposal, each stated over the snapshot alone. */
  ghost predicate Admissible(input: Preflight, policies: Policies) {
    && input.decision.Some?
    && var d := input.decision.value;
    && d.caseID == input.caseID && d.actorID == input.actingActor
    && match d.kind
       case Observe => LookAdmissible(input, policies, d, RevealObserve)
       case Investigate => LookAdmissible(input, policies, d, RevealInvestigate)
       case Question => QuestionAdmissible(input, d)
       case Share => ShareAdmissible(input, policies, d)
       case Unregistered(_) => false
       case _ => d.revealRefs == []
  }

  ghost predicate QuestionAdmissible(input: Preflight, d: CaseDecision) {
    && |d.targetRefs| == 1 && d.targetRefs[0] in input.caseCharacters
    && forall i :: 0 <= i < |d.revealRefs| ==>
         && Unlocked(input, d.revealRefs[i])
         && d.revealRefs[i] in input.caseEvidence
         && ActorEvidence(d.targetRefs[0], d.revealRefs[i]) in input.beliefs
  }

  ghost predicate ShareAdmissible(input: Preflight, policies: Policies, d: CaseDecision) {
    && |d.targetRefs| == 1
    && forall i :: 0 <= i < |d.revealRefs| ==>
         && ActorEvidence(input.actingActor, d.revealRefs[i]) in input.known
         && policies.shares.Some?
         && policies.shares.value(input.actingActor, d.targetRefs[0], d.revealRefs[i]) == ShareAllowed
  }

  predicate Unlocked(input: Preflight, evidence: EntityID) {
    evidence in input.solutionLocked ==> input.casePhase == Denouement
  }

  ghost predicate LookAdmissible(input: Preflight, policies: Policies, d: CaseDecision, kind: RevealKind) {
    && (forall i :: 0 <= i < |d.revealRefs| ==> Revealable(input, kind, d.targetRefs, d.revealRefs[i]))
    && (policies.witnesses.Some? && d.revealRefs != [] ==>
          match policies.witnesses.value(input.actingActor, d.targetRefs)
          case WitnessUnavailable => false
          case NoWitness => true
          case Witness(id) => id != "" && id != input.actingActor)
  }

  ghost predicate Revealable(input: Preflight, kind: RevealKind, targets: seq<EntityID>, evidence: EntityID) {
    && Unlocked(input, evidence)
    && evidence in input.caseEvidence && evidence in input.eligibility
    && kind in input.eligibility[evidence].kinds
    && Rank(input.eligibility[evidence].minimumPhase) <= Rank(input.casePhase)
    && Intersects(targets, input.eligibility[evidence].targets)
  }

  /** A batch is authorized exactly when every reveal it proposes is admissible: never partially. */
  lemma AuthorizesExactly(input: Preflight, policies: Policies)
    ensures AuthorizeWithWitnesses(input, policies).Ok? <==> Admissible(input, policies)
  {
    if input.decision.Some? {
      var d := input.decision.value;
      LookExactly(input, policies, d, RevealObserve);
      LookExactly(input, policies, d, RevealInvestigate);
      QuestionExactly(input, d);
      ShareExactly(input, policies, d);
    }
  }

  lemma QuestionExactly(input: Preflight, d: CaseDecision)
    ensures AuthorizeQuestion(input, d).Ok? <==> QuestionAdmissible(input, d)
  {
    if |d.targetRefs| == 1 {
      FirstRefusalMeaning(d.revealRefs, evidence => QuestionRefusal(input, d.targetRefs[0], evidence));
    }
  }

  lemma ShareExactly(input: Preflight, policies: Policies, d: CaseDecision)
    ensures AuthorizeShare(input, policies, d).Ok? <==> ShareAdmissible(input, policies, d)
  {
    if |d.targetRefs| == 1 {
      FirstRefusalMeaning(d.revealRefs, evidence => ShareRefusal(input, policies, d.targetRefs[0], evidence));
    }
  }

  lemma LookExactly(input: Preflight, policies: Policies, d: CaseDecision, kind: RevealKind)
    ensures AuthorizeLook(input, policies, d, kind).Ok? <==> LookAdmissible(input, policies, d, kind)
  {
    FirstRefusalMeaning(d.revealRefs, evidence => RevealRefusal(input, kind, d.targetRefs, evidence));
  }

  predicate SamePair(a: Entry, b: Entry) {
    a.recipient == b.recipient && a.evidence == b.evidence
  }

  /** Every granted entry is a proposed reveal; solution material is among them only at the
      denouement, or when the snapshot says the sharer already knows it. */
  lemma GrantsAreGuarded(input: Preflight, policies: Policies)
    requires AuthorizeWithWitnesses(input, policies).Ok?
    ensures var d, entries := input.decision.value, AuthorizeWithWitnesses(input, policies).value;
      forall i :: 0 <= i < |entries| ==>
        && entries[i].evidence in d.revealRefs
        && (entries[i].evidence in input.solutionLocked ==>
             || input.casePhase == Denouement
             || (d.kind == Share && ActorEvidence(input.actingActor, entries[i].evidence) in input.known))
  {
    AuthorizesExactly(input, policies);
  }

  /** A plan derived from a valid decision never names one pair twice and fits one receipt. */
  lemma GrantsAreDistinct(grammar: Grammar, input: Preflight, policies: Policies)
    requires AuthorizeWithWitnesses(input, policies).Ok? && DecisionValid(grammar, input.decision.value)
    ensures var entries := AuthorizeWithWitnesses(input, policies).value;
      && |entries| <= 2 * MAX_REVEALS
      && forall i, j :: 0 <= i < j < |entries| ==> !SamePair(entries[i], entries[j])
  {
    var d, entries := input.decision.value, AuthorizeWithWitnesses(input, policies).value;
    var n := |d.revealRefs|;
    assert forall i :: 0 <= i < |entries| ==> entries[i].evidence == d.revealRefs[if i < n then i else i - n];
    assert forall i, j :: 0 <= i < n <= j < |entries| ==> entries[i].recipient != entries[j].recipient;
  }

  // ---- Who receives what ---------------------------------------------------

  /** What an accepted decision grants, and to whom: looking grants the actor and the witness the policy names, asking
      grants the actor what the one asked believes, in that one's words, sharing grants the one shared with, and
      nothing else grants anything. */
  ghost predicate Grants(input: Preflight, policies: Policies, d: CaseDecision, entry: Entry) {
    && entry.evidence in d.revealRefs
    && match d.kind
       case Observe => entry.testimony == None && Onlooker(input, policies, d, entry.recipient)
       case Investigate => entry.testimony == None && Onlooker(input, policies, d, entry.recipient)
       case Question =>
         && entry.recipient == input.actingActor
         && |d.targetRefs| == 1 && ActorEvidence(d.targetRefs[0], entry.evidence) in input.beliefs
         && var belief := input.beliefs[ActorEvidence(d.targetRefs[0], entry.evidence)];
         && entry.testimony == Some(Testimony(
              belief.id, belief.holder, input.actingActor, entry.evidence, belief.stance, belief.prose))
       case Share => entry.testimony == None && |d.targetRefs| == 1 && entry.recipient == d.targetRefs[0]
       case _ => false
  }

  ghost predicate Onlooker(input: Preflight, policies: Policies, d: CaseDecision, actor: EntityID) {
    || actor == input.actingActor
    || (policies.witnesses.Some? && policies.witnesses.value(input.actingActor, d.targetRefs) == Witness(actor))
  }

  /** The plan of an accepted decision is exactly what the decision grants, recipient by recipient. */
  lemma GrantsExactly(input: Preflight, policies: Policies, entry: Entry)
    requires AuthorizeWithWitnesses(input, policies).Ok?
    ensures entry in AuthorizeWithWitnesses(input, policies).value <==>
            Grants(input, policies, input.decision.value, entry)
  {
    var d := input.decision.value;
    match d.kind
    case Observe => LookGrants(input, policies, d, RevealObserve, entry);
    case Investigate => LookGrants(input, policies, d, RevealInvestigate, entry);
    case Question => QuestionGrants(input, policies, d, entry);
    case Share => ActorEntriesMembers(d.targetRefs[0], d.revealRefs, entry);
    case _ =>
  }

  lemma ActorEntriesMembers(actor: EntityID, evidence: seq<EntityID>, entry: Entry)
    ensures entry in ActorEntries(actor, evidence) <==>
            entry.recipient == actor && entry.testimony == None && entry.evidence in evidence
  {
    if entry.evidence in evidence {
      var i :| 0 <= i < |evidence| && evidence[i] == entry.evidence;
      assert ActorEntries(actor, evidence)[i] == Entry(actor, entry.evidence, None);
    }
  }

  lemma LookGrants(input: Preflight, policies: Policies, d: CaseDecision, kind: RevealKind, entry: Entry)
    requires AuthorizeLook(input, policies, d, kind).Ok?
    ensures entry in AuthorizeLook(input, policies, d, kind).value <==>
            entry.evidence in d.revealRefs && entry.testimony == None && Onlooker(input, policies, d, entry.recipient)
  {
    ActorEntriesMembers(input.actingActor, d.revealRefs, entry);
    ActorEntriesMembers(entry.recipient, d.revealRefs, entry);
    if policies.witnesses.Some? && policies.witnesses.value(input.actingActor, d.targetRefs).Witness? {
      ActorEntriesMembers(policies.witnesses.value(input.actingActor, d.targetRefs).id, d.revealRefs, entry);
    }
  }

  lemma QuestionGrants(input: Preflight, policies: Policies, d: CaseDecision, entry: Entry)
    requires d.kind == Question && AuthorizeQuestion(input, d).Ok?
    ensures entry in AuthorizeQuestion(input, d).value <==> Grants(input, policies, d, entry)
  {
    var target, refs := d.targetRefs[0], d.revealRefs;
    FirstRefusalMeaning(refs, evidence => QuestionRefusal(input, target, evidence));
    var entries := AuthorizeQuestion(input, d).value;
    if entry.evidence in refs {
      var i :| 0 <= i < |refs| && refs[i] == entry.evidence;
      assert entries[i] == QuestionEntry(input, target, refs[i]) && entries[i] in entries;
    }
  }
}
