/** The engine's closed vocabulary, as far as the modelled components read it:
    predicates, entity kinds, and the tables the effect applier checks against. */
module Wrappers {
  datatype Option<+T> = None | Some(value: T)

  datatype Result<+T, +E> = Ok(value: T) | Err(error: E)

  predicate Distinct<T(==)>(s: seq<T>) {
    forall i, j :: 0 <= i < j < |s| ==> s[i] != s[j]
  }
}

module Vocabulary {
  import opened Wrappers

  /** A declared predicate. `Undeclared` stands for every name outside this list. */
  datatype Predicate =
    | WorldEntityName | WorldEntityKind | WorldEntityDescription
    | PlayerCharacterCurrent | CharacterStatusCurrent | WorldLocationCurrent
    | CharacterAttributeHealth | CharacterAttributeStamina | CharacterAttributeResolve
    | ItemAttributeQuantity | SceneAttributeTension
    | WorldRelationAlliedWith | WorldRelationHostileTo | WorldRelationKnows
    | WorldRelationCarries | WorldRelationOwesDebt
    | CaseSolutionCulprit | CaseSolutionMethod | CaseSolutionMotive
    | CaseMemberSuspect | CaseMemberEvidence | CaseMemberTimeline | CaseMemberVictim
    | CaseLifecyclePhase
    | CaseLifecycleEventID | CaseLifecycleEventKind | CaseLifecycleFromPhase | CaseLifecycleToPhase
    | EvidenceRevealPhase | EvidenceRevealKind | EvidenceRevealTarget
    | BeliefActorHolder | BeliefEvidenceRef | BeliefStanceCurrent
    | KnowledgeActorHolder | KnowledgeEvidenceRef
    | RevelationEvidenceRef | RevelationActorHolder | RevelationTurnID
    | RevelationSourceActor | RevelationTestimonyRef
    | CompanionBondPlayer | CompanionBondCharacter | CompanionBondPolicy | CompanionBondHintLevel
    | TurnPhaseCurrent | TurnActionRef | TurnActionPlayer | TurnActionScene
    | TurnEffectsBatch | TurnEffectsRef
    | TurnVerdictPlausibility | TurnVerdictRisk | TurnVerdictRequiresRoll | TurnVerdictRef
    | TurnRollBand | TurnRollTotal | TurnRollRef
    | TurnNarrationRef | TurnFailureReason
    | TurnCaseDecisionRef | TurnKnowledgeRef | TurnAccusationRef | TurnCaseProgressRef
    | TurnCompanionStageRef | TurnCompanionTriggerKind | TurnCompanionTriggerSource | TurnCompanionDecisionRef
    | CampaignSeedValue | CampaignExperiencePersonaPack | CampaignExperienceMechanicsPack
    | CampaignImportCompleted
    | Undeclared(name: string)

  datatype EntityKind =
    | Character | Item | Scene | Location | Player | Case | Evidence | Event
    | Belief | Knowledge | Revelation | CompanionBond

  function ParseEntityKind(text: string): Option<EntityKind> {
    if text == "character" then Some(Character)
    else if text == "item" then Some(Item)
    else if text == "scene" then Some(Scene)
    else if text == "location" then Some(Location)
    else if text == "player" then Some(Player)
    else if text == "case" then Some(Case)
    else if text == "evidence" then Some(Evidence)
    else if text == "event" then Some(Event)
    else if text == "belief" then Some(Belief)
    else if text == "knowledge" then Some(Knowledge)
    else if text == "revelation" then Some(Revelation)
    else if text == "companion-bond" then Some(CompanionBond)
    else None
  }

  datatype Attribute = Health | Stamina | Resolve | Quantity | Tension

  datatype Relation = AlliedWith | HostileTo | Knows | Carries | OwesDebt

  function AttributePredicate(a: Attribute): Predicate {
    match a
    case Health => CharacterAttributeHealth
    case Stamina => CharacterAttributeStamina
    case Resolve => CharacterAttributeResolve
    case Quantity => ItemAttributeQuantity
    case Tension => SceneAttributeTension
  }

  function RelationPredicate(r: Relation): Predicate {
    match r
    case AlliedWith => WorldRelationAlliedWith
    case HostileTo => WorldRelationHostileTo
    case Knows => WorldRelationKnows
    case Carries => WorldRelationCarries
    case OwesDebt => WorldRelationOwesDebt
  }

  /** The inverse of the registered attribute table. */
  function AttributeForPredicate(p: Predicate): Option<Attribute> {
    match p
    case CharacterAttributeHealth => Some(Health)
    case CharacterAttributeStamina => Some(Stamina)
    case CharacterAttributeResolve => Some(Resolve)
    case ItemAttributeQuantity => Some(Quantity)
    case SceneAttributeTension => Some(Tension)
    case _ => None
  }

  datatype Bounds = Bounds(min: int, max: int)

  type AttributeSpecs = map<Attribute, Bounds>

  /** The engine's default bounds, the floor every proposed intent must clear. */
  const DEFAULT_SPECS: AttributeSpecs := map[
    Health := Bounds(0, 10), Stamina := Bounds(0, 10), Resolve := Bounds(0, 10),
    Quantity := Bounds(0, 99), Tension := Bounds(0, 10)]

  predicate InBounds(specs: AttributeSpecs, a: Attribute, value: int) {
    a in specs && specs[a].min <= value <= specs[a].max
  }

  /** The predicates whose object names another entity. */
  predicate IsEntityReference(p: Predicate) {
    match p
    case WorldLocationCurrent | PlayerCharacterCurrent => true
    case WorldRelationAlliedWith | WorldRelationHostileTo | WorldRelationKnows
       | WorldRelationCarries | WorldRelationOwesDebt => true
    case CaseSolutionCulprit | CaseSolutionMethod | CaseSolutionMotive => true
    case CaseMemberSuspect | CaseMemberEvidence | CaseMemberTimeline | CaseMemberVictim => true
    case BeliefActorHolder | BeliefEvidenceRef | EvidenceRevealTarget => true
    case KnowledgeActorHolder | KnowledgeEvidenceRef => true
    case RevelationEvidenceRef | RevelationActorHolder | RevelationSourceActor => true
    case CompanionBondPlayer | CompanionBondCharacter => true
    case Undeclared(name) => name == "scene.location.current" || name == "location.relation.connects-to"
    case _ => false
  }

  predicate IsRelation(p: Predicate) {
    p.WorldRelationAlliedWith? || p.WorldRelationHostileTo? || p.WorldRelationKnows? ||
    p.WorldRelationCarries? || p.WorldRelationOwesDebt?
  }

  predicate IsProtected(p: Predicate) {
    p.CaseSolutionCulprit? || p.CaseSolutionMethod? || p.CaseSolutionMotive? ||
    p == Undeclared("evidence.truth.status")
  }

  /** The entity kinds that may carry an effect-writable predicate. */
  predicate AllowsSubjectKind(p: Predicate, k: EntityKind) {
    match p
    case CharacterAttributeHealth | CharacterAttributeStamina | CharacterAttributeResolve
       | CharacterStatusCurrent => k == Character
    case ItemAttributeQuantity => k == Item
    case SceneAttributeTension => k == Scene
    case WorldLocationCurrent => k == Character || k == Item
    case WorldRelationAlliedWith | WorldRelationHostileTo | WorldRelationKnows
       | WorldRelationCarries | WorldRelationOwesDebt => k == Character
    case _ => false
  }

  /** The entity kinds an effect-writable reference may point at. */
  predicate AllowsObjectKind(p: Predicate, k: EntityKind) {
    match p
    case WorldLocationCurrent => k == Location
    case WorldRelationCarries => k == Item
    case WorldRelationAlliedWith | WorldRelationHostileTo | WorldRelationKnows
       | WorldRelationOwesDebt => k == Character
    case _ => false
  }

  /** The predicate groups the effect applier reconciles. */
  datatype Target =
    | EffectAttributes | EffectStatus | EffectLocation | EffectRelationships
    | TurnEffectMarker

  function Predicates(target: Target): set<Predicate> {
    match target
    case EffectAttributes =>
      {CharacterAttributeHealth, CharacterAttributeStamina, CharacterAttributeResolve,
       ItemAttributeQuantity, SceneAttributeTension}
    case EffectStatus => {CharacterStatusCurrent}
    case EffectLocation => {WorldLocationCurrent}
    case EffectRelationships =>
      {WorldRelationAlliedWith, WorldRelationHostileTo, WorldRelationKnows,
       WorldRelationCarries, WorldRelationOwesDebt}
    case TurnEffectMarker => {TurnEffectsBatch, TurnEffectsRef}
  }

  /** The family an effect may rewrite to change this predicate, when effects may change it at all. */
  function EffectTargetForPredicate(p: Predicate): Option<Target> {
    if AttributeForPredicate(p).Some? then Some(EffectAttributes)
    else if IsRelation(p) then Some(EffectRelationships)
    else if p == CharacterStatusCurrent then Some(EffectStatus)
    else if p == WorldLocationCurrent then Some(EffectLocation)
    else None
  }

  /** The effect families partition what an effect may write, and the marker lies outside them all. */
  lemma EffectFamiliesPartition(p: Predicate, target: Target)
    ensures EffectTargetForPredicate(p) == Some(target) <==> p in Predicates(target) && target != TurnEffectMarker
    ensures p in Predicates(TurnEffectMarker) ==> EffectTargetForPredicate(p) == None
  {
    if EffectTargetForPredicate(p) == Some(target) {
      FamilyContains(p);
    }
    if p in Predicates(target) && target != TurnEffectMarker {
      FamilyOf(p, target);
    }
  }

  lemma FamilyContains(p: Predicate)
    requires EffectTargetForPredicate(p).Some?
    ensures EffectTargetForPredicate(p).value != TurnEffectMarker
    ensures p in Predicates(EffectTargetForPredicate(p).value)
  {}

  lemma FamilyOf(p: Predicate, target: Target)
    requires p in Predicates(target) && target != TurnEffectMarker
    ensures EffectTargetForPredicate(p) == Some(target)
  {}

  lemma OneGroup(p: Predicate, a: Target, b: Target)
    requires p in Predicates(a) && p in Predicates(b)
    ensures a == b
  {}

  const TURN_KNOWLEDGE: set<Predicate> := {TurnKnowledgeRef}
  const TURN_ACCUSATION: set<Predicate> := {TurnAccusationRef}
  const TURN_CASE_PROGRESS: set<Predicate> := {TurnCaseProgressRef}
  const TURN_COMPANION_RESULT: set<Predicate> := {
    TurnCompanionStageRef, TurnCompanionTriggerKind, TurnCompanionTriggerSource, TurnCompanionDecisionRef}
  const CASE_LIFECYCLE_RECEIPT: set<Predicate> := {
    CaseLifecycleEventID, CaseLifecycleEventKind, CaseLifecycleFromPhase, CaseLifecycleToPhase}
  const CAMPAIGN_IMPORT: set<Predicate> := {CampaignImportCompleted}

  // ---- The mystery case ----------------------------------------------------

  datatype CasePhase = ColdOpen | Discovery | Investigation | Accusation | Denouement

  const CASE_PHASES: seq<CasePhase> := [ColdOpen, Discovery, Investigation, Accusation, Denouement]

  /** The position of a phase in the case lifecycle. */
  function Rank(phase: CasePhase): (r: nat)
    ensures r < |CASE_PHASES| && CASE_PHASES[r] == phase
  {
    match phase
    case ColdOpen => 0
    case Discovery => 1
    case Investigation => 2
    case Accusation => 3
    case Denouement => 4
  }

  function PhaseText(phase: CasePhase): string {
    match phase
    case ColdOpen => "cold_open"
    case Discovery => "discovery"
    case Investigation => "investigation"
    case Accusation => "accusation"
    case Denouement => "denouement"
  }

  function ParseCasePhase(text: string): Option<CasePhase> {
    if text == "cold_open" then Some(ColdOpen)
    else if text == "discovery" then Some(Discovery)
    else if text == "investigation" then Some(Investigation)
    else if text == "accusation" then Some(Accusation)
    else if text == "denouement" then Some(Denouement)
    else None
  }

  lemma PhaseTextRoundTrip(phase: CasePhase, text: string)
    ensures ParseCasePhase(text) == Some(phase) <==> text == PhaseText(phase)
  {}

  /** The receipts that request one fixed edge of the case lifecycle. */
  datatype CaseEventKind = BodyObserved | InvestigationStarted | AccusationSubmitted | AccusationCorrect

  function EventText(kind: CaseEventKind): string {
    match kind
    case BodyObserved => "body-observed"
    case InvestigationStarted => "investigation-started"
    case AccusationSubmitted => "accusation-submitted"
    case AccusationCorrect => "accusation-correct"
  }

  datatype RevealKind = RevealObserve | RevealInvestigate

  function ParseRevealKind(text: string): Option<RevealKind> {
    if text == "observe" then Some(RevealObserve)
    else if text == "investigate" then Some(RevealInvestigate)
    else None
  }

  datatype Stance = Affirms | Denies | Uncertain

  function ParseStance(text: string): Option<Stance> {
    if text == "affirms" then Some(Affirms)
    else if text == "denies" then Some(Denies)
    else if text == "uncertain" then Some(Uncertain)
    else None
  }
}
