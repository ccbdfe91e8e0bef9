/** The single authorization and omission boundary for what a persona may see of the graph. */
module EpistemicProjector {
  import opened Wrappers
  import opened Vocabulary
  import opened Graph
  import opened ByteOrder
  import opened Projection

  datatype Purpose =
    | Casekeeper | PlayerView | CompanionView | PublicAdjudicator | Narrator | DenouementView | Verifier | Operator

  /** Who asks, and what for. */
  datatype Audience = Audience(
    purpose: Purpose, turnID: string, turnEntityID: EntityID, caseID: EntityID, contextRef: string,
    targetActors: seq<EntityID>, companionID: EntityID, bondID: EntityID, authorizerRef: string)

  datatype Named = Named(id: EntityID, state: EntityState)

  /** The bounded public scene the assembler hands over, with the graph-pinned actor. */
  datatype View = View(
    turnID: string, turnEntityID: EntityID, playerID: EntityID, characterID: EntityID, verified: bool,
    turn: Named, scene: Named, members: seq<Named>, neighbours: seq<Named>)

  /** What one world instance fixes: its case, its authored beliefs, the caps, and the injected policies. */
  datatype Config = Config(
    caseID: EntityID,
    beliefs: map<EntityID, seq<EntityID>>,
    blank: string -> bool,
    maxSupplemental: nat, maxEntities: nat, maxTriples: nat, maxBytes: nat,
    order: Fact -> string,
    bytes: Snapshot -> Option<nat>,
    index: (Predicate, string) -> Option<seq<EntityID>>,
    bond: Option<(EntityID, EntityID, EntityID) -> bool>,
    denouement: Option<(string, EntityID, string) -> bool>,
    narrationEvidence: Option<(string, EntityID, EntityID) -> Option<seq<EntityID>>>)

  const MAX_TARGET_ACTORS := 8

  const SOLUTION: set<Predicate> := {CaseSolutionCulprit, CaseSolutionMethod, CaseSolutionMotive}

  const PUBLIC_WORLD: set<Predicate> := {
    WorldEntityName, WorldEntityKind, WorldEntityDescription, PlayerCharacterCurrent, CharacterStatusCurrent,
    WorldLocationCurrent, CharacterAttributeHealth, CharacterAttributeStamina, CharacterAttributeResolve,
    ItemAttributeQuantity, SceneAttributeTension, WorldRelationAlliedWith, WorldRelationHostileTo,
    WorldRelationKnows, WorldRelationCarries, WorldRelationOwesDebt}

  const PUBLIC_TURN: set<Predicate> := {
    TurnPhaseCurrent, TurnActionRef, TurnActionPlayer, TurnActionScene, TurnVerdictPlausibility, TurnVerdictRisk,
    Undeclared("turn.verdict.consequence"), TurnVerdictRequiresRoll, TurnVerdictRef, TurnRollBand, TurnRollTotal,
    TurnRollRef, TurnEffectsBatch, TurnEffectsRef, TurnNarrationRef, Undeclared("turn.resume.attempts"),
    TurnFailureReason, Undeclared("turn.failure.ref")}

  const NARRATION_TURN: set<Predicate> :=
    PUBLIC_TURN + {TurnKnowledgeRef, TurnCompanionStageRef, TurnCompanionDecisionRef}

  const EVIDENCE: set<Predicate> := {WorldEntityName, WorldEntityKind, WorldEntityDescription}

  const BOND: set<Predicate> := {
    WorldEntityKind, CompanionBondPlayer, CompanionBondCharacter, CompanionBondPolicy, CompanionBondHintLevel}

  const CASEKEEPER: set<Predicate> := {
    WorldEntityName, WorldEntityKind, WorldEntityDescription,
    CaseSolutionCulprit, CaseSolutionMethod, CaseSolutionMotive, CaseLifecyclePhase,
    Undeclared("case.requirement.suspects"), Undeclared("case.requirement.evidence"),
    CaseMemberSuspect, CaseMemberEvidence, CaseMemberTimeline, CaseMemberVictim, Undeclared("case.timeline.order"),
    Undeclared("evidence.truth.status"), EvidenceRevealPhase, EvidenceRevealKind, EvidenceRevealTarget,
    BeliefActorHolder, BeliefEvidenceRef, BeliefStanceCurrent}

  // ---- Reading entities ----------------------------------------------------

  function InsertFact(cfg: Config, f: Fact, sorted: seq<Fact>): seq<Fact> {
    if sorted == [] || !Below(cfg.order(sorted[0]), cfg.order(f)) then [f] + sorted
    else [sorted[0]] + InsertFact(cfg, f, sorted[1..])
  }

  function SortFacts(cfg: Config, triples: seq<Triple>): seq<Fact> {
    if triples == [] then []
    else InsertFact(cfg, Fact(triples[0].pred, triples[0].obj), SortFacts(cfg, triples[1..]))
  }

  /** The authorized facts of one entity, in canonical order. */
  function Project1(cfg: Config, e: Named, allowed: set<Predicate>): Entity {
    Entity(e.id, SortFacts(cfg, Within(e.state, allowed)))
  }

  function ProjectAll(cfg: Config, entities: seq<Named>, allowed: set<Predicate>): seq<Entity> {
    seq(|entities|, i requires 0 <= i < |entities| => Project1(cfg, entities[i], allowed))
  }

  function ExactString(s: EntityState, p: Predicate): Option<string> {
    var triples := TriplesOf(s, p);
    if |triples| == 1 && triples[0].obj.Text? then Some(triples[0].obj.text) else None
  }

  predicate HasKind(s: EntityState, kind: EntityKind) {
    match ExactString(s, WorldEntityKind)
    case None => false
    case Some(text) => ParseEntityKind(text) == Some(kind)
  }

  predicate IsPublicKind(e: Named) {
    HasKind(e.state, Character) || HasKind(e.state, Item) || HasKind(e.state, Scene) || HasKind(e.state, Player)
  }

  function PublicOnly(entities: seq<Named>): seq<Named> {
    if entities == [] then []
    else if IsPublicKind(entities[0]) then [entities[0]] + PublicOnly(entities[1..])
    else PublicOnly(entities[1..])
  }

  function InsertID(id: EntityID, sorted: seq<EntityID>): seq<EntityID> {
    if sorted == [] || Below(id, sorted[0]) then [id] + sorted
    else if id == sorted[0] then sorted
    else [sorted[0]] + InsertID(id, sorted[1..])
  }

  /** Sorted, with repetitions dropped. */
  function SortedIDs(ids: seq<EntityID>): seq<EntityID> {
    if ids == [] then [] else InsertID(ids[0], SortedIDs(ids[1..]))
  }

  function Query(cfg: Config, p: Predicate, value: string): Option<seq<EntityID>> {
    match cfg.index(p, value)
    case None => None
    case Some(ids) => if |ids| > cfg.maxSupplemental then None else Some(SortedIDs(ids))
  }

  function Present(g: GraphState, ids: seq<EntityID>): seq<Named> {
    if ids == [] then []
    else if ids[0] in g then [Named(ids[0], g[ids[0]])] + Present(g, ids[1..])
    else Present(g, ids[1..])
  }

  /** The existing entities among some requested identities, within the cap. */
  function Hydrate(cfg: Config, g: GraphState, ids: seq<EntityID>): Option<seq<Named>> {
    if |ids| > cfg.maxSupplemental then None else Some(Present(g, ids))
  }

  // ---- What each purpose adds ----------------------------------------------

  /** The evidence one knowledge record grants this actor; a malformed record refuses the projection. */
  function KnowledgeEvidence(records: seq<Named>, actor: EntityID): Option<seq<EntityID>> {
    if records == [] then Some([])
    else
      var s := records[0].state;
      if !HasKind(s, Knowledge) || ExactString(s, KnowledgeActorHolder) != Some(actor) then None
      else match (ExactString(s, KnowledgeEvidenceRef), KnowledgeEvidence(records[1..], actor))
        case (Some(evidence), Some(rest)) => Some([evidence] + rest)
        case _ => None
  }

  function RevelationEvidence(records: seq<Named>, actor: EntityID, turnID: string): Option<seq<EntityID>> {
    if records == [] then Some([])
    else
      var s := records[0].state;
      if !HasKind(s, Revelation) || ExactString(s, RevelationTurnID) != Some(turnID) then None
      else match (ExactString(s, RevelationActorHolder), ExactString(s, RevelationEvidenceRef),
                  RevelationEvidence(records[1..], actor, turnID))
        case (Some(holder), Some(evidence), Some(rest)) => Some(if holder == actor then [evidence] + rest else rest)
        case _ => None
  }

  predicate AllOfKind(entities: seq<Named>, kind: EntityKind) {
    forall i :: 0 <= i < |entities| ==> HasKind(entities[i].state, kind)
  }

  /** Public prose of authorized evidence. */
  function AddEvidence(cfg: Config, g: GraphState, p: Snapshot, ids: seq<EntityID>): Option<Snapshot> {
    match Hydrate(cfg, g, SortedIDs(ids))
    case None => None
    case Some(states) =>
      if !AllOfKind(states, Evidence) then None
      else Some(p.(neighbours := p.neighbours + ProjectAll(cfg, states, EVIDENCE)))
  }

  function AddKnowledge(cfg: Config, g: GraphState, p: Snapshot, actor: EntityID): Option<Snapshot> {
    match Query(cfg, KnowledgeActorHolder, actor)
    case None => None
    case Some(ids) =>
      match Hydrate(cfg, g, ids)
      case None => None
      case Some(records) =>
        match KnowledgeEvidence(records, actor)
        case None => None
        case Some(evidence) => AddEvidence(cfg, g, p, evidence)
  }

  function AddRevelations(cfg: Config, g: GraphState, p: Snapshot, actor: EntityID, turnID: string): Option<Snapshot> {
    match Query(cfg, RevelationTurnID, turnID)
    case None => None
    case Some(ids) =>
      match Hydrate(cfg, g, ids)
      case None => None
      case Some(records) =>
        match RevelationEvidence(records, actor, turnID)
        case None => None
        case Some(evidence) => AddEvidence(cfg, g, p, evidence)
  }

  function AddBond(cfg: Config, g: GraphState, p: Snapshot, bondID: EntityID): Option<Snapshot> {
    match Hydrate(cfg, g, [bondID])
    case None => None
    case Some(bonds) =>
      if |bonds| != 1 then None else Some(p.(neighbours := p.neighbours + [Project1(cfg, bonds[0], BOND)]))
  }

  function CaseState(cfg: Config, g: GraphState): Option<Named> {
    if cfg.caseID == "" then None
    else match Hydrate(cfg, g, [cfg.caseID])
      case None => None
      case Some(states) => if |states| == 1 && HasKind(states[0].state, Case) then Some(states[0]) else None
  }

  function CanonicalSolution(s: EntityState): Option<Solution> {
    match (SoleString(s, CaseSolutionCulprit), SoleString(s, CaseSolutionMethod), SoleString(s, CaseSolutionMotive))
    case (Some(culprit), Some(method_), Some(motive)) => Some(Solution(culprit, method_, motive))
    case _ => None
  }

  predicate StrictlySorted(ids: seq<EntityID>) {
    forall i :: 0 <= i < |ids| - 1 ==> Below(ids[i], ids[i + 1])
  }

  /** The ordinary narrator may cite committed companion evidence, but never an identity of the solution. */
  predicate ClearOfSolution(cfg: Config, g: GraphState, purpose: Purpose, ids: seq<EntityID>) {
    purpose == Narrator && ids != [] && cfg.caseID != "" ==>
      match CaseState(cfg, g)
      case None => false
      case Some(c) =>
        match CanonicalSolution(c.state)
        case None => false
        case Some(solution) =>
          solution.culprit !in ids && solution.method_ !in ids && solution.motive !in ids
  }

  function AddNarrationEvidence(cfg: Config, g: GraphState, p: Snapshot, view: View, purpose: Purpose): Option<Snapshot> {
    match cfg.narrationEvidence
    case None => if exists f :: f in p.turn.facts && f.pred == TurnCompanionStageRef then None else Some(p)
    case Some(resolve) =>
      match resolve(view.turnID, view.playerID, view.scene.id)
      case None => None
      case Some(ids) =>
        if !StrictlySorted(ids) || !ClearOfSolution(cfg, g, purpose, ids) then None
        else CitedEvidence(cfg, g, p, ids)
  }

  function CitedEvidence(cfg: Config, g: GraphState, p: Snapshot, ids: seq<EntityID>): Option<Snapshot> {
    match Hydrate(cfg, g, ids)
    case None => None
    case Some(states) =>
      if |states| != |ids| || !AllOfKind(states, Evidence) then None
      else Some(p.(neighbours := p.neighbours + ProjectAll(cfg, states, EVIDENCE)))
  }

  function AuthorizeDenouement(cfg: Config, g: GraphState, p: Snapshot, audience: Audience): Option<Snapshot> {
    match CaseState(cfg, g)
    case None => None
    case Some(c) =>
      var phases := TriplesOf(c.state, CaseLifecyclePhase);
      if |phases| != 1 || phases[0].obj != Text(PhaseText(Denouement)) || cfg.denouement == None ||
         !cfg.denouement.value(audience.turnID, c.id, audience.authorizerRef)
      then None
      else match CanonicalSolution(c.state)
        case None => None
        case Some(solution) => Some(p.(solution := Some(solution)))
  }

  // ---- The casekeeper ------------------------------------------------------

  function TextObjects(triples: seq<Triple>): seq<EntityID> {
    if triples == [] then []
    else if triples[0].obj.Text? then [triples[0].obj.text] + TextObjects(triples[1..])
    else TextObjects(triples[1..])
  }

  const CASE_REFERENCES: set<Predicate> := {
    CaseSolutionCulprit, CaseSolutionMethod, CaseSolutionMotive, CaseMemberSuspect, CaseMemberEvidence,
    CaseMemberTimeline, CaseMemberVictim, EvidenceRevealTarget, BeliefActorHolder, BeliefEvidenceRef}

  predicate EligibleTarget(c: EntityState, p: Snapshot, target: EntityID) {
    || target in TextObjects(TriplesOf(c, CaseMemberSuspect))
    || exists i :: 0 <= i < |p.members| && p.members[i].id == target && IsCharacter(p.members[i])
  }

  predicate IsCharacter(e: Entity) {
    var kinds := KindFacts(e.facts);
    |kinds| == 1 && kinds[0].obj == Text("character")
  }

  function KindFacts(facts: seq<Fact>): seq<Fact> {
    if facts == [] then []
    else if facts[0].pred == WorldEntityKind then [facts[0]] + KindFacts(facts[1..])
    else KindFacts(facts[1..])
  }

  /** The authored belief records of the target actors, each owned by one of them. */
  function BeliefRecords(cfg: Config, targets: seq<EntityID>): map<EntityID, EntityID> {
    if targets == [] then map[]
    else
      var last := targets[|targets| - 1];
      var before := BeliefRecords(cfg, targets[..|targets| - 1]);
      if last !in cfg.beliefs then before
      else before + map id | id in cfg.beliefs[last] :: last
  }

  predicate BeliefScoped(c: EntityState, owners: map<EntityID, EntityID>, belief: Named) {
    && HasKind(belief.state, Belief)
    && belief.id in owners && ExactString(belief.state, BeliefActorHolder) == Some(owners[belief.id])
    && ExactString(belief.state, BeliefEvidenceRef).Some?
    && ExactString(belief.state, BeliefEvidenceRef).value in TextObjects(TriplesOf(c, CaseMemberEvidence))
    && ExactString(belief.state, BeliefStanceCurrent).Some?
    && ParseStance(ExactString(belief.state, BeliefStanceCurrent).value).Some?
  }

  function AddCasekeeperState(cfg: Config, g: GraphState, p: Snapshot, targets: seq<EntityID>): Option<Snapshot> {
    match CaseState(cfg, g)
    case None => None
    case Some(c) =>
      match Hydrate(cfg, g, SortedIDs(TextObjects(Within(c.state, CASE_REFERENCES))))
      case None => None
      case Some(referenced) =>
        if exists i :: 0 <= i < |targets| && !EligibleTarget(c.state, p, targets[i]) then None
        else
          var owners := BeliefRecords(cfg, SortedIDs(targets));
          var scoped := SortedIDs(Owned(cfg, SortedIDs(targets)));
          match Hydrate(cfg, g, scoped)
          case None => None
          case Some(beliefs) =>
            if |beliefs| != |scoped| || exists i :: 0 <= i < |beliefs| && !BeliefScoped(c.state, owners, beliefs[i]) then None
            else
              Some(p.(neighbours := p.neighbours + [Project1(cfg, c, CASEKEEPER)]
                                    + ProjectAll(cfg, referenced, CASEKEEPER) + ProjectAll(cfg, beliefs, CASEKEEPER)))
  }

  function Owned(cfg: Config, targets: seq<EntityID>): seq<EntityID> {
    if targets == [] then []
    else (if targets[0] in cfg.beliefs then cfg.beliefs[targets[0]] else []) + Owned(cfg, targets[1..])
  }

  // ---- Projecting ----------------------------------------------------------

  /** What leaves the projector. */
  datatype Output = Output(
    purpose: Purpose, turnID: string, turnEntityID: EntityID, playerID: EntityID, characterID: EntityID,
    contextRef: string, companionID: EntityID, bondID: EntityID, snapshot: Snapshot)

  predicate AudienceValid(cfg: Config, a: Audience) {
    && a.purpose != Operator
    && (a.purpose in {Casekeeper, Verifier, DenouementView} ==> !cfg.blank(a.caseID) && a.caseID == cfg.caseID)
    && (a.purpose != Verifier ==> !cfg.blank(a.turnID) && !cfg.blank(a.turnEntityID))
    && |a.targetActors| <= MAX_TARGET_ACTORS
    && (forall i :: 0 <= i < |a.targetActors| ==> !cfg.blank(a.targetActors[i]))
    && (forall i, j :: 0 <= i < j < |a.targetActors| ==> a.targetActors[i] != a.targetActors[j])
    && (a.purpose == CompanionView ==> !cfg.blank(a.companionID) && !cfg.blank(a.bondID) && !cfg.blank(a.contextRef))
    && (a.purpose == DenouementView ==> !cfg.blank(a.authorizerRef))
  }

  function PublicSnapshot(cfg: Config, view: View, purpose: Purpose): Snapshot {
    var turnAllowed := if purpose == Narrator || purpose == DenouementView then NARRATION_TURN else PUBLIC_TURN;
    Snapshot(Project1(cfg, view.turn, turnAllowed), Project1(cfg, view.scene, PUBLIC_WORLD),
             ProjectAll(cfg, PublicOnly(view.members), PUBLIC_WORLD),
             ProjectAll(cfg, PublicOnly(view.neighbours), PUBLIC_WORLD), None)
  }

  function Bind(a: Option<Snapshot>, f: Snapshot -> Option<Snapshot>): Option<Snapshot> {
    match a case None => None case Some(p) => f(p)
  }

  /** What a purpose adds to the public scene, in order; any refusal refuses the whole projection. */
  function Authorized(cfg: Config, g: GraphState, view: View, a: Audience, p: Snapshot): Option<Snapshot> {
    var actor := view.characterID;
    match a.purpose
    case PublicAdjudicator => AddKnowledge(cfg, g, p, actor)
    case PlayerView => Bind(AddKnowledge(cfg, g, p, actor), q => AddRevelations(cfg, g, q, actor, a.turnID))
    case CompanionView =>
      if cfg.bond == None || !cfg.bond.value(a.bondID, view.playerID, a.companionID) then None
      else Bind(AddBond(cfg, g, p, a.bondID), q => AddKnowledge(cfg, g, q, a.companionID))
    case Narrator =>
      Bind(Bind(AddKnowledge(cfg, g, p, actor), q => AddRevelations(cfg, g, q, actor, a.turnID)),
           q => AddNarrationEvidence(cfg, g, q, view, Narrator))
    case Casekeeper => AddCasekeeperState(cfg, g, p, a.targetActors)
    case DenouementView =>
      Bind(Bind(Bind(AddKnowledge(cfg, g, p, actor), q => AddRevelations(cfg, g, q, actor, a.turnID)),
                q => AuthorizeDenouement(cfg, g, q, a)),
           q => AddNarrationEvidence(cfg, g, q, view, DenouementView))
    case Verifier => None
    case Operator => None
  }

  function CountFacts(entities: seq<Entity>): nat {
    if entities == [] then 0 else |entities[0].facts| + CountFacts(entities[1..])
  }

  function CountOutside(entities: seq<Entity>, base: set<EntityID>): nat {
    if entities == [] then 0
    else (if entities[0].id in base then 0 else 1) + CountOutside(entities[1..], base)
  }

  predicate WithinBounds(cfg: Config, p: Snapshot, base: set<EntityID>) {
    && |Entities(p)| <= cfg.maxEntities
    && CountOutside(Entities(p), base) <= cfg.maxSupplemental
    && CountFacts(Entities(p)) <= cfg.maxTriples
    && cfg.bytes(p).Some? && cfg.bytes(p).value <= cfg.maxBytes
  }

  function Project(cfg: Config, g: GraphState, view: View, a: Audience): Option<Output> {
    if !AudienceValid(cfg, a) then None
    else if a.purpose == Verifier then
      match CaseState(cfg, g)
      case None => None
      case Some(c) =>
        match CanonicalSolution(c.state)
        case None => None
        case Some(solution) =>
          var p := Snapshot(Entity("", []), Entity("", []), [], [], Some(solution));
          if WithinBounds(cfg, p, {}) then Some(Output(Verifier, "", "", "", "", "", "", "", p)) else None
    else if view.turnID != a.turnID || view.turnEntityID != a.turnEntityID || !view.verified then None
    else
      var public := PublicSnapshot(cfg, view, a.purpose);
      match Authorized(cfg, g, view, a, public)
      case None => None
      case Some(p) =>
        var final := Finalized(p);
        if !WithinBounds(cfg, final, IDs(Entities(public))) then None
        else
          var companion := a.purpose == CompanionView;
          Some(Output(a.purpose, view.turnID, view.turnEntityID, view.playerID, view.characterID,
                      if companion then a.contextRef else "", if companion then a.companionID else "",
                      if companion then a.bondID else "", final))
  }

  // ---- What an entity's projection holds -----------------------------------

  lemma {:induction false} InsertedFacts(cfg: Config, f: Fact, sorted: seq<Fact>, x: Fact)
    ensures x in InsertFact(cfg, f, sorted) <==> x == f || x in sorted
  {
    if sorted != [] && Below(cfg.order(sorted[0]), cfg.order(f)) {
      InsertedFacts(cfg, f, sorted[1..], x);
      assert sorted == [sorted[0]] + sorted[1..];
    }
  }

  lemma {:induction false} SortedFactMembers(cfg: Config, triples: seq<Triple>, x: Fact)
    ensures x in SortFacts(cfg, triples) <==> exists t :: t in triples && x == Fact(t.pred, t.obj)
  {
    if triples != [] {
      SortedFactMembers(cfg, triples[1..], x);
      InsertedFacts(cfg, Fact(triples[0].pred, triples[0].obj), SortFacts(cfg, triples[1..]), x);
      assert triples == [triples[0]] + triples[1..];
    }
  }

  predicate InOrder(cfg: Config, facts: seq<Fact>) {
    forall i :: 0 <= i < |facts| - 1 ==> !Below(cfg.order(facts[i + 1]), cfg.order(facts[i]))
  }

  lemma {:induction false} InsertKeepsOrder(cfg: Config, f: Fact, sorted: seq<Fact>)
    requires InOrder(cfg, sorted)
    ensures InOrder(cfg, InsertFact(cfg, f, sorted))
    ensures InsertFact(cfg, f, sorted)[0] == f || (sorted != [] && InsertFact(cfg, f, sorted)[0] == sorted[0])
  {
    if sorted != [] {
      BelowTrichotomy(cfg.order(sorted[0]), cfg.order(f));
      if Below(cfg.order(sorted[0]), cfg.order(f)) {
        InsertKeepsOrder(cfg, f, sorted[1..]);
        assert forall i :: 0 <= i < |sorted[1..]| ==> sorted[1..][i] == sorted[i + 1];
      }
    }
  }

  lemma {:induction false} SortKeepsOrder(cfg: Config, triples: seq<Triple>)
    ensures InOrder(cfg, SortFacts(cfg, triples))
  {
    if triples != [] {
      SortKeepsOrder(cfg, triples[1..]);
      InsertKeepsOrder(cfg, Fact(triples[0].pred, triples[0].obj), SortFacts(cfg, triples[1..]));
    }
  }

  /** An entity is shown with exactly its recorded facts under the allowed predicates, in canonical order. */
  lemma ProjectedFactsAreAllowed(cfg: Config, e: Named, allowed: set<Predicate>, x: Fact)
    ensures x in Project1(cfg, e, allowed).facts <==>
            exists t :: t in e.state && t.pred in allowed && x == Fact(t.pred, t.obj)
    ensures InOrder(cfg, Project1(cfg, e, allowed).facts)
  {
    var kept := Within(e.state, allowed);
    SortedFactMembers(cfg, kept, x);
    SortKeepsOrder(cfg, kept);
    forall t ensures t in kept <==> t in e.state && t.pred in allowed {
      WithinMembers(e.state, allowed, t);
    }
  }
}
