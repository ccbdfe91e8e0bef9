/** Whose knowledge a purpose is shown: exactly which entities, and exactly which of their facts, said of the graph, the
    index and the public scene alone. */
module Disclosure {
  import opened Wrappers
  import opened Vocabulary
  import opened Graph
  import opened ByteOrder
  import opened Projection
  import opened EpistemicProjector

  // ---- What there is to disclose -------------------------------------------

  predicate Indexed(cfg: Config, p: Predicate, value: string, id: EntityID) {
    cfg.index(p, value).Some? && id in cfg.index(p, value).value
  }

  /** The one text an entity records for a predicate. */
  predicate States(g: GraphState, id: EntityID, p: Predicate, text: string) {
    id in g && |TriplesOf(g[id], p)| == 1 && TriplesOf(g[id], p)[0].obj == Text(text)
  }

  /** An existing record indexed under this actor grants the evidence. */
  ghost predicate Known(cfg: Config, g: GraphState, actor: EntityID, evidence: EntityID) {
    exists id :: Indexed(cfg, KnowledgeActorHolder, actor, id) && States(g, id, KnowledgeEvidenceRef, evidence)
  }

  /** An existing record of this turn says that this actor was shown the evidence. */
  ghost predicate Revealed(cfg: Config, g: GraphState, actor: EntityID, turnID: string, evidence: EntityID) {
    exists id :: Indexed(cfg, RevelationTurnID, turnID, id) && States(g, id, RevelationActorHolder, actor) &&
      States(g, id, RevelationEvidenceRef, evidence)
  }

  /** The committed companion decision cites the evidence for this turn's narration. */
  predicate Cited(cfg: Config, view: View, evidence: EntityID) {
    && cfg.narrationEvidence.Some?
    && var ids := cfg.narrationEvidence.value(view.turnID, view.playerID, view.scene.id);
       ids.Some? && evidence in ids.value
  }

  /** The case refers to the entity by a fact the casekeeper may read. */
  ghost predicate CaseRefers(cfg: Config, g: GraphState, id: EntityID) {
    exists t :: t in Lookup(g, cfg.caseID) && t.pred in CASEKEEPER && IsEntityReference(t.pred) && t.obj == Text(id)
  }

  /** An authored belief of one of the questioned actors. */
  predicate TargetBelief(cfg: Config, targets: seq<EntityID>, id: EntityID) {
    exists target :: target in targets && target in cfg.beliefs && id in cfg.beliefs[target]
  }

  predicate PublicKind(e: Named) {
    HasKind(e.state, Character) || HasKind(e.state, Item) || HasKind(e.state, Scene) || HasKind(e.state, Player)
  }

  predicate InPublicScene(view: View, id: EntityID) {
    || id == view.turn.id || id == view.scene.id
    || (exists i :: 0 <= i < |view.members| && view.members[i].id == id && PublicKind(view.members[i]))
    || (exists i :: 0 <= i < |view.neighbours| && view.neighbours[i].id == id && PublicKind(view.neighbours[i]))
  }

  /** What a purpose is shown beyond the public scene. A companion is shown its bond and what it was itself granted; a
      player's purposes what the player's character was granted; the casekeeper the case. */
  ghost predicate Disclosed(cfg: Config, g: GraphState, view: View, a: Audience, id: EntityID) {
    && id in g
    && match a.purpose
       case PublicAdjudicator => Known(cfg, g, view.characterID, id)
       case PlayerView => Known(cfg, g, view.characterID, id) || Revealed(cfg, g, view.characterID, a.turnID, id)
       case CompanionView => id == a.bondID || Known(cfg, g, a.companionID, id)
       case Narrator =>
         || Known(cfg, g, view.characterID, id) || Revealed(cfg, g, view.characterID, a.turnID, id)
         || Cited(cfg, view, id)
       case DenouementView =>
         || Known(cfg, g, view.characterID, id) || Revealed(cfg, g, view.characterID, a.turnID, id)
         || Cited(cfg, view, id)
       case Casekeeper => id == cfg.caseID || CaseRefers(cfg, g, id) || TargetBelief(cfg, a.targetActors, id)
       case Verifier => false
       case Operator => false
  }

  // ---- Reading lists -------------------------------------------------------

  lemma {:induction false} InsertedIDs(id: EntityID, sorted: seq<EntityID>, x: EntityID)
    ensures x in InsertID(id, sorted) <==> x == id || x in sorted
  {
    if sorted != [] && !Below(id, sorted[0]) && id != sorted[0] {
      InsertedIDs(id, sorted[1..], x);
      assert sorted == [sorted[0]] + sorted[1..];
    }
  }

  lemma {:induction false} SortedIDMembers(ids: seq<EntityID>, x: EntityID)
    ensures x in SortedIDs(ids) <==> x in ids
  {
    if ids != [] {
      SortedIDMembers(ids[1..], x);
      InsertedIDs(ids[0], SortedIDs(ids[1..]), x);
      assert ids == [ids[0]] + ids[1..];
    }
  }

  predicate Among(entities: seq<Named>, id: EntityID) {
    exists i :: 0 <= i < |entities| && entities[i].id == id
  }

  lemma AmongFirst(e: Named, rest: seq<Named>, id: EntityID)
    ensures Among([e] + rest, id) <==> e.id == id || Among(rest, id)
  {
    var all := [e] + rest;
    assert all[0] == e;
    if Among(rest, id) {
      var i :| 0 <= i < |rest| && rest[i].id == id;
      assert all[i + 1].id == id;
    }
    if Among(all, id) && e.id != id {
      var i :| 0 <= i < |all| && all[i].id == id;
      assert rest[i - 1].id == id;
    }
  }

  lemma {:induction false} PresentMembers(g: GraphState, ids: seq<EntityID>, id: EntityID)
    ensures Among(Present(g, ids), id) <==> id in ids && id in g
    ensures forall i :: 0 <= i < |Present(g, ids)| ==> Present(g, ids)[i].id in g && Present(g, ids)[i].state == g[Present(g, ids)[i].id]
  {
    if ids != [] {
      PresentMembers(g, ids[1..], id);
      assert ids == [ids[0]] + ids[1..];
      if ids[0] in g {
        AmongFirst(Named(ids[0], g[ids[0]]), Present(g, ids[1..]), id);
      }
    }
  }

  lemma {:induction false} KnowledgeEvidenceMembers(records: seq<Named>, actor: EntityID, e: EntityID)
    requires KnowledgeEvidence(records, actor).Some?
    ensures e in KnowledgeEvidence(records, actor).value <==>
            exists i :: 0 <= i < |records| && ExactString(records[i].state, KnowledgeEvidenceRef) == Some(e)
  {
    if records != [] {
      KnowledgeEvidenceMembers(records[1..], actor, e);
      assert forall i :: 0 <= i < |records[1..]| ==> records[1..][i] == records[i + 1];
      if i :| 0 <= i < |records| && ExactString(records[i].state, KnowledgeEvidenceRef) == Some(e) && i > 0 {
        assert records[1..][i - 1] == records[i];
      }
    }
  }

  predicate RevealsTo(s: EntityState, actor: EntityID, e: EntityID) {
    ExactString(s, RevelationActorHolder) == Some(actor) && ExactString(s, RevelationEvidenceRef) == Some(e)
  }

  lemma {:induction false} RevelationEvidenceMembers(records: seq<Named>, actor: EntityID, turnID: string, e: EntityID)
    requires RevelationEvidence(records, actor, turnID).Some?
    ensures e in RevelationEvidence(records, actor, turnID).value <==>
            exists i :: 0 <= i < |records| && RevealsTo(records[i].state, actor, e)
  {
    if records != [] {
      RevelationEvidenceMembers(records[1..], actor, turnID, e);
      assert forall i :: 0 <= i < |records[1..]| ==> records[1..][i] == records[i + 1];
      if i :| 0 <= i < |records| && RevealsTo(records[i].state, actor, e) && i > 0 {
        assert records[1..][i - 1] == records[i];
      }
    }
  }

  lemma {:induction false} TextObjectMembers(triples: seq<Triple>, x: EntityID)
    ensures x in TextObjects(triples) <==> exists t :: t in triples && t.obj == Text(x)
  {
    if triples != [] {
      TextObjectMembers(triples[1..], x);
      assert triples == [triples[0]] + triples[1..];
    }
  }

  lemma {:induction false} OwnedMembers(cfg: Config, targets: seq<EntityID>, id: EntityID)
    ensures id in Owned(cfg, targets) <==> TargetBelief(cfg, targets, id)
  {
    if targets != [] {
      OwnedMembers(cfg, targets[1..], id);
      assert targets == [targets[0]] + targets[1..];
    }
  }

  // ---- Growing a snapshot --------------------------------------------------

  /** A snapshot got some more entities, each with its facts under one of the predicate lists it may be shown with. */
  ghost predicate Grown(
    cfg: Config, g: GraphState, p: Snapshot, q: Snapshot, more: iset<EntityID>, shapes: EntityID -> set<set<Predicate>>)
  {
    && q.turn == p.turn && q.scene == p.scene && q.members == p.members
    && |p.neighbours| <= |q.neighbours| && q.neighbours[..|p.neighbours|] == p.neighbours
    && (forall i :: |p.neighbours| <= i < |q.neighbours| ==>
          q.neighbours[i].id in more && Shaped(cfg, g, q.neighbours[i], shapes))
    && (forall id :: id in more ==> exists i :: |p.neighbours| <= i < |q.neighbours| && q.neighbours[i].id == id)
  }

  ghost predicate Shaped(cfg: Config, g: GraphState, e: Entity, shapes: EntityID -> set<set<Predicate>>) {
    e.id in g && exists allowed :: allowed in shapes(e.id) && e == Project1(cfg, Named(e.id, g[e.id]), allowed)
  }

  lemma GrownTwice(
    cfg: Config, g: GraphState, p: Snapshot, q: Snapshot, r: Snapshot, a: iset<EntityID>, b: iset<EntityID>,
    shapes: EntityID -> set<set<Predicate>>)
    requires Grown(cfg, g, p, q, a, shapes) && Grown(cfg, g, q, r, b, shapes)
    ensures Grown(cfg, g, p, r, a + b, shapes)
  {
    assert forall i :: 0 <= i < |q.neighbours| ==> r.neighbours[i] == r.neighbours[..|q.neighbours|][i];
    assert r.neighbours[..|p.neighbours|] == q.neighbours[..|p.neighbours|];
    forall id | id in a ensures exists i :: |p.neighbours| <= i < |r.neighbours| && r.neighbours[i].id == id {
      var i :| |p.neighbours| <= i < |q.neighbours| && q.neighbours[i].id == id;
      assert r.neighbours[i].id == id;
    }
  }

  /** Appending the projections of some entities of the graph. */
  lemma AppendedGrows(
    cfg: Config, g: GraphState, p: Snapshot, states: seq<Named>, allowed: set<Predicate>, more: iset<EntityID>,
    shapes: EntityID -> set<set<Predicate>>)
    requires forall i :: 0 <= i < |states| ==> states[i].id in g && states[i].state == g[states[i].id]
    requires forall id :: id in more <==> Among(states, id)
    requires forall id :: id in more ==> allowed in shapes(id)
    ensures Grown(cfg, g, p, p.(neighbours := p.neighbours + ProjectAll(cfg, states, allowed)), more, shapes)
  {
    var n, q := |p.neighbours|, p.(neighbours := p.neighbours + ProjectAll(cfg, states, allowed));
    forall i | n <= i < |q.neighbours| ensures q.neighbours[i].id in more && Shaped(cfg, g, q.neighbours[i], shapes) {
      assert states[i - n] == Named(states[i - n].id, g[states[i - n].id]);
      assert q.neighbours[i] == Project1(cfg, states[i - n], allowed);
      assert Among(states, states[i - n].id);
    }
    forall id | id in more ensures exists i :: n <= i < |q.neighbours| && q.neighbours[i].id == id {
      var i :| 0 <= i < |states| && states[i].id == id;
      assert q.neighbours[n + i].id == id;
    }
  }

  const EVIDENCE_FACTS: set<Predicate> := {WorldEntityName, WorldEntityKind, WorldEntityDescription}

  function EvidenceOnly(): EntityID -> set<set<Predicate>> {
    id => {EVIDENCE_FACTS}
  }

  const BOND_FACTS: set<Predicate> := {
    WorldEntityKind, CompanionBondPlayer, CompanionBondCharacter, CompanionBondPolicy, CompanionBondHintLevel}

  function BondToo(bondID: EntityID): EntityID -> set<set<Predicate>> {
    id => if id == bondID then {BOND_FACTS, EVIDENCE_FACTS} else {EVIDENCE_FACTS}
  }

  function CaseFacts(): EntityID -> set<set<Predicate>> {
    id => {CASEKEEPER}
  }

  /** May show evidence as evidence. */
  ghost predicate ShowsEvidence(shapes: EntityID -> set<set<Predicate>>) {
    forall id :: EVIDENCE_FACTS in shapes(id)
  }

  ghost function Resident(g: GraphState, ids: seq<EntityID>): iset<EntityID> {
    iset id | id in ids && id in g
  }

  lemma EvidenceGrows(
    cfg: Config, g: GraphState, p: Snapshot, ids: seq<EntityID>, shapes: EntityID -> set<set<Predicate>>)
    requires ShowsEvidence(shapes) && AddEvidence(cfg, g, p, ids).Some?
    ensures Grown(cfg, g, p, AddEvidence(cfg, g, p, ids).value, Resident(g, ids), shapes)
  {
    var sorted := SortedIDs(ids);
    forall id ensures Among(Present(g, sorted), id) <==> id in ids && id in g {
      PresentMembers(g, sorted, id);
      SortedIDMembers(ids, id);
    }
    PresentMembers(g, sorted, "");
    AppendedGrows(cfg, g, p, Present(g, sorted), EVIDENCE, Resident(g, ids), shapes);
  }

  /** The records a query leads to. */
  lemma QueriedRecords(cfg: Config, g: GraphState, p: Predicate, value: string, id: EntityID)
    requires Query(cfg, p, value).Some?
    ensures Among(Present(g, Query(cfg, p, value).value), id) <==> Indexed(cfg, p, value, id) && id in g
    ensures var records := Present(g, Query(cfg, p, value).value);
      forall i :: 0 <= i < |records| ==> records[i].id in g && records[i].state == g[records[i].id]
  {
    PresentMembers(g, Query(cfg, p, value).value, id);
    SortedIDMembers(cfg.index(p, value).value, id);
  }

  lemma StatesExactly(g: GraphState, id: EntityID, p: Predicate, text: string)
    requires id in g
    ensures States(g, id, p, text) <==> ExactString(g[id], p) == Some(text)
  {}

  lemma KnownEvidence(cfg: Config, g: GraphState, actor: EntityID, e: EntityID)
    requires Query(cfg, KnowledgeActorHolder, actor).Some?
    requires KnowledgeEvidence(Present(g, Query(cfg, KnowledgeActorHolder, actor).value), actor).Some?
    ensures e in KnowledgeEvidence(Present(g, Query(cfg, KnowledgeActorHolder, actor).value), actor).value <==>
            Known(cfg, g, actor, e)
  {
    var records := Present(g, Query(cfg, KnowledgeActorHolder, actor).value);
    KnowledgeEvidenceMembers(records, actor, e);
    QueriedRecords(cfg, g, KnowledgeActorHolder, actor, "");
    if i :| 0 <= i < |records| && ExactString(records[i].state, KnowledgeEvidenceRef) == Some(e) {
      QueriedRecords(cfg, g, KnowledgeActorHolder, actor, records[i].id);
      StatesExactly(g, records[i].id, KnowledgeEvidenceRef, e);
    }
    if id :| Indexed(cfg, KnowledgeActorHolder, actor, id) && States(g, id, KnowledgeEvidenceRef, e) {
      QueriedRecords(cfg, g, KnowledgeActorHolder, actor, id);
      StatesExactly(g, id, KnowledgeEvidenceRef, e);
      var i :| 0 <= i < |records| && records[i].id == id;
    }
  }

  lemma RevealedEvidence(cfg: Config, g: GraphState, actor: EntityID, turnID: string, e: EntityID)
    requires Query(cfg, RevelationTurnID, turnID).Some?
    requires RevelationEvidence(Present(g, Query(cfg, RevelationTurnID, turnID).value), actor, turnID).Some?
    ensures e in RevelationEvidence(Present(g, Query(cfg, RevelationTurnID, turnID).value), actor, turnID).value <==>
            Revealed(cfg, g, actor, turnID, e)
  {
    var records := Present(g, Query(cfg, RevelationTurnID, turnID).value);
    RevelationEvidenceMembers(records, actor, turnID, e);
    QueriedRecords(cfg, g, RevelationTurnID, turnID, "");
    if i :| 0 <= i < |records| && RevealsTo(records[i].state, actor, e) {
      QueriedRecords(cfg, g, RevelationTurnID, turnID, records[i].id);
      StatesExactly(g, records[i].id, RevelationActorHolder, actor);
      StatesExactly(g, records[i].id, RevelationEvidenceRef, e);
    }
    if id :| Indexed(cfg, RevelationTurnID, turnID, id) && States(g, id, RevelationActorHolder, actor) &&
             States(g, id, RevelationEvidenceRef, e) {
      QueriedRecords(cfg, g, RevelationTurnID, turnID, id);
      StatesExactly(g, id, RevelationActorHolder, actor);
      StatesExactly(g, id, RevelationEvidenceRef, e);
      var i :| 0 <= i < |records| && records[i].id == id;
      assert RevealsTo(records[i].state, actor, e);
    }
  }

  ghost function KnownTo(cfg: Config, g: GraphState, actor: EntityID): iset<EntityID> {
    iset id | id in g && Known(cfg, g, actor, id)
  }

  ghost function RevealedTo(cfg: Config, g: GraphState, actor: EntityID, turnID: string): iset<EntityID> {
    iset id | id in g && Revealed(cfg, g, actor, turnID, id)
  }

  lemma KnowledgeGrows(
    cfg: Config, g: GraphState, p: Snapshot, actor: EntityID, shapes: EntityID -> set<set<Predicate>>)
    requires ShowsEvidence(shapes) && AddKnowledge(cfg, g, p, actor).Some?
    ensures Grown(cfg, g, p, AddKnowledge(cfg, g, p, actor).value, KnownTo(cfg, g, actor), shapes)
  {
    var evidence := KnowledgeEvidence(Present(g, Query(cfg, KnowledgeActorHolder, actor).value), actor).value;
    EvidenceGrows(cfg, g, p, evidence, shapes);
    forall id ensures id in evidence <==> Known(cfg, g, actor, id) {
      KnownEvidence(cfg, g, actor, id);
    }
    assert Resident(g, evidence) == KnownTo(cfg, g, actor);
  }

  lemma RevelationsGrow(
    cfg: Config, g: GraphState, p: Snapshot, actor: EntityID, turnID: string, shapes: EntityID -> set<set<Predicate>>)
    requires ShowsEvidence(shapes) && AddRevelations(cfg, g, p, actor, turnID).Some?
    ensures Grown(cfg, g, p, AddRevelations(cfg, g, p, actor, turnID).value, RevealedTo(cfg, g, actor, turnID), shapes)
  {
    var evidence := RevelationEvidence(Present(g, Query(cfg, RevelationTurnID, turnID).value), actor, turnID).value;
    EvidenceGrows(cfg, g, p, evidence, shapes);
    forall id ensures id in evidence <==> Revealed(cfg, g, actor, turnID, id) {
      RevealedEvidence(cfg, g, actor, turnID, id);
    }
    assert Resident(g, evidence) == RevealedTo(cfg, g, actor, turnID);
  }

  ghost function CitedFor(cfg: Config, g: GraphState, view: View): iset<EntityID> {
    iset id | id in g && Cited(cfg, view, id)
  }

  lemma NarrationGrows(
    cfg: Config, g: GraphState, p: Snapshot, view: View, purpose: Purpose, shapes: EntityID -> set<set<Predicate>>)
    requires ShowsEvidence(shapes) && AddNarrationEvidence(cfg, g, p, view, purpose).Some?
    ensures Grown(cfg, g, p, AddNarrationEvidence(cfg, g, p, view, purpose).value, CitedFor(cfg, g, view), shapes)
  {
    if cfg.narrationEvidence.Some? {
      var ids := cfg.narrationEvidence.value(view.turnID, view.playerID, view.scene.id).value;
      forall id ensures Among(Present(g, ids), id) <==> id in ids && id in g {
        PresentMembers(g, ids, id);
      }
      PresentMembers(g, ids, "");
      AppendedGrows(cfg, g, p, Present(g, ids), EVIDENCE, CitedFor(cfg, g, view), shapes);
    }
  }

  // ---- Purpose by purpose --------------------------------------------------

  ghost function DisclosedTo(cfg: Config, g: GraphState, view: View, a: Audience): iset<EntityID> {
    iset id | Disclosed(cfg, g, view, a, id)
  }

  lemma AdjudicatorGrows(cfg: Config, g: GraphState, view: View, a: Audience, p: Snapshot)
    requires a.purpose == PublicAdjudicator && Authorized(cfg, g, view, a, p).Some?
    ensures Grown(cfg, g, p, Authorized(cfg, g, view, a, p).value, DisclosedTo(cfg, g, view, a), EvidenceOnly())
  {
    KnowledgeGrows(cfg, g, p, view.characterID, EvidenceOnly());
    assert KnownTo(cfg, g, view.characterID) == DisclosedTo(cfg, g, view, a);
  }

  lemma WitnessedGrows(cfg: Config, g: GraphState, p: Snapshot, actor: EntityID, turnID: string)
    requires Bind(AddKnowledge(cfg, g, p, actor), q => AddRevelations(cfg, g, q, actor, turnID)).Some?
    ensures Grown(cfg, g, p, Bind(AddKnowledge(cfg, g, p, actor), q => AddRevelations(cfg, g, q, actor, turnID)).value,
                  KnownTo(cfg, g, actor) + RevealedTo(cfg, g, actor, turnID), EvidenceOnly())
  {
    var q := AddKnowledge(cfg, g, p, actor).value;
    KnowledgeGrows(cfg, g, p, actor, EvidenceOnly());
    RevelationsGrow(cfg, g, q, actor, turnID, EvidenceOnly());
    GrownTwice(cfg, g, p, q, AddRevelations(cfg, g, q, actor, turnID).value, KnownTo(cfg, g, actor),
               RevealedTo(cfg, g, actor, turnID), EvidenceOnly());
  }

  lemma PlayerGrows(cfg: Config, g: GraphState, view: View, a: Audience, p: Snapshot)
    requires a.purpose == PlayerView && Authorized(cfg, g, view, a, p).Some?
    ensures Grown(cfg, g, p, Authorized(cfg, g, view, a, p).value, DisclosedTo(cfg, g, view, a), EvidenceOnly())
  {
    var actor := view.characterID;
    WitnessedGrows(cfg, g, p, actor, a.turnID);
    assert KnownTo(cfg, g, actor) + RevealedTo(cfg, g, actor, a.turnID) == DisclosedTo(cfg, g, view, a);
  }

  function Witnessed(cfg: Config, g: GraphState, view: View, a: Audience, p: Snapshot): Option<Snapshot> {
    Bind(AddKnowledge(cfg, g, p, view.characterID), q => AddRevelations(cfg, g, q, view.characterID, a.turnID))
  }

  ghost function WitnessedBy(cfg: Config, g: GraphState, view: View, a: Audience): iset<EntityID> {
    KnownTo(cfg, g, view.characterID) + RevealedTo(cfg, g, view.characterID, a.turnID)
  }

  lemma NarratorSteps(cfg: Config, g: GraphState, view: View, a: Audience, p: Snapshot)
    requires a.purpose == Narrator && Authorized(cfg, g, view, a, p).Some?
    ensures Witnessed(cfg, g, view, a, p).Some?
    ensures Authorized(cfg, g, view, a, p) ==
            AddNarrationEvidence(cfg, g, Witnessed(cfg, g, view, a, p).value, view, Narrator)
  {}

  lemma DenouementSteps(cfg: Config, g: GraphState, view: View, a: Audience, p: Snapshot)
    requires a.purpose == DenouementView && Authorized(cfg, g, view, a, p).Some?
    ensures Witnessed(cfg, g, view, a, p).Some?
    ensures AuthorizeDenouement(cfg, g, Witnessed(cfg, g, view, a, p).value, a).Some?
    ensures Authorized(cfg, g, view, a, p) ==
            AddNarrationEvidence(
              cfg, g, AuthorizeDenouement(cfg, g, Witnessed(cfg, g, view, a, p).value, a).value, view, DenouementView)
  {}

  lemma NarrationSet(cfg: Config, g: GraphState, view: View, a: Audience)
    requires a.purpose == Narrator || a.purpose == DenouementView
    ensures WitnessedBy(cfg, g, view, a) + CitedFor(cfg, g, view) == DisclosedTo(cfg, g, view, a)
  {}

  /** After the witnessed evidence, what narration cites. */
  lemma NarratedGrows(
    cfg: Config, g: GraphState, view: View, a: Audience, p: Snapshot, q: Snapshot, r: Snapshot, purpose: Purpose)
    requires a.purpose == purpose && (purpose == Narrator || purpose == DenouementView)
    requires Grown(cfg, g, p, q, WitnessedBy(cfg, g, view, a), EvidenceOnly())
    requires AddNarrationEvidence(cfg, g, q, view, purpose) == Some(r)
    ensures Grown(cfg, g, p, r, DisclosedTo(cfg, g, view, a), EvidenceOnly())
  {
    NarrationGrows(cfg, g, q, view, purpose, EvidenceOnly());
    GrownTwice(cfg, g, p, q, r, WitnessedBy(cfg, g, view, a), CitedFor(cfg, g, view), EvidenceOnly());
    NarrationSet(cfg, g, view, a);
  }

  lemma NarratorGrows(cfg: Config, g: GraphState, view: View, a: Audience, p: Snapshot)
    requires a.purpose == Narrator && Authorized(cfg, g, view, a, p).Some?
    ensures Grown(cfg, g, p, Authorized(cfg, g, view, a, p).value, DisclosedTo(cfg, g, view, a), EvidenceOnly())
  {
    NarratorSteps(cfg, g, view, a, p);
    WitnessedGrows(cfg, g, p, view.characterID, a.turnID);
    NarratedGrows(cfg, g, view, a, p, Witnessed(cfg, g, view, a, p).value, Authorized(cfg, g, view, a, p).value, Narrator);
  }

  lemma SolutionGrows(cfg: Config, g: GraphState, p: Snapshot, q: Snapshot, more: iset<EntityID>, a: Audience)
    requires Grown(cfg, g, p, q, more, EvidenceOnly()) && AuthorizeDenouement(cfg, g, q, a).Some?
    ensures Grown(cfg, g, p, AuthorizeDenouement(cfg, g, q, a).value, more, EvidenceOnly())
  {
    assert AuthorizeDenouement(cfg, g, q, a).value.neighbours == q.neighbours;
  }

  lemma DenouementGrows(cfg: Config, g: GraphState, view: View, a: Audience, p: Snapshot)
    requires a.purpose == DenouementView && Authorized(cfg, g, view, a, p).Some?
    ensures Grown(cfg, g, p, Authorized(cfg, g, view, a, p).value, DisclosedTo(cfg, g, view, a), EvidenceOnly())
  {
    DenouementSteps(cfg, g, view, a, p);
    var q := Witnessed(cfg, g, view, a, p).value;
    WitnessedGrows(cfg, g, p, view.characterID, a.turnID);
    SolutionGrows(cfg, g, p, q, WitnessedBy(cfg, g, view, a), a);
    NarratedGrows(cfg, g, view, a, p, AuthorizeDenouement(cfg, g, q, a).value, Authorized(cfg, g, view, a, p).value,
                  DenouementView);
  }

  lemma BondGrows(cfg: Config, g: GraphState, p: Snapshot, bondID: EntityID)
    requires AddBond(cfg, g, p, bondID).Some?
    ensures bondID in g && Grown(cfg, g, p, AddBond(cfg, g, p, bondID).value, iset{bondID}, BondToo(bondID))
  {
    var bonds := Present(g, [bondID]);
    forall id ensures Among(bonds, id) <==> id == bondID && id in g { PresentMembers(g, [bondID], id); }
    PresentMembers(g, [bondID], "");
    assert Among(bonds, bonds[0].id);
    assert ProjectAll(cfg, bonds, BOND) == [Project1(cfg, bonds[0], BOND)];
    AppendedGrows(cfg, g, p, bonds, BOND, iset{bondID}, BondToo(bondID));
  }

  lemma CompanionSteps(cfg: Config, g: GraphState, view: View, a: Audience, p: Snapshot)
    requires a.purpose == CompanionView && Authorized(cfg, g, view, a, p).Some?
    ensures AddBond(cfg, g, p, a.bondID).Some?
    ensures Authorized(cfg, g, view, a, p) == AddKnowledge(cfg, g, AddBond(cfg, g, p, a.bondID).value, a.companionID)
  {}

  lemma CompanionSet(cfg: Config, g: GraphState, view: View, a: Audience)
    requires a.purpose == CompanionView && a.bondID in g
    ensures iset{a.bondID} + KnownTo(cfg, g, a.companionID) == DisclosedTo(cfg, g, view, a)
  {}

  lemma CompanionGrows(cfg: Config, g: GraphState, view: View, a: Audience, p: Snapshot)
    requires a.purpose == CompanionView && Authorized(cfg, g, view, a, p).Some?
    ensures Grown(cfg, g, p, Authorized(cfg, g, view, a, p).value, DisclosedTo(cfg, g, view, a), BondToo(a.bondID))
  {
    CompanionSteps(cfg, g, view, a, p);
    var q := AddBond(cfg, g, p, a.bondID).value;
    BondGrows(cfg, g, p, a.bondID);
    KnowledgeGrows(cfg, g, q, a.companionID, BondToo(a.bondID));
    GrownTwice(cfg, g, p, q, AddKnowledge(cfg, g, q, a.companionID).value, iset{a.bondID},
               KnownTo(cfg, g, a.companionID), BondToo(a.bondID));
    CompanionSet(cfg, g, view, a);
  }

  // ---- The casekeeper ------------------------------------------------------

  ghost function CaseReferences(cfg: Config, g: GraphState): iset<EntityID> {
    iset id | id in g && CaseRefers(cfg, g, id)
  }

  ghost function Beliefs(cfg: Config, g: GraphState, targets: seq<EntityID>): iset<EntityID> {
    iset id | id in g && TargetBelief(cfg, targets, id)
  }

  lemma CaseIsOwn(cfg: Config, g: GraphState)
    requires CaseState(cfg, g).Some?
    ensures cfg.caseID in g && CaseState(cfg, g).value == Named(cfg.caseID, g[cfg.caseID])
  {
    PresentMembers(g, [cfg.caseID], cfg.caseID);
    var states := Present(g, [cfg.caseID]);
    assert Among(states, states[0].id);
    PresentMembers(g, [cfg.caseID], states[0].id);
  }

  lemma CaseReferencePredicates(p: Predicate)
    ensures p in CASE_REFERENCES <==> p in CASEKEEPER && IsEntityReference(p)
  {}

  lemma ReferencedStates(cfg: Config, g: GraphState, c: EntityState, id: EntityID)
    requires c == Lookup(g, cfg.caseID)
    ensures id in TextObjects(Within(c, CASE_REFERENCES)) <==> CaseRefers(cfg, g, id)
  {
    TextObjectMembers(Within(c, CASE_REFERENCES), id);
    forall t ensures t in Within(c, CASE_REFERENCES) <==> t in c && t.pred in CASEKEEPER && IsEntityReference(t.pred) {
      WithinMembers(c, CASE_REFERENCES, t);
      CaseReferencePredicates(t.pred);
    }
  }

  lemma ReferencesGrow(cfg: Config, g: GraphState, p: Snapshot, c: EntityState)
    requires c == Lookup(g, cfg.caseID)
    ensures var states := Present(g, SortedIDs(TextObjects(Within(c, CASE_REFERENCES))));
      Grown(cfg, g, p, p.(neighbours := p.neighbours + ProjectAll(cfg, states, CASEKEEPER)), CaseReferences(cfg, g),
            CaseFacts())
  {
    var ids := TextObjects(Within(c, CASE_REFERENCES));
    forall id ensures Among(Present(g, SortedIDs(ids)), id) <==> id in g && CaseRefers(cfg, g, id) {
      PresentMembers(g, SortedIDs(ids), id);
      SortedIDMembers(ids, id);
      ReferencedStates(cfg, g, c, id);
    }
    PresentMembers(g, SortedIDs(ids), "");
    AppendedGrows(cfg, g, p, Present(g, SortedIDs(ids)), CASEKEEPER, CaseReferences(cfg, g), CaseFacts());
  }

  lemma {:induction false} SameTargets(cfg: Config, targets: seq<EntityID>, id: EntityID)
    ensures TargetBelief(cfg, SortedIDs(targets), id) <==> TargetBelief(cfg, targets, id)
  {
    forall target ensures target in SortedIDs(targets) <==> target in targets {
      SortedIDMembers(targets, target);
    }
  }

  lemma BeliefsGrow(cfg: Config, g: GraphState, p: Snapshot, targets: seq<EntityID>)
    ensures var states := Present(g, SortedIDs(Owned(cfg, SortedIDs(targets))));
      Grown(cfg, g, p, p.(neighbours := p.neighbours + ProjectAll(cfg, states, CASEKEEPER)), Beliefs(cfg, g, targets),
            CaseFacts())
  {
    var ids := Owned(cfg, SortedIDs(targets));
    forall id ensures Among(Present(g, SortedIDs(ids)), id) <==> id in g && TargetBelief(cfg, targets, id) {
      PresentMembers(g, SortedIDs(ids), id);
      SortedIDMembers(ids, id);
      OwnedMembers(cfg, SortedIDs(targets), id);
      SameTargets(cfg, targets, id);
    }
    PresentMembers(g, SortedIDs(ids), "");
    AppendedGrows(cfg, g, p, Present(g, SortedIDs(ids)), CASEKEEPER, Beliefs(cfg, g, targets), CaseFacts());
  }

  lemma CaseGrows(cfg: Config, g: GraphState, p: Snapshot)
    requires cfg.caseID in g
    ensures Grown(cfg, g, p,
                  p.(neighbours := p.neighbours + [Project1(cfg, Named(cfg.caseID, g[cfg.caseID]), CASEKEEPER)]),
                  iset{cfg.caseID}, CaseFacts())
  {
    var states := [Named(cfg.caseID, g[cfg.caseID])];
    assert forall id :: Among(states, id) <==> id == cfg.caseID by {
      assert states[0].id == cfg.caseID;
    }
    assert ProjectAll(cfg, states, CASEKEEPER) == [Project1(cfg, states[0], CASEKEEPER)];
    AppendedGrows(cfg, g, p, states, CASEKEEPER, iset{cfg.caseID}, CaseFacts());
  }

  lemma CasekeeperSteps(cfg: Config, g: GraphState, p: Snapshot, targets: seq<EntityID>)
    requires AddCasekeeperState(cfg, g, p, targets).Some?
    ensures CaseState(cfg, g).Some?
    ensures var c := CaseState(cfg, g).value;
      var referenced := Present(g, SortedIDs(TextObjects(Within(c.state, CASE_REFERENCES))));
      var beliefs := Present(g, SortedIDs(Owned(cfg, SortedIDs(targets))));
      AddCasekeeperState(cfg, g, p, targets).value ==
      p.(neighbours := p.neighbours + [Project1(cfg, c, CASEKEEPER)] + ProjectAll(cfg, referenced, CASEKEEPER)
                       + ProjectAll(cfg, beliefs, CASEKEEPER))
  {}

  lemma CasekeeperSet(cfg: Config, g: GraphState, view: View, a: Audience)
    requires a.purpose == Casekeeper && cfg.caseID in g
    ensures iset{cfg.caseID} + CaseReferences(cfg, g) + Beliefs(cfg, g, a.targetActors) == DisclosedTo(cfg, g, view, a)
  {}

  lemma CasekeeperGrows(cfg: Config, g: GraphState, view: View, a: Audience, p: Snapshot)
    requires a.purpose == Casekeeper && Authorized(cfg, g, view, a, p).Some?
    ensures Grown(cfg, g, p, Authorized(cfg, g, view, a, p).value, DisclosedTo(cfg, g, view, a), CaseFacts())
  {
    CasekeeperSteps(cfg, g, p, a.targetActors);
    CaseIsOwn(cfg, g);
    var c := g[cfg.caseID];
    var referenced := Present(g, SortedIDs(TextObjects(Within(c, CASE_REFERENCES))));
    var q := p.(neighbours := p.neighbours + [Project1(cfg, Named(cfg.caseID, c), CASEKEEPER)]);
    var r := q.(neighbours := q.neighbours + ProjectAll(cfg, referenced, CASEKEEPER));
    CaseGrows(cfg, g, p);
    ReferencesGrow(cfg, g, q, c);
    GrownTwice(cfg, g, p, q, r, iset{cfg.caseID}, CaseReferences(cfg, g), CaseFacts());
    BeliefsGrow(cfg, g, r, a.targetActors);
    GrownTwice(cfg, g, p, r, Authorized(cfg, g, view, a, p).value, iset{cfg.caseID} + CaseReferences(cfg, g),
               Beliefs(cfg, g, a.targetActors), CaseFacts());
    CasekeeperSet(cfg, g, view, a);
  }

  // ---- What leaves the projector -------------------------------------------

  predicate Shows(p: Snapshot, id: EntityID) {
    id in IDs(Entities(p))
  }

  lemma {:induction false} LastMeansMember(entities: seq<Entity>, id: EntityID)
    ensures LastWith(entities, id).Some? <==> id in IDs(entities)
    ensures LastWith(entities, id).Some? ==> LastWith(entities, id).value in entities && LastWith(entities, id).value.id == id
  {
    if entities != [] {
      var init := entities[..|entities| - 1];
      LastMeansMember(init, id);
      assert forall i :: 0 <= i < |init| ==> init[i] == entities[i];
      assert IDs(entities) == IDs(init) + {entities[|entities| - 1].id};
    }
  }

  lemma DedupedShows(entities: seq<Entity>, excluded: set<EntityID>, id: EntityID)
    ensures id in IDs(Deduped(entities, excluded)) <==> id != "" && id !in excluded && id in IDs(entities)
  {
    DedupedFinds(entities, excluded, id);
    FindMeansMember(Deduped(entities, excluded), id);
    LastMeansMember(entities, id);
  }

  lemma EntitiesShow(p: Snapshot, id: EntityID)
    ensures Shows(p, id) <==>
            (id != "" && (id == p.turn.id || id == p.scene.id)) || id in IDs(p.members) || id in IDs(p.neighbours)
  {
    var front, all := Single(p.turn) + Single(p.scene), Entities(p);
    assert all == front + p.members + p.neighbours;
    assert forall i :: 0 <= i < |p.members| ==> all[|front| + i] == p.members[i];
    assert forall i :: 0 <= i < |p.neighbours| ==> all[|front| + |p.members| + i] == p.neighbours[i];
    assert p.turn.id != "" ==> all[0] == p.turn;
    assert p.scene.id != "" ==> all[|Single(p.turn)|] == p.scene;
  }

  /** Finalizing neither hides an entity nor invents one. */
  lemma FinalizedShows(p: Snapshot, id: EntityID)
    ensures Shows(Finalized(p), id) <==>
            id != "" && (id == p.turn.id || id == p.scene.id || id in IDs(p.members) || id in IDs(p.neighbours))
  {
    var arranged := Arranged(p);
    var allowed := IDs(Entities(arranged));
    PruningIsPointwise(arranged, allowed);
    PrunedIDs(Entities(arranged), allowed);
    EntitiesShow(arranged, id);
    DedupedShows(p.members, Anchors(p), id);
    DedupedShows(p.neighbours, Anchors(p) + IDs(arranged.members), id);
  }

  lemma {:induction false} PublicMembers(cfg: Config, entities: seq<Named>, id: EntityID)
    ensures id in IDs(ProjectAll(cfg, PublicOnly(entities), PUBLIC_WORLD)) <==>
            exists i :: 0 <= i < |entities| && entities[i].id == id && PublicKind(entities[i])
  {
    PublicOnlyMembers(entities, id);
    var public := PublicOnly(entities);
    assert forall i :: 0 <= i < |public| ==> ProjectAll(cfg, public, PUBLIC_WORLD)[i].id == public[i].id;
  }

  lemma {:induction false} PublicOnlyMembers(entities: seq<Named>, id: EntityID)
    ensures Among(PublicOnly(entities), id) <==>
            exists i :: 0 <= i < |entities| && entities[i].id == id && PublicKind(entities[i])
  {
    if entities != [] {
      PublicOnlyMembers(entities[1..], id);
      assert forall i :: 0 <= i < |entities[1..]| ==> entities[1..][i] == entities[i + 1];
      if PublicKind(entities[0]) {
        AmongFirst(entities[0], PublicOnly(entities[1..]), id);
      }
      if i :| 0 <= i < |entities| && entities[i].id == id && PublicKind(entities[i]) && i > 0 {
        assert entities[1..][i - 1] == entities[i];
      }
    }
  }

  lemma PublicShows(cfg: Config, view: View, purpose: Purpose, id: EntityID)
    ensures var p := PublicSnapshot(cfg, view, purpose);
      InPublicScene(view, id) <==>
      id == p.turn.id || id == p.scene.id || id in IDs(p.members) || id in IDs(p.neighbours)
  {
    PublicMembers(cfg, view.members, id);
    PublicMembers(cfg, view.neighbours, id);
  }

  lemma GrownShows(
    cfg: Config, g: GraphState, p: Snapshot, q: Snapshot, more: iset<EntityID>, shapes: EntityID -> set<set<Predicate>>,
    id: EntityID)
    requires Grown(cfg, g, p, q, more, shapes)
    ensures id in IDs(q.neighbours) <==> id in IDs(p.neighbours) || id in more
  {
    assert forall i :: 0 <= i < |p.neighbours| ==> q.neighbours[i] == q.neighbours[..|p.neighbours|][i];
  }

  function Shapes(a: Audience): EntityID -> set<set<Predicate>> {
    if a.purpose == CompanionView then BondToo(a.bondID)
    else if a.purpose == Casekeeper then CaseFacts()
    else EvidenceOnly()
  }

  /** Every purpose's additions are exactly what is disclosed to it. */
  lemma AuthorizedGrows(cfg: Config, g: GraphState, view: View, a: Audience, p: Snapshot)
    requires Authorized(cfg, g, view, a, p).Some?
    ensures Grown(cfg, g, p, Authorized(cfg, g, view, a, p).value, DisclosedTo(cfg, g, view, a), Shapes(a))
  {
    match a.purpose
    case PublicAdjudicator => AdjudicatorGrows(cfg, g, view, a, p);
    case PlayerView => PlayerGrows(cfg, g, view, a, p);
    case CompanionView => CompanionGrows(cfg, g, view, a, p);
    case Narrator => NarratorGrows(cfg, g, view, a, p);
    case DenouementView => DenouementGrows(cfg, g, view, a, p);
    case Casekeeper => CasekeeperGrows(cfg, g, view, a, p);
  }

  lemma ProjectSteps(cfg: Config, g: GraphState, view: View, a: Audience)
    requires Project(cfg, g, view, a).Some? && a.purpose != Verifier
    ensures var p := PublicSnapshot(cfg, view, a.purpose);
      Authorized(cfg, g, view, a, p).Some? &&
      Project(cfg, g, view, a).value.snapshot == Finalized(Authorized(cfg, g, view, a, p).value)
  {}

  /** A purpose is shown the public scene and what is disclosed to it, every entity of both and no other. */
  lemma ShownExactly(cfg: Config, g: GraphState, view: View, a: Audience, id: EntityID)
    requires Project(cfg, g, view, a).Some? && a.purpose != Verifier
    ensures Shows(Project(cfg, g, view, a).value.snapshot, id) <==>
            id != "" && (InPublicScene(view, id) || Disclosed(cfg, g, view, a, id))
  {
    var p := PublicSnapshot(cfg, view, a.purpose);
    ProjectSteps(cfg, g, view, a);
    var q := Authorized(cfg, g, view, a, p).value;
    AuthorizedGrows(cfg, g, view, a, p);
    FinalizedShows(q, id);
    GrownShows(cfg, g, p, q, DisclosedTo(cfg, g, view, a), Shapes(a), id);
    PublicShows(cfg, view, a.purpose, id);
  }

  // ---- And with which facts ------------------------------------------------

  lemma LastIsShaped(
    cfg: Config, g: GraphState, p: Snapshot, q: Snapshot, more: iset<EntityID>, shapes: EntityID -> set<set<Predicate>>,
    id: EntityID)
    requires Grown(cfg, g, p, q, more, shapes) && id !in IDs(p.neighbours) && id in more
    ensures LastWith(q.neighbours, id).Some? && Shaped(cfg, g, LastWith(q.neighbours, id).value, shapes)
  {
    GrownShows(cfg, g, p, q, more, shapes, id);
    LastMeansMember(q.neighbours, id);
    var e := LastWith(q.neighbours, id).value;
    var i :| 0 <= i < |q.neighbours| && q.neighbours[i] == e;
    PrefixLacks(p.neighbours, q.neighbours, i);
  }

  lemma PrefixLacks(p: seq<Entity>, q: seq<Entity>, i: nat)
    requires |p| <= |q| && q[..|p|] == p && i < |q| && q[i].id !in IDs(p)
    ensures i >= |p|
  {
    assert forall k :: 0 <= k < |p| ==> p[k] == q[k] && p[k].id in IDs(p);
  }

  /** The entity a finalized snapshot holds for a disclosed identity, before and after pruning. */
  lemma FinalEntity(p: Snapshot, id: EntityID)
    requires id != "" && id !in Anchors(p) && id !in IDs(p.members) && LastWith(p.neighbours, id).Some?
    ensures var allowed := IDs(Entities(Arranged(p)));
      Find(Finalized(p).neighbours, id) == Some(Pruned(LastWith(p.neighbours, id).value, allowed))
    ensures IDs(Entities(Finalized(p))) == IDs(Entities(Arranged(p)))
  {
    var arranged := Arranged(p);
    var allowed := IDs(Entities(arranged));
    DedupedShows(p.members, Anchors(p), id);
    DedupedFinds(p.neighbours, Anchors(p) + IDs(arranged.members), id);
    PrunedFinds(arranged.neighbours, allowed, id);
    PruningIsPointwise(arranged, allowed);
    PrunedIDs(Entities(arranged), allowed);
  }

  /** The facts of one entity that lie in a list and, where they refer to an entity, to one that is shown. */
  ghost predicate FactOf(g: GraphState, id: EntityID, allowed: set<Predicate>, shown: Snapshot, f: Fact) {
    && id in g
    && (exists t :: t in g[id] && t.pred in allowed && f == Fact(t.pred, t.obj))
    && (IsEntityReference(f.pred) ==> f.obj.Text? && Shows(shown, f.obj.text))
  }

  /** What is shown of an entity outside the public scene: of evidence its name, kind and description, of the bond its
      player, character, policy and hint level, and to the casekeeper alone the facts of the case. */
  lemma FactsShown(cfg: Config, g: GraphState, view: View, a: Audience, id: EntityID) returns (e: Entity, allowed: set<Predicate>)
    requires Project(cfg, g, view, a).Some? && a.purpose != Verifier
    requires id != "" && !InPublicScene(view, id) && Disclosed(cfg, g, view, a, id)
    ensures Find(Project(cfg, g, view, a).value.snapshot.neighbours, id) == Some(e)
    ensures forall f :: f in e.facts <==> FactOf(g, id, allowed, Project(cfg, g, view, a).value.snapshot, f)
    ensures a.purpose == Casekeeper ==> allowed == CASEKEEPER
    ensures a.purpose != Casekeeper && (a.purpose != CompanionView || id != a.bondID) ==>
              allowed == {WorldEntityName, WorldEntityKind, WorldEntityDescription}
    ensures a.purpose == CompanionView && id == a.bondID ==>
              || allowed == {WorldEntityName, WorldEntityKind, WorldEntityDescription}
              || allowed == {WorldEntityKind, CompanionBondPlayer, CompanionBondCharacter, CompanionBondPolicy,
                             CompanionBondHintLevel}
  {
    var p := PublicSnapshot(cfg, view, a.purpose);
    ProjectSteps(cfg, g, view, a);
    var q := Authorized(cfg, g, view, a, p).value;
    AuthorizedGrows(cfg, g, view, a, p);
    PublicShows(cfg, view, a.purpose, id);
    LastIsShaped(cfg, g, p, q, DisclosedTo(cfg, g, view, a), Shapes(a), id);
    FinalEntity(q, id);
    LastMeansMember(q.neighbours, id);
    var last := LastWith(q.neighbours, id).value;
    e := Pruned(last, IDs(Entities(Arranged(q))));
    allowed :| allowed in Shapes(a)(id) && last == Project1(cfg, Named(id, g[id]), allowed);
    forall f ensures f in e.facts <==> FactOf(g, id, allowed, Finalized(q), f) {
      KeptMembers(last.facts, IDs(Entities(Arranged(q))), f);
      ProjectedFactsAreAllowed(cfg, Named(id, g[id]), allowed, f);
    }
  }

  // ---- Who is served at all ------------------------------------------------

  /** A projection is only ever made for the turn it was asked for, its verified actor, the projector's own case, and a
      companion whose bond with this turn's player was confirmed; and it says so. */
  lemma ProjectionsAreBound(cfg: Config, g: GraphState, view: View, a: Audience)
    requires Project(cfg, g, view, a).Some? && a.purpose != Verifier
    ensures var out := Project(cfg, g, view, a).value;
      && a.purpose != Operator && out.purpose == a.purpose
      && view.verified && view.turnID == a.turnID && view.turnEntityID == a.turnEntityID
      && out.turnID == a.turnID && out.turnEntityID == a.turnEntityID
      && out.playerID == view.playerID && out.characterID == view.characterID
      && (a.purpose == Casekeeper || a.purpose == DenouementView ==> a.caseID == cfg.caseID)
      && (a.purpose == CompanionView ==>
            && cfg.bond.Some? && cfg.bond.value(a.bondID, view.playerID, a.companionID)
            && out.companionID == a.companionID && out.bondID == a.bondID && out.contextRef == a.contextRef)
      && (a.purpose != CompanionView ==> out.companionID == "" && out.bondID == "" && out.contextRef == "")
  {}

  /** The ordinary narrator is never shown, as cited evidence, an identity the case records as its solution. */
  lemma NarratorCitesNoSolution(cfg: Config, g: GraphState, view: View, a: Audience, id: EntityID, p: Predicate)
    requires Project(cfg, g, view, a).Some? && a.purpose == Narrator && cfg.caseID != "" && Cited(cfg, view, id)
    requires p == CaseSolutionCulprit || p == CaseSolutionMethod || p == CaseSolutionMotive
    ensures cfg.caseID in g && !States(g, cfg.caseID, p, id)
  {
    NarratorSteps(cfg, g, view, a, PublicSnapshot(cfg, view, Narrator));
    CaseIsOwn(cfg, g);
    if States(g, cfg.caseID, p, id) {
      SoleStates(g[cfg.caseID], p, id);
    }
  }

  lemma SoleStates(s: EntityState, p: Predicate, text: string)
    requires |TriplesOf(s, p)| == 1 && TriplesOf(s, p)[0].obj == Text(text)
    ensures SoleString(s, p) == Some(text)
  {
    var t := TriplesOf(s, p)[0];
    WithinMembers(s, {p}, t);
    assert TriplesOf(s, p) == [t];
    StringsWithin(s, p);
  }
}
