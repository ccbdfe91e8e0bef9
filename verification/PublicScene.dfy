/** What a projection keeps of the public scene, the records it stands on, and how large it may be. */
module PublicScene {
  import opened Wrappers
  import opened Vocabulary
  import opened Graph
  import opened Projection
  import opened EpistemicProjector
  import opened Disclosure

  // ---- The public scene ----------------------------------------------------

  /** A fact of a list that the entity records, and, where it refers to an entity, to one that is shown. */
  ghost predicate Recorded(s: EntityState, readable: Predicate -> bool, shown: Snapshot, f: Projection.Fact) {
    && (exists t :: t in s && readable(t.pred) && f == Projection.Fact(t.pred, t.obj))
    && (IsEntityReference(f.pred) ==> f.obj.Text? && Shows(shown, f.obj.text))
  }

  /** What was granted and what the companion decided are facts of the turn for its narration alone; what was decided
      about the case, and whether an accusation was right, for nobody. */
  predicate TurnReadable(purpose: Purpose, p: Predicate) {
    if p in {TurnKnowledgeRef, TurnCompanionStageRef, TurnCompanionDecisionRef}
    then purpose == Narrator || purpose == DenouementView
    else p in PUBLIC_TURN && p !in {TurnCaseDecisionRef, TurnAccusationRef}
  }

  lemma TurnPredicates(purpose: Purpose, p: Predicate)
    ensures TurnReadable(purpose, p) <==>
            p in (if purpose == Narrator || purpose == DenouementView then NARRATION_TURN else PUBLIC_TURN)
  {}

  lemma PrunedProjection(
    cfg: Config, e: Named, allowed: set<Predicate>, readable: Predicate -> bool, shown: Snapshot, f: Projection.Fact)
    requires forall p :: readable(p) <==> p in allowed
    ensures f in Pruned(Project1(cfg, e, allowed), IDs(Entities(shown))).facts <==> Recorded(e.state, readable, shown, f)
  {
    KeptMembers(Project1(cfg, e, allowed).facts, IDs(Entities(shown)), f);
    ProjectedFactsAreAllowed(cfg, e, allowed, f);
  }

  lemma FinalShows(q: Snapshot)
    ensures IDs(Entities(Finalized(q))) == IDs(Entities(Arranged(q)))
  {
    PruningIsPointwise(Arranged(q), IDs(Entities(Arranged(q))));
    PrunedIDs(Entities(Arranged(q)), IDs(Entities(Arranged(q))));
  }

  /** The snapshot before finalizing, whose turn, scene and members are the public ones. */
  lemma Grows(cfg: Config, g: GraphState, view: View, a: Audience) returns (q: Snapshot)
    requires Project(cfg, g, view, a).Some? && a.purpose != Verifier
    ensures Project(cfg, g, view, a).value.snapshot == Finalized(q)
    ensures var p := PublicSnapshot(cfg, view, a.purpose);
      q.turn == p.turn && q.scene == p.scene && q.members == p.members
    ensures IDs(Entities(Finalized(q))) == IDs(Entities(Arranged(q)))
  {
    ProjectSteps(cfg, g, view, a);
    var p := PublicSnapshot(cfg, view, a.purpose);
    AuthorizedGrows(cfg, g, view, a, p);
    q := Authorized(cfg, g, view, a, p).value;
    FinalShows(q);
  }

  /** The turn is shown with exactly its readable facts. */
  lemma TurnShown(cfg: Config, g: GraphState, view: View, a: Audience, f: Projection.Fact)
    requires Project(cfg, g, view, a).Some? && a.purpose != Verifier
    ensures var shown := Project(cfg, g, view, a).value.snapshot;
      && shown.turn.id == view.turn.id
      && (f in shown.turn.facts <==> Recorded(view.turn.state, p => TurnReadable(a.purpose, p), shown, f))
  {
    var q := Grows(cfg, g, view, a);
    var allowed := if a.purpose == Narrator || a.purpose == DenouementView then NARRATION_TURN else PUBLIC_TURN;
    forall p ensures TurnReadable(a.purpose, p) <==> p in allowed { TurnPredicates(a.purpose, p); }
    PrunedProjection(cfg, view.turn, allowed, p => TurnReadable(a.purpose, p), Finalized(q), f);
  }

  /** The scene is shown with exactly its public facts. */
  lemma SceneShown(cfg: Config, g: GraphState, view: View, a: Audience, f: Projection.Fact)
    requires Project(cfg, g, view, a).Some? && a.purpose != Verifier
    ensures var shown := Project(cfg, g, view, a).value.snapshot;
      && shown.scene.id == view.scene.id
      && (f in shown.scene.facts <==> Recorded(view.scene.state, p => p in PUBLIC_WORLD, shown, f))
  {
    var q := Grows(cfg, g, view, a);
    PrunedProjection(cfg, view.scene, PUBLIC_WORLD, p => p in PUBLIC_WORLD, Finalized(q), f);
  }

  /** A member of the scene is shown among the members, with exactly its public facts. */
  lemma MemberShown(cfg: Config, g: GraphState, view: View, a: Audience, id: EntityID) returns (m: Named, e: Entity)
    requires Project(cfg, g, view, a).Some? && a.purpose != Verifier
    requires id !in {"", view.turn.id, view.scene.id}
    requires exists i :: 0 <= i < |view.members| && view.members[i].id == id && PublicKind(view.members[i])
    ensures m in view.members && m.id == id && PublicKind(m)
    ensures Find(Project(cfg, g, view, a).value.snapshot.members, id) == Some(e)
    ensures forall f :: f in e.facts <==>
              Recorded(m.state, p => p in PUBLIC_WORLD, Project(cfg, g, view, a).value.snapshot, f)
  {
    var q := Grows(cfg, g, view, a);
    var public := PublicOnly(view.members);
    PublicMembers(cfg, view.members, id);
    LastMeansMember(q.members, id);
    var last := LastWith(q.members, id).value;
    var k :| 0 <= k < |q.members| && q.members[k] == last;
    m := public[k];
    PublicOnlyIsPublic(view.members, k);
    DedupedFinds(q.members, Anchors(q), id);
    var allowed := IDs(Entities(Arranged(q)));
    PrunedFinds(Arranged(q).members, allowed, id);
    e := Pruned(last, allowed);
    forall f ensures f in e.facts <==> Recorded(m.state, p => p in PUBLIC_WORLD, Finalized(q), f) {
      PrunedProjection(cfg, m, PUBLIC_WORLD, p => p in PUBLIC_WORLD, Finalized(q), f);
    }
  }

  lemma {:induction false} PublicOnlyIsPublic(entities: seq<Named>, k: nat)
    requires k < |PublicOnly(entities)|
    ensures PublicOnly(entities)[k] in entities && PublicKind(PublicOnly(entities)[k])
  {
    if IsPublicKind(entities[0]) {
      if k > 0 { PublicOnlyIsPublic(entities[1..], k - 1); }
    } else {
      PublicOnlyIsPublic(entities[1..], k);
    }
  }

  // ---- The records it stands on --------------------------------------------

  /** The actor whose knowledge a purpose is shown. */
  function Reader(view: View, a: Audience): EntityID {
    if a.purpose == CompanionView then a.companionID else view.characterID
  }

  /** A record of knowledge held by this actor, of one piece of evidence. */
  ghost predicate HeldBy(g: GraphState, id: EntityID, actor: EntityID) {
    && States(g, id, WorldEntityKind, "knowledge") && States(g, id, KnowledgeActorHolder, actor)
    && exists evidence :: States(g, id, KnowledgeEvidenceRef, evidence)
  }

  lemma {:induction false} RecordsAreKnowledge(records: seq<Named>, actor: EntityID, i: nat)
    requires KnowledgeEvidence(records, actor).Some? && i < |records|
    ensures HasKind(records[i].state, Knowledge) && ExactString(records[i].state, KnowledgeActorHolder) == Some(actor)
    ensures ExactString(records[i].state, KnowledgeEvidenceRef).Some?
  {
    if i > 0 {
      RecordsAreKnowledge(records[1..], actor, i - 1);
    }
  }

  lemma KindStated(g: GraphState, id: EntityID, kind: EntityKind, text: string)
    requires id in g && HasKind(g[id], kind) && forall other :: ParseEntityKind(other) == Some(kind) ==> other == text
    ensures States(g, id, WorldEntityKind, text)
  {}

  lemma KnowledgeRead(cfg: Config, g: GraphState, view: View, a: Audience, p: Snapshot)
    requires Authorized(cfg, g, view, a, p).Some? && a.purpose !in {Casekeeper, Verifier, Operator}
    ensures Query(cfg, KnowledgeActorHolder, Reader(view, a)).Some?
    ensures KnowledgeEvidence(Present(g, Query(cfg, KnowledgeActorHolder, Reader(view, a)).value), Reader(view, a)).Some?
  {}

  /** Every existing record indexed under the reader is the reader's own knowledge of one piece of evidence: one that is
      not refuses the whole projection. */
  lemma RecordsAreOwned(cfg: Config, g: GraphState, view: View, a: Audience, id: EntityID)
    requires Project(cfg, g, view, a).Some? && a.purpose !in {Casekeeper, Verifier}
    requires Indexed(cfg, KnowledgeActorHolder, Reader(view, a), id) && id in g
    ensures HeldBy(g, id, Reader(view, a))
  {
    ProjectSteps(cfg, g, view, a);
    KnowledgeRead(cfg, g, view, a, PublicSnapshot(cfg, view, a.purpose));
    RecordIsOwned(cfg, g, Reader(view, a), id);
  }

  lemma RecordIsOwned(cfg: Config, g: GraphState, actor: EntityID, id: EntityID)
    requires Query(cfg, KnowledgeActorHolder, actor).Some?
    requires KnowledgeEvidence(Present(g, Query(cfg, KnowledgeActorHolder, actor).value), actor).Some?
    requires Indexed(cfg, KnowledgeActorHolder, actor, id) && id in g
    ensures HeldBy(g, id, actor)
  {
    QueriedRecords(cfg, g, KnowledgeActorHolder, actor, id);
    var records := Present(g, Query(cfg, KnowledgeActorHolder, actor).value);
    var i :| 0 <= i < |records| && records[i].id == id;
    RecordsAreKnowledge(records, actor, i);
    StatesExactly(g, id, KnowledgeActorHolder, actor);
    StatesExactly(g, id, KnowledgeEvidenceRef, ExactString(g[id], KnowledgeEvidenceRef).value);
    KindStated(g, id, Knowledge, "knowledge");
  }

  /** A belief of one of the questioned actors, about evidence of the case, with a declared stance. */
  ghost predicate BeliefOfTarget(cfg: Config, g: GraphState, targets: seq<EntityID>, id: EntityID) {
    && States(g, id, WorldEntityKind, "belief")
    && (exists target :: target in targets && target in cfg.beliefs && id in cfg.beliefs[target] &&
          States(g, id, BeliefActorHolder, target))
    && (exists evidence, t :: States(g, id, BeliefEvidenceRef, evidence) &&
          t in Lookup(g, cfg.caseID) && t.pred == CaseMemberEvidence && t.obj == Text(evidence))
    && (exists text :: States(g, id, BeliefStanceCurrent, text) && ParseStance(text).Some?)
  }

  lemma {:induction false} OwnersOwn(cfg: Config, targets: seq<EntityID>, id: EntityID)
    requires id in BeliefRecords(cfg, targets)
    ensures var owner := BeliefRecords(cfg, targets)[id];
      owner in targets && owner in cfg.beliefs && id in cfg.beliefs[owner]
  {
    var init, last := targets[..|targets| - 1], targets[|targets| - 1];
    if last !in cfg.beliefs || id !in cfg.beliefs[last] {
      OwnersOwn(cfg, init, id);
    }
  }

  lemma CasekeeperChecks(cfg: Config, g: GraphState, p: Snapshot, targets: seq<EntityID>)
    requires AddCasekeeperState(cfg, g, p, targets).Some?
    ensures CaseState(cfg, g).Some?
    ensures var scoped := SortedIDs(Owned(cfg, SortedIDs(targets)));
      var beliefs := Present(g, scoped);
      && (forall i :: 0 <= i < |targets| ==> EligibleTarget(CaseState(cfg, g).value.state, p, targets[i]))
      && |beliefs| == |scoped|
      && forall i :: 0 <= i < |beliefs| ==>
           BeliefScoped(CaseState(cfg, g).value.state, BeliefRecords(cfg, SortedIDs(targets)), beliefs[i])
  {}

  lemma {:induction false} AllPresent(g: GraphState, ids: seq<EntityID>)
    ensures |Present(g, ids)| <= |ids|
    ensures |Present(g, ids)| == |ids| ==> forall id :: id in ids ==> id in g
  {
    if ids != [] {
      AllPresent(g, ids[1..]);
      assert ids == [ids[0]] + ids[1..];
    }
  }

  lemma ScopedBelief(cfg: Config, g: GraphState, targets: seq<EntityID>, belief: Named)
    requires cfg.caseID in g && belief.id in g && belief.state == g[belief.id]
    requires BeliefScoped(g[cfg.caseID], BeliefRecords(cfg, SortedIDs(targets)), belief)
    ensures BeliefOfTarget(cfg, g, targets, belief.id)
  {
    var id, owners := belief.id, BeliefRecords(cfg, SortedIDs(targets));
    KindStated(g, id, Belief, "belief");
    OwnersOwn(cfg, SortedIDs(targets), id);
    SortedIDMembers(targets, owners[id]);
    StatesExactly(g, id, BeliefActorHolder, owners[id]);
    var evidence := ExactString(belief.state, BeliefEvidenceRef).value;
    StatesExactly(g, id, BeliefEvidenceRef, evidence);
    TextObjectMembers(TriplesOf(g[cfg.caseID], CaseMemberEvidence), evidence);
    var t :| t in TriplesOf(g[cfg.caseID], CaseMemberEvidence) && t.obj == Text(evidence);
    WithinMembers(g[cfg.caseID], {CaseMemberEvidence}, t);
    StatesExactly(g, id, BeliefStanceCurrent, ExactString(belief.state, BeliefStanceCurrent).value);
  }

  /** Beliefs reach the casekeeper only of actors it may question, and every one of theirs exists and is sound. */
  lemma BeliefsAreScoped(cfg: Config, g: GraphState, view: View, a: Audience, id: EntityID)
    requires Project(cfg, g, view, a).Some? && a.purpose == Casekeeper && TargetBelief(cfg, a.targetActors, id)
    ensures BeliefOfTarget(cfg, g, a.targetActors, id)
  {
    var p, targets := PublicSnapshot(cfg, view, a.purpose), a.targetActors;
    ProjectSteps(cfg, g, view, a);
    CasekeeperChecks(cfg, g, p, targets);
    CaseIsOwn(cfg, g);
    var scoped := SortedIDs(Owned(cfg, SortedIDs(targets)));
    SameTargets(cfg, targets, id);
    OwnedMembers(cfg, SortedIDs(targets), id);
    SortedIDMembers(Owned(cfg, SortedIDs(targets)), id);
    AllPresent(g, scoped);
    PresentMembers(g, scoped, id);
    var i :| 0 <= i < |Present(g, scoped)| && Present(g, scoped)[i].id == id;
    ScopedBelief(cfg, g, targets, Present(g, scoped)[i]);
  }

  // ---- How large it may be -------------------------------------------------

  lemma {:induction false} OutsideCounted(entities: seq<Entity>, base: set<EntityID>)
    ensures |IDs(entities) - base| <= CountOutside(entities, base)
  {
    if entities != [] {
      OutsideCounted(entities[1..], base);
      var first, rest := {entities[0].id}, IDs(entities[1..]);
      assert forall i :: 1 <= i < |entities| ==> entities[i] == entities[1..][i - 1];
      assert IDs(entities) - base == (first - base) + (rest - base);
      if entities[0].id !in base {
        assert first - base == first;
      } else {
        assert first - base == {};
      }
      assert |(first - base) + (rest - base)| <= |first - base| + |rest - base|;
    } else {
      assert IDs(entities) - base == {};
    }
  }

  /** A projection holds no more entities, no more of them beyond the public scene, and no more bytes than configured. */
  lemma ProjectionsAreBounded(cfg: Config, g: GraphState, view: View, a: Audience)
    requires Project(cfg, g, view, a).Some? && a.purpose != Verifier
    ensures var shown := Project(cfg, g, view, a).value.snapshot;
      && |Entities(shown)| <= cfg.maxEntities
      && |IDs(Entities(shown)) - IDs(Entities(PublicSnapshot(cfg, view, a.purpose)))| <= cfg.maxSupplemental
      && cfg.bytes(shown).Some? && cfg.bytes(shown).value <= cfg.maxBytes
  {
    OutsideCounted(Entities(Project(cfg, g, view, a).value.snapshot), IDs(Entities(PublicSnapshot(cfg, view, a.purpose))));
  }
}
