/** Two worlds that differ only in what the authored solution is look the same to everyone
    who is not cleared for it. */
module NonInterference {
  import opened Wrappers
  import opened Vocabulary
  import opened Graph
  import opened ByteOrder
  import opened Projection
  import opened EpistemicProjector

  predicate Low(p: Purpose) {
    p == PlayerView || p == PublicAdjudicator || p == CompanionView || p == Narrator
  }

  /** The facts that may differ are the three solution predicates and nothing else. */
  predicate SameButSolution(s: EntityState, s': EntityState) {
    Without(s, SOLUTION) == Without(s', SOLUTION)
  }

  ghost predicate SameWorld(g: GraphState, g': GraphState) {
    g.Keys == g'.Keys && forall id :: id in g ==> SameButSolution(g[id], g'[id])
  }

  predicate SameNamed(e: Named, e': Named) {
    e.id == e'.id && SameButSolution(e.state, e'.state)
  }

  predicate SameList(es: seq<Named>, es': seq<Named>) {
    |es| == |es'| && forall i :: 0 <= i < |es| ==> SameNamed(es[i], es'[i])
  }

  predicate SameView(v: View, v': View) {
    && v' == v.(turn := v'.turn, scene := v'.scene, members := v'.members, neighbours := v'.neighbours)
    && SameNamed(v.turn, v'.turn) && SameNamed(v.scene, v'.scene)
    && SameList(v.members, v'.members) && SameList(v.neighbours, v'.neighbours)
  }

  // ---- Reading a fact outside the solution ---------------------------------

  lemma {:induction false} WithinSkipsWithout(s: EntityState, group: set<Predicate>, allowed: set<Predicate>)
    requires group !! allowed
    ensures Within(Without(s, group), allowed) == Within(s, allowed)
  {
    if s != [] {
      WithinSkipsWithout(s[1..], group, allowed);
      if s[0].pred !in group {
        assert Without(s, group)[1..] == Without(s[1..], group);
      }
    }
  }

  lemma SameWithin(s: EntityState, s': EntityState, allowed: set<Predicate>)
    requires SameButSolution(s, s') && SOLUTION !! allowed
    ensures Within(s, allowed) == Within(s', allowed)
  {
    WithinSkipsWithout(s, SOLUTION, allowed);
    WithinSkipsWithout(s', SOLUTION, allowed);
  }

  lemma SameString(s: EntityState, s': EntityState, p: Predicate)
    requires SameButSolution(s, s') && p !in SOLUTION
    ensures ExactString(s, p) == ExactString(s', p)
  {
    SameWithin(s, s', {p});
  }

  lemma SameKind(s: EntityState, s': EntityState)
    requires SameButSolution(s, s')
    ensures forall kind :: HasKind(s, kind) == HasKind(s', kind)
  {
    SameString(s, s', WorldEntityKind);
  }

  lemma SameProject1(cfg: Config, e: Named, e': Named, allowed: set<Predicate>)
    requires SameNamed(e, e') && SOLUTION !! allowed
    ensures Project1(cfg, e, allowed) == Project1(cfg, e', allowed)
  {
    SameWithin(e.state, e'.state, allowed);
  }

  lemma SameProjectAll(cfg: Config, es: seq<Named>, es': seq<Named>, allowed: set<Predicate>)
    requires SameList(es, es') && SOLUTION !! allowed
    ensures ProjectAll(cfg, es, allowed) == ProjectAll(cfg, es', allowed)
  {
    forall i | 0 <= i < |es| ensures Project1(cfg, es[i], allowed) == Project1(cfg, es'[i], allowed) {
      SameProject1(cfg, es[i], es'[i], allowed);
    }
  }

  lemma SameAllOfKind(es: seq<Named>, es': seq<Named>, kind: EntityKind)
    requires SameList(es, es')
    ensures AllOfKind(es, kind) == AllOfKind(es', kind)
  {
    forall i | 0 <= i < |es| ensures HasKind(es[i].state, kind) == HasKind(es'[i].state, kind) {
      SameKind(es[i].state, es'[i].state);
    }
  }

  lemma {:induction false} SamePresent(g: GraphState, g': GraphState, ids: seq<EntityID>)
    requires SameWorld(g, g')
    ensures SameList(Present(g, ids), Present(g', ids))
  {
    if ids != [] {
      SamePresent(g, g', ids[1..]);
      assert ids[0] in g <==> ids[0] in g';
    }
  }

  lemma {:induction false} SamePublicOnly(es: seq<Named>, es': seq<Named>)
    requires SameList(es, es')
    ensures SameList(PublicOnly(es), PublicOnly(es'))
  {
    if es != [] {
      assert SameNamed(es[0], es'[0]);
      SameKind(es[0].state, es'[0].state);
      assert forall i :: 0 <= i < |es[1..]| ==> es[1..][i] == es[i + 1] && es'[1..][i] == es'[i + 1];
      SamePublicOnly(es[1..], es'[1..]);
    }
  }

  // ---- What each purpose adds is the same ----------------------------------

  lemma {:induction false} SameKnowledge(rs: seq<Named>, rs': seq<Named>, actor: EntityID)
    requires SameList(rs, rs')
    ensures KnowledgeEvidence(rs, actor) == KnowledgeEvidence(rs', actor)
  {
    if rs != [] {
      assert SameNamed(rs[0], rs'[0]);
      SameKind(rs[0].state, rs'[0].state);
      SameString(rs[0].state, rs'[0].state, KnowledgeActorHolder);
      SameString(rs[0].state, rs'[0].state, KnowledgeEvidenceRef);
      assert forall i :: 0 <= i < |rs[1..]| ==> rs[1..][i] == rs[i + 1] && rs'[1..][i] == rs'[i + 1];
      SameKnowledge(rs[1..], rs'[1..], actor);
    }
  }

  lemma {:induction false} SameRevelations(rs: seq<Named>, rs': seq<Named>, actor: EntityID, turnID: string)
    requires SameList(rs, rs')
    ensures RevelationEvidence(rs, actor, turnID) == RevelationEvidence(rs', actor, turnID)
  {
    if rs != [] {
      assert SameNamed(rs[0], rs'[0]);
      SameKind(rs[0].state, rs'[0].state);
      SameString(rs[0].state, rs'[0].state, RevelationTurnID);
      SameString(rs[0].state, rs'[0].state, RevelationActorHolder);
      SameString(rs[0].state, rs'[0].state, RevelationEvidenceRef);
      assert forall i :: 0 <= i < |rs[1..]| ==> rs[1..][i] == rs[i + 1] && rs'[1..][i] == rs'[i + 1];
      SameRevelations(rs[1..], rs'[1..], actor, turnID);
    }
  }

  lemma SameEvidence(cfg: Config, g: GraphState, g': GraphState, p: Snapshot, ids: seq<EntityID>)
    requires SameWorld(g, g')
    ensures AddEvidence(cfg, g, p, ids) == AddEvidence(cfg, g', p, ids)
  {
    var sorted := SortedIDs(ids);
    SamePresent(g, g', sorted);
    SameAllOfKind(Present(g, sorted), Present(g', sorted), Evidence);
    SameProjectAll(cfg, Present(g, sorted), Present(g', sorted), EVIDENCE);
  }

  lemma SameAddKnowledge(cfg: Config, g: GraphState, g': GraphState, p: Snapshot, actor: EntityID)
    requires SameWorld(g, g')
    ensures AddKnowledge(cfg, g, p, actor) == AddKnowledge(cfg, g', p, actor)
  {
    var ids := Query(cfg, KnowledgeActorHolder, actor);
    if ids.Some? {
      SamePresent(g, g', ids.value);
      SameKnowledge(Present(g, ids.value), Present(g', ids.value), actor);
      var evidence := KnowledgeEvidence(Present(g, ids.value), actor);
      if evidence.Some? {
        SameEvidence(cfg, g, g', p, evidence.value);
      }
    }
  }

  lemma SameAddRevelations(cfg: Config, g: GraphState, g': GraphState, p: Snapshot, actor: EntityID, turnID: string)
    requires SameWorld(g, g')
    ensures AddRevelations(cfg, g, p, actor, turnID) == AddRevelations(cfg, g', p, actor, turnID)
  {
    var ids := Query(cfg, RevelationTurnID, turnID);
    if ids.Some? {
      SamePresent(g, g', ids.value);
      SameRevelations(Present(g, ids.value), Present(g', ids.value), actor, turnID);
      var evidence := RevelationEvidence(Present(g, ids.value), actor, turnID);
      if evidence.Some? {
        SameEvidence(cfg, g, g', p, evidence.value);
      }
    }
  }

  lemma SameAddBond(cfg: Config, g: GraphState, g': GraphState, p: Snapshot, bondID: EntityID)
    requires SameWorld(g, g')
    ensures AddBond(cfg, g, p, bondID) == AddBond(cfg, g', p, bondID)
  {
    SamePresent(g, g', [bondID]);
    var bonds, bonds' := Present(g, [bondID]), Present(g', [bondID]);
    if |bonds| == 1 {
      assert SameNamed(bonds[0], bonds'[0]);
      SameProject1(cfg, bonds[0], bonds'[0], BOND);
    }
  }

  lemma SameCited(cfg: Config, g: GraphState, g': GraphState, p: Snapshot, ids: seq<EntityID>)
    requires SameWorld(g, g')
    ensures CitedEvidence(cfg, g, p, ids) == CitedEvidence(cfg, g', p, ids)
  {
    SamePresent(g, g', ids);
    SameAllOfKind(Present(g, ids), Present(g', ids), Evidence);
    SameProjectAll(cfg, Present(g, ids), Present(g', ids), EVIDENCE);
  }

  /** The narrator's guard reads the solution, but only to refuse: it never shapes what is shown. */
  lemma SameNarration(cfg: Config, g: GraphState, g': GraphState, p: Snapshot, view: View, view': View)
    requires SameWorld(g, g') && SameView(view, view')
    requires AddNarrationEvidence(cfg, g, p, view, Narrator).Some?
    requires AddNarrationEvidence(cfg, g', p, view', Narrator).Some?
    ensures AddNarrationEvidence(cfg, g, p, view, Narrator) == AddNarrationEvidence(cfg, g', p, view', Narrator)
  {
    if cfg.narrationEvidence.Some? {
      var ids := cfg.narrationEvidence.value(view.turnID, view.playerID, view.scene.id);
      if ids.Some? {
        SameCited(cfg, g, g', p, ids.value);
      }
    }
  }

  lemma SamePublic(cfg: Config, view: View, view': View, purpose: Purpose)
    requires SameView(view, view')
    ensures PublicSnapshot(cfg, view, purpose) == PublicSnapshot(cfg, view', purpose)
  {
    var turnAllowed := if purpose == Narrator || purpose == DenouementView then NARRATION_TURN else PUBLIC_TURN;
    TurnPredicatesAreLow(purpose);
    SameProject1(cfg, view.turn, view'.turn, turnAllowed);
    SameProject1(cfg, view.scene, view'.scene, PUBLIC_WORLD);
    SamePublicOnly(view.members, view'.members);
    SamePublicOnly(view.neighbours, view'.neighbours);
    SameProjectAll(cfg, PublicOnly(view.members), PublicOnly(view'.members), PUBLIC_WORLD);
    SameProjectAll(cfg, PublicOnly(view.neighbours), PublicOnly(view'.neighbours), PUBLIC_WORLD);
  }

  lemma TurnPredicatesAreLow(purpose: Purpose)
    ensures SOLUTION !! PUBLIC_TURN && SOLUTION !! NARRATION_TURN && SOLUTION !! PUBLIC_WORLD
  {}

  /** Up to the narrator's own evidence, every step of every low purpose is the same step. */
  lemma SameKnowledgeAndRevelations(cfg: Config, g: GraphState, g': GraphState, p: Snapshot, actor: EntityID, turnID: string)
    requires SameWorld(g, g')
    ensures Bind(AddKnowledge(cfg, g, p, actor), q => AddRevelations(cfg, g, q, actor, turnID)) ==
            Bind(AddKnowledge(cfg, g', p, actor), q => AddRevelations(cfg, g', q, actor, turnID))
  {
    SameAddKnowledge(cfg, g, g', p, actor);
    if AddKnowledge(cfg, g, p, actor).Some? {
      SameAddRevelations(cfg, g, g', AddKnowledge(cfg, g, p, actor).value, actor, turnID);
    }
  }

  lemma SameAuthorized(cfg: Config, g: GraphState, g': GraphState, view: View, view': View, a: Audience, p: Snapshot)
    requires SameWorld(g, g') && SameView(view, view') && Low(a.purpose)
    ensures a.purpose != Narrator ==> Authorized(cfg, g, view, a, p) == Authorized(cfg, g', view', a, p)
    ensures Authorized(cfg, g, view, a, p).Some? && Authorized(cfg, g', view', a, p).Some? ==>
              Authorized(cfg, g, view, a, p) == Authorized(cfg, g', view', a, p)
  {
    var actor := view.characterID;
    match a.purpose
    case PublicAdjudicator => SameAddKnowledge(cfg, g, g', p, actor);
    case PlayerView => SameKnowledgeAndRevelations(cfg, g, g', p, actor, a.turnID);
    case CompanionView =>
      SameAddBond(cfg, g, g', p, a.bondID);
      if AddBond(cfg, g, p, a.bondID).Some? {
        SameAddKnowledge(cfg, g, g', AddBond(cfg, g, p, a.bondID).value, a.companionID);
      }
    case Narrator =>
      SameKnowledgeAndRevelations(cfg, g, g', p, actor, a.turnID);
      var q := Bind(AddKnowledge(cfg, g, p, actor), q => AddRevelations(cfg, g, q, actor, a.turnID));
      if q.Some? && AddNarrationEvidence(cfg, g, q.value, view, Narrator).Some? &&
         AddNarrationEvidence(cfg, g', q.value, view', Narrator).Some? {
        SameNarration(cfg, g, g', q.value, view, view');
      }
  }

  // ---- Main results --------------------------------------------------------

  /** Projection non-interference: to a player, the public adjudicator, a companion or the ordinary
      narrator, two worlds that differ only in the authored solution project identically whenever both
      project at all; and for the first three even refusals are identical. */
  lemma SolutionIsInvisible(cfg: Config, g: GraphState, g': GraphState, view: View, view': View, a: Audience)
    requires SameWorld(g, g') && SameView(view, view') && Low(a.purpose)
    ensures Project(cfg, g, view, a).Some? && Project(cfg, g', view', a).Some? ==>
              Project(cfg, g, view, a) == Project(cfg, g', view', a)
    ensures a.purpose != Narrator ==> Project(cfg, g, view, a) == Project(cfg, g', view', a)
  {
    SamePublic(cfg, view, view', a.purpose);
    SameAuthorized(cfg, g, g', view, view', a, PublicSnapshot(cfg, view, a.purpose));
  }

  lemma EvidenceAddsNoSolution(cfg: Config, g: GraphState, p: Snapshot, actor: EntityID, turnID: string)
    ensures AddKnowledge(cfg, g, p, actor).Some? ==> AddKnowledge(cfg, g, p, actor).value.solution == p.solution
    ensures AddRevelations(cfg, g, p, actor, turnID).Some? ==>
              AddRevelations(cfg, g, p, actor, turnID).value.solution == p.solution
  {}

  /** The public scene with an actor's knowledge and this turn's revelations. */
  function Witnessed(cfg: Config, g: GraphState, p: Snapshot, actor: EntityID, turnID: string): Option<Snapshot> {
    Bind(AddKnowledge(cfg, g, p, actor), q => AddRevelations(cfg, g, q, actor, turnID))
  }

  lemma WitnessedAddsNoSolution(cfg: Config, g: GraphState, p: Snapshot, actor: EntityID, turnID: string)
    ensures Witnessed(cfg, g, p, actor, turnID).Some? ==>
              Witnessed(cfg, g, p, actor, turnID).value.solution == p.solution
  {
    EvidenceAddsNoSolution(cfg, g, p, actor, turnID);
    if AddKnowledge(cfg, g, p, actor).Some? {
      EvidenceAddsNoSolution(cfg, g, AddKnowledge(cfg, g, p, actor).value, actor, turnID);
    }
  }

  lemma NarrationAddsNoSolution(cfg: Config, g: GraphState, p: Snapshot, view: View, purpose: Purpose)
    ensures AddNarrationEvidence(cfg, g, p, view, purpose).Some? ==>
              AddNarrationEvidence(cfg, g, p, view, purpose).value.solution == p.solution
  {}

  lemma DenouementAddsSolution(cfg: Config, g: GraphState, view: View, a: Audience, p: Snapshot)
    requires a.purpose == DenouementView && Authorized(cfg, g, view, a, p).Some?
    ensures Witnessed(cfg, g, p, view.characterID, a.turnID).Some?
    ensures var q := Witnessed(cfg, g, p, view.characterID, a.turnID).value;
      AuthorizeDenouement(cfg, g, q, a).Some? &&
      AuthorizeDenouement(cfg, g, q, a).value.solution == Authorized(cfg, g, view, a, p).value.solution
  {
    var q := Witnessed(cfg, g, p, view.characterID, a.turnID);
    if q.Some? && AuthorizeDenouement(cfg, g, q.value, a).Some? {
      NarrationAddsNoSolution(cfg, g, AuthorizeDenouement(cfg, g, q.value, a).value, view, DenouementView);
    }
  }

  lemma NoSolutionAdded(cfg: Config, g: GraphState, view: View, a: Audience, p: Snapshot)
    requires p.solution == None && a.purpose != DenouementView && Authorized(cfg, g, view, a, p).Some?
    ensures Authorized(cfg, g, view, a, p).value.solution == None
  {
    match a.purpose
    case PublicAdjudicator => EvidenceAddsNoSolution(cfg, g, p, view.characterID, a.turnID);
    case PlayerView => WitnessedAddsNoSolution(cfg, g, p, view.characterID, a.turnID);
    case CompanionView =>
      EvidenceAddsNoSolution(cfg, g, AddBond(cfg, g, p, a.bondID).value, a.companionID, a.turnID);
    case Narrator =>
      WitnessedAddsNoSolution(cfg, g, p, view.characterID, a.turnID);
      var q := Witnessed(cfg, g, p, view.characterID, a.turnID);
      if q.Some? { NarrationAddsNoSolution(cfg, g, q.value, view, Narrator); }
    case Casekeeper =>
  }

  /** The narrator's guard, asked of one world. */
  predicate NarratorCleared(cfg: Config, g: GraphState, view: View) {
    cfg.narrationEvidence.Some? ==>
      match cfg.narrationEvidence.value(view.turnID, view.playerID, view.scene.id)
      case None => true
      case Some(ids) => ClearOfSolution(cfg, g, Narrator, ids)
  }

  lemma NarrationExactly(cfg: Config, g: GraphState, g': GraphState, p: Snapshot, view: View, view': View)
    requires SameWorld(g, g') && SameView(view, view')
    requires AddNarrationEvidence(cfg, g, p, view, Narrator).Some?
    ensures AddNarrationEvidence(cfg, g', p, view', Narrator) ==
            if NarratorCleared(cfg, g', view') then AddNarrationEvidence(cfg, g, p, view, Narrator) else None
  {
    if cfg.narrationEvidence.Some? {
      var ids := cfg.narrationEvidence.value(view.turnID, view.playerID, view.scene.id);
      if ids.Some? {
        SameCited(cfg, g, g', p, ids.value);
      }
    }
  }

  /** What the ordinary narrator can learn of the solution is exactly one refusal: where one world projects,
      the other projects the same if and only if its own guard passes. */
  lemma NarratorLearnsOnlyTheRefusal(cfg: Config, g: GraphState, g': GraphState, view: View, view': View, a: Audience)
    requires SameWorld(g, g') && SameView(view, view') && a.purpose == Narrator && Project(cfg, g, view, a).Some?
    ensures Project(cfg, g', view', a) == if NarratorCleared(cfg, g', view') then Project(cfg, g, view, a) else None
  {
    var p := PublicSnapshot(cfg, view, Narrator);
    SamePublic(cfg, view, view', Narrator);
    SameKnowledgeAndRevelations(cfg, g, g', p, view.characterID, a.turnID);
    var q := Bind(AddKnowledge(cfg, g, p, view.characterID), q => AddRevelations(cfg, g, q, view.characterID, a.turnID));
    NarrationExactly(cfg, g, g', q.value, view, view');
  }

  /** The case itself is at denouement, and the authorizer said so for this turn. */
  ghost predicate DenouementCleared(cfg: Config, g: GraphState, a: Audience) {
    && CaseState(cfg, g).Some?
    && var c := CaseState(cfg, g).value;
    && |TriplesOf(c.state, CaseLifecyclePhase)| == 1
    && TriplesOf(c.state, CaseLifecyclePhase)[0].obj == Text(PhaseText(Denouement))
    && cfg.denouement.Some? && cfg.denouement.value(a.turnID, c.id, a.authorizerRef)
  }

  /** The solution leaves the projector only for the verifier, or at the denouement under an authorizer's
      word, and then it is exactly the case's own three identities. */
  lemma OnlyClearedPurposesSeeTheSolution(cfg: Config, g: GraphState, view: View, a: Audience)
    requires Project(cfg, g, view, a).Some? && Project(cfg, g, view, a).value.snapshot.solution.Some?
    ensures a.purpose == Verifier || (a.purpose == DenouementView && DenouementCleared(cfg, g, a))
    ensures CaseState(cfg, g).Some?
    ensures CanonicalSolution(CaseState(cfg, g).value.state) == Project(cfg, g, view, a).value.snapshot.solution
  {
    if a.purpose == DenouementView {
      DenouementAddsSolution(cfg, g, view, a, PublicSnapshot(cfg, view, a.purpose));
    } else if a.purpose != Verifier {
      NoSolutionAdded(cfg, g, view, a, PublicSnapshot(cfg, view, a.purpose));
    }
  }

  /** Whatever is projected is canonical and closed: no reference points outside what is shown. */
  lemma ProjectionsAreClosed(cfg: Config, g: GraphState, view: View, a: Audience, i: nat, f: Fact)
    requires Project(cfg, g, view, a).Some?
    requires var p := Project(cfg, g, view, a).value.snapshot;
      i < |Entities(p)| && f in Entities(p)[i].facts && IsEntityReference(f.pred)
    ensures var p := Project(cfg, g, view, a).value.snapshot;
      f.obj.Text? && f.obj.text in IDs(Entities(p))
  {
    if a.purpose != Verifier {
      ReferencesAreClosed(Authorized(cfg, g, view, a, PublicSnapshot(cfg, view, a.purpose)).value, i, f);
    }
  }
}
