/** Reading every authorization input before the first write: the snapshot the authorizer trusts. */
module KnowledgeLoader {
  import opened Wrappers
  import opened Vocabulary
  import opened Graph
  import opened CaseDecisions
  import opened KnowledgeAuthorizer

  /** The private decision artifact behind a turn's reference. */
  datatype Interpretation = Interpretation(turnID: string, applicable: bool, decision: Option<CaseDecision>)

  /** What the loader consults besides the graph: the decision artifacts by reference, the
      predicate-value index (which may fail), and the identity grammar's last segment. */
  datatype Sources = Sources(
    records: map<string, Interpretation>,
    index: (Predicate, string) -> Option<seq<EntityID>>,
    instance: EntityID -> string)

  datatype LoadError = Rejected(reason: Reason) | Unreadable

  datatype LoadResult = NotApplicable(turnID: string) | Applicable(turnID: string, preflight: Preflight)

  // ---- Reading one entity --------------------------------------------------

  /** The furthest of an entity's recorded phases; unreadable when there is none or one is undeclared. */
  function LatestPhase(values: seq<string>): Option<CasePhase> {
    if values == [] then None
    else
      var last := ParseCasePhase(values[|values| - 1]);
      if |values| == 1 || last == None then last
      else match LatestPhase(values[..|values| - 1])
        case None => None
        case Some(earlier) => if Rank(last.value) > Rank(earlier) then last else Some(earlier)
  }

  function CurrentPhase(state: EntityState): Option<CasePhase> {
    LatestPhase(Strings(state, CaseLifecyclePhase))
  }

  method CurrentCasePhase(state: EntityState) returns (current: Option<CasePhase>)
    ensures current == CurrentPhase(state)
  {
    var values := Strings(state, CaseLifecyclePhase);
    current := None;
    for i := 0 to |values|
      invariant current == LatestPhase(values[..i])
      invariant i > 0 ==> current.Some?
    {
      assert values[..i + 1][..i] == values[..i];
      var phase := ParseCasePhase(values[i]);
      if phase == None {
        PhaseUnreadable(values, i);
        return None;
      }
      if current == None || Rank(phase.value) > Rank(current.value) {
        current := phase;
      }
    }
    assert values[..|values|] == values;
  }

  lemma {:induction false} PhaseUnreadable(values: seq<string>, i: nat)
    requires i < |values| && ParseCasePhase(values[i]) == None
    ensures LatestPhase(values) == None
  {
    if i < |values| - 1 {
      PhaseUnreadable(values[..|values| - 1], i);
    }
  }

  predicate Declared(values: seq<string>) {
    forall i :: 0 <= i < |values| ==> ParseCasePhase(values[i]).Some?
  }

  /** One of the recorded phases, and none lies beyond it. */
  predicate Furthest(values: seq<string>, phase: CasePhase)
    requires Declared(values)
  {
    && (exists i :: 0 <= i < |values| && ParseCasePhase(values[i]).value == phase)
    && (forall i :: 0 <= i < |values| ==> Rank(ParseCasePhase(values[i]).value) <= Rank(phase))
  }

  function Further(current: CasePhase, other: CasePhase): CasePhase {
    if Rank(other) > Rank(current) then other else current
  }

  lemma LatestUnfold(values: seq<string>)
    requires |values| > 1 && LatestPhase(values[..|values| - 1]).Some? && ParseCasePhase(values[|values| - 1]).Some?
    ensures LatestPhase(values) ==
      Some(Further(LatestPhase(values[..|values| - 1]).value, ParseCasePhase(values[|values| - 1]).value))
  {}

  lemma FurthestGrows(values: seq<string>, phase: CasePhase)
    requires |values| > 1 && Declared(values) && Declared(values[..|values| - 1])
    requires Furthest(values[..|values| - 1], phase)
    ensures Furthest(values, Further(phase, ParseCasePhase(values[|values| - 1]).value))
  {
    var init, n := values[..|values| - 1], |values| - 1;
    assert forall i :: 0 <= i < n ==> init[i] == values[i];
    var k :| 0 <= k < n && ParseCasePhase(init[k]).value == phase;
    assert ParseCasePhase(values[k]).value == phase;
  }

  lemma {:induction false} LatestPhaseReached(values: seq<string>)
    requires values != [] && Declared(values)
    ensures LatestPhase(values).Some? && Furthest(values, LatestPhase(values).value)
  {
    var init, n := values[..|values| - 1], |values| - 1;
    assert ParseCasePhase(values[n]).Some?;
    if |values| > 1 {
      LatestPhaseReached(init);
      LatestUnfold(values);
      FurthestGrows(values, LatestPhase(init).value);
    }
  }

  /** The current phase is the furthest recorded one, and every recorded one is declared. */
  lemma LatestPhaseIsFurthest(values: seq<string>, phase: CasePhase)
    ensures LatestPhase(values) == Some(phase) <==> Declared(values) && Furthest(values, phase)
  {
    if Declared(values) && values != [] {
      LatestPhaseReached(values);
      if Furthest(values, phase) {
        assert Rank(phase) == Rank(LatestPhase(values).value);
      }
    } else if i :| 0 <= i < |values| && ParseCasePhase(values[i]) == None {
      PhaseUnreadable(values, i);
    }
  }

  function ParseKinds(texts: seq<string>): Option<seq<RevealKind>> {
    if texts == [] then Some([])
    else match (ParseRevealKind(texts[0]), ParseKinds(texts[1..]))
      case (Some(kind), Some(rest)) => Some([kind] + rest)
      case _ => None
  }

  function ReadEligibility(state: EntityState): Option<Eligibility> {
    match SoleString(state, EvidenceRevealPhase)
    case None => None
    case Some(text) =>
      match (ParseCasePhase(text), ParseKinds(Strings(state, EvidenceRevealKind)))
      case (Some(minimum), Some(kinds)) => Some(Eligibility(minimum, kinds, Strings(state, EvidenceRevealTarget)))
      case _ => None
  }

  function ReadBelief(id: EntityID, state: EntityState): Option<AuthoredBelief> {
    match (SoleString(state, BeliefEvidenceRef), SoleString(state, BeliefStanceCurrent),
           SoleString(state, WorldEntityDescription), SoleString(state, BeliefActorHolder))
    case (Some(evidence), Some(stanceText), Some(prose), Some(holder)) =>
      (match ParseStance(stanceText)
       case None => None
       case Some(stance) => Some(AuthoredBelief(id, holder, evidence, stance, prose)))
    case _ => None
  }

  // ---- Filling the snapshot ------------------------------------------------

  /** Resolved eligibility of every proposed piece of evidence that exists. */
  function EligibilityOf(g: GraphState, refs: seq<EntityID>): Option<map<EntityID, Eligibility>> {
    if refs == [] then Some(map[])
    else
      var last := refs[|refs| - 1];
      match EligibilityOf(g, refs[..|refs| - 1])
      case None => None
      case Some(before) =>
        if last !in g then Some(before)
        else match ReadEligibility(g[last])
          case None => None
          case Some(resolved) => Some(before[last := resolved])
  }

  /** The beliefs read so far; of two beliefs about one pair the later read wins. */
  function BeliefsOf(g: GraphState, ids: seq<EntityID>): Option<map<ActorEvidence, AuthoredBelief>> {
    if ids == [] then Some(map[])
    else
      var last := ids[|ids| - 1];
      match BeliefsOf(g, ids[..|ids| - 1])
      case None => None
      case Some(before) =>
        if last !in g then None
        else match ReadBelief(last, g[last])
          case None => None
          case Some(belief) => Some(before[ActorEvidence(belief.holder, belief.evidence) := belief])
  }

  function KnownOf(g: GraphState, actor: EntityID, ids: seq<EntityID>): Option<set<ActorEvidence>> {
    if ids == [] then Some({})
    else
      var last := ids[|ids| - 1];
      match KnownOf(g, actor, ids[..|ids| - 1])
      case None => None
      case Some(before) =>
        if last !in g then None
        else match SoleString(g[last], KnowledgeEvidenceRef)
          case None => None
          case Some(evidence) => Some(before + {ActorEvidence(actor, evidence)})
  }

  function TextSet(state: EntityState, p: Predicate): set<string> {
    set x | x in Strings(state, p)
  }

  function SolutionEvidence(state: EntityState): set<EntityID> {
    TextSet(state, CaseSolutionCulprit) + TextSet(state, CaseSolutionMethod) + TextSet(state, CaseSolutionMotive)
  }

  /** The part of a snapshot that is read per proposed reference. */
  datatype Gathering = Gathering(
    eligibility: map<EntityID, Eligibility>,
    beliefs: map<ActorEvidence, AuthoredBelief>,
    known: set<ActorEvidence>)

  /** Beliefs are read only for a question to one target, and prior knowledge only for a share. */
  function GatheringOf(g: GraphState, sources: Sources, d: CaseDecision, actor: EntityID): Option<Gathering> {
    match EligibilityOf(g, d.revealRefs)
    case None => None
    case Some(eligibility) =>
      match IndexedBeliefs(g, sources, d)
      case None => None
      case Some(beliefs) =>
        match IndexedKnowledge(g, sources, d, actor)
        case None => None
        case Some(known) => Some(Gathering(eligibility, beliefs, known))
  }

  function IndexedBeliefs(g: GraphState, sources: Sources, d: CaseDecision): Option<map<ActorEvidence, AuthoredBelief>> {
    if d.kind != Question || |d.targetRefs| != 1 then Some(map[])
    else match sources.index(BeliefActorHolder, d.targetRefs[0])
      case None => None
      case Some(ids) => BeliefsOf(g, ids)
  }

  function IndexedKnowledge(g: GraphState, sources: Sources, d: CaseDecision, actor: EntityID): Option<set<ActorEvidence>> {
    if d.kind != Share then Some({})
    else match sources.index(KnowledgeActorHolder, actor)
      case None => None
      case Some(ids) => KnownOf(g, actor, ids)
  }

  /** The snapshot of one applicable decision, or `None` when an input cannot be read. */
  function PreflightOf(g: GraphState, sources: Sources, caseID: EntityID, turnState: EntityState, d: CaseDecision)
    : Option<Preflight>
  {
    match ActorOf(g, turnState)
    case None => None
    case Some(actor) =>
      if caseID !in g then None
      else match CurrentPhase(g[caseID])
        case None => None
        case Some(phase) =>
          match GatheringOf(g, sources, d, actor)
          case None => None
          case Some(gathered) => Some(Assembled(d, actor, caseID, g[caseID], phase, gathered))
  }

  function Assembled(
    d: CaseDecision, actor: EntityID, caseID: EntityID, caseState: EntityState, phase: CasePhase, gathered: Gathering
  ): Preflight {
    Preflight(
      Some(d), actor, caseID, phase,
      TextSet(caseState, CaseMemberEvidence),
      TextSet(caseState, CaseMemberSuspect) + TextSet(caseState, CaseMemberVictim),
      gathered.eligibility, gathered.beliefs, gathered.known, SolutionEvidence(caseState))
  }

  /** The character the turn's player acts through. */
  function ActorOf(g: GraphState, turnState: EntityState): Option<EntityID> {
    match SoleString(turnState, TurnActionPlayer)
    case None => None
    case Some(player) => if player !in g then None else SoleString(g[player], PlayerCharacterCurrent)
  }

  /** A whole load as a value; possession of a reference is not identity proof, so the record and
      its decision are bound to the triggered turn again before anything else is read. */
  function LoadOf(g: GraphState, sources: Sources, caseID: EntityID, turn: EntityID): Result<LoadResult, LoadError> {
    if turn !in g then Err(Unreadable)
    else match SoleString(g[turn], TurnCaseDecisionRef)
      case None => Err(Unreadable)
      case Some(ref) =>
        var turnID := sources.instance(turn);
        if ref !in sources.records then Err(Unreadable)
        else
          var record := sources.records[ref];
          if record.turnID != turnID then Err(Rejected(WrongTurn))
          else if record.decision.Some? && record.decision.value.turnID != turnID then Err(Rejected(WrongTurn))
          else if !record.applicable then Ok(NotApplicable(turnID))
          else if record.decision == None then Err(Unreadable)
          else match PreflightOf(g, sources, caseID, g[turn], record.decision.value)
            case None => Err(Unreadable)
            case Some(preflight) => Ok(Applicable(turnID, preflight))
  }

  class Loader {
    const store: Store
    const sources: Sources
    const caseID: EntityID

    constructor (store: Store, sources: Sources, caseID: EntityID)
      ensures this.store == store && this.sources == sources && this.caseID == caseID
    {
      this.store, this.sources, this.caseID := store, sources, caseID;
    }

    method Load(turn: EntityID) returns (r: Result<LoadResult, LoadError>)
      ensures r == LoadOf(store.graph, sources, caseID, turn)
    {
      if turn !in store.graph {
        return Err(Unreadable);
      }
      var turnID := sources.instance(turn);
      var ref := SoleString(store.graph[turn], TurnCaseDecisionRef);
      if ref == None || ref.value !in sources.records {
        return Err(Unreadable);
      }
      var record := sources.records[ref.value];
      if record.turnID != turnID || (record.decision.Some? && record.decision.value.turnID != turnID) {
        return Err(Rejected(WrongTurn));
      }
      if !record.applicable {
        return Ok(NotApplicable(turnID));
      }
      if record.decision == None {
        return Err(Unreadable);
      }
      var preflight := LoadPreflight(store.graph[turn], record.decision.value);
      if preflight == None {
        return Err(Unreadable);
      }
      return Ok(Applicable(turnID, preflight.value));
    }

    method LoadPreflight(turnState: EntityState, d: CaseDecision) returns (input: Option<Preflight>)
      ensures input == PreflightOf(store.graph, sources, caseID, turnState, d)
    {
      var actor := ActorOf(store.graph, turnState);
      if actor == None || caseID !in store.graph {
        return None;
      }
      var caseState := store.graph[caseID];
      var phase := CurrentCasePhase(caseState);
      if phase == None {
        return None;
      }
      var gathered := Gather(d, actor.value);
      if gathered == None {
        return None;
      }
      return Some(Assembled(d, actor.value, caseID, caseState, phase.value, gathered.value));
    }

    method Gather(d: CaseDecision, actor: EntityID) returns (gathered: Option<Gathering>)
      ensures gathered == GatheringOf(store.graph, sources, d, actor)
    {
      var eligibility := LoadEligibility(d.revealRefs);
      if eligibility == None {
        return None;
      }
      var beliefs: Option<map<ActorEvidence, AuthoredBelief>> := Some(map[]);
      if d.kind == Question && |d.targetRefs| == 1 {
        beliefs := LoadBeliefs(d.targetRefs[0]);
      }
      if beliefs == None {
        return None;
      }
      var known: Option<set<ActorEvidence>> := Some({});
      if d.kind == Share {
        known := LoadKnown(actor);
      }
      if known == None {
        return None;
      }
      return Some(Gathering(eligibility.value, beliefs.value, known.value));
    }

    method LoadEligibility(refs: seq<EntityID>) returns (r: Option<map<EntityID, Eligibility>>)
      ensures r == EligibilityOf(store.graph, refs)
    {
      var resolved: map<EntityID, Eligibility> := map[];
      for i := 0 to |refs|
        invariant EligibilityOf(store.graph, refs[..i]) == Some(resolved)
      {
        assert refs[..i + 1][..i] == refs[..i];
        if refs[i] in store.graph {
          var one := ReadEligibility(store.graph[refs[i]]);
          if one == None {
            EligibilityUnreadable(store.graph, refs, i + 1);
            return None;
          }
          resolved := resolved[refs[i] := one.value];
        }
      }
      assert refs[..|refs|] == refs;
      return Some(resolved);
    }

    method LoadBeliefs(actor: EntityID) returns (r: Option<map<ActorEvidence, AuthoredBelief>>)
      ensures var ids := sources.index(BeliefActorHolder, actor);
        r == if ids == None then None else BeliefsOf(store.graph, ids.value)
    {
      var found := sources.index(BeliefActorHolder, actor);
      if found == None {
        return None;
      }
      var ids := found.value;
      var beliefs: map<ActorEvidence, AuthoredBelief> := map[];
      for i := 0 to |ids|
        invariant BeliefsOf(store.graph, ids[..i]) == Some(beliefs)
      {
        BeliefsStep(store.graph, ids, i);
        var one := if ids[i] in store.graph then ReadBelief(ids[i], store.graph[ids[i]]) else None;
        if one == None {
          return None;
        }
        beliefs := beliefs[ActorEvidence(one.value.holder, one.value.evidence) := one.value];
      }
      assert ids[..|ids|] == ids;
      return Some(beliefs);
    }

    method LoadKnown(actor: EntityID) returns (r: Option<set<ActorEvidence>>)
      ensures var ids := sources.index(KnowledgeActorHolder, actor);
        r == if ids == None then None else KnownOf(store.graph, actor, ids.value)
    {
      var found := sources.index(KnowledgeActorHolder, actor);
      if found == None {
        return None;
      }
      var ids := found.value;
      var known: set<ActorEvidence> := {};
      for i := 0 to |ids|
        invariant KnownOf(store.graph, actor, ids[..i]) == Some(known)
      {
        assert ids[..i + 1][..i] == ids[..i];
        var one := if ids[i] in store.graph then SoleString(store.graph[ids[i]], KnowledgeEvidenceRef) else None;
        if one == None {
          KnownUnreadable(store.graph, actor, ids, i + 1);
          return None;
        }
        known := known + {ActorEvidence(actor, one.value)};
      }
      assert ids[..|ids|] == ids;
      return Some(known);
    }
  }

  lemma {:induction false} EligibilityUnreadable(g: GraphState, refs: seq<EntityID>, k: nat)
    requires k <= |refs| && EligibilityOf(g, refs[..k]) == None
    ensures EligibilityOf(g, refs) == None
  {
    if k < |refs| {
      assert refs[..|refs| - 1][..k] == refs[..k];
      EligibilityUnreadable(g, refs[..|refs| - 1], k);
    } else {
      assert refs[..k] == refs;
    }
  }

  lemma {:induction false} BeliefUnreadable(g: GraphState, ids: seq<EntityID>, k: nat)
    requires k <= |ids| && BeliefsOf(g, ids[..k]) == None
    ensures BeliefsOf(g, ids) == None
  {
    if k < |ids| {
      assert ids[..|ids| - 1][..k] == ids[..k];
      BeliefUnreadable(g, ids[..|ids| - 1], k);
    } else {
      assert ids[..k] == ids;
    }
  }

  /** What reading one more belief does to the map built so far. */
  lemma BeliefsStep(g: GraphState, ids: seq<EntityID>, i: nat)
    requires i < |ids| && BeliefsOf(g, ids[..i]).Some?
    ensures var one := if ids[i] in g then ReadBelief(ids[i], g[ids[i]]) else None;
      if one == None then BeliefsOf(g, ids) == None
      else BeliefsOf(g, ids[..i + 1]) ==
           Some(BeliefsOf(g, ids[..i]).value[ActorEvidence(one.value.holder, one.value.evidence) := one.value])
  {
    assert ids[..i + 1][..i] == ids[..i];
    if !(ids[i] in g && ReadBelief(ids[i], g[ids[i]]).Some?) {
      BeliefUnreadable(g, ids, i + 1);
    }
  }

  lemma {:induction false} KnownUnreadable(g: GraphState, actor: EntityID, ids: seq<EntityID>, k: nat)
    requires k <= |ids| && KnownOf(g, actor, ids[..k]) == None
    ensures KnownOf(g, actor, ids) == None
  {
    if k < |ids| {
      assert ids[..|ids| - 1][..k] == ids[..k];
      KnownUnreadable(g, actor, ids[..|ids| - 1], k);
    } else {
      assert ids[..k] == ids;
    }
  }

  /** What a sharer is taken to know is exactly what readable knowledge entities record. */
  lemma {:induction false} KnownIsRecorded(g: GraphState, actor: EntityID, ids: seq<EntityID>, pair: ActorEvidence)
    requires KnownOf(g, actor, ids).Some?
    ensures pair in KnownOf(g, actor, ids).value <==>
            pair.actor == actor &&
            exists i :: 0 <= i < |ids| && ids[i] in g &&
              SoleString(g[ids[i]], KnowledgeEvidenceRef) == Some(pair.evidence)
  {
    if ids != [] {
      var init, n := ids[..|ids| - 1], |ids| - 1;
      KnownIsRecorded(g, actor, init, pair);
      assert forall i :: 0 <= i < n ==> init[i] == ids[i];
      if i :| 0 <= i < |init| && init[i] in g && SoleString(g[init[i]], KnowledgeEvidenceRef) == Some(pair.evidence) {
        assert ids[i] in g && SoleString(g[ids[i]], KnowledgeEvidenceRef) == Some(pair.evidence);
      }
    }
  }

  lemma InInit<T>(s: seq<T>, x: T)
    requires s != []
    ensures x in s <==> x in s[..|s| - 1] || x == s[|s| - 1]
  {
    assert s == s[..|s| - 1] + [s[|s| - 1]];
  }

  /** Eligibility is resolved for exactly the proposed evidence that exists, each from its own entity. */
  lemma {:induction false} EligibilityIsRecorded(g: GraphState, refs: seq<EntityID>, evidence: EntityID)
    requires EligibilityOf(g, refs).Some?
    ensures var resolved := EligibilityOf(g, refs).value;
      && (evidence in resolved <==> evidence in refs && evidence in g)
      && (evidence in resolved ==> ReadEligibility(g[evidence]) == Some(resolved[evidence]))
  {
    if refs != [] {
      var init, last := refs[..|refs| - 1], refs[|refs| - 1];
      InInit(refs, evidence);
      EligibilityUnfold(g, refs);
      EligibilityIsRecorded(g, init, evidence);
    }
  }

  lemma EligibilityUnfold(g: GraphState, refs: seq<EntityID>)
    requires refs != [] && EligibilityOf(g, refs).Some?
    ensures var init, last := refs[..|refs| - 1], refs[|refs| - 1];
      && EligibilityOf(g, init).Some? && (last in g ==> ReadEligibility(g[last]).Some?)
      && EligibilityOf(g, refs) ==
           Some(if last in g then EligibilityOf(g, init).value[last := ReadEligibility(g[last]).value]
                else EligibilityOf(g, init).value)
  {}

  /** What an applicable load says about the case, and where its notion of prior knowledge comes from. */
  ghost predicate ReadsFrom(g: GraphState, sources: Sources, caseID: EntityID, input: Preflight) {
    && caseID in g
    && input.caseID == caseID
    && CurrentPhase(g[caseID]) == Some(input.casePhase)
    && input.solutionLocked == SolutionEvidence(g[caseID])
    && (input.known != {} ==>
         && sources.index(KnowledgeActorHolder, input.actingActor).Some?
         && KnownOf(g, input.actingActor, sources.index(KnowledgeActorHolder, input.actingActor).value)
            == Some(input.known))
  }

  lemma LoadReadsFrom(g: GraphState, sources: Sources, caseID: EntityID, turn: EntityID)
    ensures var loaded := LoadOf(g, sources, caseID, turn);
      loaded.Ok? && loaded.value.Applicable? ==> ReadsFrom(g, sources, caseID, loaded.value.preflight)
  {
    var loaded := LoadOf(g, sources, caseID, turn);
    if loaded.Ok? && loaded.value.Applicable? {
      var d := sources.records[SoleString(g[turn], TurnCaseDecisionRef).value].decision.value;
      PreflightReadsFrom(g, sources, caseID, g[turn], d);
    }
  }

  lemma PreflightReadsFrom(
    g: GraphState, sources: Sources, caseID: EntityID, turnState: EntityState, d: CaseDecision)
    ensures var input := PreflightOf(g, sources, caseID, turnState, d);
      input.Some? ==> ReadsFrom(g, sources, caseID, input.value)
  {}

  // ---- The whole snapshot --------------------------------------------------

  /** The decision is this turn's own, and the actor the character its player acts through. */
  ghost predicate BoundToTurn(g: GraphState, sources: Sources, turn: EntityID, input: Preflight) {
    && turn in g && input.decision.Some? && input.decision.value.turnID == sources.instance(turn)
    && (exists ref :: SoleString(g[turn], TurnCaseDecisionRef) == Some(ref) && ref in sources.records &&
          sources.records[ref].applicable && sources.records[ref].turnID == sources.instance(turn) &&
          sources.records[ref].decision == input.decision)
    && (exists player :: SoleString(g[turn], TurnActionPlayer) == Some(player) && player in g &&
          SoleString(g[player], PlayerCharacterCurrent) == Some(input.actingActor))
  }

  /** Phase, evidence, characters and solution are what the case itself records. */
  ghost predicate BoundToCase(g: GraphState, caseID: EntityID, input: Preflight) {
    && caseID in g && input.caseID == caseID
    && var phases := Strings(g[caseID], CaseLifecyclePhase);
    && Declared(phases) && Furthest(phases, input.casePhase)
    && NamesOf(g, caseID, input)
  }

  ghost predicate NamesOf(g: GraphState, caseID: EntityID, input: Preflight) requires caseID in g {
    && (forall x :: x in input.caseEvidence <==> x in Strings(g[caseID], CaseMemberEvidence))
    && (forall x :: x in input.caseCharacters <==>
          x in Strings(g[caseID], CaseMemberSuspect) || x in Strings(g[caseID], CaseMemberVictim))
    && (forall x :: x in input.solutionLocked <==>
          || x in Strings(g[caseID], CaseSolutionCulprit) || x in Strings(g[caseID], CaseSolutionMethod)
          || x in Strings(g[caseID], CaseSolutionMotive))
  }

  /** The evidence says from which phase on, by what kind of looking, and at whom it may be revealed. */
  ghost predicate EligibilityStated(state: EntityState, e: Eligibility) {
    && (exists text :: SoleString(state, EvidenceRevealPhase) == Some(text) && ParseCasePhase(text) == Some(e.minimumPhase))
    && |e.kinds| == |Strings(state, EvidenceRevealKind)|
    && (forall i :: 0 <= i < |e.kinds| ==> ParseRevealKind(Strings(state, EvidenceRevealKind)[i]) == Some(e.kinds[i]))
    && e.targets == Strings(state, EvidenceRevealTarget)
  }

  ghost predicate BeliefStated(g: GraphState, belief: AuthoredBelief) {
    && belief.id in g
    && SoleString(g[belief.id], BeliefActorHolder) == Some(belief.holder)
    && SoleString(g[belief.id], BeliefEvidenceRef) == Some(belief.evidence)
    && SoleString(g[belief.id], WorldEntityDescription) == Some(belief.prose)
    && (exists text :: SoleString(g[belief.id], BeliefStanceCurrent) == Some(text) &&
          ParseStance(text) == Some(belief.stance))
  }

  /** Beliefs are read for a question to one actor, prior knowledge for a share, and nothing else is. */
  ghost predicate GatheredFor(g: GraphState, sources: Sources, input: Preflight, d: CaseDecision) {
    && (forall e :: e in input.eligibility <==> e in d.revealRefs && e in g)
    && (forall e :: e in input.eligibility ==> EligibilityStated(g[e], input.eligibility[e]))
    && (if d.kind == Question && |d.targetRefs| == 1
        then sources.index(BeliefActorHolder, d.targetRefs[0]).Some? &&
             BeliefsStated(g, sources.index(BeliefActorHolder, d.targetRefs[0]).value, input.beliefs)
        else input.beliefs == map[])
    && (if d.kind == Share
        then sources.index(KnowledgeActorHolder, input.actingActor).Some? &&
             KnownStated(g, input.actingActor, sources.index(KnowledgeActorHolder, input.actingActor).value, input.known)
        else input.known == {})
  }

  /** Exactly the pairs of the indexed beliefs, each with one of them. */
  ghost predicate BeliefsStated(g: GraphState, ids: seq<EntityID>, beliefs: map<ActorEvidence, AuthoredBelief>) {
    && (forall pair :: pair in beliefs ==> ReadFrom(g, ids, pair, beliefs[pair]))
    && BeliefsKept(g, ids, beliefs)
  }

  ghost predicate ReadFrom(g: GraphState, ids: seq<EntityID>, pair: ActorEvidence, belief: AuthoredBelief) {
    belief.id in ids && BeliefStated(g, belief) && pair == PairOf(belief)
  }

  predicate StatesPair(g: GraphState, id: EntityID, pair: ActorEvidence) {
    && id in g && SoleString(g[id], BeliefActorHolder) == Some(pair.actor)
    && SoleString(g[id], BeliefEvidenceRef) == Some(pair.evidence)
  }

  ghost predicate KnownStated(g: GraphState, actor: EntityID, ids: seq<EntityID>, known: set<ActorEvidence>) {
    forall pair :: pair in known <==>
      pair.actor == actor &&
      exists i :: 0 <= i < |ids| && ids[i] in g && SoleString(g[ids[i]], KnowledgeEvidenceRef) == Some(pair.evidence)
  }

  lemma {:induction false} KindsRead(texts: seq<string>)
    requires ParseKinds(texts).Some?
    ensures |ParseKinds(texts).value| == |texts|
    ensures forall i :: 0 <= i < |texts| ==> ParseRevealKind(texts[i]) == Some(ParseKinds(texts).value[i])
  {
    if texts != [] {
      KindsRead(texts[1..]);
      assert forall i :: 1 <= i < |texts| ==> texts[i] == texts[1..][i - 1];
    }
  }

  lemma EligibilityRead(state: EntityState)
    requires ReadEligibility(state).Some?
    ensures EligibilityStated(state, ReadEligibility(state).value)
  {
    KindsRead(Strings(state, EvidenceRevealKind));
  }

  lemma BeliefsUnfold(g: GraphState, ids: seq<EntityID>)
    requires ids != [] && BeliefsOf(g, ids).Some?
    ensures var init, last := ids[..|ids| - 1], ids[|ids| - 1];
      && BeliefsOf(g, init).Some? && last in g && ReadBelief(last, g[last]).Some?
      && var belief := ReadBelief(last, g[last]).value;
      && BeliefsOf(g, ids) == Some(BeliefsOf(g, init).value[PairOf(belief) := belief])
  {}

  lemma BeliefRead(g: GraphState, id: EntityID)
    requires id in g && ReadBelief(id, g[id]).Some?
    ensures ReadsAs(g, id, ReadBelief(id, g[id]).value)
  {}

  /** The belief is the one this entity states. */
  ghost predicate ReadsAs(g: GraphState, id: EntityID, belief: AuthoredBelief) {
    BeliefStated(g, belief) && belief.id == id && StatesPair(g, id, PairOf(belief))
  }

  function PairOf(belief: AuthoredBelief): ActorEvidence { ActorEvidence(belief.holder, belief.evidence) }

  lemma {:induction false} BeliefsRead(g: GraphState, ids: seq<EntityID>, beliefs: map<ActorEvidence, AuthoredBelief>)
    requires BeliefsOf(g, ids) == Some(beliefs)
    ensures BeliefsStated(g, ids, beliefs)
    decreases |ids|
  {
    if ids != [] {
      var init, last := ids[..|ids| - 1], ids[|ids| - 1];
      assert init + [last] == ids;
      BeliefsUnfold(g, ids);
      var before, belief := BeliefsOf(g, init).value, ReadBelief(last, g[last]).value;
      BeliefsRead(g, init, before);
      BeliefRead(g, last);
      BeliefAdded(g, init, before, belief);
    }
  }

  /** Every one of these beliefs is among those read. */
  ghost predicate BeliefsKept(g: GraphState, ids: seq<EntityID>, beliefs: map<ActorEvidence, AuthoredBelief>) {
    forall i :: 0 <= i < |ids| ==> exists pair :: pair in beliefs && StatesPair(g, ids[i], pair)
  }

  lemma BeliefAdded(g: GraphState, init: seq<EntityID>, before: map<ActorEvidence, AuthoredBelief>, belief: AuthoredBelief)
    requires BeliefsStated(g, init, before) && ReadsAs(g, belief.id, belief)
    ensures BeliefsStated(g, init + [belief.id], before[PairOf(belief) := belief])
  {
    var ids, own, beliefs := init + [belief.id], PairOf(belief), before[PairOf(belief) := belief];
    BeliefKept(g, init, before, belief);
    assert ids[|init|] == belief.id;
    forall pair | pair in beliefs ensures ReadFrom(g, ids, pair, beliefs[pair]) {
      if pair != own {
        assert pair in before && beliefs[pair] == before[pair];
        ReadFromMore(g, init, [belief.id], pair, before[pair]);
      }
    }
  }

  lemma ReadFromMore(g: GraphState, ids: seq<EntityID>, more: seq<EntityID>, pair: ActorEvidence, belief: AuthoredBelief)
    requires ReadFrom(g, ids, pair, belief)
    ensures ReadFrom(g, ids + more, pair, belief)
  {}

  lemma BeliefKept(g: GraphState, init: seq<EntityID>, before: map<ActorEvidence, AuthoredBelief>, belief: AuthoredBelief)
    requires BeliefsKept(g, init, before) && StatesPair(g, belief.id, PairOf(belief))
    ensures BeliefsKept(g, init + [belief.id], before[PairOf(belief) := belief])
  {
    var ids, own, beliefs := init + [belief.id], PairOf(belief), before[PairOf(belief) := belief];
    assert own in beliefs && ids[|init|] == belief.id;
    forall i | 0 <= i < |init| ensures exists pair :: pair in beliefs && StatesPair(g, ids[i], pair) {
      assert ids[i] == init[i];
      var pair :| pair in before && StatesPair(g, init[i], pair);
      assert pair in beliefs;
    }
  }

  lemma GatheredExactly(g: GraphState, sources: Sources, input: Preflight, d: CaseDecision)
    requires GatheringOf(g, sources, d, input.actingActor) == Some(Gathering(input.eligibility, input.beliefs, input.known))
    ensures GatheredFor(g, sources, input, d)
  {
    forall e ensures e in input.eligibility <==> e in d.revealRefs && e in g {
      EligibilityIsRecorded(g, d.revealRefs, e);
    }
    forall e | e in input.eligibility ensures EligibilityStated(g[e], input.eligibility[e]) {
      EligibilityIsRecorded(g, d.revealRefs, e);
      EligibilityRead(g[e]);
    }
    if d.kind == Question && |d.targetRefs| == 1 {
      BeliefsRead(g, sources.index(BeliefActorHolder, d.targetRefs[0]).value, input.beliefs);
    }
    if d.kind == Share {
      var ids := sources.index(KnowledgeActorHolder, input.actingActor).value;
      forall pair: ActorEvidence { KnownIsRecorded(g, input.actingActor, ids, pair); }
    }
  }

  lemma AssembledFromCase(
    g: GraphState, caseID: EntityID, d: CaseDecision, actor: EntityID, phase: CasePhase, gathered: Gathering)
    requires caseID in g && CurrentPhase(g[caseID]) == Some(phase)
    ensures BoundToCase(g, caseID, Assembled(d, actor, caseID, g[caseID], phase, gathered))
  {
    LatestPhaseIsFurthest(Strings(g[caseID], CaseLifecyclePhase), phase);
    AssembledNames(g, caseID, d, actor, phase, gathered);
  }

  lemma AssembledNames(
    g: GraphState, caseID: EntityID, d: CaseDecision, actor: EntityID, phase: CasePhase, gathered: Gathering)
    requires caseID in g
    ensures NamesOf(g, caseID, Assembled(d, actor, caseID, g[caseID], phase, gathered))
  {
    var state := g[caseID];
    TextSetIs(state, CaseMemberEvidence);
    TextSetIs(state, CaseMemberSuspect);
    TextSetIs(state, CaseMemberVictim);
    TextSetIs(state, CaseSolutionCulprit);
    TextSetIs(state, CaseSolutionMethod);
    TextSetIs(state, CaseSolutionMotive);
  }

  lemma TextSetIs(state: EntityState, p: Predicate)
    ensures forall x :: x in TextSet(state, p) <==> x in Strings(state, p)
  {}

  /** Every field of an applicable snapshot is what the turn, its player, the case, the proposed evidence and the indexed
      records say, and nothing more. */
  lemma SnapshotIsExact(g: GraphState, sources: Sources, caseID: EntityID, turn: EntityID)
    requires LoadOf(g, sources, caseID, turn).Ok? && LoadOf(g, sources, caseID, turn).value.Applicable?
    ensures var input := LoadOf(g, sources, caseID, turn).value.preflight;
      && BoundToTurn(g, sources, turn, input) && BoundToCase(g, caseID, input)
      && GatheredFor(g, sources, input, input.decision.value)
  {
    var ref := SoleString(g[turn], TurnCaseDecisionRef).value;
    var d := sources.records[ref].decision.value;
    SnapshotParts(g, sources, caseID, g[turn], d);
  }

  lemma SnapshotParts(g: GraphState, sources: Sources, caseID: EntityID, turnState: EntityState, d: CaseDecision)
    requires PreflightOf(g, sources, caseID, turnState, d).Some?
    ensures var input := PreflightOf(g, sources, caseID, turnState, d).value;
      && input.decision == Some(d) && ActorOf(g, turnState) == Some(input.actingActor)
      && BoundToCase(g, caseID, input) && GatheredFor(g, sources, input, d)
  {
    var input := PreflightOf(g, sources, caseID, turnState, d).value;
    var gathered := GatheringOf(g, sources, d, input.actingActor).value;
    GatheredExactly(g, sources, input, d);
    AssembledFromCase(g, caseID, d, input.actingActor, input.casePhase, gathered);
  }
}
