/** What the granter writes is what the loader and the projector read: one pair, one actor. */
module KnowledgeRoundTrip {
  import opened Wrappers
  import opened Vocabulary
  import opened Graph
  import opened KnowledgeAuthorizer
  import KnowledgeGranter
  import KnowledgeLoader
  import EpistemicProjector
  import SolutionLock

  lemma OneString(s: EntityState, p: Predicate, t: Triple)
    requires TriplesOf(s, p) == [t] && t.pred == p && t.obj.Text?
    ensures Strings(s, p) == [t.obj.text]
  {
    StringsWithin(s, p);
  }

  lemma NoStrings(s: EntityState, p: Predicate)
    requires TriplesOf(s, p) == []
    ensures Strings(s, p) == []
  {
    StringsWithin(s, p);
  }

  lemma SoleFact(s: EntityState, t: Triple)
    requires TriplesOf(s, t.pred) == [t] && t.obj.Text?
    ensures EpistemicProjector.ExactString(s, t.pred) == Some(t.obj.text)
    ensures t.pred == WorldEntityKind ==>
              forall kind :: EpistemicProjector.HasKind(s, kind) <==> ParseEntityKind(t.obj.text) == Some(kind)
  {}

  lemma KindTexts()
    ensures ParseEntityKind("knowledge") == Some(Knowledge) && ParseEntityKind("revelation") == Some(Revelation)
  {}

  lemma KnowledgeFacts(id: EntityID, recipient: EntityID, evidence: EntityID, at: int)
    ensures var birth := KnowledgeGranter.KnowledgeBirth(id, recipient, evidence, at);
      && EpistemicProjector.HasKind(birth, Knowledge)
      && EpistemicProjector.ExactString(birth, KnowledgeActorHolder) == Some(recipient)
      && EpistemicProjector.ExactString(birth, KnowledgeEvidenceRef) == Some(evidence)
      && SoleString(birth, KnowledgeEvidenceRef) == Some(evidence)
  {
    var b := KnowledgeGranter.KnowledgeBirth(id, recipient, evidence, at);
    KnowledgeTriples(id, recipient, evidence, at);
    OneString(b, KnowledgeEvidenceRef, b[2]);
    KindTexts();
    SoleFact(b, b[0]);
    SoleFact(b, b[1]);
    SoleFact(b, b[2]);
  }

  lemma KnowledgeTriples(id: EntityID, recipient: EntityID, evidence: EntityID, at: int)
    ensures var b := KnowledgeGranter.KnowledgeBirth(id, recipient, evidence, at);
      && TriplesOf(b, WorldEntityKind) == [b[0]]
      && TriplesOf(b, KnowledgeActorHolder) == [b[1]]
      && TriplesOf(b, KnowledgeEvidenceRef) == [b[2]]
  {
    var b := KnowledgeGranter.KnowledgeBirth(id, recipient, evidence, at);
    ThreeTriples(b[0], b[1], b[2], WorldEntityKind);
    ThreeTriples(b[0], b[1], b[2], KnowledgeActorHolder);
    ThreeTriples(b[0], b[1], b[2], KnowledgeEvidenceRef);
  }

  /** A granted pair is known to its recipient for sharing and shown to its recipient in projections; shown
      for any other actor, the record refuses the projection. */
  lemma GrantedReadsBack(g: GraphState, id: EntityID, entry: Entry, at: int, other: EntityID)
    requires id in g && g[id] == KnowledgeGranter.KnowledgeBirth(id, entry.recipient, entry.evidence, at)
    ensures KnowledgeLoader.KnownOf(g, entry.recipient, [id]) == Some({ActorEvidence(entry.recipient, entry.evidence)})
    ensures EpistemicProjector.KnowledgeEvidence([EpistemicProjector.Named(id, g[id])], entry.recipient) ==
            Some([entry.evidence])
    ensures other != entry.recipient ==>
              EpistemicProjector.KnowledgeEvidence([EpistemicProjector.Named(id, g[id])], other) == None
  {
    KnowledgeFacts(id, entry.recipient, entry.evidence, at);
    assert [id][..0] == [];
    assert KnowledgeLoader.KnownOf(g, entry.recipient, []) == Some({});
    assert EpistemicProjector.KnowledgeEvidence([], entry.recipient) == Some([]);
    assert [EpistemicProjector.Named(id, g[id])][1..] == [];
    assert [entry.evidence] + [] == [entry.evidence];
    assert {} + {ActorEvidence(entry.recipient, entry.evidence)} == {ActorEvidence(entry.recipient, entry.evidence)};
  }

  /** Four facts of four predicates, and further facts of others. */
  predicate Apart(b: seq<Triple>, extra: seq<Triple>) {
    && |b| == 4
    && b[0].pred != b[1].pred && b[0].pred != b[2].pred && b[0].pred != b[3].pred
    && b[1].pred != b[2].pred && b[1].pred != b[3].pred && b[2].pred != b[3].pred
    && (forall t :: t in extra ==>
          t.pred != b[0].pred && t.pred != b[1].pred && t.pred != b[2].pred && t.pred != b[3].pred)
  }

  lemma RevelationApart(names: KnowledgeGranter.Names, job: KnowledgeGranter.Job, entry: Entry, at: int)
    ensures Apart(KnowledgeGranter.RevelationCore(names, job, entry, at),
                  KnowledgeGranter.Attribution(names, job, entry, at))
  {
    CoreOrder(names, job, entry, at);
    AttributionOnly(names, job, entry, at);
  }

  lemma CoreOrder(names: KnowledgeGranter.Names, job: KnowledgeGranter.Job, entry: Entry, at: int)
    ensures var core := KnowledgeGranter.RevelationCore(names, job, entry, at);
      && |core| == 4 && core[0].pred == WorldEntityKind && core[1].pred == RevelationActorHolder
      && core[2].pred == RevelationEvidenceRef && core[3].pred == RevelationTurnID
  {}

  lemma AttributionOnly(names: KnowledgeGranter.Names, job: KnowledgeGranter.Job, entry: Entry, at: int)
    ensures forall t :: t in KnowledgeGranter.Attribution(names, job, entry, at) ==>
              t.pred == RevelationSourceActor || t.pred == RevelationTestimonyRef
  {}

  /** One of four facts, when only it and nothing else speaks of its predicate. */
  lemma AmongFour(b: seq<Triple>, extra: seq<Triple>, i: nat)
    requires i < 4 && Apart(b, extra)
    ensures TriplesOf(b + extra, b[i].pred) == [b[i]]
  {
    assert b == [b[0], b[1], b[2], b[3]];
    WithinConcat(b, extra, {b[i].pred});
    WithinNothing(extra, {b[i].pred});
    FourTriples(b[0], b[1], b[2], b[3], b[i].pred);
  }

  lemma RevelationTriples(names: KnowledgeGranter.Names, job: KnowledgeGranter.Job, entry: Entry, at: int, i: nat)
    requires i < 4
    ensures var core := KnowledgeGranter.RevelationCore(names, job, entry, at);
      TriplesOf(KnowledgeGranter.RevelationBirth(names, job, entry, at), core[i].pred) == [core[i]]
  {
    RevelationApart(names, job, entry, at);
    AmongFour(KnowledgeGranter.RevelationCore(names, job, entry, at),
              KnowledgeGranter.Attribution(names, job, entry, at), i);
  }

  lemma RevelationFact(names: KnowledgeGranter.Names, job: KnowledgeGranter.Job, entry: Entry, at: int, i: nat)
    requires i < 4
    ensures var core := KnowledgeGranter.RevelationCore(names, job, entry, at);
      EpistemicProjector.ExactString(KnowledgeGranter.RevelationBirth(names, job, entry, at), core[i].pred) ==
      Some(core[i].obj.text)
  {
    RevelationTriples(names, job, entry, at, i);
  }

  lemma RevelationFacts(names: KnowledgeGranter.Names, job: KnowledgeGranter.Job, entry: Entry, at: int)
    ensures var birth := KnowledgeGranter.RevelationBirth(names, job, entry, at);
      && EpistemicProjector.HasKind(birth, Revelation)
      && EpistemicProjector.ExactString(birth, RevelationActorHolder) == Some(entry.recipient)
      && EpistemicProjector.ExactString(birth, RevelationEvidenceRef) == Some(entry.evidence)
      && EpistemicProjector.ExactString(birth, RevelationTurnID) == Some(job.turnID)
  {
    KindTexts();
    RevelationFact(names, job, entry, at, 0);
    RevelationFact(names, job, entry, at, 1);
    RevelationFact(names, job, entry, at, 2);
    RevelationFact(names, job, entry, at, 3);
  }

  /** A revelation of this turn is shown this turn to its recipient and to nobody else. */
  lemma RevealedReadsBack(names: KnowledgeGranter.Names, job: KnowledgeGranter.Job, entry: Entry, id: EntityID, at: int, other: EntityID)
    ensures var record := EpistemicProjector.Named(id, KnowledgeGranter.RevelationBirth(names, job, entry, at));
      EpistemicProjector.RevelationEvidence([record], other, job.turnID) ==
      Some(if other == entry.recipient then [entry.evidence] else [])
  {
    var record := EpistemicProjector.Named(id, KnowledgeGranter.RevelationBirth(names, job, entry, at));
    RevelationFacts(names, job, entry, at);
    assert [record][1..] == [];
    assert EpistemicProjector.RevelationEvidence([], other, job.turnID) == Some([]);
    assert [entry.evidence] + [] == [entry.evidence];
  }

  /** The granter's births are the grant steps of the solution lock's machine: whatever provenance they carry, a
      knowledge entity and a revelation entity name their entry's evidence and no other. */
  lemma GranterBirths(names: KnowledgeGranter.Names, job: KnowledgeGranter.Job, entry: Entry, id: EntityID, at: int)
    ensures SolutionLock.IsGrantBirth(entry, KnowledgeGranter.KnowledgeBirth(id, entry.recipient, entry.evidence, at))
    ensures SolutionLock.IsGrantBirth(entry, KnowledgeGranter.RevelationBirth(names, job, entry, at))
  {
    var birth := KnowledgeGranter.KnowledgeBirth(id, entry.recipient, entry.evidence, at);
    KnowledgeTriples(id, entry.recipient, entry.evidence, at);
    OneString(birth, KnowledgeEvidenceRef, birth[2]);
    ThreeTriples(birth[0], birth[1], birth[2], RevelationEvidenceRef);
    NoStrings(birth, RevelationEvidenceRef);
    RevelationStrings(names, job, entry, at);
  }

  lemma RevelationStrings(names: KnowledgeGranter.Names, job: KnowledgeGranter.Job, entry: Entry, at: int)
    ensures var birth := KnowledgeGranter.RevelationBirth(names, job, entry, at);
      Strings(birth, KnowledgeEvidenceRef) == [] && Strings(birth, RevelationEvidenceRef) == [entry.evidence]
  {
    var core := KnowledgeGranter.RevelationCore(names, job, entry, at);
    var attribution := KnowledgeGranter.Attribution(names, job, entry, at);
    WithinNothing(core, {KnowledgeEvidenceRef});
    WithinNothing(attribution, {KnowledgeEvidenceRef});
    WithinConcat(core, attribution, {KnowledgeEvidenceRef});
    NoStrings(core + attribution, KnowledgeEvidenceRef);
    RevelationTriples(names, job, entry, at, 2);
    OneString(core + attribution, RevelationEvidenceRef, core[2]);
  }
}
