/** The casekeeper's structured reading of one action, as every mystery component receives it. */
module CaseDecisions {
  import opened Wrappers
  import opened Graph

  datatype DecisionKind =
    | Observe | Investigate | Question | Share | RequestHint | Accuse | Other
    | Unregistered(name: string)

  datatype CaseDecision = CaseDecision(
    decisionID: string,
    turnID: string,
    caseID: EntityID,
    actorID: EntityID,
    kind: DecisionKind,
    targetRefs: seq<EntityID>,
    revealRefs: seq<EntityID>,
    culpritRef: EntityID,
    methodRef: EntityID,
    motiveRef: EntityID)

  const MAX_TARGETS := 8
  const MAX_REVEALS := 12

  /** What the interpretation stage stored for a turn: a decision, or that none applies. */
  datatype DecisionRecord = DecisionRecord(turnID: string, decision: Option<CaseDecision>)

  /** What the upstream library and the hashes decide: the entity grammar, a turn's segment
      grammar, and the deterministic identity of an interpretation. */
  datatype Grammar = Grammar(
    canonical: EntityID -> bool,
    segment: string -> bool,
    decisionID: (string, EntityID, EntityID) -> string)

  predicate ReferencesValid(grammar: Grammar, refs: seq<EntityID>, limit: nat) {
    && |refs| <= limit
    && (forall i :: 0 <= i < |refs| ==> grammar.canonical(refs[i]))
    && Distinct(refs)
  }

  /** An accusation names three entities; nothing else names any. */
  predicate AccusationRefsValid(grammar: Grammar, d: CaseDecision) {
    if d.kind == Accuse then
      grammar.canonical(d.culpritRef) && grammar.canonical(d.methodRef) && grammar.canonical(d.motiveRef)
    else
      d.culpritRef == "" && d.methodRef == "" && d.motiveRef == ""
  }

  predicate DecisionValid(grammar: Grammar, d: CaseDecision) {
    && grammar.segment(d.turnID)
    && grammar.canonical(d.caseID)
    && grammar.canonical(d.actorID)
    && !d.kind.Unregistered?
    && ReferencesValid(grammar, d.targetRefs, MAX_TARGETS)
    && ReferencesValid(grammar, d.revealRefs, MAX_REVEALS)
    && AccusationRefsValid(grammar, d)
    && d.decisionID == grammar.decisionID(d.turnID, d.caseID, d.actorID)
  }
}
