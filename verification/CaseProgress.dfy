/** Progressing a case from one decided turn: record the event it asks for, store one
    deterministic result, and land the turn's reference to it last. */
module CaseProgress {
  import opened Wrappers
  import opened Vocabulary
  import opened Graph
  import opened CaseDecisions
  import opened CaseFlow

  /** What the knowledge stage left for the turn. */
  datatype Knowledge = Knowledge(turnID: string, decisionID: string, committed: bool)

  datatype ProgressRecord =
    | NoCase(turnID: string)
    | NothingHappened(turnID: string, decisionID: string, caseID: EntityID)
    | EventRecorded(turnID: string, decisionID: string, caseID: EntityID, kind: CaseEventKind, eventID: string)

  /** The stored artifacts by turn, the deterministic identities, and the exact reference slots. */
  datatype Artifacts = Artifacts(
    grammar: Grammar,
    instance: EntityID -> string,
    decisions: map<EntityID, DecisionRecord>,
    knowledge: map<EntityID, Knowledge>,
    eventID: (string, string, CaseEventKind) -> string,
    decisionRef: EntityID -> string,
    knowledgeRef: EntityID -> string,
    progressRef: EntityID -> string)

  /** The result a turn must have, and the event it asks of its case. */
  datatype Derived = Derived(record: ProgressRecord, request: Option<TransitionRequest>)

  predicate HasRef(g: GraphState, turn: EntityID, p: Predicate, ref: string) {
    Own(turn, TriplesOf(Lookup(g, turn), p)) == [Text(ref)]
  }

  function Expected(a: Artifacts, g: GraphState, turn: EntityID): Option<Derived> {
    var turnID := a.instance(turn);
    if turn !in a.decisions || turn !in a.knowledge then None
    else if a.decisions[turn].turnID != turnID || a.knowledge[turn].turnID != turnID then None
    else match a.decisions[turn].decision
      case None => if a.knowledge[turn].committed then None else Some(Derived(NoCase(turnID), None))
      case Some(d) =>
        if !DecisionValid(a.grammar, d) || !a.knowledge[turn].committed || a.knowledge[turn].decisionID != d.decisionID
        then None
        else match Derive(g, d, a.eventID)
          case Malformed => None
          case NoEvent => Some(Derived(NothingHappened(turnID, d.decisionID, d.caseID), None))
          case Requested(request) =>
            Some(Derived(EventRecorded(turnID, d.decisionID, d.caseID, request.kind, request.eventID), Some(request)))
  }

  lemma LiteralStands(g: GraphState, g': GraphState, caseID: EntityID, p: Predicate)
    requires Elsewhere(g, g', TURN_CASE_PROGRESS) && caseID in g && p !in TURN_CASE_PROGRESS
    ensures Literal(caseID, g'[caseID], p) == Literal(caseID, g[caseID], p)
  {
    LiteralFromTriples(caseID, g[caseID], g'[caseID], p);
  }

  /** Landing a progress reference takes no event off a case. */
  lemma EventStands(g: GraphState, g': GraphState, caseID: EntityID, request: TransitionRequest)
    requires Elsewhere(g, g', TURN_CASE_PROGRESS) && caseID in g && StatesEvent(caseID, g[caseID], request)
    ensures StatesEvent(caseID, g'[caseID], request)
  {
    LiteralStands(g, g', caseID, CaseLifecycleEventID);
    LiteralStands(g, g', caseID, CaseLifecycleEventKind);
    LiteralStands(g, g', caseID, CaseLifecycleFromPhase);
    LiteralStands(g, g', caseID, CaseLifecycleToPhase);
  }

  datatype Verdict = Landed | Permanent | Transient | MissingTurn

  class Progressor {
    const artifacts: Artifacts
    const store: Store
    var progress: map<EntityID, ProgressRecord>

    constructor (artifacts: Artifacts, store: Store, progress: map<EntityID, ProgressRecord>)
      ensures this.artifacts == artifacts && this.store == store && this.progress == progress
    {
      this.artifacts, this.store, this.progress := artifacts, store, progress;
    }

    /** The turn carries its reference, and behind it the result its artifacts determine. */
    predicate Done(g: GraphState, records: map<EntityID, ProgressRecord>, turn: EntityID, expected: Derived) {
      && HasRef(g, turn, TurnCaseProgressRef, artifacts.progressRef(turn))
      && turn in records && records[turn] == expected.record
    }

    predicate Ready(g: GraphState, turn: EntityID) {
      && turn in g
      && HasRef(g, turn, TurnCaseDecisionRef, artifacts.decisionRef(turn))
      && HasRef(g, turn, TurnKnowledgeRef, artifacts.knowledgeRef(turn))
      && Expected(artifacts, g, turn).Some?
    }

    predicate HasResident(g: GraphState, turn: EntityID) {
      Own(turn, TriplesOf(Lookup(g, turn), TurnCaseProgressRef)) != []
    }

    /** The turn is to be progressed now, and its decision asks for an event of its case. */
    predicate Asks(g: GraphState, turn: EntityID) {
      Ready(g, turn) && !HasResident(g, turn) && Expected(artifacts, g, turn).value.request.Some?
    }

    function CaseOf(turn: EntityID): EntityID {
      if turn in artifacts.decisions && artifacts.decisions[turn].decision.Some?
      then artifacts.decisions[turn].decision.value.caseID else ""
    }

    function Request(g: GraphState, turn: EntityID): TransitionRequest
      requires Asks(g, turn)
    {
      Expected(artifacts, g, turn).value.request.value
    }

    /** Success always means the turn is done; a turn that is done is left alone; a resident result that is
        not the determined one is a permanent refusal; and a permanent refusal has written nothing. Where the turn's
        decision asks for an event, success means the case states that event, or had it, or had moved past it; a case
        that has not come to it refuses for good; and a turn that asks for none leaves every case as it was. */
    method Process(turn: EntityID, at: int) returns (r: Verdict)
      modifies this, store
      ensures r == Landed ==>
                Ready(old(store.graph), turn) &&
                Done(store.graph, progress, turn, Expected(artifacts, old(store.graph), turn).value)
      ensures Ready(old(store.graph), turn) &&
              Done(old(store.graph), old(progress), turn, Expected(artifacts, old(store.graph), turn).value) ==>
                r == Landed && store.graph == old(store.graph) && progress == old(progress)
      ensures Ready(old(store.graph), turn) && HasResident(old(store.graph), turn) &&
              !Done(old(store.graph), old(progress), turn, Expected(artifacts, old(store.graph), turn).value) ==>
                r == Permanent
      ensures r == Permanent ==> store.graph == old(store.graph) && progress == old(progress)
      ensures turn in old(store.graph) && !Ready(old(store.graph), turn) ==> r == Permanent
      ensures Elsewhere(old(store.graph), store.graph, TURN_CASE_PROGRESS + CASE_LIFECYCLE_RECEIPT)
      ensures !Asks(old(store.graph), turn) ==> Elsewhere(old(store.graph), store.graph, TURN_CASE_PROGRESS)
      ensures Asks(old(store.graph), turn) && r == Landed ==>
                || Overtaken(old(store.graph), CaseOf(turn), Request(old(store.graph), turn))
                || (CaseOf(turn) in store.graph &&
                    StatesEvent(CaseOf(turn), store.graph[CaseOf(turn)], Request(old(store.graph), turn)))
      ensures Asks(old(store.graph), turn) && Overtaken(old(store.graph), CaseOf(turn), Request(old(store.graph), turn)) ==>
                Elsewhere(old(store.graph), store.graph, TURN_CASE_PROGRESS)
      ensures Asks(old(store.graph), turn) && TooEarly(old(store.graph), CaseOf(turn), Request(old(store.graph), turn)) ==>
                r == Permanent
    {
      if turn !in store.graph {
        return MissingTurn;
      }
      if !Ready(store.graph, turn) {
        return Permanent;
      }
      var expected := Expected(artifacts, store.graph, turn).value;
      if HasResident(store.graph, turn) {
        return if Done(store.graph, progress, turn, expected) then Landed else Permanent;
      }
      if expected.request.Some? {
        var recorded := RecordEvent(CaseOf(turn), expected.request.value, at);
        if recorded != Landed {
          return recorded;
        }
      }
      var stored := Put(turn, expected.record);
      if !stored {
        return Transient;
      }
      ghost var recorded := store.graph;
      var landed := Land(turn, at);
      if expected.request.Some? && CaseOf(turn) in recorded && StatesEvent(CaseOf(turn), recorded[CaseOf(turn)], expected.request.value) {
        EventStands(recorded, store.graph, CaseOf(turn), expected.request.value);
      }
      return if landed then Landed else Transient;
    }

    method RecordEvent(caseID: EntityID, request: TransitionRequest, at: int) returns (r: Verdict)
      modifies store
      ensures r == Permanent ==> store.graph == old(store.graph)
      ensures r == Landed || r == Permanent || r == Transient
      ensures Elsewhere(old(store.graph), store.graph, CASE_LIFECYCLE_RECEIPT)
      ensures r == Landed ==> Overtaken(old(store.graph), caseID, request) ||
                              (caseID in store.graph && StatesEvent(caseID, store.graph[caseID], request))
      ensures Overtaken(old(store.graph), caseID, request) ==> store.graph == old(store.graph)
      ensures TooEarly(old(store.graph), caseID, request) ==> r == Permanent
    {
      match RecordPlanFor(store.graph, caseID, request) {
        case Settled => return Landed;
        case OutOfOrder => return Permanent;
        case Unrecordable => return if caseID !in store.graph then Permanent else Transient;
        case WriteReceipt =>
      }
      ghost var g, reply := store.graph, NextReply(store.replies);
      var ok := store.Reconcile(CASE_LIFECYCLE_RECEIPT, caseID, ReceiptTriples(caseID, request, at));
      ReconcileElsewhere(g, CASE_LIFECYCLE_RECEIPT, caseID, ReceiptTriples(caseID, request, at), reply);
      if ok {
        ConfirmedReceiptStates(g, caseID, request, at, reply);
      }
      return if ok then Landed else Transient;
    }

    method Put(turn: EntityID, record: ProgressRecord) returns (ok: bool)
      modifies this, store
      ensures store.graph == old(store.graph)
      ensures ok ==> progress == old(progress)[turn := record]
    {
      var reply := NextReply(store.replies);
      store.replies := Later(store.replies);
      if Lands(reply) {
        progress := progress[turn := record];
      }
      ok := reply == Committed;
    }

    method Land(turn: EntityID, at: int) returns (ok: bool)
      modifies store
      ensures ok ==> HasRef(store.graph, turn, TurnCaseProgressRef, artifacts.progressRef(turn))
      ensures Elsewhere(old(store.graph), store.graph, TURN_CASE_PROGRESS)
    {
      var desired := Triple(turn, TurnCaseProgressRef, Text(artifacts.progressRef(turn)),
                            Provenance(SOURCE, at, "", false));
      SingletonGroup(store.graph, turn, desired, NextReply(store.replies));
      ReconcileElsewhere(store.graph, TURN_CASE_PROGRESS, turn, [desired], NextReply(store.replies));
      ok := store.Reconcile(TURN_CASE_PROGRESS, turn, [desired]);
      assert Own(turn, [desired]) == [desired.obj];
    }
  }
}
