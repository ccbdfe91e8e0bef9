/** The other half of denouement safety: the machine never gets stuck. From every reachable world, whatever
    crashed or half landed before, a turn whose decision names the solution can still be accused to the end. */
module DenouementReached {
  import opened Wrappers
  import opened Vocabulary
  import opened Graph
  import opened CaseDecisions
  import opened CaseFlow
  import opened Accusation
  import opened DenouementSafety

  const AT := 0

  /** What happens when one worker handles one turn undisturbed: redelivery, progress, the rules and the manager. */
  predicate Undisturbed(turn: EntityID, event: Event) {
    match event
    case DeliverAccusation(worker, t) => worker == 0 && t == turn
    case Proceed(worker, at, reply) => worker == 0 && reply == Committed
    case Crash(worker) => worker == 0
    case RuleFires(_) => true
    case ManagerMoves(_) => true
    case _ => false
  }

  predicate Ended(scope: Scope, w: World) {
    PhaseOf(w.state.graph, scope.caseID) == Some(Denouement)
  }

  predicate AllUndisturbed(turn: EntityID, events: seq<Event>) {
    forall k :: 0 <= k < |events| ==> Undisturbed(turn, events[k])
  }

  /** Some undisturbed handling of the turn ends with the case at its denouement. */
  ghost predicate Reaches(scope: Scope, turn: EntityID, w: World) {
    exists events :: AllUndisturbed(turn, events) && Ended(scope, Run(scope, w, events))
  }

  lemma {:induction false} RunFrom(scope: Scope, w: World, event: Event, events: seq<Event>)
    ensures Run(scope, w, [event] + events) == Run(scope, Step(scope, w, event), events)
    decreases |events|
  {
    var all := [event] + events;
    if events == [] {
      assert all[..|all| - 1] == [];
    } else {
      RunFrom(scope, w, event, events[..|events| - 1]);
      assert all[..|all| - 1] == [event] + events[..|events| - 1];
    }
  }

  lemma EndsBefore(scope: Scope, turn: EntityID, w: World, event: Event, events: seq<Event>)
    requires Undisturbed(turn, event) && AllUndisturbed(turn, events)
    requires Ended(scope, Run(scope, Step(scope, w, event), events))
    ensures AllUndisturbed(turn, [event] + events) && Ended(scope, Run(scope, w, [event] + events))
  {
    RunFrom(scope, w, event, events);
  }

  lemma ReachesBefore(scope: Scope, turn: EntityID, w: World, event: Event)
    requires Undisturbed(turn, event) && Reaches(scope, turn, Step(scope, w, event))
    ensures Reaches(scope, turn, w)
  {
    var next := Step(scope, w, event);
    var events :| AllUndisturbed(turn, events) && Ended(scope, Run(scope, next, events));
    EndsBefore(scope, turn, w, event, events);
  }

  lemma ReachesNow(scope: Scope, turn: EntityID, w: World)
    requires Ended(scope, w)
    ensures Reaches(scope, turn, w)
  {
    assert Run(scope, w, []) == w && AllUndisturbed(turn, []);
  }

  // ---- The accusation a turn makes -----------------------------------------

  function Submitted(d: CaseDecision): TransitionRequest {
    TransitionRequest(d.decisionID, AccusationSubmitted)
  }

  function Corrected(scope: Scope, d: CaseDecision): TransitionRequest {
    TransitionRequest(scope.resultID(d.turnID, d.caseID, d.decisionID), AccusationCorrect)
  }

  /** An event id the case carries was recorded for that event. */
  predicate Named(scope: Scope, g: GraphState, request: TransitionRequest) {
    Literal(scope.caseID, Lookup(g, scope.caseID), CaseLifecycleEventID) == request.eventID ==>
      StatesEvent(scope.caseID, Lookup(g, scope.caseID), request)
  }

  /** The turn accuses, at this phase, exactly the solution; the ids of its two events are distinct from one
      another and from those of any other event the case carries. */
  predicate Ready(scope: Scope, g: GraphState, turn: EntityID, d: CaseDecision, phase: CasePhase) {
    && Load(scope, g, turn) == Accusing(d, phase)
    && Matches(d, scope.solution)
    && turn != scope.caseID
    && Corrected(scope, d).eventID !in {"", d.decisionID}
    && d.decisionID != ""
    && Named(scope, g, Submitted(d)) && Named(scope, g, Corrected(scope, d))
  }

  lemma ReadyFacts(scope: Scope, g: GraphState, turn: EntityID, d: CaseDecision, phase: CasePhase)
    requires Ready(scope, g, turn, d, phase)
    ensures turn in g && scope.caseID in g && PhaseOf(g, scope.caseID) == Some(phase)
    ensures Literal(scope.caseID, g[scope.caseID], CaseLifecyclePhase) == PhaseText(phase)
    ensures RecordFor(scope, turn) ==
            ResultRecorded(scope.instance(turn), AccusationResult(Corrected(scope, d).eventID, d.turnID, d.caseID, d.decisionID, true))
  {
    var own := Own(scope.caseID, TriplesOf(g[scope.caseID], CaseLifecyclePhase));
    assert |own| == 1 && own[0].Text?;
    PhaseTextRoundTrip(phase, own[0].text);
  }

  /** Where the deliveries of one worker stand. */
  predicate At(w: World, stage: Stage) {
    0 in w.stages && w.stages[0] == stage
  }

  function Onward(): Event { Proceed(0, AT, Committed) }

  // ---- Backwards from the denouement ---------------------------------------

  lemma FromRequest(scope: Scope, turn: EntityID, w: World)
    requires scope.caseID in w.state.graph && PhaseOf(w.state.graph, scope.caseID) == Some(Accusation)
    requires Denouement in w.requested
    ensures Reaches(scope, turn, w)
  {
    TransitionedPhase(w.state.graph, scope.caseID, Denouement);
    ReachesNow(scope, turn, Step(scope, w, ManagerMoves(Denouement)));
    ReachesBefore(scope, turn, w, ManagerMoves(Denouement));
  }

  lemma FromRule(scope: Scope, turn: EntityID, w: World)
    requires RuleMatches(w.state.graph, scope.caseID, AccusationCorrect)
    ensures Reaches(scope, turn, w)
  {
    FromRequest(scope, turn, Step(scope, w, RuleFires(AccusationCorrect)));
    ReachesBefore(scope, turn, w, RuleFires(AccusationCorrect));
  }

  lemma FromWriting(scope: Scope, turn: EntityID, w: World, request: TransitionRequest)
    requires At(w, Writing(turn, Correcting, request)) && request.kind == AccusationCorrect
    requires scope.caseID in w.state.graph && RecordPlanFor(w.state.graph, scope.caseID, request) == WriteReceipt
    ensures Reaches(scope, turn, w)
  {
    ReceiptEnablesItsRule(w.state.graph, scope.caseID, request, AT);
    FromRule(scope, turn, Step(scope, w, Onward()));
    ReachesBefore(scope, turn, w, Onward());
  }

  lemma FromRecording(scope: Scope, turn: EntityID, w: World, d: CaseDecision)
    requires At(w, Recording(turn, Correcting, Corrected(scope, d)))
    requires Ready(scope, w.state.graph, turn, d, Accusation)
    ensures Reaches(scope, turn, w)
  {
    var g := w.state.graph;
    ReadyFacts(scope, g, turn, d, Accusation);
    if Literal(scope.caseID, g[scope.caseID], CaseLifecycleEventID) == Corrected(scope, d).eventID {
      FromRule(scope, turn, w);
    } else {
      assert RecordPlanFor(g, scope.caseID, Corrected(scope, d)) == WriteReceipt;
      FromWriting(scope, turn, Step(scope, w, Onward()), Corrected(scope, d));
      ReachesBefore(scope, turn, w, Onward());
    }
  }

  lemma BarrierLeavesReady(scope: Scope, g: GraphState, turn: EntityID, d: CaseDecision)
    requires Ready(scope, g, turn, d, Accusation)
    ensures turn in g
    ensures Ready(scope, g[turn := Replace(g[turn], TURN_ACCUSATION, [BarrierTriple(scope, turn, AT)])], turn, d, Accusation)
  {
    ReplaceTriples(g[turn], TURN_ACCUSATION, [BarrierTriple(scope, turn, AT)], TurnCaseDecisionRef);
  }

  lemma FromLanding(scope: Scope, turn: EntityID, w: World, d: CaseDecision)
    requires At(w, Landing(turn)) && Ready(scope, w.state.graph, turn, d, Accusation)
    ensures Reaches(scope, turn, w)
  {
    ReadyFacts(scope, w.state.graph, turn, d, Accusation);
    BarrierLeavesReady(scope, w.state.graph, turn, d);
    FromRecording(scope, turn, Step(scope, w, Onward()), d);
    ReachesBefore(scope, turn, w, Onward());
  }

  lemma FromCommitting(scope: Scope, turn: EntityID, w: World, d: CaseDecision)
    requires At(w, Committing(turn)) && Ready(scope, w.state.graph, turn, d, Accusation)
    requires RecordsExact(scope, w.begun, w.state)
    ensures Reaches(scope, turn, w)
  {
    ReadyFacts(scope, w.state.graph, turn, d, Accusation);
    var next := Step(scope, w, Onward());
    if Own(turn, TriplesOf(w.state.graph[turn], TurnAccusationRef)) == [] {
      FromLanding(scope, turn, Step(scope, next, Onward()), d);
      ReachesBefore(scope, turn, next, Onward());
    } else {
      FromRecording(scope, turn, next, d);
    }
    ReachesBefore(scope, turn, w, Onward());
  }

  lemma FromAccusation(scope: Scope, turn: EntityID, w: World, d: CaseDecision)
    requires 0 !in w.stages && Ready(scope, w.state.graph, turn, d, Accusation)
    requires RecordsExact(scope, w.begun, w.state)
    ensures Reaches(scope, turn, w)
  {
    ReadyFacts(scope, w.state.graph, turn, d, Accusation);
    var begun := Step(scope, w, DeliverAccusation(0, turn));
    FromCommitting(scope, turn, Step(scope, begun, Onward()), d);
    ReachesBefore(scope, turn, begun, Onward());
    ReachesBefore(scope, turn, w, DeliverAccusation(0, turn));
  }

  // ---- Backwards from the submission ---------------------------------------

  lemma MovedPhase(g: GraphState, caseID: EntityID)
    requires caseID in g && PhaseOf(g, caseID) == Some(Investigation)
    ensures var g' := Transitioned(g, caseID, Accusation);
      caseID in g' && OwnSole(caseID, g'[caseID], CaseLifecyclePhase) == Some(PhaseText(Accusation))
  {
    var desired := [PhaseTriple(caseID, Accusation)];
    ReplaceTriples(g[caseID], {CaseLifecyclePhase}, desired, CaseLifecyclePhase);
    WithinEverything(desired, {CaseLifecyclePhase});
    OwnOne(caseID, desired[0]);
  }

  lemma NamedKept(scope: Scope, g: GraphState, g': GraphState, request: TransitionRequest)
    requires scope.caseID in g && scope.caseID in g' && Named(scope, g, request)
    requires forall p :: p != CaseLifecyclePhase ==> TriplesOf(g'[scope.caseID], p) == TriplesOf(g[scope.caseID], p)
    ensures Named(scope, g', request)
  {
    LiteralFromTriples(scope.caseID, g[scope.caseID], g'[scope.caseID], CaseLifecycleEventID);
    LiteralFromTriples(scope.caseID, g[scope.caseID], g'[scope.caseID], CaseLifecycleEventKind);
    LiteralFromTriples(scope.caseID, g[scope.caseID], g'[scope.caseID], CaseLifecycleFromPhase);
    LiteralFromTriples(scope.caseID, g[scope.caseID], g'[scope.caseID], CaseLifecycleToPhase);
  }

  lemma MovedLoads(scope: Scope, g: GraphState, turn: EntityID, d: CaseDecision, g': GraphState)
    requires Load(scope, g, turn) == Accusing(d, Investigation) && turn != scope.caseID
    requires turn in g && turn in g' && g'[turn] == g[turn] && scope.caseID in g'
    requires OwnSole(scope.caseID, g'[scope.caseID], CaseLifecyclePhase) == Some(PhaseText(Accusation))
    ensures Load(scope, g', turn) == Accusing(d, Accusation)
  {}

  lemma MovedIsReady(scope: Scope, g: GraphState, turn: EntityID, d: CaseDecision)
    requires Ready(scope, g, turn, d, Investigation) && RuleMatches(g, scope.caseID, AccusationSubmitted)
    requires Literal(scope.caseID, g[scope.caseID], CaseLifecycleEventID) == d.decisionID
    ensures Ready(scope, Transitioned(g, scope.caseID, Accusation), turn, d, Accusation)
  {
    ReadyFacts(scope, g, turn, d, Investigation);
    TransitionedPhase(g, scope.caseID, Accusation);
    MovedPhase(g, scope.caseID);
    var g' := Transitioned(g, scope.caseID, Accusation);
    MovedLoads(scope, g, turn, d, g');
    NamedKept(scope, g, g', Submitted(d));
    NamedKept(scope, g, g', Corrected(scope, d));
  }

  lemma ManagerMoved(scope: Scope, w: World, to: CasePhase)
    requires to in w.requested
    ensures Step(scope, w, ManagerMoves(to)) ==
            World(w.state.(graph := Transitioned(w.state.graph, scope.caseID, to)), w.stages, w.requested, w.begun)
  {}

  lemma FromSubmissionRequest(scope: Scope, start: CasePhase, turn: EntityID, w: World, d: CaseDecision)
    requires 0 !in w.stages && Inv(scope, start, w) && Accusation in w.requested
    requires Ready(scope, w.state.graph, turn, d, Investigation)
    requires RuleMatches(w.state.graph, scope.caseID, AccusationSubmitted)
    requires Literal(scope.caseID, w.state.graph[scope.caseID], CaseLifecycleEventID) == d.decisionID
    ensures Reaches(scope, turn, w)
  {
    StepKeeps(scope, start, w, ManagerMoves(Accusation));
    ManagerMoved(scope, w, Accusation);
    MovedIsReady(scope, w.state.graph, turn, d);
    FromAccusation(scope, turn, Step(scope, w, ManagerMoves(Accusation)), d);
    ReachesBefore(scope, turn, w, ManagerMoves(Accusation));
  }

  lemma FromSubmissionRule(scope: Scope, start: CasePhase, turn: EntityID, w: World, d: CaseDecision)
    requires 0 !in w.stages && Inv(scope, start, w)
    requires Ready(scope, w.state.graph, turn, d, Investigation)
    requires RuleMatches(w.state.graph, scope.caseID, AccusationSubmitted)
    requires Literal(scope.caseID, w.state.graph[scope.caseID], CaseLifecycleEventID) == d.decisionID
    ensures Reaches(scope, turn, w)
  {
    StepKeeps(scope, start, w, RuleFires(AccusationSubmitted));
    FromSubmissionRequest(scope, start, turn, Step(scope, w, RuleFires(AccusationSubmitted)), d);
    ReachesBefore(scope, turn, w, RuleFires(AccusationSubmitted));
  }

  function SubmissionReceipted(scope: Scope, g: GraphState, d: CaseDecision): GraphState
    requires scope.caseID in g
  {
    g[scope.caseID := Replace(g[scope.caseID], CASE_LIFECYCLE_RECEIPT, ReceiptTriples(scope.caseID, Submitted(d), AT))]
  }

  lemma ReceiptedIsReady(scope: Scope, g: GraphState, turn: EntityID, d: CaseDecision)
    requires Ready(scope, g, turn, d, Investigation) && scope.caseID in g
    requires RecordPlanFor(g, scope.caseID, Submitted(d)) == WriteReceipt
    ensures var g' := SubmissionReceipted(scope, g, d);
      && Ready(scope, g', turn, d, Investigation)
      && RuleMatches(g', scope.caseID, AccusationSubmitted)
      && Literal(scope.caseID, g'[scope.caseID], CaseLifecycleEventID) == d.decisionID
  {
    ReceiptEnablesItsRule(g, scope.caseID, Submitted(d), AT);
    ReceiptReplaces(scope.caseID, g[scope.caseID], Submitted(d), AT);
    ReplaceTriples(g[scope.caseID], CASE_LIFECYCLE_RECEIPT, ReceiptTriples(scope.caseID, Submitted(d), AT), CaseLifecyclePhase);
  }

  lemma SubmissionLands(scope: Scope, turn: EntityID, w: World, d: CaseDecision)
    requires At(w, Writing(turn, Submitting(Investigation), Submitted(d))) && scope.caseID in w.state.graph
    ensures Step(scope, w, Onward()) ==
            World(w.state.(graph := SubmissionReceipted(scope, w.state.graph, d)), w.stages - {0}, w.requested, w.begun)
  {}

  lemma FromSubmitting(scope: Scope, start: CasePhase, turn: EntityID, w: World, d: CaseDecision)
    requires At(w, Writing(turn, Submitting(Investigation), Submitted(d))) && Inv(scope, start, w)
    requires Ready(scope, w.state.graph, turn, d, Investigation)
    requires RecordPlanFor(w.state.graph, scope.caseID, Submitted(d)) == WriteReceipt
    ensures Reaches(scope, turn, w)
  {
    ReadyFacts(scope, w.state.graph, turn, d, Investigation);
    ReceiptedIsReady(scope, w.state.graph, turn, d);
    SubmissionLands(scope, turn, w, d);
    StepKeeps(scope, start, w, Onward());
    FromSubmissionRule(scope, start, turn, Step(scope, w, Onward()), d);
    ReachesBefore(scope, turn, w, Onward());
  }

  lemma FromInvestigation(scope: Scope, start: CasePhase, turn: EntityID, w: World, d: CaseDecision)
    requires 0 !in w.stages && Inv(scope, start, w)
    requires Ready(scope, w.state.graph, turn, d, Investigation)
    ensures Reaches(scope, turn, w)
  {
    var g := w.state.graph;
    ReadyFacts(scope, g, turn, d, Investigation);
    if Literal(scope.caseID, g[scope.caseID], CaseLifecycleEventID) == d.decisionID {
      FromSubmissionRule(scope, start, turn, w, d);
    } else {
      assert RecordPlanFor(g, scope.caseID, Submitted(d)) == WriteReceipt;
      var begun := Step(scope, w, DeliverAccusation(0, turn));
      StepKeeps(scope, start, w, DeliverAccusation(0, turn));
      StepKeeps(scope, start, begun, Onward());
      FromSubmitting(scope, start, turn, Step(scope, begun, Onward()), d);
      ReachesBefore(scope, turn, begun, Onward());
      ReachesBefore(scope, turn, w, DeliverAccusation(0, turn));
    }
  }

  /** From every world any run can lead to, an accusation of the exact solution at the investigation or later can
      still take the case to its denouement, by redelivery of that one turn alone. */
  lemma CorrectAccusationCanFinish(
    scope: Scope, g: GraphState, events: seq<Event>, turn: EntityID, d: CaseDecision, phase: CasePhase)
    requires Authored(scope, g) && Rank(Investigation) <= Rank(phase)
    requires Ready(scope, Run(scope, Start(g), events).state.graph, turn, d, phase)
    ensures Reaches(scope, turn, Run(scope, Start(g), events))
  {
    var start, w := PhaseOf(g, scope.caseID).value, Run(scope, Start(g), events);
    RunKeeps(scope, g, events);
    ReadyFacts(scope, w.state.graph, turn, d, phase);
    if phase == Denouement {
      ReachesNow(scope, turn, w);
    } else {
      StepKeeps(scope, start, w, Crash(0));
      if phase == Accusation {
        FromAccusation(scope, turn, Step(scope, w, Crash(0)), d);
      } else {
        FromInvestigation(scope, start, turn, Step(scope, w, Crash(0)), d);
      }
      ReachesBefore(scope, turn, w, Crash(0));
    }
  }
}
