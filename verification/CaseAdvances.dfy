/** How a case gets from its cold open to the investigation: which decision moves it, from where and where to. */
module CaseAdvances {
  import opened Wrappers
  import opened Vocabulary
  import opened Graph
  import opened CaseDecisions
  import opened CaseFlow
  import opened Accusation
  import opened DenouementSafety
  import opened ReceiptRaces

  /** One undisturbed progress delivery, then its rule and the manager. */
  function ProgressOnce(turn: EntityID, kind: CaseEventKind, to: CasePhase): seq<Event> {
    [DeliverProgress(0, turn), Proceed(0, AT, Committed), Proceed(0, AT, Committed)]
    + [RuleFires(kind), ManagerMoves(to)]
  }

  /** The turn's decision asks for this event, and the case carries no event of that name. */
  predicate AsksFor(scope: Scope, g: GraphState, turn: EntityID, request: TransitionRequest) {
    && scope.caseID in g && ProgressOf(scope, g, turn) == Requested(request)
    && request.eventID !in {"", Literal(scope.caseID, g[scope.caseID], CaseLifecycleEventID)}
  }

  lemma DeliveredSteps(scope: Scope, g: GraphState, turn: EntityID, request: TransitionRequest)
    requires AsksFor(scope, g, turn, request) && PhaseOf(g, scope.caseID) == Some(EdgeFrom(request.kind))
    ensures Run(scope, Start(g), [DeliverProgress(0, turn), Proceed(0, AT, Committed), Proceed(0, AT, Committed)]) ==
            World(State(Receipted(g, scope.caseID, request), map[]), map[], {}, Begun({}, {turn}))
  {
    var s, b := State(g, map[]), Begun({}, {turn});
    var read, write := Recording(turn, Purpose.Progressing, request), Writing(turn, Purpose.Progressing, request);
    assert RecordPlanFor(g, scope.caseID, request) == WriteReceipt;
    assert {} + {turn} == {turn};
    RunThree(scope, Start(g), DeliverProgress(0, turn), Proceed(0, AT, Committed), Proceed(0, AT, Committed));
    assert Step(scope, Start(g), DeliverProgress(0, turn)) == World(s, map[0 := read], {}, b);
    assert Step(scope, World(s, map[0 := read], {}, b), Proceed(0, AT, Committed)) == World(s, map[0 := write], {}, b);
    WriteLands(scope, World(s, map[0 := write], {}, b), 0, turn, Purpose.Progressing, request);
    assert map[0 := write] - {0} == map[];
  }

  lemma RuleAndManager(scope: Scope, w: World, kind: CaseEventKind)
    requires RuleMatches(w.state.graph, scope.caseID, kind)
    ensures PhaseOf(Run(scope, w, [RuleFires(kind), ManagerMoves(EdgeTo(kind))]).state.graph, scope.caseID) ==
            PhaseOf(Transitioned(w.state.graph, scope.caseID, EdgeTo(kind)), scope.caseID)
  {
    RunOne(scope, w, [], RuleFires(kind));
    RunOne(scope, w, [RuleFires(kind)], ManagerMoves(EdgeTo(kind)));
    assert [] + [RuleFires(kind)] == [RuleFires(kind)];
    assert [RuleFires(kind)] + [ManagerMoves(EdgeTo(kind))] == [RuleFires(kind), ManagerMoves(EdgeTo(kind))];
  }

  lemma ProgressAdvances(scope: Scope, g: GraphState, turn: EntityID, request: TransitionRequest)
    requires AsksFor(scope, g, turn, request) && PhaseOf(g, scope.caseID) == Some(EdgeFrom(request.kind))
    ensures PhaseOf(Run(scope, Start(g), ProgressOnce(turn, request.kind, EdgeTo(request.kind))).state.graph, scope.caseID) ==
            Some(EdgeTo(request.kind))
  {
    var delivery := [DeliverProgress(0, turn), Proceed(0, AT, Committed), Proceed(0, AT, Committed)];
    var after := [RuleFires(request.kind), ManagerMoves(EdgeTo(request.kind))];
    DeliveredSteps(scope, g, turn, request);
    ReceiptEnablesItsRule(g, scope.caseID, request, AT);
    RunAppended(scope, Start(g), delivery, after);
    RuleAndManager(scope, Run(scope, Start(g), delivery), request.kind);
  }

  /** Observing the victim takes a cold open to its discovery. */
  lemma ObservingDiscovers(scope: Scope, g: GraphState, turn: EntityID, d: CaseDecision, victim: EntityID)
    requires DecisionOf(scope, turn) == Some(d) && d.kind == Observe && d.caseID == scope.caseID
    requires VictimOf(g, scope.caseID, victim) && victim in d.targetRefs
    requires PhaseOf(g, scope.caseID) == Some(ColdOpen)
    requires scope.progressID(d.turnID, d.decisionID, BodyObserved) !in
             {"", Literal(scope.caseID, g[scope.caseID], CaseLifecycleEventID)}
    ensures PhaseOf(Run(scope, Start(g), ProgressOnce(turn, BodyObserved, Discovery)).state.graph, scope.caseID) ==
            Some(Discovery)
  {
    DerivesExactly(g, d, scope.progressID);
    ProgressAdvances(scope, g, turn,
                     TransitionRequest(scope.progressID(d.turnID, d.decisionID, BodyObserved), BodyObserved));
  }

  /** Investigating takes a discovery to the investigation. */
  lemma InvestigatingInvestigates(scope: Scope, g: GraphState, turn: EntityID, d: CaseDecision)
    requires DecisionOf(scope, turn) == Some(d) && d.kind == Investigate && d.caseID == scope.caseID
    requires scope.caseID in g && PhaseOf(g, scope.caseID) == Some(Discovery)
    requires scope.progressID(d.turnID, d.decisionID, InvestigationStarted) !in
             {"", Literal(scope.caseID, g[scope.caseID], CaseLifecycleEventID)}
    ensures PhaseOf(Run(scope, Start(g), ProgressOnce(turn, InvestigationStarted, Investigation)).state.graph,
                    scope.caseID) == Some(Investigation)
  {
    DerivesExactly(g, d, scope.progressID);
    ProgressAdvances(scope, g, turn,
                     TransitionRequest(scope.progressID(d.turnID, d.decisionID, InvestigationStarted), InvestigationStarted));
  }
}
