/** What read-then-merge costs a case: a delivery that read before the phase moved overwrites the receipt written
    after it. Nothing unsafe follows, but the overwritten event no longer moves the case. */
module ReceiptRaces {
  import opened Wrappers
  import opened Vocabulary
  import opened Graph
  import opened CaseDecisions
  import opened CaseFlow
  import opened Accusation
  import opened DenouementSafety

  const AT := 0

  function Receipted(g: GraphState, caseID: EntityID, request: TransitionRequest): GraphState
    requires caseID in g
  {
    g[caseID := Replace(g[caseID], CASE_LIFECYCLE_RECEIPT, ReceiptTriples(caseID, request, AT))]
  }

  /** Exactly one rule can match after a receipt landed: that of the receipt's own event, and only while the case
      still stands where the event starts from. */
  lemma ReceiptRules(g: GraphState, caseID: EntityID, request: TransitionRequest, kind: CaseEventKind)
    requires caseID in g
    ensures var g' := Receipted(g, caseID, request);
      && Literal(caseID, g'[caseID], CaseLifecyclePhase) == Literal(caseID, g[caseID], CaseLifecyclePhase)
      && (RuleMatches(g', caseID, kind) <==>
            kind == request.kind && request.eventID != "" &&
            Literal(caseID, g[caseID], CaseLifecyclePhase) == PhaseText(EdgeFrom(kind)))
  {
    ReceiptReplaces(caseID, g[caseID], request, AT);
    EventTexts(kind, request.kind);
  }

  function ProgressRequest(scope: Scope, g: GraphState, turn: EntityID): TransitionRequest
    requires ProgressOf(scope, g, turn).Requested?
  {
    ProgressOf(scope, g, turn).request
  }

  /** A case at its discovery, a turn that starts the investigation, and another that accuses. */
  ghost predicate Contested(scope: Scope, g: GraphState, early: EntityID, accuser: EntityID, d: CaseDecision) {
    && scope.caseID in g && PhaseOf(g, scope.caseID) == Some(Discovery)
    && Literal(scope.caseID, g[scope.caseID], CaseLifecycleEventID) == ""
    && ProgressOf(scope, g, early).Requested? && ProgressRequest(scope, g, early).kind == InvestigationStarted
    && ProgressRequest(scope, g, early).eventID !in {"", d.decisionID} && d.decisionID != ""
    && Load(scope, Investigated(scope, g, early), accuser) == Accusing(d, Investigation)
  }

  /** The case after the early turn's receipt moved it to the investigation. */
  function Investigated(scope: Scope, g: GraphState, early: EntityID): GraphState
    requires scope.caseID in g && ProgressOf(scope, g, early).Requested?
  {
    Transitioned(Receipted(g, scope.caseID, ProgressRequest(scope, g, early)), scope.caseID, Investigation)
  }

  /** Worker 0 reads the case and is held up; worker 1 reads it for a redelivery of the same turn. */
  function BothRead(early: EntityID): seq<Event> {
    [DeliverProgress(0, early), Proceed(0, AT, Committed), DeliverProgress(1, early), Proceed(1, AT, Committed)]
  }

  /** Worker 1 writes, and the rule and the manager move the case. */
  const MOVES: seq<Event> := [Proceed(1, AT, Committed), RuleFires(InvestigationStarted), ManagerMoves(Investigation)]

  /** Worker 2 receipts the accusation. */
  function Accuses(accuser: EntityID): seq<Event> {
    [DeliverAccusation(2, accuser), Proceed(2, AT, Committed), Proceed(2, AT, Committed)]
  }

  function Before(early: EntityID, accuser: EntityID): seq<Event> {
    BothRead(early) + MOVES + Accuses(accuser)
  }

  lemma {:induction false} RunAppended(scope: Scope, w: World, a: seq<Event>, b: seq<Event>)
    ensures Run(scope, w, a + b) == Run(scope, Run(scope, w, a), b)
    decreases |b|
  {
    if b == [] {
      assert a + b == a;
    } else {
      RunAppended(scope, w, a, b[..|b| - 1]);
      assert (a + b)[..|a + b| - 1] == a + b[..|b| - 1];
    }
  }

  lemma RunOne(scope: Scope, w: World, before: seq<Event>, e: Event)
    ensures Run(scope, w, before + [e]) == Step(scope, Run(scope, w, before), e)
  {
    assert (before + [e])[..|before|] == before;
  }

  lemma RunThree(scope: Scope, w: World, a: Event, b: Event, c: Event)
    ensures Run(scope, w, [a, b, c]) == Step(scope, Step(scope, Step(scope, w, a), b), c)
  {
    RunOne(scope, w, [], a);
    RunOne(scope, w, [a], b);
    RunOne(scope, w, [a, b], c);
    assert [] + [a] == [a] && [a] + [b] == [a, b] && [a, b] + [c] == [a, b, c];
  }

  function Late(scope: Scope, g: GraphState, early: EntityID): Stage
    requires ProgressOf(scope, g, early).Requested?
  {
    Writing(early, Progressing, ProgressRequest(scope, g, early))
  }

  function Reading(scope: Scope, g: GraphState, early: EntityID): Stage
    requires ProgressOf(scope, g, early).Requested?
  {
    Recording(early, Progressing, ProgressRequest(scope, g, early))
  }

  /** Both deliveries of the early turn read the case before either writes; one lands. */
  lemma EarlySteps(scope: Scope, g: GraphState, early: EntityID, accuser: EntityID, d: CaseDecision)
    requires Contested(scope, g, early, accuser, d)
    ensures var request, b := ProgressRequest(scope, g, early), Begun({}, {early});
      var s := State(g, map[]);
      var read, late := Reading(scope, g, early), Late(scope, g, early);
      && Step(scope, Start(g), DeliverProgress(0, early)) == World(s, map[0 := read], {}, b)
      && Step(scope, World(s, map[0 := read], {}, b), Proceed(0, AT, Committed)) == World(s, map[0 := late], {}, b)
      && Step(scope, World(s, map[0 := late], {}, b), DeliverProgress(1, early)) ==
         World(s, map[0 := late, 1 := read], {}, b)
      && Step(scope, World(s, map[0 := late, 1 := read], {}, b), Proceed(1, AT, Committed)) ==
         World(s, map[0 := late, 1 := late], {}, b)
  {
    assert RecordPlanFor(g, scope.caseID, ProgressRequest(scope, g, early)) == WriteReceipt;
    assert {} + {early} == {early} && {early} + {early} == {early};
  }

  /** A receipt that lands ends its delivery. */
  lemma WriteLands(scope: Scope, w: World, worker: Worker, turn: EntityID, purpose: Purpose, request: TransitionRequest)
    requires worker in w.stages && w.stages[worker] == Writing(turn, purpose, request)
    requires scope.caseID in w.state.graph && AfterRecord(scope, turn, purpose).Done?
    ensures Step(scope, w, Proceed(worker, AT, Committed)) ==
            World(w.state.(graph := Receipted(w.state.graph, scope.caseID, request)), w.stages - {worker},
                  w.requested, w.begun)
  {}

  lemma MoveSteps(scope: Scope, g: GraphState, early: EntityID, accuser: EntityID, d: CaseDecision)
    requires Contested(scope, g, early, accuser, d)
    ensures var request, b := ProgressRequest(scope, g, early), Begun({}, {early});
      var late := Late(scope, g, early);
      var written := State(Receipted(g, scope.caseID, request), map[]);
      var moved := State(Investigated(scope, g, early), map[]);
      && Step(scope, World(State(g, map[]), map[0 := late, 1 := late], {}, b), Proceed(1, AT, Committed)) ==
         World(written, map[0 := late], {}, b)
      && Step(scope, World(written, map[0 := late], {}, b), RuleFires(InvestigationStarted)) ==
         World(written, map[0 := late], {Investigation}, b)
      && Step(scope, World(written, map[0 := late], {Investigation}, b), ManagerMoves(Investigation)) ==
         World(moved, map[0 := late], {Investigation}, b)
  {
    var late, request := Late(scope, g, early), ProgressRequest(scope, g, early);
    StartedMatches(g, scope.caseID, request);
    WriteLands(scope, World(State(g, map[]), map[0 := late, 1 := late], {}, Begun({}, {early})), 1, early, Progressing,
               request);
    assert map[0 := Late(scope, g, early), 1 := Late(scope, g, early)] - {1} == map[0 := Late(scope, g, early)];
    assert {} + {Investigation} == {Investigation};
  }

  lemma StartedMatches(g: GraphState, caseID: EntityID, request: TransitionRequest)
    requires caseID in g && PhaseOf(g, caseID) == Some(Discovery)
    requires request.kind == InvestigationStarted && request.eventID != ""
    ensures RuleMatches(Receipted(g, caseID, request), caseID, InvestigationStarted)
  {
    PhaseTextRoundTrip(Discovery, Literal(caseID, g[caseID], CaseLifecyclePhase));
    ReceiptRules(g, caseID, request, InvestigationStarted);
  }

  function Submitted(d: CaseDecision): TransitionRequest {
    TransitionRequest(d.decisionID, AccusationSubmitted)
  }

  /** At the investigation the accusation's receipt is written, and its rule matches. */
  lemma AccusationSteps(scope: Scope, g: GraphState, early: EntityID, accuser: EntityID, d: CaseDecision)
    requires Contested(scope, g, early, accuser, d)
    ensures scope.caseID in Investigated(scope, g, early)
    ensures var b, b' := Begun({}, {early}), Begun({accuser}, {early});
      var late, moved := Late(scope, g, early), State(Investigated(scope, g, early), map[]);
      var read := Recording(accuser, Submitting(Investigation), Submitted(d));
      var write := Writing(accuser, Submitting(Investigation), Submitted(d));
      var receipted := State(Receipted(moved.graph, scope.caseID, Submitted(d)), map[]);
      && Step(scope, World(moved, map[0 := late], {Investigation}, b), DeliverAccusation(2, accuser)) ==
         World(moved, map[0 := late, 2 := read], {Investigation}, b')
      && Step(scope, World(moved, map[0 := late, 2 := read], {Investigation}, b'), Proceed(2, AT, Committed)) ==
         World(moved, map[0 := late, 2 := write], {Investigation}, b')
      && Step(scope, World(moved, map[0 := late, 2 := write], {Investigation}, b'), Proceed(2, AT, Committed)) ==
         World(receipted, map[0 := late], {Investigation}, b')
  {
    InvestigatedFacts(scope, g, early, accuser, d);
    var late := Late(scope, g, early);
    var write := Writing(accuser, Submitting(Investigation), Submitted(d));
    WriteLands(scope, World(State(Investigated(scope, g, early), map[]), map[0 := late, 2 := write], {Investigation},
                            Begun({accuser}, {early})), 2, accuser, Submitting(Investigation), Submitted(d));
    assert map[0 := late, 2 := write] - {2} == map[0 := late];
    assert {} + {accuser} == {accuser};
  }

  lemma InvestigatedFacts(scope: Scope, g: GraphState, early: EntityID, accuser: EntityID, d: CaseDecision)
    requires Contested(scope, g, early, accuser, d)
    ensures var g' := Investigated(scope, g, early);
      && scope.caseID in g' && Literal(scope.caseID, g'[scope.caseID], CaseLifecyclePhase) == PhaseText(Investigation)
      && RecordPlanFor(g', scope.caseID, Submitted(d)) == WriteReceipt
  {
    var request := ProgressRequest(scope, g, early);
    MovedToInvestigation(g, scope.caseID, request);
    assert Investigated(scope, g, early) == Transitioned(Receipted(g, scope.caseID, request), scope.caseID, Investigation);
  }

  lemma MovedToInvestigation(g: GraphState, caseID: EntityID, request: TransitionRequest)
    requires caseID in g && PhaseOf(g, caseID) == Some(Discovery)
    ensures var g' := Transitioned(Receipted(g, caseID, request), caseID, Investigation);
      && caseID in g' && PhaseOf(g', caseID) == Some(Investigation)
      && Literal(caseID, g'[caseID], CaseLifecyclePhase) == PhaseText(Investigation)
      && Literal(caseID, g'[caseID], CaseLifecycleEventID) == request.eventID
  {
    ReceiptReplaces(caseID, g[caseID], request, AT);
    MovedOn(Receipted(g, caseID, request), caseID);
  }

  lemma MovedOn(g: GraphState, caseID: EntityID)
    requires caseID in g && PhaseOf(g, caseID) == Some(Discovery)
    ensures var g' := Transitioned(g, caseID, Investigation);
      && caseID in g' && PhaseOf(g', caseID) == Some(Investigation)
      && Literal(caseID, g'[caseID], CaseLifecyclePhase) == PhaseText(Investigation)
      && Literal(caseID, g'[caseID], CaseLifecycleEventID) == Literal(caseID, g[caseID], CaseLifecycleEventID)
  {
    var g' := Transitioned(g, caseID, Investigation);
    TransitionedPhase(g, caseID, Investigation);
    PhaseTextRoundTrip(Investigation, Literal(caseID, g'[caseID], CaseLifecyclePhase));
    LiteralFromTriples(caseID, g[caseID], g'[caseID], CaseLifecycleEventID);
  }

  /** After an accusation's receipt landed, a late receipt of an earlier event leaves no rule to match. */
  lemma LateReceiptSilences(g: GraphState, caseID: EntityID, submitted: TransitionRequest, late: TransitionRequest)
    requires caseID in g && Literal(caseID, g[caseID], CaseLifecyclePhase) == PhaseText(Investigation)
    requires submitted.kind == AccusationSubmitted && submitted.eventID != "" && late.kind == InvestigationStarted
    ensures var receipted := Receipted(g, caseID, submitted);
      && RuleMatches(receipted, caseID, AccusationSubmitted)
      && (forall kind :: !RuleMatches(Receipted(receipted, caseID, late), caseID, kind))
      && PhaseOf(Receipted(receipted, caseID, late), caseID) == Some(Investigation)
  {
    var receipted := Receipted(g, caseID, submitted);
    ReceiptRules(g, caseID, submitted, AccusationSubmitted);
    forall kind ensures !RuleMatches(Receipted(receipted, caseID, late), caseID, kind) {
      ReceiptRules(receipted, caseID, late, kind);
    }
    ReceiptRules(receipted, caseID, late, BodyObserved);
  }

  /** The race is real: a run in which the accusation's rule matches, and one late write of the early event later no rule
      matches any more, though the phase has not moved. */
  lemma ReceiptCanBeLost(scope: Scope, g: GraphState, early: EntityID, accuser: EntityID, d: CaseDecision)
    requires Contested(scope, g, early, accuser, d)
    ensures var w := Run(scope, Start(g), Before(early, accuser));
      var w' := Step(scope, w, Proceed(0, AT, Committed));
      && RuleMatches(w.state.graph, scope.caseID, AccusationSubmitted)
      && (forall kind :: !RuleMatches(w'.state.graph, scope.caseID, kind))
      && PhaseOf(w'.state.graph, scope.caseID) == Some(Investigation)
  {
    var w := AccusationReceipted(scope, g, early, accuser, d);
    InvestigatedFacts(scope, g, early, accuser, d);
    WriteLands(scope, w, 0, early, Progressing, ProgressRequest(scope, g, early));
    LateReceiptSilences(
      Investigated(scope, g, early), scope.caseID, Submitted(d), ProgressRequest(scope, g, early));
  }

  lemma RunBothRead(scope: Scope, g: GraphState, early: EntityID, accuser: EntityID, d: CaseDecision)
    requires Contested(scope, g, early, accuser, d)
    ensures Run(scope, Start(g), BothRead(early)) ==
            World(State(g, map[]), map[0 := Late(scope, g, early), 1 := Late(scope, g, early)], {}, Begun({}, {early}))
  {
    var e := BothRead(early);
    EarlySteps(scope, g, early, accuser, d);
    RunThree(scope, Start(g), e[0], e[1], e[2]);
    assert e[..3] == [e[0], e[1], e[2]];
  }

  lemma RunMoves(scope: Scope, g: GraphState, early: EntityID, accuser: EntityID, d: CaseDecision)
    requires Contested(scope, g, early, accuser, d)
    ensures var late, b := Late(scope, g, early), Begun({}, {early});
      Run(scope, World(State(g, map[]), map[0 := late, 1 := late], {}, b), MOVES) ==
      World(State(Investigated(scope, g, early), map[]), map[0 := late], {Investigation}, b)
  {
    var late, b := Late(scope, g, early), Begun({}, {early});
    MoveSteps(scope, g, early, accuser, d);
    RunThree(scope, World(State(g, map[]), map[0 := late, 1 := late], {}, b), MOVES[0], MOVES[1], MOVES[2]);
  }

  lemma RunAccuses(scope: Scope, g: GraphState, early: EntityID, accuser: EntityID, d: CaseDecision)
    requires Contested(scope, g, early, accuser, d)
    ensures scope.caseID in Investigated(scope, g, early)
    ensures var moved := State(Investigated(scope, g, early), map[]);
      var w := Run(scope, World(moved, map[0 := Late(scope, g, early)], {Investigation}, Begun({}, {early})), Accuses(accuser));
      && w.state.graph == Receipted(moved.graph, scope.caseID, Submitted(d))
      && 0 in w.stages && w.stages[0] == Late(scope, g, early)
  {
    var e := Accuses(accuser);
    AccusationSteps(scope, g, early, accuser, d);
    RunThree(scope, World(State(Investigated(scope, g, early), map[]), map[0 := Late(scope, g, early)], {Investigation},
                          Begun({}, {early})), e[0], e[1], e[2]);
  }

  lemma AccusationReceipted(scope: Scope, g: GraphState, early: EntityID, accuser: EntityID, d: CaseDecision)
    returns (w: World)
    requires Contested(scope, g, early, accuser, d)
    ensures w == Run(scope, Start(g), Before(early, accuser))
    ensures 0 in w.stages && w.stages[0] == Late(scope, g, early)
    ensures scope.caseID in Investigated(scope, g, early)
    ensures w.state.graph == Receipted(Investigated(scope, g, early), scope.caseID, Submitted(d))
  {
    w := Run(scope, Start(g), Before(early, accuser));
    RunAppended(scope, Start(g), BothRead(early), MOVES);
    RunAppended(scope, Start(g), BothRead(early) + MOVES, Accuses(accuser));
    RunBothRead(scope, g, early, accuser, d);
    RunMoves(scope, g, early, accuser, d);
    RunAccuses(scope, g, early, accuser, d);
  }

  // ---- Such a case exists --------------------------------------------------

  const EARLY := CaseDecision("d1", "t1", "case", "actor", Investigate, [], [], "", "", "")
  const ACCUSED := CaseDecision("d2", "t2", "case", "actor", Accuse, [], [], "who", "how", "why")

  function ExampleScope(): Scope {
    Scope(
      "case",
      Grammar(_ => true, _ => true, (turnID, caseID, actor) => if turnID == "t2" then "d2" else "d1"),
      turn => if turn == "accuser" then "t2" else "t1",
      map["early" := DecisionRecord("t1", Some(EARLY)), "accuser" := DecisionRecord("t2", Some(ACCUSED))],
      Solution("who", "how", "why"),
      (turnID, caseID, decisionID) => "result", (turnID, decisionID, kind) => "progress",
      turn => "decision", turn => "accusation")
  }

  function ExampleGraph(): GraphState {
    map["case" := [PhaseTriple("case", Discovery)],
        "early" := [],
        "accuser" := [Triple("accuser", TurnCaseDecisionRef, Text("decision"), Provenance("", 0, "", false))]]
  }

  lemma OneFact(t: Triple, p: Predicate)
    ensures TriplesOf([t], p) == if t.pred == p then [t] else []
  {
    OneTriple(t, p);
  }

  lemma ExampleStands()
    ensures "case" in ExampleGraph() && PhaseOf(ExampleGraph(), "case") == Some(Discovery)
    ensures Literal("case", ExampleGraph()["case"], CaseLifecycleEventID) == ""
  {
    OneFact(PhaseTriple("case", Discovery), CaseLifecyclePhase);
    OneFact(PhaseTriple("case", Discovery), CaseLifecycleEventID);
    PhaseTextRoundTrip(Discovery, PhaseText(Discovery));
  }

  lemma ExampleProgress()
    ensures ProgressOf(ExampleScope(), ExampleGraph(), "early") ==
            Requested(TransitionRequest("progress", InvestigationStarted))
  {}

  lemma ExampleAccuses(g: GraphState)
    requires "case" in g && OwnSole("case", g["case"], CaseLifecyclePhase) == Some(PhaseText(Investigation))
    requires "accuser" in g && g["accuser"] == ExampleGraph()["accuser"]
    ensures Load(ExampleScope(), g, "accuser") == Accusing(ACCUSED, Investigation)
  {
    OneFact(g["accuser"][0], TurnCaseDecisionRef);
    PhaseTextRoundTrip(Investigation, PhaseText(Investigation));
    assert DecisionValid(ExampleScope().grammar, ACCUSED);
  }

  /** The hypotheses of the race are met by a plain case with two turns. */
  lemma ContestedExample()
    ensures Contested(ExampleScope(), ExampleGraph(), "early", "accuser", ACCUSED)
  {
    var scope, g := ExampleScope(), ExampleGraph();
    ExampleStands();
    ExampleProgress();
    MovedAlone(g, "case", TransitionRequest("progress", InvestigationStarted));
    ExampleAccuses(Investigated(scope, g, "early"));
  }

  lemma MovedAlone(g: GraphState, caseID: EntityID, request: TransitionRequest)
    requires caseID in g && PhaseOf(g, caseID) == Some(Discovery)
    ensures var g' := Transitioned(Receipted(g, caseID, request), caseID, Investigation);
      && caseID in g' && OwnSole(caseID, g'[caseID], CaseLifecyclePhase) == Some(PhaseText(Investigation))
      && (forall e :: e in g && e != caseID ==> e in g' && g'[e] == g[e])
  {
    var receipted, desired := Receipted(g, caseID, request), [PhaseTriple(caseID, Investigation)];
    ReceiptReplaces(caseID, g[caseID], request, AT);
    ReplaceTriples(receipted[caseID], {CaseLifecyclePhase}, desired, CaseLifecyclePhase);
    OneFact(desired[0], CaseLifecyclePhase);
    OwnOne(caseID, desired[0]);
  }
}
