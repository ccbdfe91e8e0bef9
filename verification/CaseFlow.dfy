/** The mystery case's lifecycle: event receipts written by components, and the rule and
    manager that turn a receipt into one transition. */
module CaseFlow {
  import opened Wrappers
  import opened Vocabulary
  import opened Graph
  import opened CaseDecisions

  const SOURCE := "caseflow-receipt"

  datatype TransitionRequest = TransitionRequest(eventID: string, kind: CaseEventKind)

  function EdgeFrom(kind: CaseEventKind): CasePhase {
    match kind
    case BodyObserved => ColdOpen
    case InvestigationStarted => Discovery
    case AccusationSubmitted => Investigation
    case AccusationCorrect => Accusation
  }

  function EdgeTo(kind: CaseEventKind): CasePhase {
    match kind
    case BodyObserved => Discovery
    case InvestigationStarted => Investigation
    case AccusationSubmitted => Accusation
    case AccusationCorrect => Denouement
  }

  // ---- Reading a case ------------------------------------------------------

  /** The objects an entity states about itself among some triples, in stored order. */
  function Own(id: EntityID, triples: seq<Triple>): seq<Value> {
    if triples == [] then []
    else if triples[0].subject == id then [triples[0].obj] + Own(id, triples[1..])
    else Own(id, triples[1..])
  }

  /** The first value an entity states about itself, when it is text. */
  function Literal(id: EntityID, s: EntityState, p: Predicate): string {
    var own := Own(id, TriplesOf(s, p));
    if own != [] && own[0].Text? then own[0].text else ""
  }

  function PhaseOf(g: GraphState, caseID: EntityID): Option<CasePhase> {
    ParseCasePhase(Literal(caseID, Lookup(g, caseID), CaseLifecyclePhase))
  }

  // ---- Recording one event -------------------------------------------------

  datatype RecordPlan = WriteReceipt | Settled | OutOfOrder | Unrecordable

  /** What a recorder that reads the case now would go on to do. An event already recorded, or
      overtaken by the case, needs no write; one ahead of the case can never be recorded here. */
  function RecordPlanFor(g: GraphState, caseID: EntityID, request: TransitionRequest): RecordPlan {
    if request.eventID == "" || caseID !in g then Unrecordable
    else if Literal(caseID, g[caseID], CaseLifecycleEventID) == request.eventID then Settled
    else match PhaseOf(g, caseID)
      case None => Unrecordable
      case Some(current) =>
        if Rank(current) > Rank(EdgeFrom(request.kind)) then Settled
        else if Rank(current) < Rank(EdgeFrom(request.kind)) then OutOfOrder
        else WriteReceipt
  }

  function ReceiptTriple(caseID: EntityID, p: Predicate, text: string, at: int): Triple {
    Triple(caseID, p, Text(text), Provenance(SOURCE, at, "", false))
  }

  /** The four facts of one receipt, written as one group. */
  function ReceiptTriples(caseID: EntityID, request: TransitionRequest, at: int): seq<Triple> {
    [ReceiptTriple(caseID, CaseLifecycleEventID, request.eventID, at),
     ReceiptTriple(caseID, CaseLifecycleEventKind, EventText(request.kind), at),
     ReceiptTriple(caseID, CaseLifecycleFromPhase, PhaseText(EdgeFrom(request.kind)), at),
     ReceiptTriple(caseID, CaseLifecycleToPhase, PhaseText(EdgeTo(request.kind)), at)]
  }

  // ---- Advancing the phase -------------------------------------------------

  /** The built-in rule of one edge matches the case: its phase, and a complete receipt for that edge. */
  predicate RuleMatches(g: GraphState, caseID: EntityID, kind: CaseEventKind) {
    && caseID in g
    && Literal(caseID, g[caseID], CaseLifecyclePhase) == PhaseText(EdgeFrom(kind))
    && Literal(caseID, g[caseID], CaseLifecycleEventID) != ""
    && Literal(caseID, g[caseID], CaseLifecycleEventKind) == EventText(kind)
    && Literal(caseID, g[caseID], CaseLifecycleFromPhase) == PhaseText(EdgeFrom(kind))
    && Literal(caseID, g[caseID], CaseLifecycleToPhase) == PhaseText(EdgeTo(kind))
  }

  /** The declared transition table. */
  predicate Declared(from: CasePhase, to: CasePhase) {
    match from
    case ColdOpen => to == Discovery
    case Discovery => to == Investigation
    case Investigation => to == Accusation
    case Accusation => to == Denouement
    case Denouement => false
  }

  /** Every declared edge is the edge of exactly one event kind, and goes one rank up. */
  lemma DeclaredEdges(from: CasePhase, to: CasePhase)
    ensures Declared(from, to) <==> Rank(to) == Rank(from) + 1
    ensures Declared(from, to) <==> exists kind :: EdgeFrom(kind) == from && EdgeTo(kind) == to
  {
    if Declared(from, to) {
      var kind := match from
        case ColdOpen => BodyObserved
        case Discovery => InvestigationStarted
        case Investigation => AccusationSubmitted
        case _ => AccusationCorrect;
      assert EdgeFrom(kind) == from && EdgeTo(kind) == to;
    }
  }

  function PhaseTriple(caseID: EntityID, phase: CasePhase): Triple {
    Triple(caseID, CaseLifecyclePhase, Text(PhaseText(phase)), Provenance("lifecycle", 0, "", false))
  }

  /** The lifecycle manager asked for a phase: it moves only along a declared transition. */
  function Transitioned(g: GraphState, caseID: EntityID, to: CasePhase): GraphState {
    match PhaseOf(g, caseID)
    case None => g
    case Some(from) =>
      if caseID in g && Declared(from, to)
      then g[caseID := Replace(g[caseID], {CaseLifecyclePhase}, [PhaseTriple(caseID, to)])]
      else g
  }

  // ---- Deriving progress from a structured decision ------------------------

  datatype Progress = NoEvent | Requested(request: TransitionRequest) | Malformed

  /** The case event one decision asks for, if any. */
  function Derive(g: GraphState, d: CaseDecision, eventID: (string, string, CaseEventKind) -> string): Progress {
    match d.kind
    case Observe =>
      if d.caseID !in g then Malformed
      else
        var victims := Own(d.caseID, TriplesOf(g[d.caseID], CaseMemberVictim));
        if |victims| != 1 || !victims[0].Text? || victims[0].text == "" then Malformed
        else if victims[0].text in d.targetRefs
        then Requested(TransitionRequest(eventID(d.turnID, d.decisionID, BodyObserved), BodyObserved))
        else NoEvent
    case Investigate =>
      Requested(TransitionRequest(eventID(d.turnID, d.decisionID, InvestigationStarted), InvestigationStarted))
    case _ => NoEvent
  }

  /** The one victim a case names. */
  predicate VictimOf(g: GraphState, caseID: EntityID, victim: EntityID) {
    caseID in g && victim != "" && Own(caseID, TriplesOf(g[caseID], CaseMemberVictim)) == [Text(victim)]
  }

  /** Looking at the body asks for its observation, investigating for the investigation, and nothing else for anything;
      only looking in a case without one readable victim is malformed. */
  lemma DerivesExactly(g: GraphState, d: CaseDecision, eventID: (string, string, CaseEventKind) -> string)
    ensures forall request :: Derive(g, d, eventID) == Requested(request) <==>
              || (d.kind == Observe && (exists victim :: VictimOf(g, d.caseID, victim) && victim in d.targetRefs) &&
                  request == TransitionRequest(eventID(d.turnID, d.decisionID, BodyObserved), BodyObserved))
              || (d.kind == Investigate &&
                  request == TransitionRequest(eventID(d.turnID, d.decisionID, InvestigationStarted), InvestigationStarted))
    ensures Derive(g, d, eventID) == Malformed <==> d.kind == Observe && forall victim :: !VictimOf(g, d.caseID, victim)
  {
    if d.kind == Observe && d.caseID in g {
      var victims := Own(d.caseID, TriplesOf(g[d.caseID], CaseMemberVictim));
      if |victims| == 1 && victims[0].Text? && victims[0].text != "" {
        assert victims == [Text(victims[0].text)];
        assert VictimOf(g, d.caseID, victims[0].text);
      }
    }
  }

  // ---- What writes to a case change ----------------------------------------

  lemma LiteralFromTriples(id: EntityID, s: EntityState, t: EntityState, p: Predicate)
    requires TriplesOf(s, p) == TriplesOf(t, p)
    ensures Literal(id, s, p) == Literal(id, t, p)
  {}

  lemma LiteralReplaced(id: EntityID, s: EntityState, group: set<Predicate>, desired: seq<Triple>, p: Predicate)
    requires forall i :: 0 <= i < |desired| ==> desired[i].pred in group
    ensures Literal(id, Replace(s, group, desired), p) ==
            if p in group then Literal(id, desired, p) else Literal(id, s, p)
  {
    ReplaceTriples(s, group, desired, p);
  }

  lemma OwnOne(id: EntityID, t: Triple)
    requires t.subject == id
    ensures Own(id, [t]) == [t.obj]
  {}

  lemma ReceiptLiteral(caseID: EntityID, request: TransitionRequest, at: int, i: nat)
    requires i < 4
    ensures var r := ReceiptTriples(caseID, request, at);
      r[i].obj.Text? && Literal(caseID, r, r[i].pred) == r[i].obj.text
  {
    var r := ReceiptTriples(caseID, request, at);
    FourTriples(r[0], r[1], r[2], r[3], r[i].pred);
    assert TriplesOf(r, r[i].pred) == [r[i]];
    OwnOne(caseID, r[i]);
  }

  /** The entity states an event, its edge and nothing contradicting it. */
  predicate StatesEvent(caseID: EntityID, s: EntityState, request: TransitionRequest) {
    && Literal(caseID, s, CaseLifecycleEventID) == request.eventID
    && Literal(caseID, s, CaseLifecycleEventKind) == EventText(request.kind)
    && Literal(caseID, s, CaseLifecycleFromPhase) == PhaseText(EdgeFrom(request.kind))
    && Literal(caseID, s, CaseLifecycleToPhase) == PhaseText(EdgeTo(request.kind))
  }

  /** A receipt reads back as the event it was written for. */
  lemma ReceiptLiterals(caseID: EntityID, request: TransitionRequest, at: int)
    ensures StatesEvent(caseID, ReceiptTriples(caseID, request, at), request)
  {
    ReceiptLiteral(caseID, request, at, 0);
    ReceiptLiteral(caseID, request, at, 1);
    ReceiptLiteral(caseID, request, at, 2);
    ReceiptLiteral(caseID, request, at, 3);
  }

  lemma ReceiptReplaces(caseID: EntityID, s: EntityState, request: TransitionRequest, at: int)
    ensures var s' := Replace(s, CASE_LIFECYCLE_RECEIPT, ReceiptTriples(caseID, request, at));
      StatesEvent(caseID, s', request) &&
      Literal(caseID, s', CaseLifecyclePhase) == Literal(caseID, s, CaseLifecyclePhase)
  {
    var desired := ReceiptTriples(caseID, request, at);
    ReceiptLiterals(caseID, request, at);
    LiteralReplaced(caseID, s, CASE_LIFECYCLE_RECEIPT, desired, CaseLifecyclePhase);
    LiteralReplaced(caseID, s, CASE_LIFECYCLE_RECEIPT, desired, CaseLifecycleEventID);
    LiteralReplaced(caseID, s, CASE_LIFECYCLE_RECEIPT, desired, CaseLifecycleEventKind);
    LiteralReplaced(caseID, s, CASE_LIFECYCLE_RECEIPT, desired, CaseLifecycleFromPhase);
    LiteralReplaced(caseID, s, CASE_LIFECYCLE_RECEIPT, desired, CaseLifecycleToPhase);
  }

  lemma StatedRule(g: GraphState, caseID: EntityID, request: TransitionRequest, kind: CaseEventKind)
    requires caseID in g && StatesEvent(caseID, g[caseID], request) && request.eventID != ""
    requires Literal(caseID, g[caseID], CaseLifecyclePhase) == PhaseText(EdgeFrom(request.kind))
    ensures RuleMatches(g, caseID, kind) <==> kind == request.kind
  {
    assert EventText(kind) == EventText(request.kind) <==> kind == request.kind;
  }

  /** A receipt that lands while the case stands at its edge enables that edge's rule and no other, and
      the transition the rule asks for is one the manager makes. */
  lemma ReceiptEnablesItsRule(g: GraphState, caseID: EntityID, request: TransitionRequest, at: int)
    requires caseID in g && RecordPlanFor(g, caseID, request) == WriteReceipt
    ensures var g' := g[caseID := Replace(g[caseID], CASE_LIFECYCLE_RECEIPT, ReceiptTriples(caseID, request, at))];
      && (forall kind :: RuleMatches(g', caseID, kind) <==> kind == request.kind)
      && PhaseOf(Transitioned(g', caseID, EdgeTo(request.kind)), caseID) == Some(EdgeTo(request.kind))
      && RecordPlanFor(g', caseID, request) == Settled
  {
    var g' := g[caseID := Replace(g[caseID], CASE_LIFECYCLE_RECEIPT, ReceiptTriples(caseID, request, at))];
    StandsAtEdge(g, caseID, request);
    ReceiptReplaces(caseID, g[caseID], request, at);
    forall kind { StatedRule(g', caseID, request, kind); }
    DeclaredEdges(EdgeFrom(request.kind), EdgeTo(request.kind));
    TransitionedPhase(g', caseID, EdgeTo(request.kind));
  }

  /** Only an event of the case's own phase is written. */
  lemma StandsAtEdge(g: GraphState, caseID: EntityID, request: TransitionRequest)
    requires caseID in g && RecordPlanFor(g, caseID, request) == WriteReceipt
    ensures PhaseOf(g, caseID) == Some(EdgeFrom(request.kind)) && request.eventID != ""
    ensures Literal(caseID, g[caseID], CaseLifecyclePhase) == PhaseText(EdgeFrom(request.kind))
  {
    var current := PhaseOf(g, caseID).value;
    assert Rank(current) == Rank(EdgeFrom(request.kind));
    PhaseTextRoundTrip(current, Literal(caseID, g[caseID], CaseLifecyclePhase));
  }

  /** A transition moves the phase along its edge, and nothing else about any entity. */
  lemma TransitionedPhase(g: GraphState, caseID: EntityID, to: CasePhase)
    requires caseID in g
    ensures var g' := Transitioned(g, caseID, to);
      && g'.Keys == g.Keys
      && (forall e :: e in g && e != caseID ==> g'[e] == g[e])
      && (forall p :: p != CaseLifecyclePhase ==> TriplesOf(g'[caseID], p) == TriplesOf(g[caseID], p))
      && PhaseOf(g', caseID) == (match PhaseOf(g, caseID)
                                 case None => None
                                 case Some(from) => if Declared(from, to) then Some(to) else Some(from))
  {
    var desired := [PhaseTriple(caseID, to)];
    forall p ensures p != CaseLifecyclePhase ==>
      TriplesOf(Replace(g[caseID], {CaseLifecyclePhase}, desired), p) == TriplesOf(g[caseID], p)
    {
      ReplaceTriples(g[caseID], {CaseLifecyclePhase}, desired, p);
    }
    LiteralReplaced(caseID, g[caseID], {CaseLifecyclePhase}, desired, CaseLifecyclePhase);
    WithinEverything(desired, {CaseLifecyclePhase});
    assert Own(caseID, desired) == [Text(PhaseText(to))];
  }

  // ---- What recording leaves behind ----------------------------------------

  lemma MatchedLiteral(caseID: EntityID, s: EntityState, request: TransitionRequest, at: int, i: nat)
    requires i < 4 && GroupMatches(s, CASE_LIFECYCLE_RECEIPT, ReceiptTriples(caseID, request, at))
    ensures var r := ReceiptTriples(caseID, request, at);
      Literal(caseID, s, r[i].pred) == Literal(caseID, r, r[i].pred)
  {
    var r := ReceiptTriples(caseID, request, at);
    ReceiptHoldsOne(caseID, request, at, i);
    SoleMatch(s, CASE_LIFECYCLE_RECEIPT, r, r[i]);
    LiteralFromTriples(caseID, s, r, r[i].pred);
  }

  lemma ReceiptHoldsOne(caseID: EntityID, request: TransitionRequest, at: int, i: nat)
    requires i < 4
    ensures var r := ReceiptTriples(caseID, request, at);
      r[i].pred in CASE_LIFECYCLE_RECEIPT && TriplesOf(r, r[i].pred) == [r[i]]
  {
    var r := ReceiptTriples(caseID, request, at);
    FourTriples(r[0], r[1], r[2], r[3], r[i].pred);
  }

  /** A matching group holds the one desired fact of a predicate. */
  lemma SoleMatch(s: EntityState, group: set<Predicate>, desired: seq<Triple>, t: Triple)
    requires GroupMatches(s, group, desired) && t.pred in group && TriplesOf(desired, t.pred) == [t]
    ensures TriplesOf(s, t.pred) == TriplesOf(desired, t.pred)
  {
    MatchingTriples(s, group, desired, t.pred);
    OneInMultiset(TriplesOf(s, t.pred), t);
  }

  lemma OneInMultiset(s: seq<Triple>, t: Triple)
    requires multiset(s) == multiset([t])
    ensures s == [t]
  {
    assert |multiset(s)| == |s| == 1;
    assert s[0] in multiset(s);
  }

  /** A confirmed receipt write, confirmed by reply or by reading back, leaves the case stating the event. */
  lemma ConfirmedReceiptStates(g: GraphState, caseID: EntityID, request: TransitionRequest, at: int, reply: Reply)
    requires ReconcileOutcome(g, CASE_LIFECYCLE_RECEIPT, caseID, ReceiptTriples(caseID, request, at), reply).1
    ensures var g' := ReconcileOutcome(g, CASE_LIFECYCLE_RECEIPT, caseID, ReceiptTriples(caseID, request, at), reply).0;
      caseID in g' && StatesEvent(caseID, g'[caseID], request)
  {
    var g' := ReconcileOutcome(g, CASE_LIFECYCLE_RECEIPT, caseID, ReceiptTriples(caseID, request, at), reply).0;
    if reply.Committed? {
      ReceiptReplaces(caseID, g[caseID], request, at);
    } else {
      ReceiptLiterals(caseID, request, at);
      MatchedLiteral(caseID, g'[caseID], request, at, 0);
      MatchedLiteral(caseID, g'[caseID], request, at, 1);
      MatchedLiteral(caseID, g'[caseID], request, at, 2);
      MatchedLiteral(caseID, g'[caseID], request, at, 3);
    }
  }

  /** The graphs differ at most in some groups of facts. */
  ghost predicate Elsewhere(g: GraphState, g': GraphState, groups: set<Predicate>) {
    && g'.Keys == g.Keys
    && forall e, p :: e in g && p !in groups ==> TriplesOf(g'[e], p) == TriplesOf(g[e], p)
  }

  lemma ReconcileElsewhere(g: GraphState, group: set<Predicate>, id: EntityID, desired: seq<Triple>, reply: Reply)
    ensures Elsewhere(g, ReconcileOutcome(g, group, id, desired, reply).0, group)
  {
    ReconcileObjects(g, group, id, desired, reply);
  }

  /** A case that already carries the event, or has left its phase behind. */
  predicate Overtaken(g: GraphState, caseID: EntityID, request: TransitionRequest) {
    && caseID in g
    && (|| Literal(caseID, g[caseID], CaseLifecycleEventID) == request.eventID
        || (PhaseOf(g, caseID).Some? && Rank(PhaseOf(g, caseID).value) > Rank(EdgeFrom(request.kind))))
  }

  /** A case that has not yet come to the event's phase. */
  predicate TooEarly(g: GraphState, caseID: EntityID, request: TransitionRequest) {
    && caseID in g && request.eventID != ""
    && Literal(caseID, g[caseID], CaseLifecycleEventID) != request.eventID
    && PhaseOf(g, caseID).Some? && Rank(PhaseOf(g, caseID).value) < Rank(EdgeFrom(request.kind))
  }
}
