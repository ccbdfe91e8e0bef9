/** The case over whole runs: accusation and progress deliveries, duplicated, cut off and
    interleaved store by store, against rules and a manager acting on stale matches. */
module DenouementSafety {
  import opened Wrappers
  import opened Vocabulary
  import opened Graph
  import opened CaseDecisions
  import opened CaseFlow
  import opened Accusation

  type Worker = nat

  /** The turns whose accusation or progress some worker took up. */
  datatype Begun = Begun(accused: set<EntityID>, progressed: set<EntityID>)

  /** The stores, each running delivery's next step, every phase a fired rule ever asked for, and the turns
      ever taken up. */
  datatype World = World(state: State, stages: map<Worker, Stage>, requested: set<CasePhase>, begun: Begun)

  datatype Event =
    | DeliverAccusation(worker: Worker, turn: EntityID)
    | DeliverProgress(worker: Worker, turn: EntityID)
    | Proceed(worker: Worker, at: int, reply: Reply)
    | Crash(worker: Worker)
    | RuleFires(kind: CaseEventKind)
    | ManagerMoves(to: CasePhase)
    | Environment(next: GraphState)

  predicate SameFacts(g: GraphState, g': GraphState, e: EntityID, p: Predicate) {
    TriplesOf(Lookup(g', e), p) == TriplesOf(Lookup(g, e), p)
  }

  /** Other writers own neither the phase, nor the receipt, nor any accusation reference; victims are authored. */
  ghost predicate LeavesCase(scope: Scope, g: GraphState, next: GraphState) {
    && (forall e :: e in g ==> e in next)
    && SameFacts(g, next, scope.caseID, CaseLifecyclePhase)
    && SameFacts(g, next, scope.caseID, CaseLifecycleEventKind)
    && SameFacts(g, next, scope.caseID, CaseMemberVictim)
    && (forall turn :: SameFacts(g, next, turn, TurnAccusationRef))
  }

  function DecisionOf(scope: Scope, turn: EntityID): Option<CaseDecision> {
    if turn in scope.decisions then scope.decisions[turn].decision else None
  }

  /** The event a turn's decision asks of this case, if any. */
  function ProgressOf(scope: Scope, g: GraphState, turn: EntityID): Progress {
    match DecisionOf(scope, turn)
    case None => NoEvent
    case Some(d) => if d.caseID == scope.caseID then Derive(g, d, scope.progressID) else NoEvent
  }

  function Accused(b: Begun, turn: EntityID): Begun { b.(accused := b.accused + {turn}) }

  function Progressed(b: Begun, turn: EntityID): Begun { b.(progressed := b.progressed + {turn}) }

  function Begin(w: World, worker: Worker, next: Next, begun: Begun): World {
    if worker in w.stages || next.Done? then w else w.(stages := w.stages[worker := next.stage], begun := begun)
  }

  function ProceedStep(scope: Scope, w: World, worker: Worker, at: int, reply: Reply): World
    requires worker in w.stages
  {
    var (s', next) := Advance(scope, w.state, w.stages[worker], at, reply);
    World(s', if next.Go? then w.stages[worker := next.stage] else w.stages - {worker}, w.requested, w.begun)
  }

  ghost function Step(scope: Scope, w: World, event: Event): World {
    match event
    case DeliverAccusation(worker, turn) =>
      Begin(w, worker, Deliver(scope, w.state.graph, turn), Accused(w.begun, turn))
    case DeliverProgress(worker, turn) =>
      (match ProgressOf(scope, w.state.graph, turn)
       case Requested(request) => Begin(w, worker, Go(Recording(turn, Progressing, request)), Progressed(w.begun, turn))
       case _ => w)
    case Proceed(worker, at, reply) => if worker in w.stages then ProceedStep(scope, w, worker, at, reply) else w
    case Crash(worker) => w.(stages := w.stages - {worker})
    case RuleFires(kind) =>
      if RuleMatches(w.state.graph, scope.caseID, kind) then w.(requested := w.requested + {EdgeTo(kind)}) else w
    case ManagerMoves(to) =>
      if to in w.requested then w.(state := w.state.(graph := Transitioned(w.state.graph, scope.caseID, to))) else w
    case Environment(next) =>
      if LeavesCase(scope, w.state.graph, next) then w.(state := w.state.(graph := next)) else w
  }

  ghost function Run(scope: Scope, w: World, events: seq<Event>): World {
    if events == [] then w
    else Step(scope, Run(scope, w, events[..|events| - 1]), events[|events| - 1])
  }

  // ---- What a phase has to have earned -------------------------------------

  /** The turn carries its barrier reference, and behind it a recorded correct result. */
  predicate CommittedCorrect(scope: Scope, s: State, turn: EntityID) {
    && Own(turn, TriplesOf(Lookup(s.graph, turn), TurnAccusationRef)) == [Text(scope.resultRef(turn))]
    && turn in s.records && s.records[turn] == RecordFor(scope, turn)
    && s.records[turn].ResultRecorded? && s.records[turn].result.correct
  }

  /** Some turn really did what a case event claims: a worker took it up, and its decision asks for the event. */
  ghost predicate Earned(scope: Scope, b: Begun, s: State, kind: CaseEventKind) {
    match kind
    case AccusationCorrect => exists turn :: turn in b.accused && CommittedCorrect(scope, s, turn)
    case AccusationSubmitted => exists turn :: turn in b.accused && RecordFor(scope, turn).ResultRecorded?
    case _ => (exists turn :: turn in b.progressed &&
                 ProgressOf(scope, s.graph, turn).Requested? && ProgressOf(scope, s.graph, turn).request.kind == kind)
  }

  ghost predicate StageSound(scope: Scope, b: Begun, s: State, stage: Stage) {
    match stage
    case Recording(turn, purpose, request) =>
      Earned(scope, b, s, request.kind) && (purpose.Submitting? ==> turn in b.accused)
    case Writing(turn, purpose, request) =>
      Earned(scope, b, s, request.kind) && (purpose.Submitting? ==> turn in b.accused)
    case Committing(turn) => turn in b.accused
    case Storing(turn) => turn in b.accused
    case Landing(turn) => turn in b.accused && turn in s.records
  }

  ghost predicate RecordsExact(scope: Scope, b: Begun, s: State) {
    && (forall turn :: turn in s.records ==> turn in b.accused && s.records[turn] == RecordFor(scope, turn))
    && (forall turn :: Own(turn, TriplesOf(Lookup(s.graph, turn), TurnAccusationRef)) != [] ==>
          && turn in s.records
          && Own(turn, TriplesOf(Lookup(s.graph, turn), TurnAccusationRef)) == [Text(scope.resultRef(turn))])
  }

  ghost predicate ReceiptEarned(scope: Scope, b: Begun, s: State) {
    forall kind ::
      Literal(scope.caseID, Lookup(s.graph, scope.caseID), CaseLifecycleEventKind) == EventText(kind) ==>
        Earned(scope, b, s, kind)
  }

  ghost predicate PhaseEarned(scope: Scope, b: Begun, start: CasePhase, s: State) {
    && scope.caseID in s.graph
    && PhaseOf(s.graph, scope.caseID).Some?
    && Rank(start) <= Rank(PhaseOf(s.graph, scope.caseID).value)
    && (forall kind :: Rank(start) <= Rank(EdgeFrom(kind)) < Rank(PhaseOf(s.graph, scope.caseID).value) ==>
          Earned(scope, b, s, kind))
  }

  ghost predicate Inv(scope: Scope, start: CasePhase, w: World) {
    && RecordsExact(scope, w.begun, w.state)
    && ReceiptEarned(scope, w.begun, w.state)
    && PhaseEarned(scope, w.begun, start, w.state)
    && (forall kind :: EdgeTo(kind) in w.requested ==> Earned(scope, w.begun, w.state, kind))
    && (forall worker :: worker in w.stages ==> StageSound(scope, w.begun, w.state, w.stages[worker]))
  }

  /** Nothing that was ever earned is lost. */
  ghost predicate Keeps(scope: Scope, b: Begun, s: State, s': State) {
    && s.records.Keys <= s'.records.Keys
    && (forall kind :: Earned(scope, b, s, kind) ==> Earned(scope, b, s', kind))
  }

  lemma EventTexts(a: CaseEventKind, b: CaseEventKind)
    ensures EventText(a) == EventText(b) <==> a == b
    ensures EdgeTo(a) == EdgeTo(b) <==> a == b
  {}

  lemma EarnedKept(scope: Scope, b: Begun, s: State, s': State)
    requires scope.caseID in s.graph && scope.caseID in s'.graph
    requires SameFacts(s.graph, s'.graph, scope.caseID, CaseMemberVictim)
    requires forall turn :: CommittedCorrect(scope, s, turn) ==> CommittedCorrect(scope, s', turn)
    ensures forall kind :: Earned(scope, b, s, kind) ==> Earned(scope, b, s', kind)
  {
    forall kind | Earned(scope, b, s, kind) ensures Earned(scope, b, s', kind) {
      match kind
      case AccusationCorrect =>
        var turn :| turn in b.accused && CommittedCorrect(scope, s, turn);
        assert CommittedCorrect(scope, s', turn);
      case AccusationSubmitted =>
      case _ =>
        var turn :| turn in b.progressed && ProgressOf(scope, s.graph, turn).Requested? &&
          ProgressOf(scope, s.graph, turn).request.kind == kind;
        assert ProgressOf(scope, s'.graph, turn) == ProgressOf(scope, s.graph, turn);
    }
  }

  /** A write that leaves every reference and every record alone leaves the barriers exact. */
  lemma BarriersKept(scope: Scope, b: Begun, s: State, s': State)
    requires RecordsExact(scope, b, s) && s'.records == s.records
    requires scope.caseID in s.graph && scope.caseID in s'.graph
    requires SameFacts(s.graph, s'.graph, scope.caseID, CaseMemberVictim)
    requires forall turn :: SameFacts(s.graph, s'.graph, turn, TurnAccusationRef)
    ensures RecordsExact(scope, b, s') && Keeps(scope, b, s, s')
  {
    forall turn ensures
      Own(turn, TriplesOf(Lookup(s'.graph, turn), TurnAccusationRef)) ==
      Own(turn, TriplesOf(Lookup(s.graph, turn), TurnAccusationRef))
    {
      assert SameFacts(s.graph, s'.graph, turn, TurnAccusationRef);
    }
    EarnedKept(scope, b, s, s');
  }

  lemma ReceiptStays(scope: Scope, b: Begun, s: State, s': State)
    requires ReceiptEarned(scope, b, s) && Keeps(scope, b, s, s')
    requires SameFacts(s.graph, s'.graph, scope.caseID, CaseLifecycleEventKind)
    ensures ReceiptEarned(scope, b, s')
  {}

  // ---- The writes of a delivery --------------------------------------------

  /** A reconcile outside the phase, the kind, the victims and the references changes none of them. */
  lemma ReconcileFacts(
    g: GraphState, group: set<Predicate>, id: EntityID, desired: seq<Triple>, reply: Reply, e: EntityID, p: Predicate)
    ensures var g' := ReconcileOutcome(g, group, id, desired, reply).0;
      && g'.Keys == g.Keys
      && (p !in group || e != id ==> SameFacts(g, g', e, p))
  {
    ReconcileObjects(g, group, id, desired, reply);
  }

  /** Storing and landing only ever make a turn's barrier more complete. */
  lemma LandingKeeps(scope: Scope, b: Begun, s: State, turn: EntityID, at: int, reply: Reply)
    requires RecordsExact(scope, b, s) && turn in s.records && scope.caseID in s.graph
    ensures var (g', ok) := ReconcileOutcome(s.graph, TURN_ACCUSATION, turn, [BarrierTriple(scope, turn, at)], reply);
      var s' := s.(graph := g');
      && scope.caseID in g'
      && RecordsExact(scope, b, s') && Keeps(scope, b, s, s')
      && SameFacts(s.graph, g', scope.caseID, CaseLifecyclePhase)
      && SameFacts(s.graph, g', scope.caseID, CaseLifecycleEventKind)
      && (ok && RecordFor(scope, turn).ResultRecorded? && RecordFor(scope, turn).result.correct ==>
            CommittedCorrect(scope, s', turn))
  {
    var desired := BarrierTriple(scope, turn, at);
    var (g', ok) := ReconcileOutcome(s.graph, TURN_ACCUSATION, turn, [desired], reply);
    var s' := s.(graph := g');
    SingletonGroup(s.graph, turn, desired, reply);
    assert Own(turn, [desired]) == [Text(scope.resultRef(turn))];
    forall e ensures e != turn ==> SameFacts(s.graph, g', e, TurnAccusationRef) {
      ReconcileFacts(s.graph, TURN_ACCUSATION, turn, [desired], reply, e, TurnAccusationRef);
    }
    ReconcileFacts(s.graph, TURN_ACCUSATION, turn, [desired], reply, scope.caseID, CaseLifecyclePhase);
    ReconcileFacts(s.graph, TURN_ACCUSATION, turn, [desired], reply, scope.caseID, CaseLifecycleEventKind);
    ReconcileFacts(s.graph, TURN_ACCUSATION, turn, [desired], reply, scope.caseID, CaseMemberVictim);
    EarnedKept(scope, b, s, s');
  }

  lemma StoringKeeps(scope: Scope, b: Begun, s: State, turn: EntityID)
    requires turn in b.accused && RecordsExact(scope, b, s) && scope.caseID in s.graph
    ensures var s' := s.(records := s.records[turn := RecordFor(scope, turn)]);
      RecordsExact(scope, b, s') && Keeps(scope, b, s, s')
  {
    EarnedKept(scope, b, s, s.(records := s.records[turn := RecordFor(scope, turn)]));
  }

  lemma ReceiptKeeps(scope: Scope, b: Begun, s: State, request: TransitionRequest, at: int, reply: Reply)
    requires RecordsExact(scope, b, s) && ReceiptEarned(scope, b, s) && scope.caseID in s.graph
    requires Earned(scope, b, s, request.kind)
    ensures var g' := ReconcileOutcome(
        s.graph, CASE_LIFECYCLE_RECEIPT, scope.caseID, ReceiptTriples(scope.caseID, request, at), reply).0;
      var s' := s.(graph := g');
      && scope.caseID in g'
      && RecordsExact(scope, b, s') && ReceiptEarned(scope, b, s') && Keeps(scope, b, s, s')
      && SameFacts(s.graph, g', scope.caseID, CaseLifecyclePhase)
  {
    var desired := ReceiptTriples(scope.caseID, request, at);
    var g' := ReconcileOutcome(s.graph, CASE_LIFECYCLE_RECEIPT, scope.caseID, desired, reply).0;
    var s' := s.(graph := g');
    forall turn ensures SameFacts(s.graph, g', turn, TurnAccusationRef) {
      ReconcileFacts(s.graph, CASE_LIFECYCLE_RECEIPT, scope.caseID, desired, reply, turn, TurnAccusationRef);
    }
    ReconcileFacts(s.graph, CASE_LIFECYCLE_RECEIPT, scope.caseID, desired, reply, scope.caseID, CaseMemberVictim);
    ReconcileFacts(s.graph, CASE_LIFECYCLE_RECEIPT, scope.caseID, desired, reply, scope.caseID, CaseLifecyclePhase);
    BarriersKept(scope, b, s, s');
    ReceiptKind(s.graph, scope.caseID, request, at, reply);
    forall kind { EventTexts(kind, request.kind); }
  }

  /** After a receipt write the recorded kind is the old one or the new one. */
  lemma ReceiptKind(g: GraphState, caseID: EntityID, request: TransitionRequest, at: int, reply: Reply)
    requires caseID in g
    ensures var g' := ReconcileOutcome(g, CASE_LIFECYCLE_RECEIPT, caseID, ReceiptTriples(caseID, request, at), reply).0;
      caseID in g' &&
      (Literal(caseID, g'[caseID], CaseLifecycleEventKind) == Literal(caseID, g[caseID], CaseLifecycleEventKind) ||
       Literal(caseID, g'[caseID], CaseLifecycleEventKind) == EventText(request.kind))
  {
    var desired := ReceiptTriples(caseID, request, at);
    ReconcileObjects(g, CASE_LIFECYCLE_RECEIPT, caseID, desired, reply);
    LiteralReplaced(caseID, g[caseID], CASE_LIFECYCLE_RECEIPT, desired, CaseLifecycleEventKind);
    ReceiptLiterals(caseID, request, at);
  }

  // ---- Every step keeps the invariant --------------------------------------

  /** A state that lost nothing, with the same phase, keeps everything but the step's own obligations. */
  lemma InvFrom(scope: Scope, start: CasePhase, w: World, w': World)
    requires Inv(scope, start, w) && Keeps(scope, w.begun, w.state, w'.state)
    requires RecordsExact(scope, w.begun, w'.state) && ReceiptEarned(scope, w.begun, w'.state)
    requires scope.caseID in w'.state.graph
    requires SameFacts(w.state.graph, w'.state.graph, scope.caseID, CaseLifecyclePhase)
    requires w'.requested == w.requested && w'.begun == w.begun
    requires forall worker :: worker in w'.stages ==>
               StageSound(scope, w.begun, w'.state, w'.stages[worker]) ||
               (worker in w.stages && w'.stages[worker] == w.stages[worker])
    ensures Inv(scope, start, w')
  {
    assert PhaseOf(w'.state.graph, scope.caseID) == PhaseOf(w.state.graph, scope.caseID);
    forall worker | worker in w'.stages ensures StageSound(scope, w.begun, w'.state, w'.stages[worker]) {
      if worker in w.stages && w'.stages[worker] == w.stages[worker] {
        assert StageSound(scope, w.begun, w.state, w.stages[worker]);
      }
    }
  }

  /** What a delivery's step has to keep, and what makes its next step sound. */
  ghost predicate Preserves(scope: Scope, b: Begun, s: State, s': State, next: Next) {
    && scope.caseID in s'.graph
    && RecordsExact(scope, b, s') && ReceiptEarned(scope, b, s') && Keeps(scope, b, s, s')
    && SameFacts(s.graph, s'.graph, scope.caseID, CaseLifecyclePhase)
    && (next.Go? ==> StageSound(scope, b, s', next.stage))
  }

  ghost predicate Steady(scope: Scope, b: Begun, s: State) {
    RecordsExact(scope, b, s) && ReceiptEarned(scope, b, s) && scope.caseID in s.graph
  }

  lemma AdvanceKeeps(scope: Scope, b: Begun, s: State, stage: Stage, at: int, reply: Reply)
    requires Steady(scope, b, s) && StageSound(scope, b, s, stage)
    ensures var (s', next) := Advance(scope, s, stage, at, reply);
      Preserves(scope, b, s, s', next)
  {
    match stage
    case Recording(turn, purpose, request) => RecordingPreserves(scope, b, s, turn, purpose, request, at, reply);
    case Writing(turn, purpose, request) => WritingPreserves(scope, b, s, turn, purpose, request, at, reply);
    case Committing(turn) => CommittingSound(scope, b, s, turn);
    case Storing(turn) => StoringPreserves(scope, b, s, turn, at, reply);
    case Landing(turn) => LandingPreserves(scope, b, s, turn, at, reply);
  }

  lemma RecordingPreserves(
    scope: Scope, b: Begun, s: State, turn: EntityID, purpose: Purpose, request: TransitionRequest, at: int,
    reply: Reply)
    requires Steady(scope, b, s) && Earned(scope, b, s, request.kind) && (purpose.Submitting? ==> turn in b.accused)
    ensures var (s', next) := Advance(scope, s, Recording(turn, purpose, request), at, reply);
      Preserves(scope, b, s, s', next)
  {}

  lemma AfterRecordSound(scope: Scope, b: Begun, s: State, turn: EntityID, purpose: Purpose)
    requires purpose.Submitting? ==> turn in b.accused
    ensures var next := AfterRecord(scope, turn, purpose);
      next.Go? ==> StageSound(scope, b, s, next.stage)
  {}

  lemma WritingPreserves(
    scope: Scope, b: Begun, s: State, turn: EntityID, purpose: Purpose, request: TransitionRequest, at: int,
    reply: Reply)
    requires Steady(scope, b, s) && Earned(scope, b, s, request.kind) && (purpose.Submitting? ==> turn in b.accused)
    ensures var (s', next) := Advance(scope, s, Writing(turn, purpose, request), at, reply);
      Preserves(scope, b, s, s', next)
  {
    var (s', next) := Advance(scope, s, Writing(turn, purpose, request), at, reply);
    ReceiptKeeps(scope, b, s, request, at, reply);
    AfterRecordSound(scope, b, s', turn, purpose);
  }

  lemma StoringPreserves(scope: Scope, b: Begun, s: State, turn: EntityID, at: int, reply: Reply)
    requires turn in b.accused && Steady(scope, b, s)
    ensures var (s', next) := Advance(scope, s, Storing(turn), at, reply);
      Preserves(scope, b, s, s', next)
  {
    StoringKeeps(scope, b, s, turn);
  }

  lemma LandingPreserves(scope: Scope, b: Begun, s: State, turn: EntityID, at: int, reply: Reply)
    requires turn in b.accused && Steady(scope, b, s) && turn in s.records
    ensures var (s', next) := Advance(scope, s, Landing(turn), at, reply);
      Preserves(scope, b, s, s', next)
  {
    var (s', next) := Advance(scope, s, Landing(turn), at, reply);
    LandingKeeps(scope, b, s, turn, at, reply);
    ReceiptStays(scope, b, s, s');
    if next.Go? {
      AfterCommitSound(scope, b, s', turn);
    }
  }

  /** Only a committed correct result leads to recording that an accusation was correct. */
  lemma AfterCommitSound(scope: Scope, b: Begun, s: State, turn: EntityID)
    requires turn in b.accused
    requires RecordFor(scope, turn).ResultRecorded? && RecordFor(scope, turn).result.correct ==>
               CommittedCorrect(scope, s, turn)
    ensures var next := AfterCommit(scope, turn);
      next.Go? ==> StageSound(scope, b, s, next.stage)
  {}

  lemma CommittingSound(scope: Scope, b: Begun, s: State, turn: EntityID)
    requires turn in b.accused && RecordsExact(scope, b, s)
    ensures var next := CommitNext(scope, s, turn);
      next.Go? ==> StageSound(scope, b, s, next.stage)
  {
    if turn in s.graph && Own(turn, TriplesOf(s.graph[turn], TurnAccusationRef)) != [] {
      AfterCommitSound(scope, b, s, turn);
    }
  }

  lemma DeliverSound(scope: Scope, b: Begun, s: State, turn: EntityID)
    requires turn in b.accused
    ensures Deliver(scope, s.graph, turn).Go? ==> StageSound(scope, b, s, Deliver(scope, s.graph, turn).stage)
  {
    if Load(scope, s.graph, turn).Accusing? {
      assert RecordFor(scope, turn).ResultRecorded?;
    }
  }

  lemma TransitionedFacts(g: GraphState, caseID: EntityID, to: CasePhase, e: EntityID, p: Predicate)
    requires caseID in g
    ensures caseID in Transitioned(g, caseID, to)
    ensures p != CaseLifecyclePhase ==> SameFacts(g, Transitioned(g, caseID, to), e, p)
  {
    TransitionedPhase(g, caseID, to);
  }

  lemma ManagerKeeps(scope: Scope, start: CasePhase, w: World, to: CasePhase)
    requires Inv(scope, start, w) && to in w.requested
    ensures Inv(scope, start, w.(state := w.state.(graph := Transitioned(w.state.graph, scope.caseID, to))))
  {
    var s' := w.state.(graph := Transitioned(w.state.graph, scope.caseID, to));
    TransitionKeeps(scope, w.begun, w.state, to);
    forall kind | EdgeTo(kind) == to ensures Earned(scope, w.begun, w.state, kind) {}
    PhaseStaysEarned(scope, w.begun, start, w.state, to);
    StagesStay(scope, w, s');
  }

  lemma TransitionKeeps(scope: Scope, b: Begun, s: State, to: CasePhase)
    requires RecordsExact(scope, b, s) && ReceiptEarned(scope, b, s) && scope.caseID in s.graph
    ensures var s' := s.(graph := Transitioned(s.graph, scope.caseID, to));
      RecordsExact(scope, b, s') && ReceiptEarned(scope, b, s') && Keeps(scope, b, s, s')
  {
    var s' := s.(graph := Transitioned(s.graph, scope.caseID, to));
    forall turn ensures SameFacts(s.graph, s'.graph, turn, TurnAccusationRef) {
      TransitionedFacts(s.graph, scope.caseID, to, turn, TurnAccusationRef);
    }
    TransitionedFacts(s.graph, scope.caseID, to, scope.caseID, CaseMemberVictim);
    TransitionedFacts(s.graph, scope.caseID, to, scope.caseID, CaseLifecycleEventKind);
    BarriersKept(scope, b, s, s');
    ReceiptStays(scope, b, s, s');
  }

  lemma StagesStay(scope: Scope, w: World, s': State)
    requires forall worker :: worker in w.stages ==> StageSound(scope, w.begun, w.state, w.stages[worker])
    ensures Keeps(scope, w.begun, w.state, s') ==>
              forall worker :: worker in w.stages ==> StageSound(scope, w.begun, s', w.stages[worker])
  {
    if Keeps(scope, w.begun, w.state, s') {
      forall worker | worker in w.stages ensures StageSound(scope, w.begun, s', w.stages[worker]) {
        assert StageSound(scope, w.begun, w.state, w.stages[worker]);
      }
    }
  }

  lemma PhaseStaysEarned(scope: Scope, b: Begun, start: CasePhase, s: State, to: CasePhase)
    requires PhaseEarned(scope, b, start, s)
    requires forall kind :: EdgeTo(kind) == to ==> Earned(scope, b, s, kind)
    requires Keeps(scope, b, s, s.(graph := Transitioned(s.graph, scope.caseID, to)))
    ensures PhaseEarned(scope, b, start, s.(graph := Transitioned(s.graph, scope.caseID, to)))
  {
    var s' := s.(graph := Transitioned(s.graph, scope.caseID, to));
    TransitionedPhase(s.graph, scope.caseID, to);
    var from := PhaseOf(s.graph, scope.caseID).value;
    DeclaredEdges(from, to);
    forall kind | Rank(start) <= Rank(EdgeFrom(kind)) < Rank(PhaseOf(s'.graph, scope.caseID).value)
      ensures Earned(scope, b, s', kind)
    {
      if Rank(EdgeFrom(kind)) < Rank(from) {
        assert Earned(scope, b, s, kind);
      } else {
        assert EdgeFrom(kind) == from;
        DeclaredEdges(from, EdgeTo(kind));
        assert EdgeTo(kind) == to;
      }
    }
  }

  ghost predicate Grows(b: Begun, b': Begun) {
    b.accused <= b'.accused && b.progressed <= b'.progressed
  }

  lemma EarnedGrows(scope: Scope, b: Begun, b': Begun, s: State, kind: CaseEventKind)
    requires Grows(b, b') && Earned(scope, b, s, kind)
    ensures Earned(scope, b', s, kind)
  {
    match kind
    case AccusationCorrect =>
      var turn :| turn in b.accused && CommittedCorrect(scope, s, turn);
      assert turn in b'.accused;
    case AccusationSubmitted =>
      var turn :| turn in b.accused && RecordFor(scope, turn).ResultRecorded?;
      assert turn in b'.accused;
    case _ =>
      var turn :| turn in b.progressed && ProgressOf(scope, s.graph, turn).Requested? &&
        ProgressOf(scope, s.graph, turn).request.kind == kind;
      assert turn in b'.progressed;
  }

  lemma GrowKeeps(scope: Scope, start: CasePhase, w: World, begun: Begun)
    requires Inv(scope, start, w) && Grows(w.begun, begun)
    ensures Inv(scope, start, w.(begun := begun))
  {
    forall kind ensures Earned(scope, w.begun, w.state, kind) ==> Earned(scope, begun, w.state, kind) {
      if Earned(scope, w.begun, w.state, kind) {
        EarnedGrows(scope, w.begun, begun, w.state, kind);
      }
    }
    forall worker | worker in w.stages ensures StageSound(scope, begun, w.state, w.stages[worker]) {
      assert StageSound(scope, w.begun, w.state, w.stages[worker]);
    }
  }

  lemma BeginKeeps(scope: Scope, start: CasePhase, w: World, worker: Worker, next: Next, begun: Begun)
    requires Inv(scope, start, w) && Grows(w.begun, begun)
    requires next.Go? ==> StageSound(scope, begun, w.state, next.stage)
    ensures Inv(scope, start, Begin(w, worker, next, begun))
  {
    GrowKeeps(scope, start, w, begun);
    if worker !in w.stages && next.Go? {
      InvFrom(scope, start, w.(begun := begun), Begin(w, worker, next, begun));
    }
  }

  lemma RuleKeeps(scope: Scope, start: CasePhase, w: World, kind: CaseEventKind)
    requires Inv(scope, start, w) && RuleMatches(w.state.graph, scope.caseID, kind)
    ensures Inv(scope, start, w.(requested := w.requested + {EdgeTo(kind)}))
  {
    assert Earned(scope, w.begun, w.state, kind);
    forall other { EventTexts(other, kind); }
  }

  lemma StepKeeps(scope: Scope, start: CasePhase, w: World, event: Event)
    requires Inv(scope, start, w)
    ensures Inv(scope, start, Step(scope, w, event))
  {
    match event
    case DeliverAccusation(worker, turn) =>
      DeliverSound(scope, Accused(w.begun, turn), w.state, turn);
      BeginKeeps(scope, start, w, worker, Deliver(scope, w.state.graph, turn), Accused(w.begun, turn));
    case DeliverProgress(worker, turn) =>
      if ProgressOf(scope, w.state.graph, turn).Requested? {
        var request := ProgressOf(scope, w.state.graph, turn).request;
        assert Earned(scope, Progressed(w.begun, turn), w.state, request.kind);
        BeginKeeps(scope, start, w, worker, Go(Recording(turn, Progressing, request)), Progressed(w.begun, turn));
      }
    case Proceed(worker, at, reply) => if worker in w.stages { ProceedKeeps(scope, start, w, worker, at, reply); }
    case Crash(worker) => InvFrom(scope, start, w, w.(stages := w.stages - {worker}));
    case RuleFires(kind) => if RuleMatches(w.state.graph, scope.caseID, kind) { RuleKeeps(scope, start, w, kind); }
    case ManagerMoves(to) => if to in w.requested { ManagerKeeps(scope, start, w, to); }
    case Environment(next) =>
      if LeavesCase(scope, w.state.graph, next) { EnvironmentKeeps(scope, start, w, next); }
  }

  lemma ProceedKeeps(scope: Scope, start: CasePhase, w: World, worker: Worker, at: int, reply: Reply)
    requires Inv(scope, start, w) && worker in w.stages
    ensures Inv(scope, start, ProceedStep(scope, w, worker, at, reply))
    ensures SameFacts(w.state.graph, ProceedStep(scope, w, worker, at, reply).state.graph, scope.caseID, CaseLifecyclePhase)
  {
    assert StageSound(scope, w.begun, w.state, w.stages[worker]);
    AdvanceKeeps(scope, w.begun, w.state, w.stages[worker], at, reply);
    InvFrom(scope, start, w, ProceedStep(scope, w, worker, at, reply));
  }

  lemma EnvironmentKeeps(scope: Scope, start: CasePhase, w: World, next: GraphState)
    requires Inv(scope, start, w) && LeavesCase(scope, w.state.graph, next)
    ensures Inv(scope, start, w.(state := w.state.(graph := next)))
  {
    var w' := w.(state := w.state.(graph := next));
    BarriersKept(scope, w.begun, w.state, w'.state);
    ReceiptStays(scope, w.begun, w.state, w'.state);
    InvFrom(scope, start, w, w');
  }

  /** A freshly authored case: a declared phase, no receipt, and no accusation recorded anywhere. */
  ghost predicate Authored(scope: Scope, g: GraphState) {
    && scope.caseID in g
    && PhaseOf(g, scope.caseID).Some?
    && Literal(scope.caseID, g[scope.caseID], CaseLifecycleEventKind) == ""
    && forall turn :: Own(turn, TriplesOf(Lookup(g, turn), TurnAccusationRef)) == []
  }

  function Start(g: GraphState): World {
    World(State(g, map[]), map[], {}, Begun({}, {}))
  }

  lemma {:induction false} RunKeeps(scope: Scope, g: GraphState, events: seq<Event>)
    requires Authored(scope, g)
    ensures Inv(scope, PhaseOf(g, scope.caseID).value, Run(scope, Start(g), events))
    decreases |events|
  {
    if events != [] {
      var earlier := events[..|events| - 1];
      RunKeeps(scope, g, earlier);
      StepKeeps(scope, PhaseOf(g, scope.caseID).value, Run(scope, Start(g), earlier), events[|events| - 1]);
    }
  }

  // ---- Main results --------------------------------------------------------

  /** The phase stays, or moves along exactly one declared edge, at every step anything takes. */
  lemma PhaseMovesOneEdge(scope: Scope, start: CasePhase, w: World, event: Event)
    requires Inv(scope, start, w)
    ensures var before, after := PhaseOf(w.state.graph, scope.caseID), PhaseOf(Step(scope, w, event).state.graph, scope.caseID);
      before.Some? && after.Some? && (after == before || Declared(before.value, after.value))
  {
    if event.ManagerMoves? {
      TransitionedPhase(w.state.graph, scope.caseID, event.to);
    } else {
      OthersLeavePhase(scope, start, w, event);
    }
  }

  lemma OthersLeavePhase(scope: Scope, start: CasePhase, w: World, event: Event)
    requires Inv(scope, start, w) && !event.ManagerMoves?
    ensures SameFacts(w.state.graph, Step(scope, w, event).state.graph, scope.caseID, CaseLifecyclePhase)
    ensures scope.caseID in Step(scope, w, event).state.graph
  {
    if event.Proceed? && event.worker in w.stages {
      ProceedKeeps(scope, start, w, event.worker, event.at, event.reply);
    }
  }

  /** Over any run the phase never goes back, and every edge it took was earned: by then some turn whose decision
      observes the victim, investigates or accuses had been taken up, or had committed a correct accusation. */
  lemma {:induction false} PhasesAreEarned(scope: Scope, g: GraphState, events: seq<Event>, k: nat)
    requires Authored(scope, g) && k <= |events|
    ensures var earlier, w := Run(scope, Start(g), events[..k]), Run(scope, Start(g), events);
      && PhaseOf(earlier.state.graph, scope.caseID).Some? && PhaseOf(w.state.graph, scope.caseID).Some?
      && Rank(PhaseOf(earlier.state.graph, scope.caseID).value) <= Rank(PhaseOf(w.state.graph, scope.caseID).value)
      && forall kind ::
           Rank(PhaseOf(g, scope.caseID).value) <= Rank(EdgeFrom(kind)) < Rank(PhaseOf(w.state.graph, scope.caseID).value) ==>
             Earned(scope, w.begun, w.state, kind)
    decreases |events| - k
  {
    var start := PhaseOf(g, scope.caseID).value;
    RunKeeps(scope, g, events);
    RunKeeps(scope, g, events[..k]);
    if k < |events| {
      PhasesAreEarned(scope, g, events, k + 1);
      assert events[..k + 1][..k] == events[..k];
      PhaseMovesOneEdge(scope, start, Run(scope, Start(g), events[..k]), events[k]);
    } else {
      assert events[..k] == events;
    }
  }

  /** A turn counts as taken up only when one of its own deliveries is among the events. */
  lemma {:induction false} BegunWasDelivered(scope: Scope, g: GraphState, events: seq<Event>, turn: EntityID)
    ensures turn in Run(scope, Start(g), events).begun.accused ==>
              exists k :: 0 <= k < |events| && events[k].DeliverAccusation? && events[k].turn == turn
    ensures turn in Run(scope, Start(g), events).begun.progressed ==>
              exists k :: 0 <= k < |events| && events[k].DeliverProgress? && events[k].turn == turn
    decreases |events|
  {
    if events != [] {
      var earlier := events[..|events| - 1];
      BegunWasDelivered(scope, g, earlier, turn);
      assert forall k :: 0 <= k < |earlier| ==> earlier[k] == events[k];
    }
  }

  /** Denouement safety: whatever raced, a case that reached denouement holds an accused turn with a committed
      result whose decision names the culprit, the method and the motive of the solution. */
  lemma DenouementIsEarned(scope: Scope, g: GraphState, events: seq<Event>)
    requires Authored(scope, g) && PhaseOf(g, scope.caseID) != Some(Denouement)
    requires PhaseOf(Run(scope, Start(g), events).state.graph, scope.caseID) == Some(Denouement)
    ensures var s := Run(scope, Start(g), events).state;
      exists turn :: turn in Run(scope, Start(g), events).begun.accused && CommittedCorrect(scope, s, turn) &&
        DecisionOf(scope, turn).Some? &&
        var d := DecisionOf(scope, turn).value;
        d.culpritRef == scope.solution.culprit && d.methodRef == scope.solution.method_ &&
        d.motiveRef == scope.solution.motive
  {
    var s := Run(scope, Start(g), events).state;
    RunKeeps(scope, g, events);
    var b := Run(scope, Start(g), events).begun;
    assert Earned(scope, b, s, AccusationCorrect);
    var turn :| turn in b.accused && CommittedCorrect(scope, s, turn);
    CorrectMeansExactMatch(scope, turn);
  }
}
