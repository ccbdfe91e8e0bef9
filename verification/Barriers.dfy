/** What one undisturbed delivery leaves behind when no correct accusation is made: the turn's barrier, and nothing else. */
module Barriers {
  import opened Wrappers
  import opened Vocabulary
  import opened Graph
  import opened CaseDecisions
  import opened CaseFlow
  import opened Accusation

  /** The turn exists, names its decision's own slot, and holds no accusation result yet. */
  predicate Open(scope: Scope, g: GraphState, turn: EntityID) {
    && turn in g
    && OwnSole(turn, g[turn], TurnCaseDecisionRef) == Some(scope.decisionRef(turn))
    && turn in scope.decisions && scope.decisions[turn].turnID == scope.instance(turn)
    && Own(turn, TriplesOf(g[turn], TurnAccusationRef)) == []
  }

  /** The decision stored for the turn is valid and the turn's own. */
  predicate Decides(scope: Scope, turn: EntityID, d: CaseDecision) {
    && turn in scope.decisions && scope.decisions[turn].decision == Some(d)
    && DecisionValid(scope.grammar, d) && d.turnID == scope.instance(turn)
  }

  /** The record is stored under the turn, the turn alone gains its reference, and no other fact of any entity moves. */
  ghost predicate Barred(scope: Scope, s: State, s': State, turn: EntityID, record: AccusationRecord) {
    && s'.records == s.records[turn := record]
    && s'.graph.Keys == s.graph.Keys && turn in s.graph
    && (forall id :: id in s.graph && id != turn ==> s'.graph[id] == s.graph[id])
    && (forall p :: p != TurnAccusationRef ==> TriplesOf(s'.graph[turn], p) == TriplesOf(s.graph[turn], p))
    && |TriplesOf(s'.graph[turn], TurnAccusationRef)| == 1
    && var ref := TriplesOf(s'.graph[turn], TurnAccusationRef)[0];
    && ref.subject == turn && ref.obj == Text(scope.resultRef(turn))
  }

  /** The delivery is acknowledged with this barrier, and a redelivery is acknowledged and moves nothing. */
  ghost predicate EndsBarred(scope: Scope, s: State, turn: EntityID, at: int, record: AccusationRecord) {
    var (s', verdict, _) := Drive(scope, s, Deliver(scope, s.graph, turn), at, []);
    && verdict == Acknowledged && Barred(scope, s, s', turn, record)
    && forall again: int :: Redelivery(scope, s', turn, again)
  }

  predicate Redelivery(scope: Scope, s: State, turn: EntityID, at: int) {
    Drive(scope, s, Deliver(scope, s.graph, turn), at, []) == (s, Acknowledged, [])
  }

  // ---- The commit ----------------------------------------------------------

  function Landed(scope: Scope, s: State, turn: EntityID, at: int): State
    requires turn in s.graph
  {
    State(s.graph[turn := Replace(s.graph[turn], TURN_ACCUSATION, [BarrierTriple(scope, turn, at)])],
          s.records[turn := RecordFor(scope, turn)])
  }

  lemma LandedIsBarred(scope: Scope, s: State, turn: EntityID, at: int)
    requires turn in s.graph
    ensures Barred(scope, s, Landed(scope, s, turn, at), turn, RecordFor(scope, turn))
    ensures Own(turn, TriplesOf(Landed(scope, s, turn, at).graph[turn], TurnAccusationRef)) == [Text(scope.resultRef(turn))]
  {
    var desired := [BarrierTriple(scope, turn, at)];
    forall p ensures p != TurnAccusationRef ==> TriplesOf(Landed(scope, s, turn, at).graph[turn], p) == TriplesOf(s.graph[turn], p) {
      ReplaceTriples(s.graph[turn], TURN_ACCUSATION, desired, p);
    }
    ReplaceTriples(s.graph[turn], TURN_ACCUSATION, desired, TurnAccusationRef);
    WithinEverything(desired, {TurnAccusationRef});
    OwnOne(turn, desired[0]);
  }

  /** A commit on an open turn stores and lands the record; on its own outcome it answers at once. */
  lemma CommitDrives(scope: Scope, s: State, turn: EntityID, at: int)
    requires turn in s.graph && Own(turn, TriplesOf(s.graph[turn], TurnAccusationRef)) == []
    ensures Drive(scope, s, Go(Committing(turn)), at, []) ==
            Drive(scope, Landed(scope, s, turn, at), AfterCommit(scope, turn), at, [])
  {
    var stored := s.(records := s.records[turn := RecordFor(scope, turn)]);
    assert Advance(scope, s, Committing(turn), at, Committed) == (s, Go(Storing(turn)));
    assert Advance(scope, s, Storing(turn), at, Committed) == (stored, Go(Landing(turn)));
    LandingDrives(scope, stored, turn, at);
    assert Landed(scope, stored, turn, at) == Landed(scope, s, turn, at);
  }

  lemma LandingDrives(scope: Scope, s: State, turn: EntityID, at: int)
    requires turn in s.graph && turn in s.records && s.records[turn] == RecordFor(scope, turn)
    ensures Drive(scope, s, Go(Landing(turn)), at, []) ==
            Drive(scope, Landed(scope, s, turn, at), AfterCommit(scope, turn), at, [])
  {
    assert s.records[turn := RecordFor(scope, turn)] == s.records;
    assert Advance(scope, s, Landing(turn), at, Committed) == (Landed(scope, s, turn, at), AfterCommit(scope, turn));
  }

  lemma CommitAgain(scope: Scope, s: State, turn: EntityID, at: int)
    requires turn in s.graph && Own(turn, TriplesOf(s.graph[turn], TurnAccusationRef)) == [Text(scope.resultRef(turn))]
    requires turn in s.records && s.records[turn] == RecordFor(scope, turn) && AfterCommit(scope, turn) == Done(Acknowledged)
    ensures Drive(scope, s, Go(Committing(turn)), at, []) == (s, Acknowledged, [])
  {}

  // ---- Turns that do not accuse --------------------------------------------

  /** The turn decided nothing, or validly something other than an accusation. */
  predicate Quiet(scope: Scope, turn: EntityID) {
    && turn in scope.decisions
    && (|| scope.decisions[turn].decision == None
        || (&& Decides(scope, turn, scope.decisions[turn].decision.value)
            && scope.decisions[turn].decision.value.kind != Accuse))
  }

  /** A turn whose decision accuses nobody ends with a record that holds no result, and the case does not move. */
  lemma QuietTurnEnds(scope: Scope, s: State, turn: EntityID, at: int)
    requires Open(scope, s.graph, turn)
    requires Quiet(scope, turn)
    ensures EndsBarred(scope, s, turn, at, BarrierOnly(scope.instance(turn)))
  {
    var after := Landed(scope, s, turn, at);
    LandedIsBarred(scope, s, turn, at);
    CommitDrives(scope, s, turn, at);
    QuietLoads(scope, s.graph, turn);
    QuietLoads(scope, after.graph, turn);
    forall again: int ensures Redelivery(scope, after, turn, again) {
      CommitAgain(scope, after, turn, again);
    }
  }

  lemma QuietLoads(scope: Scope, g: GraphState, turn: EntityID)
    requires turn in g && OwnSole(turn, g[turn], TurnCaseDecisionRef) == Some(scope.decisionRef(turn))
    requires turn in scope.decisions && scope.decisions[turn].turnID == scope.instance(turn)
    requires Quiet(scope, turn)
    ensures Deliver(scope, g, turn) == Go(Committing(turn))
    ensures RecordFor(scope, turn) == BarrierOnly(scope.instance(turn)) && AfterCommit(scope, turn) == Done(Acknowledged)
  {}

  // ---- Accusations that name the wrong solution ----------------------------

  /** The case stands at one declared phase. */
  predicate StandsAt(scope: Scope, g: GraphState, phase: CasePhase) {
    scope.caseID in g && OwnSole(scope.caseID, g[scope.caseID], CaseLifecyclePhase) == Some(PhaseText(phase))
  }

  /** An accusation of this case that misses the culprit, the method or the motive. */
  predicate Misses(scope: Scope, d: CaseDecision) {
    && d.kind == Accuse && d.caseID == scope.caseID && d.decisionID != ""
    && (d.culpritRef != scope.solution.culprit || d.methodRef != scope.solution.method_ || d.motiveRef != scope.solution.motive)
  }

  function WrongResult(scope: Scope, d: CaseDecision): AccusationResult {
    AccusationResult(scope.resultID(d.turnID, d.caseID, d.decisionID), d.turnID, d.caseID, d.decisionID, false)
  }

  /** Verified once the case has come to its accusation, a wrong one ends with a result that says no more than that it
      is wrong: no receipt is written, and the case and every other entity stand as they stood. */
  lemma WrongAccusationEnds(scope: Scope, s: State, turn: EntityID, d: CaseDecision, phase: CasePhase, at: int)
    requires Open(scope, s.graph, turn) && Decides(scope, turn, d) && Misses(scope, d)
    requires StandsAt(scope, s.graph, phase) && phase in {CasePhase.Accusation, Denouement} && turn != scope.caseID
    ensures EndsBarred(scope, s, turn, at, ResultRecorded(scope.instance(turn), WrongResult(scope, d)))
  {
    var after := Landed(scope, s, turn, at);
    LandedIsBarred(scope, s, turn, at);
    CommitDrives(scope, s, turn, at);
    WrongDrives(scope, s, turn, d, phase, at);
    forall again: int ensures Redelivery(scope, after, turn, again) {
      WrongDrives(scope, after, turn, d, phase, again);
      CommitAgain(scope, after, turn, again);
    }
  }

  lemma WrongDrives(scope: Scope, s: State, turn: EntityID, d: CaseDecision, phase: CasePhase, at: int)
    requires turn in s.graph && OwnSole(turn, s.graph[turn], TurnCaseDecisionRef) == Some(scope.decisionRef(turn))
    requires turn in scope.decisions && scope.decisions[turn].turnID == scope.instance(turn)
    requires Decides(scope, turn, d) && Misses(scope, d)
    requires StandsAt(scope, s.graph, phase) && phase in {CasePhase.Accusation, Denouement}
    ensures Drive(scope, s, Deliver(scope, s.graph, turn), at, []) == Drive(scope, s, Go(Committing(turn)), at, [])
    ensures RecordFor(scope, turn) == ResultRecorded(scope.instance(turn), WrongResult(scope, d))
    ensures AfterCommit(scope, turn) == Done(Acknowledged)
  {
    Stands(scope, s.graph, phase);
    var stage := Recording(turn, Submitting(phase), TransitionRequest(d.decisionID, AccusationSubmitted));
    assert Deliver(scope, s.graph, turn) == Go(stage);
    assert Advance(scope, s, stage, at, Committed) == (s, Go(Committing(turn)));
  }

  lemma Stands(scope: Scope, g: GraphState, phase: CasePhase)
    requires StandsAt(scope, g, phase)
    ensures PhaseOf(g, scope.caseID) == Some(phase) && ParseCasePhase(PhaseText(phase)) == Some(phase)
  {
    var own := Own(scope.caseID, TriplesOf(g[scope.caseID], CaseLifecyclePhase));
    assert |own| == 1 && own[0].Text?;
    PhaseTextRoundTrip(phase, own[0].text);
  }

  /** An accusation the case has not come to yet is left for redelivery: nothing is stored and nothing moves. */
  lemma EarlyAccusationWaits(scope: Scope, s: State, turn: EntityID, d: CaseDecision, phase: CasePhase, at: int)
    requires Open(scope, s.graph, turn) && Decides(scope, turn, d)
    requires d.kind == Accuse && d.caseID == scope.caseID
    requires StandsAt(scope, s.graph, phase) && phase in {ColdOpen, Discovery}
    requires Literal(scope.caseID, s.graph[scope.caseID], CaseLifecycleEventID) != d.decisionID
    ensures Drive(scope, s, Deliver(scope, s.graph, turn), at, []) == (s, Redelivered, [])
  {
    Stands(scope, s.graph, phase);
    var stage := Recording(turn, Submitting(phase), TransitionRequest(d.decisionID, AccusationSubmitted));
    assert Deliver(scope, s.graph, turn) == Go(stage);
    assert Advance(scope, s, stage, at, Committed) == (s, Done(Redelivered));
  }
}
