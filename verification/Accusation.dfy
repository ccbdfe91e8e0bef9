/** Handling one accusation delivery: bind identities, record that it was submitted, verify
    it exactly, commit the result, and only then record that it was correct. */
module Accusation {
  import opened Wrappers
  import opened Vocabulary
  import opened Graph
  import opened CaseDecisions
  import opened CaseFlow

  const VERIFIER := "accusation-verifier"

  datatype Solution = Solution(culprit: EntityID, method_: EntityID, motive: EntityID)

  datatype AccusationResult = AccusationResult(
    resultID: string, turnID: string, caseID: EntityID, decisionID: string, correct: bool)

  datatype AccusationRecord =
    | BarrierOnly(turnID: string)
    | ResultRecorded(turnID: string, result: AccusationResult)

  /** One authored case: its decisions by turn, its canonical solution, and the deterministic
      identities and reference slots. */
  datatype Scope = Scope(
    caseID: EntityID,
    grammar: Grammar,
    instance: EntityID -> string,
    decisions: map<EntityID, DecisionRecord>,
    solution: Solution,
    resultID: (string, EntityID, string) -> string,
    progressID: (string, string, CaseEventKind) -> string,
    decisionRef: EntityID -> string,
    resultRef: EntityID -> string)

  predicate Matches(d: CaseDecision, solution: Solution) {
    d.culpritRef == solution.culprit && d.methodRef == solution.method_ && d.motiveRef == solution.motive
  }

  /** A result is correct or not, and says nothing about which of the three names was wrong. */
  function Verify(scope: Scope, d: CaseDecision): Option<AccusationResult> {
    if !DecisionValid(scope.grammar, d) || d.kind != Accuse then None
    else Some(AccusationResult(scope.resultID(d.turnID, d.caseID, d.decisionID),
                               d.turnID, d.caseID, d.decisionID, Matches(d, scope.solution)))
  }

  // ---- Loading -------------------------------------------------------------

  datatype Loaded = TurnGone | Foreign | NotAccusing | Accusing(decision: CaseDecision, phase: CasePhase)

  function OwnSole(id: EntityID, s: EntityState, p: Predicate): Option<string> {
    var own := Own(id, TriplesOf(s, p));
    if |own| == 1 && own[0].Text? then Some(own[0].text) else None
  }

  /** Binds the trigger, the reference slot, the record, the decision and the case to one another. */
  function Load(scope: Scope, g: GraphState, turn: EntityID): Loaded {
    if turn !in g then TurnGone
    else if OwnSole(turn, g[turn], TurnCaseDecisionRef) != Some(scope.decisionRef(turn)) then Foreign
    else if turn !in scope.decisions || scope.decisions[turn].turnID != scope.instance(turn) then Foreign
    else match scope.decisions[turn].decision
      case None => NotAccusing
      case Some(d) =>
        if !DecisionValid(scope.grammar, d) || d.turnID != scope.instance(turn) then Foreign
        else if d.kind != Accuse then NotAccusing
        else if d.caseID != scope.caseID || scope.caseID !in g then Foreign
        else match OwnSole(scope.caseID, g[scope.caseID], CaseLifecyclePhase)
          case None => Foreign
          case Some(text) =>
            match ParseCasePhase(text)
            case None => Foreign
            case Some(phase) => Accusing(d, phase)
  }

  /** The one record a turn's barrier can hold, determined by its stored decision. */
  function RecordFor(scope: Scope, turn: EntityID): AccusationRecord {
    if turn in scope.decisions && scope.decisions[turn].decision.Some? &&
       Verify(scope, scope.decisions[turn].decision.value).Some?
    then ResultRecorded(scope.instance(turn), Verify(scope, scope.decisions[turn].decision.value).value)
    else BarrierOnly(scope.instance(turn))
  }

  // ---- One delivery, step by step ------------------------------------------

  datatype State = State(graph: GraphState, records: map<EntityID, AccusationRecord>)

  /** Why an event is being recorded, and so what follows once it is. */
  datatype Purpose = Submitting(phase: CasePhase) | Correcting | Progressing

  datatype Stage =
    | Recording(turn: EntityID, purpose: Purpose, request: TransitionRequest)
    | Writing(turn: EntityID, purpose: Purpose, request: TransitionRequest)
    | Committing(turn: EntityID)
    | Storing(turn: EntityID)
    | Landing(turn: EntityID)

  datatype Verdict = Acknowledged | Redelivered | TurnFailed | Terminated

  datatype Next = Go(stage: Stage) | Done(verdict: Verdict)

  function Deliver(scope: Scope, g: GraphState, turn: EntityID): Next {
    match Load(scope, g, turn)
    case TurnGone => Done(Terminated)
    case Foreign => Done(TurnFailed)
    case NotAccusing => Go(Committing(turn))
    case Accusing(d, phase) =>
      Go(Recording(turn, Submitting(phase), TransitionRequest(d.decisionID, AccusationSubmitted)))
  }

  /** After a receipt is settled: the phase seen at load time decides whether to verify. */
  function AfterRecord(scope: Scope, turn: EntityID, purpose: Purpose): Next {
    match purpose
    case Progressing => Done(Acknowledged)
    case Correcting => Done(Acknowledged)
    case Submitting(phase) =>
      if phase == Investigation then Done(Redelivered)
      else if phase != Accusation && phase != Denouement then Done(TurnFailed)
      else if !RecordFor(scope, turn).ResultRecorded? then Done(TurnFailed)
      else Go(Committing(turn))
  }

  function AfterCommit(scope: Scope, turn: EntityID): Next {
    match RecordFor(scope, turn)
    case BarrierOnly(_) => Done(Acknowledged)
    case ResultRecorded(_, result) =>
      if result.correct
      then Go(Recording(turn, Correcting, TransitionRequest(result.resultID, AccusationCorrect)))
      else Done(Acknowledged)
  }

  function BarrierTriple(scope: Scope, turn: EntityID, at: int): Triple {
    Triple(turn, TurnAccusationRef, Text(scope.resultRef(turn)), Provenance(VERIFIER, at, turn, false))
  }

  /** What the turn already holds decides whether a commit converges, conflicts, or writes. */
  function CommitNext(scope: Scope, s: State, turn: EntityID): Next {
    if turn !in s.graph then Done(TurnFailed)
    else
      var refs := Own(turn, TriplesOf(s.graph[turn], TurnAccusationRef));
      if refs == [] then Go(Storing(turn))
      else if refs == [Text(scope.resultRef(turn))] && turn in s.records && s.records[turn] == RecordFor(scope, turn)
      then AfterCommit(scope, turn)
      else Done(TurnFailed)
  }

  /** One store interaction; a read that gets no answer ends the delivery like a lost write. */
  function Advance(scope: Scope, s: State, stage: Stage, at: int, reply: Reply): (State, Next) {
    match stage
    case Recording(turn, purpose, request) =>
      (s, if reply != Committed then Done(Redelivered)
          else match RecordPlanFor(s.graph, scope.caseID, request)
            case WriteReceipt => Go(Writing(turn, purpose, request))
            case Settled => AfterRecord(scope, turn, purpose)
            case OutOfOrder => Done(Redelivered)
            case Unrecordable => Done(Redelivered))
    case Writing(turn, purpose, request) =>
      var (g', ok) := ReconcileOutcome(
        s.graph, CASE_LIFECYCLE_RECEIPT, scope.caseID, ReceiptTriples(scope.caseID, request, at), reply);
      (s.(graph := g'), if ok then AfterRecord(scope, turn, purpose) else Done(Redelivered))
    case Committing(turn) =>
      (s, if reply != Committed then Done(Redelivered) else CommitNext(scope, s, turn))
    case Storing(turn) =>
      var stored := Lands(reply);
      (if stored then s.(records := s.records[turn := RecordFor(scope, turn)]) else s,
       if reply == Committed then Go(Landing(turn)) else Done(Redelivered))
    case Landing(turn) =>
      var (g', ok) := ReconcileOutcome(s.graph, TURN_ACCUSATION, turn, [BarrierTriple(scope, turn, at)], reply);
      (s.(graph := g'), if ok then AfterCommit(scope, turn) else Done(Redelivered))
  }

  function Remaining(next: Next): nat {
    match next
    case Done(_) => 0
    case Go(Writing(_, Correcting, _)) => 1
    case Go(Recording(_, Correcting, _)) => 2
    case Go(Writing(_, Progressing, _)) => 1
    case Go(Recording(_, Progressing, _)) => 2
    case Go(Landing(_)) => 3
    case Go(Storing(_)) => 4
    case Go(Committing(_)) => 5
    case Go(Writing(_, Submitting(_), _)) => 6
    case Go(Recording(_, Submitting(_), _)) => 7
  }

  lemma AdvanceDescends(scope: Scope, s: State, stage: Stage, at: int, reply: Reply)
    ensures Remaining(Advance(scope, s, stage, at, reply).1) < Remaining(Go(stage))
  {}

  /** A whole undisturbed delivery: the stores it leaves, its verdict, and the replies left over. */
  function Drive(scope: Scope, s: State, next: Next, at: int, replies: seq<Reply>): (State, Verdict, seq<Reply>)
    decreases Remaining(next)
  {
    match next
    case Done(verdict) => (s, verdict, replies)
    case Go(stage) =>
      AdvanceDescends(scope, s, stage, at, NextReply(replies));
      var (s', next') := Advance(scope, s, stage, at, NextReply(replies));
      Drive(scope, s', next', at, Later(replies))
  }

  // ---- The consumer --------------------------------------------------------

  datatype CommitReply = CommitDone | CommitTransient | CommitConflict

  class Consumer {
    const scope: Scope
    const store: Store
    var records: map<EntityID, AccusationRecord>

    constructor (scope: Scope, store: Store, records: map<EntityID, AccusationRecord>)
      ensures this.scope == scope && this.store == store && this.records == records
    {
      this.scope, this.store, this.records := scope, store, records;
    }

    function Contents(): State
      reads this, store
    {
      State(store.graph, records)
    }

    method NextIsAnswered() returns (answered: bool)
      modifies store
      ensures store.graph == old(store.graph) && store.replies == Later(old(store.replies))
      ensures answered <==> NextReply(old(store.replies)) == Committed
    {
      answered := NextReply(store.replies) == Committed;
      store.replies := Later(store.replies);
    }

    /** Records a case event unless the case already holds it or has moved past it. */
    method Record(turn: EntityID, purpose: Purpose, request: TransitionRequest, at: int) returns (ok: bool)
      modifies store
      ensures records == old(records)
      ensures Drive(scope, old(Contents()), Go(Recording(turn, purpose, request)), at, old(store.replies)) ==
              Drive(scope, Contents(), if ok then AfterRecord(scope, turn, purpose) else Done(Redelivered),
                    at, store.replies)
    {
      var answered := NextIsAnswered();
      if !answered {
        return false;
      }
      match RecordPlanFor(store.graph, scope.caseID, request) {
        case Settled => return true;
        case OutOfOrder => return false;
        case Unrecordable => return false;
        case WriteReceipt =>
      }
      ok := store.Reconcile(CASE_LIFECYCLE_RECEIPT, scope.caseID, ReceiptTriples(scope.caseID, request, at));
    }

    /** Object first, reference last; a resident record is never rewritten. */
    method Commit(turn: EntityID, at: int) returns (reply: CommitReply)
      modifies this, store
      ensures Drive(scope, old(Contents()), Go(Committing(turn)), at, old(store.replies)) ==
              Drive(scope, Contents(),
                    match reply
                    case CommitDone => AfterCommit(scope, turn)
                    case CommitTransient => Done(Redelivered)
                    case CommitConflict => Done(TurnFailed),
                    at, store.replies)
    {
      var answered := NextIsAnswered();
      if !answered {
        return CommitTransient;
      }
      if turn !in store.graph {
        return CommitConflict;
      }
      var refs := Own(turn, TriplesOf(store.graph[turn], TurnAccusationRef));
      if refs != [] {
        var same := refs == [Text(scope.resultRef(turn))] && turn in records && records[turn] == RecordFor(scope, turn);
        return if same then CommitDone else CommitConflict;
      }
      var ok := StoreThenLand(turn, at);
      return if ok then CommitDone else CommitTransient;
    }

    method StoreThenLand(turn: EntityID, at: int) returns (ok: bool)
      modifies this, store
      ensures Drive(scope, old(Contents()), Go(Storing(turn)), at, old(store.replies)) ==
              Drive(scope, Contents(), if ok then AfterCommit(scope, turn) else Done(Redelivered), at, store.replies)
    {
      ok := Put(turn);
      if ok {
        ok := store.Reconcile(TURN_ACCUSATION, turn, [BarrierTriple(scope, turn, at)]);
      }
    }

    method Put(turn: EntityID) returns (ok: bool)
      modifies this, store
      ensures store.graph == old(store.graph) && store.replies == Later(old(store.replies))
      ensures var reply := NextReply(old(store.replies));
        && (ok <==> reply == Committed)
        && records == if Lands(reply)
                      then old(records)[turn := RecordFor(scope, turn)] else old(records)
    {
      var reply := NextReply(store.replies);
      store.replies := Later(store.replies);
      if Lands(reply) {
        records := records[turn := RecordFor(scope, turn)];
      }
      ok := reply == Committed;
    }

    /** The ordered protocol for one trigger. */
    method Handle(turn: EntityID, at: int) returns (verdict: Verdict)
      modifies this, store
      ensures (Contents(), verdict, store.replies) ==
              Drive(scope, old(Contents()), Deliver(scope, old(store.graph), turn), at, old(store.replies))
    {
      var loaded := Load(scope, store.graph, turn);
      match loaded {
        case TurnGone => return Terminated;
        case Foreign => return TurnFailed;
        case NotAccusing =>
          var barrier := Commit(turn, at);
          BarrierOnlyWhenNotAccusing(scope, store.graph, turn);
          verdict := Conclude(turn, barrier, at);
          return;
        case Accusing(_, _) =>
      }
      var recorded := Record(turn, Submitting(loaded.phase),
                             TransitionRequest(loaded.decision.decisionID, AccusationSubmitted), at);
      if !recorded {
        return Redelivered;
      }
      if loaded.phase == Investigation {
        return Redelivered;
      }
      if (loaded.phase != Accusation && loaded.phase != Denouement) || !RecordFor(scope, turn).ResultRecorded? {
        return TurnFailed;
      }
      var committed := Commit(turn, at);
      verdict := Conclude(turn, committed, at);
    }

    /** What follows a commit: only a committed correct result is ever recorded as correct. */
    method Conclude(turn: EntityID, committed: CommitReply, at: int) returns (verdict: Verdict)
      modifies store
      ensures records == old(records)
      ensures (Contents(), verdict, store.replies) ==
              Drive(scope, old(Contents()),
                    match committed
                    case CommitDone => AfterCommit(scope, turn)
                    case CommitTransient => Done(Redelivered)
                    case CommitConflict => Done(TurnFailed),
                    at, old(store.replies))
    {
      match committed {
        case CommitTransient => return Redelivered;
        case CommitConflict => return TurnFailed;
        case CommitDone =>
      }
      var record := RecordFor(scope, turn);
      if record.BarrierOnly? || !record.result.correct {
        return Acknowledged;
      }
      var recorded := Record(turn, Correcting, TransitionRequest(record.result.resultID, AccusationCorrect), at);
      return if recorded then Acknowledged else Redelivered;
    }
  }

  lemma BarrierOnlyWhenNotAccusing(scope: Scope, g: GraphState, turn: EntityID)
    ensures Load(scope, g, turn) == NotAccusing ==> RecordFor(scope, turn).BarrierOnly?
  {}

  /** A result is correct exactly when the stored decision is a valid accusation naming all three
      identities of the solution. */
  lemma CorrectMeansExactMatch(scope: Scope, turn: EntityID)
    ensures RecordFor(scope, turn).ResultRecorded? && RecordFor(scope, turn).result.correct <==>
            && turn in scope.decisions && scope.decisions[turn].decision.Some?
            && var d := scope.decisions[turn].decision.value;
            && DecisionValid(scope.grammar, d) && d.kind == Accuse
            && d.culpritRef == scope.solution.culprit
            && d.methodRef == scope.solution.method_
            && d.motiveRef == scope.solution.motive
  {}
}
