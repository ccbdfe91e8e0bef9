/** One companion outcome per turn: the persona's own exit and the exhaustion exit compete to
    claim a decision and then a stage record, and the turn refers to them last. */
module Companion {
  import opened Wrappers
  import opened Vocabulary
  import opened Graph
  import opened ExactClaims

  datatype Decision = Decision(turn: EntityID, contextRef: string, silent: bool, evidence: seq<EntityID>)

  datatype StageRecord = StageRecord(turn: EntityID, exhausted: bool, trigger: string, source: string, decisionRef: string)

  /** The deterministic artifact slots, and an injective encoding of each artifact. */
  datatype Codec = Codec(
    decisionKey: EntityID -> Key,
    stageKey: EntityID -> Key,
    decisionRef: EntityID -> string,
    stageRef: EntityID -> string,
    encodeDecision: Decision -> Bytes,
    encodeStage: StageRecord -> Bytes)

  /** What one run wants to commit, whichever of the two exits it is. */
  datatype Task = Task(turn: EntityID, decision: Decision, record: StageRecord)

  /** The persona's exit carries the decision it was authorized for. */
  function Executing(codec: Codec, d: Decision, trigger: string, source: string): Task {
    Task(d.turn, d, StageRecord(d.turn, false, trigger, source, codec.decisionRef(d.turn)))
  }

  /** Exhaustion claims silence, and says so in its record. */
  function Exhausting(codec: Codec, turn: EntityID, contextRef: string, trigger: string, source: string): Task {
    Task(turn, Decision(turn, contextRef, true, []),
         StageRecord(turn, true, trigger, source, codec.decisionRef(turn)))
  }

  function ResultTriples(codec: Codec, task: Task, at: int): seq<Triple> {
    var source := if task.record.exhausted then "persona-companion-exhausted" else "persona-companion";
    var provenance := Provenance(source, at, task.turn, false);
    [Triple(task.turn, TurnCompanionStageRef, Text(codec.stageRef(task.turn)), provenance),
     Triple(task.turn, TurnCompanionTriggerKind, Text(task.record.trigger), provenance),
     Triple(task.turn, TurnCompanionTriggerSource, Text(task.record.source), provenance),
     Triple(task.turn, TurnCompanionDecisionRef, Text(codec.decisionRef(task.turn)), provenance)]
  }

  // ---- One run at a time ---------------------------------------------------

  /** Storing an exact artifact: success only when the resident value is this one. */
  function PutOutcome(s: Stores, key: Key, data: Bytes, replies: seq<Reply>): (Stores, bool, seq<Reply>) {
    var (s', r, later) := Drive(s, key, data, Begin(data), replies);
    (s', r == Winner(data), later)
  }

  function CommitOutcome(
    codec: Codec, s: Stores, g: GraphState, task: Task, at: int, replies: seq<Reply>, reply: Reply
  ): (Stores, GraphState, bool) {
    var (s1, decided, r1) := PutOutcome(s, codec.decisionKey(task.turn), codec.encodeDecision(task.decision), replies);
    if !decided then (s1, g, false)
    else
      var (s2, recorded, r2) := PutOutcome(s1, codec.stageKey(task.turn), codec.encodeStage(task.record), r1);
      if !recorded then (s2, g, false)
      else
        var (g', ok) := ReconcileOutcome(g, TURN_COMPANION_RESULT, task.turn, ResultTriples(codec, task, at), reply);
        (s2, g', ok)
  }

  class Executor {
    const codec: Codec
    const backend: Backend
    const store: Store

    constructor (codec: Codec, backend: Backend, store: Store)
      ensures this.codec == codec && this.backend == backend && this.store == store
    {
      this.codec, this.backend, this.store := codec, backend, store;
    }

    method Put(key: Key, data: Bytes) returns (ok: bool)
      modifies backend
      ensures (backend.Contents(), ok, backend.replies) ==
              PutOutcome(old(backend.Contents()), key, data, old(backend.replies))
    {
      var r := backend.ClaimExact(key, data);
      ok := r == Winner(data);
    }

    /** Decision first, stage record second, the turn's references last. */
    method Commit(task: Task, at: int) returns (ok: bool)
      modifies backend, store
      ensures (backend.Contents(), store.graph, ok) ==
              CommitOutcome(codec, old(backend.Contents()), old(store.graph), task, at,
                            old(backend.replies), NextReply(old(store.replies)))
    {
      ok := Put(codec.decisionKey(task.turn), codec.encodeDecision(task.decision));
      if !ok {
        return;
      }
      ok := Put(codec.stageKey(task.turn), codec.encodeStage(task.record));
      if !ok {
        return;
      }
      ok := store.Reconcile(TURN_COMPANION_RESULT, task.turn, ResultTriples(codec, task, at));
    }
  }

  // ---- Competing runs ------------------------------------------------------

  datatype Stage = Deciding(next: ClaimNext) | Recording(next: ClaimNext) | Landing | Finished | Stopped

  datatype Exit = Exit(task: Task, stage: Stage)

  datatype Race = Race(stores: Stores, graph: GraphState, exits: map<Client, Exit>)

  datatype Event =
    | Begins(client: Client, task: Task)
    | Proceeds(client: Client, at: int, reply: Reply)
    | Crashes(client: Client)
    | Environment(next: GraphState)

  function AfterDecision(codec: Codec, task: Task, next: ClaimNext): Stage {
    match next
    case Continue(_) => Deciding(next)
    case Winner(value) =>
      if value == codec.encodeDecision(task.decision) then Recording(Begin(codec.encodeStage(task.record))) else Stopped
    case _ => Stopped
  }

  function AfterRecord(codec: Codec, task: Task, next: ClaimNext): Stage {
    match next
    case Continue(_) => Recording(next)
    case Winner(value) => if value == codec.encodeStage(task.record) then Landing else Stopped
    case _ => Stopped
  }

  function Advance(codec: Codec, w: Race, exit: Exit, at: int, reply: Reply): (Stores, GraphState, Stage) {
    match exit.stage
    case Deciding(Continue(stage)) =>
      var (s', next) := ClaimAdvance(
        w.stores, codec.decisionKey(exit.task.turn), codec.encodeDecision(exit.task.decision), stage, reply);
      (s', w.graph, AfterDecision(codec, exit.task, next))
    case Recording(Continue(stage)) =>
      var (s', next) := ClaimAdvance(
        w.stores, codec.stageKey(exit.task.turn), codec.encodeStage(exit.task.record), stage, reply);
      (s', w.graph, AfterRecord(codec, exit.task, next))
    case Landing =>
      var (g', ok) := ReconcileOutcome(
        w.graph, TURN_COMPANION_RESULT, exit.task.turn, ResultTriples(codec, exit.task, at), reply);
      (w.stores, g', if ok then Finished else Stopped)
    case _ => (w.stores, w.graph, exit.stage)
  }

  predicate SameRefs(g: GraphState, g': GraphState, turn: EntityID) {
    && TriplesOf(Lookup(g', turn), TurnCompanionStageRef) == TriplesOf(Lookup(g, turn), TurnCompanionStageRef)
    && TriplesOf(Lookup(g', turn), TurnCompanionDecisionRef) == TriplesOf(Lookup(g, turn), TurnCompanionDecisionRef)
  }

  ghost function Step(codec: Codec, w: Race, event: Event): Race {
    match event
    case Begins(client, task) =>
      if client in w.exits then w
      else w.(exits := w.exits[client := Exit(task, Deciding(Begin(codec.encodeDecision(task.decision))))])
    case Proceeds(client, at, reply) =>
      if client !in w.exits then w
      else
        var (s', g', stage) := Advance(codec, w, w.exits[client], at, reply);
        Race(s', g', w.exits[client := w.exits[client].(stage := stage)])
    case Crashes(client) =>
      if client in w.exits && w.exits[client].stage != Finished
      then w.(exits := w.exits[client := w.exits[client].(stage := Stopped)]) else w
    case Environment(next) => if forall turn :: SameRefs(w.graph, next, turn) then w.(graph := next) else w
  }

  ghost function Run(codec: Codec, w: Race, events: seq<Event>): Race {
    if events == [] then w
    else Step(codec, Run(codec, w, events[..|events| - 1]), events[|events| - 1])
  }

  function Fresh(g: GraphState): Race {
    Race(Stores(map[], map[]), g, map[])
  }

  /** A key holds a value, and its object copy is there and equal. */
  predicate Resident(s: Stores, key: Key, value: Bytes) {
    key in s.claims && s.claims[key] == value && key in s.objects && s.objects[key] == value
  }

  predicate DecisionResident(codec: Codec, s: Stores, task: Task) {
    Resident(s, codec.decisionKey(task.turn), codec.encodeDecision(task.decision))
  }

  predicate RecordResident(codec: Codec, s: Stores, task: Task) {
    Resident(s, codec.stageKey(task.turn), codec.encodeStage(task.record))
  }

  predicate ExitSound(codec: Codec, s: Stores, exit: Exit) {
    match exit.stage
    case Deciding(next) => AttemptSound(s, codec.decisionKey(exit.task.turn), next)
    case Recording(next) =>
      DecisionResident(codec, s, exit.task) && AttemptSound(s, codec.stageKey(exit.task.turn), next)
    case Landing => DecisionResident(codec, s, exit.task) && RecordResident(codec, s, exit.task)
    case Finished => DecisionResident(codec, s, exit.task) && RecordResident(codec, s, exit.task)
    case Stopped => true
  }

  predicate HasRefs(g: GraphState, turn: EntityID) {
    TriplesOf(Lookup(g, turn), TurnCompanionStageRef) != [] || TriplesOf(Lookup(g, turn), TurnCompanionDecisionRef) != []
  }

  /** One run's own decision and record are both resident for the turn. */
  ghost predicate Settled(codec: Codec, w: Race, turn: EntityID) {
    exists client :: client in w.exits && w.exits[client].task.turn == turn &&
      DecisionResident(codec, w.stores, w.exits[client].task) && RecordResident(codec, w.stores, w.exits[client].task)
  }

  ghost predicate Inv(codec: Codec, w: Race) {
    && StoresSound(w.stores)
    && (forall client :: client in w.exits ==> ExitSound(codec, w.stores, w.exits[client]))
    && (forall turn :: HasRefs(w.graph, turn) ==> Settled(codec, w, turn))
  }

  lemma ExitStays(codec: Codec, s: Stores, s': Stores, exit: Exit)
    requires Extends(s, s') && StoresSound(s') && ExitSound(codec, s, exit)
    ensures ExitSound(codec, s', exit)
  {
    var dk, sk := codec.decisionKey(exit.task.turn), codec.stageKey(exit.task.turn);
    match exit.stage
    case Deciding(next) => SoundStays(s, s', dk, next);
    case Recording(next) => SoundStays(s, s', sk, next);
    case _ =>
  }

  lemma AdvanceKeepsExit(codec: Codec, w: Race, exit: Exit, at: int, reply: Reply)
    requires StoresSound(w.stores) && ExitSound(codec, w.stores, exit)
    ensures var (s', g', stage) := Advance(codec, w, exit, at, reply);
      && StoresSound(s') && Extends(w.stores, s') && ExitSound(codec, s', exit.(stage := stage))
      && (forall turn :: HasRefs(g', turn) ==> HasRefs(w.graph, turn) || (exit.stage == Landing && turn == exit.task.turn))
  {
    match exit.stage
    case Deciding(Continue(stage)) =>
      AdvanceKeeps(w.stores, codec.decisionKey(exit.task.turn), codec.encodeDecision(exit.task.decision), stage, reply);
    case Recording(Continue(stage)) =>
      AdvanceKeeps(w.stores, codec.stageKey(exit.task.turn), codec.encodeStage(exit.task.record), stage, reply);
    case Landing =>
      ReconcileObjects(w.graph, TURN_COMPANION_RESULT, exit.task.turn, ResultTriples(codec, exit.task, at), reply);
    case _ =>
  }

  lemma SettledStays(codec: Codec, w: Race, w': Race, turn: EntityID)
    requires Settled(codec, w, turn) && Extends(w.stores, w'.stores) && StoresSound(w'.stores)
    requires forall client :: client in w.exits ==> client in w'.exits && w'.exits[client].task == w.exits[client].task
    ensures Settled(codec, w', turn)
  {
    var client :| client in w.exits && w.exits[client].task.turn == turn &&
      DecisionResident(codec, w.stores, w.exits[client].task) && RecordResident(codec, w.stores, w.exits[client].task);
    assert DecisionResident(codec, w'.stores, w'.exits[client].task);
  }

  lemma ProceedKeeps(codec: Codec, w: Race, client: Client, at: int, reply: Reply)
    requires Inv(codec, w) && client in w.exits
    ensures Inv(codec, Step(codec, w, Proceeds(client, at, reply)))
  {
    var w' := Step(codec, w, Proceeds(client, at, reply));
    assert ExitSound(codec, w.stores, w.exits[client]);
    AdvanceKeepsExit(codec, w, w.exits[client], at, reply);
    forall c | c in w'.exits ensures ExitSound(codec, w'.stores, w'.exits[c]) {
      if c != client {
        ExitStays(codec, w.stores, w'.stores, w.exits[c]);
      }
    }
    forall turn | HasRefs(w'.graph, turn) ensures Settled(codec, w', turn) {
      if HasRefs(w.graph, turn) {
        SettledStays(codec, w, w', turn);
      } else {
        assert w'.exits[client].task == w.exits[client].task && turn == w.exits[client].task.turn;
      }
    }
  }

  lemma StepKeeps(codec: Codec, w: Race, event: Event)
    requires Inv(codec, w)
    ensures Inv(codec, Step(codec, w, event))
  {
    var w' := Step(codec, w, event);
    match event
    case Proceeds(client, at, reply) =>
      if client in w.exits {
        ProceedKeeps(codec, w, client, at, reply);
      }
    case _ =>
      forall turn | HasRefs(w'.graph, turn) ensures Settled(codec, w', turn) {
        assert event.Environment? ==> SameRefs(w.graph, w'.graph, turn);
        SettledStays(codec, w, w', turn);
      }
  }

  lemma {:induction false} RunKeeps(codec: Codec, g: GraphState, events: seq<Event>)
    requires forall turn :: !HasRefs(g, turn)
    ensures Inv(codec, Run(codec, Fresh(g), events))
    decreases |events|
  {
    if events != [] {
      var earlier := events[..|events| - 1];
      RunKeeps(codec, g, earlier);
      StepKeeps(codec, Run(codec, Fresh(g), earlier), events[|events| - 1]);
    }
  }

  ghost predicate Injective(codec: Codec) {
    && (forall a, b :: codec.encodeDecision(a) == codec.encodeDecision(b) ==> a == b)
    && (forall a, b :: codec.encodeStage(a) == codec.encodeStage(b) ==> a == b)
  }

  /** However the two exits race: a turn refers to its companion result only once one run's decision and
      stage record are both resident, and all runs that finish on a turn committed the same two values;
      so an executed and an exhausted exit never both succeed. */
  lemma OneOutcomePerTurn(codec: Codec, g: GraphState, events: seq<Event>, turn: EntityID, a: Client, b: Client)
    requires Injective(codec) && forall t :: !HasRefs(g, t)
    ensures var w := Run(codec, Fresh(g), events);
      && (HasRefs(w.graph, turn) ==> Settled(codec, w, turn))
      && (a in w.exits && b in w.exits && w.exits[a].stage == Finished && w.exits[b].stage == Finished &&
          w.exits[a].task.turn == w.exits[b].task.turn ==>
            w.exits[a].task.decision == w.exits[b].task.decision && w.exits[a].task.record == w.exits[b].task.record)
  {
    RunKeeps(codec, g, events);
    var w := Run(codec, Fresh(g), events);
    if a in w.exits && b in w.exits {
      assert ExitSound(codec, w.stores, w.exits[a]) && ExitSound(codec, w.stores, w.exits[b]);
    }
  }

  /** In particular the persona's exit and the exhaustion exit of one turn never both finish, not even when the persona
      decided on the same silence: their stage records differ. */
  lemma NeverBothExits(
    codec: Codec, g: GraphState, events: seq<Event>, a: Client, b: Client, d: Decision, context: string,
    trigger: string, source: string)
    requires Injective(codec) && forall t :: !HasRefs(g, t)
    requires var w := Run(codec, Fresh(g), events);
      && a in w.exits && w.exits[a].task == Executing(codec, d, trigger, source)
      && b in w.exits && w.exits[b].task == Exhausting(codec, d.turn, context, trigger, source)
    ensures var w := Run(codec, Fresh(g), events);
      w.exits[a].stage != Finished || w.exits[b].stage != Finished
  {
    OneOutcomePerTurn(codec, g, events, d.turn, a, b);
  }

  /** A run whose decision is not the claimed one can never finish: silence, too, cannot replace a decision
      that differs from it. */
  lemma LosersNeverFinish(codec: Codec, g: GraphState, events: seq<Event>, client: Client)
    requires forall t :: !HasRefs(g, t)
    requires var w := Run(codec, Fresh(g), events);
      && client in w.exits
      && codec.decisionKey(w.exits[client].task.turn) in w.stores.claims
      && w.stores.claims[codec.decisionKey(w.exits[client].task.turn)] !=
         codec.encodeDecision(w.exits[client].task.decision)
    ensures var stage := Run(codec, Fresh(g), events).exits[client].stage;
      stage.Deciding? || stage == Stopped
  {
    RunKeeps(codec, g, events);
    var w := Run(codec, Fresh(g), events);
    assert ExitSound(codec, w.stores, w.exits[client]);
  }

  // ---- When an exit finishes -----------------------------------------------

  /** Nobody has established a value at the key, or it is this very one. */
  predicate Claimable(s: Stores, key: Key, data: Bytes) {
    |data| <= MAX_CLAIM_BYTES && (key in s.claims ==> s.claims[key] == data)
  }

  /** An undisturbed store of an exact artifact succeeds exactly when its key is claimable, and then leaves it resident. */
  lemma PutExactly(s: Stores, key: Key, data: Bytes)
    requires StoresSound(s)
    ensures var (s', ok, later) := PutOutcome(s, key, data, []);
      && later == [] && (ok <==> Claimable(s, key, data))
      && (ok ==> s' == Stores(s.claims[key := data], s.objects[key := data]))
  {
    if |data| <= MAX_CLAIM_BYTES {
      var winner := if key in s.claims then s.claims[key] else data;
      var s1 := Stores(s.claims[key := winner], s.objects);
      assert key in s.claims ==> s1 == s;
      assert key in s.objects ==> s.objects[key := winner] == s.objects;
      SettlesExactly(s1, key, data, winner);
      if key in s.claims {
        assert Drive(s, key, data, Continue(ReadingClaim), []) == Drive(s, key, data, Continue(ReadingObject(winner)), []);
      }
    }
  }

  lemma SettlesExactly(s: Stores, key: Key, data: Bytes, winner: Bytes)
    requires StoresSound(s) && key in s.claims && s.claims[key] == winner
    ensures Drive(s, key, data, Continue(ReadingObject(winner)), []) ==
            (Stores(s.claims, s.objects[key := winner]), Winner(winner), [])
  {
    if key in s.objects {
      assert s.objects[key := winner] == s.objects;
    } else {
      assert Drive(s, key, data, Continue(Repairing(winner)), []) ==
             (Stores(s.claims, s.objects[key := winner]), Winner(winner), []);
    }
  }

  /** Both of the turn's slots are open to this task. */
  predicate Open(codec: Codec, s: Stores, task: Task) {
    && Claimable(s, codec.decisionKey(task.turn), codec.encodeDecision(task.decision))
    && Claimable(s, codec.stageKey(task.turn), codec.encodeStage(task.record))
  }

  lemma ResultAdmitted(codec: Codec, task: Task, at: int)
    ensures Admits(task.turn, TURN_COMPANION_RESULT, ResultTriples(codec, task, at))
  {}

  /** An undisturbed exit finishes if and only if both of its artifacts are claimable and its turn exists; a caller
      can read all of that off the stores before the exit begins. */
  lemma FinishesExactly(codec: Codec, s: Stores, g: GraphState, task: Task, at: int)
    requires StoresSound(s) && codec.decisionKey(task.turn) != codec.stageKey(task.turn)
    ensures CommitOutcome(codec, s, g, task, at, [], Committed).2 <==>
            Open(codec, s, task) && task.turn in g
  {
    ResultAdmitted(codec, task, at);
    PutExactly(s, codec.decisionKey(task.turn), codec.encodeDecision(task.decision));
    var (s1, decided, _) := PutOutcome(s, codec.decisionKey(task.turn), codec.encodeDecision(task.decision), []);
    if decided {
      PutExactly(s1, codec.stageKey(task.turn), codec.encodeStage(task.record));
    }
  }

  /** Exhaustion does finish over a decision that the persona's own exit claimed, when that decision is the same silence. */
  lemma SilenceOverSilence(codec: Codec, g: GraphState, turn: EntityID, context: string, trigger: string, source: string, at: int)
    requires codec.decisionKey(turn) != codec.stageKey(turn)
    requires var task := Exhausting(codec, turn, context, trigger, source);
      && turn in g
      && |codec.encodeDecision(task.decision)| <= MAX_CLAIM_BYTES && |codec.encodeStage(task.record)| <= MAX_CLAIM_BYTES
    ensures var task := Exhausting(codec, turn, context, trigger, source);
      CommitOutcome(codec, Stores(map[codec.decisionKey(turn) := codec.encodeDecision(Decision(turn, context, true, []))], map[]),
                    g, task, at, [], Committed).2
  {
    var task := Exhausting(codec, turn, context, trigger, source);
    FinishesExactly(codec, Stores(map[codec.decisionKey(turn) := codec.encodeDecision(task.decision)], map[]), g, task, at);
  }

  /** Silence is stuck over any other claimed decision, on every later attempt, whatever the graph and the replies. */
  lemma SilenceIsStuck(
    codec: Codec, s: Stores, g: GraphState, d: Decision, context: string, trigger: string, source: string, at: int,
    replies: seq<Reply>, reply: Reply)
    requires Injective(codec) && StoresSound(s) && (!d.silent || d.contextRef != context || d.evidence != [])
    requires codec.decisionKey(d.turn) in s.claims && s.claims[codec.decisionKey(d.turn)] == codec.encodeDecision(d)
    ensures var (s', g', ok) := CommitOutcome(codec, s, g, Exhausting(codec, d.turn, context, trigger, source), at, replies, reply);
      !ok && g' == g && s'.claims == s.claims
  {
    var silence := Decision(d.turn, context, true, []);
    assert silence != d && codec.encodeDecision(silence) != codec.encodeDecision(d);
    ClaimedStays(s, codec.decisionKey(d.turn), codec.encodeDecision(silence), Begin(codec.encodeDecision(silence)), replies);
  }

  /** However a claim over an established value goes, it changes no claim and cannot win another value. */
  lemma {:induction false} ClaimedStays(s: Stores, key: Key, data: Bytes, next: ClaimNext, replies: seq<Reply>)
    requires StoresSound(s) && key in s.claims && s.claims[key] != data && AttemptSound(s, key, next)
    ensures var (s', r, _) := Drive(s, key, data, next, replies);
      s'.claims == s.claims && r != Winner(data)
    decreases ExactClaims.Remaining(next)
  {
    if next.Continue? {
      AdvanceKeeps(s, key, data, next.stage, NextReply(replies));
      var (s', next') := ClaimAdvance(s, key, data, next.stage, NextReply(replies));
      ClaimedStays(s', key, data, next', Later(replies));
    }
  }

  /** A result that lands names this turn's own two artifact slots and nothing else. */
  lemma ResultReadsBack(codec: Codec, g: GraphState, task: Task, at: int)
    requires task.turn in g
    ensures var s := Replace(g[task.turn], TURN_COMPANION_RESULT, ResultTriples(codec, task, at));
      && Objects(s, TurnCompanionStageRef) == {Text(codec.stageRef(task.turn))}
      && Objects(s, TurnCompanionDecisionRef) == {Text(codec.decisionRef(task.turn))}
      && Objects(s, TurnCompanionTriggerKind) == {Text(task.record.trigger)}
      && Objects(s, TurnCompanionTriggerSource) == {Text(task.record.source)}
  {
    var t := ResultTriples(codec, task, at);
    FourReplace(g[task.turn], t);
  }

  lemma FourReplace(s: EntityState, t: seq<Triple>)
    requires |t| == 4 && (forall i :: 0 <= i < 4 ==> t[i].pred in TURN_COMPANION_RESULT)
    requires forall i, j :: 0 <= i < j < 4 ==> t[i].pred != t[j].pred
    ensures var s' := Replace(s, TURN_COMPANION_RESULT, t);
      && Objects(s', t[0].pred) == {t[0].obj} && Objects(s', t[1].pred) == {t[1].obj}
      && Objects(s', t[2].pred) == {t[2].obj} && Objects(s', t[3].pred) == {t[3].obj}
  {
    ResultReplaces(s, t, 0);
    ResultReplaces(s, t, 1);
    ResultReplaces(s, t, 2);
    ResultReplaces(s, t, 3);
  }

  lemma ResultReplaces(s: EntityState, t: seq<Triple>, i: nat)
    requires |t| == 4 && i < 4 && forall k :: 0 <= k < 4 ==> t[k].pred in TURN_COMPANION_RESULT
    requires forall k :: 0 <= k < 4 && k != i ==> t[k].pred != t[i].pred
    ensures Objects(Replace(s, TURN_COMPANION_RESULT, t), t[i].pred) == {t[i].obj}
  {
    assert t == [t[0], t[1], t[2], t[3]];
    ReplaceTriples(s, TURN_COMPANION_RESULT, t, t[i].pred);
    FourTriples(t[0], t[1], t[2], t[3], t[i].pred);
    assert TriplesOf(t, t[i].pred) == [t[i]];
  }

  // ---- No turn is ever stuck -----------------------------------------------

  /** Artifact slots are never shared, between turns or between the two kinds. */
  ghost predicate Apart(codec: Codec) {
    && (forall a, b :: codec.decisionKey(a) != codec.stageKey(b))
    && (forall a, b :: codec.decisionKey(a) == codec.decisionKey(b) ==> a == b)
    && (forall a, b :: codec.stageKey(a) == codec.stageKey(b) ==> a == b)
  }

  predicate Fits(codec: Codec, task: Task) {
    |codec.encodeDecision(task.decision)| <= MAX_CLAIM_BYTES && |codec.encodeStage(task.record)| <= MAX_CLAIM_BYTES
  }

  ghost predicate DecisionCredited(codec: Codec, w: Race, turn: EntityID) {
    codec.decisionKey(turn) in w.stores.claims ==>
      exists client :: client in w.exits && w.exits[client].task.turn == turn &&
        w.stores.claims[codec.decisionKey(turn)] == codec.encodeDecision(w.exits[client].task.decision)
  }

  /** Whoever established a stage record had won the decision before. */
  ghost predicate RecordCredited(codec: Codec, w: Race, turn: EntityID) {
    codec.stageKey(turn) in w.stores.claims ==>
      exists client :: client in w.exits && w.exits[client].task.turn == turn &&
        DecisionResident(codec, w.stores, w.exits[client].task) &&
        w.stores.claims[codec.stageKey(turn)] == codec.encodeStage(w.exits[client].task.record)
  }

  ghost predicate Credited(codec: Codec, w: Race) {
    forall turn :: DecisionCredited(codec, w, turn) && RecordCredited(codec, w, turn)
  }

  ghost predicate KeepsTasks(w: Race, w': Race) {
    forall client :: client in w.exits ==> client in w'.exits && w'.exits[client].task == w.exits[client].task
  }

  lemma CreditStays(codec: Codec, w: Race, w': Race, turn: EntityID)
    requires DecisionCredited(codec, w, turn) && RecordCredited(codec, w, turn)
    requires KeepsTasks(w, w') && Extends(w.stores, w'.stores) && StoresSound(w'.stores)
    ensures codec.decisionKey(turn) in w.stores.claims ==> DecisionCredited(codec, w', turn)
    ensures codec.stageKey(turn) in w.stores.claims ==> RecordCredited(codec, w', turn)
  {
    if codec.decisionKey(turn) in w.stores.claims {
      var client :| client in w.exits && w.exits[client].task.turn == turn &&
        w.stores.claims[codec.decisionKey(turn)] == codec.encodeDecision(w.exits[client].task.decision);
      assert client in w'.exits;
    }
    if codec.stageKey(turn) in w.stores.claims {
      var client :| client in w.exits && w.exits[client].task.turn == turn &&
        DecisionResident(codec, w.stores, w.exits[client].task) &&
        w.stores.claims[codec.stageKey(turn)] == codec.encodeStage(w.exits[client].task.record);
      assert client in w'.exits && DecisionResident(codec, w'.stores, w'.exits[client].task);
    }
  }

  /** A step of one exit claims at most that exit's own artifacts, and its record only after its decision. */
  lemma AdvanceClaims(codec: Codec, w: Race, exit: Exit, at: int, reply: Reply)
    requires StoresSound(w.stores) && ExitSound(codec, w.stores, exit)
    ensures var (s', _, _) := Advance(codec, w, exit, at, reply);
      forall key :: key in s'.claims && key !in w.stores.claims ==>
        || (key == codec.decisionKey(exit.task.turn) && s'.claims[key] == codec.encodeDecision(exit.task.decision))
        || (key == codec.stageKey(exit.task.turn) && s'.claims[key] == codec.encodeStage(exit.task.record) &&
            DecisionResident(codec, w.stores, exit.task))
  {}

  lemma ProceedCredits(codec: Codec, w: Race, client: Client, at: int, reply: Reply)
    requires Apart(codec) && Inv(codec, w) && Credited(codec, w) && client in w.exits
    ensures Credited(codec, Step(codec, w, Proceeds(client, at, reply)))
  {
    var exit, w' := w.exits[client], Step(codec, w, Proceeds(client, at, reply));
    assert ExitSound(codec, w.stores, exit);
    AdvanceKeepsExit(codec, w, exit, at, reply);
    AdvanceClaims(codec, w, exit, at, reply);
    assert client in w'.exits && w'.exits[client].task == exit.task;
    forall turn ensures DecisionCredited(codec, w', turn) && RecordCredited(codec, w', turn) {
      assert DecisionCredited(codec, w, turn) && RecordCredited(codec, w, turn);
      CreditStays(codec, w, w', turn);
    }
  }

  lemma StepCredits(codec: Codec, w: Race, event: Event)
    requires Apart(codec) && Inv(codec, w) && Credited(codec, w)
    ensures Credited(codec, Step(codec, w, event))
  {
    if event.Proceeds? && event.client in w.exits {
      ProceedCredits(codec, w, event.client, event.at, event.reply);
    } else {
      var w' := Step(codec, w, event);
      forall turn ensures DecisionCredited(codec, w', turn) && RecordCredited(codec, w', turn) {
        assert DecisionCredited(codec, w, turn) && RecordCredited(codec, w, turn);
        CreditStays(codec, w, w', turn);
      }
    }
  }

  lemma {:induction false} RunCredits(codec: Codec, g: GraphState, events: seq<Event>)
    requires Apart(codec) && forall turn :: !HasRefs(g, turn)
    ensures Credited(codec, Run(codec, Fresh(g), events))
    decreases |events|
  {
    if events != [] {
      var earlier := events[..|events| - 1];
      RunKeeps(codec, g, earlier);
      RunCredits(codec, g, earlier);
      StepCredits(codec, Run(codec, Fresh(g), earlier), events[|events| - 1]);
    }
  }

  /** Whatever raced and crashed, a turn with a claimed decision is never stuck: repeating one of the exits that
      already began, undisturbed, lands the turn's references. */
  lemma SomeExitCanFinish(codec: Codec, g: GraphState, events: seq<Event>, turn: EntityID, at: int)
    requires Apart(codec) && forall t :: !HasRefs(g, t)
    requires var w := Run(codec, Fresh(g), events);
      && turn in w.graph && codec.decisionKey(turn) in w.stores.claims
      && forall client :: client in w.exits ==> Fits(codec, w.exits[client].task)
    ensures var w := Run(codec, Fresh(g), events);
      exists client :: client in w.exits && w.exits[client].task.turn == turn &&
        CommitOutcome(codec, w.stores, w.graph, w.exits[client].task, at, [], Committed).2
  {
    var w := Run(codec, Fresh(g), events);
    RunKeeps(codec, g, events);
    RunCredits(codec, g, events);
    assert DecisionCredited(codec, w, turn) && RecordCredited(codec, w, turn);
    if codec.stageKey(turn) in w.stores.claims {
      var client :| client in w.exits && w.exits[client].task.turn == turn &&
        DecisionResident(codec, w.stores, w.exits[client].task) &&
        w.stores.claims[codec.stageKey(turn)] == codec.encodeStage(w.exits[client].task.record);
      FinishesExactly(codec, w.stores, w.graph, w.exits[client].task, at);
    } else {
      var client :| client in w.exits && w.exits[client].task.turn == turn &&
        w.stores.claims[codec.decisionKey(turn)] == codec.encodeDecision(w.exits[client].task.decision);
      FinishesExactly(codec, w.stores, w.graph, w.exits[client].task, at);
    }
  }
}
