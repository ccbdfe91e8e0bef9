/** What a finished companion exit leaves behind, spelled out for each of the two exits. */
module CompanionOutcomes {
  import opened Wrappers
  import opened Vocabulary
  import opened Graph
  import opened ExactClaims
  import opened Companion

  /** Both copies of an artifact are there, and no other key moved. */
  ghost predicate Left(s: Stores, s': Stores, dk: Key, decision: Bytes, sk: Key, record: Bytes) {
    && Resident(s', dk, decision) && Resident(s', sk, record)
    && (forall key :: key != dk && key != sk ==> (key in s'.claims <==> key in s.claims) && (key in s'.objects <==> key in s.objects))
    && (forall key :: key != dk && key != sk && key in s.claims ==> s'.claims[key] == s.claims[key])
    && (forall key :: key != dk && key != sk && key in s.objects ==> s'.objects[key] == s.objects[key])
  }

  /** The turn names its two slots and what triggered the companion, in the name of this exit, and no other entity moved. */
  ghost predicate Named(codec: Codec, g: GraphState, g': GraphState, turn: EntityID, trigger: string, origin: string, voice: string) {
    && turn in g && g'.Keys == g.Keys && (forall id :: id in g && id != turn ==> g'[id] == g[id])
    && var s := g'[turn];
    && Objects(s, TurnCompanionStageRef) == {Text(codec.stageRef(turn))}
    && Objects(s, TurnCompanionDecisionRef) == {Text(codec.decisionRef(turn))}
    && Objects(s, TurnCompanionTriggerKind) == {Text(trigger)}
    && Objects(s, TurnCompanionTriggerSource) == {Text(origin)}
    && OthersKept(g[turn], s) && SpokenAs(s, voice)
  }

  ghost predicate OthersKept(s: EntityState, s': EntityState) {
    forall p :: p !in TURN_COMPANION_RESULT ==> TriplesOf(s', p) == TriplesOf(s, p)
  }

  ghost predicate SpokenAs(s: EntityState, voice: string) {
    forall t :: t in TriplesOf(s, TurnCompanionStageRef) ==> t.provenance.source == voice
  }

  lemma Finished(codec: Codec, s: Stores, g: GraphState, task: Task, at: int)
    requires StoresSound(s) && codec.decisionKey(task.turn) != codec.stageKey(task.turn)
    requires CommitOutcome(codec, s, g, task, at, [], Committed).2
    ensures var (s', g', _) := CommitOutcome(codec, s, g, task, at, [], Committed);
      && Left(s, s', codec.decisionKey(task.turn), codec.encodeDecision(task.decision),
              codec.stageKey(task.turn), codec.encodeStage(task.record))
      && task.turn in g
      && g' == g[task.turn := Replace(g[task.turn], TURN_COMPANION_RESULT, ResultTriples(codec, task, at))]
  {
    var dk, decision := codec.decisionKey(task.turn), codec.encodeDecision(task.decision);
    FinishesExactly(codec, s, g, task, at);
    PutExactly(s, dk, decision);
    var s1 := PutOutcome(s, dk, decision, []).0;
    PutExactly(s1, codec.stageKey(task.turn), codec.encodeStage(task.record));
  }

  lemma ResultNamed(codec: Codec, g: GraphState, task: Task, at: int)
    requires task.turn in g
    ensures var voice := if task.record.exhausted then "persona-companion-exhausted" else "persona-companion";
      Named(codec, g, g[task.turn := Replace(g[task.turn], TURN_COMPANION_RESULT, ResultTriples(codec, task, at))],
            task.turn, task.record.trigger, task.record.source, voice)
  {
    ResultReadsBack(codec, g, task, at);
    ResultKeepsOthers(codec, g[task.turn], task, at);
    ResultSpoken(codec, g[task.turn], task, at);
  }

  lemma ResultKeepsOthers(codec: Codec, s: EntityState, task: Task, at: int)
    ensures OthersKept(s, Replace(s, TURN_COMPANION_RESULT, ResultTriples(codec, task, at)))
  {
    var desired := ResultTriples(codec, task, at);
    forall p | p !in TURN_COMPANION_RESULT
      ensures TriplesOf(Replace(s, TURN_COMPANION_RESULT, desired), p) == TriplesOf(s, p)
    {
      ReplaceTriples(s, TURN_COMPANION_RESULT, desired, p);
    }
  }

  lemma ResultSpoken(codec: Codec, s: EntityState, task: Task, at: int)
    ensures SpokenAs(Replace(s, TURN_COMPANION_RESULT, ResultTriples(codec, task, at)),
                     if task.record.exhausted then "persona-companion-exhausted" else "persona-companion")
  {
    var desired := ResultTriples(codec, task, at);
    ReplaceTriples(s, TURN_COMPANION_RESULT, desired, TurnCompanionStageRef);
    forall t | t in TriplesOf(desired, TurnCompanionStageRef) ensures t in desired {
      WithinMembers(desired, {TurnCompanionStageRef}, t);
    }
  }

  /** The persona's exit leaves the decision it was authorized for, and a record that says it was not exhausted. */
  lemma ExecutedExactly(
    codec: Codec, s: Stores, g: GraphState, d: Decision, trigger: string, origin: string, at: int)
    requires StoresSound(s) && codec.decisionKey(d.turn) != codec.stageKey(d.turn)
    requires CommitOutcome(codec, s, g, Executing(codec, d, trigger, origin), at, [], Committed).2
    ensures var (s', g', _) := CommitOutcome(codec, s, g, Executing(codec, d, trigger, origin), at, [], Committed);
      && Left(s, s', codec.decisionKey(d.turn), codec.encodeDecision(d), codec.stageKey(d.turn),
              codec.encodeStage(StageRecord(d.turn, false, trigger, origin, codec.decisionRef(d.turn))))
      && Named(codec, g, g', d.turn, trigger, origin, "persona-companion")
  {
    Finished(codec, s, g, Executing(codec, d, trigger, origin), at);
    ResultNamed(codec, g, Executing(codec, d, trigger, origin), at);
  }

  /** The exhaustion exit leaves silence, which cites nothing, and a record that says so. */
  lemma ExhaustedExactly(
    codec: Codec, s: Stores, g: GraphState, turn: EntityID, context: string, trigger: string, origin: string, at: int)
    requires StoresSound(s) && codec.decisionKey(turn) != codec.stageKey(turn)
    requires CommitOutcome(codec, s, g, Exhausting(codec, turn, context, trigger, origin), at, [], Committed).2
    ensures var (s', g', _) := CommitOutcome(codec, s, g, Exhausting(codec, turn, context, trigger, origin), at, [], Committed);
      && Left(s, s', codec.decisionKey(turn), codec.encodeDecision(Decision(turn, context, true, [])), codec.stageKey(turn),
              codec.encodeStage(StageRecord(turn, true, trigger, origin, codec.decisionRef(turn))))
      && Named(codec, g, g', turn, trigger, origin, "persona-companion-exhausted")
  {
    Finished(codec, s, g, Exhausting(codec, turn, context, trigger, origin), at);
    ResultNamed(codec, g, Exhausting(codec, turn, context, trigger, origin), at);
  }
}
