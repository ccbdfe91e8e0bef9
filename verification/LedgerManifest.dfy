/** One resolved turn as the ledger records it: a pure reading of the turn entity. */
module LedgerManifest {
  import opened Wrappers
  import opened Vocabulary
  import opened Graph

  const TURN_PHASES: set<string> := {
    "accepted", "interpreting", "adjudicating", "resolving", "applying", "companion", "narrating", "complete", "failed"}
  const PLAUSIBILITIES: set<string> := {"impossible", "unlikely", "plausible", "certain"}
  const RISKS: set<string> := {"none", "low", "moderate", "high"}
  const FAILURE_REASONS: set<string> := {
    "effect-invalid", "effect-entity-missing", "effect-entity-kind", "effect-commit-incomplete",
    "persona-cap-exhausted", "persona-loop-failed", "turn-stranded",
    "knowledge-unauthorized", "accusation-invalid", "case-progress-invalid"}

  predicate IsTerminal(phase: string) {
    phase == "complete" || phase == "failed"
  }

  datatype RollGate = RollGate(plausibility: string, risk: string, reported: bool, advised: bool)

  datatype Manifest = Manifest(
    turnID: string, actionID: string, campaignID: EntityID, phase: string, recordedAt: int,
    playerID: EntityID, sceneID: EntityID, actionRef: string,
    verdictRef: string, rollRef: string, effectBatchRef: string, narrationRef: string, failureReason: string,
    rollGate: Option<RollGate>)

  /** The upstream identity grammars: a canonical entity, its instance segment, and the action a
      turn identity is derived from. */
  datatype Grammar = Grammar(
    canonical: EntityID -> bool,
    instance: EntityID -> string,
    actionOf: string -> Option<string>)

  /** Every predicate the ledger reads off a turn. */
  const LEDGER_PREDICATES: set<Predicate> := {
    TurnPhaseCurrent, TurnActionPlayer, TurnActionScene, TurnActionRef,
    TurnVerdictRef, TurnRollRef, TurnEffectsRef, TurnNarrationRef, TurnFailureReason,
    TurnVerdictPlausibility, TurnVerdictRisk, TurnVerdictRequiresRoll}

  /** A single-valued fact: absent, one value, or a record nobody may choose from. */
  datatype Sole = Absent | One(triple: Triple) | Ambiguous

  function SoleTriple(s: EntityState, p: Predicate): Sole {
    var triples := TriplesOf(s, p);
    if triples == [] then Absent else if |triples| == 1 then One(triples[0]) else Ambiguous
  }

  /** Empty when absent; `None` when the record cannot be read. */
  function OptionalString(s: EntityState, p: Predicate): Option<string> {
    match SoleTriple(s, p)
    case Absent => Some("")
    case Ambiguous => None
    case One(t) => if t.obj.Text? then Some(t.obj.text) else None
  }

  function RequiredString(s: EntityState, p: Predicate): Option<string> {
    if OptionalString(s, p) == Some("") then None else OptionalString(s, p)
  }

  function OptionalBool(s: EntityState, p: Predicate): Option<Option<bool>> {
    match SoleTriple(s, p)
    case Absent => Some(None)
    case Ambiguous => None
    case One(t) => if t.obj.Flag? then Some(Some(t.obj.flag)) else None
  }

  function RecordedPhase(s: EntityState): Option<(string, int)> {
    match SoleTriple(s, TurnPhaseCurrent)
    case One(t) =>
      if t.obj.Text? && t.obj.text in TURN_PHASES then Some((t.obj.text, t.provenance.at)) else None
    case _ => None
  }

  /** The advisory mapping in force: an uncertain action that risks something is rolled for. */
  function Advised(plausibility: string, risk: string): bool {
    (plausibility == "unlikely" || plausibility == "plausible") && risk != "none"
  }

  /** The three verdict scalars land in one write: all of them, or none. */
  function RollGateOf(s: EntityState): Option<Option<RollGate>> {
    match (OptionalString(s, TurnVerdictPlausibility), OptionalString(s, TurnVerdictRisk),
           OptionalBool(s, TurnVerdictRequiresRoll))
    case (Some(plausibility), Some(risk), Some(reported)) =>
      if plausibility == "" && risk == "" && reported == None then Some(None)
      else if plausibility == "" || risk == "" || reported == None then None
      else if plausibility !in PLAUSIBILITIES || risk !in RISKS then None
      else Some(Some(RollGate(plausibility, risk, reported.value, Advised(plausibility, risk))))
    case _ => None
  }

  predicate ManifestValid(grammar: Grammar, m: Manifest) {
    && grammar.canonical(m.campaignID) && grammar.canonical(m.sceneID) && grammar.canonical(m.playerID)
    && m.actionRef != ""
    && IsTerminal(m.phase)
    && (m.phase == "failed" ==> m.failureReason in FAILURE_REASONS)
    && (m.phase == "complete" ==>
          m.failureReason == "" && m.verdictRef != "" && m.narrationRef != "" && m.rollGate.Some?)
    && m.recordedAt != 0
  }

  function Draft(
    grammar: Grammar, turnID: string, actionID: string, campaignID: EntityID, phase: (string, int), s: EntityState
  ): Option<Manifest> {
    match (RequiredString(s, TurnActionPlayer), RequiredString(s, TurnActionScene), RequiredString(s, TurnActionRef),
           OptionalString(s, TurnVerdictRef), OptionalString(s, TurnRollRef), OptionalString(s, TurnEffectsRef),
           OptionalString(s, TurnNarrationRef), OptionalString(s, TurnFailureReason), RollGateOf(s))
    case (Some(player), Some(scene), Some(action), Some(verdict), Some(roll), Some(effects), Some(narration),
          Some(failure), Some(gate)) =>
      Some(Manifest(turnID, actionID, campaignID, phase.0, phase.1, player, scene, action,
                    verdict, roll, effects, narration, failure, gate))
    case _ => None
  }

  /** No clock and no store: composing the same terminal turn twice gives the same record. */
  function Compose(grammar: Grammar, campaignID: EntityID, turn: EntityID, s: EntityState): Option<Manifest> {
    var turnID := grammar.instance(turn);
    var actionID, phase := grammar.actionOf(turnID), RecordedPhase(s);
    if !grammar.canonical(turn) || actionID == None || phase == None || !IsTerminal(phase.value.0) then None
    else match Draft(grammar, turnID, actionID.value, campaignID, phase.value, s)
      case None => None
      case Some(m) => if ManifestValid(grammar, m) then Some(m) else None
  }

  predicate SameFacts(s: EntityState, s': EntityState) {
    forall p :: p in LEDGER_PREDICATES ==> TriplesOf(s', p) == TriplesOf(s, p)
  }

  lemma GateReadsOnly(s: EntityState, s': EntityState)
    requires SameFacts(s, s')
    ensures RollGateOf(s') == RollGateOf(s)
  {
    assert TurnVerdictPlausibility in LEDGER_PREDICATES && TurnVerdictRisk in LEDGER_PREDICATES;
    assert TurnVerdictRequiresRoll in LEDGER_PREDICATES;
  }

  lemma StringReadsOnly(s: EntityState, s': EntityState, p: Predicate)
    requires SameFacts(s, s') && p in LEDGER_PREDICATES
    ensures OptionalString(s', p) == OptionalString(s, p) && SoleTriple(s', p) == SoleTriple(s, p)
  {}

  lemma DraftReadsOnly(
    grammar: Grammar, turnID: string, actionID: string, campaignID: EntityID, phase: (string, int),
    s: EntityState, s': EntityState)
    requires SameFacts(s, s')
    ensures Draft(grammar, turnID, actionID, campaignID, phase, s') == Draft(grammar, turnID, actionID, campaignID, phase, s)
  {
    StringReadsOnly(s, s', TurnActionPlayer);
    StringReadsOnly(s, s', TurnActionScene);
    StringReadsOnly(s, s', TurnActionRef);
    StringReadsOnly(s, s', TurnVerdictRef);
    StringReadsOnly(s, s', TurnRollRef);
    StringReadsOnly(s, s', TurnEffectsRef);
    StringReadsOnly(s, s', TurnNarrationRef);
    StringReadsOnly(s, s', TurnFailureReason);
    GateReadsOnly(s, s');
  }

  /** Composition depends on nothing but the predicates the ledger reads. */
  lemma ComposeReadsOnly(grammar: Grammar, campaignID: EntityID, turn: EntityID, s: EntityState, s': EntityState)
    requires SameFacts(s, s')
    ensures Compose(grammar, campaignID, turn, s') == Compose(grammar, campaignID, turn, s)
  {
    StringReadsOnly(s, s', TurnPhaseCurrent);
    var turnID, phase := grammar.instance(turn), RecordedPhase(s);
    if grammar.actionOf(turnID).Some? && phase.Some? {
      DraftReadsOnly(grammar, turnID, grammar.actionOf(turnID).value, campaignID, phase.value, s, s');
    }
  }

  /** What an archived record certifies about the turn it was composed from. */
  lemma ComposedMeansResolved(grammar: Grammar, campaignID: EntityID, turn: EntityID, s: EntityState)
    requires Compose(grammar, campaignID, turn, s).Some?
    ensures var m := Compose(grammar, campaignID, turn, s).value;
      && |TriplesOf(s, TurnPhaseCurrent)| == 1
      && TriplesOf(s, TurnPhaseCurrent)[0].obj == Text(m.phase) && IsTerminal(m.phase)
      && TriplesOf(s, TurnPhaseCurrent)[0].provenance.at == m.recordedAt
      && (m.rollGate.Some? ==> m.rollGate.value.advised == Advised(m.rollGate.value.plausibility, m.rollGate.value.risk))
      && (m.phase == "complete" ==> m.rollGate.Some? && m.verdictRef != "" && m.narrationRef != "")
      && (m.phase == "failed" ==> m.failureReason in FAILURE_REASONS)
  {}

  /** The entity records this text for a predicate, and nothing else; empty means it records none. */
  predicate Says(s: EntityState, p: Predicate, text: string) {
    if text == "" then TriplesOf(s, p) == [] || (|TriplesOf(s, p)| == 1 && TriplesOf(s, p)[0].obj == Text(""))
    else |TriplesOf(s, p)| == 1 && TriplesOf(s, p)[0].obj == Text(text)
  }

  lemma OptionalSays(s: EntityState, p: Predicate)
    ensures OptionalString(s, p).Some? ==> Says(s, p, OptionalString(s, p).value)
  {}

  /** The gate is the three verdict scalars, and advises a roll for an uncertain action that risks something. */
  predicate GateSays(s: EntityState, gate: RollGate) {
    && Says(s, TurnVerdictPlausibility, gate.plausibility) && gate.plausibility != ""
    && Says(s, TurnVerdictRisk, gate.risk) && gate.risk != ""
    && |TriplesOf(s, TurnVerdictRequiresRoll)| == 1
    && TriplesOf(s, TurnVerdictRequiresRoll)[0].obj == Flag(gate.reported)
    && (gate.advised <==> gate.plausibility in {"unlikely", "plausible"} && gate.risk != "none")
  }

  /** Every reference of a manifest is what the turn itself records under that reference's own predicate. */
  lemma ComposedFieldsAreRecorded(grammar: Grammar, campaignID: EntityID, turn: EntityID, s: EntityState)
    requires Compose(grammar, campaignID, turn, s).Some?
    ensures var m := Compose(grammar, campaignID, turn, s).value;
      && m.turnID == grammar.instance(turn) && grammar.actionOf(m.turnID) == Some(m.actionID)
      && m.campaignID == campaignID
      && m.playerID != "" && Says(s, TurnActionPlayer, m.playerID)
      && m.sceneID != "" && Says(s, TurnActionScene, m.sceneID)
      && m.actionRef != "" && Says(s, TurnActionRef, m.actionRef)
      && Says(s, TurnVerdictRef, m.verdictRef) && Says(s, TurnRollRef, m.rollRef)
      && Says(s, TurnEffectsRef, m.effectBatchRef) && Says(s, TurnNarrationRef, m.narrationRef)
      && Says(s, TurnFailureReason, m.failureReason)
      && (m.rollGate.Some? ==> GateSays(s, m.rollGate.value))
      && (m.rollGate == None <==>
            Silent(s, TurnVerdictPlausibility) && Silent(s, TurnVerdictRisk) && TriplesOf(s, TurnVerdictRequiresRoll) == [])
  {
    OptionalSays(s, TurnActionPlayer);
    OptionalSays(s, TurnActionScene);
    OptionalSays(s, TurnActionRef);
    OptionalSays(s, TurnVerdictRef);
    OptionalSays(s, TurnRollRef);
    OptionalSays(s, TurnEffectsRef);
    OptionalSays(s, TurnNarrationRef);
    OptionalSays(s, TurnFailureReason);
    OptionalSays(s, TurnVerdictPlausibility);
    OptionalSays(s, TurnVerdictRisk);
  }

  // ---- Which turns are recorded --------------------------------------------

  predicate Silent(s: EntityState, p: Predicate) {
    Says(s, p, "")
  }

  predicate Stated(s: EntityState, p: Predicate) {
    |TriplesOf(s, p)| == 1 && TriplesOf(s, p)[0].obj.Text? && TriplesOf(s, p)[0].obj.text != ""
  }

  function TextOf(s: EntityState, p: Predicate): string requires Stated(s, p) {
    TriplesOf(s, p)[0].obj.text
  }

  /** The three verdict scalars: none recorded, or each one recorded with a declared value. */
  predicate GateWhole(s: EntityState) {
    || (Silent(s, TurnVerdictPlausibility) && Silent(s, TurnVerdictRisk) && TriplesOf(s, TurnVerdictRequiresRoll) == [])
    || GateStated(s)
  }

  predicate GateStated(s: EntityState) {
    && Stated(s, TurnVerdictPlausibility)
    && TextOf(s, TurnVerdictPlausibility) in {"impossible", "unlikely", "plausible", "certain"}
    && Stated(s, TurnVerdictRisk) && TextOf(s, TurnVerdictRisk) in {"none", "low", "moderate", "high"}
    && |TriplesOf(s, TurnVerdictRequiresRoll)| == 1 && TriplesOf(s, TurnVerdictRequiresRoll)[0].obj.Flag?
  }

  /** The turn reached an end at a known instant: complete with verdict, prose and gate, or failed for a declared reason. */
  predicate Ended(s: EntityState) {
    && Stated(s, TurnPhaseCurrent) && TriplesOf(s, TurnPhaseCurrent)[0].provenance.at != 0
    && (|| (&& TextOf(s, TurnPhaseCurrent) == "complete"
            && Silent(s, TurnFailureReason) && Stated(s, TurnVerdictRef) && Stated(s, TurnNarrationRef) && GateStated(s))
        || (&& TextOf(s, TurnPhaseCurrent) == "failed"
            && Stated(s, TurnFailureReason) && TextOf(s, TurnFailureReason) in FAILURE_REASONS))
  }

  /** Nothing the ledger copies is ambiguous, and what it must name is named. */
  predicate Legible(s: EntityState) {
    && Stated(s, TurnActionPlayer) && Stated(s, TurnActionScene) && Stated(s, TurnActionRef)
    && (forall p :: p in {TurnVerdictRef, TurnRollRef, TurnEffectsRef, TurnNarrationRef, TurnFailureReason} ==>
          Silent(s, p) || Stated(s, p))
    && GateWhole(s)
  }

  /** A turn is recorded if and only if it is a turn of some action, legible, ended, and its identities are canonical. */
  lemma ComposesExactly(grammar: Grammar, campaignID: EntityID, turn: EntityID, s: EntityState)
    ensures Compose(grammar, campaignID, turn, s).Some? <==>
      && grammar.canonical(turn) && grammar.actionOf(grammar.instance(turn)).Some?
      && Legible(s) && Ended(s)
      && grammar.canonical(campaignID)
      && grammar.canonical(TextOf(s, TurnActionPlayer)) && grammar.canonical(TextOf(s, TurnActionScene))
  {
    var turnID, phase := grammar.instance(turn), RecordedPhase(s);
    PhaseReads(s);
    if grammar.actionOf(turnID).Some? && phase.Some? {
      var actionID := grammar.actionOf(turnID).value;
      DraftsExactly(grammar, turnID, actionID, campaignID, phase.value, s);
      if Legible(s) && IsTerminal(phase.value.0) {
        ValidExactly(grammar, turnID, actionID, campaignID, phase.value, s);
      }
    }
  }

  lemma PhaseReads(s: EntityState)
    ensures RecordedPhase(s).Some? && IsTerminal(RecordedPhase(s).value.0) <==>
            Stated(s, TurnPhaseCurrent) && TextOf(s, TurnPhaseCurrent) in {"complete", "failed"}
    ensures RecordedPhase(s).Some? ==> RecordedPhase(s).value.1 == TriplesOf(s, TurnPhaseCurrent)[0].provenance.at
    ensures RecordedPhase(s).Some? ==> TriplesOf(s, TurnPhaseCurrent)[0].obj == Text(RecordedPhase(s).value.0)
  {}

  lemma StringReads(s: EntityState, p: Predicate)
    ensures OptionalString(s, p).Some? <==> Silent(s, p) || Stated(s, p)
    ensures RequiredString(s, p).Some? <==> Stated(s, p)
    ensures Stated(s, p) ==> OptionalString(s, p) == Some(TextOf(s, p)) && RequiredString(s, p) == Some(TextOf(s, p))
    ensures Silent(s, p) <==> OptionalString(s, p) == Some("")
  {}

  lemma GateReads(s: EntityState)
    ensures RollGateOf(s).Some? <==> GateWhole(s)
    ensures RollGateOf(s).Some? && RollGateOf(s).value.Some? <==> GateStated(s)
  {
    StringReads(s, TurnVerdictPlausibility);
    StringReads(s, TurnVerdictRisk);
  }

  lemma DraftsExactly(
    grammar: Grammar, turnID: string, actionID: string, campaignID: EntityID, phase: (string, int), s: EntityState)
    ensures Draft(grammar, turnID, actionID, campaignID, phase, s).Some? <==> Legible(s)
  {
    StringReads(s, TurnActionPlayer);
    StringReads(s, TurnActionScene);
    StringReads(s, TurnActionRef);
    StringReads(s, TurnVerdictRef);
    StringReads(s, TurnRollRef);
    StringReads(s, TurnEffectsRef);
    StringReads(s, TurnNarrationRef);
    StringReads(s, TurnFailureReason);
    GateReads(s);
  }

  lemma ValidExactly(
    grammar: Grammar, turnID: string, actionID: string, campaignID: EntityID, phase: (string, int), s: EntityState)
    requires Legible(s) && RecordedPhase(s) == Some(phase) && IsTerminal(phase.0)
    requires Draft(grammar, turnID, actionID, campaignID, phase, s).Some?
    ensures ManifestValid(grammar, Draft(grammar, turnID, actionID, campaignID, phase, s).value) <==>
      && Ended(s) && grammar.canonical(campaignID)
      && grammar.canonical(TextOf(s, TurnActionPlayer)) && grammar.canonical(TextOf(s, TurnActionScene))
  {
    PhaseReads(s);
    StringReads(s, TurnActionPlayer);
    StringReads(s, TurnActionScene);
    StringReads(s, TurnActionRef);
    StringReads(s, TurnVerdictRef);
    StringReads(s, TurnNarrationRef);
    StringReads(s, TurnFailureReason);
    GateReads(s);
  }
}
