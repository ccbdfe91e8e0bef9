/** Resolving a turn's roll at most once, and re-executing it from the archive. */
module Replay {
  import opened Wrappers
  import opened Vocabulary
  import opened Graph
  import opened Dice
  import LedgerManifest

  datatype Verdict = Verdict(turnID: string, requiresRoll: bool, modifiers: seq<Modifier>)

  /** One campaign's constants: its seed, its identity, and which entity a turn id addresses. */
  datatype Campaign = Campaign(entropy: Entropy, seed: Seed, campaignID: EntityID, addresses: (string, EntityID) -> bool)

  predicate VerdictValid(c: Campaign, v: Verdict) {
    c.entropy.segment(v.turnID) && ModifiersValid(v.modifiers)
  }

  // ---- Resolving -----------------------------------------------------------

  datatype Recorded = NotRolled | RolledAs(band: string, total: int) | HalfWritten

  function BandText(band: Band): string {
    match band
    case Miss => "miss"
    case Partial => "partial"
    case Full => "full"
    case Auto => "auto"
  }

  /** The roll a turn already carries: all three facts once each, or none. */
  function RecordedRoll(s: EntityState): Recorded {
    var bands, totals, refs := TriplesOf(s, TurnRollBand), TriplesOf(s, TurnRollTotal), TriplesOf(s, TurnRollRef);
    if bands == [] && totals == [] && refs == [] then NotRolled
    else if |bands| != 1 || |totals| != 1 || |refs| != 1 then HalfWritten
    else if !bands[0].obj.Text? || !totals[0].obj.Number? then HalfWritten
    else RolledAs(bands[0].obj.text, totals[0].obj.number)
  }

  datatype Resolution = Resolution(roll: RollResult, first: bool)

  /** A turn that already carries a roll is never re-rolled: its record is checked against its inputs. */
  function Resolve(c: Campaign, v: Verdict, turn: EntityID, g: GraphState): Option<Resolution> {
    if !VerdictValid(c, v) || !c.addresses(v.turnID, turn) || !v.requiresRoll || turn !in g then None
    else match RollFor(PBTA, c.entropy, c.seed, c.campaignID, v.turnID, v.modifiers)
      case None => None
      case Some(roll) =>
        match RecordedRoll(g[turn])
        case NotRolled => Some(Resolution(roll, true))
        case HalfWritten => None
        case RolledAs(band, total) =>
          if band == BandText(roll.band) && total == roll.total then Some(Resolution(roll, false)) else None
  }

  function RollTriples(turn: EntityID, roll: RollResult, ref: string, at: int): seq<Triple> {
    var provenance := Provenance("dice", at, roll.turnID, false);
    [Triple(turn, TurnRollBand, Text(BandText(roll.band)), provenance),
     Triple(turn, TurnRollTotal, Number(roll.total), provenance),
     Triple(turn, TurnRollRef, Text(ref), provenance)]
  }

  const TURN_ROLL: set<Predicate> := {TurnRollBand, TurnRollTotal, TurnRollRef}

  lemma ThreeRollTriples(turn: EntityID, roll: RollResult, ref: string, at: int)
    ensures var t := RollTriples(turn, roll, ref, at);
      && TriplesOf(t, TurnRollBand) == [t[0]] && TriplesOf(t, TurnRollTotal) == [t[1]] && TriplesOf(t, TurnRollRef) == [t[2]]
  {
    var t := RollTriples(turn, roll, ref, at);
    ThreeTriples(t[0], t[1], t[2], TurnRollBand);
    ThreeTriples(t[0], t[1], t[2], TurnRollTotal);
    ThreeTriples(t[0], t[1], t[2], TurnRollRef);
  }

  /** At most one roll: once a resolved roll is recorded, every later resolve of the turn answers with
      that same roll and says it is not the first. */
  lemma ResolvesOnce(c: Campaign, v: Verdict, turn: EntityID, g: GraphState, ref: string, at: int)
    requires Resolve(c, v, turn, g).Some?
    ensures var roll := Resolve(c, v, turn, g).value.roll;
      var after := g[turn := Replace(g[turn], TURN_ROLL, RollTriples(turn, roll, ref, at))];
      Resolve(c, v, turn, after) == Some(Resolution(roll, false))
  {
    var roll := Resolve(c, v, turn, g).value.roll;
    var desired := RollTriples(turn, roll, ref, at);
    ThreeRollTriples(turn, roll, ref, at);
    ReplaceTriples(g[turn], TURN_ROLL, desired, TurnRollBand);
    ReplaceTriples(g[turn], TURN_ROLL, desired, TurnRollTotal);
    ReplaceTriples(g[turn], TURN_ROLL, desired, TurnRollRef);
  }

  // ---- Replaying -----------------------------------------------------------

  datatype Narration = Narration(turnID: string, band: Band)

  /** The archived artifacts, by the references a manifest preserves. */
  datatype Artifacts = Artifacts(
    verdicts: map<string, Verdict>,
    rolls: map<string, RollResult>,
    narrations: map<string, Narration>)

  datatype Failure = Incoherent | NotReplayable | NotReproducible

  datatype Record = Record(
    verdict: Option<Verdict>, roll: Option<RollResult>, reproduced: Option<RollResult>, narration: Option<Narration>)

  function ReadVerdict(artifacts: Artifacts, m: LedgerManifest.Manifest): Result<Option<Verdict>, Failure> {
    if m.verdictRef == "" then Ok(None)
    else if m.verdictRef !in artifacts.verdicts || artifacts.verdicts[m.verdictRef].turnID != m.turnID then Err(Incoherent)
    else Ok(Some(artifacts.verdicts[m.verdictRef]))
  }

  /** The dice again, from the campaign seed, the turn, and the modifiers the verdict declared. */
  function ReplayRoll(
    c: Campaign, artifacts: Artifacts, m: LedgerManifest.Manifest, verdict: Option<Verdict>
  ): Result<Option<RollResult>, Failure> {
    if m.rollRef == "" then
      if verdict.Some? && verdict.value.requiresRoll then Err(Incoherent) else Ok(None)
    else if verdict == None || !verdict.value.requiresRoll || m.rollRef !in artifacts.rolls then Err(Incoherent)
    else
      var recorded := artifacts.rolls[m.rollRef];
      if recorded.turnID != m.turnID || recorded.seed.campaignID != m.campaignID then Err(Incoherent)
      else if recorded.rngVersion != RNG_VERSION || SpecFor(recorded.mechanic) == None then Err(NotReplayable)
      else match RollFor(PBTA, c.entropy, c.seed, recorded.seed.campaignID, m.turnID, verdict.value.modifiers)
        case None => Err(Incoherent)
        case Some(reproduced) => if recorded == reproduced then Ok(Some(reproduced)) else Err(NotReproducible)
  }

  function ReadNarration(
    artifacts: Artifacts, m: LedgerManifest.Manifest, roll: Option<RollResult>
  ): Result<Option<Narration>, Failure> {
    if m.narrationRef == "" then Ok(None)
    else if m.narrationRef !in artifacts.narrations then Err(Incoherent)
    else
      var narration := artifacts.narrations[m.narrationRef];
      var want := if roll.Some? then roll.value.band else Auto;
      if narration.turnID != m.turnID || narration.band != want then Err(Incoherent) else Ok(Some(narration))
  }

  /** Re-executes the deterministic half and reads the rest. */
  function ReplayOf(
    c: Campaign, grammar: LedgerManifest.Grammar, artifacts: Artifacts, m: LedgerManifest.Manifest
  ): Result<Record, Failure> {
    if !LedgerManifest.ManifestValid(grammar, m) || m.campaignID != c.campaignID then Err(Incoherent)
    else match ReadVerdict(artifacts, m)
      case Err(e) => Err(e)
      case Ok(verdict) =>
        match ReplayRoll(c, artifacts, m, verdict)
        case Err(e) => Err(e)
        case Ok(roll) =>
          match ReadNarration(artifacts, m, roll)
          case Err(e) => Err(e)
          case Ok(narration) =>
            Ok(Record(verdict, if m.rollRef == "" then None else Some(artifacts.rolls[m.rollRef]), roll, narration))
  }

  class Reader {
    const campaign: Campaign
    const grammar: LedgerManifest.Grammar
    const artifacts: Artifacts

    constructor (campaign: Campaign, grammar: LedgerManifest.Grammar, artifacts: Artifacts)
      ensures this.campaign == campaign && this.grammar == grammar && this.artifacts == artifacts
    {
      this.campaign, this.grammar, this.artifacts := campaign, grammar, artifacts;
    }

    /** Fills a record step by step: the verdict is read, the roll re-executed, the narration read. */
    method ReplayTurn(m: LedgerManifest.Manifest) returns (r: Result<Record, Failure>)
      ensures r == ReplayOf(campaign, grammar, artifacts, m)
    {
      if !LedgerManifest.ManifestValid(grammar, m) || m.campaignID != campaign.campaignID {
        return Err(Incoherent);
      }
      var verdict := ReadVerdict(artifacts, m);
      if verdict.Err? {
        return Err(verdict.error);
      }
      var record := Record(verdict.value, None, None, None);
      var replayed := ReplayArchivedRoll(m, verdict.value);
      if replayed.Err? {
        return Err(replayed.error);
      }
      if replayed.value.Some? {
        record := record.(roll := Some(artifacts.rolls[m.rollRef]), reproduced := replayed.value);
      }
      var narration := ReadNarration(artifacts, m, record.reproduced);
      if narration.Err? {
        return Err(narration.error);
      }
      record := record.(narration := narration.value);
      return Ok(record);
    }

    method ReplayArchivedRoll(m: LedgerManifest.Manifest, verdict: Option<Verdict>)
      returns (r: Result<Option<RollResult>, Failure>)
      ensures r == ReplayRoll(campaign, artifacts, m, verdict)
    {
      if m.rollRef == "" {
        return if verdict.Some? && verdict.value.requiresRoll then Err(Incoherent) else Ok(None);
      }
      if verdict == None || !verdict.value.requiresRoll || m.rollRef !in artifacts.rolls {
        return Err(Incoherent);
      }
      var recorded := artifacts.rolls[m.rollRef];
      if recorded.turnID != m.turnID || recorded.seed.campaignID != m.campaignID {
        return Err(Incoherent);
      }
      if recorded.rngVersion != RNG_VERSION || SpecFor(recorded.mechanic) == None {
        return Err(NotReplayable);
      }
      var reproduced := Roll(PBTA, campaign.entropy, campaign.seed, recorded.seed.campaignID, m.turnID, verdict.value.modifiers);
      if reproduced == None {
        return Err(Incoherent);
      }
      return if recorded == reproduced.value then Ok(reproduced) else Err(NotReproducible);
    }
  }

  /** A successful replay with a roll proves the archived record is the one the campaign seed, the turn id and
      the verdict's modifiers determine: dice in range, total their sum, band their total's, prose filed under it. */
  lemma ReplayIsHonest(c: Campaign, grammar: LedgerManifest.Grammar, artifacts: Artifacts, m: LedgerManifest.Manifest)
    requires ReplayOf(c, grammar, artifacts, m).Ok? && m.rollRef != ""
    ensures var record := ReplayOf(c, grammar, artifacts, m).value;
      && record.roll.Some? && record.reproduced == record.roll && record.verdict.Some?
      && record.roll == RollFor(PBTA, c.entropy, c.seed, c.campaignID, m.turnID, record.verdict.value.modifiers)
      && record.roll.value == artifacts.rolls[m.rollRef]
      && record.verdict.value == artifacts.verdicts[m.verdictRef] && record.verdict.value.requiresRoll
      && (forall i :: 0 <= i < |record.roll.value.dice| ==> 1 <= record.roll.value.dice[i] <= PBTA.faces)
      && record.roll.value.total == Sum(record.roll.value.dice) + SumModifiers(record.verdict.value.modifiers)
      && record.roll.value.band == BandForTotal(PBTA, record.roll.value.total)
      && (record.narration.Some? ==> record.narration.value.band == record.roll.value.band)
  {}

  /** The other way: a roll that `Resolve` produced, archived unchanged beside its verdict and a narration
      of its band, always replays, to the identical record. */
  lemma ResolvedRollsReplay(
    c: Campaign, grammar: LedgerManifest.Grammar, artifacts: Artifacts, m: LedgerManifest.Manifest,
    v: Verdict, turn: EntityID, g: GraphState)
    requires Resolve(c, v, turn, g).Some?
    requires LedgerManifest.ManifestValid(grammar, m) && m.campaignID == c.campaignID && m.turnID == v.turnID
    requires m.verdictRef != "" && m.verdictRef in artifacts.verdicts && artifacts.verdicts[m.verdictRef] == v
    requires m.rollRef != "" && m.rollRef in artifacts.rolls
    requires artifacts.rolls[m.rollRef] == Resolve(c, v, turn, g).value.roll
    requires m.narrationRef != "" ==>
               && m.narrationRef in artifacts.narrations
               && artifacts.narrations[m.narrationRef] == Narration(m.turnID, Resolve(c, v, turn, g).value.roll.band)
    ensures var roll := Resolve(c, v, turn, g).value.roll;
      && ReplayOf(c, grammar, artifacts, m).Ok?
      && ReplayOf(c, grammar, artifacts, m).value.roll == Some(roll)
      && ReplayOf(c, grammar, artifacts, m).value.reproduced == Some(roll)
  {}

  /** A tampered roll never replays: changing any field of what the inputs determine is caught. */
  lemma TamperedRollsFail(
    c: Campaign, grammar: LedgerManifest.Grammar, artifacts: Artifacts, m: LedgerManifest.Manifest,
    v: Verdict, turn: EntityID, g: GraphState)
    requires Resolve(c, v, turn, g).Some? && m.turnID == v.turnID
    requires m.verdictRef != "" && m.verdictRef in artifacts.verdicts && artifacts.verdicts[m.verdictRef] == v
    requires m.rollRef != "" && m.rollRef in artifacts.rolls
    requires artifacts.rolls[m.rollRef] != Resolve(c, v, turn, g).value.roll
    ensures ReplayOf(c, grammar, artifacts, m).Err?
  {}

  // ---- From a resolved turn to its replay ----------------------------------

  /** The turn after its roll was recorded and whatever else was written to it since, the roll family apart. */
  predicate CarriesRoll(s: EntityState, turn: EntityID, roll: RollResult, ref: string, at: int) {
    var t := RollTriples(turn, roll, ref, at);
    TriplesOf(s, TurnRollBand) == [t[0]] && TriplesOf(s, TurnRollTotal) == [t[1]] && TriplesOf(s, TurnRollRef) == [t[2]]
  }

  /** Recording a resolved roll leaves a turn that carries it, and no other family of the turn moves. */
  lemma RecordingCarries(s: EntityState, turn: EntityID, roll: RollResult, ref: string, at: int, p: Predicate)
    ensures var after := Replace(s, TURN_ROLL, RollTriples(turn, roll, ref, at));
      CarriesRoll(after, turn, roll, ref, at) && (p !in TURN_ROLL ==> TriplesOf(after, p) == TriplesOf(s, p))
  {
    var desired := RollTriples(turn, roll, ref, at);
    ThreeRollTriples(turn, roll, ref, at);
    ReplaceTriples(s, TURN_ROLL, desired, TurnRollBand);
    ReplaceTriples(s, TURN_ROLL, desired, TurnRollTotal);
    ReplaceTriples(s, TURN_ROLL, desired, TurnRollRef);
    ReplaceTriples(s, TURN_ROLL, desired, p);
  }

  /** The archived prose, when the manifest names any, belongs to this turn and to this band. */
  predicate NarrationFits(artifacts: Artifacts, m: LedgerManifest.Manifest, band: Band) {
    m.narrationRef != "" ==>
      m.narrationRef in artifacts.narrations && artifacts.narrations[m.narrationRef] == Narration(m.turnID, band)
  }

  lemma ComposedRollRef(
    grammar: LedgerManifest.Grammar, campaignID: EntityID, turn: EntityID, s: EntityState, roll: RollResult, ref: string, at: int)
    requires LedgerManifest.Compose(grammar, campaignID, turn, s).Some? && CarriesRoll(s, turn, roll, ref, at)
    ensures var m := LedgerManifest.Compose(grammar, campaignID, turn, s).value;
      && m.rollRef == ref && m.turnID == grammar.instance(turn) && m.campaignID == campaignID
      && LedgerManifest.ManifestValid(grammar, m)
  {
    assert LedgerManifest.OptionalString(s, TurnRollRef) == Some(ref);
  }

  /** End to end: a turn was resolved and its roll recorded, anything else was written to it, and the ledger composed
      it. Its manifest replays if and only if the archive still holds the very roll that was resolved and, where the
      turn was narrated, prose of that turn and that roll's band; and then it replays to that roll. */
  lemma ResolvedTurnReplaysExactly(
    c: Campaign, grammar: LedgerManifest.Grammar, artifacts: Artifacts,
    v: Verdict, turn: EntityID, g: GraphState, s: EntityState, ref: string, at: int)
    requires Resolve(c, v, turn, g).Some? && grammar.instance(turn) == v.turnID && ref != ""
    requires CarriesRoll(s, turn, Resolve(c, v, turn, g).value.roll, ref, at)
    requires LedgerManifest.Compose(grammar, c.campaignID, turn, s).Some?
    requires var m := LedgerManifest.Compose(grammar, c.campaignID, turn, s).value;
      m.verdictRef != "" && m.verdictRef in artifacts.verdicts && artifacts.verdicts[m.verdictRef] == v
    ensures var roll := Resolve(c, v, turn, g).value.roll;
      var m := LedgerManifest.Compose(grammar, c.campaignID, turn, s).value;
      && (ReplayOf(c, grammar, artifacts, m).Ok? <==>
            ref in artifacts.rolls && artifacts.rolls[ref] == roll && NarrationFits(artifacts, m, roll.band))
      && (ReplayOf(c, grammar, artifacts, m).Ok? ==>
            ReplayOf(c, grammar, artifacts, m).value ==
            Record(Some(v), Some(roll), Some(roll),
                   if m.narrationRef == "" then None else Some(Narration(v.turnID, roll.band))))
  {
    var roll := Resolve(c, v, turn, g).value.roll;
    var m := LedgerManifest.Compose(grammar, c.campaignID, turn, s).value;
    ComposedRollRef(grammar, c.campaignID, turn, s, roll, ref, at);
    assert ReadVerdict(artifacts, m) == Ok(Some(v));
    RollReplays(c, artifacts, m, v, roll);
  }

  lemma RollReplays(
    c: Campaign, artifacts: Artifacts, m: LedgerManifest.Manifest, v: Verdict, roll: RollResult)
    requires v.requiresRoll && m.turnID == v.turnID && m.campaignID == c.campaignID && m.rollRef != ""
    requires RollFor(PBTA, c.entropy, c.seed, c.campaignID, v.turnID, v.modifiers) == Some(roll)
    ensures var replayed := ReplayRoll(c, artifacts, m, Some(v));
      && (replayed.Ok? <==> m.rollRef in artifacts.rolls && artifacts.rolls[m.rollRef] == roll)
      && (replayed.Ok? ==> replayed.value == Some(roll))
  {}

  /** The archived verdict, when the manifest names any, is this turn's own and asked for no roll. */
  predicate NoRollAsked(artifacts: Artifacts, m: LedgerManifest.Manifest) {
    m.verdictRef != "" ==>
      && m.verdictRef in artifacts.verdicts
      && artifacts.verdicts[m.verdictRef].turnID == m.turnID && !artifacts.verdicts[m.verdictRef].requiresRoll
  }

  /** A turn that names no roll replays if and only if its manifest is a valid one of this campaign, its verdict asked
      for no roll, and its prose is filed under the automatic band; the record then holds no dice at all. */
  lemma RollFreeTurnReplaysExactly(
    c: Campaign, grammar: LedgerManifest.Grammar, artifacts: Artifacts, m: LedgerManifest.Manifest)
    requires m.rollRef == ""
    ensures ReplayOf(c, grammar, artifacts, m).Ok? <==>
      && LedgerManifest.ManifestValid(grammar, m) && m.campaignID == c.campaignID
      && NoRollAsked(artifacts, m) && NarrationFits(artifacts, m, Auto)
    ensures ReplayOf(c, grammar, artifacts, m).Ok? ==>
      ReplayOf(c, grammar, artifacts, m).value ==
      Record(if m.verdictRef == "" then None else Some(artifacts.verdicts[m.verdictRef]), None, None,
             if m.narrationRef == "" then None else Some(Narration(m.turnID, Auto)))
  {
    var verdict := ReadVerdict(artifacts, m);
    if verdict.Ok? {
      RollFreeReads(c, artifacts, m, verdict.value);
    }
  }

  lemma RollFreeReads(c: Campaign, artifacts: Artifacts, m: LedgerManifest.Manifest, verdict: Option<Verdict>)
    requires m.rollRef == "" && ReadVerdict(artifacts, m) == Ok(verdict)
    ensures ReplayRoll(c, artifacts, m, verdict) == if NoRollAsked(artifacts, m) then Ok(None) else Err(Incoherent)
    ensures ReadNarration(artifacts, m, None).Ok? <==> NarrationFits(artifacts, m, Auto)
    ensures NarrationFits(artifacts, m, Auto) && m.narrationRef != "" ==>
      ReadNarration(artifacts, m, None) == Ok(Some(Narration(m.turnID, Auto)))
  {}
}
