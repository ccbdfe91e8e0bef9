/** The instantiation gate: one atomic create decides which boot imports the world, its
    stored provenance is what every boot runs with, and a sealed claim is what marks the import done. */
module Campaign {
  import opened Wrappers
  import opened Vocabulary
  import opened Graph

  const INSTANTIATION_SOURCE := "campaign-gate"
  const MARKER_SOURCE := "campaign-import"

  datatype Experience = Experience(personaPack: string, mechanicsPack: string)

  /** What one claim mints before it knows whether it wins: its seed, and when it asked. */
  datatype Birth = Birth(seed: string, experience: Experience, at: int)

  /** The campaign's identity, and what counts as a stored seed, a pack selection and an instant. */
  datatype Gate = Gate(
    campaignID: EntityID,
    seedValid: string -> bool,
    experienceValid: Experience -> bool,
    instant: int -> string,
    instantValid: string -> bool)

  function BirthTriple(gate: Gate, p: Predicate, text: string, at: int): Triple {
    Triple(gate.campaignID, p, Text(text), Provenance(INSTANTIATION_SOURCE, at, gate.campaignID, false))
  }

  function BirthTriples(gate: Gate, birth: Birth): EntityState {
    [BirthTriple(gate, CampaignSeedValue, birth.seed, birth.at),
     BirthTriple(gate, CampaignExperiencePersonaPack, birth.experience.personaPack, birth.at),
     BirthTriple(gate, CampaignExperienceMechanicsPack, birth.experience.mechanicsPack, birth.at)]
  }

  /** The single text an entity records for a predicate, when it records exactly one value. */
  function SoleText(s: EntityState, p: Predicate): Option<string> {
    var triples := TriplesOf(s, p);
    if |triples| == 1 && triples[0].obj.Text? then Some(triples[0].obj.text) else None
  }

  /** The stored provenance: never inferred, defaulted or backfilled. */
  function StoredInstantiation(gate: Gate, s: EntityState): Option<(string, Experience)> {
    match (SoleText(s, CampaignSeedValue), SoleText(s, CampaignExperiencePersonaPack),
           SoleText(s, CampaignExperienceMechanicsPack))
    case (Some(seed), Some(persona), Some(mechanics)) =>
      if gate.seedValid(seed) && gate.experienceValid(Experience(persona, mechanics))
      then Some((seed, Experience(persona, mechanics))) else None
    case _ => None
  }

  /** The gate's public answer, and the private snapshot that seals it. */
  datatype Snapshot = Snapshot(campaignID: EntityID, seed: string, experience: Experience, isFresh: bool)

  datatype Instantiation = Instantiation(answer: Snapshot, proof: Option<Snapshot>)

  function Sealed(answer: Snapshot): Instantiation {
    Instantiation(answer, Some(answer))
  }

  predicate HasValidProof(claim: Instantiation) {
    claim.proof == Some(claim.answer)
  }

  /** One claim as a value: the graph afterwards, and the answer, if the boot got one. */
  function ClaimOutcome(gate: Gate, g: GraphState, birth: Birth, reply: Reply): (GraphState, Option<Instantiation>) {
    if !gate.experienceValid(birth.experience) || !gate.seedValid(birth.seed) then (g, None)
    else
      var (g', created) := CreateOutcome(g, gate.campaignID, BirthTriples(gate, birth), reply);
      match created
      case CreateFailed => (g', None)
      case Created =>
        if StoredInstantiation(gate, g'[gate.campaignID]) == Some((birth.seed, birth.experience))
        then (g', Some(Sealed(Snapshot(gate.campaignID, birth.seed, birth.experience, true))))
        else (g', None)
      case AlreadyExists =>
        match StoredInstantiation(gate, Lookup(g', gate.campaignID))
        case None => (g', None)
        case Some((seed, experience)) =>
          if experience != birth.experience then (g', None)
          else (g', Some(Sealed(Snapshot(gate.campaignID, seed, experience, false))))
  }

  function MarkerTriple(gate: Gate, at: int): Triple {
    Triple(gate.campaignID, CampaignImportCompleted, Text(gate.instant(at)),
           Provenance(MARKER_SOURCE, at, gate.campaignID, false))
  }

  predicate MayMark(gate: Gate, claim: Instantiation) {
    HasValidProof(claim) && claim.answer.isFresh && claim.answer.campaignID == gate.campaignID
  }

  function MarkOutcome(gate: Gate, g: GraphState, claim: Instantiation, at: int, reply: Reply): (GraphState, bool) {
    if !MayMark(gate, claim) then (g, false)
    else ReconcileOutcome(g, CAMPAIGN_IMPORT, gate.campaignID, [MarkerTriple(gate, at)], reply)
  }

  datatype Completion = Unmarked | MarkedAt(text: string) | Unreadable

  /** Three different answers: no marker, one readable marker, and a record nobody may act on. */
  function CompletionOf(gate: Gate, g: GraphState): Completion {
    if gate.campaignID !in g then Unreadable
    else
      var triples := TriplesOf(g[gate.campaignID], CampaignImportCompleted);
      if triples == [] then Unmarked
      else if |triples| == 1 && triples[0].obj.Text? && gate.instantValid(triples[0].obj.text)
      then MarkedAt(triples[0].obj.text)
      else Unreadable
  }

  class GateKeeper {
    const gate: Gate
    const store: Store

    constructor (gate: Gate, store: Store)
      ensures this.gate == gate && this.store == store
    {
      this.gate, this.store := gate, store;
    }

    /** What one boot learns: that it created the campaign, what the creator stored, or nothing. */
    method Claim(birth: Birth) returns (claim: Option<Instantiation>)
      modifies store
      ensures (store.graph, claim) == ClaimOutcome(gate, old(store.graph), birth, NextReply(old(store.replies)))
      ensures store.replies == if gate.experienceValid(birth.experience) && gate.seedValid(birth.seed)
                               then Later(old(store.replies)) else old(store.replies)
    {
      if !gate.experienceValid(birth.experience) || !gate.seedValid(birth.seed) {
        return None;
      }
      var created := store.CreateEntity(gate.campaignID, BirthTriples(gate, birth));
      match created {
        case CreateFailed => return None;
        case Created =>
          var confirmed := StoredInstantiation(gate, Lookup(store.graph, gate.campaignID));
          if confirmed != Some((birth.seed, birth.experience)) {
            return None;
          }
          return Some(Sealed(Snapshot(gate.campaignID, birth.seed, birth.experience, true)));
        case AlreadyExists =>
          var stored := StoredInstantiation(gate, Lookup(store.graph, gate.campaignID));
          if stored == None || stored.value.1 != birth.experience {
            return None;
          }
          return Some(Sealed(Snapshot(gate.campaignID, stored.value.0, stored.value.1, false)));
      }
    }

    /** Accepts only an untampered answer this gate gave to the boot that created the campaign. */
    method MarkImported(claim: Instantiation, at: int) returns (ok: bool)
      modifies store
      ensures (store.graph, ok) == MarkOutcome(gate, old(store.graph), claim, at, NextReply(old(store.replies)))
    {
      if claim.proof == None || !HasValidProof(claim) || !claim.answer.isFresh ||
         claim.answer.campaignID != gate.campaignID {
        return false;
      }
      ok := store.Reconcile(CAMPAIGN_IMPORT, gate.campaignID, [MarkerTriple(gate, at)]);
    }
  }

  /** Polls a bounded number of reads for the marker: it answers with the first read that settles the
      question, and refuses when none did within the bound. */
  method AwaitImportCompletion(gate: Gate, views: seq<GraphState>) returns (at: Option<string>)
    ensures at.Some? <==>
              exists k :: 0 <= k < |views| && CompletionOf(gate, views[k]).MarkedAt? &&
                forall j :: 0 <= j < k ==> CompletionOf(gate, views[j]) == Unmarked
    ensures at.Some? ==> exists k :: 0 <= k < |views| && CompletionOf(gate, views[k]) == MarkedAt(at.value)
  {
    for i := 0 to |views|
      invariant forall j :: 0 <= j < i ==> CompletionOf(gate, views[j]) == Unmarked
    {
      match CompletionOf(gate, views[i]) {
        case Unreadable => return None;
        case MarkedAt(text) => return Some(text);
        case Unmarked =>
      }
    }
    at := None;
  }

  // ---- What the stored birth determines ------------------------------------

  /** The campaign's birth facts are exactly those this birth minted. */
  ghost predicate BornAs(gate: Gate, s: EntityState, birth: Birth) {
    && TriplesOf(s, CampaignSeedValue) == [BirthTriples(gate, birth)[0]]
    && TriplesOf(s, CampaignExperiencePersonaPack) == [BirthTriples(gate, birth)[1]]
    && TriplesOf(s, CampaignExperienceMechanicsPack) == [BirthTriples(gate, birth)[2]]
  }

  lemma BirthFacts(gate: Gate, birth: Birth)
    ensures BornAs(gate, BirthTriples(gate, birth), birth)
  {
    var b := BirthTriples(gate, birth);
    ThreeTriples(b[0], b[1], b[2], CampaignSeedValue);
    ThreeTriples(b[0], b[1], b[2], CampaignExperiencePersonaPack);
    ThreeTriples(b[0], b[1], b[2], CampaignExperienceMechanicsPack);
  }

  /** A freshly written campaign reads back as exactly what was minted. */
  lemma BirthReadsBack(gate: Gate, birth: Birth)
    requires gate.seedValid(birth.seed) && gate.experienceValid(birth.experience)
    ensures StoredInstantiation(gate, BirthTriples(gate, birth)) == Some((birth.seed, birth.experience))
  {
    BirthFacts(gate, birth);
  }

  /** Two births are the same facts only if they are the same birth. */
  lemma BirthsDiffer(gate: Gate, a: Birth, b: Birth)
    requires BirthMatches(BirthTriples(gate, a), BirthTriples(gate, b))
    ensures a == b
  {
    var left, right := BirthTriples(gate, a), BirthTriples(gate, b);
    forall i | 0 <= i < 3 ensures left[i] in right {
      assert left[i] in multiset(left);
      assert left[i] in multiset(right);
    }
    assert left[0] == right[0] && left[1] == right[1] && left[2] == right[2];
  }

  /** A claim that was changed in any exported field, or was never given by the gate, marks nothing. */
  lemma TamperedClaimsMarkNothing(gate: Gate, g: GraphState, claim: Instantiation, answer: Snapshot, at: int, reply: Reply)
    requires claim.proof == None || claim.proof == Some(answer)
    requires claim.answer != answer || !answer.isFresh || answer.campaignID != gate.campaignID || claim.proof == None
    ensures MarkOutcome(gate, g, claim, at, reply) == (g, false)
  {}

  /** A marker that landed reads back as the instant it was written for, and the provenance as it was. */
  lemma MarkReadsBack(gate: Gate, g: GraphState, claim: Instantiation, at: int, reply: Reply)
    requires gate.instantValid(gate.instant(at)) && MarkOutcome(gate, g, claim, at, reply).1
    ensures var g' := MarkOutcome(gate, g, claim, at, reply).0;
      && MayMark(gate, claim)
      && CompletionOf(gate, g') == MarkedAt(gate.instant(at))
      && gate.campaignID in g
      && StoredInstantiation(gate, g'[gate.campaignID]) == StoredInstantiation(gate, g[gate.campaignID])
  {
    SingletonGroup(g, gate.campaignID, MarkerTriple(gate, at), reply);
    ReconcileObjects(g, CAMPAIGN_IMPORT, gate.campaignID, [MarkerTriple(gate, at)], reply);
  }

  // ---- Who is answered, and with what --------------------------------------

  /** The entity records exactly this text for the predicate. */
  predicate Holds(s: EntityState, p: Predicate, text: string) {
    |TriplesOf(s, p)| == 1 && TriplesOf(s, p)[0].obj == Text(text)
  }

  /** The campaign stands with this seed, born for this selection of packs. */
  predicate StandsWith(gate: Gate, s: EntityState, seed: string, experience: Experience) {
    && Holds(s, CampaignSeedValue, seed) && gate.seedValid(seed)
    && Holds(s, CampaignExperiencePersonaPack, experience.personaPack)
    && Holds(s, CampaignExperienceMechanicsPack, experience.mechanicsPack)
  }

  /** The first boot with a birth worth storing is told that it is the first, and its birth stands as minted. */
  lemma FreshClaim(gate: Gate, g: GraphState, birth: Birth)
    requires gate.seedValid(birth.seed) && gate.experienceValid(birth.experience) && gate.campaignID !in g
    ensures var (g', claim) := ClaimOutcome(gate, g, birth, Committed);
      && claim == Some(Sealed(Snapshot(gate.campaignID, birth.seed, birth.experience, true)))
      && gate.campaignID in g' && g' == g[gate.campaignID := g'[gate.campaignID]]
      && StandsWith(gate, g'[gate.campaignID], birth.seed, birth.experience)
  {
    BirthReadsBack(gate, birth);
    BirthFacts(gate, birth);
  }

  /** A later boot is answered if and only if the campaign stands readable for its own selection of packs; it is told the
      stored seed, whatever it minted itself, and that it is not the first; and the store does not move. */
  lemma LaterClaim(gate: Gate, g: GraphState, birth: Birth, seed: string)
    requires gate.seedValid(birth.seed) && gate.experienceValid(birth.experience) && gate.campaignID in g
    ensures var (g', claim) := ClaimOutcome(gate, g, birth, Committed);
      && g' == g
      && (claim == Some(Sealed(Snapshot(gate.campaignID, seed, birth.experience, false))) <==>
            StandsWith(gate, g[gate.campaignID], seed, birth.experience))
      && (claim.Some? ==>
            && !claim.value.answer.isFresh && claim.value.answer.campaignID == gate.campaignID
            && StandsWith(gate, g[gate.campaignID], claim.value.answer.seed, birth.experience))
  {}

  /** A boot whose reply is not lost is answered if and only if its birth may be stored and no campaign stands yet, or
      one stands readable for its own selection of packs. */
  lemma AnsweredExactly(gate: Gate, g: GraphState, birth: Birth)
    ensures ClaimOutcome(gate, g, birth, Committed).1.Some? <==>
      && gate.seedValid(birth.seed) && gate.experienceValid(birth.experience)
      && (gate.campaignID in g ==> exists seed :: StandsWith(gate, g[gate.campaignID], seed, birth.experience))
  {
    if gate.seedValid(birth.seed) && gate.experienceValid(birth.experience) {
      if gate.campaignID !in g {
        FreshClaim(gate, g, birth);
      } else {
        if seed :| StandsWith(gate, g[gate.campaignID], seed, birth.experience) {
          LaterClaim(gate, g, birth, seed);
        }
        LaterClaim(gate, g, birth, "");
      }
    }
  }
}
