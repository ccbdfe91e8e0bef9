/** Rolling one turn's dice from a derived seed, and recording everything a replay needs. */
module Dice {
  import opened Wrappers
  import opened Vocabulary
  import opened Graph

  datatype Spec = Spec(mechanic: string, dice: nat, faces: nat, maxMissTotal: int, maxPartialTotal: int)

  const PBTA := Spec("2d6-pbta/v1", 2, 6, 6, 9)

  /** The registered mechanics; a version the engine no longer holds has no numbers. */
  function SpecFor(mechanic: string): Option<Spec> {
    if mechanic == PBTA.mechanic then Some(PBTA) else None
  }

  datatype Band = Miss | Partial | Full | Auto

  function BandForTotal(spec: Spec, total: int): Band {
    if total <= spec.maxMissTotal then Miss else if total <= spec.maxPartialTotal then Partial else Full
  }

  const RNG_VERSION := "pcg/v1"

  const MIN_MODIFIER := -3
  const MAX_MODIFIER := 3
  const MAX_MODIFIERS := 4
  const MIN_MODIFIER_TOTAL := -2
  const MAX_MODIFIER_TOTAL := 4
  const MAX_NOTE_BYTES := 256
  const MODIFIER_SOURCES: set<string> := {"trait", "equipment", "position", "assistance", "condition"}

  datatype Modifier = Modifier(source: string, value: int, note: string)

  function SumModifiers(modifiers: seq<Modifier>): int {
    if modifiers == [] then 0 else SumModifiers(modifiers[..|modifiers| - 1]) + modifiers[|modifiers| - 1].value
  }

  predicate ModifiersValid(modifiers: seq<Modifier>) {
    && |modifiers| <= MAX_MODIFIERS
    && (forall i :: 0 <= i < |modifiers| ==>
          && modifiers[i].source in MODIFIER_SOURCES
          && MIN_MODIFIER <= modifiers[i].value <= MAX_MODIFIER
          && |modifiers[i].note| <= MAX_NOTE_BYTES)
    && MIN_MODIFIER_TOTAL <= SumModifiers(modifiers) <= MAX_MODIFIER_TOTAL
  }

  type Seed = seq<bv8>
  type Digest = seq<bv8>

  /** The hash and the generator's stream, uninterpreted: a digest of bytes, and 64-bit draws by position. */
  datatype Entropy = Entropy(
    hash: seq<bv8> -> Digest,
    draw: (Digest, nat) -> nat,
    bytes: string -> seq<bv8>,
    segment: string -> bool,
    canonical: EntityID -> bool)

  const SEED_BYTES := 32

  predicate SeedUsable(seed: Seed) {
    |seed| == SEED_BYTES && exists i :: 0 <= i < |seed| && seed[i] != 0
  }

  /** The digest one roll is drawn from: a fixed-width seed followed by the turn. */
  function SeedFor(entropy: Entropy, seed: Seed, turnID: string): Option<Digest> {
    if SeedUsable(seed) && entropy.segment(turnID) then Some(entropy.hash(seed + entropy.bytes(turnID))) else None
  }

  /** Fixed width is what makes the plain concatenation unambiguous: no two pairs share hash input. */
  lemma SeedInputUnambiguous(a: Seed, x: seq<bv8>, b: Seed, y: seq<bv8>)
    requires |a| == |b| == SEED_BYTES && a + x == b + y
    ensures a == b && x == y
  {
    assert (a + x)[..SEED_BYTES] == a && (b + y)[..SEED_BYTES] == b;
    assert (a + x)[SEED_BYTES..] == x && (b + y)[SEED_BYTES..] == y;
  }

  function Die(spec: Spec, entropy: Entropy, digest: Digest, i: nat): int
    requires spec.faces > 0
  {
    entropy.draw(digest, i) % spec.faces + 1
  }

  function DiceFrom(spec: Spec, entropy: Entropy, digest: Digest): seq<int>
    requires spec.faces > 0
  {
    seq(spec.dice, i requires 0 <= i < spec.dice => Die(spec, entropy, digest, i))
  }

  function Sum(dice: seq<int>): int {
    if dice == [] then 0 else Sum(dice[..|dice| - 1]) + dice[|dice| - 1]
  }

  /** One generator, seeded by one digest and drawn from in order. */
  class Generator {
    const entropy: Entropy
    const digest: Digest
    var drawn: nat

    constructor (entropy: Entropy, digest: Digest)
      ensures this.entropy == entropy && this.digest == digest && drawn == 0
    {
      this.entropy, this.digest, drawn := entropy, digest, 0;
    }

    method Next() returns (x: nat)
      modifies this
      ensures x == entropy.draw(digest, old(drawn)) && drawn == old(drawn) + 1
    {
      x := entropy.draw(digest, drawn);
      drawn := drawn + 1;
    }
  }

  /** Draws from a generator of its own: what other turns rolled, or when, has no part in it. */
  method RollDice(spec: Spec, entropy: Entropy, digest: Digest) returns (dice: seq<int>, total: int)
    requires spec.faces > 0
    ensures dice == DiceFrom(spec, entropy, digest) && total == Sum(dice)
  {
    var generator := new Generator(entropy, digest);
    dice, total := [], 0;
    for i := 0 to spec.dice
      invariant generator.entropy == entropy && generator.digest == digest && generator.drawn == i
      invariant dice == DiceFrom(spec, entropy, digest)[..i] && total == Sum(dice)
    {
      var x := generator.Next();
      var die := x % spec.faces + 1;
      assert (dice + [die])[..i] == dice;
      dice, total := dice + [die], total + die;
    }
  }

  datatype SeedSource = SeedSource(campaignID: EntityID, turnID: string)

  datatype RollResult = RollResult(
    turnID: string, mechanic: string, rngVersion: string, seed: SeedSource,
    dice: seq<int>, modifiers: seq<Modifier>, modifierTotal: int, total: int, band: Band)

  /** The record's own contract: everything is recomputed under the mechanic it names. */
  predicate RollValid(entropy: Entropy, r: RollResult) {
    && entropy.segment(r.turnID)
    && SpecFor(r.mechanic).Some?
    && r.rngVersion == RNG_VERSION
    && entropy.canonical(r.seed.campaignID) && r.seed.turnID == r.turnID
    && var spec := SpecFor(r.mechanic).value;
    && |r.dice| == spec.dice
    && (forall i :: 0 <= i < |r.dice| ==> 1 <= r.dice[i] <= spec.faces)
    && ModifiersValid(r.modifiers)
    && r.modifierTotal == SumModifiers(r.modifiers)
    && r.total == Sum(r.dice) + r.modifierTotal
    && r.band == BandForTotal(spec, r.total)
  }

  /** The one roll a campaign seed, a turn and a verdict's modifiers determine. */
  function RollFor(
    spec: Spec, entropy: Entropy, seed: Seed, campaignID: EntityID, turnID: string, modifiers: seq<Modifier>
  ): Option<RollResult>
    requires spec.faces > 0
  {
    match SeedFor(entropy, seed, turnID)
    case None => None
    case Some(digest) =>
      var dice := DiceFrom(spec, entropy, digest);
      var total := Sum(dice) + SumModifiers(modifiers);
      var roll := RollResult(turnID, spec.mechanic, RNG_VERSION, SeedSource(campaignID, turnID),
                             dice, modifiers, SumModifiers(modifiers), total, BandForTotal(spec, total));
      if RollValid(entropy, roll) then Some(roll) else None
  }

  method Roll(
    spec: Spec, entropy: Entropy, seed: Seed, campaignID: EntityID, turnID: string, modifiers: seq<Modifier>)
    returns (roll: Option<RollResult>)
    requires spec.faces > 0
    ensures roll == RollFor(spec, entropy, seed, campaignID, turnID, modifiers)
  {
    var digest := SeedFor(entropy, seed, turnID);
    if digest == None {
      return None;
    }
    var dice, diceTotal := RollDice(spec, entropy, digest.value);
    var modifierTotal := 0;
    for i := 0 to |modifiers|
      invariant modifierTotal == SumModifiers(modifiers[..i])
    {
      assert modifiers[..i + 1][..i] == modifiers[..i];
      modifierTotal := modifierTotal + modifiers[i].value;
    }
    assert modifiers[..|modifiers|] == modifiers;
    var total := diceTotal + modifierTotal;
    var built := RollResult(turnID, spec.mechanic, RNG_VERSION, SeedSource(campaignID, turnID),
                            dice, modifiers, modifierTotal, total, BandForTotal(spec, total));
    roll := if RollValid(entropy, built) then Some(built) else None;
  }

  /** The registered mechanic refuses a roll only for what its callers got wrong, never for what it drew. */
  lemma RollsExactlyOnValidInputs(
    entropy: Entropy, seed: Seed, campaignID: EntityID, turnID: string, modifiers: seq<Modifier>)
    ensures RollFor(PBTA, entropy, seed, campaignID, turnID, modifiers).Some? <==>
            SeedUsable(seed) && entropy.segment(turnID) && entropy.canonical(campaignID) && ModifiersValid(modifiers)
  {}

  lemma {:induction false} SumBounds(dice: seq<int>, faces: int)
    requires forall i :: 0 <= i < |dice| ==> 1 <= dice[i] <= faces
    ensures |dice| <= Sum(dice) <= |dice| * faces
  {
    if dice == [] {
      assert |dice| * faces == 0 * faces == 0;
    } else {
      var init := dice[..|dice| - 1];
      SumBounds(init, faces);
      assert (|init| + 1) * faces == |init| * faces + faces;
      assert |dice| * faces == (|init| + 1) * faces;
    }
  }

  predicate ShownBy(dice: seq<int>, spec: Spec) {
    |dice| == spec.dice && forall i :: 0 <= i < |dice| ==> 1 <= dice[i] <= spec.faces
  }

  ghost predicate Reachable(spec: Spec, modifierTotal: int, band: Band) {
    exists dice :: ShownBy(dice, spec) && BandForTotal(spec, Sum(dice) + modifierTotal) == band
  }

  lemma TwoDice(a: int, b: int)
    ensures Sum([a, b]) == a + b
  {
    assert [a, b][..1] == [a] && [a][..0] == [];
    assert Sum([a]) == a;
  }

  /** The summed bound is exactly what keeps the dice deciding: every band stays reachable if and only
      if the modifiers sum into the window. */
  lemma WindowIsReachability(modifierTotal: int)
    ensures (Reachable(PBTA, modifierTotal, Miss) && Reachable(PBTA, modifierTotal, Partial) &&
             Reachable(PBTA, modifierTotal, Full)) <==>
            MIN_MODIFIER_TOTAL <= modifierTotal <= MAX_MODIFIER_TOTAL
  {
    if MIN_MODIFIER_TOTAL <= modifierTotal <= MAX_MODIFIER_TOTAL {
      TwoDice(1, 1);
      assert ShownBy([1, 1], PBTA) && BandForTotal(PBTA, Sum([1, 1]) + modifierTotal) == Miss;
      TwoDice(6, 6);
      assert ShownBy([6, 6], PBTA) && BandForTotal(PBTA, Sum([6, 6]) + modifierTotal) == Full;
      var a := if 7 - modifierTotal <= 6 then 1 else 7 - modifierTotal - 6;
      var b := 7 - modifierTotal - a;
      TwoDice(a, b);
      assert ShownBy([a, b], PBTA) && BandForTotal(PBTA, Sum([a, b]) + modifierTotal) == Partial;
    }
    forall dice | ShownBy(dice, PBTA) ensures 2 <= Sum(dice) <= 12 {
      SumBounds(dice, 6);
    }
  }

  // ---- What a recorded roll says -------------------------------------------

  lemma {:induction false} FewModifiers(modifiers: seq<Modifier>)
    requires |modifiers| <= 4
    ensures SumModifiers(modifiers) ==
            (if |modifiers| > 0 then modifiers[0].value else 0) + (if |modifiers| > 1 then modifiers[1].value else 0)
            + (if |modifiers| > 2 then modifiers[2].value else 0) + (if |modifiers| > 3 then modifiers[3].value else 0)
    decreases |modifiers|
  {
    if modifiers != [] {
      FewModifiers(modifiers[..|modifiers| - 1]);
    }
  }

  /** Every roll of the registered mechanic, field for field: two dice, each its position's draw from the generator that
      the seed and this turn's bytes give, reduced to six faces; their sum with the declared modifiers; a miss up to six,
      a partial success from seven through nine, a full one from ten on. */
  lemma RollSaysWhatItShows(
    entropy: Entropy, seed: Seed, campaignID: EntityID, turnID: string, modifiers: seq<Modifier>)
    requires RollFor(PBTA, entropy, seed, campaignID, turnID, modifiers).Some?
    ensures var r := RollFor(PBTA, entropy, seed, campaignID, turnID, modifiers).value;
      var digest := entropy.hash(seed + entropy.bytes(turnID));
      var first, second := entropy.draw(digest, 0) % 6 + 1, entropy.draw(digest, 1) % 6 + 1;
      && r.turnID == turnID && r.seed == SeedSource(campaignID, turnID)
      && r.mechanic == "2d6-pbta/v1" && r.rngVersion == "pcg/v1"
      && r.dice == [first, second] && r.modifiers == modifiers && |modifiers| <= 4
      && r.modifierTotal ==
         (if |modifiers| > 0 then modifiers[0].value else 0) + (if |modifiers| > 1 then modifiers[1].value else 0)
         + (if |modifiers| > 2 then modifiers[2].value else 0) + (if |modifiers| > 3 then modifiers[3].value else 0)
      && r.total == first + second + r.modifierTotal
      && (r.band == Miss <==> r.total <= 6)
      && (r.band == Partial <==> 7 <= r.total <= 9)
      && (r.band == Full <==> r.total >= 10)
  {
    var r := RollFor(PBTA, entropy, seed, campaignID, turnID, modifiers).value;
    TwoDice(r.dice[0], r.dice[1]);
    assert r.dice == [r.dice[0], r.dice[1]];
    FewModifiers(modifiers);
  }
}
