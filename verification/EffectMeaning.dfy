/** What an applied batch means to the world, said of its intents alone: every fact on its own predicate. */
module EffectMeaning {
  import opened Wrappers
  import opened Vocabulary
  import opened Graph
  import opened EffectPlan
  import opened EffectRendering
  import opened EffectApplier
  import opened EffectRecovery

  predicate Related(g: GraphState, e: EntityID, relation: Relation, other: EntityID) {
    match relation
    case AlliedWith => Text(other) in Objects(Lookup(g, e), WorldRelationAlliedWith)
    case HostileTo => Text(other) in Objects(Lookup(g, e), WorldRelationHostileTo)
    case Knows => Text(other) in Objects(Lookup(g, e), WorldRelationKnows)
    case Carries => Text(other) in Objects(Lookup(g, e), WorldRelationCarries)
    case OwesDebt => Text(other) in Objects(Lookup(g, e), WorldRelationOwesDebt)
  }

  function ValuesOf(g: GraphState, e: EntityID, attribute: Attribute): set<Value> {
    match attribute
    case Health => Objects(Lookup(g, e), CharacterAttributeHealth)
    case Stamina => Objects(Lookup(g, e), CharacterAttributeStamina)
    case Resolve => Objects(Lookup(g, e), CharacterAttributeResolve)
    case Quantity => Objects(Lookup(g, e), ItemAttributeQuantity)
    case Tension => Objects(Lookup(g, e), SceneAttributeTension)
  }

  /** The world is as one intent wanted it. */
  predicate Fulfilled(g: GraphState, intent: EffectIntent) {
    match intent
    case SetAttribute(e, attribute, value) => ValuesOf(g, e, attribute) == {Number(value)}
    case SetStatus(e, status) => Objects(Lookup(g, e), CharacterStatusCurrent) == {Text(status)}
    case MoveEntity(e, location) => Objects(Lookup(g, e), WorldLocationCurrent) == {Text(location)}
    case AddRelationship(e, relation, other) => Related(g, e, relation, other)
    case RemoveRelationship(e, relation, other) => !Related(g, e, relation, other)
  }

  /** No intent speaks of this fact. */
  predicate Unnamed(intents: seq<EffectIntent>, e: EntityID, relation: Relation, other: EntityID) {
    AddRelationship(e, relation, other) !in intents && RemoveRelationship(e, relation, other) !in intents
  }

  predicate AttributeUnnamed(intents: seq<EffectIntent>, e: EntityID, attribute: Attribute) {
    forall i :: 0 <= i < |intents| && intents[i].SetAttribute? && intents[i].target == e ==>
      intents[i].attribute != attribute
  }

  predicate StatusUnset(intents: seq<EffectIntent>, e: EntityID) {
    forall i :: 0 <= i < |intents| && intents[i].target == e ==> !intents[i].SetStatus?
  }

  predicate Unmoved(intents: seq<EffectIntent>, e: EntityID) {
    forall i :: 0 <= i < |intents| && intents[i].target == e ==> !intents[i].MoveEntity?
  }

  ghost predicate RelationsStand(g: GraphState, g': GraphState, intents: seq<EffectIntent>) {
    forall e, relation, other :: Unnamed(intents, e, relation, other) ==>
      (Related(g', e, relation, other) <==> Related(g, e, relation, other))
  }

  ghost predicate AttributesStand(g: GraphState, g': GraphState, intents: seq<EffectIntent>) {
    forall e, attribute :: AttributeUnnamed(intents, e, attribute) ==>
      ValuesOf(g', e, attribute) == ValuesOf(g, e, attribute)
  }

  ghost predicate StatusesStand(g: GraphState, g': GraphState, intents: seq<EffectIntent>) {
    forall e :: StatusUnset(intents, e) ==>
      Objects(Lookup(g', e), CharacterStatusCurrent) == Objects(Lookup(g, e), CharacterStatusCurrent)
  }

  ghost predicate PlacesStand(g: GraphState, g': GraphState, intents: seq<EffectIntent>) {
    forall e :: Unmoved(intents, e) ==>
      Objects(Lookup(g', e), WorldLocationCurrent) == Objects(Lookup(g, e), WorldLocationCurrent)
  }

  /** Whatever no intent speaks of is as it was. */
  ghost predicate OthersStand(g: GraphState, g': GraphState, intents: seq<EffectIntent>) {
    && RelationsStand(g, g', intents) && AttributesStand(g, g', intents)
    && StatusesStand(g, g', intents) && PlacesStand(g, g', intents)
  }

  // ---- From mutations back to intents --------------------------------------

  /** Every fact the batch names holds its simple update. */
  ghost predicate IsUpdate(job: Job, g: GraphState, g': GraphState) {
    forall e, p :: Touches(Muts(job), e, p) ==>
      Objects(Lookup(g', e), p) == Updated(Objects(Lookup(g, e), p), Muts(job), e, p)
  }

  lemma Spoken(job: Job, i: nat)
    requires i < |job.batch.intents|
    ensures var m := MutationOf(job.batch.intents[i]);
      m in Muts(job) && Touches(Muts(job), m.target, m.pred)
  {
    assert Muts(job)[i] == MutationOf(job.batch.intents[i]);
  }

  lemma SpeaksOnce(muts: seq<Mutation>, i: nat, j: nat)
    requires ClashFree(muts) && i < |muts| && j < |muts|
    requires muts[i].target == muts[j].target && muts[i].pred == muts[j].pred
    requires !IsRelation(muts[i].pred) || muts[i].obj == muts[j].obj
    ensures i == j
  {}

  /** On a single-valued fact a batch without clashes speaks once. */
  lemma OnlyValue(job: Job, i: nat)
    requires ClashFree(Muts(job)) && i < |job.batch.intents|
    requires var m := MutationOf(job.batch.intents[i]); !IsRelation(m.pred)
    ensures var m := MutationOf(job.batch.intents[i]);
      EffectRendering.Named(Muts(job), m.target, m.pred) == {m.obj}
  {
    var m := MutationOf(job.batch.intents[i]);
    Spoken(job, i);
    assert Muts(job)[i] == m;
    forall n | n in Muts(job) && n.target == m.target && n.pred == m.pred ensures n.obj == m.obj {
      var j :| 0 <= j < |Muts(job)| && Muts(job)[j] == n;
      SpeaksOnce(Muts(job), i, j);
    }
  }

  /** On one object of a relation a batch without clashes speaks once. */
  lemma OnlyWord(job: Job, i: nat)
    requires ClashFree(Muts(job)) && i < |job.batch.intents|
    requires var m := MutationOf(job.batch.intents[i]); IsRelation(m.pred)
    ensures var m := MutationOf(job.batch.intents[i]);
      && (m.obj in Added(Muts(job), m.target, m.pred) <==> !m.removes)
      && (m.obj in Removed(Muts(job), m.target, m.pred) <==> m.removes)
  {
    var m := MutationOf(job.batch.intents[i]);
    Spoken(job, i);
    assert Muts(job)[i] == m;
    forall n | n in Muts(job) && n.target == m.target && n.pred == m.pred && n.obj == m.obj ensures n == m {
      var j :| 0 <= j < |Muts(job)| && Muts(job)[j] == n;
      SpeaksOnce(Muts(job), i, j);
    }
  }

  lemma IntentHolds(job: Job, g: GraphState, g': GraphState, i: nat)
    requires ClashFree(Muts(job)) && IsUpdate(job, g, g') && i < |job.batch.intents|
    ensures Fulfilled(g', job.batch.intents[i])
  {
    var m := MutationOf(job.batch.intents[i]);
    Spoken(job, i);
    if IsRelation(m.pred) {
      OnlyWord(job, i);
    } else {
      OnlyValue(job, i);
    }
  }

  // ---- What one applied attempt leaves -------------------------------------

  /** An attempt whose every write was confirmed, with whatever replies, is a run in which somebody reports `Applied`. */
  lemma AttemptIsUpdate(job: Job, g: GraphState, at: int, replies: seq<Reply>)
    requires Proceeds(job, g)
    requires Perform(g, AttemptWrites(job, g, at), replies).1 == |AttemptWrites(job, g, at)|
    ensures IsUpdate(job, g, Perform(g, AttemptWrites(job, g, at), replies).0)
  {
    var writes := AttemptWrites(job, g, at);
    var begun := World(g, map[0 := writes], {}, {g});
    ReadsItself({g}, g);
    assert BeginStep(job, Start(g), 0, at, g) == begun;
    PerformIsRun(job, begun, 0, replies);
    RunFront(job, Start(g), Begin(0, at, g), Writes(0, replies, |writes|));
    Recovery(job, g, [Begin(0, at, g)] + Writes(0, replies, |writes|));
  }

  lemma UntouchedObjects(job: Job, g: GraphState, at: int, replies: seq<Reply>, e: EntityID, p: Predicate)
    requires Proceeds(job, g) && !Touches(Muts(job), e, p) && p !in Predicates(TurnEffectMarker)
    ensures Objects(Lookup(Perform(g, AttemptWrites(job, g, at), replies).0, e), p) == Objects(Lookup(g, e), p)
  {
    UntouchedFactsStand(job, g, at, replies, e, p);
  }

  function AttributeFact(attribute: Attribute): Predicate {
    match attribute
    case Health => CharacterAttributeHealth
    case Stamina => CharacterAttributeStamina
    case Resolve => CharacterAttributeResolve
    case Quantity => ItemAttributeQuantity
    case Tension => SceneAttributeTension
  }

  function RelationFact(relation: Relation): Predicate {
    match relation
    case AlliedWith => WorldRelationAlliedWith
    case HostileTo => WorldRelationHostileTo
    case Knows => WorldRelationKnows
    case Carries => WorldRelationCarries
    case OwesDebt => WorldRelationOwesDebt
  }

  /** Which intents speak of which predicate. */
  lemma TouchedBy(job: Job, e: EntityID, p: Predicate) returns (i: nat)
    requires Touches(Muts(job), e, p)
    ensures i < |job.batch.intents| && job.batch.intents[i].target == e && MutationOf(job.batch.intents[i]).pred == p
  {
    var m :| m in Muts(job) && m.target == e && m.pred == p;
    MutationMembership(job.batch.intents, m);
    var x :| x in job.batch.intents && MutationOf(x) == m;
    i :| 0 <= i < |job.batch.intents| && job.batch.intents[i] == x;
  }

  lemma UnnamedIsUnspoken(job: Job, e: EntityID, relation: Relation, other: EntityID)
    requires Unnamed(job.batch.intents, e, relation, other)
    ensures forall m :: m in Muts(job) && m.target == e && m.pred == RelationFact(relation) ==> m.obj != Text(other)
  {
    forall m | m in Muts(job) && m.target == e && m.pred == RelationFact(relation) ensures m.obj != Text(other) {
      MutationMembership(job.batch.intents, m);
      var x :| x in job.batch.intents && MutationOf(x) == m;
    }
  }

  /** A value no mutation names stays in a relation, or stays out. */
  lemma UnspokenStays(resident: set<Value>, muts: seq<Mutation>, e: EntityID, p: Predicate, v: Value)
    requires IsRelation(p) && forall m :: m in muts && m.target == e && m.pred == p ==> m.obj != v
    ensures v in Updated(resident, muts, e, p) <==> v in resident
  {}

  lemma RelatedFact(g: GraphState, e: EntityID, relation: Relation, other: EntityID)
    ensures Related(g, e, relation, other) <==> Text(other) in Objects(Lookup(g, e), RelationFact(relation))
    ensures IsRelation(RelationFact(relation)) && RelationFact(relation) !in Predicates(TurnEffectMarker)
  {}

  lemma RelationStands(
    job: Job, g: GraphState, at: int, replies: seq<Reply>, e: EntityID, relation: Relation, other: EntityID)
    requires Proceeds(job, g) && Unnamed(job.batch.intents, e, relation, other)
    requires IsUpdate(job, g, Perform(g, AttemptWrites(job, g, at), replies).0)
    ensures var after := Perform(g, AttemptWrites(job, g, at), replies).0;
      Related(after, e, relation, other) <==> Related(g, e, relation, other)
  {
    var p, after := RelationFact(relation), Perform(g, AttemptWrites(job, g, at), replies).0;
    RelatedFact(g, e, relation, other);
    RelatedFact(after, e, relation, other);
    if Touches(Muts(job), e, p) {
      UnnamedIsUnspoken(job, e, relation, other);
      UnspokenStays(Objects(Lookup(g, e), p), Muts(job), e, p, Text(other));
    } else {
      UntouchedObjects(job, g, at, replies, e, p);
    }
  }

  lemma AttributeUntouched(job: Job, e: EntityID, attribute: Attribute)
    requires AttributeUnnamed(job.batch.intents, e, attribute)
    ensures !Touches(Muts(job), e, AttributeFact(attribute))
  {
    if Touches(Muts(job), e, AttributeFact(attribute)) {
      var i := TouchedBy(job, e, AttributeFact(attribute));
      assert false;
    }
  }

  lemma PlaceUntouched(job: Job, e: EntityID)
    ensures StatusUnset(job.batch.intents, e) ==> !Touches(Muts(job), e, CharacterStatusCurrent)
    ensures Unmoved(job.batch.intents, e) ==> !Touches(Muts(job), e, WorldLocationCurrent)
  {
    if Touches(Muts(job), e, CharacterStatusCurrent) {
      var i := TouchedBy(job, e, CharacterStatusCurrent);
      assert job.batch.intents[i].SetStatus?;
    }
    if Touches(Muts(job), e, WorldLocationCurrent) {
      var i := TouchedBy(job, e, WorldLocationCurrent);
      assert job.batch.intents[i].MoveEntity?;
    }
  }

  function After(job: Job, g: GraphState, at: int, replies: seq<Reply>): GraphState {
    Perform(g, AttemptWrites(job, g, at), replies).0
  }

  lemma AllRelationsStand(job: Job, g: GraphState, at: int, replies: seq<Reply>)
    requires Proceeds(job, g) && IsUpdate(job, g, After(job, g, at, replies))
    ensures RelationsStand(g, After(job, g, at, replies), job.batch.intents)
  {
    forall e, relation, other | Unnamed(job.batch.intents, e, relation, other)
      ensures Related(After(job, g, at, replies), e, relation, other) <==> Related(g, e, relation, other)
    {
      RelationStands(job, g, at, replies, e, relation, other);
    }
  }

  lemma AllAttributesStand(job: Job, g: GraphState, at: int, replies: seq<Reply>)
    requires Proceeds(job, g)
    ensures AttributesStand(g, After(job, g, at, replies), job.batch.intents)
  {
    forall e, attribute | AttributeUnnamed(job.batch.intents, e, attribute)
      ensures ValuesOf(After(job, g, at, replies), e, attribute) == ValuesOf(g, e, attribute)
    {
      AttributeStands(job, g, at, replies, e, attribute);
    }
  }

  lemma AttributeStands(job: Job, g: GraphState, at: int, replies: seq<Reply>, e: EntityID, attribute: Attribute)
    requires Proceeds(job, g) && AttributeUnnamed(job.batch.intents, e, attribute)
    ensures ValuesOf(After(job, g, at, replies), e, attribute) == ValuesOf(g, e, attribute)
  {
    AttributeUntouched(job, e, attribute);
    UntouchedObjects(job, g, at, replies, e, AttributeFact(attribute));
  }

  lemma AllPlacesStand(job: Job, g: GraphState, at: int, replies: seq<Reply>)
    requires Proceeds(job, g)
    ensures StatusesStand(g, After(job, g, at, replies), job.batch.intents)
    ensures PlacesStand(g, After(job, g, at, replies), job.batch.intents)
  {
    forall e | StatusUnset(job.batch.intents, e)
      ensures Objects(Lookup(After(job, g, at, replies), e), CharacterStatusCurrent) ==
              Objects(Lookup(g, e), CharacterStatusCurrent)
    {
      PlaceUntouched(job, e);
      UntouchedObjects(job, g, at, replies, e, CharacterStatusCurrent);
    }
    forall e | Unmoved(job.batch.intents, e)
      ensures Objects(Lookup(After(job, g, at, replies), e), WorldLocationCurrent) ==
              Objects(Lookup(g, e), WorldLocationCurrent)
    {
      PlaceUntouched(job, e);
      UntouchedObjects(job, g, at, replies, e, WorldLocationCurrent);
    }
  }

  /** An attempt that reports the batch applied leaves the world as every intent wanted it, a removed relation gone, an
      added one there, a set value the only one, and nothing else moved that an effect can move. */
  lemma AppliedMeansDone(job: Job, g: GraphState, at: int, replies: seq<Reply>)
    requires Proceeds(job, g)
    requires Perform(g, AttemptWrites(job, g, at), replies).1 == |AttemptWrites(job, g, at)|
    ensures var after := Perform(g, AttemptWrites(job, g, at), replies).0;
      && (forall i :: 0 <= i < |job.batch.intents| ==> Fulfilled(after, job.batch.intents[i]))
      && OthersStand(g, after, job.batch.intents)
  {
    AttemptIsUpdate(job, g, at, replies);
    AllRelationsStand(job, g, at, replies);
    AllAttributesStand(job, g, at, replies);
    AllPlacesStand(job, g, at, replies);
    AllHold(job, g, After(job, g, at, replies));
  }

  lemma AllHold(job: Job, g: GraphState, g': GraphState)
    requires ClashFree(Muts(job)) && IsUpdate(job, g, g')
    ensures forall i :: 0 <= i < |job.batch.intents| ==> Fulfilled(g', job.batch.intents[i])
  {
    forall i | 0 <= i < |job.batch.intents| ensures Fulfilled(g', job.batch.intents[i]) {
      IntentHolds(job, g, g', i);
    }
  }

  /** The same over any broken run: once anyone reports the batch applied, every intent holds. */
  lemma ReportedMeansDone(job: Job, g: GraphState, events: seq<Event>, i: nat)
    requires Proceeds(job, g) && Run(job, Start(g), events).applied != {} && i < |job.batch.intents|
    ensures Fulfilled(Run(job, Start(g), events).graph, job.batch.intents[i])
  {
    Recovery(job, g, events);
    IntentHolds(job, g, Run(job, Start(g), events).graph, i);
  }

  // ---- Which intents contradict one another --------------------------------

  /** Two intents set one single-valued fact of one entity, or speak of one object of one relation. */
  predicate Contradict(a: EffectIntent, b: EffectIntent) {
    && a.target == b.target
    && match a
       case SetAttribute(_, attribute, _) => b.SetAttribute? && b.attribute == attribute
       case SetStatus(_, _) => b.SetStatus?
       case MoveEntity(_, _) => b.MoveEntity?
       case AddRelationship(_, relation, other) => Names(b, relation, other)
       case RemoveRelationship(_, relation, other) => Names(b, relation, other)
  }

  predicate Names(b: EffectIntent, relation: Relation, other: EntityID) {
    (b.AddRelationship? || b.RemoveRelationship?) && b.relation == relation && b.other == other
  }

  lemma ClashIsContradiction(a: EffectIntent, b: EffectIntent)
    ensures Clash(MutationOf(a), MutationOf(b)) <==> Contradict(a, b)
  {}

  /** A batch is accepted exactly when every intent is admissible and no two contradict one another. */
  lemma AcceptedExactly(rules: Rules, g: GraphState, intents: seq<EffectIntent>)
    ensures Accepts(rules, g, intents) <==>
            (forall i :: 0 <= i < |intents| ==> Judge(rules, g, intents[i]) == None) &&
            (forall i, j :: 0 <= i < j < |intents| ==> !Contradict(intents[i], intents[j]))
  {
    var muts := MutationsOf(intents);
    forall i, j | 0 <= i < j < |intents| ensures Clash(muts[i], muts[j]) <==> Contradict(intents[i], intents[j]) {
      ClashIsContradiction(intents[i], intents[j]);
    }
    if forall i, j :: 0 <= i < j < |intents| ==> !Contradict(intents[i], intents[j]) {
      assert ClashFree(muts);
    }
    if ClashFree(muts) {
      forall i, j | 0 <= i < j < |intents| ensures !Contradict(intents[i], intents[j]) {
        assert !Clash(muts[i], muts[j]);
      }
    }
  }
}
