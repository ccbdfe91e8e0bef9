/** Why one intent is refused, said of the intent alone: every bound, every status, every kind written out. */
module EffectRefusals {
  import opened Wrappers
  import opened Vocabulary
  import opened Graph
  import opened EffectPlan

  /** The entity records exactly one kind, this one. */
  predicate Is(g: GraphState, id: EntityID, kind: string) {
    id in g && |TriplesOf(g[id], WorldEntityKind)| == 1 && TriplesOf(g[id], WorldEntityKind)[0].obj == Text(kind)
  }

  /** Outside the vocabulary, the engine's own bounds, or the world's. */
  predicate Malformed(rules: Rules, intent: EffectIntent) {
    || !rules.canonical(intent.target)
    || match intent
       case SetAttribute(_, attribute, value) =>
         || value < 0 || value > (if attribute == Quantity then 99 else 10)
         || attribute !in rules.specs || value < rules.specs[attribute].min || value > rules.specs[attribute].max
       case SetStatus(_, status) =>
         status !in {"healthy", "wounded", "exhausted", "frightened", "hidden", "restrained", "unconscious", "dead"}
       case MoveEntity(_, location) => !rules.canonical(location)
       case AddRelationship(_, _, other) => !rules.canonical(other)
       case RemoveRelationship(_, _, other) => !rules.canonical(other)
  }

  /** Characters have health, stamina, resolve, a status and relations, items a quantity, scenes tension; characters and
      items have a place. */
  predicate FitTarget(g: GraphState, intent: EffectIntent) {
    match intent
    case SetAttribute(e, attribute, _) =>
      (match attribute
       case Health => Is(g, e, "character")
       case Stamina => Is(g, e, "character")
       case Resolve => Is(g, e, "character")
       case Quantity => Is(g, e, "item")
       case Tension => Is(g, e, "scene"))
    case SetStatus(e, _) => Is(g, e, "character")
    case MoveEntity(e, _) => Is(g, e, "character") || Is(g, e, "item")
    case AddRelationship(e, _, _) => Is(g, e, "character")
    case RemoveRelationship(e, _, _) => Is(g, e, "character")
  }

  /** The entity an intent refers to beside its target, if any. */
  function Referred(intent: EffectIntent): Option<EntityID> {
    match intent
    case SetAttribute(_, _, _) => None
    case SetStatus(_, _) => None
    case MoveEntity(_, location) => Some(location)
    case AddRelationship(_, _, other) => Some(other)
    case RemoveRelationship(_, _, other) => Some(other)
  }

  /** One moves to a location, carries an item, and is otherwise related to a character. */
  predicate FitReferred(g: GraphState, intent: EffectIntent) {
    match intent
    case SetAttribute(_, _, _) => true
    case SetStatus(_, _) => true
    case MoveEntity(_, location) => Is(g, location, "location")
    case AddRelationship(_, relation, other) => Is(g, other, if relation == Carries then "item" else "character")
    case RemoveRelationship(_, relation, other) => Is(g, other, if relation == Carries then "item" else "character")
  }

  /** What the target already records under the relation names entities only. */
  predicate RelationsSound(g: GraphState, intent: EffectIntent) {
    (intent.AddRelationship? || intent.RemoveRelationship?) && intent.target in g ==>
      forall t :: t in g[intent.target] && t.pred == RelationPredicate(intent.relation) ==> t.obj.Text?
  }

  lemma KindIs(g: GraphState, id: EntityID, kind: EntityKind, text: string)
    requires forall other :: ParseEntityKind(other) == Some(kind) <==> other == text
    ensures View(g, id).Ok? && View(g, id).value.kind == kind <==> Is(g, id, text)
  {
    if id in g && |TriplesOf(g[id], WorldEntityKind)| == 1 && TriplesOf(g[id], WorldEntityKind)[0].obj.Text? {
      assert TriplesOf(g[id], WorldEntityKind)[0].obj == Text(TriplesOf(g[id], WorldEntityKind)[0].obj.text);
    }
  }

  lemma Kinds(g: GraphState, id: EntityID)
    ensures View(g, id).Ok? && View(g, id).value.kind == Character <==> Is(g, id, "character")
    ensures View(g, id).Ok? && View(g, id).value.kind == Item <==> Is(g, id, "item")
    ensures View(g, id).Ok? && View(g, id).value.kind == Scene <==> Is(g, id, "scene")
    ensures View(g, id).Ok? && View(g, id).value.kind == Location <==> Is(g, id, "location")
    ensures View(g, id) == Err(EffectEntityMissing) <==> id !in g
    ensures View(g, id).Ok? || View(g, id) == Err(EffectEntityMissing) || View(g, id) == Err(EffectEntityKind)
  {
    KindIs(g, id, Character, "character");
    KindIs(g, id, Item, "item");
    KindIs(g, id, Scene, "scene");
    KindIs(g, id, Location, "location");
  }

  lemma MalformedExactly(rules: Rules, intent: EffectIntent)
    ensures var m := MutationOf(intent);
      Malformed(rules, intent) <==> !IntentValid(rules, intent) || IsProtected(m.pred) || !WithinBounds(rules, m)
  {}

  lemma TargetExactly(g: GraphState, intent: EffectIntent)
    ensures var m := MutationOf(intent);
      FitTarget(g, intent) <==> View(g, m.target).Ok? && AllowsSubjectKind(m.pred, View(g, m.target).value.kind)
  {
    Kinds(g, intent.target);
  }

  /** The code a reference is refused with, if it is. */
  lemma ReferredExactly(g: GraphState, intent: EffectIntent)
    requires Referred(intent).Some?
    ensures var m, other := MutationOf(intent), Referred(intent).value;
      && IsEntityReference(m.pred) && m.obj == Text(other)
      && JudgeReference(g, m) ==
         if other == intent.target then Some(EffectInvalid)
         else if other !in g then Some(EffectEntityMissing)
         else if FitReferred(g, intent) then None else Some(EffectEntityKind)
  {
    Kinds(g, Referred(intent).value);
  }

  lemma SoundExactly(g: GraphState, intent: EffectIntent)
    requires intent.target in g
    ensures var m := MutationOf(intent);
      && (Referred(intent) == None ==> !IsEntityReference(m.pred) && !IsRelation(m.pred))
      && (RelationsSound(g, intent) <==> (IsRelation(m.pred) ==> ResidentsAreReferences(g[intent.target], m.pred)))
  {}

  lemma JudgeSteps(rules: Rules, g: GraphState, intent: EffectIntent)
    ensures Judge(rules, g, intent) ==
      if Malformed(rules, intent) then Some(EffectInvalid)
      else if intent.target !in g then Some(EffectEntityMissing)
      else if !FitTarget(g, intent) then Some(EffectEntityKind)
      else if Referred(intent).Some? && JudgeReference(g, MutationOf(intent)).Some? then JudgeReference(g, MutationOf(intent))
      else if RelationsSound(g, intent) then None else Some(EffectInvalid)
  {
    MalformedExactly(rules, intent);
    TargetExactly(g, intent);
    Kinds(g, intent.target);
    if intent.target in g {
      SoundExactly(g, intent);
    }
    if Referred(intent).Some? {
      ReferredExactly(g, intent);
    }
  }

  predicate SelfRelated(intent: EffectIntent) {
    Referred(intent) == Some(intent.target)
  }

  predicate ReferredMissing(g: GraphState, intent: EffectIntent) {
    Referred(intent).Some? && Referred(intent).value !in g
  }

  /** Each code exactly when its cause comes first: what is malformed is invalid whatever the world holds; then an entity
      is missing; then it is of the wrong kind; and only a sound, existing, fitting intent is judged by its relations. */
  lemma JudgedExactly(rules: Rules, g: GraphState, intent: EffectIntent)
    ensures Judge(rules, g, intent) == None <==>
      !Malformed(rules, intent) && FitTarget(g, intent) && !SelfRelated(intent) && FitReferred(g, intent)
      && RelationsSound(g, intent)
    ensures Judge(rules, g, intent) == Some(EffectEntityMissing) <==>
      !Malformed(rules, intent) &&
      (intent.target !in g || (FitTarget(g, intent) && !SelfRelated(intent) && ReferredMissing(g, intent)))
    ensures Judge(rules, g, intent) == Some(EffectEntityKind) <==>
      !Malformed(rules, intent) && intent.target in g &&
      (!FitTarget(g, intent) || (!SelfRelated(intent) && !ReferredMissing(g, intent) && !FitReferred(g, intent)))
  {
    JudgeSteps(rules, g, intent);
    if Referred(intent).Some? {
      ReferredExactly(g, intent);
    }
  }
}
