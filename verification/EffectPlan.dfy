/** Folding a batch of proposed intents into complete desired value sets, and
    rendering those sets as one replacement per touched predicate family. */
module EffectPlan {
  import opened Wrappers
  import opened Vocabulary
  import opened Graph

  datatype EffectIntent =
    | SetAttribute(target: EntityID, attribute: Attribute, value: int)
    | SetStatus(target: EntityID, status: string)
    | MoveEntity(target: EntityID, location: EntityID)
    | AddRelationship(target: EntityID, relation: Relation, other: EntityID)
    | RemoveRelationship(target: EntityID, relation: Relation, other: EntityID)

  /** What the applier is handed: the world's attribute bounds, and the identity
      grammar of the upstream library. */
  datatype Rules = Rules(specs: AttributeSpecs, canonical: EntityID -> bool)

  const STATUSES: set<string> := {
    "healthy", "wounded", "exhausted", "frightened", "hidden", "restrained", "unconscious", "dead"}

  datatype RejectionCode = EffectInvalid | EffectEntityMissing | EffectEntityKind

  /** The (predicate, object) pair one intent asks for, on one entity. */
  datatype Mutation = Mutation(target: EntityID, pred: Predicate, obj: Value, removes: bool)

  function MutationOf(intent: EffectIntent): Mutation {
    match intent
    case SetAttribute(target, attribute, value) =>
      Mutation(target, AttributePredicate(attribute), Number(value), false)
    case SetStatus(target, status) => Mutation(target, CharacterStatusCurrent, Text(status), false)
    case MoveEntity(target, location) => Mutation(target, WorldLocationCurrent, Text(location), false)
    case AddRelationship(target, relation, other) =>
      Mutation(target, RelationPredicate(relation), Text(other), false)
    case RemoveRelationship(target, relation, other) =>
      Mutation(target, RelationPredicate(relation), Text(other), true)
  }

  function MutationsOf(intents: seq<EffectIntent>): seq<Mutation> {
    seq(|intents|, i requires 0 <= i < |intents| => MutationOf(intents[i]))
  }

  /** The world-blind contract every proposed intent meets at the payload boundary. */
  predicate IntentValid(rules: Rules, intent: EffectIntent) {
    && rules.canonical(intent.target)
    && match intent
       case SetAttribute(_, attribute, value) => InBounds(DEFAULT_SPECS, attribute, value)
       case SetStatus(_, status) => status in STATUSES
       case MoveEntity(_, location) => rules.canonical(location)
       case AddRelationship(_, _, other) => rules.canonical(other)
       case RemoveRelationship(_, _, other) => rules.canonical(other)
  }

  // ---- Judging one intent against the graph --------------------------------

  function KindOf(state: EntityState): Option<EntityKind> {
    var declared := TriplesOf(state, WorldEntityKind);
    if |declared| == 1 && declared[0].obj.Text? then ParseEntityKind(declared[0].obj.text) else None
  }

  /** What an intent sees of a named entity: a state whose kind is readable, or a reason to refuse. */
  function View(g: GraphState, id: EntityID): Result<EntityView, RejectionCode> {
    if id !in g then Err(EffectEntityMissing)
    else match KindOf(g[id])
      case Some(kind) => Ok(EntityView(g[id], kind))
      case None => Err(EffectEntityKind)
  }

  datatype EntityView = EntityView(state: EntityState, kind: EntityKind)

  predicate ResidentsAreReferences(state: EntityState, p: Predicate) {
    forall t :: t in state && t.pred == p ==> t.obj.Text?
  }

  /** The first reason one intent is refused on its own, whatever else the batch holds. */
  function Judge(rules: Rules, g: GraphState, intent: EffectIntent): Option<RejectionCode> {
    var m := MutationOf(intent);
    if !IntentValid(rules, intent) || IsProtected(m.pred) || !WithinBounds(rules, m) then Some(EffectInvalid)
    else match View(g, m.target)
      case Err(code) => Some(code)
      case Ok(view) =>
        if !AllowsSubjectKind(m.pred, view.kind) then Some(EffectEntityKind)
        else if IsEntityReference(m.pred) && JudgeReference(g, m).Some? then JudgeReference(g, m)
        else if IsRelation(m.pred) && !ResidentsAreReferences(view.state, m.pred) then Some(EffectInvalid)
        else None
  }

  predicate WithinBounds(rules: Rules, m: Mutation) {
    match AttributeForPredicate(m.pred)
    case None => true
    case Some(a) => m.obj.Number? && InBounds(rules.specs, a, m.obj.number)
  }

  function JudgeReference(g: GraphState, m: Mutation): Option<RejectionCode> {
    if !m.obj.Text? || m.obj.text == m.target then Some(EffectInvalid)
    else match View(g, m.obj.text)
      case Err(code) => Some(code)
      case Ok(view) => if AllowsObjectKind(m.pred, view.kind) then None else Some(EffectEntityKind)
  }

  /** Two mutations no batch may hold together: a single-valued fact set twice, or one
      object of a multi-valued fact named twice. */
  predicate Clash(a: Mutation, b: Mutation) {
    a.target == b.target && a.pred == b.pred && (!IsRelation(a.pred) || a.obj == b.obj)
  }

  ghost predicate ClashFree(muts: seq<Mutation>) {
    forall i, j :: 0 <= i < j < |muts| ==> !Clash(muts[i], muts[j])
  }

  ghost predicate AllAdmissible(rules: Rules, g: GraphState, intents: seq<EffectIntent>) {
    forall i :: 0 <= i < |intents| ==> Judge(rules, g, intents[i]) == None
  }

  ghost predicate Accepts(rules: Rules, g: GraphState, intents: seq<EffectIntent>) {
    AllAdmissible(rules, g, intents) && ClashFree(MutationsOf(intents))
  }

  // ---- The desired value set of one predicate ------------------------------

  /** One object of a desired set; `resident` carries the fact the world already
      records for it, which then travels verbatim. */
  datatype ObjectWrite = ObjectWrite(obj: Value, resident: Option<Triple>)

  datatype PredicateWrite = PredicateWrite(objects: seq<ObjectWrite>, named: set<Value>)

  function Seed(triples: seq<Triple>): seq<ObjectWrite> {
    seq(|triples|, i requires 0 <= i < |triples| => ObjectWrite(triples[i].obj, Some(triples[i])))
  }

  function SeedFor(state: EntityState, p: Predicate): seq<ObjectWrite> {
    if IsRelation(p) then Seed(TriplesOf(state, p)) else []
  }

  predicate Holds(objects: seq<ObjectWrite>, obj: Value) {
    exists w :: w in objects && w.obj == obj
  }

  function Drop(objects: seq<ObjectWrite>, obj: Value): seq<ObjectWrite> {
    if objects == [] then []
    else if objects[0].obj == obj then Drop(objects[1..], obj)
    else [objects[0]] + Drop(objects[1..], obj)
  }

  function Fold(objects: seq<ObjectWrite>, m: Mutation): seq<ObjectWrite> {
    if !IsRelation(m.pred) then [ObjectWrite(m.obj, None)]
    else if m.removes then Drop(objects, m.obj)
    else if Holds(objects, m.obj) then objects
    else objects + [ObjectWrite(m.obj, None)]
  }

  /** The mutations of a batch that speak about one predicate of one entity, in batch order. */
  function OpsOn(muts: seq<Mutation>, e: EntityID, p: Predicate): seq<Mutation> {
    if muts == [] then []
    else
      var before := OpsOn(muts[..|muts| - 1], e, p);
      var last := muts[|muts| - 1];
      if last.target == e && last.pred == p then before + [last] else before
  }

  /** The value set a run of mutations on one predicate leaves, starting from the resident one. */
  function Desired(seed: seq<ObjectWrite>, ops: seq<Mutation>): seq<ObjectWrite> {
    if ops == [] then seed
    else Fold(Desired(seed, ops[..|ops| - 1]), ops[|ops| - 1])
  }

  function Named(ops: seq<Mutation>): set<Value> {
    set m | m in ops :: m.obj
  }

  function WriteFor(state: EntityState, muts: seq<Mutation>, e: EntityID, p: Predicate): PredicateWrite {
    PredicateWrite(Desired(SeedFor(state, p), OpsOn(muts, e, p)), Named(OpsOn(muts, e, p)))
  }

  // ---- The plan ------------------------------------------------------------

  datatype TargetWrite = TargetWrite(
    resident: EntityState,
    order: seq<Predicate>,
    writes: map<Predicate, PredicateWrite>)

  /** The entities a batch touches, in first-touch order. */
  function TargetOrder(muts: seq<Mutation>): seq<EntityID> {
    if muts == [] then []
    else
      var last := muts[|muts| - 1];
      var before := TargetOrder(muts[..|muts| - 1]);
      if last.target in before then before else before + [last.target]
  }

  /** The predicates a batch touches on one entity, in first-touch order. */
  function PredicateOrder(muts: seq<Mutation>, e: EntityID): seq<Predicate> {
    if muts == [] then []
    else
      var last := muts[|muts| - 1];
      var before := PredicateOrder(muts[..|muts| - 1], e);
      if last.target != e || last.pred in before then before else before + [last.pred]
  }

  predicate Touches(muts: seq<Mutation>, e: EntityID, p: Predicate) {
    exists m :: m in muts && m.target == e && m.pred == p
  }

  lemma {:induction false} OpsMembers(muts: seq<Mutation>, e: EntityID, p: Predicate, m: Mutation)
    ensures m in OpsOn(muts, e, p) <==> m in muts && m.target == e && m.pred == p
  {
    if muts != [] {
      OpsMembers(muts[..|muts| - 1], e, p, m);
      assert muts == muts[..|muts| - 1] + [muts[|muts| - 1]];
    }
  }

  lemma {:induction false} TargetMembers(muts: seq<Mutation>)
    ensures Distinct(TargetOrder(muts))
    ensures forall e :: e in TargetOrder(muts) <==> exists m :: m in muts && m.target == e
  {
    if muts != [] {
      TargetMembers(muts[..|muts| - 1]);
      assert muts == muts[..|muts| - 1] + [muts[|muts| - 1]];
    }
  }

  lemma {:induction false} PredicateMembers(muts: seq<Mutation>, e: EntityID)
    ensures Distinct(PredicateOrder(muts, e))
    ensures forall p :: p in PredicateOrder(muts, e) <==> Touches(muts, e, p)
  {
    if muts != [] {
      PredicateMembers(muts[..|muts| - 1], e);
      assert muts == muts[..|muts| - 1] + [muts[|muts| - 1]];
    }
  }

  ghost predicate Describes(tw: TargetWrite, g: GraphState, muts: seq<Mutation>, e: EntityID) {
    && e in g && tw.resident == g[e]
    && tw.order == PredicateOrder(muts, e)
    && (forall p :: p in tw.writes <==> p in tw.order)
    && (forall p :: p in tw.writes ==> tw.writes[p] == WriteFor(g[e], muts, e, p))
  }

  /** What one batch has read of the named entities; nothing it answers ever differs from the store. */
  class Resolver {
    const store: Store
    var seen: map<EntityID, EntityView>

    ghost predicate Valid()
      reads this, store
    {
      forall id :: id in seen ==> View(store.graph, id) == Ok(seen[id])
    }

    constructor (store: Store)
      ensures Valid() && this.store == store && seen == map[]
    {
      this.store := store;
      this.seen := map[];
    }

    method Resolve(id: EntityID) returns (r: Result<EntityView, RejectionCode>)
      requires Valid()
      modifies this
      ensures Valid()
      ensures r == View(store.graph, id)
    {
      if id in seen {
        return Ok(seen[id]);
      }
      if id !in store.graph {
        return Err(EffectEntityMissing);
      }
      var state := store.graph[id];
      match KindOf(state) {
        case None => return Err(EffectEntityKind);
        case Some(kind) =>
          seen := seen[id := EntityView(state, kind)];
          return Ok(EntityView(state, kind));
      }
    }
  }

  method WithObject(objects: seq<ObjectWrite>, obj: Value) returns (r: seq<ObjectWrite>)
    ensures r == if Holds(objects, obj) then objects else objects + [ObjectWrite(obj, None)]
  {
    for i := 0 to |objects|
      invariant !Holds(objects[..i], obj)
    {
      if objects[i].obj == obj {
        assert objects[i] in objects;
        return objects;
      }
      assert objects[..i + 1] == objects[..i] + [objects[i]];
    }
    assert objects[..|objects|] == objects;
    r := objects + [ObjectWrite(obj, None)];
  }

  method WithoutObject(objects: seq<ObjectWrite>, obj: Value) returns (kept: seq<ObjectWrite>)
    ensures kept == Drop(objects, obj)
  {
    kept := [];
    for i := 0 to |objects|
      invariant kept + Drop(objects[i..], obj) == Drop(objects, obj)
    {
      assert objects[i..][0] == objects[i] && objects[i..][1..] == objects[i + 1..];
      ghost var rest := Drop(objects[i + 1..], obj);
      if objects[i].obj != obj {
        assert kept + ([objects[i]] + rest) == (kept + [objects[i]]) + rest;
        kept := kept + [objects[i]];
      }
    }
    assert kept + [] == kept;
  }

  ghost predicate Describing(order: seq<EntityID>, targets: map<EntityID, TargetWrite>, g: GraphState, muts: seq<Mutation>) {
    && order == TargetOrder(muts)
    && (forall e :: e in targets <==> e in order)
    && (forall e :: e in targets ==> Describes(targets[e], g, muts, e))
  }

  class Plan {
    var order: seq<EntityID>
    var targets: map<EntityID, TargetWrite>

    /** The plan is exactly what a prefix of mutations asks for. */
    ghost predicate Represents(g: GraphState, muts: seq<Mutation>)
      reads this
    {
      Describing(order, targets, g, muts)
    }

    constructor ()
      ensures forall g :: Represents(g, [])
    {
      order, targets := [], map[];
    }

    method FoldValue(view: EntityView, m: Mutation, ghost g: GraphState, ghost muts: seq<Mutation>)
      returns (ok: bool)
      requires Represents(g, muts)
      requires m.target in g && view.state == g[m.target]
      modifies this
      ensures ok <==> forall earlier :: earlier in muts ==> !Clash(earlier, m)
      ensures ok ==> Represents(g, muts + [m])
    {
      var e := m.target;
      if e !in targets { FreshTarget(g, muts, e); }
      var tw := if e in targets then targets[e] else TargetWrite(view.state, [], map[]);
      var entry := EntryOf(tw, m.pred);
      EntryDescribed(tw, g, muts, e, m.pred);

      var objects;
      ok, objects := MergeObject(entry, m);
      NamedMeansClash(muts, m);
      if !ok {
        return;
      }
      PlanStep(order, targets, tw, g, muts, m);
      if e !in targets {
        order := order + [e];
      }
      targets := targets[e := TargetAfter(tw, m, objects)];
    }
  }

  lemma PlanStep(
    order: seq<EntityID>, targets: map<EntityID, TargetWrite>, tw: TargetWrite,
    g: GraphState, muts: seq<Mutation>, m: Mutation)
    requires Describing(order, targets, g, muts) && Describes(tw, g, muts, m.target)
    ensures Describing(
              if m.target in targets then order else order + [m.target],
              targets[m.target := TargetAfter(tw, m, Fold(EntryOf(tw, m.pred).objects, m))],
              g, muts + [m])
  {
    var after := TargetAfter(tw, m, Fold(EntryOf(tw, m.pred).objects, m));
    var targets' := targets[m.target := after];
    OrderStep(muts, m);
    forall e | e in targets' ensures Describes(targets'[e], g, muts + [m], e) {
      if e == m.target {
        TargetStep(tw, g, muts, m);
      } else {
        OtherTargetStep(targets[e], g, muts, m, e);
      }
    }
  }

  /** Merges one object into a predicate's value set, refusing a batch that speaks twice. */
  method MergeObject(entry: PredicateWrite, m: Mutation) returns (ok: bool, objects: seq<ObjectWrite>)
    ensures ok <==> if IsRelation(m.pred) then m.obj !in entry.named else entry.named == {}
    ensures ok ==> objects == Fold(entry.objects, m)
  {
    if !IsRelation(m.pred) {
      return entry.named == {}, [ObjectWrite(m.obj, None)];
    }
    if m.obj in entry.named {
      return false, [];
    }
    ok := true;
    if m.removes {
      objects := WithoutObject(entry.objects, m.obj);
    } else {
      objects := WithObject(entry.objects, m.obj);
    }
  }

  lemma NamedMeansClash(muts: seq<Mutation>, m: Mutation)
    ensures var named := Named(OpsOn(muts, m.target, m.pred));
      (forall earlier :: earlier in muts ==> !Clash(earlier, m)) <==>
      if IsRelation(m.pred) then m.obj !in named else named == {}
  {
    var ops := OpsOn(muts, m.target, m.pred);
    forall earlier | earlier in muts && Clash(earlier, m)
      ensures earlier.obj in Named(ops)
    {
      OpsMembers(muts, m.target, m.pred, earlier);
    }
    forall v | v in Named(ops) && (!IsRelation(m.pred) || v == m.obj)
      ensures exists earlier :: earlier in muts && Clash(earlier, m)
    {
      var earlier :| earlier in ops && earlier.obj == v;
      OpsMembers(muts, m.target, m.pred, earlier);
      assert Clash(earlier, m);
    }
  }

  lemma OpsStep(muts: seq<Mutation>, m: Mutation, e: EntityID, p: Predicate)
    ensures OpsOn(muts + [m], e, p) ==
            if m.target == e && m.pred == p then OpsOn(muts, e, p) + [m] else OpsOn(muts, e, p)
  {
    assert (muts + [m])[..|muts|] == muts;
  }

  lemma OrderStep(muts: seq<Mutation>, m: Mutation)
    ensures TargetOrder(muts + [m]) ==
            if m.target in TargetOrder(muts) then TargetOrder(muts) else TargetOrder(muts) + [m.target]
  {
    assert (muts + [m])[..|muts|] == muts;
  }

  lemma PredicateOrderStep(muts: seq<Mutation>, m: Mutation, e: EntityID)
    ensures PredicateOrder(muts + [m], e) ==
            if m.target != e || m.pred in PredicateOrder(muts, e) then PredicateOrder(muts, e)
            else PredicateOrder(muts, e) + [m.pred]
  {
    assert (muts + [m])[..|muts|] == muts;
  }

  /** Before a batch touches an entity, its write is the empty one. */
  lemma FreshTarget(g: GraphState, muts: seq<Mutation>, e: EntityID)
    requires e in g && e !in TargetOrder(muts)
    ensures Describes(TargetWrite(g[e], [], map[]), g, muts, e)
  {
    NeverTouched(muts, e);
  }

  function EntryOf(tw: TargetWrite, p: Predicate): PredicateWrite {
    if p in tw.writes then tw.writes[p] else PredicateWrite(SeedFor(tw.resident, p), {})
  }

  /** The entry a fold starts from: what the batch already built, or the resident set. */
  lemma EntryDescribed(tw: TargetWrite, g: GraphState, muts: seq<Mutation>, e: EntityID, p: Predicate)
    requires Describes(tw, g, muts, e)
    ensures EntryOf(tw, p) == WriteFor(g[e], muts, e, p)
  {
    var ops := OpsOn(muts, e, p);
    PredicateMembers(muts, e);
    if ops != [] {
      OpsMembers(muts, e, p, ops[0]);
      assert ops[0] in ops && Touches(muts, e, p);
    }
  }

  function TargetAfter(tw: TargetWrite, m: Mutation, objects: seq<ObjectWrite>): TargetWrite {
    TargetWrite(tw.resident,
      if m.pred in tw.writes then tw.order else tw.order + [m.pred],
      tw.writes[m.pred := PredicateWrite(objects, EntryOf(tw, m.pred).named + {m.obj})])
  }

  lemma TargetStep(tw: TargetWrite, g: GraphState, muts: seq<Mutation>, m: Mutation)
    requires Describes(tw, g, muts, m.target)
    ensures Describes(TargetAfter(tw, m, Fold(EntryOf(tw, m.pred).objects, m)), g, muts + [m], m.target)
  {
    var tw' := TargetAfter(tw, m, Fold(EntryOf(tw, m.pred).objects, m));
    PredicateOrderStep(muts, m, m.target);
    EntryDescribed(tw, g, muts, m.target, m.pred);
    forall q | q in tw'.writes ensures tw'.writes[q] == WriteFor(g[m.target], muts + [m], m.target, q) {
      WriteStep(g[m.target], muts, m, q);
    }
  }

  lemma WriteStep(state: EntityState, muts: seq<Mutation>, m: Mutation, q: Predicate)
    ensures WriteFor(state, muts + [m], m.target, q) ==
            var w := WriteFor(state, muts, m.target, q);
            if q == m.pred then PredicateWrite(Fold(w.objects, m), w.named + {m.obj}) else w
  {
    OpsStep(muts, m, m.target, q);
    AppendedOp(SeedFor(state, q), OpsOn(muts, m.target, q), m);
  }

  lemma AppendedOp(seed: seq<ObjectWrite>, ops: seq<Mutation>, m: Mutation)
    ensures Desired(seed, ops + [m]) == Fold(Desired(seed, ops), m)
    ensures Named(ops + [m]) == Named(ops) + {m.obj}
  {
    assert (ops + [m])[..|ops|] == ops;
  }

  lemma OtherTargetStep(tw: TargetWrite, g: GraphState, muts: seq<Mutation>, m: Mutation, e: EntityID)
    requires Describes(tw, g, muts, e) && e != m.target
    ensures Describes(tw, g, muts + [m], e)
  {
    PredicateOrderStep(muts, m, e);
    forall p | p in tw.writes ensures tw.writes[p] == WriteFor(g[e], muts + [m], e, p) {
      OpsStep(muts, m, e, p);
    }
  }

  lemma NoMembers<T>(s: seq<T>)
    ensures s == [] <==> forall x :: x !in s
  {
    if s != [] {
      assert s[0] in s;
    }
  }

  lemma NeverTouched(muts: seq<Mutation>, e: EntityID)
    requires e !in TargetOrder(muts)
    ensures PredicateOrder(muts, e) == []
    ensures forall p :: OpsOn(muts, e, p) == []
  {
    TargetMembers(muts);
    PredicateMembers(muts, e);
    NoMembers(PredicateOrder(muts, e));
    forall p ensures OpsOn(muts, e, p) == [] {
      forall m ensures m !in OpsOn(muts, e, p) {
        OpsMembers(muts, e, p, m);
      }
      NoMembers(OpsOn(muts, e, p));
    }
  }

  datatype Rejection = Rejection(intent: int, code: RejectionCode)

  /** Whether `r` is the refusal a batch must get: the earliest intent that is inadmissible
      on its own or contradicts one before it. */
  ghost predicate FirstViolation(rules: Rules, g: GraphState, intents: seq<EffectIntent>, r: Rejection) {
    && 0 <= r.intent < |intents|
    && Accepts(rules, g, intents[..r.intent])
    && !Accepts(rules, g, intents[..r.intent + 1])
    && r.code == match Judge(rules, g, intents[r.intent])
                 case Some(code) => code
                 case None => EffectInvalid
  }

  /** Validates every intent before anything is written, and folds it into the plan. */
  method BuildPlan(store: Store, rules: Rules, intents: seq<EffectIntent>)
    returns (plan: Plan, rejected: Option<Rejection>)
    ensures fresh(plan)
    ensures rejected == None <==> Accepts(rules, store.graph, intents)
    ensures rejected == None ==> plan.Represents(store.graph, MutationsOf(intents))
    ensures rejected.Some? ==> FirstViolation(rules, store.graph, intents, rejected.value)
  {
    var resolver := new Resolver(store);
    plan := new Plan();
    for k := 0 to |intents|
      invariant fresh(resolver) && resolver.store == store && resolver.Valid()
      invariant fresh(plan)
      invariant Accepts(rules, store.graph, intents[..k])
      invariant plan.Represents(store.graph, MutationsOf(intents[..k]))
    {
      var code := FoldIntent(resolver, rules, plan, intents[k], intents[..k]);
      AcceptsStep(rules, store.graph, intents, k);
      if code.Some? {
        AcceptsPrefix(rules, store.graph, intents, k + 1);
        return plan, Some(Rejection(k, code.value));
      }
      MutationsStep(intents, k);
    }
    assert intents[..|intents|] == intents;
    rejected := None;
  }

  lemma MutationsStep(intents: seq<EffectIntent>, k: int)
    requires 0 <= k < |intents|
    ensures MutationsOf(intents[..k + 1]) == MutationsOf(intents[..k]) + [MutationOf(intents[k])]
  {
    var longer, shorter := MutationsOf(intents[..k + 1]), MutationsOf(intents[..k]);
    assert forall i :: 0 <= i < k ==> longer[i] == shorter[i];
    assert longer[k] == MutationOf(intents[k]);
  }

  /** Checks one intent in the order the engine does, and merges it when nothing objects. */
  method FoldIntent(
    resolver: Resolver, rules: Rules, plan: Plan, intent: EffectIntent, ghost before: seq<EffectIntent>)
    returns (code: Option<RejectionCode>)
    requires resolver.Valid()
    requires plan.Represents(resolver.store.graph, MutationsOf(before))
    modifies resolver, plan
    ensures resolver.Valid()
    ensures Judge(rules, resolver.store.graph, intent).Some? ==>
              code == Judge(rules, resolver.store.graph, intent)
    ensures Judge(rules, resolver.store.graph, intent) == None ==>
              code == if Contradicts(before, intent) then Some(EffectInvalid) else None
    ensures code == None ==>
              plan.Represents(resolver.store.graph, MutationsOf(before) + [MutationOf(intent)])
  {
    if !IntentValid(rules, intent) {
      return Some(EffectInvalid);
    }
    var m := MutationOf(intent);
    if IsProtected(m.pred) || !WithinBounds(rules, m) {
      return Some(EffectInvalid);
    }
    var target := resolver.Resolve(m.target);
    if target.Err? {
      return Some(target.error);
    }
    if !AllowsSubjectKind(m.pred, target.value.kind) {
      return Some(EffectEntityKind);
    }
    if IsEntityReference(m.pred) {
      code := CheckReferencedObject(resolver, m);
      if code.Some? {
        return;
      }
    }
    if IsRelation(m.pred) && !ResidentsAreReferences(target.value.state, m.pred) {
      return Some(EffectInvalid);
    }
    var folded := plan.FoldValue(target.value, m, resolver.store.graph, MutationsOf(before));
    ContradictionMeansClash(before, intent);
    return if folded then None else Some(EffectInvalid);
  }

  /** Whether the entity an intent points at may stand there: its own, missing, unreadable or of the wrong kind. */
  method CheckReferencedObject(resolver: Resolver, m: Mutation) returns (code: Option<RejectionCode>)
    requires resolver.Valid()
    modifies resolver
    ensures resolver.Valid()
    ensures code == JudgeReference(resolver.store.graph, m)
  {
    if !m.obj.Text? || m.obj.text == m.target {
      return Some(EffectInvalid);
    }
    var referenced := resolver.Resolve(m.obj.text);
    if referenced.Err? {
      return Some(referenced.error);
    }
    return if AllowsObjectKind(m.pred, referenced.value.kind) then None else Some(EffectEntityKind);
  }

  lemma ContradictionMeansClash(before: seq<EffectIntent>, intent: EffectIntent)
    ensures Contradicts(before, intent) <==>
            exists earlier :: earlier in MutationsOf(before) && Clash(earlier, MutationOf(intent))
  {
    forall i | 0 <= i < |before| && Clash(MutationOf(before[i]), MutationOf(intent))
      ensures MutationsOf(before)[i] in MutationsOf(before)
    {}
    forall earlier | earlier in MutationsOf(before) && Clash(earlier, MutationOf(intent))
      ensures Contradicts(before, intent)
    {
      var i :| 0 <= i < |before| && MutationsOf(before)[i] == earlier;
    }
  }

  predicate Contradicts(before: seq<EffectIntent>, intent: EffectIntent) {
    exists i :: 0 <= i < |before| && Clash(MutationOf(before[i]), MutationOf(intent))
  }

  lemma AcceptsStep(rules: Rules, g: GraphState, intents: seq<EffectIntent>, k: int)
    requires 0 <= k < |intents|
    requires Accepts(rules, g, intents[..k])
    ensures Accepts(rules, g, intents[..k + 1]) <==>
              Judge(rules, g, intents[k]) == None && !Contradicts(intents[..k], intents[k])
  {
    var p, q := intents[..k], intents[..k + 1];
    assert q == p + [intents[k]];
    assert AllAdmissible(rules, g, q) <==> Judge(rules, g, intents[k]) == None by {
      assert q[k] == intents[k] && forall i :: 0 <= i < k ==> q[i] == p[i];
    }
    ClashFreeStep(p, intents[k]);
  }

  lemma ClashFreeStep(before: seq<EffectIntent>, intent: EffectIntent)
    requires ClashFree(MutationsOf(before))
    ensures ClashFree(MutationsOf(before + [intent])) <==> !Contradicts(before, intent)
  {
    var muts, all := MutationsOf(before), MutationsOf(before + [intent]);
    assert all == muts + [MutationOf(intent)];
    if Contradicts(before, intent) {
      var i :| 0 <= i < |before| && Clash(MutationOf(before[i]), MutationOf(intent));
      assert Clash(all[i], all[|before|]);
    }
  }

  lemma AcceptsPrefix(rules: Rules, g: GraphState, intents: seq<EffectIntent>, k: int)
    requires 0 <= k <= |intents|
    ensures Accepts(rules, g, intents) ==> Accepts(rules, g, intents[..k])
  {
    if Accepts(rules, g, intents) {
      forall i | 0 <= i < k ensures intents[..k][i] == intents[i] && MutationsOf(intents[..k])[i] == MutationsOf(intents)[i] {}
    }
  }

  // ---- What admission means ------------------------------------------------

  predicate Readable(g: GraphState, id: EntityID) {
    id in g && KindOf(g[id]).Some?
  }

  /** An intent is admissible exactly when it is in vocabulary and in both sets of bounds, its target and its
      object exist with kinds the predicate allows, and nothing stands in a relation to itself. */
  lemma AdmissibleExactly(rules: Rules, g: GraphState, intent: EffectIntent)
    ensures var m := MutationOf(intent);
      Judge(rules, g, intent) == None <==>
        && IntentValid(rules, intent)
        && (intent.SetAttribute? ==> InBounds(rules.specs, intent.attribute, intent.value))
        && Readable(g, m.target) && AllowsSubjectKind(m.pred, KindOf(g[m.target]).value)
        && (IsEntityReference(m.pred) ==>
              && m.obj.Text? && m.obj.text != m.target
              && Readable(g, m.obj.text) && AllowsObjectKind(m.pred, KindOf(g[m.obj.text]).value))
        && (IsRelation(m.pred) ==> ResidentsAreReferences(g[m.target], m.pred))
  {
    EffectPredicates(intent);
  }

  /** What an effect can write at all: never protected truth, never an entity's kind, always in one family. */
  lemma EffectPredicates(intent: EffectIntent)
    ensures var p := MutationOf(intent).pred;
      && !IsProtected(p) && p != WorldEntityKind && EffectTargetForPredicate(p).Some?
      && (AttributeForPredicate(p).Some? <==> intent.SetAttribute?)
      && (intent.SetAttribute? ==> AttributeForPredicate(p) == Some(intent.attribute))
      && (IsRelation(p) <==> intent.AddRelationship? || intent.RemoveRelationship?)
  {}
}
