/** From a plan to one complete replacement per touched family, and what those
    replacements add up to. */
module EffectRendering {
  import opened Wrappers
  import opened Vocabulary
  import opened Graph
  import opened EffectPlan

  const SOURCE := "effect-applier"

  /** When a commit ran and for which turn: the provenance of every fact it causes. */
  datatype Stamp = Stamp(at: int, turnID: string)

  datatype ProjectionWrite = ProjectionWrite(target: Target, triples: seq<Triple>)

  function RenderObject(e: EntityID, p: Predicate, w: ObjectWrite, stamp: Stamp): Triple {
    match w.resident
    case Some(t) => t
    case None => Triple(e, p, w.obj, Provenance(SOURCE, stamp.at, stamp.turnID, IsEntityReference(p)))
  }

  function Render(e: EntityID, p: Predicate, objects: seq<ObjectWrite>, stamp: Stamp): seq<Triple> {
    seq(|objects|, i requires 0 <= i < |objects| => RenderObject(e, p, objects[i], stamp))
  }

  /** The effect families of a predicate list, in first-touch order. */
  function Families(order: seq<Predicate>): seq<Target> {
    if order == [] then []
    else
      var last := order[|order| - 1];
      var before := Families(order[..|order| - 1]);
      match EffectTargetForPredicate(last)
      case None => before
      case Some(t) => if t in before then before else before + [t]
  }

  lemma {:induction false} FamilyMembers(order: seq<Predicate>)
    ensures forall t :: t in Families(order) <==> exists p :: p in order && EffectTargetForPredicate(p) == Some(t)
  {
    if order != [] {
      FamilyMembers(order[..|order| - 1]);
      assert order == order[..|order| - 1] + [order[|order| - 1]];
    }
  }

  /** The rendered value sets of one family's touched predicates, in touch order. */
  function RenderTouched(e: EntityID, tw: TargetWrite, order: seq<Predicate>, target: Target, stamp: Stamp): seq<Triple>
    requires forall p :: p in order ==> p in tw.writes
  {
    if order == [] then []
    else
      var last := order[|order| - 1];
      var before := RenderTouched(e, tw, order[..|order| - 1], target, stamp);
      if EffectTargetForPredicate(last) == Some(target) then before + Render(e, last, tw.writes[last].objects, stamp)
      else before
  }

  function Touched(tw: TargetWrite): set<Predicate> {
    set p | p in tw.order
  }

  predicate Complete(tw: TargetWrite) {
    forall p :: p in tw.order ==> p in tw.writes
  }

  /** One family's complete desired set: untouched facts verbatim, then the touched value sets. */
  function Projection(e: EntityID, tw: TargetWrite, target: Target, stamp: Stamp): ProjectionWrite
    requires Complete(tw)
  {
    ProjectionWrite(target,
      Within(tw.resident, Predicates(target) - Touched(tw)) + RenderTouched(e, tw, tw.order, target, stamp))
  }

  function Projections(e: EntityID, tw: TargetWrite, stamp: Stamp): seq<ProjectionWrite>
    requires Complete(tw)
  {
    var families := Families(tw.order);
    seq(|families|, i requires 0 <= i < |families| => Projection(e, tw, families[i], stamp))
  }

  /** The replacements of one entity, family by family in first-touch order. */
  method RenderProjections(e: EntityID, tw: TargetWrite, stamp: Stamp) returns (projected: seq<ProjectionWrite>)
    requires Complete(tw)
    ensures projected == Projections(e, tw, stamp)
  {
    var targets := TouchedFamilies(tw.order);
    projected := [];
    for i := 0 to |targets|
      invariant |projected| == i
      invariant forall j :: 0 <= j < i ==> projected[j] == Projection(e, tw, targets[j], stamp)
    {
      var untouched := RenderUntouched(tw, targets[i]);
      var touched := RenderValueSets(e, tw, targets[i], stamp);
      projected := projected + [ProjectionWrite(targets[i], untouched + touched)];
    }
  }

  method TouchedFamilies(order: seq<Predicate>) returns (targets: seq<Target>)
    ensures targets == Families(order)
  {
    targets := [];
    for i := 0 to |order|
      invariant targets == Families(order[..i])
    {
      assert order[..i + 1][..i] == order[..i];
      match EffectTargetForPredicate(order[i]) {
        case None =>
        case Some(t) =>
          if t !in targets {
            targets := targets + [t];
          }
      }
    }
    assert order[..|order|] == order;
  }

  method RenderValueSets(e: EntityID, tw: TargetWrite, target: Target, stamp: Stamp) returns (touched: seq<Triple>)
    requires Complete(tw)
    ensures touched == RenderTouched(e, tw, tw.order, target, stamp)
  {
    touched := [];
    for k := 0 to |tw.order|
      invariant touched == RenderTouched(e, tw, tw.order[..k], target, stamp)
    {
      assert tw.order[..k + 1][..k] == tw.order[..k];
      var p := tw.order[k];
      if EffectTargetForPredicate(p) == Some(target) {
        ghost var before, all := touched, Render(e, p, tw.writes[p].objects, stamp);
        for n := 0 to |tw.writes[p].objects|
          invariant touched == before + all[..n]
        {
          assert all[..n + 1] == all[..n] + [all[n]];
          touched := touched + [RenderObject(e, p, tw.writes[p].objects[n], stamp)];
        }
        assert all[..|all|] == all;
      }
    }
    assert tw.order[..|tw.order|] == tw.order;
  }

  method RenderUntouched(tw: TargetWrite, target: Target) returns (kept: seq<Triple>)
    ensures kept == Within(tw.resident, Predicates(target) - Touched(tw))
  {
    kept := [];
    var group := Predicates(target) - Touched(tw);
    for i := 0 to |tw.resident|
      invariant kept + Within(tw.resident[i..], group) == Within(tw.resident, group)
    {
      if tw.resident[i].pred in Predicates(target) && tw.resident[i].pred !in tw.order {
        kept := kept + [tw.resident[i]];
      }
    }
  }

  // ---- What the value sets mean --------------------------------------------

  function Named(muts: seq<Mutation>, e: EntityID, p: Predicate): set<Value> {
    set m | m in muts && m.target == e && m.pred == p :: m.obj
  }

  function Removed(muts: seq<Mutation>, e: EntityID, p: Predicate): set<Value> {
    set m | m in muts && m.target == e && m.pred == p && m.removes :: m.obj
  }

  function Added(muts: seq<Mutation>, e: EntityID, p: Predicate): set<Value> {
    set m | m in muts && m.target == e && m.pred == p && !m.removes :: m.obj
  }

  /** The simple update: set a single-valued fact, or add to and remove from a set. */
  function Updated(resident: set<Value>, muts: seq<Mutation>, e: EntityID, p: Predicate): set<Value> {
    if !Touches(muts, e, p) then resident
    else if IsRelation(p) then resident + Added(muts, e, p) - Removed(muts, e, p)
    else Named(muts, e, p)
  }

  function ObjectSet(objects: seq<ObjectWrite>): set<Value> {
    set w | w in objects :: w.obj
  }

  /** The facts of a desired set that were already resident, in order. */
  function Verbatim(objects: seq<ObjectWrite>): seq<Triple> {
    if objects == [] then []
    else if objects[0].resident.Some? then [objects[0].resident.value] + Verbatim(objects[1..])
    else Verbatim(objects[1..])
  }

  /** The objects of a desired set this batch is the cause of, in order. */
  function Caused(objects: seq<ObjectWrite>): seq<Value> {
    if objects == [] then []
    else if objects[0].resident.None? then [objects[0].obj] + Caused(objects[1..])
    else Caused(objects[1..])
  }

  function Surviving(triples: seq<Triple>, gone: set<Value>): seq<Triple> {
    if triples == [] then []
    else if triples[0].obj in gone then Surviving(triples[1..], gone)
    else [triples[0]] + Surviving(triples[1..], gone)
  }

  /** Each entry either republishes a fact about its own predicate and object, or is new. */
  predicate Faithful(objects: seq<ObjectWrite>, p: Predicate) {
    forall w :: w in objects && w.resident.Some? ==> w.resident.value.pred == p && w.resident.value.obj == w.obj
  }

  lemma {:induction false} VerbatimConcat(a: seq<ObjectWrite>, b: seq<ObjectWrite>)
    ensures Verbatim(a + b) == Verbatim(a) + Verbatim(b)
  {
    if a == [] {
      assert a + b == b;
    } else {
      VerbatimConcat(a[1..], b);
      assert (a + b)[1..] == a[1..] + b;
    }
  }

  lemma {:induction false} CausedConcat(a: seq<ObjectWrite>, b: seq<ObjectWrite>)
    ensures Caused(a + b) == Caused(a) + Caused(b)
  {
    if a == [] {
      assert a + b == b;
    } else {
      CausedConcat(a[1..], b);
      assert (a + b)[1..] == a[1..] + b;
    }
  }

  lemma {:induction false} DropMeaning(objects: seq<ObjectWrite>, obj: Value, p: Predicate)
    requires Faithful(objects, p)
    ensures Faithful(Drop(objects, obj), p)
    ensures ObjectSet(Drop(objects, obj)) == ObjectSet(objects) - {obj}
    ensures Verbatim(Drop(objects, obj)) == Surviving(Verbatim(objects), {obj})
    ensures obj !in Caused(objects) ==> Caused(Drop(objects, obj)) == Caused(objects)
  {
    if objects != [] {
      var w, rest := objects[0], objects[1..];
      assert w in objects && forall x :: x in rest ==> x in objects;
      DropMeaning(rest, obj, p);
      assert ObjectSet(objects) == {w.obj} + ObjectSet(rest);
      if w.resident.Some? {
        assert Verbatim(objects) == [w.resident.value] + Verbatim(rest);
        assert Verbatim(objects)[1..] == Verbatim(rest);
      }
      if w.obj != obj {
        assert Drop(objects, obj) == [w] + Drop(rest, obj);
        assert ObjectSet(Drop(objects, obj)) == {w.obj} + ObjectSet(Drop(rest, obj));
      }
    }
  }

  lemma {:induction false} SurvivingTwice(triples: seq<Triple>, a: set<Value>, b: set<Value>)
    ensures Surviving(Surviving(triples, a), b) == Surviving(triples, a + b)
  {
    if triples != [] {
      SurvivingTwice(triples[1..], a, b);
      if triples[0].obj !in a {
        assert Surviving(triples, a)[1..] == Surviving(triples[1..], a);
      }
    }
  }

  lemma {:induction false} SurvivingNone(triples: seq<Triple>)
    ensures Surviving(triples, {}) == triples
  {
    if triples != [] {
      SurvivingNone(triples[1..]);
    }
  }

  lemma {:induction false} SeedMeaning(triples: seq<Triple>, p: Predicate)
    requires forall t :: t in triples ==> t.pred == p
    ensures Faithful(Seed(triples), p)
    ensures ObjectSet(Seed(triples)) == set t | t in triples :: t.obj
    ensures Verbatim(Seed(triples)) == triples
    ensures Caused(Seed(triples)) == []
  {
    if triples != [] {
      SeedMeaning(triples[1..], p);
      assert Seed(triples) == [ObjectWrite(triples[0].obj, Some(triples[0]))] + Seed(triples[1..]);
      assert ObjectSet(Seed(triples)) == {triples[0].obj} + ObjectSet(Seed(triples[1..]));
      assert triples == [triples[0]] + triples[1..];
    }
  }

  /** The invariant of folding: which objects are desired, which facts survive verbatim, and
      which objects the batch itself caused. */
  ghost predicate FoldedTo(objects: seq<ObjectWrite>, triples: seq<Triple>, ops: seq<Mutation>) {
    var gone := set m | m in ops && m.removes :: m.obj;
    var added := set m | m in ops && !m.removes :: m.obj;
    var resident := set t | t in triples :: t.obj;
    && ObjectSet(objects) == resident + added - gone
    && Verbatim(objects) == Surviving(triples, gone)
    && (forall v :: v in Caused(objects) <==> v in added && v !in resident)
  }

  lemma {:induction false} FoldMeaning(triples: seq<Triple>, ops: seq<Mutation>, p: Predicate)
    requires IsRelation(p)
    requires forall t :: t in triples ==> t.pred == p
    requires forall m :: m in ops ==> m.pred == p
    requires forall i, j :: 0 <= i < j < |ops| ==> ops[i].obj != ops[j].obj
    ensures Faithful(Desired(Seed(triples), ops), p)
    ensures FoldedTo(Desired(Seed(triples), ops), triples, ops)
  {
    if ops == [] {
      SeedMeaning(triples, p);
      SurvivingNone(triples);
      assert (set m | m in ops && m.removes :: m.obj) == {};
    } else {
      var before, m := ops[..|ops| - 1], ops[|ops| - 1];
      assert ops == before + [m];
      FoldMeaning(triples, before, p);
      FoldStepMeaning(Desired(Seed(triples), before), triples, before, m, p);
    }
  }

  lemma FoldStepMeaning(objects: seq<ObjectWrite>, triples: seq<Triple>, ops: seq<Mutation>, m: Mutation, p: Predicate)
    requires IsRelation(p) && m.pred == p
    requires Faithful(objects, p) && FoldedTo(objects, triples, ops)
    requires forall op :: op in ops ==> op.obj != m.obj
    ensures Faithful(Fold(objects, m), p)
    ensures FoldedTo(Fold(objects, m), triples, ops + [m])
  {
    var gone := set op | op in ops && op.removes :: op.obj;
    var added := set op | op in ops && !op.removes :: op.obj;
    var gone' := set op | op in ops + [m] && op.removes :: op.obj;
    var added' := set op | op in ops + [m] && !op.removes :: op.obj;
    if m.removes {
      assert gone' == gone + {m.obj} && added' == added;
      DropMeaning(objects, m.obj, p);
      SurvivingTwice(triples, gone, {m.obj});
    } else {
      assert gone' == gone && added' == added + {m.obj};
      var new_ := ObjectWrite(m.obj, None);
      VerbatimConcat(objects, [new_]);
      CausedConcat(objects, [new_]);
      assert Verbatim([new_]) == [] && Caused([new_]) == [m.obj];
      assert ObjectSet(objects + [new_]) == ObjectSet(objects) + {m.obj};
      assert Holds(objects, m.obj) <==> m.obj in ObjectSet(objects);
    }
  }

  /** The operations of an accepted batch on one relation name distinct objects. */
  lemma {:induction false} OpsDistinct(muts: seq<Mutation>, e: EntityID, p: Predicate)
    requires ClashFree(muts)
    ensures ClashFree(OpsOn(muts, e, p))
  {
    if muts != [] {
      var before, last := muts[..|muts| - 1], muts[|muts| - 1];
      assert ClashFree(before) by {
        forall i, j | 0 <= i < j < |before| ensures !Clash(before[i], before[j]) {
          assert !Clash(muts[i], muts[j]);
        }
      }
      OpsDistinct(before, e, p);
      var earlier := OpsOn(before, e, p);
      forall i | 0 <= i < |earlier| ensures !Clash(earlier[i], last) {
        OpsMembers(before, e, p, earlier[i]);
        var k :| 0 <= k < |before| && before[k] == earlier[i];
        assert !Clash(muts[k], muts[|muts| - 1]);
      }
    }
  }

  /** The desired set of every touched predicate is the simple update of the resident one; on a
      relation, facts nobody removed travel verbatim and only genuinely new objects are caused. */
  lemma DesiredIsUpdate(state: EntityState, muts: seq<Mutation>, e: EntityID, p: Predicate)
    requires ClashFree(muts) && Touches(muts, e, p)
    ensures var objects := WriteFor(state, muts, e, p).objects;
      && Faithful(objects, p)
      && ObjectSet(objects) == Updated(Objects(state, p), muts, e, p)
      && (IsRelation(p) ==>
        && Verbatim(objects) == Surviving(TriplesOf(state, p), Removed(muts, e, p))
        && (forall v :: v in Caused(objects) <==> v in Added(muts, e, p) && v !in Objects(state, p)))
      && (!IsRelation(p) ==> |objects| == 1 && objects[0].resident == None)
  {
    if IsRelation(p) {
      RelationIsUpdate(state, muts, e, p);
    } else {
      ScalarIsUpdate(state, muts, e, p);
    }
  }

  lemma RelationIsUpdate(state: EntityState, muts: seq<Mutation>, e: EntityID, p: Predicate)
    requires ClashFree(muts) && IsRelation(p)
    ensures var objects := WriteFor(state, muts, e, p).objects;
      && Faithful(objects, p)
      && ObjectSet(objects) == Objects(state, p) + Added(muts, e, p) - Removed(muts, e, p)
      && Verbatim(objects) == Surviving(TriplesOf(state, p), Removed(muts, e, p))
      && (forall v :: v in Caused(objects) <==> v in Added(muts, e, p) && v !in Objects(state, p))
  {
    var ops := OpsOn(muts, e, p);
    OpsDistinct(muts, e, p);
    forall m ensures m in ops <==> m in muts && m.target == e && m.pred == p {
      OpsMembers(muts, e, p, m);
    }
    forall i, j | 0 <= i < j < |ops| ensures ops[i].obj != ops[j].obj {
      assert ops[i] in ops && ops[j] in ops && !Clash(ops[i], ops[j]);
    }
    forall t | t in TriplesOf(state, p) ensures t.pred == p {
      WithinMembers(state, {p}, t);
    }
    FoldMeaning(TriplesOf(state, p), ops, p);
    assert Removed(muts, e, p) == set op | op in ops && op.removes :: op.obj;
    assert Added(muts, e, p) == set op | op in ops && !op.removes :: op.obj;
  }

  lemma AtMostOne(ops: seq<Mutation>)
    requires forall a, b :: a in ops && b in ops ==> Clash(a, b)
    ensures ClashFree(ops) ==> |ops| <= 1
  {
    if |ops| > 1 {
      assert ops[0] in ops && ops[1] in ops;
      assert Clash(ops[0], ops[1]);
    }
  }

  lemma ScalarIsUpdate(state: EntityState, muts: seq<Mutation>, e: EntityID, p: Predicate)
    requires ClashFree(muts) && Touches(muts, e, p) && !IsRelation(p)
    ensures var objects := WriteFor(state, muts, e, p).objects;
      |objects| == 1 && objects[0].resident == None && {objects[0].obj} == Named(muts, e, p)
  {
    var ops := OpsOn(muts, e, p);
    OpsDistinct(muts, e, p);
    forall m ensures m in ops <==> m in muts && m.target == e && m.pred == p {
      OpsMembers(muts, e, p, m);
    }
    var m :| m in muts && m.target == e && m.pred == p;
    assert m in ops;
    AtMostOne(ops);
    assert ops == [ops[0]] && m == ops[0];
    assert Desired([], [m]) == Fold(Desired([], [m][..0]), m);
    assert Named(muts, e, p) == {m.obj};
  }

  // ---- What the replacements add up to -------------------------------------

  function ApplyProjections(state: EntityState, writes: seq<ProjectionWrite>): EntityState {
    if writes == [] then state
    else Replace(ApplyProjections(state, writes[..|writes| - 1]),
                 Predicates(writes[|writes| - 1].target), writes[|writes| - 1].triples)
  }

  lemma {:induction false} RenderTriples(e: EntityID, p: Predicate, objects: seq<ObjectWrite>, stamp: Stamp)
    requires Faithful(objects, p)
    ensures forall t :: t in Render(e, p, objects, stamp) ==> t.pred == p
    ensures (set t | t in Render(e, p, objects, stamp) :: t.obj) == ObjectSet(objects)
  {
    var r := Render(e, p, objects, stamp);
    forall t | t in r ensures t.pred == p && t.obj in ObjectSet(objects) {
      var i :| 0 <= i < |objects| && r[i] == t;
      assert objects[i] in objects;
    }
    forall w | w in objects ensures exists t :: t in r && t.obj == w.obj {
      var i :| 0 <= i < |objects| && objects[i] == w;
      assert r[i] in r;
    }
  }

  ghost predicate WellFormed(tw: TargetWrite) {
    && Complete(tw)
    && (forall p :: p in tw.order ==> Faithful(tw.writes[p].objects, p))
    && Distinct(tw.order)
  }

  lemma {:induction false} RenderTouchedMembers(
    e: EntityID, tw: TargetWrite, order: seq<Predicate>, target: Target, stamp: Stamp)
    requires WellFormed(tw) && forall q :: q in order ==> q in tw.order
    ensures forall t :: t in RenderTouched(e, tw, order, target, stamp) ==>
              t.pred in order && EffectTargetForPredicate(t.pred) == Some(target)
  {
    if order != [] {
      var before, last := order[..|order| - 1], order[|order| - 1];
      assert order == before + [last];
      RenderTouchedMembers(e, tw, before, target, stamp);
      RenderTriples(e, last, tw.writes[last].objects, stamp);
    }
  }

  lemma {:induction false} RenderTouchedTriples(
    e: EntityID, tw: TargetWrite, order: seq<Predicate>, target: Target, stamp: Stamp, p: Predicate)
    requires WellFormed(tw) && Distinct(order)
    requires forall q :: q in order ==> q in tw.order
    ensures TriplesOf(RenderTouched(e, tw, order, target, stamp), p) ==
            if p in order && EffectTargetForPredicate(p) == Some(target)
            then Render(e, p, tw.writes[p].objects, stamp) else []
  {
    if order != [] {
      var before, last := order[..|order| - 1], order[|order| - 1];
      assert order == before + [last];
      RenderTouchedTriples(e, tw, before, target, stamp, p);
      if EffectTargetForPredicate(last) == Some(target) {
        RenderedAppend(RenderTouched(e, tw, before, target, stamp), e, last, tw.writes[last].objects, stamp, p);
        assert p == last ==> p !in before;
      }
    }
  }

  lemma RenderedAppend(
    before: seq<Triple>, e: EntityID, last: Predicate, objects: seq<ObjectWrite>, stamp: Stamp, p: Predicate)
    requires Faithful(objects, last)
    ensures TriplesOf(before + Render(e, last, objects, stamp), p) ==
            TriplesOf(before, p) + if p == last then Render(e, last, objects, stamp) else []
  {
    var rendered := Render(e, last, objects, stamp);
    RenderTriples(e, last, objects, stamp);
    WithinConcat(before, rendered, {p});
    if p == last {
      WithinEverything(rendered, {p});
    } else {
      WithinNothing(rendered, {p});
    }
  }

  lemma ProjectionMembers(e: EntityID, tw: TargetWrite, target: Target, stamp: Stamp)
    requires WellFormed(tw) && target != TurnEffectMarker
    ensures forall t :: t in Projection(e, tw, target, stamp).triples ==> t.pred in Predicates(target)
  {
    var group := Predicates(target) - Touched(tw);
    RenderTouchedMembers(e, tw, tw.order, target, stamp);
    forall t: Triple | t in Within(tw.resident, group) ensures t.pred in Predicates(target) {
      WithinMembers(tw.resident, group, t);
    }
    forall t: Triple | t in RenderTouched(e, tw, tw.order, target, stamp) ensures t.pred in Predicates(target) {
      FamilyContains(t.pred);
    }
  }

  /** What one family's projection says about each of its predicates. */
  lemma ProjectionTriples(e: EntityID, tw: TargetWrite, target: Target, stamp: Stamp, p: Predicate)
    requires WellFormed(tw) && target != TurnEffectMarker && p in Predicates(target)
    ensures TriplesOf(Projection(e, tw, target, stamp).triples, p) == FinalTriples(e, tw, stamp, p)
  {
    var group := Predicates(target) - Touched(tw);
    FamilyOf(p, target);
    WithinConcat(Within(tw.resident, group), RenderTouched(e, tw, tw.order, target, stamp), {p});
    RenderTouchedTriples(e, tw, tw.order, target, stamp, p);
    WithinOnly(tw.resident, group, p);
  }

  lemma WithinOnly(s: EntityState, group: set<Predicate>, p: Predicate)
    ensures TriplesOf(Within(s, group), p) == if p in group then TriplesOf(s, p) else []
  {
    if p in group {
      TriplesWithin(s, group, p);
    } else {
      forall t | t in Within(s, group) ensures t.pred != p {
        WithinMembers(s, group, t);
      }
      WithinNothing(Within(s, group), {p});
    }
  }

  /** The facts an entity ends up recording for a predicate. */
  function FinalTriples(e: EntityID, tw: TargetWrite, stamp: Stamp, p: Predicate): seq<Triple>
    requires Complete(tw)
  {
    if p in tw.order then Render(e, p, tw.writes[p].objects, stamp) else TriplesOf(tw.resident, p)
  }

  /** After any prefix of the projections, the families already written hold their final
      facts and every other predicate holds what it held before. */
  lemma {:induction false} PrefixRefinesUpdate(e: EntityID, tw: TargetWrite, stamp: Stamp, k: nat, p: Predicate)
    requires WellFormed(tw) && k <= |Projections(e, tw, stamp)|
    ensures TriplesOf(ApplyProjections(tw.resident, Projections(e, tw, stamp)[..k]), p) ==
            if EffectTargetForPredicate(p).Some? && EffectTargetForPredicate(p).value in Families(tw.order)[..k]
            then FinalTriples(e, tw, stamp, p) else TriplesOf(tw.resident, p)
  {
    var families, writes := Families(tw.order), Projections(e, tw, stamp);
    if k == 0 {
      assert writes[..k] == [];
    } else {
      var prefix, target := writes[..k - 1], families[k - 1];
      assert writes[..k][..k - 1] == prefix && writes[..k][k - 1] == Projection(e, tw, target, stamp);
      assert families[..k] == families[..k - 1] + [target];
      assert target in families;
      PrefixRefinesUpdate(e, tw, stamp, k - 1, p);
      ProjectionReplaces(e, tw, target, stamp, ApplyProjections(tw.resident, prefix), p);
    }
  }

  /** Writing one touched family gives its predicates their final facts and moves nothing else. */
  lemma ProjectionReplaces(e: EntityID, tw: TargetWrite, target: Target, stamp: Stamp, state: EntityState, p: Predicate)
    requires WellFormed(tw) && target in Families(tw.order)
    ensures TriplesOf(Replace(state, Predicates(target), Projection(e, tw, target, stamp).triples), p) ==
            if EffectTargetForPredicate(p) == Some(target) then FinalTriples(e, tw, stamp, p) else TriplesOf(state, p)
  {
    FamilyMembers(tw.order);
    var q :| q in tw.order && EffectTargetForPredicate(q) == Some(target);
    FamilyContains(q);
    ProjectionMembers(e, tw, target, stamp);
    ReplaceTriples(state, Predicates(target), Projection(e, tw, target, stamp).triples, p);
    if p in Predicates(target) {
      FamilyOf(p, target);
      ProjectionTriples(e, tw, target, stamp, p);
    } else if EffectTargetForPredicate(p).Some? {
      FamilyContains(p);
    }
  }

  /** Rendering refines the simple update: with every family written, each touched predicate holds
      exactly its rendered value set, and every other predicate, inside a touched family or not,
      holds exactly the facts it held. */
  lemma RenderingRefinesUpdate(g: GraphState, muts: seq<Mutation>, tw: TargetWrite, e: EntityID, stamp: Stamp, p: Predicate)
    requires ClashFree(muts) && Describes(tw, g, muts, e)
    requires forall m :: m in muts ==> EffectTargetForPredicate(m.pred).Some?
    ensures WellFormed(tw)
    ensures var after := ApplyProjections(g[e], Projections(e, tw, stamp));
      && (Touches(muts, e, p) ==> TriplesOf(after, p) == Render(e, p, WriteFor(g[e], muts, e, p).objects, stamp))
      && (!Touches(muts, e, p) ==> TriplesOf(after, p) == TriplesOf(g[e], p))
      && Objects(after, p) == Updated(Objects(g[e], p), muts, e, p)
  {
    DescribedIsWellFormed(g, muts, tw, e);
    PredicateMembers(muts, e);
    EveryFamilyWritten(e, tw, stamp, p);
    if Touches(muts, e, p) {
      DesiredIsUpdate(g[e], muts, e, p);
      RenderTriples(e, p, WriteFor(g[e], muts, e, p).objects, stamp);
    }
  }

  lemma EveryFamilyWritten(e: EntityID, tw: TargetWrite, stamp: Stamp, p: Predicate)
    requires WellFormed(tw)
    ensures (p in tw.order ==> EffectTargetForPredicate(p).Some?) ==>
              TriplesOf(ApplyProjections(tw.resident, Projections(e, tw, stamp)), p) == FinalTriples(e, tw, stamp, p)
  {
    var writes := Projections(e, tw, stamp);
    assert writes[..|writes|] == writes && Families(tw.order)[..|writes|] == Families(tw.order);
    FamilyMembers(tw.order);
    PrefixRefinesUpdate(e, tw, stamp, |writes|, p);
  }

  lemma DescribedIsWellFormed(g: GraphState, muts: seq<Mutation>, tw: TargetWrite, e: EntityID)
    requires ClashFree(muts) && Describes(tw, g, muts, e)
    ensures WellFormed(tw)
  {
    PredicateMembers(muts, e);
    forall p | p in tw.order ensures Faithful(tw.writes[p].objects, p) {
      assert Touches(muts, e, p);
      DesiredIsUpdate(g[e], muts, e, p);
    }
  }

  // ---- Order does not matter -----------------------------------------------

  lemma ClashFreePairs(intents: seq<EffectIntent>)
    ensures ClashFree(MutationsOf(intents)) <==>
            && (forall x, y :: x in intents && y in intents && x != y ==> !Clash(MutationOf(x), MutationOf(y)))
            && (forall x :: x in intents ==> multiset(intents)[x] == 1)
  {
    var muts := MutationsOf(intents);
    if ClashFree(muts) {
      forall i, j | 0 <= i < |intents| && 0 <= j < |intents| && i != j
        ensures !Clash(MutationOf(intents[i]), MutationOf(intents[j]))
      {
        if i < j { assert !Clash(muts[i], muts[j]); } else { assert !Clash(muts[j], muts[i]); }
      }
      forall x | x in intents ensures multiset(intents)[x] == 1 {
        CountOnce(intents, x);
      }
    }
    if forall x :: x in intents ==> multiset(intents)[x] == 1 {
      forall i, j | 0 <= i < j < |intents| ensures intents[i] != intents[j] {
        CountTwice(intents, i, j);
      }
    }
  }

  lemma {:induction false} CountOnce<T>(s: seq<T>, x: T)
    requires x in s && forall i, j :: 0 <= i < j < |s| ==> s[i] != s[j]
    ensures multiset(s)[x] == 1
  {
    var n := |s| - 1;
    assert s == s[..n] + [s[n]];
    if s[n] == x {
      assert x !in multiset(s[..n]);
    } else {
      CountOnce(s[..n], x);
    }
  }

  lemma CountTwice<T>(s: seq<T>, i: int, j: int)
    requires 0 <= i < j < |s|
    ensures s[i] == s[j] ==> multiset(s)[s[i]] >= 2
  {
    assert s == s[..j] + [s[j]] + s[j + 1..];
    assert s[i] in s[..j];
  }

  /** Any reordering of a batch is accepted or refused alike, and asks for the same object sets. */
  lemma OrderIndependent(rules: Rules, g: GraphState, intents: seq<EffectIntent>, other: seq<EffectIntent>)
    requires multiset(intents) == multiset(other)
    ensures Accepts(rules, g, intents) <==> Accepts(rules, g, other)
    ensures forall resident, e, p ::
              Updated(resident, MutationsOf(intents), e, p) == Updated(resident, MutationsOf(other), e, p)
  {
    forall x ensures x in intents <==> x in other {
      assert x in intents <==> x in multiset(intents);
      assert x in other <==> x in multiset(other);
    }
    ClashFreePairs(intents);
    ClashFreePairs(other);
    AdmissibleByMembership(rules, g, intents);
    AdmissibleByMembership(rules, g, other);
    forall m ensures m in MutationsOf(intents) <==> m in MutationsOf(other) {
      MutationMembership(intents, m);
      MutationMembership(other, m);
    }
    forall resident, e, p
      ensures Updated(resident, MutationsOf(intents), e, p) == Updated(resident, MutationsOf(other), e, p)
    {
      assert Named(MutationsOf(intents), e, p) == Named(MutationsOf(other), e, p);
      assert Added(MutationsOf(intents), e, p) == Added(MutationsOf(other), e, p);
      assert Removed(MutationsOf(intents), e, p) == Removed(MutationsOf(other), e, p);
    }
  }

  lemma AdmissibleByMembership(rules: Rules, g: GraphState, intents: seq<EffectIntent>)
    ensures AllAdmissible(rules, g, intents) <==> forall x :: x in intents ==> Judge(rules, g, x) == None
  {}

  lemma MutationMembership(intents: seq<EffectIntent>, m: Mutation)
    ensures m in MutationsOf(intents) <==> exists x :: x in intents && MutationOf(x) == m
  {
    forall x | x in intents ensures MutationOf(x) in MutationsOf(intents) {
      var i :| 0 <= i < |intents| && intents[i] == x;
      assert MutationsOf(intents)[i] == MutationOf(x);
    }
    if m in MutationsOf(intents) {
      var i :| 0 <= i < |intents| && MutationsOf(intents)[i] == m;
      assert intents[i] in intents;
    }
  }
}
