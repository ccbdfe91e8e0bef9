/** The value snapshot a persona is shown, and the pass that makes it canonical and closed. */
module Projection {
  import opened Wrappers
  import opened Vocabulary
  import opened Graph
  import opened ByteOrder

  datatype Fact = Fact(pred: Predicate, obj: Value)

  datatype Entity = Entity(id: EntityID, facts: seq<Fact>)

  datatype Solution = Solution(culprit: EntityID, method_: EntityID, motive: EntityID)

  /** One snapshot: the turn and scene, its members, their neighbours, and rarely the solution. */
  datatype Snapshot = Snapshot(
    turn: Entity, scene: Entity, members: seq<Entity>, neighbours: seq<Entity>, solution: Option<Solution>)

  function Single(e: Entity): seq<Entity> {
    if e.id == "" then [] else [e]
  }

  function Entities(p: Snapshot): seq<Entity> {
    Single(p.turn) + Single(p.scene) + p.members + p.neighbours
  }

  function IDs(entities: seq<Entity>): set<EntityID> {
    set i | 0 <= i < |entities| :: entities[i].id
  }

  // ---- Canonical entity lists ----------------------------------------------

  predicate Sorted(entities: seq<Entity>) {
    forall i, j :: 0 <= i < j < |entities| ==> Below(entities[i].id, entities[j].id)
  }

  /** The entity a sorted list holds for an identity. */
  function Find(entities: seq<Entity>, id: EntityID): Option<Entity> {
    if entities == [] then None
    else if entities[0].id == id then Some(entities[0])
    else Find(entities[1..], id)
  }

  /** The last entity a list gives for an identity: of two, the later replaces the earlier. */
  function LastWith(entities: seq<Entity>, id: EntityID): Option<Entity> {
    if entities == [] then None
    else if entities[|entities| - 1].id == id then Some(entities[|entities| - 1])
    else LastWith(entities[..|entities| - 1], id)
  }

  function Upsert(sorted: seq<Entity>, e: Entity): seq<Entity> {
    if sorted == [] || Below(e.id, sorted[0].id) then [e] + sorted
    else if sorted[0].id == e.id then [e] + sorted[1..]
    else [sorted[0]] + Upsert(sorted[1..], e)
  }

  predicate Admitted(e: Entity, excluded: set<EntityID>) {
    e.id != "" && e.id !in excluded
  }

  /** One entity per identity, excluded identities dropped, in byte order. */
  function Deduped(entities: seq<Entity>, excluded: set<EntityID>): seq<Entity> {
    if entities == [] then []
    else
      var before, last := Deduped(entities[..|entities| - 1], excluded), entities[|entities| - 1];
      if Admitted(last, excluded) then Upsert(before, last) else before
  }

  method DedupeSorted(entities: seq<Entity>, excluded: set<EntityID>) returns (out: seq<Entity>)
    ensures out == Deduped(entities, excluded)
  {
    out := [];
    for i := 0 to |entities|
      invariant out == Deduped(entities[..i], excluded)
    {
      assert entities[..i + 1][..i] == entities[..i];
      if Admitted(entities[i], excluded) {
        out := Upsert(out, entities[i]);
      }
    }
    assert entities[..|entities|] == entities;
  }

  lemma {:induction false} UpsertFinds(sorted: seq<Entity>, e: Entity, id: EntityID)
    requires Sorted(sorted)
    ensures Find(Upsert(sorted, e), id) == if id == e.id then Some(e) else Find(sorted, id)
  {
    if sorted != [] {
      BelowTrichotomy(e.id, sorted[0].id);
      if Below(e.id, sorted[0].id) {
        assert ([e] + sorted)[1..] == sorted;
      } else if sorted[0].id == e.id {
        assert ([e] + sorted[1..])[1..] == sorted[1..];
      } else {
        UpsertFinds(sorted[1..], e, id);
        assert ([sorted[0]] + Upsert(sorted[1..], e))[1..] == Upsert(sorted[1..], e);
      }
    }
  }

  lemma {:induction false} UpsertMembers(sorted: seq<Entity>, e: Entity)
    ensures forall i :: 0 <= i < |Upsert(sorted, e)| ==>
              Upsert(sorted, e)[i] == e || Upsert(sorted, e)[i] in sorted
  {
    if sorted != [] && !Below(e.id, sorted[0].id) && sorted[0].id != e.id {
      UpsertMembers(sorted[1..], e);
    }
  }

  lemma {:induction false} UpsertSorts(sorted: seq<Entity>, e: Entity)
    requires Sorted(sorted)
    ensures Sorted(Upsert(sorted, e))
  {
    if sorted != [] {
      BelowTrichotomy(e.id, sorted[0].id);
      if Below(e.id, sorted[0].id) {
        forall j | 0 <= j < |sorted| ensures Below(e.id, sorted[j].id) {
          if j > 0 { BelowTransitive(e.id, sorted[0].id, sorted[j].id); }
        }
      } else if sorted[0].id != e.id {
        UpsertSorts(sorted[1..], e);
        UpsertMembers(sorted[1..], e);
      }
    }
  }

  lemma {:induction false} DedupedSorted(entities: seq<Entity>, excluded: set<EntityID>)
    ensures Sorted(Deduped(entities, excluded))
    ensures forall i :: 0 <= i < |Deduped(entities, excluded)| ==> Admitted(Deduped(entities, excluded)[i], excluded)
  {
    if entities != [] {
      var before, last := Deduped(entities[..|entities| - 1], excluded), entities[|entities| - 1];
      DedupedSorted(entities[..|entities| - 1], excluded);
      UpsertSorts(before, last);
      UpsertMembers(before, last);
    }
  }

  /** Exactly the admitted identities survive, each as the last entity the list gave for it. */
  lemma {:induction false} DedupedFinds(entities: seq<Entity>, excluded: set<EntityID>, id: EntityID)
    ensures Find(Deduped(entities, excluded), id) ==
            if id == "" || id in excluded then None else LastWith(entities, id)
  {
    if entities == [] {
      assert LastWith(entities, id) == None;
    } else {
      var init, last := entities[..|entities| - 1], entities[|entities| - 1];
      DedupedFinds(init, excluded, id);
      DedupedSorted(init, excluded);
      UpsertFinds(Deduped(init, excluded), last, id);
    }
  }

  lemma {:induction false} UpsertAppends(sorted: seq<Entity>, e: Entity)
    requires forall i :: 0 <= i < |sorted| ==> Below(sorted[i].id, e.id)
    ensures Upsert(sorted, e) == sorted + [e]
  {
    if sorted != [] {
      BelowTrichotomy(e.id, sorted[0].id);
      UpsertAppends(sorted[1..], e);
      assert sorted == [sorted[0]] + sorted[1..];
    }
  }

  /** A canonical list is its own canonical form. */
  lemma {:induction false} DedupedTwice(entities: seq<Entity>, excluded: set<EntityID>)
    requires Sorted(entities)
    requires forall i :: 0 <= i < |entities| ==> Admitted(entities[i], excluded)
    ensures Deduped(entities, excluded) == entities
  {
    if entities != [] {
      DedupedTwice(entities[..|entities| - 1], excluded);
      UpsertAppends(entities[..|entities| - 1], entities[|entities| - 1]);
    }
  }

  // ---- Pruning -------------------------------------------------------------

  /** A reference survives only when it names an entity of the snapshot. */
  predicate Keeps(f: Fact, allowed: set<EntityID>) {
    IsEntityReference(f.pred) ==> f.obj.Text? && f.obj.text in allowed
  }

  function Kept(facts: seq<Fact>, allowed: set<EntityID>): seq<Fact> {
    if facts == [] then []
    else
      var before, last := Kept(facts[..|facts| - 1], allowed), facts[|facts| - 1];
      if Keeps(last, allowed) then before + [last] else before
  }

  function Pruned(e: Entity, allowed: set<EntityID>): Entity {
    e.(facts := Kept(e.facts, allowed))
  }

  function PrunedAll(entities: seq<Entity>, allowed: set<EntityID>): seq<Entity> {
    seq(|entities|, i requires 0 <= i < |entities| => Pruned(entities[i], allowed))
  }

  /** Compacts the kept facts to the front of their own array, overwriting as it reads. */
  method PruneDangling(facts: array<Fact>, allowed: set<EntityID>) returns (n: nat)
    modifies facts
    ensures n <= facts.Length && facts[..n] == Kept(old(facts[..]), allowed)
  {
    n := 0;
    for i := 0 to facts.Length
      invariant n <= i
      invariant facts[..n] == Kept(old(facts[..])[..i], allowed)
      invariant facts[i..] == old(facts[..])[i..]
    {
      assert old(facts[..])[..i + 1][..i] == old(facts[..])[..i];
      var fact := facts[i];
      assert fact == facts[i..][0] == old(facts[..])[i];
      if Keeps(fact, allowed) {
        facts[n] := fact;
        n := n + 1;
      }
      assert facts[i + 1..] == old(facts[..])[i + 1..];
    }
    assert old(facts[..])[..facts.Length] == old(facts[..]);
  }

  method PruneEntity(e: Entity, allowed: set<EntityID>) returns (r: Entity)
    ensures r == Pruned(e, allowed)
  {
    var facts := new Fact[|e.facts|](i requires 0 <= i < |e.facts| => e.facts[i]);
    assert facts[..] == e.facts;
    var n := PruneDangling(facts, allowed);
    r := e.(facts := facts[..n]);
  }

  method PruneEntities(entities: seq<Entity>, allowed: set<EntityID>) returns (r: seq<Entity>)
    ensures r == PrunedAll(entities, allowed)
  {
    r := entities;
    for i := 0 to |entities|
      invariant |r| == |entities|
      invariant forall j :: 0 <= j < i ==> r[j] == Pruned(entities[j], allowed)
      invariant forall j :: i <= j < |entities| ==> r[j] == entities[j]
    {
      var pruned := PruneEntity(r[i], allowed);
      r := r[i := pruned];
    }
  }

  // ---- Finalizing ----------------------------------------------------------

  function Anchors(p: Snapshot): set<EntityID> {
    {p.turn.id, p.scene.id}
  }

  /** Members and neighbours made canonical and disjoint, before any fact is dropped. */
  function Arranged(p: Snapshot): Snapshot {
    var members := Deduped(p.members, Anchors(p));
    p.(members := members, neighbours := Deduped(p.neighbours, Anchors(p) + IDs(members)))
  }

  function PrunedSnapshot(p: Snapshot, allowed: set<EntityID>): Snapshot {
    p.(turn := Pruned(p.turn, allowed), scene := Pruned(p.scene, allowed),
       members := PrunedAll(p.members, allowed), neighbours := PrunedAll(p.neighbours, allowed))
  }

  function Finalized(p: Snapshot): Snapshot {
    PrunedSnapshot(Arranged(p), IDs(Entities(Arranged(p))))
  }

  class Builder {
    var snapshot: Snapshot

    constructor (snapshot: Snapshot)
      ensures this.snapshot == snapshot
    {
      this.snapshot := snapshot;
    }

    /** Rewrites the snapshot in place, category by category. */
    method Finalize()
      modifies this
      ensures snapshot == Finalized(old(snapshot))
    {
      var members := DedupeSorted(snapshot.members, Anchors(snapshot));
      snapshot := snapshot.(members := members);
      var neighbours := DedupeSorted(snapshot.neighbours, Anchors(snapshot) + IDs(members));
      snapshot := snapshot.(neighbours := neighbours);
      var allowed := IDs(Entities(snapshot));
      var turn := PruneEntity(snapshot.turn, allowed);
      var scene := PruneEntity(snapshot.scene, allowed);
      members := PruneEntities(snapshot.members, allowed);
      neighbours := PruneEntities(snapshot.neighbours, allowed);
      snapshot := snapshot.(turn := turn, scene := scene, members := members, neighbours := neighbours);
    }
  }

  // ---- What finalizing guarantees ------------------------------------------

  lemma {:induction false} KeptMembers(facts: seq<Fact>, allowed: set<EntityID>, f: Fact)
    ensures f in Kept(facts, allowed) <==> f in facts && Keeps(f, allowed)
  {
    if facts != [] {
      KeptMembers(facts[..|facts| - 1], allowed, f);
      assert facts == facts[..|facts| - 1] + [facts[|facts| - 1]];
    }
  }

  lemma {:induction false} KeptTwice(facts: seq<Fact>, allowed: set<EntityID>)
    requires forall i :: 0 <= i < |facts| ==> Keeps(facts[i], allowed)
    ensures Kept(facts, allowed) == facts
  {
    if facts != [] {
      KeptTwice(facts[..|facts| - 1], allowed);
    }
  }

  /** The facts that are not references, in order and with their multiplicity. */
  function Plain(facts: seq<Fact>): seq<Fact> {
    if facts == [] then []
    else
      var before, last := Plain(facts[..|facts| - 1]), facts[|facts| - 1];
      if IsEntityReference(last.pred) then before else before + [last]
  }

  lemma {:induction false} PlainKept(facts: seq<Fact>, allowed: set<EntityID>)
    ensures Plain(Kept(facts, allowed)) == Plain(facts)
  {
    if facts != [] {
      var init, last := facts[..|facts| - 1], facts[|facts| - 1];
      PlainKept(init, allowed);
      assert (Kept(init, allowed) + [last])[..|Kept(init, allowed)|] == Kept(init, allowed);
    }
  }

  lemma PrunedIDs(entities: seq<Entity>, allowed: set<EntityID>)
    ensures IDs(PrunedAll(entities, allowed)) == IDs(entities)
  {
    var pruned := PrunedAll(entities, allowed);
    assert forall i :: 0 <= i < |entities| ==> pruned[i].id == entities[i].id;
  }

  lemma PruningIsPointwise(p: Snapshot, allowed: set<EntityID>)
    ensures Entities(PrunedSnapshot(p, allowed)) == PrunedAll(Entities(p), allowed)
  {
    var before, after := Entities(p), Entities(PrunedSnapshot(p, allowed));
    assert |after| == |before|;
    assert forall i :: 0 <= i < |before| ==> after[i] == Pruned(before[i], allowed);
  }

  /** Projection closure: every reference a snapshot still states names an entity of that snapshot. */
  lemma ReferencesAreClosed(p: Snapshot, i: nat, f: Fact)
    requires i < |Entities(Finalized(p))| && f in Entities(Finalized(p))[i].facts && IsEntityReference(f.pred)
    ensures f.obj.Text? && f.obj.text in IDs(Entities(Finalized(p)))
  {
    var entities := Entities(Arranged(p));
    var allowed := IDs(entities);
    PruningIsPointwise(Arranged(p), allowed);
    PrunedIDs(entities, allowed);
    KeptMembers(entities[i].facts, allowed, f);
  }

  /** Members and neighbours come out sorted, and no identity appears twice among turn, scene, members
      and neighbours. */
  lemma IdentitiesAreDistinct(p: Snapshot)
    ensures var r := Finalized(p);
      && Sorted(r.members) && Sorted(r.neighbours)
      && r.turn.id !in IDs(r.members) && r.scene.id !in IDs(r.members)
      && r.turn.id !in IDs(r.neighbours) && r.scene.id !in IDs(r.neighbours)
      && IDs(r.members) !! IDs(r.neighbours)
      && "" !in IDs(r.members) && "" !in IDs(r.neighbours)
  {
    var members := Deduped(p.members, Anchors(p));
    DedupedSorted(p.members, Anchors(p));
    DedupedSorted(p.neighbours, Anchors(p) + IDs(members));
    PrunedIDs(members, IDs(Entities(Arranged(p))));
    PrunedIDs(Deduped(p.neighbours, Anchors(p) + IDs(members)), IDs(Entities(Arranged(p))));
  }

  /** Exactly the admitted identities survive, and a survivor loses nothing but dangling references:
      its plain facts are those of the last entity given for it, in order. */
  lemma SurvivorsKeepPlainFacts(p: Snapshot, id: EntityID)
    requires id != "" && id !in Anchors(p)
    ensures var r := Finalized(p);
      && (Find(r.members, id).Some? <==> LastWith(p.members, id).Some?)
      && (Find(r.members, id).Some? ==>
            Plain(Find(r.members, id).value.facts) == Plain(LastWith(p.members, id).value.facts))
      && (Find(r.members, id) == None ==>
            && (Find(r.neighbours, id).Some? <==> LastWith(p.neighbours, id).Some?)
            && (Find(r.neighbours, id).Some? ==>
                  Plain(Find(r.neighbours, id).value.facts) == Plain(LastWith(p.neighbours, id).value.facts)))
  {
    var arranged := Arranged(p);
    var allowed := IDs(Entities(arranged));
    DedupedFinds(p.members, Anchors(p), id);
    DedupedFinds(p.neighbours, Anchors(p) + IDs(arranged.members), id);
    PrunedFinds(arranged.members, allowed, id);
    PrunedFinds(arranged.neighbours, allowed, id);
    FindMeansMember(arranged.members, id);
  }

  lemma {:induction false} PrunedFinds(entities: seq<Entity>, allowed: set<EntityID>, id: EntityID)
    ensures Find(PrunedAll(entities, allowed), id) ==
            match Find(entities, id) case None => None case Some(e) => Some(Pruned(e, allowed))
    ensures Find(entities, id).Some? ==>
              Plain(Pruned(Find(entities, id).value, allowed).facts) == Plain(Find(entities, id).value.facts)
  {
    if entities != [] {
      PrunedFinds(entities[1..], allowed, id);
      assert PrunedAll(entities, allowed)[1..] == PrunedAll(entities[1..], allowed);
      PlainKept(entities[0].facts, allowed);
    }
  }

  lemma {:induction false} FindMeansMember(entities: seq<Entity>, id: EntityID)
    ensures Find(entities, id).Some? <==> id in IDs(entities)
  {
    if entities != [] {
      FindMeansMember(entities[1..], id);
      assert IDs(entities) == {entities[0].id} + IDs(entities[1..]) by {
        assert forall i :: 1 <= i < |entities| ==> entities[i] == entities[1..][i - 1];
      }
    }
  }

  lemma AllKept(e: Entity, allowed: set<EntityID>)
    ensures Pruned(Pruned(e, allowed), allowed) == Pruned(e, allowed)
  {
    var facts := Kept(e.facts, allowed);
    forall i | 0 <= i < |facts| ensures Keeps(facts[i], allowed) {
      KeptMembers(e.facts, allowed, facts[i]);
    }
    KeptTwice(facts, allowed);
  }

  /** Finalizing twice is finalizing once, for all that pruning rewrites facts in place. */
  lemma FinalizeIsIdempotent(p: Snapshot)
    ensures Finalized(Finalized(p)) == Finalized(p)
  {
    var arranged, r := Arranged(p), Finalized(p);
    var allowed := IDs(Entities(arranged));
    IdentitiesAreDistinct(p);
    PruningIsPointwise(arranged, allowed);
    PrunedIDs(Entities(arranged), allowed);
    PrunedIDs(arranged.members, allowed);
    DedupedTwice(r.members, Anchors(r));
    DedupedTwice(r.neighbours, Anchors(r) + IDs(r.members));
    assert Arranged(r) == r;
    forall e: Entity { AllKept(e, allowed); }
    assert PrunedAll(r.members, allowed) == r.members;
    assert PrunedAll(r.neighbours, allowed) == r.neighbours;
  }
}
