/** An accepted batch that nobody disturbs goes all the way. */
module EffectProgress {
  import opened Wrappers
  import opened Vocabulary
  import opened Graph
  import opened EffectPlan
  import opened EffectRendering
  import opened EffectApplier
  import opened EffectRecovery

  /** Every fact an entity records under an effect family is its own; a foreign one would have to be
      republished under this entity's name, which the mutation client refuses. */
  ghost predicate OwnFacts(g: GraphState, e: EntityID) {
    forall t :: t in Lookup(g, e) && EffectTargetForPredicate(t.pred).Some? ==> t.subject == e
  }

  /** Whatever a fold keeps of the resident facts really was resident. */
  ghost predicate FromState(objects: seq<ObjectWrite>, s: EntityState) {
    forall i :: 0 <= i < |objects| && objects[i].resident.Some? ==> objects[i].resident.value in s
  }

  lemma {:induction false} DropFromState(objects: seq<ObjectWrite>, obj: Value, s: EntityState)
    requires FromState(objects, s)
    ensures FromState(Drop(objects, obj), s)
  {
    if objects != [] {
      assert forall i :: 0 <= i < |objects[1..]| ==> objects[1..][i] == objects[i + 1];
      DropFromState(objects[1..], obj, s);
    }
  }

  lemma {:induction false} DesiredFromState(seed: seq<ObjectWrite>, ops: seq<Mutation>, s: EntityState)
    requires FromState(seed, s)
    ensures FromState(Desired(seed, ops), s)
  {
    if ops != [] {
      var before, m := Desired(seed, ops[..|ops| - 1]), ops[|ops| - 1];
      DesiredFromState(seed, ops[..|ops| - 1], s);
      DropFromState(before, m.obj, s);
    }
  }

  lemma SeedFromState(s: EntityState, p: Predicate)
    ensures FromState(SeedFor(s, p), s)
  {
    var seed := SeedFor(s, p);
    forall i | 0 <= i < |seed| ensures seed[i].resident.Some? ==> seed[i].resident.value in s {
      WithinMembers(s, {p}, TriplesOf(s, p)[i]);
    }
  }

  lemma RenderedIsOwn(g: GraphState, muts: seq<Mutation>, e: EntityID, p: Predicate, stamp: Stamp)
    requires OwnFacts(g, e) && ClashFree(muts) && Touches(muts, e, p) && EffectTargetForPredicate(p).Some?
    ensures forall t :: t in Render(e, p, WriteFor(Lookup(g, e), muts, e, p).objects, stamp) ==> t.subject == e
  {
    var objects := WriteFor(Lookup(g, e), muts, e, p).objects;
    SeedFromState(Lookup(g, e), p);
    DesiredFromState(SeedFor(Lookup(g, e), p), OpsOn(muts, e, p), Lookup(g, e));
    DesiredIsUpdate(Lookup(g, e), muts, e, p);
    RenderTriples(e, p, objects, stamp);
    var r := Render(e, p, objects, stamp);
    forall t | t in r ensures t.subject == e {
      var i :| 0 <= i < |objects| && r[i] == t;
      assert objects[i] in objects;
    }
  }

  lemma {:induction false} RenderTouchedIsOwn(
    g: GraphState, muts: seq<Mutation>, e: EntityID, order: seq<Predicate>, target: Target, stamp: Stamp)
    requires OwnFacts(g, e) && ClashFree(muts)
    requires forall p :: p in order ==> Touches(muts, e, p) && p in TargetWriteOf(g, muts, e).writes
    ensures forall t :: t in RenderTouched(e, TargetWriteOf(g, muts, e), order, target, stamp) ==> t.subject == e
  {
    if order != [] {
      var last := order[|order| - 1];
      assert order == order[..|order| - 1] + [last];
      RenderTouchedIsOwn(g, muts, e, order[..|order| - 1], target, stamp);
      if EffectTargetForPredicate(last).Some? {
        RenderedIsOwn(g, muts, e, last, stamp);
      }
    }
  }

  /** A rendered family is one the mutation client admits. */
  lemma ProjectionAdmitted(g: GraphState, muts: seq<Mutation>, e: EntityID, target: Target, stamp: Stamp)
    requires OwnFacts(g, e) && ClashFree(muts) && target != TurnEffectMarker
    ensures Admits(e, Predicates(target), Projection(e, TargetWriteOf(g, muts, e), target, stamp).triples)
  {
    var tw := TargetWriteOf(g, muts, e);
    TargetWriteWellFormed(g, muts, e);
    ProjectionMembers(e, tw, target, stamp);
    PredicateMembers(muts, e);
    RenderTouchedIsOwn(g, muts, e, tw.order, target, stamp);
    var group := Predicates(target) - Touched(tw);
    forall t | t in Within(tw.resident, group) ensures t.subject == e {
      WithinMembers(tw.resident, group, t);
      FamilyOf(t.pred, target);
    }
  }

  lemma {:induction false} AdmittedWritesLand(g: GraphState, writes: seq<GroupWrite>)
    requires forall i :: 0 <= i < |writes| ==>
               writes[i].id in g && Admits(writes[i].id, Predicates(writes[i].target), writes[i].triples)
    ensures Perform(g, writes, []).1 == |writes|
    decreases |writes|
  {
    if writes != [] {
      var w := writes[0];
      var g' := ReconcileOutcome(g, Predicates(w.target), w.id, w.triples, Committed).0;
      ReconcileObjects(g, Predicates(w.target), w.id, w.triples, Committed);
      assert forall i :: 0 <= i < |writes[1..]| ==> writes[1..][i] == writes[i + 1];
      AdmittedWritesLand(g', writes[1..]);
    }
  }

  lemma TargetsExist(job: Job, g: GraphState, e: EntityID)
    requires Proceeds(job, g) && e in TargetOrder(Muts(job))
    ensures e in g
  {
    TargetMembers(Muts(job));
    var m :| m in Muts(job) && m.target == e;
    MutationMembership(job.batch.intents, m);
    var x :| x in job.batch.intents && MutationOf(x) == m;
    var i :| 0 <= i < |job.batch.intents| && job.batch.intents[i] == x;
    assert Judge(job.rules, g, job.batch.intents[i]) == None;
    AdmissibleExactly(job.rules, g, x);
  }

  /** When every touched entity's effect facts are its own, an undisturbed attempt confirms every write,
      its marker included: nothing about the batch itself can stop it half way. */
  lemma UndisturbedAttemptSucceeds(job: Job, g: GraphState, at: int)
    requires Proceeds(job, g)
    requires forall e :: e in TargetOrder(Muts(job)) ==> OwnFacts(g, e)
    ensures Perform(g, AttemptWrites(job, g, at), []).1 == |AttemptWrites(job, g, at)|
  {
    var writes := AttemptWrites(job, g, at);
    forall i | 0 <= i < |writes|
      ensures writes[i].id in g && Admits(writes[i].id, Predicates(writes[i].target), writes[i].triples)
    {
      if i < |writes| - 1 {
        FamilyWriteAdmitted(job, g, at, i);
      } else {
        assert writes[i] == MarkerWrite(job, at);
      }
    }
    AdmittedWritesLand(g, writes);
  }

  lemma FamilyWriteAdmitted(job: Job, g: GraphState, at: int, i: nat)
    requires Proceeds(job, g) && i < |AttemptWrites(job, g, at)| - 1
    requires forall e :: e in TargetOrder(Muts(job)) ==> OwnFacts(g, e)
    ensures var w := AttemptWrites(job, g, at)[i];
      w.id in g && Admits(w.id, Predicates(w.target), w.triples)
  {
    var muts, stamp := Muts(job), Stamp(at, job.batch.turnID);
    var writes := WritesFor(g, muts, TargetOrder(muts), stamp);
    var w := AttemptWrites(job, g, at)[i];
    assert w == writes[i] && w in writes;
    WritesMembership(g, muts, TargetOrder(muts), stamp);
    TargetsExist(job, g, w.id);
    FamiliesAreEffects(PredicateOrder(muts, w.id), w.target);
    ProjectionAdmitted(g, muts, w.id, w.target, stamp);
  }
}
