/** Any number of apply attempts of one batch, interleaved write by write, each cut
    off anywhere, with replies lost, and with unrelated writers in between. */
module EffectRecovery {
  import opened Wrappers
  import opened Vocabulary
  import opened Graph
  import opened EffectPlan
  import opened EffectRendering
  import opened EffectApplier

  type Worker = nat

  datatype Event =
    | Begin(worker: Worker, at: int, view: GraphState)
    | Write(worker: Worker, reply: Reply)
    | Crash(worker: Worker)
    | Environment(next: GraphState)

  /** The graph, what each running attempt has yet to write, who has reported `Applied`, and every graph there
      ever was. */
  datatype World = World(
    graph: GraphState, pending: map<Worker, seq<GroupWrite>>, applied: set<Worker>, past: set<GraphState>)

  function Start(g: GraphState): World {
    World(g, map[], {}, {g})
  }

  predicate ReadAt(g: GraphState, view: GraphState, e: EntityID) {
    Lookup(g, e) == Lookup(view, e) && (e in view ==> e in g)
  }

  ghost predicate ReadSometime(past: set<GraphState>, view: GraphState, e: EntityID) {
    exists g :: g in past && ReadAt(g, view, e)
  }

  /** An attempt reads one entity after another, each as it stood at some moment, not all at the same one. */
  ghost predicate ReadFrom(past: set<GraphState>, view: GraphState) {
    forall e :: ReadSometime(past, view, e)
  }

  function PendingOf(w: World, worker: Worker): seq<GroupWrite> {
    if worker in w.pending then w.pending[worker] else []
  }

  function Muts(job: Job): seq<Mutation> {
    MutationsOf(job.batch.intents)
  }

  /** The batch writes this family of this entity. */
  predicate Owned(job: Job, e: EntityID, target: Target) {
    e in TargetOrder(Muts(job)) && target in Families(PredicateOrder(Muts(job), e))
  }

  /** Another writer moved, but not on a family the batch writes and not on the turn's marker. */
  ghost predicate LeavesAlone(job: Job, g: GraphState, next: GraphState) {
    && (forall e, target, p :: Owned(job, e, target) && p in Predicates(target) ==>
          Objects(Lookup(next, e), p) == Objects(Lookup(g, e), p))
    && (forall p :: p in Predicates(TurnEffectMarker) ==>
          TriplesOf(Lookup(next, job.turn), p) == TriplesOf(Lookup(g, job.turn), p))
  }

  /** The next pending write of an attempt; the marker confirmed is what `Applied` reports. */
  function NextWrite(w: World, worker: Worker, reply: Reply): World {
    var pending := PendingOf(w, worker);
    if pending == [] then w
    else
      var (g', ok) := ReconcileOutcome(w.graph, Predicates(pending[0].target), pending[0].id, pending[0].triples, reply);
      World(g',
            w.pending[worker := if ok then pending[1..] else []],
            if ok && |pending| == 1 then w.applied + {worker} else w.applied,
            w.past + {g'})
  }

  ghost predicate Begins(job: Job, w: World, worker: Worker, view: GraphState) {
    PendingOf(w, worker) == [] && ReadFrom(w.past, view) && Proceeds(job, view)
  }

  ghost function BeginStep(job: Job, w: World, worker: Worker, at: int, view: GraphState): World {
    if Begins(job, w, worker, view)
    then w.(pending := w.pending[worker := AttemptWrites(job, view, at)])
    else w
  }

  ghost function EnvironmentStep(job: Job, w: World, next: GraphState): World {
    if LeavesAlone(job, w.graph, next) then w.(graph := next, past := w.past + {next}) else w
  }

  ghost function Step(job: Job, w: World, event: Event): World {
    match event
    case Begin(worker, at, view) => BeginStep(job, w, worker, at, view)
    case Write(worker, reply) => NextWrite(w, worker, reply)
    case Crash(worker) => w.(pending := w.pending[worker := []])
    case Environment(next) => EnvironmentStep(job, w, next)
  }

  ghost function Run(job: Job, w: World, events: seq<Event>): World {
    if events == [] then w
    else Step(job, Run(job, w, events[..|events| - 1]), events[|events| - 1])
  }

  // ---- The invariant -------------------------------------------------------

  function Goal(job: Job, g0: GraphState, e: EntityID, p: Predicate): set<Value> {
    Updated(Objects(Lookup(g0, e), p), Muts(job), e, p)
  }

  ghost predicate Settled(job: Job, g0: GraphState, g: GraphState, e: EntityID, target: Target) {
    forall p :: p in Predicates(target) ==> Objects(Lookup(g, e), p) == Goal(job, g0, e, p)
  }

  /** Each predicate of the family holds either what it held at the start, or its goal. */
  ghost predicate Underway(job: Job, g0: GraphState, g: GraphState, e: EntityID, target: Target) {
    forall p :: p in Predicates(target) ==>
      Objects(Lookup(g, e), p) == Goal(job, g0, e, p) || Objects(Lookup(g, e), p) == Objects(Lookup(g0, e), p)
  }

  ghost predicate AllSettled(job: Job, g0: GraphState, g: GraphState) {
    forall e, target :: Owned(job, e, target) ==> Settled(job, g0, g, e, target)
  }

  predicate NoMarker(job: Job, g: GraphState) {
    && TriplesOf(Lookup(g, job.turn), TurnEffectsBatch) == []
    && TriplesOf(Lookup(g, job.turn), TurnEffectsRef) == []
  }

  predicate Marked(job: Job, g: GraphState) {
    var identities := TriplesOf(Lookup(g, job.turn), TurnEffectsBatch);
    var references := TriplesOf(Lookup(g, job.turn), TurnEffectsRef);
    && |identities| == 1 && identities[0].obj == Text(job.batch.batchID)
    && |references| == 1 && references[0].obj == Text(job.ref)
  }

  ghost predicate WriteSound(job: Job, g0: GraphState, write: GroupWrite) {
    && Owned(job, write.id, write.target)
    && forall p :: p in Predicates(write.target) ==> Objects(write.triples, p) == Goal(job, g0, write.id, p)
  }

  predicate Covers(writes: seq<GroupWrite>, e: EntityID, target: Target) {
    exists i :: 0 <= i < |writes| && writes[i].id == e && writes[i].target == target
  }

  ghost predicate PendingSound(job: Job, g0: GraphState, g: GraphState, pending: seq<GroupWrite>) {
    pending != [] ==>
      var writes := pending[..|pending| - 1];
      && (exists at :: pending[|pending| - 1] == MarkerWrite(job, at))
      && (forall i :: 0 <= i < |writes| ==> WriteSound(job, g0, writes[i]))
      && (forall e, target :: Owned(job, e, target) ==>
            Covers(writes, e, target) || Settled(job, g0, g, e, target))
  }

  ghost predicate AllUnderway(job: Job, g0: GraphState, g: GraphState) {
    forall e, target :: Owned(job, e, target) ==> Underway(job, g0, g, e, target)
  }

  ghost predicate GraphInv(job: Job, g0: GraphState, g: GraphState) {
    && AllUnderway(job, g0, g)
    && (NoMarker(job, g) || (Marked(job, g) && AllSettled(job, g0, g)))
  }

  ghost predicate Inv(job: Job, g0: GraphState, w: World) {
    && GraphInv(job, g0, w.graph)
    && (forall g :: g in w.past ==> AllUnderway(job, g0, g))
    && (forall worker :: PendingSound(job, g0, w.graph, PendingOf(w, worker)))
    && (w.applied != {} ==> Marked(job, w.graph))
  }

  // ---- One attempt's writes aim at the goal --------------------------------

  lemma {:induction false} WritesMembership(g: GraphState, muts: seq<Mutation>, order: seq<EntityID>, stamp: Stamp)
    ensures forall w: GroupWrite :: w in WritesFor(g, muts, order, stamp) ==>
              && w.id in order && w.target in Families(PredicateOrder(muts, w.id))
              && w.triples == Projection(w.id, TargetWriteOf(g, muts, w.id), w.target, stamp).triples
  {
    if order != [] {
      WritesMembership(g, muts, order[1..], stamp);
      forall w: GroupWrite | w in EntityWrites(g, muts, order[0], stamp)
        ensures w.id == order[0] && w.target in Families(PredicateOrder(muts, w.id))
        ensures w.triples == Projection(w.id, TargetWriteOf(g, muts, w.id), w.target, stamp).triples
      {}
    }
  }

  lemma {:induction false} WritesCoverage(
    g: GraphState, muts: seq<Mutation>, order: seq<EntityID>, stamp: Stamp, e: EntityID, target: Target)
    requires e in order && target in Families(PredicateOrder(muts, e))
    ensures Covers(WritesFor(g, muts, order, stamp), e, target)
  {
    var head := EntityWrites(g, muts, order[0], stamp);
    var tail := WritesFor(g, muts, order[1..], stamp);
    if e == order[0] {
      var families := Families(PredicateOrder(muts, e));
      var i :| 0 <= i < |families| && families[i] == target;
      assert head[i].id == e && head[i].target == target;
    } else {
      WritesCoverage(g, muts, order[1..], stamp, e, target);
    }
    CoversConcat(head, tail, e, target);
  }

  lemma CoversConcat(head: seq<GroupWrite>, tail: seq<GroupWrite>, e: EntityID, target: Target)
    ensures Covers(head, e, target) || Covers(tail, e, target) ==> Covers(head + tail, e, target)
  {
    if Covers(head, e, target) {
      var i :| 0 <= i < |head| && head[i].id == e && head[i].target == target;
      assert (head + tail)[i] == head[i];
    } else if Covers(tail, e, target) {
      var i :| 0 <= i < |tail| && tail[i].id == e && tail[i].target == target;
      assert (head + tail)[|head| + i] == tail[i];
    }
  }

  lemma UpdatedTwice(resident: set<Value>, muts: seq<Mutation>, e: EntityID, p: Predicate)
    ensures Updated(Updated(resident, muts, e, p), muts, e, p) == Updated(resident, muts, e, p)
  {}

  lemma TargetWriteWellFormed(g: GraphState, muts: seq<Mutation>, e: EntityID)
    requires ClashFree(muts)
    ensures WellFormed(TargetWriteOf(g, muts, e))
  {
    PredicateMembers(muts, e);
    forall p | p in PredicateOrder(muts, e) ensures Faithful(WriteFor(Lookup(g, e), muts, e, p).objects, p) {
      assert Touches(muts, e, p);
      DesiredIsUpdate(Lookup(g, e), muts, e, p);
    }
  }

  /** A family rendered from any graph the run can reach carries exactly the goal objects. */
  lemma ProjectionAims(job: Job, g0: GraphState, g: GraphState, e: EntityID, target: Target, stamp: Stamp, p: Predicate)
    requires ClashFree(Muts(job)) && Owned(job, e, target) && Underway(job, g0, g, e, target)
    requires p in Predicates(target)
    ensures Objects(Projection(e, TargetWriteOf(g, Muts(job), e), target, stamp).triples, p) == Goal(job, g0, e, p)
  {
    var muts, tw := Muts(job), TargetWriteOf(g, Muts(job), e);
    TargetWriteWellFormed(g, muts, e);
    PredicateMembers(muts, e);
    FamiliesAreEffects(PredicateOrder(muts, e), target);
    ProjectionTriples(e, tw, target, stamp, p);
    UpdatedTwice(Objects(Lookup(g0, e), p), muts, e, p);
    if Touches(muts, e, p) {
      DesiredIsUpdate(Lookup(g, e), muts, e, p);
      RenderTriples(e, p, WriteFor(Lookup(g, e), muts, e, p).objects, stamp);
    }
  }

  lemma FamiliesAreEffects(order: seq<Predicate>, target: Target)
    requires target in Families(order)
    ensures target != TurnEffectMarker
  {
    FamilyMembers(order);
    var p :| p in order && EffectTargetForPredicate(p) == Some(target);
    EffectFamiliesPartition(p, target);
  }

  lemma ReadsItself(past: set<GraphState>, g: GraphState)
    requires g in past
    ensures ReadFrom(past, g)
  {
    forall e ensures ReadSometime(past, g, e) {
      assert ReadAt(g, g, e);
    }
  }

  /** What an attempt read, entity by entity, is underway as every graph it read from was. */
  lemma ViewUnderway(job: Job, g0: GraphState, past: set<GraphState>, view: GraphState)
    requires ReadFrom(past, view) && forall g :: g in past ==> AllUnderway(job, g0, g)
    ensures AllUnderway(job, g0, view)
  {
    forall e, target | Owned(job, e, target) ensures Underway(job, g0, view, e, target) {
      assert ReadSometime(past, view, e);
      var g :| g in past && ReadAt(g, view, e);
      assert AllUnderway(job, g0, g) && Underway(job, g0, g, e, target);
    }
  }

  lemma AttemptSound(job: Job, g0: GraphState, view: GraphState, g: GraphState, at: int)
    requires AllUnderway(job, g0, view) && Proceeds(job, view)
    ensures PendingSound(job, g0, g, AttemptWrites(job, view, at))
  {
    var muts, stamp := Muts(job), Stamp(at, job.batch.turnID);
    var writes := WritesFor(view, muts, TargetOrder(muts), stamp);
    assert AttemptWrites(job, view, at)[..|writes|] == writes;
    WritesMembership(view, muts, TargetOrder(muts), stamp);
    forall e, target | Owned(job, e, target) ensures Covers(writes, e, target) {
      WritesCoverage(view, muts, TargetOrder(muts), stamp, e, target);
    }
    forall i | 0 <= i < |writes| ensures WriteSound(job, g0, writes[i]) {
      var w := writes[i];
      assert w in writes;
      forall p | p in Predicates(w.target) ensures Objects(w.triples, p) == Goal(job, g0, w.id, p) {
        ProjectionAims(job, g0, view, w.id, w.target, stamp, p);
      }
    }
  }

  // ---- One write keeps the invariant ---------------------------------------

  /** Landing or not, a sound write moves no family away from its goal and never touches the marker. */
  lemma SoundWriteKeeps(job: Job, g0: GraphState, g: GraphState, write: GroupWrite, reply: Reply)
    requires GraphInv(job, g0, g) && WriteSound(job, g0, write)
    ensures var (g', ok) := ReconcileOutcome(g, Predicates(write.target), write.id, write.triples, reply);
      && GraphInv(job, g0, g')
      && (Marked(job, g) ==> Marked(job, g'))
      && (forall e, target :: Owned(job, e, target) && Settled(job, g0, g, e, target) ==>
            Settled(job, g0, g', e, target))
      && (ok ==> Settled(job, g0, g', write.id, write.target))
  {
    var (g', ok) := ReconcileOutcome(g, Predicates(write.target), write.id, write.triples, reply);
    forall e, p
      ensures Objects(Lookup(g', e), p) == Objects(Lookup(g, e), p) || Objects(Lookup(g', e), p) == Goal(job, g0, e, p)
    {
      WriteMoves(g, write, reply, e, p);
    }
    SoundWriteSparesMarker(job, g0, g, write, reply);
    if ok {
      ReconcileObjects(g, Predicates(write.target), write.id, write.triples, reply);
      assert Settled(job, g0, g', write.id, write.target);
    }
  }

  lemma SoundWriteSparesMarker(job: Job, g0: GraphState, g: GraphState, write: GroupWrite, reply: Reply)
    requires WriteSound(job, g0, write)
    ensures var g' := ReconcileOutcome(g, Predicates(write.target), write.id, write.triples, reply).0;
      && (Marked(job, g') <==> Marked(job, g))
      && (NoMarker(job, g') <==> NoMarker(job, g))
  {
    FamiliesAreEffects(PredicateOrder(Muts(job), write.id), write.target);
    FamilySparesMarker(g, write, reply, job.turn, TurnEffectsBatch);
    FamilySparesMarker(g, write, reply, job.turn, TurnEffectsRef);
  }

  lemma FamilySparesMarker(g: GraphState, write: GroupWrite, reply: Reply, turn: EntityID, p: Predicate)
    requires write.target != TurnEffectMarker && p in Predicates(TurnEffectMarker)
    ensures var g' := ReconcileOutcome(g, Predicates(write.target), write.id, write.triples, reply).0;
      TriplesOf(Lookup(g', turn), p) == TriplesOf(Lookup(g, turn), p)
  {
    ReconcileObjects(g, Predicates(write.target), write.id, write.triples, reply);
    if p in Predicates(write.target) {
      OneGroup(p, write.target, TurnEffectMarker);
    }
  }

  /** One reconcile moves at most the predicates of its group on its entity, and then to the desired objects. */
  lemma WriteMoves(g: GraphState, write: GroupWrite, reply: Reply, e: EntityID, p: Predicate)
    ensures var g' := ReconcileOutcome(g, Predicates(write.target), write.id, write.triples, reply).0;
      || Objects(Lookup(g', e), p) == Objects(Lookup(g, e), p)
      || (e == write.id && p in Predicates(write.target) && Objects(Lookup(g', e), p) == Objects(write.triples, p))
  {
    var g' := ReconcileOutcome(g, Predicates(write.target), write.id, write.triples, reply).0;
    ReconcileObjects(g, Predicates(write.target), write.id, write.triples, reply);
    if e == write.id && e in g && g'[e] != g[e] {
      ReplaceTriples(g[e], Predicates(write.target), write.triples, p);
    }
  }

  lemma MarkerWriteKeeps(job: Job, g0: GraphState, g: GraphState, at: int, reply: Reply)
    requires GraphInv(job, g0, g) && AllSettled(job, g0, g)
    ensures var (g', ok) := ReconcileOutcome(g, Predicates(TurnEffectMarker), job.turn, MarkerTriples(job, at), reply);
      && GraphInv(job, g0, g')
      && AllSettled(job, g0, g')
      && (ok || Marked(job, g) ==> Marked(job, g'))
  {
    forall e, target | Owned(job, e, target)
      ensures Settled(job, g0, ReconcileOutcome(g, Predicates(TurnEffectMarker), job.turn, MarkerTriples(job, at), reply).0, e, target)
    {
      MarkerLeavesSettled(job, g0, g, at, reply, e, target);
    }
    MarkerLands(job, g, at, reply);
  }

  lemma MarkerLeavesSettled(
    job: Job, g0: GraphState, g: GraphState, at: int, reply: Reply, e: EntityID, target: Target)
    requires Owned(job, e, target) && Settled(job, g0, g, e, target)
    ensures Settled(job, g0, ReconcileOutcome(g, Predicates(TurnEffectMarker), job.turn, MarkerTriples(job, at), reply).0, e, target)
  {
    var g' := ReconcileOutcome(g, Predicates(TurnEffectMarker), job.turn, MarkerTriples(job, at), reply).0;
    FamiliesAreEffects(PredicateOrder(Muts(job), e), target);
    forall p | p in Predicates(target) ensures Objects(Lookup(g', e), p) == Goal(job, g0, e, p) {
      if p in Predicates(TurnEffectMarker) {
        OneGroup(p, target, TurnEffectMarker);
      }
      WriteMoves(g, MarkerWrite(job, at), reply, e, p);
    }
  }

  lemma MarkerLands(job: Job, g: GraphState, at: int, reply: Reply)
    ensures var (g', ok) := ReconcileOutcome(g, Predicates(TurnEffectMarker), job.turn, MarkerTriples(job, at), reply);
      && (g' == g || Marked(job, g'))
      && (ok ==> Marked(job, g'))
  {
    var desired := MarkerTriples(job, at);
    var (g', ok) := ReconcileOutcome(g, Predicates(TurnEffectMarker), job.turn, desired, reply);
    if job.turn in g {
      MarkerReplaced(job, g[job.turn], at);
      if ok && reply.CommitUnknown? {
        MatchingMarker(job, g'[job.turn], at);
      }
    }
  }

  lemma MarkerReplaced(job: Job, s: EntityState, at: int)
    ensures TriplesOf(Replace(s, Predicates(TurnEffectMarker), MarkerTriples(job, at)), TurnEffectsBatch) == [MarkerTriples(job, at)[0]]
    ensures TriplesOf(Replace(s, Predicates(TurnEffectMarker), MarkerTriples(job, at)), TurnEffectsRef) == [MarkerTriples(job, at)[1]]
  {
    var desired := MarkerTriples(job, at);
    ReplaceTriples(s, Predicates(TurnEffectMarker), desired, TurnEffectsBatch);
    ReplaceTriples(s, Predicates(TurnEffectMarker), desired, TurnEffectsRef);
    MarkerHalves(desired[0], desired[1]);
  }

  lemma MarkerHalves(identity: Triple, reference: Triple)
    requires identity.pred == TurnEffectsBatch && reference.pred == TurnEffectsRef
    ensures forall s :: (s == [identity, reference] || s == [reference, identity]) ==>
              TriplesOf(s, TurnEffectsBatch) == [identity] && TriplesOf(s, TurnEffectsRef) == [reference]
  {
    TwoTriples(identity, reference, TurnEffectsBatch);
    TwoTriples(identity, reference, TurnEffectsRef);
    TwoTriples(reference, identity, TurnEffectsBatch);
    TwoTriples(reference, identity, TurnEffectsRef);
  }

  lemma TwoTriples(a: Triple, b: Triple, p: Predicate)
    ensures TriplesOf([a, b], p) == (if a.pred == p then [a] else []) + (if b.pred == p then [b] else [])
  {
    assert [a, b] == [a] + [b];
    WithinConcat([a], [b], {p});
    OneTriple(a, p);
    OneTriple(b, p);
  }

  /** A confirming read that finds exactly the marker facts found a marked turn. */
  lemma MatchingMarker(job: Job, s: EntityState, at: int)
    requires GroupMatches(s, Predicates(TurnEffectMarker), MarkerTriples(job, at))
    ensures TriplesOf(s, TurnEffectsBatch) == [MarkerTriples(job, at)[0]]
    ensures TriplesOf(s, TurnEffectsRef) == [MarkerTriples(job, at)[1]]
  {
    var desired := MarkerTriples(job, at);
    var resident := Within(s, Predicates(TurnEffectMarker));
    assert |multiset(resident)| == |multiset(desired)| == 2;
    assert multiset(desired) == multiset{desired[0], desired[1]};
    assert resident == [resident[0], resident[1]];
    assert resident[0] in multiset(resident) && resident[1] in multiset(resident);
    assert multiset(resident) == multiset{resident[0], resident[1]};
    assert resident == [desired[0], desired[1]] || resident == [desired[1], desired[0]];
    MarkerHalves(desired[0], desired[1]);
    TriplesWithin(s, Predicates(TurnEffectMarker), TurnEffectsBatch);
    TriplesWithin(s, Predicates(TurnEffectMarker), TurnEffectsRef);
  }

  // ---- Every step keeps it -------------------------------------------------

  lemma SettledGrows(job: Job, g0: GraphState, g: GraphState, g': GraphState, pending: seq<GroupWrite>)
    requires PendingSound(job, g0, g, pending)
    requires forall e, target :: Owned(job, e, target) && Settled(job, g0, g, e, target) ==>
               Settled(job, g0, g', e, target)
    ensures PendingSound(job, g0, g', pending)
  {}

  lemma ConfirmedWriteShortens(job: Job, g0: GraphState, g: GraphState, g': GraphState, pending: seq<GroupWrite>)
    requires |pending| > 1 && PendingSound(job, g0, g, pending)
    requires forall e, target :: Owned(job, e, target) && Settled(job, g0, g, e, target) ==>
               Settled(job, g0, g', e, target)
    requires Settled(job, g0, g', pending[0].id, pending[0].target)
    ensures PendingSound(job, g0, g', pending[1..])
  {
    var writes, rest := pending[..|pending| - 1], pending[1..];
    assert rest[..|rest| - 1] == writes[1..];
    forall e, target | Owned(job, e, target)
      ensures Covers(writes[1..], e, target) || Settled(job, g0, g', e, target)
    {
      if Covers(writes, e, target) {
        var i :| 0 <= i < |writes| && writes[i].id == e && writes[i].target == target;
        assert i > 0 ==> writes[1..][i - 1] == writes[i];
      }
    }
  }

  lemma WriteKeeps(job: Job, g0: GraphState, w: World, worker: Worker, reply: Reply)
    requires Inv(job, g0, w) && PendingOf(w, worker) != []
    ensures Inv(job, g0, Step(job, w, Write(worker, reply)))
  {
    var pending := PendingOf(w, worker);
    var w' := Step(job, w, Write(worker, reply));
    var write := pending[0];
    var (g', ok) := ReconcileOutcome(w.graph, Predicates(write.target), write.id, write.triples, reply);
    if |pending| == 1 {
      var at :| pending[0] == MarkerWrite(job, at);
      forall e, target | Owned(job, e, target) ensures Settled(job, g0, w.graph, e, target) {
        assert !Covers(pending[..0], e, target);
      }
      MarkerWriteKeeps(job, g0, w.graph, at, reply);
    } else {
      assert pending[..|pending| - 1][0] == write;
      SoundWriteKeeps(job, g0, w.graph, write, reply);
      if ok {
        ConfirmedWriteShortens(job, g0, w.graph, g', pending);
      }
    }
    forall other ensures PendingSound(job, g0, g', PendingOf(w', other)) {
      if other != worker {
        SettledGrows(job, g0, w.graph, g', PendingOf(w, other));
      }
    }
  }

  lemma EnvironmentKeeps(job: Job, g0: GraphState, w: World, next: GraphState)
    requires Inv(job, g0, w) && LeavesAlone(job, w.graph, next)
    ensures Inv(job, g0, w.(graph := next, past := w.past + {next}))
  {
    var w' := w.(graph := next, past := w.past + {next});
    assert TurnEffectsBatch in Predicates(TurnEffectMarker) && TurnEffectsRef in Predicates(TurnEffectMarker);
    forall e, target | Owned(job, e, target)
      ensures Underway(job, g0, next, e, target)
      ensures Settled(job, g0, w.graph, e, target) ==> Settled(job, g0, next, e, target)
    {}
    assert GraphInv(job, g0, next);
    forall worker ensures PendingSound(job, g0, next, PendingOf(w', worker)) {
      SettledGrows(job, g0, w.graph, next, PendingOf(w, worker));
    }
  }

  lemma OthersKeep(job: Job, g0: GraphState, w: World, w': World, worker: Worker)
    requires Inv(job, g0, w) && w'.graph == w.graph && w'.applied == w.applied && w'.past == w.past
    requires PendingSound(job, g0, w.graph, PendingOf(w', worker))
    requires forall other :: other != worker ==> PendingOf(w', other) == PendingOf(w, other)
    ensures Inv(job, g0, w')
  {
    forall other ensures PendingSound(job, g0, w'.graph, PendingOf(w', other)) {
      assert other != worker ==> PendingSound(job, g0, w.graph, PendingOf(w, other));
    }
  }

  lemma BegunSound(job: Job, g0: GraphState, w: World, at: int, view: GraphState)
    requires Inv(job, g0, w) && ReadFrom(w.past, view) && Proceeds(job, view)
    ensures PendingSound(job, g0, w.graph, AttemptWrites(job, view, at))
  {
    ViewUnderway(job, g0, w.past, view);
    AttemptSound(job, g0, view, w.graph, at);
  }

  lemma BeginKeeps(job: Job, g0: GraphState, w: World, worker: Worker, at: int, view: GraphState)
    requires Inv(job, g0, w)
    ensures Inv(job, g0, BeginStep(job, w, worker, at, view))
  {
    if Begins(job, w, worker, view) {
      BegunSound(job, g0, w, at, view);
      OthersKeep(job, g0, w, w.(pending := w.pending[worker := AttemptWrites(job, view, at)]), worker);
    }
  }

  lemma StepKeeps(job: Job, g0: GraphState, w: World, event: Event)
    requires Inv(job, g0, w)
    ensures Inv(job, g0, Step(job, w, event))
  {
    match event
    case Begin(worker, at, view) =>
      BeginKeeps(job, g0, w, worker, at, view);
    case Write(worker, reply) =>
      if PendingOf(w, worker) != [] {
        WriteKeeps(job, g0, w, worker, reply);
      }
    case Crash(worker) =>
      OthersKeep(job, g0, w, Step(job, w, event), worker);
    case Environment(next) =>
      if LeavesAlone(job, w.graph, next) {
        EnvironmentKeeps(job, g0, w, next);
      }
  }

  lemma {:induction false} RunKeeps(job: Job, g: GraphState, events: seq<Event>)
    requires NoMarker(job, g)
    ensures Inv(job, g, Run(job, Start(g), events))
  {
    if events != [] {
      RunKeeps(job, g, events[..|events| - 1]);
      StepKeeps(job, g, Run(job, Start(g), events[..|events| - 1]), events[|events| - 1]);
    }
  }

  // ---- Main results --------------------------------------------------------

  lemma TouchedIsOwned(job: Job, e: EntityID, p: Predicate)
    requires Touches(Muts(job), e, p)
    ensures EffectTargetForPredicate(p).Some?
    ensures Owned(job, e, EffectTargetForPredicate(p).value)
    ensures p in Predicates(EffectTargetForPredicate(p).value)
  {
    var m :| m in Muts(job) && m.target == e && m.pred == p;
    MutationMembership(job.batch.intents, m);
    EffectFamiliesPartition(p, EffectTargetForPredicate(p).value);
    TargetMembers(Muts(job));
    PredicateMembers(Muts(job), e);
    FamilyMembers(PredicateOrder(Muts(job), e));
  }

  /** Whatever the interleaving: the turn holds the marker, and anyone reports `Applied`, only once
      every fact the batch names holds its simple update; an attempt that reads the turn from then on writes
      nothing. */
  lemma Recovery(job: Job, g0: GraphState, events: seq<Event>)
    requires NoMarker(job, g0)
    ensures var w := Run(job, Start(g0), events);
      && (w.applied != {} ==> Marked(job, w.graph))
      && (MarkerOf(w.graph, job) == Recorded || w.applied != {} ==>
           forall e, p :: Touches(Muts(job), e, p) ==>
             Objects(Lookup(w.graph, e), p) == Updated(Objects(Lookup(g0, e), p), Muts(job), e, p))
      && (Marked(job, w.graph) ==>
           forall worker, at, view :: Lookup(view, job.turn) == Lookup(w.graph, job.turn) ==>
             Step(job, w, Begin(worker, at, view)) == w)
  {
    var w := Run(job, Start(g0), events);
    RunKeeps(job, g0, events);
    if Marked(job, w.graph) {
      forall e, p | Touches(Muts(job), e, p)
        ensures Objects(Lookup(w.graph, e), p) == Updated(Objects(Lookup(g0, e), p), Muts(job), e, p)
      {
        TouchedIsOwned(job, e, p);
        assert Settled(job, g0, w.graph, e, EffectTargetForPredicate(p).value);
      }
    }
  }

  /** A mark is never lost, and with it neither is what the batch asked for. */
  lemma {:induction false} MarkPersists(job: Job, g0: GraphState, events: seq<Event>, k: nat)
    requires NoMarker(job, g0) && k <= |events| && Marked(job, Run(job, Start(g0), events[..k]).graph)
    ensures var w := Run(job, Start(g0), events);
      && Marked(job, w.graph)
      && (forall e, p :: Touches(Muts(job), e, p) ==>
           Objects(Lookup(w.graph, e), p) == Updated(Objects(Lookup(g0, e), p), Muts(job), e, p))
    decreases |events|
  {
    if k < |events| {
      var earlier := events[..|events| - 1];
      assert earlier[..k] == events[..k];
      MarkPersists(job, g0, earlier, k);
      RunKeeps(job, g0, earlier);
      StepKeepsMark(job, g0, Run(job, Start(g0), earlier), events[|events| - 1]);
    } else {
      assert events[..k] == events;
    }
    RunKeeps(job, g0, events);
    Recovery(job, g0, events);
  }

  lemma StepKeepsMark(job: Job, g0: GraphState, w: World, event: Event)
    requires Inv(job, g0, w) && Marked(job, w.graph)
    ensures Marked(job, Step(job, w, event).graph)
  {
    assert TurnEffectsBatch in Predicates(TurnEffectMarker) && TurnEffectsRef in Predicates(TurnEffectMarker);
    if event.Write? && PendingOf(w, event.worker) != [] {
      var pending := PendingOf(w, event.worker);
      assert PendingSound(job, g0, w.graph, pending);
      if |pending| == 1 {
        var at :| pending[0] == MarkerWrite(job, at);
        MarkerLands(job, w.graph, at, event.reply);
      } else {
        assert pending[..|pending| - 1][0] == pending[0];
        SoundWriteSparesMarker(job, g0, w.graph, pending[0], event.reply);
      }
    }
  }

  function Writes(worker: Worker, replies: seq<Reply>, n: nat): seq<Event> {
    if n == 0 then []
    else [Write(worker, NextReply(replies))] + Writes(worker, Graph.Later(replies), n - 1)
  }

  lemma {:induction false} RunFront(job: Job, w: World, event: Event, events: seq<Event>)
    ensures Run(job, w, [event] + events) == Run(job, Step(job, w, event), events)
  {
    var all := [event] + events;
    if events == [] {
      assert all[..0] == [];
    } else {
      assert all[..|all| - 1] == [event] + events[..|events| - 1];
      RunFront(job, w, event, events[..|events| - 1]);
    }
  }

  /** The machine's write steps of one attempt, taken one after another without interruption. */
  function WriteOut(w: World, worker: Worker, replies: seq<Reply>, n: nat): World
    decreases n
  {
    if n == 0 then w else WriteOut(NextWrite(w, worker, NextReply(replies)), worker, Graph.Later(replies), n - 1)
  }

  lemma RunFrontWrite(job: Job, w: World, worker: Worker, reply: Reply, events: seq<Event>)
    ensures Run(job, w, [Write(worker, reply)] + events) == Run(job, NextWrite(w, worker, reply), events)
  {
    RunFront(job, w, Write(worker, reply), events);
  }

  lemma {:induction false} WriteOutIsRun(job: Job, w: World, worker: Worker, replies: seq<Reply>, n: nat)
    ensures Run(job, w, Writes(worker, replies, n)) == WriteOut(w, worker, replies, n)
    decreases n
  {
    if n > 0 {
      var w', rest := NextWrite(w, worker, NextReply(replies)), Writes(worker, Graph.Later(replies), n - 1);
      calc {
        Run(job, w, [Write(worker, NextReply(replies))] + rest);
      == { RunFrontWrite(job, w, worker, NextReply(replies), rest); }
        Run(job, w', rest);
      == { WriteOutIsRun(job, w', worker, Graph.Later(replies), n - 1); }
        WriteOut(w', worker, Graph.Later(replies), n - 1);
      }
    }
  }

  lemma {:induction false} IdleWriteOut(w: World, worker: Worker, replies: seq<Reply>, n: nat)
    requires PendingOf(w, worker) == []
    ensures WriteOut(w, worker, replies, n) == w
    decreases n
  {
    if n > 0 {
      IdleWriteOut(w, worker, Graph.Later(replies), n - 1);
    }
  }

  lemma {:induction false} WriteOutIsPerform(w: World, worker: Worker, replies: seq<Reply>, n: nat)
    requires n == |PendingOf(w, worker)|
    ensures var w' := WriteOut(w, worker, replies, n);
      var (g', done) := Perform(w.graph, PendingOf(w, worker), replies);
      w'.graph == g' && PendingOf(w', worker) == [] && (n > 0 && done == n ==> worker in w'.applied)
    decreases n
  {
    if n > 0 {
      var pending := PendingOf(w, worker);
      var (g', ok) := ReconcileOutcome(w.graph, Predicates(pending[0].target), pending[0].id, pending[0].triples, NextReply(replies));
      var w1 := NextWrite(w, worker, NextReply(replies));
      assert PendingOf(w1, worker) == (if ok then pending[1..] else []) && w1.graph == g';
      if ok {
        WriteOutIsPerform(w1, worker, Graph.Later(replies), n - 1);
      } else {
        IdleWriteOut(w1, worker, Graph.Later(replies), n - 1);
      }
    }
  }

  /** What `Applier.Apply` does is one run of this machine. */
  lemma PerformIsRun(job: Job, w: World, worker: Worker, replies: seq<Reply>)
    ensures var pending := PendingOf(w, worker);
      var w' := Run(job, w, Writes(worker, replies, |pending|));
      var (g', done) := Perform(w.graph, pending, replies);
      && w'.graph == g' && PendingOf(w', worker) == []
      && (pending != [] && done == |pending| ==> worker in w'.applied)
  {
    WriteOutIsRun(job, w, worker, replies, |PendingOf(w, worker)|);
    WriteOutIsPerform(w, worker, replies, |PendingOf(w, worker)|);
  }

  /** The first attempt that reports `Applied` leaves every target predicate with the objects one
      uninterrupted attempt would have left. */
  lemma ConvergesToUninterrupted(job: Job, g0: GraphState, at: int, events: seq<Event>, e: EntityID, p: Predicate)
    requires NoMarker(job, g0) && Proceeds(job, g0) && Touches(Muts(job), e, p)
    requires Perform(g0, AttemptWrites(job, g0, at), []).1 == |AttemptWrites(job, g0, at)|
    requires Run(job, Start(g0), events).applied != {}
    ensures Objects(Lookup(Run(job, Start(g0), events).graph, e), p) ==
            Objects(Lookup(Perform(g0, AttemptWrites(job, g0, at), []).0, e), p)
  {
    var clean := UninterruptedRun(job, g0, at);
    Recovery(job, g0, clean);
    Recovery(job, g0, events);
  }

  lemma UninterruptedRun(job: Job, g0: GraphState, at: int) returns (events: seq<Event>)
    requires Proceeds(job, g0)
    requires Perform(g0, AttemptWrites(job, g0, at), []).1 == |AttemptWrites(job, g0, at)|
    ensures var w := Run(job, Start(g0), events);
      w.graph == Perform(g0, AttemptWrites(job, g0, at), []).0 && w.applied != {}
  {
    var begun := World(g0, map[0 := AttemptWrites(job, g0, at)], {}, {g0});
    var writes := Writes(0, [], |AttemptWrites(job, g0, at)|);
    ReadsItself({g0}, g0);
    assert Step(job, Start(g0), Begin(0, at, g0)) == begun;
    PerformIsRun(job, begun, 0, []);
    RunFront(job, Start(g0), Begin(0, at, g0), writes);
    events := [Begin(0, at, g0)] + writes;
  }

  lemma {:induction false} PerformFrame(
    g: GraphState, writes: seq<GroupWrite>, replies: seq<Reply>, e: EntityID, p: Predicate, facts: seq<Triple>)
    requires TriplesOf(Lookup(g, e), p) == facts
    requires forall w :: w in writes && w.id == e && p in Predicates(w.target) ==> TriplesOf(w.triples, p) == facts
    ensures TriplesOf(Lookup(Perform(g, writes, replies).0, e), p) == facts
  {
    if writes != [] {
      var w := writes[0];
      var (g', ok) := ReconcileOutcome(g, Predicates(w.target), w.id, w.triples, NextReply(replies));
      ReconcileObjects(g, Predicates(w.target), w.id, w.triples, NextReply(replies));
      assert w in writes;
      if e == w.id && e in g && g'[e] != g[e] {
        ReplaceTriples(g[e], Predicates(w.target), w.triples, p);
      }
      assert TriplesOf(Lookup(g', e), p) == facts;
      if ok {
        PerformFrame(g', writes[1..], Graph.Later(replies), e, p, facts);
      }
    }
  }

  /** However far an attempt gets, a fact the batch does not name keeps its recorded triples verbatim,
      provenance included, even inside a family the batch rewrites. */
  lemma UntouchedFactsStand(job: Job, g: GraphState, at: int, replies: seq<Reply>, e: EntityID, p: Predicate)
    requires Proceeds(job, g) && !Touches(Muts(job), e, p)
    requires p !in Predicates(TurnEffectMarker) || e != job.turn
    ensures TriplesOf(Lookup(Perform(g, AttemptWrites(job, g, at), replies).0, e), p) == TriplesOf(Lookup(g, e), p)
  {
    var muts, stamp := Muts(job), Stamp(at, job.batch.turnID);
    WritesMembership(g, muts, TargetOrder(muts), stamp);
    forall w | w in AttemptWrites(job, g, at) && w.id == e && p in Predicates(w.target)
      ensures TriplesOf(w.triples, p) == TriplesOf(Lookup(g, e), p)
    {
      TargetWriteWellFormed(g, muts, e);
      PredicateMembers(muts, e);
      assert w in WritesFor(g, muts, TargetOrder(muts), stamp);
      FamiliesAreEffects(PredicateOrder(muts, e), w.target);
      ProjectionTriples(e, TargetWriteOf(g, muts, e), w.target, stamp, p);
    }
    PerformFrame(g, AttemptWrites(job, g, at), replies, e, p, TriplesOf(Lookup(g, e), p));
  }

  /** The order of a batch does not matter to the world: two uninterrupted attempts of permuted batches
      leave every named fact with the same objects. */
  lemma PermutedBatchesApplyAlike(job: Job, other: Job, g: GraphState, at: int, at': int, e: EntityID, p: Predicate)
    requires multiset(job.batch.intents) == multiset(other.batch.intents)
    requires NoMarker(job, g) && NoMarker(other, g) && Proceeds(job, g) && Proceeds(other, g)
    requires Perform(g, AttemptWrites(job, g, at), []).1 == |AttemptWrites(job, g, at)|
    requires Perform(g, AttemptWrites(other, g, at'), []).1 == |AttemptWrites(other, g, at')|
    requires Touches(Muts(job), e, p)
    ensures Objects(Lookup(Perform(g, AttemptWrites(job, g, at), []).0, e), p) ==
            Objects(Lookup(Perform(g, AttemptWrites(other, g, at'), []).0, e), p)
  {
    OrderIndependent(job.rules, g, job.batch.intents, other.batch.intents);
    SameMutations(job, other, e, p);
    var run := UninterruptedRun(job, g, at);
    var run' := UninterruptedRun(other, g, at');
    Recovery(job, g, run);
    Recovery(other, g, run');
  }

  lemma SameMutations(job: Job, other: Job, e: EntityID, p: Predicate)
    requires multiset(job.batch.intents) == multiset(other.batch.intents) && Touches(Muts(job), e, p)
    ensures Touches(Muts(other), e, p)
  {
    var m :| m in Muts(job) && m.target == e && m.pred == p;
    MutationMembership(job.batch.intents, m);
    var x :| x in job.batch.intents && MutationOf(x) == m;
    assert x in multiset(other.batch.intents);
    MutationMembership(other.batch.intents, m);
  }

  /** However often and however brokenly a batch was applied, an attribute it set stays inside the world's
      own bounds once anyone reports the batch applied. */
  lemma AppliedAttributesStayInBounds(
    job: Job, g0: GraphState, events: seq<Event>, e: EntityID, p: Predicate, value: Value)
    requires NoMarker(job, g0) && Proceeds(job, g0) && Touches(Muts(job), e, p) && AttributeForPredicate(p).Some?
    requires Run(job, Start(g0), events).applied != {}
    requires value in Objects(Lookup(Run(job, Start(g0), events).graph, e), p)
    ensures value.Number? && InBounds(job.rules.specs, AttributeForPredicate(p).value, value.number)
  {
    Recovery(job, g0, events);
    var m :| m in Muts(job) && m.target == e && m.pred == p && m.obj == value;
    MutationMembership(job.batch.intents, m);
    var x :| x in job.batch.intents && MutationOf(x) == m;
    var i :| 0 <= i < |job.batch.intents| && job.batch.intents[i] == x;
    AdmissibleExactly(job.rules, g0, x);
    EffectPredicates(x);
  }
}
