/** A batch that was accepted stays acceptable until it is recorded: however far broken attempts got, the next
    undisturbed one finishes and leaves what the first would have left. */
module EffectRetry {
  import opened Wrappers
  import opened Vocabulary
  import opened Graph
  import opened EffectPlan
  import opened EffectRendering
  import opened EffectApplier
  import opened EffectRecovery
  import opened EffectProgress

  /** The turn, and every entity the batch names. */
  predicate NamedBy(job: Job, e: EntityID) {
    e == job.turn || exists m :: m in Muts(job) && (m.target == e || m.obj == Text(e))
  }

  /** No named entity disappears or changes its kind. */
  ghost predicate SameNamed(job: Job, g0: GraphState, g: GraphState) {
    forall e :: NamedBy(job, e) && e in g0 ==>
      e in g && TriplesOf(g[e], WorldEntityKind) == TriplesOf(g0[e], WorldEntityKind)
  }

  ghost predicate OwnTargets(job: Job, g: GraphState) {
    forall e :: e in TargetOrder(Muts(job)) ==> OwnFacts(g, e)
  }

  /** Other writers keep the named entities and their kinds, and write facts under their own entity's name. */
  ghost predicate Considerate(job: Job, g0: GraphState, events: seq<Event>) {
    forall i :: 0 <= i < |events| && events[i].Environment? ==>
      SameNamed(job, g0, events[i].next) && OwnTargets(job, events[i].next)
  }

  lemma {:induction false} WithoutIsResident(s: EntityState, group: set<Predicate>, t: Triple)
    ensures t in Without(s, group) ==> t in s
  {
    if s != [] {
      WithoutIsResident(s[1..], group, t);
    }
  }

  /** A write of any family or of the marker leaves existence and kinds alone, and adds only own facts. */
  lemma WriteIsConsiderate(job: Job, g0: GraphState, g: GraphState, write: GroupWrite, reply: Reply)
    requires SameNamed(job, g0, g) && OwnTargets(job, g)
    ensures var g' := ReconcileOutcome(g, Predicates(write.target), write.id, write.triples, reply).0;
      SameNamed(job, g0, g') && OwnTargets(job, g')
  {
    var g' := ReconcileOutcome(g, Predicates(write.target), write.id, write.triples, reply).0;
    ReconcileObjects(g, Predicates(write.target), write.id, write.triples, reply);
    assert WorldEntityKind !in Predicates(write.target);
    forall e | e in TargetOrder(Muts(job)) ensures OwnFacts(g', e) {
      assert OwnFacts(g, e);
      if e == write.id && e in g && g'[e] != g[e] {
        forall t: Triple | t in g'[e] && EffectTargetForPredicate(t.pred).Some? ensures t.subject == e {
          WithoutIsResident(g[e], Predicates(write.target), t);
        }
      }
    }
  }

  lemma {:induction false} RunIsConsiderate(job: Job, g0: GraphState, events: seq<Event>)
    requires Considerate(job, g0, events) && OwnTargets(job, g0)
    ensures var w := Run(job, Start(g0), events);
      SameNamed(job, g0, w.graph) && OwnTargets(job, w.graph)
    decreases |events|
  {
    if events != [] {
      var earlier, last := events[..|events| - 1], events[|events| - 1];
      assert forall i :: 0 <= i < |earlier| ==> earlier[i] == events[i];
      RunIsConsiderate(job, g0, earlier);
      var w := Run(job, Start(g0), earlier);
      if last.Write? && PendingOf(w, last.worker) != [] {
        WriteIsConsiderate(job, g0, w.graph, PendingOf(w, last.worker)[0], last.reply);
      }
    }
  }

  // ---- An accepted batch stays acceptable ----------------------------------

  lemma NamesItsEntities(job: Job, i: nat)
    requires i < |job.batch.intents|
    ensures var m := MutationOf(job.batch.intents[i]);
      && m in Muts(job) && NamedBy(job, m.target) && (m.obj.Text? ==> NamedBy(job, m.obj.text))
  {
    assert Muts(job)[i] == MutationOf(job.batch.intents[i]);
  }

  /** Half-applied or not, the resident objects of a relation the batch names are still references. */
  lemma ReferencesStay(job: Job, g0: GraphState, g: GraphState, e: EntityID, p: Predicate)
    requires AllUnderway(job, g0, g) && Touches(Muts(job), e, p) && IsRelation(p)
    requires ResidentsAreReferences(Lookup(g0, e), p)
    ensures ResidentsAreReferences(Lookup(g, e), p)
  {
    TouchedIsOwned(job, e, p);
    var target := EffectTargetForPredicate(p).value;
    assert Owned(job, e, target) && Underway(job, g0, g, e, target);
    forall t | t in Lookup(g, e) && t.pred == p ensures t.obj.Text? {
      WithinMembers(Lookup(g, e), {p}, t);
      assert t.obj in Objects(Lookup(g, e), p);
      if t.obj in Objects(Lookup(g0, e), p) {
        var r :| r in TriplesOf(Lookup(g0, e), p) && r.obj == t.obj;
        WithinMembers(Lookup(g0, e), {p}, r);
      } else {
        assert t.obj in Goal(job, g0, e, p);
        var m :| m in Muts(job) && m.target == e && m.pred == p && m.obj == t.obj;
        MutationMembership(job.batch.intents, m);
        var x :| x in job.batch.intents && MutationOf(x) == m;
        EffectPredicates(x);
      }
    }
  }

  lemma JudgementStays(job: Job, g0: GraphState, g: GraphState, i: nat)
    requires SameNamed(job, g0, g) && AllUnderway(job, g0, g) && i < |job.batch.intents|
    requires Judge(job.rules, g0, job.batch.intents[i]) == None
    ensures Judge(job.rules, g, job.batch.intents[i]) == None
  {
    var intent := job.batch.intents[i];
    var m := MutationOf(intent);
    NamesItsEntities(job, i);
    AdmissibleExactly(job.rules, g0, intent);
    AdmissibleExactly(job.rules, g, intent);
    if IsRelation(m.pred) {
      ReferencesStay(job, g0, g, m.target, m.pred);
    }
  }

  lemma AcceptanceStays(job: Job, g0: GraphState, g: GraphState)
    requires Proceeds(job, g0) && SameNamed(job, g0, g) && AllUnderway(job, g0, g) && NoMarker(job, g)
    ensures Proceeds(job, g)
  {
    assert NamedBy(job, job.turn);
    forall i | 0 <= i < |job.batch.intents| ensures Judge(job.rules, g, job.batch.intents[i]) == None {
      JudgementStays(job, g0, g, i);
    }
  }

  // ---- Main result ---------------------------------------------------------

  lemma {:induction false} RunAppended(job: Job, w: World, a: seq<Event>, b: seq<Event>)
    ensures Run(job, w, a + b) == Run(job, Run(job, w, a), b)
    decreases |b|
  {
    if b == [] {
      assert a + b == a;
    } else {
      RunAppended(job, w, a, b[..|b| - 1]);
      assert (a + b)[..|a + b| - 1] == a + b[..|b| - 1];
    }
  }

  /** One undisturbed attempt of a worker that is free or has just stopped, as a continuation of a run. */
  function Retry(job: Job, g: GraphState, at: int): seq<Event> {
    [Crash(0)] + ([Begin(0, at, g)] + Writes(0, [], |AttemptWrites(job, g, at)|))
  }

  lemma RetryIsPerform(job: Job, w: World, at: int)
    requires Proceeds(job, w.graph) && w.graph in w.past
    ensures var w' := Run(job, w, Retry(job, w.graph, at));
      var (g', done) := Perform(w.graph, AttemptWrites(job, w.graph, at), []);
      w'.graph == g' && (done == |AttemptWrites(job, w.graph, at)| ==> w'.applied != {})
  {
    var writes := AttemptWrites(job, w.graph, at);
    var stopped := w.(pending := w.pending[0 := []]);
    var begun := stopped.(pending := stopped.pending[0 := writes]);
    ReadsItself(w.past, w.graph);
    RunFront(job, w, Crash(0), [Begin(0, at, w.graph)] + Writes(0, [], |writes|));
    RunFront(job, stopped, Begin(0, at, w.graph), Writes(0, [], |writes|));
    assert BeginStep(job, stopped, 0, at, w.graph) == begun;
    PerformIsRun(job, begun, 0, []);
  }

  ghost predicate Repaired(job: Job, g0: GraphState, g: GraphState) {
    forall e, p :: Touches(Muts(job), e, p) ==>
      Objects(Lookup(g, e), p) == Updated(Objects(Lookup(g0, e), p), Muts(job), e, p)
  }

  /** Whatever a run left, an undisturbed attempt finishes from there. */
  ghost predicate RepairedByRetry(job: Job, g0: GraphState, g: GraphState, at: int) {
    var writes := AttemptWrites(job, g, at);
    && Proceeds(job, g) && Perform(g, writes, []).1 == |writes|
    && Repaired(job, g0, Perform(g, writes, []).0)
  }

  lemma UnmarkedIsAccepted(job: Job, g0: GraphState, events: seq<Event>)
    requires Proceeds(job, g0) && OwnTargets(job, g0) && Considerate(job, g0, events)
    ensures var w := Run(job, Start(g0), events);
      && w.graph in w.past && OwnTargets(job, w.graph)
      && (Marked(job, w.graph) || Proceeds(job, w.graph))
  {
    var w := Run(job, Start(g0), events);
    assert NoMarker(job, g0);
    RunKeeps(job, g0, events);
    RunIsConsiderate(job, g0, events);
    LatestIsPast(job, Start(g0), events);
    if !Marked(job, w.graph) {
      AcceptanceStays(job, g0, w.graph);
    }
  }

  lemma {:induction false} LatestIsPast(job: Job, w: World, events: seq<Event>)
    requires w.graph in w.past
    ensures Run(job, w, events).graph in Run(job, w, events).past
    decreases |events|
  {
    if events != [] {
      LatestIsPast(job, w, events[..|events| - 1]);
    }
  }

  lemma AppliedIsRepaired(job: Job, g0: GraphState, events: seq<Event>)
    requires NoMarker(job, g0) && Run(job, Start(g0), events).applied != {}
    ensures Repaired(job, g0, Run(job, Start(g0), events).graph)
  {
    Recovery(job, g0, events);
  }

  /** However many attempts broke off wherever they did: either the batch is recorded, or it is still accepted, and the
      next undisturbed attempt confirms every write and leaves each fact the batch names with its simple update of
      what stood there before the first attempt. */
  lemma BrokenAttemptsAreRepaired(job: Job, g0: GraphState, events: seq<Event>, at: int)
    requires Proceeds(job, g0) && OwnTargets(job, g0) && Considerate(job, g0, events)
    ensures var g := Run(job, Start(g0), events).graph;
      Marked(job, g) || RepairedByRetry(job, g0, g, at)
  {
    var w := Run(job, Start(g0), events);
    UnmarkedIsAccepted(job, g0, events);
    if !Marked(job, w.graph) {
      var retry := Retry(job, w.graph, at);
      UndisturbedAttemptSucceeds(job, w.graph, at);
      RetryIsPerform(job, w, at);
      RunAppended(job, Start(g0), events, retry);
      AppliedIsRepaired(job, g0, events + retry);
    }
  }
}
