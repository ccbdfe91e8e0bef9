/** Committing an accepted batch: one replacement per touched family, entity by
    entity, and only then the turn's record that the batch was applied. */
module EffectApplier {
  import opened Wrappers
  import opened Vocabulary
  import opened Graph
  import opened EffectPlan
  import opened EffectRendering

  datatype Batch = Batch(turnID: string, batchID: string, bandDeclared: bool, intents: seq<EffectIntent>)

  /** One batch addressed to one turn, with the reference its payload was stored under. `segment`
      and `instance` are the upstream identity grammar: a well-formed segment, and the last
      segment of a well-formed entity identity. */
  datatype Job = Job(
    rules: Rules,
    segment: string -> bool,
    instance: EntityID -> string,
    batch: Batch,
    turn: EntityID,
    ref: string)

  function BatchIDForTurn(turnID: string): string {
    "batch-" + turnID
  }

  predicate BatchValid(job: Job) {
    && job.segment(job.batch.turnID)
    && job.batch.batchID == BatchIDForTurn(job.batch.turnID)
    && job.batch.bandDeclared
    && forall i :: 0 <= i < |job.batch.intents| ==> IntentValid(job.rules, job.batch.intents[i])
  }

  predicate Addressed(job: Job) {
    job.rules.canonical(job.turn) && job.instance(job.turn) == job.batch.turnID && job.ref != ""
  }

  // ---- The marker ----------------------------------------------------------

  datatype Marker = TurnMissing | Unmarked | Recorded | Anomalous

  /** What the turn already says about this batch; every half-record is an anomaly. */
  function MarkerOf(g: GraphState, job: Job): Marker {
    if job.turn !in g then TurnMissing
    else
      var identities := TriplesOf(g[job.turn], TurnEffectsBatch);
      var references := TriplesOf(g[job.turn], TurnEffectsRef);
      if |identities| > 1 || |references| > 1 || |identities| != |references| then Anomalous
      else if |identities| == 0 then Unmarked
      else if identities[0].obj != Text(job.batch.batchID) || references[0].obj != Text(job.ref) then Anomalous
      else Recorded
  }

  function MarkerTriples(job: Job, at: int): seq<Triple> {
    var provenance := Provenance(SOURCE, at, job.batch.turnID, false);
    [Triple(job.turn, TurnEffectsBatch, Text(job.batch.batchID), provenance),
     Triple(job.turn, TurnEffectsRef, Text(job.ref), provenance)]
  }

  // ---- The writes of one attempt, as a list --------------------------------

  datatype GroupWrite = GroupWrite(id: EntityID, target: Target, triples: seq<Triple>)

  function TargetWriteOf(g: GraphState, muts: seq<Mutation>, e: EntityID): TargetWrite {
    var order := PredicateOrder(muts, e);
    TargetWrite(Lookup(g, e), order, map p | p in order :: WriteFor(Lookup(g, e), muts, e, p))
  }

  function Tagged(e: EntityID, writes: seq<ProjectionWrite>): seq<GroupWrite> {
    seq(|writes|, i requires 0 <= i < |writes| => GroupWrite(e, writes[i].target, writes[i].triples))
  }

  function EntityWrites(g: GraphState, muts: seq<Mutation>, e: EntityID, stamp: Stamp): seq<GroupWrite> {
    Tagged(e, Projections(e, TargetWriteOf(g, muts, e), stamp))
  }

  function WritesFor(g: GraphState, muts: seq<Mutation>, order: seq<EntityID>, stamp: Stamp): seq<GroupWrite> {
    if order == [] then []
    else EntityWrites(g, muts, order[0], stamp) + WritesFor(g, muts, order[1..], stamp)
  }

  function MarkerWrite(job: Job, at: int): GroupWrite {
    GroupWrite(job.turn, TurnEffectMarker, MarkerTriples(job, at))
  }

  /** Everything one attempt would write from the graph it reads, in order: the marker is last. */
  function AttemptWrites(job: Job, g: GraphState, at: int): seq<GroupWrite> {
    var muts := MutationsOf(job.batch.intents);
    WritesFor(g, muts, TargetOrder(muts), Stamp(at, job.batch.turnID)) + [MarkerWrite(job, at)]
  }

  /** Issues writes until one is not confirmed: the graph, and how many were confirmed. */
  function Perform(g: GraphState, writes: seq<GroupWrite>, replies: seq<Reply>): (r: (GraphState, nat))
    ensures r.1 <= |writes|
  {
    if writes == [] then (g, 0)
    else
      var (g', ok) := ReconcileOutcome(g, Predicates(writes[0].target), writes[0].id, writes[0].triples, NextReply(replies));
      if !ok then (g', 0)
      else
        var (final, done) := Perform(g', writes[1..], Later(replies));
        (final, done + 1)
  }

  /** The attempt gets as far as writing: valid, addressed to this turn, not recorded, accepted. */
  ghost predicate Proceeds(job: Job, g: GraphState) {
    BatchValid(job) && Addressed(job) && MarkerOf(g, job) == Unmarked &&
    Accepts(job.rules, g, job.batch.intents)
  }

  // ---- The applier ---------------------------------------------------------

  datatype Outcome =
    | AlreadyApplied
    | Applied(targets: seq<EntityID>)
    | Refused(rejection: Rejection)
    | CommitFailed(target: EntityID, committed: seq<EntityID>)
    | Misaddressed
    | TurnUnusable

  /** The plan's entities are confirmed up to `committed`, and writing stopped at `target`. */
  ghost predicate Stopped(job: Job, g: GraphState, at: int, done: nat, target: EntityID, committed: seq<EntityID>) {
    var muts := MutationsOf(job.batch.intents);
    var order := TargetOrder(muts);
    var stamp := Stamp(at, job.batch.turnID);
    && |committed| <= |order| && committed == order[..|committed|]
    && target == (order + [job.turn])[|committed|]
    && |WritesFor(g, muts, order, stamp)| - |WritesFor(g, muts, order[|committed|..], stamp)| <= done
    && (|committed| < |order| ==>
      done < |WritesFor(g, muts, order, stamp)| - |WritesFor(g, muts, order[|committed| + 1..], stamp)|)
  }

  /** What is still to be written once the first `i` entities are confirmed. */
  function Pending(job: Job, g: GraphState, order: seq<EntityID>, i: nat, at: int): seq<GroupWrite>
    requires i <= |order|
  {
    WritesFor(g, MutationsOf(job.batch.intents), order[i..], Stamp(at, job.batch.turnID)) + [MarkerWrite(job, at)]
  }

  lemma NextTarget(job: Job, g: GraphState, order: seq<EntityID>, i: nat, at: int)
    requires i < |order|
    ensures Pending(job, g, order, i, at) ==
            EntityWrites(g, MutationsOf(job.batch.intents), order[i], Stamp(at, job.batch.turnID))
            + Pending(job, g, order, i + 1, at)
  {
    assert order[i..][1..] == order[i + 1..];
  }

  /** With the first `i` entities confirmed, finishing what is pending is finishing the attempt. */
  ghost predicate OnCourse(
    job: Job, g: GraphState, order: seq<EntityID>, i: nat, at: int, replies: seq<Reply>,
    midway: GraphState, later: seq<Reply>)
    requires i <= |order|
  {
    var all, pending := Perform(g, AttemptWrites(job, g, at), replies), Pending(job, g, order, i, at);
    var rest := Perform(midway, pending, later);
    && |pending| <= |AttemptWrites(job, g, at)|
    && all == (rest.0, rest.1 + |AttemptWrites(job, g, at)| - |pending|)
  }

  lemma StoppedWithin(
    job: Job, g: GraphState, at: int, i: nat, replies: seq<Reply>, midway: GraphState, later: seq<Reply>)
    requires var order := TargetOrder(MutationsOf(job.batch.intents));
      && i < |order|
      && OnCourse(job, g, order, i, at, replies, midway, later)
      && |Pending(job, g, order, i + 1, at)| <= |Pending(job, g, order, i, at)|
      && Perform(midway, Pending(job, g, order, i, at), later).1
         < |Pending(job, g, order, i, at)| - |Pending(job, g, order, i + 1, at)|
    ensures var order := TargetOrder(MutationsOf(job.batch.intents));
      CommitEnded(job, g, at, replies, Perform(midway, Pending(job, g, order, i, at), later).0,
                CommitFailed(order[i], order[..i]))
  {
    var order := TargetOrder(MutationsOf(job.batch.intents));
    var done := Perform(g, AttemptWrites(job, g, at), replies).1;
    assert Stopped(job, g, at, done, order[i], order[..i]);
  }

  /** A commit issued the attempt's writes until one was not confirmed, and reported how far it got. */
  ghost predicate CommitEnded(
    job: Job, g: GraphState, at: int, replies: seq<Reply>, after: GraphState, outcome: Outcome)
  {
    var writes := AttemptWrites(job, g, at);
    var (g', done) := Perform(g, writes, replies);
    && after == g'
    && (done == |writes| ==> outcome == Applied(TargetOrder(MutationsOf(job.batch.intents))))
    && (done < |writes| ==>
         && outcome.CommitFailed?
         && Stopped(job, g, at, done, outcome.target, outcome.committed))
  }

  lemma PerformFront(g: GraphState, write: GroupWrite, rest: seq<GroupWrite>, replies: seq<Reply>)
    ensures var (g', ok) := ReconcileOutcome(g, Predicates(write.target), write.id, write.triples, NextReply(replies));
      var (final, done) := Perform(g', rest, Later(replies));
      Perform(g, [write] + rest, replies) == if ok then (final, done + 1) else (g', 0)
  {
    assert ([write] + rest)[1..] == rest;
  }

  lemma Finished(job: Job, g: GraphState, at: int, replies: seq<Reply>, midway: GraphState, later: seq<Reply>)
    requires var order := TargetOrder(MutationsOf(job.batch.intents));
      OnCourse(job, g, order, |order|, at, replies, midway, later)
    ensures var order := TargetOrder(MutationsOf(job.batch.intents));
      var (final, ok) := ReconcileOutcome(
        midway, Predicates(TurnEffectMarker), job.turn, MarkerTriples(job, at), NextReply(later));
      CommitEnded(job, g, at, replies, final, if ok then Applied(order) else CommitFailed(job.turn, order))
  {
    var order := TargetOrder(MutationsOf(job.batch.intents));
    assert order[|order|..] == [] && order[..|order|] == order;
    assert Pending(job, g, order, |order|, at) == [MarkerWrite(job, at)];
    PerformFront(midway, MarkerWrite(job, at), [], later);
    assert [MarkerWrite(job, at)] + [] == [MarkerWrite(job, at)];
    var (all, done) := Perform(g, AttemptWrites(job, g, at), replies);
    assert done < |AttemptWrites(job, g, at)| ==> Stopped(job, g, at, done, job.turn, order);
  }

  class Applier {
    const store: Store

    constructor (store: Store)
      ensures this.store == store
    {
      this.store := store;
    }

    /** The outcome and the graph of one call: only a valid, addressed, unrecorded and accepted batch writes. */
    method Apply(job: Job, at: int) returns (outcome: Outcome)
      modifies store
      ensures !BatchValid(job) ==> outcome == Refused(Rejection(-1, EffectInvalid))
      ensures BatchValid(job) && !Addressed(job) ==> outcome == Misaddressed
      ensures BatchValid(job) && Addressed(job) ==>
                match MarkerOf(old(store.graph), job)
                case TurnMissing => outcome == TurnUnusable
                case Anomalous => outcome == TurnUnusable
                case Recorded => outcome == AlreadyApplied
                case Unmarked =>
                  !Accepts(job.rules, old(store.graph), job.batch.intents) ==>
                    outcome.Refused? &&
                    FirstViolation(job.rules, old(store.graph), job.batch.intents, outcome.rejection)
      ensures !Proceeds(job, old(store.graph)) ==> store.graph == old(store.graph)
      ensures Proceeds(job, old(store.graph)) ==>
                CommitEnded(job, old(store.graph), at, old(store.replies), store.graph, outcome)
    {
      if !BatchValid(job) {
        return Refused(Rejection(-1, EffectInvalid));
      }
      if !Addressed(job) {
        return Misaddressed;
      }
      match MarkerOf(store.graph, job) {
        case TurnMissing => return TurnUnusable;
        case Anomalous => return TurnUnusable;
        case Recorded => return AlreadyApplied;
        case Unmarked =>
      }
      var plan, rejected := BuildPlan(store, job.rules, job.batch.intents);
      if rejected.Some? {
        return Refused(rejected.value);
      }
      outcome := Commit(job, plan, at);
    }

    method Commit(job: Job, plan: Plan, at: int) returns (outcome: Outcome)
      requires plan.Represents(store.graph, MutationsOf(job.batch.intents))
      modifies store
      ensures CommitEnded(job, old(store.graph), at, old(store.replies), store.graph, outcome)
    {
      outcome := CommitTargets(job, plan.order, plan.targets, at);
    }

    method CommitTargets(job: Job, order: seq<EntityID>, targets: map<EntityID, TargetWrite>, at: int)
      returns (outcome: Outcome)
      requires Describing(order, targets, store.graph, MutationsOf(job.batch.intents))
      modifies store
      ensures CommitEnded(job, old(store.graph), at, old(store.replies), store.graph, outcome)
    {
      ghost var g, replies := store.graph, store.replies;
      assert order[0..] == order;
      for i := 0 to |order|
        invariant OnCourse(job, g, order, i, at, replies, store.graph, store.replies)
      {
        DescribedExactly(targets[order[i]], g, MutationsOf(job.batch.intents), order[i]);
        var ok := CommitEntity(job, order[i], targets[order[i]], at, g, order, i, replies);
        if !ok {
          return CommitFailed(order[i], order[..i]);
        }
      }
      outcome := CommitMarker(job, order, at, g, replies);
    }

    method CommitMarker(job: Job, order: seq<EntityID>, at: int, ghost g: GraphState, ghost replies: seq<Reply>)
      returns (outcome: Outcome)
      requires order == TargetOrder(MutationsOf(job.batch.intents))
      requires OnCourse(job, g, order, |order|, at, replies, store.graph, store.replies)
      modifies store
      ensures CommitEnded(job, g, at, replies, store.graph, outcome)
    {
      Finished(job, g, at, replies, store.graph, store.replies);
      var ok := store.Reconcile(Predicates(TurnEffectMarker), job.turn, MarkerTriples(job, at));
      return if ok then Applied(order) else CommitFailed(job.turn, order);
    }

    /** Renders and writes the next entity of the plan. */
    method CommitEntity(
      job: Job, e: EntityID, tw: TargetWrite, at: int,
      ghost g: GraphState, ghost order: seq<EntityID>, ghost i: nat, ghost replies: seq<Reply>)
      returns (ok: bool)
      requires order == TargetOrder(MutationsOf(job.batch.intents)) && i < |order| && e == order[i]
      requires tw == TargetWriteOf(g, MutationsOf(job.batch.intents), e)
      requires OnCourse(job, g, order, i, at, replies, store.graph, store.replies)
      modifies store
      ensures ok ==> OnCourse(job, g, order, i + 1, at, replies, store.graph, store.replies)
      ensures !ok ==> CommitEnded(job, g, at, replies, store.graph, CommitFailed(e, order[..i]))
    {
      ghost var midway, later := store.graph, store.replies;
      var projected := RenderProjections(e, tw, Stamp(at, job.batch.turnID));
      NextTarget(job, g, order, i, at);
      ok := CommitTarget(e, projected, Pending(job, g, order, i + 1, at));
      if !ok {
        StoppedWithin(job, g, at, i, replies, midway, later);
      }
    }

    /** Writes one entity's families; the writes still to come after it are `next`. */
    method CommitTarget(e: EntityID, projected: seq<ProjectionWrite>, ghost next: seq<GroupWrite>) returns (ok: bool)
      modifies store
      ensures var (final, done) := Perform(old(store.graph), Tagged(e, projected) + next, old(store.replies));
        if ok then (final, done - |projected|) == Perform(store.graph, next, store.replies)
        else store.graph == final && done < |projected|
    {
      ghost var goal := Perform(store.graph, Tagged(e, projected) + next, store.replies);
      for j := 0 to |projected|
        invariant var (final, done) := Perform(store.graph, Tagged(e, projected[j..]) + next, store.replies);
          goal == (final, done + j)
      {
        ghost var rest := Tagged(e, projected[j + 1..]) + next;
        ghost var write := GroupWrite(e, projected[j].target, projected[j].triples);
        assert Tagged(e, projected[j..]) + next == [write] + rest;
        PerformFront(store.graph, write, rest, store.replies);
        ok := store.Reconcile(Predicates(projected[j].target), e, projected[j].triples);
        if !ok {
          return;
        }
      }
      assert Tagged(e, projected[|projected|..]) + next == next;
      ok := true;
    }
  }

  lemma DescribedExactly(tw: TargetWrite, g: GraphState, muts: seq<Mutation>, e: EntityID)
    requires Describes(tw, g, muts, e)
    ensures tw == TargetWriteOf(g, muts, e)
  {
    assert tw.writes == TargetWriteOf(g, muts, e).writes;
  }
}
