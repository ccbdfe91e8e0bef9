/** One boot that nobody disturbs, found again among the steps of the racing-boots machine. */
module BootRuns {
  import opened Wrappers
  import opened Vocabulary
  import opened Graph
  import opened Campaign
  import opened Instantiation

  lemma {:induction false} RunAppended(setting: Setting, w: World, a: seq<Event>, b: seq<Event>)
    ensures Run(setting, w, a + b) == Run(setting, Run(setting, w, a), b)
    decreases |b|
  {
    if b == [] {
      assert a + b == a;
    } else {
      RunAppended(setting, w, a, b[..|b| - 1]);
      assert (a + b)[..|a + b| - 1] == a + b[..|b| - 1];
    }
  }

  lemma RunNext(setting: Setting, w: World, before: seq<Event>, e: Event)
    ensures Run(setting, w, before + [e]) == Step(setting, Run(setting, w, before), e)
  {
    assert (before + [e])[..|before|] == before;
  }

  function Births(ids: seq<EntityID>, states: EntityID -> EntityState): seq<Event> {
    seq(|ids|, i requires 0 <= i < |ids| => Materialize(ids[i], states(ids[i])))
  }

  function Indexing(boot: BootID, edges: seq<Edge>): seq<Event> {
    seq(|edges|, i requires 0 <= i < |edges| => IndexCatchesUp(boot, edges[i]))
  }

  /** The two worlds differ at most in planned entities, which the later one has. */
  ghost predicate Grown(setting: Setting, w: World, w': World, ids: seq<EntityID>) {
    && w' == w.(graph := w'.graph)
    && (forall id :: id !in ids ==> (id in w'.graph <==> id in w.graph) && Lookup(w'.graph, id) == Lookup(w.graph, id))
    && (forall i :: 0 <= i < |ids| ==> ids[i] in w'.graph)
  }

  /** Every published entity materializes. */
  lemma {:induction false} AllMaterialize(
    setting: Setting, w: World, ids: seq<EntityID>, states: EntityID -> EntityState)
    requires forall i :: 0 <= i < |ids| ==> ids[i] in w.published && ids[i] != setting.gate.campaignID
    ensures Grown(setting, w, Run(setting, w, Births(ids, states)), ids)
    decreases |ids|
  {
    if ids != [] {
      var earlier, last := ids[..|ids| - 1], ids[|ids| - 1];
      AllMaterialize(setting, w, earlier, states);
      assert Births(ids, states) == Births(earlier, states) + [Materialize(last, states(last))];
      RunNext(setting, w, Births(earlier, states), Materialize(last, states(last)));
      assert ids == earlier + [last];
    }
  }

  /** The boot's own index catches up with every edge. */
  lemma {:induction false} AllIndexed(setting: Setting, w: World, boot: BootID, edges: seq<Edge>)
    requires boot in w.boots
    ensures var w' := Run(setting, w, Indexing(boot, edges));
      && boot in w'.boots
      && w' == w.(boots := w.boots[boot := w.boots[boot].(edges := w'.boots[boot].edges)])
      && (forall i :: 0 <= i < |edges| ==> edges[i] in w'.boots[boot].edges)
    decreases |edges|
  {
    if edges != [] {
      var earlier, last := edges[..|edges| - 1], edges[|edges| - 1];
      AllIndexed(setting, w, boot, earlier);
      assert Indexing(boot, edges) == Indexing(boot, earlier) + [IndexCatchesUp(boot, last)];
      RunNext(setting, w, Indexing(boot, earlier), IndexCatchesUp(boot, last));
    }
  }

  /** A whole undisturbed boot: claim, publish, materialize, read back, index, mark, and wait for its own index. */
  function WholeBoot(
    setting: Setting, boot: BootID, claimed: Reply, ids: seq<EntityID>, states: EntityID -> EntityState,
    edges: seq<Edge>, at: int, marked: Reply): seq<Event>
  {
    [Claim(boot, claimed), Publish(boot, setting.plan.ids)] + Births(ids, states)
    + ([Check(boot)] + Indexing(boot, edges)) + [Check(boot), Mark(boot, at, marked), Check(boot)]
  }

  ghost predicate Lists(setting: Setting, ids: seq<EntityID>, edges: seq<Edge>) {
    && setting.gate.campaignID !in setting.plan.ids && setting.plan.edges != {}
    && (forall id :: id in ids <==> id in setting.plan.ids)
    && (forall edge :: edge in edges <==> edge in setting.plan.edges)
  }

  /** The mark reads and writes the campaign entity alone. */
  lemma MarkElsewhere(gate: Gate, g: GraphState, g': GraphState, claim: Campaign.Instantiation, at: int, reply: Reply)
    requires (gate.campaignID in g <==> gate.campaignID in g') && Lookup(g, gate.campaignID) == Lookup(g', gate.campaignID)
    ensures var (m, ok) := MarkOutcome(gate, g, claim, at, reply);
      var (m', ok') := MarkOutcome(gate, g', claim, at, reply);
      ok == ok' && Lookup(m, gate.campaignID) == Lookup(m', gate.campaignID) &&
      (forall e :: e != gate.campaignID ==> Lookup(m', e) == Lookup(g', e) && (e in m' <==> e in g'))
  {}

  /** The claim and the publish of a boot that won. */
  lemma PublishedFresh(setting: Setting, w: World, boot: BootID, claimed: Reply)
    requires boot !in w.boots
    requires var (_, claim) := ClaimOutcome(setting.gate, w.graph, setting.births(boot), claimed);
      claim.Some? && claim.value.answer.isFresh
    ensures var (g, claim) := ClaimOutcome(setting.gate, w.graph, setting.births(boot), claimed);
      var w2 := Run(setting, w, [Claim(boot, claimed), Publish(boot, setting.plan.ids)]);
      && boot in w2.boots && w2.boots[boot] == Boot(AwaitingBirth, claim, {}) && w2.graph == g
      && setting.plan.ids <= w2.published
  {
    RunNext(setting, w, [], Claim(boot, claimed));
    RunNext(setting, w, [Claim(boot, claimed)], Publish(boot, setting.plan.ids));
    assert [] + [Claim(boot, claimed)] == [Claim(boot, claimed)];
    assert [Claim(boot, claimed)] + [Publish(boot, setting.plan.ids)] ==
           [Claim(boot, claimed), Publish(boot, setting.plan.ids)];
  }

  /** Read back, indexed, marked and indexed again. */
  lemma MarkedAndServed(setting: Setting, w: World, boot: BootID, at: int, marked: Reply)
    requires boot in w.boots && w.boots[boot].phase == AwaitingIndex && w.boots[boot].claim.Some?
    requires setting.plan.edges != {} && setting.plan.edges <= w.boots[boot].edges
    ensures var w' := Run(setting, w, [Check(boot), Mark(boot, at, marked), Check(boot)]);
      var (g, ok) := MarkOutcome(setting.gate, w.graph, w.boots[boot].claim.value, at, marked);
      w'.graph == g && boot in w'.boots && w'.boots[boot].phase == if ok then Serving else Stopped
  {
    RunNext(setting, w, [], Check(boot));
    RunNext(setting, w, [Check(boot)], Mark(boot, at, marked));
    RunNext(setting, w, [Check(boot), Mark(boot, at, marked)], Check(boot));
    assert [] + [Check(boot)] == [Check(boot)];
    assert [Check(boot)] + [Mark(boot, at, marked)] == [Check(boot), Mark(boot, at, marked)];
    assert [Check(boot), Mark(boot, at, marked)] + [Check(boot)] == [Check(boot), Mark(boot, at, marked), Check(boot)];
  }

  lemma BornAndIndexed(setting: Setting, w: World, boot: BootID, ids: seq<EntityID>, edges: seq<Edge>)
    requires boot in w.boots && w.boots[boot].phase == AwaitingBirth && Lists(setting, ids, edges)
    requires setting.plan.ids <= w.graph.Keys
    ensures var w' := Run(setting, w, [Check(boot)] + Indexing(boot, edges));
      && boot in w'.boots && w'.graph == w.graph && w'.boots[boot].phase == AwaitingIndex
      && w'.boots[boot].claim == w.boots[boot].claim && setting.plan.edges <= w'.boots[boot].edges
  {
    RunNext(setting, w, [], Check(boot));
    assert [] + [Check(boot)] == [Check(boot)];
    RunAppended(setting, w, [Check(boot)], Indexing(boot, edges));
    AllIndexed(setting, Step(setting, w, Check(boot)), boot, edges);
  }

  /** What `Instantiate` does for the boot that created the campaign is one run of the racing-boots machine: the whole
      planned world is there, the campaign is as the claim and the mark leave it, no other entity moved, and the boot
      serves exactly when its mark was confirmed. */
  lemma FreshBootIsRun(
    setting: Setting, w: World, boot: BootID, claimed: Reply, ids: seq<EntityID>, states: EntityID -> EntityState,
    edges: seq<Edge>, at: int, marked: Reply)
    requires boot !in w.boots && Lists(setting, ids, edges)
    requires var (_, claim) := ClaimOutcome(setting.gate, w.graph, setting.births(boot), claimed);
      claim.Some? && claim.value.answer.isFresh
    ensures var (g, claim) := ClaimOutcome(setting.gate, w.graph, setting.births(boot), claimed);
      var (after, ok) := MarkOutcome(setting.gate, g, claim.value, at, marked);
      var w' := Run(setting, w, WholeBoot(setting, boot, claimed, ids, states, edges, at, marked));
      && setting.plan.ids <= w'.graph.Keys
      && (forall e :: e !in setting.plan.ids ==> Lookup(w'.graph, e) == Lookup(after, e))
      && boot in w'.boots && w'.boots[boot].phase == if ok then Serving else Stopped
  {
    var start := [Claim(boot, claimed), Publish(boot, setting.plan.ids)];
    var middle := [Check(boot)] + Indexing(boot, edges);
    var (g, claim) := ClaimOutcome(setting.gate, w.graph, setting.births(boot), claimed);
    var w2 := Run(setting, w, start);
    PublishedFresh(setting, w, boot, claimed);
    AllMaterialize(setting, w2, ids, states);
    var w3 := Run(setting, w2, Births(ids, states));
    BornAndIndexed(setting, w3, boot, ids, edges);
    var w4 := Run(setting, w3, middle);
    MarkedAndServed(setting, w4, boot, at, marked);
    MarkElsewhere(setting.gate, g, w4.graph, claim.value, at, marked);
    MarkElsewhere(setting.gate, g, g, claim.value, at, marked);
    RunAppended(setting, w, start, Births(ids, states));
    RunAppended(setting, w, start + Births(ids, states), middle);
    RunAppended(setting, w, start + Births(ids, states) + middle, [Check(boot), Mark(boot, at, marked), Check(boot)]);
  }
}
