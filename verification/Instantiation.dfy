/** Booting a world: claim, import, read it back, mark it, and only then serve. Any number of
    boots race, lose replies and die anywhere. */
module Instantiation {
  import opened Wrappers
  import opened Vocabulary
  import opened Graph
  import opened Campaign

  type BootID = nat

  datatype Edge = Edge(source: EntityID, target: EntityID)

  /** What the resolved plan says the world holds: its entities, and who is where. */
  datatype Plan = Plan(ids: set<EntityID>, edges: set<Edge>)

  // ---- Readbacks -----------------------------------------------------------

  /** What the reverse index answers about one target: nothing yet, or the sources it has. */
  datatype Incoming = NotReady | Sources(sources: set<EntityID>)

  function MissingIncoming(answer: Incoming, sources: seq<EntityID>): seq<EntityID> {
    if answer.NotReady? then sources
    else if sources == [] then []
    else if sources[0] in answer.sources then MissingIncoming(answer, sources[1..])
    else [sources[0]] + MissingIncoming(answer, sources[1..])
  }

  lemma {:induction false} NothingMissing(answer: Incoming, sources: seq<EntityID>)
    ensures MissingIncoming(answer, sources) == [] <==>
            forall i :: 0 <= i < |sources| ==> Carries(answer, sources[i])
  {
    if answer.Sources? && sources != [] {
      NothingMissing(answer, sources[1..]);
      assert forall i :: 1 <= i < |sources| ==> sources[i] == sources[1..][i - 1];
    } else if sources != [] {
      assert !Carries(answer, sources[0]);
    }
  }

  predicate Carries(answer: Incoming, source: EntityID) {
    answer.Sources? && source in answer.sources
  }

  predicate EdgesPresent(expected: seq<(EntityID, seq<EntityID>)>, index: EntityID -> Incoming) {
    forall i, j :: 0 <= i < |expected| && 0 <= j < |expected[i].1| ==>
      Carries(index(expected[i].0), expected[i].1[j])
  }

  /** Polls the reverse index until every declared membership edge is positively there. An index that
      is merely "ready" answers nothing, and a plan with no membership at all is refused. */
  method AwaitMembershipIndexed(expected: seq<(EntityID, seq<EntityID>)>, views: seq<EntityID -> Incoming>)
    returns (ok: bool)
    ensures ok <==> expected != [] && exists k :: 0 <= k < |views| && EdgesPresent(expected, views[k])
  {
    if expected == [] {
      return false;
    }
    for k := 0 to |views|
      invariant forall v :: 0 <= v < k ==> !EdgesPresent(expected, views[v])
    {
      var pending: seq<EntityID> := [];
      for t := 0 to |expected|
        invariant pending == [] <==> EdgesPresent(expected[..t], views[k])
      {
        NothingMissing(views[k](expected[t].0), expected[t].1);
        pending := pending + MissingIncoming(views[k](expected[t].0), expected[t].1);
        assert expected[..t + 1] == expected[..t] + [expected[t]];
        OneMoreTarget(expected, t, views[k]);
      }
      assert expected[..|expected|] == expected;
      if pending == [] {
        return true;
      }
    }
    ok := false;
  }

  lemma OneMoreTarget(expected: seq<(EntityID, seq<EntityID>)>, t: nat, index: EntityID -> Incoming)
    requires t < |expected|
    ensures EdgesPresent(expected[..t + 1], index) <==>
            EdgesPresent(expected[..t], index) &&
            forall j :: 0 <= j < |expected[t].1| ==> Carries(index(expected[t].0), expected[t].1[j])
  {
    var longer, shorter := expected[..t + 1], expected[..t];
    assert longer[t] == expected[t];
    assert forall i :: 0 <= i < t ==> longer[i] == shorter[i];
    if EdgesPresent(longer, index) {
      forall i, j | 0 <= i < |shorter| && 0 <= j < |shorter[i].1|
        ensures Carries(index(shorter[i].0), shorter[i].1[j])
      {
        assert Carries(index(longer[i].0), longer[i].1[j]);
      }
      forall j | 0 <= j < |expected[t].1| ensures Carries(index(expected[t].0), expected[t].1[j]) {
        assert Carries(index(longer[t].0), longer[t].1[j]);
      }
    }
  }

  predicate AllBorn(ids: seq<EntityID>, g: GraphState) {
    forall i :: 0 <= i < |ids| ==> ids[i] in g
  }

  /** Polls until every planned entity is queryable: a publish acknowledged is not a world materialized. */
  method AwaitEntitiesBorn(ids: seq<EntityID>, views: seq<GraphState>) returns (ok: bool)
    ensures ok <==> exists k :: 0 <= k < |views| && AllBorn(ids, views[k])
  {
    for k := 0 to |views|
      invariant forall v :: 0 <= v < k ==> !AllBorn(ids, views[v])
    {
      var missing: seq<EntityID> := [];
      for i := 0 to |ids|
        invariant missing == [] <==> forall j :: 0 <= j < i ==> ids[j] in views[k]
      {
        if ids[i] !in views[k] {
          missing := missing + [ids[i]];
        }
      }
      assert missing == [] <==> AllBorn(ids, views[k]);
      if missing == [] {
        return true;
      }
    }
    ok := false;
  }

  // ---- One boot ------------------------------------------------------------

  /** What one boot's polls get to read, within their bounds. */
  datatype Observations = Observations(
    imported: bool,
    born: seq<GraphState>,
    indexed: seq<EntityID -> Incoming>,
    marker: seq<GraphState>,
    ownIndex: seq<EntityID -> Incoming>)

  predicate Indexed(expected: seq<(EntityID, seq<EntityID>)>, views: seq<EntityID -> Incoming>) {
    expected != [] && exists k :: 0 <= k < |views| && EdgesPresent(expected, views[k])
  }

  /** The import finished, and was read back entity by entity and edge by edge. */
  predicate WorldWhole(ids: seq<EntityID>, expected: seq<(EntityID, seq<EntityID>)>, o: Observations) {
    o.imported && (exists k :: 0 <= k < |o.born| && AllBorn(ids, o.born[k])) && Indexed(expected, o.indexed)
  }

  /** A fresh boot imports, reads back and only then marks; any other waits for the marker; and both wait
      for their own index before they serve. */
  method Instantiate(
    keeper: GateKeeper, birth: Birth, ids: seq<EntityID>, expected: seq<(EntityID, seq<EntityID>)>,
    o: Observations, at: int) returns (served: bool)
    modifies keeper.store
    ensures var (g, claim) := ClaimOutcome(keeper.gate, old(keeper.store.graph), birth, NextReply(old(keeper.store.replies)));
      if claim == None || !claim.value.answer.isFresh || !WorldWhole(ids, expected, o) then
        && keeper.store.graph == g
        && (served ==>
              && claim.Some? && !claim.value.answer.isFresh
              && Indexed(expected, o.ownIndex)
              && (exists k :: 0 <= k < |o.marker| && CompletionOf(keeper.gate, o.marker[k]).MarkedAt?))
      else
        var (marked, ok) := MarkOutcome(
          keeper.gate, g, claim.value, at, NextReply(Later(old(keeper.store.replies))));
        keeper.store.graph == marked && (served <==> ok && Indexed(expected, o.ownIndex))
  {
    var claim := keeper.Claim(birth);
    if claim == None {
      return false;
    }
    if claim.value.answer.isFresh {
      var whole := ImportWorld(ids, expected, o);
      if !whole {
        return false;
      }
      var marked := keeper.MarkImported(claim.value, at);
      if !marked {
        return false;
      }
    } else {
      var completed := AwaitImportCompletion(keeper.gate, o.marker);
      if completed == None {
        return false;
      }
    }
    served := AwaitMembershipIndexed(expected, o.ownIndex);
  }

  method ImportWorld(ids: seq<EntityID>, expected: seq<(EntityID, seq<EntityID>)>, o: Observations) returns (whole: bool)
    ensures whole <==> WorldWhole(ids, expected, o)
  {
    if !o.imported {
      return false;
    }
    var born := AwaitEntitiesBorn(ids, o.born);
    if !born {
      return false;
    }
    whole := AwaitMembershipIndexed(expected, o.indexed);
  }

  // ---- Racing boots --------------------------------------------------------

  datatype Phase =
    | Importing | AwaitingBirth | AwaitingIndex | AwaitingMark
    | AwaitingMarker | AwaitingOwnIndex | Serving | Stopped

  datatype Boot = Boot(phase: Phase, claim: Option<Instantiation>, edges: set<Edge>)

  /** The graph, what importers have published, every boot, and a log of who imported and read back. */
  datatype World = World(
    graph: GraphState,
    published: set<EntityID>,
    boots: map<BootID, Boot>,
    imported: set<BootID>,
    readBack: set<BootID>)

  datatype Event =
    | Claim(boot: BootID, reply: Reply)
    | Publish(boot: BootID, ids: set<EntityID>)
    | Materialize(id: EntityID, state: EntityState)
    | IndexCatchesUp(boot: BootID, edge: Edge)
    | Check(boot: BootID)
    | Mark(boot: BootID, at: int, reply: Reply)
    | Die(boot: BootID)
    | Environment(next: GraphState)

  /** The run's constants: the gate, the plan, and what each boot would mint. */
  datatype Setting = Setting(gate: Gate, plan: Plan, births: BootID -> Birth)

  ghost predicate LeavesCampaign(setting: Setting, g: GraphState, next: GraphState) {
    && (forall id :: id in g ==> id in next)
    && (setting.gate.campaignID in next ==>
          setting.gate.campaignID in g && next[setting.gate.campaignID] == g[setting.gate.campaignID])
  }

  function ClaimStep(setting: Setting, w: World, boot: BootID, reply: Reply): World {
    var (g', claim) := ClaimOutcome(setting.gate, w.graph, setting.births(boot), reply);
    var phase := match claim
      case None => Stopped
      case Some(c) => if c.answer.isFresh then Importing else AwaitingMarker;
    w.(graph := g', boots := w.boots[boot := Boot(phase, claim, {})])
  }

  function MarkStep(setting: Setting, w: World, boot: BootID, at: int, reply: Reply): World
    requires boot in w.boots && w.boots[boot].claim.Some?
  {
    var (g', ok) := MarkOutcome(setting.gate, w.graph, w.boots[boot].claim.value, at, reply);
    w.(graph := g', boots := w.boots[boot := w.boots[boot].(phase := if ok then AwaitingOwnIndex else Stopped)])
  }

  function Enter(w: World, boot: BootID, phase: Phase): World
    requires boot in w.boots
  {
    w.(boots := w.boots[boot := w.boots[boot].(phase := phase)])
  }

  /** One readback a boot performs now: it moves on only when what it reads is all there. */
  function CheckStep(setting: Setting, w: World, boot: BootID): World
    requires boot in w.boots
  {
    var indexed := setting.plan.edges != {} && setting.plan.edges <= w.boots[boot].edges;
    match w.boots[boot].phase
    case AwaitingBirth => if setting.plan.ids <= w.graph.Keys then Enter(w, boot, AwaitingIndex) else w
    case AwaitingIndex =>
      if indexed then Enter(w, boot, AwaitingMark).(readBack := w.readBack + {boot}) else w
    case AwaitingMarker =>
      if CompletionOf(setting.gate, w.graph).MarkedAt? then Enter(w, boot, AwaitingOwnIndex) else w
    case AwaitingOwnIndex => if indexed then Enter(w, boot, Serving) else w
    case _ => w
  }

  function PublishStep(setting: Setting, w: World, boot: BootID, ids: set<EntityID>): World
    requires boot in w.boots
  {
    var w' := w.(published := w.published + ids, imported := w.imported + {boot});
    if setting.plan.ids <= ids then Enter(w', boot, AwaitingBirth) else Enter(w', boot, Stopped)
  }

  ghost function Step(setting: Setting, w: World, event: Event): World {
    match event
    case Claim(boot, reply) => if boot in w.boots then w else ClaimStep(setting, w, boot, reply)
    case Publish(boot, ids) =>
      if boot in w.boots && w.boots[boot].phase == Importing && ids <= setting.plan.ids
      then PublishStep(setting, w, boot, ids) else w
    case Materialize(id, state) =>
      if id in w.published && id != setting.gate.campaignID then w.(graph := w.graph[id := state]) else w
    case IndexCatchesUp(boot, edge) =>
      if boot in w.boots then w.(boots := w.boots[boot := w.boots[boot].(edges := w.boots[boot].edges + {edge})]) else w
    case Check(boot) => if boot in w.boots then CheckStep(setting, w, boot) else w
    case Mark(boot, at, reply) =>
      if boot in w.boots && w.boots[boot].phase == AwaitingMark && w.boots[boot].claim.Some?
      then MarkStep(setting, w, boot, at, reply) else w
    case Die(boot) => if boot in w.boots then Enter(w, boot, Stopped) else w
    case Environment(next) => if LeavesCampaign(setting, w.graph, next) then w.(graph := next) else w
  }

  ghost function Run(setting: Setting, w: World, events: seq<Event>): World {
    if events == [] then w
    else Step(setting, Run(setting, w, events[..|events| - 1]), events[|events| - 1])
  }

  function Start(g: GraphState): World {
    World(g, {}, map[], {}, {})
  }

  // ---- The invariant -------------------------------------------------------

  predicate WonBy(w: World, boot: BootID) {
    boot in w.boots && w.boots[boot].claim.Some? && w.boots[boot].claim.value.answer.isFresh
  }

  ghost predicate BootSound(setting: Setting, w: World, boot: BootID, b: Boot) {
    && (b.claim.Some? ==>
          && setting.gate.campaignID in w.graph
          && b.claim.value == Sealed(b.claim.value.answer)
          && StoredInstantiation(setting.gate, w.graph[setting.gate.campaignID]) ==
             Some((b.claim.value.answer.seed, b.claim.value.answer.experience))
          && (b.claim.value.answer.isFresh ==>
                BornAs(setting.gate, w.graph[setting.gate.campaignID], setting.births(boot))))
    && (b.phase != Stopped ==> b.claim.Some?)
    && (b.phase in {Importing, AwaitingBirth, AwaitingIndex, AwaitingMark} ==> b.claim.value.answer.isFresh)
    && (b.phase in {AwaitingBirth, AwaitingIndex, AwaitingMark} ==> boot in w.imported)
    && (b.phase in {AwaitingIndex, AwaitingMark} ==> setting.plan.ids <= w.graph.Keys)
    && (b.phase == AwaitingMark ==> boot in w.readBack)
    && (b.phase in {AwaitingOwnIndex, Serving} ==> Complete(setting, w))
  }

  /** Some boot that won the create imported the world and read all of it back. */
  ghost predicate Complete(setting: Setting, w: World) {
    && setting.plan.ids <= w.graph.Keys
    && exists boot :: WonBy(w, boot) && boot in w.imported && boot in w.readBack
  }

  predicate Marked(setting: Setting, g: GraphState) {
    setting.gate.campaignID in g && TriplesOf(g[setting.gate.campaignID], CampaignImportCompleted) != []
  }

  ghost predicate Inv(setting: Setting, w: World) {
    && (forall boot :: boot in w.boots ==> BootSound(setting, w, boot, w.boots[boot]))
    && (forall boot :: boot in w.imported ==> WonBy(w, boot))
    && (Marked(setting, w.graph) ==> Complete(setting, w))
  }

  /** A step that moved neither the campaign nor any answer, and lost no entity and no log entry. */
  ghost predicate Quiet(setting: Setting, w: World, w': World) {
    && w.graph.Keys <= w'.graph.Keys
    && (setting.gate.campaignID in w.graph ==> w'.graph[setting.gate.campaignID] == w.graph[setting.gate.campaignID])
    && (setting.gate.campaignID in w'.graph ==> setting.gate.campaignID in w.graph)
    && (forall boot :: boot in w.boots ==> boot in w'.boots && w'.boots[boot].claim == w.boots[boot].claim)
    && w.imported <= w'.imported && w.readBack <= w'.readBack
  }

  lemma QuietKeeps(setting: Setting, w: World, w': World, mover: BootID)
    requires Inv(setting, w) && Quiet(setting, w, w')
    requires forall boot :: boot in w'.boots && boot != mover ==>
               boot in w.boots && w'.boots[boot].phase == w.boots[boot].phase
    requires mover in w'.boots ==> BootSound(setting, w', mover, w'.boots[mover])
    requires forall boot :: boot in w'.imported ==> WonBy(w', boot)
    ensures Inv(setting, w')
  {
    if Complete(setting, w) {
      var boot :| WonBy(w, boot) && boot in w.imported && boot in w.readBack;
      assert WonBy(w', boot);
    }
    forall boot | boot in w'.boots ensures BootSound(setting, w', boot, w'.boots[boot]) {
      if boot != mover {
        assert BootSound(setting, w, boot, w.boots[boot]);
      }
    }
  }

  // ---- Creating and marking ------------------------------------------------

  lemma {:induction false} WithinCount(s: seq<Triple>, group: set<Predicate>, t: Triple)
    ensures multiset(Within(s, group))[t] == if t.pred in group then multiset(s)[t] else 0
  {
    if s != [] {
      WithinCount(s[1..], group, t);
      assert s == [s[0]] + s[1..];
    }
  }

  /** Rearranging an entity's facts does not change a predicate that holds one. */
  lemma SoleTripleOfMultiset(s: EntityState, t: EntityState, p: Predicate, x: Triple)
    requires multiset(s) == multiset(t) && TriplesOf(t, p) == [x]
    ensures TriplesOf(s, p) == [x]
  {
    forall y ensures multiset(TriplesOf(s, p))[y] == multiset(TriplesOf(t, p))[y] {
      WithinCount(s, {p}, y);
      WithinCount(t, {p}, y);
    }
    assert multiset(TriplesOf(s, p)) == multiset([x]);
    assert |TriplesOf(s, p)| == |multiset(TriplesOf(s, p))| == 1;
    assert TriplesOf(s, p)[0] in multiset(TriplesOf(s, p));
  }

  lemma MatchIsBorn(gate: Gate, s: EntityState, birth: Birth)
    requires BirthMatches(s, BirthTriples(gate, birth))
    ensures BornAs(gate, s, birth)
    ensures TriplesOf(s, CampaignImportCompleted) == []
  {
    var b := BirthTriples(gate, birth);
    BirthFacts(gate, birth);
    SoleTripleOfMultiset(s, b, CampaignSeedValue, b[0]);
    SoleTripleOfMultiset(s, b, CampaignExperiencePersonaPack, b[1]);
    SoleTripleOfMultiset(s, b, CampaignExperienceMechanicsPack, b[2]);
    forall t | t in s ensures t.pred != CampaignImportCompleted {
      assert t in multiset(s);
      assert t in multiset(b);
    }
    WithinNothing(s, {CampaignImportCompleted});
  }

  /** Facts born of two births at once were born of one. */
  lemma BornOnce(gate: Gate, s: EntityState, a: Birth, b: Birth)
    requires BornAs(gate, s, a) && BornAs(gate, s, b)
    ensures a == b
  {
    assert BirthTriples(gate, a)[0] == BirthTriples(gate, b)[0];
    assert BirthTriples(gate, a)[1] == BirthTriples(gate, b)[1];
    assert BirthTriples(gate, a)[2] == BirthTriples(gate, b)[2];
  }

  /** A claim never moves an existing campaign; an answer is always what is stored. */
  lemma ClaimReads(gate: Gate, g: GraphState, birth: Birth, reply: Reply)
    ensures var (g', claim) := ClaimOutcome(gate, g, birth, reply);
      && (g' == g || (gate.campaignID !in g && g' == g[gate.campaignID := BirthTriples(gate, birth)]))
      && (claim.Some? ==>
            && gate.campaignID in g'
            && claim.value == Sealed(claim.value.answer)
            && StoredInstantiation(gate, g'[gate.campaignID]) ==
               Some((claim.value.answer.seed, claim.value.answer.experience))
            && (claim.value.answer.isFresh ==> BirthMatches(g'[gate.campaignID], BirthTriples(gate, birth))))
  {
    CreateKeeps(g, gate.campaignID, BirthTriples(gate, birth), reply);
  }

  lemma ClaimKeeps(setting: Setting, w: World, boot: BootID, reply: Reply)
    requires Inv(setting, w) && boot !in w.boots
    ensures Inv(setting, ClaimStep(setting, w, boot, reply))
  {
    var gate, birth, w' := setting.gate, setting.births(boot), ClaimStep(setting, w, boot, reply);
    ClaimReads(gate, w.graph, birth, reply);
    if gate.campaignID in w'.graph && BirthMatches(w'.graph[gate.campaignID], BirthTriples(gate, birth)) {
      MatchIsBorn(gate, w'.graph[gate.campaignID], birth);
    }
    assert BootSound(setting, w', boot, w'.boots[boot]);
    if w'.graph == w.graph {
      QuietKeeps(setting, w, w', boot);
    } else {
      assert forall b :: b in w.boots ==> w.boots[b].claim == None && w.boots[b].phase == Stopped by {
        forall b | b in w.boots ensures w.boots[b].claim == None && w.boots[b].phase == Stopped {
          assert BootSound(setting, w, b, w.boots[b]);
        }
      }
      assert BirthMatches(BirthTriples(gate, birth), BirthTriples(gate, birth));
    }
  }

  /** Marking touches the marker alone: the provenance reads as it did. */
  lemma MarkLeavesProvenance(setting: Setting, g: GraphState, claim: Instantiation, at: int, reply: Reply)
    requires setting.gate.campaignID in g
    ensures var g' := MarkOutcome(setting.gate, g, claim, at, reply).0;
      && g'.Keys == g.Keys
      && StoredInstantiation(setting.gate, g'[setting.gate.campaignID]) ==
         StoredInstantiation(setting.gate, g[setting.gate.campaignID])
      && (forall birth :: BornAs(setting.gate, g[setting.gate.campaignID], birth) ==>
            BornAs(setting.gate, g'[setting.gate.campaignID], birth))
  {
    ReconcileObjects(g, CAMPAIGN_IMPORT, setting.gate.campaignID, [MarkerTriple(setting.gate, at)], reply);
  }

  lemma MarkKeeps(setting: Setting, w: World, boot: BootID, at: int, reply: Reply)
    requires Inv(setting, w) && boot in w.boots && w.boots[boot].phase == AwaitingMark && w.boots[boot].claim.Some?
    ensures Inv(setting, MarkStep(setting, w, boot, at, reply))
  {
    var w' := MarkStep(setting, w, boot, at, reply);
    assert BootSound(setting, w, boot, w.boots[boot]);
    MarkLeavesProvenance(setting, w.graph, w.boots[boot].claim.value, at, reply);
    assert WonBy(w', boot) && Complete(setting, w');
    forall b | b in w'.boots ensures BootSound(setting, w', b, w'.boots[b]) {
      SoundAfterMark(setting, w, boot, at, reply, b);
    }
    forall b | b in w'.imported ensures WonBy(w', b) {
      assert WonBy(w, b);
    }
  }

  lemma SoundAfterMark(setting: Setting, w: World, boot: BootID, at: int, reply: Reply, b: BootID)
    requires Inv(setting, w) && boot in w.boots && w.boots[boot].phase == AwaitingMark && w.boots[boot].claim.Some?
    requires b in w.boots && Complete(setting, MarkStep(setting, w, boot, at, reply))
    ensures BootSound(setting, MarkStep(setting, w, boot, at, reply), b, MarkStep(setting, w, boot, at, reply).boots[b])
  {
    assert BootSound(setting, w, b, w.boots[b]);
    if setting.gate.campaignID in w.graph {
      MarkLeavesProvenance(setting, w.graph, w.boots[boot].claim.value, at, reply);
    }
  }

  // ---- Every step keeps it -------------------------------------------------

  lemma CheckIsQuiet(setting: Setting, w: World, boot: BootID)
    requires boot in w.boots
    ensures Quiet(setting, w, CheckStep(setting, w, boot))
    ensures CheckStep(setting, w, boot).graph == w.graph && CheckStep(setting, w, boot).imported == w.imported
    ensures forall b :: b in w.boots ==> WonBy(CheckStep(setting, w, boot), b) == WonBy(w, b)
  {}

  lemma CheckSound(setting: Setting, w: World, boot: BootID)
    requires Inv(setting, w) && boot in w.boots
    ensures BootSound(setting, CheckStep(setting, w, boot), boot, CheckStep(setting, w, boot).boots[boot])
  {
    var w' := CheckStep(setting, w, boot);
    CheckIsQuiet(setting, w, boot);
    assert BootSound(setting, w, boot, w.boots[boot]);
    if Complete(setting, w) {
      var b :| WonBy(w, b) && b in w.imported && b in w.readBack;
      assert WonBy(w', b);
    }
  }

  lemma CheckKeeps(setting: Setting, w: World, boot: BootID)
    requires Inv(setting, w) && boot in w.boots
    ensures Inv(setting, CheckStep(setting, w, boot))
  {
    var w' := CheckStep(setting, w, boot);
    CheckIsQuiet(setting, w, boot);
    CheckSound(setting, w, boot);
    forall b | b in w'.imported ensures WonBy(w', b) {
      assert WonBy(w, b);
    }
    QuietKeeps(setting, w, w', boot);
  }

  lemma PublishKeeps(setting: Setting, w: World, boot: BootID, ids: set<EntityID>)
    requires Inv(setting, w) && boot in w.boots && w.boots[boot].phase == Importing
    ensures Inv(setting, PublishStep(setting, w, boot, ids))
  {
    var w' := PublishStep(setting, w, boot, ids);
    assert BootSound(setting, w, boot, w.boots[boot]);
    forall b | b in w'.imported ensures WonBy(w', b) {
      assert b != boot ==> WonBy(w, b);
    }
    QuietKeeps(setting, w, w', boot);
  }

  lemma StillKeeps(setting: Setting, w: World, w': World)
    requires Inv(setting, w) && Quiet(setting, w, w') && w'.boots == w.boots && w'.imported == w.imported
    ensures Inv(setting, w')
  {
    forall b | b in w'.imported ensures WonBy(w', b) {
      assert WonBy(w, b);
    }
    if boot :| boot in w.boots {
      assert BootSound(setting, w, boot, w.boots[boot]);
      if Complete(setting, w) {
        var b :| WonBy(w, b) && b in w.imported && b in w.readBack;
        assert WonBy(w', b);
      }
      QuietKeeps(setting, w, w', boot);
    }
  }

  lemma BootMovesKeeps(setting: Setting, w: World, boot: BootID, b: Boot)
    requires Inv(setting, w) && boot in w.boots
    requires b.claim == w.boots[boot].claim && (b.phase == w.boots[boot].phase || b.phase == Stopped)
    ensures Inv(setting, w.(boots := w.boots[boot := b]))
  {
    var w' := w.(boots := w.boots[boot := b]);
    assert BootSound(setting, w, boot, w.boots[boot]);
    if Complete(setting, w) {
      var winner :| WonBy(w, winner) && winner in w.imported && winner in w.readBack;
      assert WonBy(w', winner);
    }
    forall other | other in w'.imported ensures WonBy(w', other) {
      assert WonBy(w, other);
    }
    QuietKeeps(setting, w, w', boot);
  }

  lemma StepKeeps(setting: Setting, w: World, event: Event)
    requires Inv(setting, w)
    ensures Inv(setting, Step(setting, w, event))
  {
    match event
    case Claim(boot, reply) => if boot !in w.boots { ClaimKeeps(setting, w, boot, reply); }
    case Publish(boot, ids) =>
      if boot in w.boots && w.boots[boot].phase == Importing { PublishKeeps(setting, w, boot, ids); }
    case Materialize(id, state) =>
      if id in w.published && id != setting.gate.campaignID {
        StillKeeps(setting, w, w.(graph := w.graph[id := state]));
      }
    case IndexCatchesUp(boot, edge) =>
      if boot in w.boots {
        BootMovesKeeps(setting, w, boot, w.boots[boot].(edges := w.boots[boot].edges + {edge}));
      }
    case Check(boot) => if boot in w.boots { CheckKeeps(setting, w, boot); }
    case Mark(boot, at, reply) =>
      if boot in w.boots && w.boots[boot].phase == AwaitingMark && w.boots[boot].claim.Some? {
        MarkKeeps(setting, w, boot, at, reply);
      }
    case Die(boot) => if boot in w.boots { BootMovesKeeps(setting, w, boot, w.boots[boot].(phase := Stopped)); }
    case Environment(next) =>
      if LeavesCampaign(setting, w.graph, next) { StillKeeps(setting, w, w.(graph := next)); }
  }

  lemma {:induction false} RunKeeps(setting: Setting, g: GraphState, events: seq<Event>)
    requires setting.gate.campaignID !in g
    ensures Inv(setting, Run(setting, Start(g), events))
    decreases |events|
  {
    if events != [] {
      var earlier := events[..|events| - 1];
      RunKeeps(setting, g, earlier);
      StepKeeps(setting, Run(setting, Start(g), earlier), events[|events| - 1]);
    }
  }

  // ---- Main results --------------------------------------------------------

  /** All boots that won share one birth, and with distinct births that is one boot. */
  lemma WinnersShareABirth(setting: Setting, g: GraphState, events: seq<Event>, a: BootID, b: BootID)
    requires setting.gate.campaignID !in g
    requires WonBy(Run(setting, Start(g), events), a) && WonBy(Run(setting, Start(g), events), b)
    ensures setting.births(a) == setting.births(b)
  {
    var w := Run(setting, Start(g), events);
    RunKeeps(setting, g, events);
    assert BootSound(setting, w, a, w.boots[a]) && BootSound(setting, w, b, w.boots[b]);
    BornOnce(setting.gate, w.graph[setting.gate.campaignID], setting.births(a), setting.births(b));
  }

  lemma AtMostOneWinner(setting: Setting, g: GraphState, events: seq<Event>, a: BootID, b: BootID)
    requires setting.gate.campaignID !in g
    requires forall x, y :: setting.births(x) == setting.births(y) ==> x == y
    requires WonBy(Run(setting, Start(g), events), a) && WonBy(Run(setting, Start(g), events), b)
    ensures a == b
  {
    WinnersShareABirth(setting, g, events, a, b);
  }

  /** The commit-unknown readback is what makes this exact: two boots can both be told they created
      the campaign precisely when they minted the very same birth. */
  lemma TwoWinnersExactlyOnEqualBirths(setting: Setting, g: GraphState, a: BootID, b: BootID)
    requires setting.gate.campaignID !in g && a != b
    requires setting.gate.seedValid(setting.births(a).seed) && setting.gate.experienceValid(setting.births(a).experience)
    ensures (exists events :: BothWon(setting, g, events, a, b)) <==> setting.births(a) == setting.births(b)
  {
    if events :| BothWon(setting, g, events, a, b) {
      WinnersShareABirth(setting, g, events, a, b);
    }
    if setting.births(a) == setting.births(b) {
      var events := BothWin(setting, g, a, b);
    }
  }

  ghost predicate BothWon(setting: Setting, g: GraphState, events: seq<Event>, a: BootID, b: BootID) {
    WonBy(Run(setting, Start(g), events), a) && WonBy(Run(setting, Start(g), events), b)
  }

  lemma BothWin(setting: Setting, g: GraphState, a: BootID, b: BootID) returns (events: seq<Event>)
    requires setting.gate.campaignID !in g && a != b && setting.births(a) == setting.births(b)
    requires setting.gate.seedValid(setting.births(a).seed) && setting.gate.experienceValid(setting.births(a).experience)
    ensures BothWon(setting, g, events, a, b)
  {
    events := [Claim(a, Committed), Claim(b, CommitUnknown(false, true))];
    var birth := setting.births(a);
    BirthReadsBack(setting.gate, birth);
    assert events[..1] == [events[0]] && [events[0]][..0] == [];
    var w1 := Step(setting, Start(g), events[0]);
    assert Run(setting, Start(g), [events[0]]) == w1;
    assert w1.graph == g[setting.gate.campaignID := BirthTriples(setting.gate, birth)];
    assert Run(setting, Start(g), events) == Step(setting, w1, events[1]);
  }

  /** Every boot that got an answer, then or ever after, got the one stored seed and experience. */
  lemma AnswersAgree(setting: Setting, g: GraphState, events: seq<Event>, k: nat, a: BootID, b: BootID)
    requires setting.gate.campaignID !in g && k <= |events|
    requires var earlier := Run(setting, Start(g), events[..k]); a in earlier.boots && earlier.boots[a].claim.Some?
    requires var w := Run(setting, Start(g), events); b in w.boots && w.boots[b].claim.Some?
    ensures var earlier, w := Run(setting, Start(g), events[..k]), Run(setting, Start(g), events);
      && earlier.boots[a].claim.value.answer.seed == w.boots[b].claim.value.answer.seed
      && earlier.boots[a].claim.value.answer.experience == w.boots[b].claim.value.answer.experience
      && setting.gate.campaignID in w.graph
      && StoredInstantiation(setting.gate, w.graph[setting.gate.campaignID]) ==
         Some((w.boots[b].claim.value.answer.seed, w.boots[b].claim.value.answer.experience))
  {
    var earlier, w := Run(setting, Start(g), events[..k]), Run(setting, Start(g), events);
    RunKeeps(setting, g, events);
    AnswersStay(setting, g, events, k, a);
    assert BootSound(setting, w, a, w.boots[a]) && BootSound(setting, w, b, w.boots[b]);
  }

  lemma AnswerStays(setting: Setting, w: World, event: Event, a: BootID)
    requires a in w.boots
    ensures a in Step(setting, w, event).boots && Step(setting, w, event).boots[a].claim == w.boots[a].claim
  {}

  lemma {:induction false} AnswersStay(setting: Setting, g: GraphState, events: seq<Event>, k: nat, a: BootID)
    requires k <= |events| && a in Run(setting, Start(g), events[..k]).boots
    ensures var earlier, w := Run(setting, Start(g), events[..k]), Run(setting, Start(g), events);
      a in w.boots && w.boots[a].claim == earlier.boots[a].claim
    decreases |events|
  {
    if k < |events| {
      var init := events[..|events| - 1];
      assert init[..k] == events[..k];
      AnswersStay(setting, g, init, k, a);
      AnswerStays(setting, Run(setting, Start(g), init), events[|events| - 1], a);
    } else {
      assert events[..k] == events;
    }
  }

  /** Only a boot that created the campaign ever imports, a marker means such an import finished and was
      read back entity by entity and edge by edge, and nobody serves an unmarked world. */
  lemma MarkerMeansImported(setting: Setting, g: GraphState, events: seq<Event>)
    requires setting.gate.campaignID !in g
    ensures var w := Run(setting, Start(g), events);
      && (forall boot :: boot in w.imported ==> WonBy(w, boot))
      && (Marked(setting, w.graph) || (exists boot :: boot in w.boots && w.boots[boot].phase == Serving) ==>
            && setting.plan.ids <= w.graph.Keys
            && exists boot :: WonBy(w, boot) && boot in w.imported && boot in w.readBack)
  {
    var w := Run(setting, Start(g), events);
    RunKeeps(setting, g, events);
    if boot :| boot in w.boots && w.boots[boot].phase == Serving {
      assert BootSound(setting, w, boot, w.boots[boot]);
    }
  }
}
