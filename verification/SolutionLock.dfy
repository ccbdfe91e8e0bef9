/** Solution material over whole runs: grants race with each other and with the case's
    lifecycle, each from a snapshot that may be stale entity by entity. */
module SolutionLock {
  import opened Wrappers
  import opened Vocabulary
  import opened Graph
  import opened CaseDecisions
  import opened KnowledgeAuthorizer
  import opened KnowledgeLoader

  type Worker = nat

  /** Everything the graph has been, oldest first, and what each running grant still has to write. */
  datatype World = World(history: seq<GraphState>, pending: map<Worker, seq<Entry>>)

  datatype Event =
    | Load(worker: Worker, turn: EntityID, view: GraphState, sources: Sources, policies: Policies)
    | Grant(worker: Worker, entry: nat, id: EntityID, birth: EntityState, reply: Reply)
    | Crash(worker: Worker)
    | Environment(next: GraphState)

  function Now(w: World): GraphState
    requires w.history != []
  {
    w.history[|w.history| - 1]
  }

  /** Each entity of a loaded view is that entity as it stood at some moment, not all at one moment. */
  ghost predicate PastView(history: seq<GraphState>, view: GraphState) {
    forall id :: id in view ==> exists k :: 0 <= k < |history| && id in history[k] && history[k][id] == view[id]
  }

  predicate AtDenouement(g: GraphState, caseID: EntityID) {
    caseID in g && CurrentPhase(g[caseID]) == Some(Denouement)
  }

  function Secret(g: GraphState, caseID: EntityID): set<EntityID> {
    SolutionEvidence(Lookup(g, caseID))
  }

  /** The evidence an entity grants or reveals. */
  predicate Mentions(state: EntityState, evidence: EntityID) {
    evidence in Strings(state, KnowledgeEvidenceRef) || evidence in Strings(state, RevelationEvidenceRef)
  }

  /** The entity grants somebody a piece of the secret, or records that it was revealed. */
  ghost predicate Reveals(state: EntityState, secret: set<EntityID>) {
    exists x :: Mentions(state, x) && x in secret
  }

  /** Every writer but the granter: the lifecycle never leaves denouement, the authored solution
      is immutable, and nobody else records knowledge. */
  ghost predicate Lawful(caseID: EntityID, g: GraphState, next: GraphState) {
    && (caseID in g ==> caseID in next)
    && Secret(next, caseID) == Secret(g, caseID)
    && (AtDenouement(g, caseID) ==> AtDenouement(next, caseID))
    && (forall id :: id in next && Reveals(next[id], Secret(g, caseID)) ==>
          id in g && Reveals(g[id], Secret(g, caseID)))
  }

  /** A knowledge or revelation entity born for one entry names that entry's evidence and no other. */
  ghost predicate IsGrantBirth(entry: Entry, birth: EntityState) {
    forall x :: Mentions(birth, x) <==> x == entry.evidence
  }

  function PendingOf(w: World, worker: Worker): seq<Entry> {
    if worker in w.pending then w.pending[worker] else []
  }

  /** What a load lets through: the authorized entries, none when anything objects. */
  function PlanOf(loaded: Result<LoadResult, LoadError>, policies: Policies): seq<Entry> {
    if loaded.Err? || loaded.value.NotApplicable? then []
    else match AuthorizeWithWitnesses(loaded.value.preflight, policies)
      case Ok(entries) => entries
      case Err(_) => []
  }

  function PlanFrom(caseID: EntityID, view: GraphState, sources: Sources, turn: EntityID, policies: Policies): seq<Entry> {
    PlanOf(LoadOf(view, sources, caseID, turn), policies)
  }

  function LoadStep(caseID: EntityID, w: World, e: Event): World
    requires e.Load?
  {
    w.(pending := w.pending[e.worker := PlanFrom(caseID, e.view, e.sources, e.turn, e.policies)])
  }

  /** A grant creates the entities of its entries; a failed create ends it. */
  function GrantStep(w: World, e: Event): World
    requires e.Grant? && w.history != [] && e.entry < |PendingOf(w, e.worker)|
  {
    var (g', created) := CreateOutcome(Now(w), e.id, e.birth, e.reply);
    World(w.history + [g'], if created == CreateFailed then w.pending[e.worker := []] else w.pending)
  }

  ghost function Step(caseID: EntityID, w: World, e: Event): World {
    match e
    case Load(worker, turn, view, sources, policies) =>
      if PendingOf(w, worker) == [] && PastView(w.history, view) then LoadStep(caseID, w, e) else w
    case Grant(worker, entry, id, birth, reply) =>
      if w.history != [] && entry < |PendingOf(w, worker)| && IsGrantBirth(PendingOf(w, worker)[entry], birth)
      then GrantStep(w, e) else w
    case Crash(worker) => w.(pending := w.pending[worker := []])
    case Environment(next) =>
      if w.history != [] && Lawful(caseID, Now(w), next) then w.(history := w.history + [next]) else w
  }

  ghost function Run(caseID: EntityID, w: World, events: seq<Event>): World {
    if events == [] then w
    else Step(caseID, Run(caseID, w, events[..|events| - 1]), events[|events| - 1])
  }

  // ---- The invariant -------------------------------------------------------

  /** Before the denouement no entity grants evidence the case's solution names. */
  ghost predicate Locked(g: GraphState, caseID: EntityID) {
    AtDenouement(g, caseID) || forall id :: id in g ==> !Reveals(g[id], Secret(g, caseID))
  }

  ghost predicate HistoryInv(caseID: EntityID, secret: set<EntityID>, history: seq<GraphState>) {
    && history != []
    && (forall k :: 0 <= k < |history| ==>
          caseID in history[k] && Secret(history[k], caseID) == secret && Locked(history[k], caseID))
    && (forall k :: 0 <= k < |history| && AtDenouement(history[k], caseID) ==>
          AtDenouement(history[|history| - 1], caseID))
  }

  ghost predicate PendingSafe(caseID: EntityID, secret: set<EntityID>, g: GraphState, entries: seq<Entry>) {
    forall i :: 0 <= i < |entries| && entries[i].evidence in secret ==> AtDenouement(g, caseID)
  }

  ghost predicate Inv(caseID: EntityID, secret: set<EntityID>, w: World) {
    && HistoryInv(caseID, secret, w.history)
    && forall worker :: PendingSafe(caseID, secret, Now(w), PendingOf(w, worker))
  }

  /** A pair a stale view says is known was granted in some past graph, so by then the lock was open. */
  lemma KnownSolutionOpens(
    caseID: EntityID, secret: set<EntityID>, history: seq<GraphState>, view: GraphState,
    actor: EntityID, ids: seq<EntityID>, pair: ActorEvidence)
    requires HistoryInv(caseID, secret, history) && PastView(history, view)
    requires KnownOf(view, actor, ids).Some? && pair in KnownOf(view, actor, ids).value
    requires pair.evidence in secret
    ensures AtDenouement(history[|history| - 1], caseID)
  {
    KnownIsRecorded(view, actor, ids, pair);
    var i :| 0 <= i < |ids| && ids[i] in view && SoleString(view[ids[i]], KnowledgeEvidenceRef) == Some(pair.evidence);
    var k :| 0 <= k < |history| && ids[i] in history[k] && history[k][ids[i]] == view[ids[i]];
    assert Mentions(history[k][ids[i]], pair.evidence);
    assert Reveals(history[k][ids[i]], secret);
    assert Locked(history[k], caseID);
  }

  lemma PhaseReadOpens(
    caseID: EntityID, secret: set<EntityID>, history: seq<GraphState>, view: GraphState, phase: CasePhase)
    requires HistoryInv(caseID, secret, history) && PastView(history, view)
    requires caseID in view && CurrentPhase(view[caseID]) == Some(phase)
    ensures SolutionEvidence(view[caseID]) == secret
    ensures phase == Denouement ==> AtDenouement(history[|history| - 1], caseID)
  {
    var k :| 0 <= k < |history| && caseID in history[k] && history[k][caseID] == view[caseID];
    assert Secret(history[k], caseID) == secret;
  }

  lemma KnownReadOpens(
    caseID: EntityID, secret: set<EntityID>, history: seq<GraphState>, view: GraphState,
    sources: Sources, input: Preflight, pair: ActorEvidence)
    requires HistoryInv(caseID, secret, history) && PastView(history, view)
    requires ReadsFrom(view, sources, caseID, input)
    requires pair in input.known && pair.evidence in secret
    ensures AtDenouement(history[|history| - 1], caseID)
  {
    var ids := sources.index(KnowledgeActorHolder, input.actingActor).value;
    KnownSolutionOpens(caseID, secret, history, view, input.actingActor, ids, pair);
  }

  /** The authorizer's guards, read through the loader's snapshot: what it lets through is safe now. */
  lemma AuthorizedIsSafe(
    caseID: EntityID, secret: set<EntityID>, history: seq<GraphState>, view: GraphState,
    sources: Sources, input: Preflight, policies: Policies)
    requires HistoryInv(caseID, secret, history) && PastView(history, view)
    requires ReadsFrom(view, sources, caseID, input)
    requires AuthorizeWithWitnesses(input, policies).Ok?
    ensures PendingSafe(caseID, secret, history[|history| - 1], AuthorizeWithWitnesses(input, policies).value)
  {
    var entries := AuthorizeWithWitnesses(input, policies).value;
    PhaseReadOpens(caseID, secret, history, view, input.casePhase);
    GrantsAreGuarded(input, policies);
    forall i | 0 <= i < |entries| && entries[i].evidence in secret
      ensures AtDenouement(history[|history| - 1], caseID)
    {
      if input.casePhase != Denouement {
        KnownReadOpens(caseID, secret, history, view, sources, input, ActorEvidence(input.actingActor, entries[i].evidence));
      }
    }
  }

  lemma LoadKeeps(caseID: EntityID, secret: set<EntityID>, w: World, e: Event)
    requires e.Load? && Inv(caseID, secret, w) && PastView(w.history, e.view)
    ensures Inv(caseID, secret, LoadStep(caseID, w, e))
  {
    PlanFromIsSafe(caseID, secret, w.history, e.view, e.sources, e.turn, e.policies);
    SafePending(caseID, secret, w, LoadStep(caseID, w, e), e.worker);
  }

  lemma PlanFromIsSafe(
    caseID: EntityID, secret: set<EntityID>, history: seq<GraphState>, view: GraphState,
    sources: Sources, turn: EntityID, policies: Policies)
    requires HistoryInv(caseID, secret, history) && PastView(history, view)
    ensures PendingSafe(caseID, secret, history[|history| - 1], PlanFrom(caseID, view, sources, turn, policies))
  {
    LoadReadsFrom(view, sources, caseID, turn);
    PlanIsSafe(caseID, secret, history, view, sources, LoadOf(view, sources, caseID, turn), policies);
  }

  lemma PlanIsSafe(
    caseID: EntityID, secret: set<EntityID>, history: seq<GraphState>, view: GraphState,
    sources: Sources, loaded: Result<LoadResult, LoadError>, policies: Policies)
    requires HistoryInv(caseID, secret, history) && PastView(history, view)
    requires loaded.Ok? && loaded.value.Applicable? ==> ReadsFrom(view, sources, caseID, loaded.value.preflight)
    ensures PendingSafe(caseID, secret, history[|history| - 1], PlanOf(loaded, policies))
  {
    PlanCases(loaded, policies);
    if PlanOf(loaded, policies) != [] {
      AuthorizedIsSafe(caseID, secret, history, view, sources, loaded.value.preflight, policies);
    }
  }

  lemma PlanCases(loaded: Result<LoadResult, LoadError>, policies: Policies)
    ensures PlanOf(loaded, policies) != [] ==>
              && loaded.Ok? && loaded.value.Applicable?
              && AuthorizeWithWitnesses(loaded.value.preflight, policies).Ok?
              && PlanOf(loaded, policies) == AuthorizeWithWitnesses(loaded.value.preflight, policies).value
  {}

  lemma SafePending(caseID: EntityID, secret: set<EntityID>, w: World, w': World, worker: Worker)
    requires Inv(caseID, secret, w) && HistoryInv(caseID, secret, w'.history)
    requires AtDenouement(Now(w), caseID) ==> AtDenouement(Now(w'), caseID)
    requires PendingSafe(caseID, secret, Now(w'), PendingOf(w', worker))
    requires forall other :: other != worker ==> PendingOf(w', other) == PendingOf(w, other)
    ensures Inv(caseID, secret, w')
  {
    forall other ensures PendingSafe(caseID, secret, Now(w'), PendingOf(w', other)) {
      assert PendingSafe(caseID, secret, Now(w), PendingOf(w, other));
    }
  }

  /** Extending the history by a graph that keeps the lock keeps the invariant. */
  lemma HistoryGrows(caseID: EntityID, secret: set<EntityID>, history: seq<GraphState>, next: GraphState)
    requires HistoryInv(caseID, secret, history)
    requires caseID in next && Secret(next, caseID) == secret && Locked(next, caseID)
    requires AtDenouement(history[|history| - 1], caseID) ==> AtDenouement(next, caseID)
    ensures HistoryInv(caseID, secret, history + [next])
  {
    var longer := history + [next];
    assert forall k :: 0 <= k < |history| ==> longer[k] == history[k];
  }

  lemma GrantKeeps(caseID: EntityID, secret: set<EntityID>, w: World, e: Event)
    requires Inv(caseID, secret, w) && e.Grant?
    requires e.entry < |PendingOf(w, e.worker)| && IsGrantBirth(PendingOf(w, e.worker)[e.entry], e.birth)
    ensures Inv(caseID, secret, GrantStep(w, e))
  {
    var g, entry := Now(w), PendingOf(w, e.worker)[e.entry];
    var g' := CreateOutcome(g, e.id, e.birth, e.reply).0;
    assert PendingSafe(caseID, secret, g, PendingOf(w, e.worker));
    CreatedKeepsLock(caseID, secret, g, e.id, e.birth, e.reply, entry);
    HistoryGrows(caseID, secret, w.history, g');
    SafePending(caseID, secret, w, GrantStep(w, e), e.worker);
  }

  lemma CreatedKeepsLock(
    caseID: EntityID, secret: set<EntityID>, g: GraphState, id: EntityID, birth: EntityState, reply: Reply, entry: Entry)
    requires caseID in g && Secret(g, caseID) == secret && Locked(g, caseID)
    requires IsGrantBirth(entry, birth)
    requires entry.evidence in secret ==> AtDenouement(g, caseID)
    ensures var g' := CreateOutcome(g, id, birth, reply).0;
      && caseID in g' && Secret(g', caseID) == secret && Locked(g', caseID)
      && (AtDenouement(g, caseID) ==> AtDenouement(g', caseID))
  {
    CreateKeeps(g, id, birth, reply);
    BirthKeepsLock(caseID, secret, g, id, birth, entry);
  }

  lemma BirthKeepsLock(
    caseID: EntityID, secret: set<EntityID>, g: GraphState, id: EntityID, birth: EntityState, entry: Entry)
    requires caseID in g && Secret(g, caseID) == secret && Locked(g, caseID)
    requires IsGrantBirth(entry, birth)
    requires entry.evidence in secret ==> AtDenouement(g, caseID)
    ensures id !in g ==>
              var g' := g[id := birth];
              Lookup(g', caseID) == Lookup(g, caseID) && Locked(g', caseID)
  {
    var g' := g[id := birth];
    if id !in g && !AtDenouement(g, caseID) {
      forall e | e in g' ensures !Reveals(g'[e], secret) {
        assert e in g ==> !Reveals(g[e], secret);
      }
    }
  }

  lemma EnvironmentKeeps(caseID: EntityID, secret: set<EntityID>, w: World, next: GraphState)
    requires Inv(caseID, secret, w) && Lawful(caseID, Now(w), next)
    ensures Inv(caseID, secret, w.(history := w.history + [next]))
  {
    var g := Now(w);
    assert Locked(next, caseID) by {
      if !AtDenouement(next, caseID) {
        forall id | id in next ensures !Reveals(next[id], secret) {
          assert id in g ==> !Reveals(g[id], secret);
        }
      }
    }
    HistoryGrows(caseID, secret, w.history, next);
    assert PendingSafe(caseID, secret, g, PendingOf(w, 0));
    SafePending(caseID, secret, w, w.(history := w.history + [next]), 0);
  }

  lemma CrashKeeps(caseID: EntityID, secret: set<EntityID>, w: World, worker: Worker)
    requires Inv(caseID, secret, w)
    ensures Inv(caseID, secret, w.(pending := w.pending[worker := []]))
  {
    SafePending(caseID, secret, w, w.(pending := w.pending[worker := []]), worker);
  }

  lemma StepKeeps(caseID: EntityID, secret: set<EntityID>, w: World, e: Event)
    requires Inv(caseID, secret, w)
    ensures Inv(caseID, secret, Step(caseID, w, e))
  {
    match e
    case Load(worker, turn, view, sources, policies) =>
      if PendingOf(w, worker) == [] && PastView(w.history, view) {
        LoadKeeps(caseID, secret, w, e);
      }
    case Grant(worker, entry, id, birth, reply) =>
      if entry < |PendingOf(w, worker)| && IsGrantBirth(PendingOf(w, worker)[entry], birth) {
        GrantKeeps(caseID, secret, w, e);
      }
    case Crash(worker) =>
      CrashKeeps(caseID, secret, w, worker);
    case Environment(next) =>
      if Lawful(caseID, Now(w), next) {
        EnvironmentKeeps(caseID, secret, w, next);
      }
  }

  lemma StartKeeps(caseID: EntityID, g: GraphState)
    requires caseID in g && Locked(g, caseID)
    ensures Inv(caseID, Secret(g, caseID), World([g], map[]))
  {}

  lemma {:induction false} RunKeeps(caseID: EntityID, g: GraphState, events: seq<Event>)
    requires caseID in g && Locked(g, caseID)
    ensures Inv(caseID, Secret(g, caseID), Run(caseID, World([g], map[]), events))
    decreases |events|
  {
    if events == [] {
      StartKeeps(caseID, g);
    } else {
      var earlier := events[..|events| - 1];
      RunKeeps(caseID, g, earlier);
      StepKeeps(caseID, Secret(g, caseID), Run(caseID, World([g], map[]), earlier), events[|events| - 1]);
    }
  }

  /** Solution lock over whole runs: unless the case has reached denouement, no knowledge anybody was ever granted and
      no revelation anybody was ever given names evidence its authored solution names, provided none was authored. */
  lemma SolutionStaysUnknown(caseID: EntityID, g: GraphState, events: seq<Event>, id: EntityID, evidence: EntityID)
    requires caseID in g
    requires forall e :: e in g ==> !Reveals(g[e], Secret(g, caseID))
    ensures var w := Run(caseID, World([g], map[]), events);
      && w.history != []
      && (!AtDenouement(Now(w), caseID) && id in Now(w) &&
          (Text(evidence) in Objects(Now(w)[id], KnowledgeEvidenceRef) ||
           Text(evidence) in Objects(Now(w)[id], RevelationEvidenceRef)) ==>
            evidence !in Secret(g, caseID))
  {
    RunKeeps(caseID, g, events);
    var w := Run(caseID, World([g], map[]), events);
    assert Locked(Now(w), caseID);
    if id in Now(w) {
      StringsAreObjects(Now(w)[id], KnowledgeEvidenceRef, evidence);
      StringsAreObjects(Now(w)[id], RevelationEvidenceRef, evidence);
      assert Mentions(Now(w)[id], evidence) && evidence in Secret(g, caseID) ==> Reveals(Now(w)[id], Secret(g, caseID));
    }
  }
}
