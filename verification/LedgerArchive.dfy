/** The archive as a timed machine: a durable read of the turn's own subject covers everything but
    a race, and the server's de-duplication window covers the race. */
module LedgerArchive {
  import opened Wrappers
  import opened Vocabulary
  import opened Graph
  import opened LedgerManifest

  type Client = nat

  /** Two minutes, in seconds. */
  const DUPLICATE_WINDOW: int := 120

  /** The campaign's turns, whose instance segments name them uniquely. */
  datatype Setting = Setting(grammar: Grammar, campaignID: EntityID, owns: EntityID -> bool)

  datatype Writing =
    | Composed(turn: EntityID, manifest: Manifest)
    | Ready(turn: EntityID, manifest: Manifest, readAt: int)
    | Settled
    | Conflicted

  /** The clock, the graph, every subject's messages, when each identity was last stored, and every writer. */
  datatype World = World(
    now: int,
    graph: GraphState,
    messages: map<string, seq<Manifest>>,
    stored: map<string, int>,
    writers: map<Client, Writing>)

  datatype Event =
    | Tick(elapsed: nat)
    | Composes(client: Client, turn: EntityID)
    | Reads(client: Client)
    | Publishes(client: Client, lands: bool)
    | Crashes(client: Client)
    | Environment(next: GraphState)

  function Subject(w: World, turnID: string): seq<Manifest> {
    if turnID in w.messages then w.messages[turnID] else []
  }

  function ComposeNow(setting: Setting, g: GraphState, turn: EntityID): Option<Manifest> {
    if turn in g then Compose(setting.grammar, setting.campaignID, turn, g[turn]) else None
  }

  /** A terminal turn stops changing on what the ledger reads. */
  ghost predicate LeavesResolved(setting: Setting, g: GraphState, next: GraphState) {
    forall turn :: setting.owns(turn) && ComposeNow(setting, g, turn).Some? ==>
      turn in next && SameFacts(g[turn], next[turn])
  }

  /** The server drops a publish whose identity it stored less than a window ago. */
  function Published(w: World, turnID: string, manifest: Manifest): World {
    if turnID in w.stored && w.now - w.stored[turnID] < DUPLICATE_WINDOW then w
    else w.(messages := w.messages[turnID := Subject(w, turnID) + [manifest]], stored := w.stored[turnID := w.now])
  }

  function ReadStep(setting: Setting, w: World, client: Client): World
    requires client in w.writers && w.writers[client].Composed?
  {
    var a := w.writers[client];
    var resident := Subject(w, setting.grammar.instance(a.turn));
    var next := if resident == [] then Ready(a.turn, a.manifest, w.now)
                else if resident[|resident| - 1] == a.manifest then Settled
                else Conflicted;
    w.(writers := w.writers[client := next])
  }

  function PublishStep(setting: Setting, w: World, client: Client, lands: bool): World
    requires client in w.writers && w.writers[client].Ready?
  {
    var a := w.writers[client];
    var w' := w.(writers := w.writers[client := Settled]);
    if lands then Published(w', setting.grammar.instance(a.turn), a.manifest) else w'
  }

  ghost function Step(setting: Setting, w: World, event: Event): World {
    match event
    case Tick(elapsed) => w.(now := w.now + elapsed)
    case Composes(client, turn) =>
      if client !in w.writers && setting.owns(turn) && ComposeNow(setting, w.graph, turn).Some?
      then w.(writers := w.writers[client := Composed(turn, ComposeNow(setting, w.graph, turn).value)]) else w
    case Reads(client) => if client in w.writers && w.writers[client].Composed? then ReadStep(setting, w, client) else w
    case Publishes(client, lands) =>
      if client in w.writers && w.writers[client].Ready? then PublishStep(setting, w, client, lands) else w
    case Crashes(client) => w.(writers := w.writers - {client})
    case Environment(next) => if LeavesResolved(setting, w.graph, next) then w.(graph := next) else w
  }

  ghost function Run(setting: Setting, w: World, events: seq<Event>): World {
    if events == [] then w
    else Step(setting, Run(setting, w, events[..|events| - 1]), events[|events| - 1])
  }

  function Start(now: int, g: GraphState): World {
    World(now, g, map[], map[], map[])
  }

  /** The writer publishes within one window of the empty read it acted on. */
  predicate Timely(w: World, event: Event) {
    event.Publishes? && event.client in w.writers && w.writers[event.client].Ready? ==>
      w.now - w.writers[event.client].readAt < DUPLICATE_WINDOW
  }

  ghost predicate RunTimely(setting: Setting, w: World, events: seq<Event>) {
    forall k :: 0 <= k < |events| ==> Timely(Run(setting, w, events[..k]), events[k])
  }

  // ---- The invariant -------------------------------------------------------

  predicate WriterSound(setting: Setting, w: World, a: Writing) {
    match a
    case Composed(turn, m) => setting.owns(turn) && ComposeNow(setting, w.graph, turn) == Some(m)
    case Ready(turn, m, readAt) =>
      && setting.owns(turn) && ComposeNow(setting, w.graph, turn) == Some(m)
      && readAt <= w.now
      && var turnID := setting.grammar.instance(turn);
         Subject(w, turnID) != [] ==> turnID in w.stored && readAt <= w.stored[turnID]
    case Settled => true
    case Conflicted => false
  }

  ghost predicate SubjectSound(setting: Setting, w: World, turnID: string) {
    && (turnID in w.stored ==> Subject(w, turnID) != [])
    && (Subject(w, turnID) != [] ==>
      && |Subject(w, turnID)| == 1
      && turnID in w.stored && w.stored[turnID] <= w.now
      && exists turn :: setting.owns(turn) && setting.grammar.instance(turn) == turnID &&
           ComposeNow(setting, w.graph, turn) == Some(Subject(w, turnID)[0]))
  }

  ghost predicate Inv(setting: Setting, w: World) {
    && (forall client :: client in w.writers ==> WriterSound(setting, w, w.writers[client]))
    && (forall turnID :: SubjectSound(setting, w, turnID))
  }

  ghost predicate Unique(setting: Setting) {
    forall a, b :: setting.owns(a) && setting.owns(b) && setting.grammar.instance(a) == setting.grammar.instance(b) ==> a == b
  }

  lemma ReadKeeps(setting: Setting, w: World, client: Client)
    requires Unique(setting) && Inv(setting, w) && client in w.writers && w.writers[client].Composed?
    ensures Inv(setting, ReadStep(setting, w, client))
  {
    var a, w' := w.writers[client], ReadStep(setting, w, client);
    var turnID := setting.grammar.instance(a.turn);
    assert WriterSound(setting, w, a) && SubjectSound(setting, w, turnID);
    if Subject(w, turnID) != [] {
      var turn :| setting.owns(turn) && setting.grammar.instance(turn) == turnID &&
        ComposeNow(setting, w.graph, turn) == Some(Subject(w, turnID)[0]);
      assert turn == a.turn;
    }
    forall c | c in w'.writers ensures WriterSound(setting, w', w'.writers[c]) {
      assert c != client ==> WriterSound(setting, w, w.writers[c]);
    }
    forall id ensures SubjectSound(setting, w', id) {
      assert SubjectSound(setting, w, id) && Subject(w', id) == Subject(w, id);
    }
  }

  lemma PublishKeeps(setting: Setting, w: World, client: Client, lands: bool)
    requires Unique(setting) && Inv(setting, w) && client in w.writers && w.writers[client].Ready?
    requires w.now - w.writers[client].readAt < DUPLICATE_WINDOW
    ensures Inv(setting, PublishStep(setting, w, client, lands))
  {
    var a, w' := w.writers[client], PublishStep(setting, w, client, lands);
    var turnID := setting.grammar.instance(a.turn);
    assert WriterSound(setting, w, a) && SubjectSound(setting, w, turnID);
    assert Subject(w, turnID) != [] ==> Subject(w', turnID) == Subject(w, turnID);
    forall c | c in w'.writers ensures WriterSound(setting, w', w'.writers[c]) {
      assert c != client ==> WriterSound(setting, w, w.writers[c]);
    }
    forall id ensures SubjectSound(setting, w', id) {
      assert SubjectSound(setting, w, id);
      if id != turnID {
        assert Subject(w', id) == Subject(w, id);
      } else if Subject(w, id) == [] && Subject(w', id) != [] {
        assert Subject(w', id) == [a.manifest];
      }
    }
  }

  lemma EnvironmentKeeps(setting: Setting, w: World, next: GraphState)
    requires Inv(setting, w) && LeavesResolved(setting, w.graph, next)
    ensures Inv(setting, w.(graph := next))
  {
    var w' := w.(graph := next);
    forall turn | setting.owns(turn) && ComposeNow(setting, w.graph, turn).Some?
      ensures ComposeNow(setting, next, turn) == ComposeNow(setting, w.graph, turn)
    {
      ComposeReadsOnly(setting.grammar, setting.campaignID, turn, w.graph[turn], next[turn]);
    }
    forall c | c in w'.writers ensures WriterSound(setting, w', w'.writers[c]) {
      assert WriterSound(setting, w, w.writers[c]);
    }
    forall id ensures SubjectSound(setting, w', id) {
      assert SubjectSound(setting, w, id) && Subject(w', id) == Subject(w, id);
    }
  }

  lemma TickKeeps(setting: Setting, w: World, elapsed: nat)
    requires Inv(setting, w)
    ensures Inv(setting, w.(now := w.now + elapsed))
  {
    var w' := w.(now := w.now + elapsed);
    forall c | c in w'.writers ensures WriterSound(setting, w', w'.writers[c]) {
      assert WriterSound(setting, w, w.writers[c]);
    }
    forall id ensures SubjectSound(setting, w', id) {
      assert SubjectSound(setting, w, id) && Subject(w', id) == Subject(w, id);
    }
  }

  lemma WritersChange(setting: Setting, w: World, writers: map<Client, Writing>)
    requires Inv(setting, w)
    requires forall c :: c in writers ==> WriterSound(setting, w, writers[c])
    ensures Inv(setting, w.(writers := writers))
  {
    var w' := w.(writers := writers);
    forall c | c in writers ensures WriterSound(setting, w', writers[c]) {
      assert WriterSound(setting, w, writers[c]);
    }
    forall id ensures SubjectSound(setting, w', id) {
      assert SubjectSound(setting, w, id) && Subject(w', id) == Subject(w, id);
    }
  }

  lemma StepKeeps(setting: Setting, w: World, event: Event)
    requires Unique(setting) && Inv(setting, w) && Timely(w, event)
    ensures Inv(setting, Step(setting, w, event))
  {
    match event
    case Tick(elapsed) => TickKeeps(setting, w, elapsed);
    case Composes(client, turn) =>
      if client !in w.writers && setting.owns(turn) && ComposeNow(setting, w.graph, turn).Some? {
        WritersChange(setting, w, w.writers[client := Composed(turn, ComposeNow(setting, w.graph, turn).value)]);
      }
    case Reads(client) => if client in w.writers && w.writers[client].Composed? { ReadKeeps(setting, w, client); }
    case Publishes(client, lands) =>
      if client in w.writers && w.writers[client].Ready? { PublishKeeps(setting, w, client, lands); }
    case Crashes(client) => WritersChange(setting, w, w.writers - {client});
    case Environment(next) => if LeavesResolved(setting, w.graph, next) { EnvironmentKeeps(setting, w, next); }
  }

  lemma {:induction false} RunKeeps(setting: Setting, now: int, g: GraphState, events: seq<Event>)
    requires Unique(setting) && RunTimely(setting, Start(now, g), events)
    ensures Inv(setting, Run(setting, Start(now, g), events))
    decreases |events|
  {
    if events == [] {
      StartKeeps(setting, now, g);
    } else {
      var earlier, last := events[..|events| - 1], events[|events| - 1];
      forall k | 0 <= k < |earlier| ensures Timely(Run(setting, Start(now, g), earlier[..k]), earlier[k]) {
        assert earlier[..k] == events[..k];
      }
      RunKeeps(setting, now, g, earlier);
      StepKeeps(setting, Run(setting, Start(now, g), earlier), last);
    }
  }

  lemma StartKeeps(setting: Setting, now: int, g: GraphState)
    ensures Inv(setting, Start(now, g))
  {}

  /** Exactly one manifest per turn: for any mix of notifications, redeliveries of any age and
      reconciliation passes, a turn's subject holds at most one message, that message is what the turn
      composes now, and no writer ever finds a conflicting account. */
  lemma OneManifestPerTurn(setting: Setting, now: int, g: GraphState, events: seq<Event>, turn: EntityID, client: Client)
    requires Unique(setting) && setting.owns(turn) && RunTimely(setting, Start(now, g), events)
    ensures var w := Run(setting, Start(now, g), events);
      var resident := Subject(w, setting.grammar.instance(turn));
      && |resident| <= 1
      && (resident != [] ==> ComposeNow(setting, w.graph, turn) == Some(resident[0]))
      && (client in w.writers ==> w.writers[client] != Conflicted)
  {
    RunKeeps(setting, now, g, events);
    var w := Run(setting, Start(now, g), events);
    assert SubjectSound(setting, w, setting.grammar.instance(turn));
    if client in w.writers {
      assert WriterSound(setting, w, w.writers[client]);
    }
  }

  function LateRun(turn: EntityID, late: nat): seq<Event> {
    [Composes(0, turn), Composes(1, turn), Reads(0), Reads(1), Publishes(0, true), Tick(late), Publishes(1, true)]
  }

  /** Neither guard is enough alone: two writers that both read an empty subject archive the turn twice
      exactly when the second publishes a whole window or more after the first. */
  lemma LatePublishDoubles(setting: Setting, now: int, g: GraphState, turn: EntityID, late: nat)
    requires setting.owns(turn) && ComposeNow(setting, g, turn).Some?
    ensures |Subject(Run(setting, Start(now, g), LateRun(turn, late)), setting.grammar.instance(turn))| ==
            if late < DUPLICATE_WINDOW then 1 else 2
  {
    var m, id, events := ComposeNow(setting, g, turn).value, setting.grammar.instance(turn), LateRun(turn, late);
    var w0 := Start(now, g);
    var w1 := World(now, g, map[], map[], map[0 := Composed(turn, m)]);
    var w2 := World(now, g, map[], map[], map[0 := Composed(turn, m), 1 := Composed(turn, m)]);
    var w3 := World(now, g, map[], map[], map[0 := Ready(turn, m, now), 1 := Composed(turn, m)]);
    var w4 := World(now, g, map[], map[], map[0 := Ready(turn, m, now), 1 := Ready(turn, m, now)]);
    assert Step(setting, w0, events[0]) == w1 && Step(setting, w1, events[1]) == w2;
    assert Step(setting, w2, events[2]) == w3 && Step(setting, w3, events[3]) == w4;
    var w7 := SecondPublish(setting, w4, turn, m, late);
    var w5 := Step(setting, w4, events[4]);
    var w6 := Step(setting, w5, events[5]);
    RunBySteps(setting, w0, events, [w0, w1, w2, w3, w4, w5, w6, w7]);
  }

  lemma SecondPublish(setting: Setting, w: World, turn: EntityID, m: Manifest, late: nat) returns (last: World)
    requires w.messages == map[] && w.stored == map[] && 0 in w.writers && 1 in w.writers
    requires w.writers[0] == Ready(turn, m, w.now) && w.writers[1] == Ready(turn, m, w.now)
    ensures last == Step(setting, Step(setting, Step(setting, w, Publishes(0, true)), Tick(late)), Publishes(1, true))
    ensures |Subject(last, setting.grammar.instance(turn))| == if late < DUPLICATE_WINDOW then 1 else 2
  {
    var id := setting.grammar.instance(turn);
    var first := Step(setting, w, Publishes(0, true));
    assert Subject(first, id) == [m] && first.stored[id] == w.now && first.writers[1] == w.writers[1];
    last := Step(setting, Step(setting, first, Tick(late)), Publishes(1, true));
  }

  lemma {:induction false} RunBySteps(setting: Setting, w: World, events: seq<Event>, states: seq<World>)
    requires |states| == |events| + 1 && states[0] == w
    requires forall k :: 0 <= k < |events| ==> Step(setting, states[k], events[k]) == states[k + 1]
    ensures Run(setting, w, events) == states[|events|]
  {
    if events != [] {
      RunBySteps(setting, w, events[..|events| - 1], states[..|events|]);
    }
  }
}
