/** The writer's own attempt, found again among the steps of the timed archive. */
module LedgerRuns {
  import opened Wrappers
  import opened Vocabulary
  import opened Graph
  import opened LedgerManifest
  import opened LedgerWriter
  import LedgerArchive

  function Attempt(client: LedgerArchive.Client, turn: EntityID, reply: Reply): seq<LedgerArchive.Event> {
    [LedgerArchive.Composes(client, turn), LedgerArchive.Reads(client), LedgerArchive.Publishes(client, Lands(reply))]
  }

  /** What `ArchiveTurn` does is a run of the timed machine: from any world timely writers can reach, composing,
      reading and publishing without a pause leaves every subject as the attempt's outcome says, and a resident
      manifest is never refused. */
  lemma ArchiveTurnIsRun(
    setting: Setting, timed: LedgerArchive.Setting, now: int, g: GraphState, events: seq<LedgerArchive.Event>,
    client: LedgerArchive.Client, turn: EntityID, reply: Reply)
    requires timed.grammar == setting.grammar && timed.campaignID == setting.campaignID
    requires LedgerArchive.Unique(timed) && timed.owns(turn)
    requires LedgerArchive.RunTimely(timed, LedgerArchive.Start(now, g), events)
    requires var w := LedgerArchive.Run(timed, LedgerArchive.Start(now, g), events);
      client !in w.writers && turn in w.graph
    ensures var w := LedgerArchive.Run(timed, LedgerArchive.Start(now, g), events);
      var (archive, outcome) := ArchiveOutcome(setting, w.messages, turn, w.graph[turn], reply);
      && LedgerArchive.Run(timed, w, Attempt(client, turn, reply)).messages == archive
      && (outcome.Refused? ==>
            Compose(setting.grammar, setting.campaignID, turn, w.graph[turn]) == None ||
            (reply != Committed && Subject(w.messages, setting.grammar.instance(turn)) == []))
  {
    LedgerArchive.RunKeeps(timed, now, g, events);
    AttemptIsRun(setting, timed, LedgerArchive.Run(timed, LedgerArchive.Start(now, g), events), client, turn, reply);
  }

  lemma AttemptIsRun(
    setting: Setting, timed: LedgerArchive.Setting, w: LedgerArchive.World, client: LedgerArchive.Client,
    turn: EntityID, reply: Reply)
    requires timed.grammar == setting.grammar && timed.campaignID == setting.campaignID
    requires LedgerArchive.Unique(timed) && timed.owns(turn) && LedgerArchive.Inv(timed, w)
    requires client !in w.writers && turn in w.graph
    ensures var (archive, outcome) := ArchiveOutcome(setting, w.messages, turn, w.graph[turn], reply);
      && LedgerArchive.Run(timed, w, Attempt(client, turn, reply)).messages == archive
      && (outcome.Refused? ==>
            Compose(setting.grammar, setting.campaignID, turn, w.graph[turn]) == None ||
            (reply != Committed && Subject(w.messages, setting.grammar.instance(turn)) == []))
  {
    var turnID := setting.grammar.instance(turn);
    assert LedgerArchive.SubjectSound(timed, w, turnID);
    assert LedgerArchive.Subject(w, turnID) == Subject(w.messages, turnID);
    ResidentIsComposed(setting, timed, w, turn);
    AttemptSteps(setting, timed, w, client, turn, reply);
  }

  lemma ResidentIsComposed(setting: Setting, timed: LedgerArchive.Setting, w: LedgerArchive.World, turn: EntityID)
    requires timed.grammar == setting.grammar && timed.campaignID == setting.campaignID
    requires LedgerArchive.Unique(timed) && timed.owns(turn) && LedgerArchive.Inv(timed, w) && turn in w.graph
    ensures var resident := Subject(w.messages, setting.grammar.instance(turn));
      resident != [] ==>
        |resident| == 1 && Compose(setting.grammar, setting.campaignID, turn, w.graph[turn]) == Some(resident[0])
  {
    var turnID := setting.grammar.instance(turn);
    assert LedgerArchive.SubjectSound(timed, w, turnID);
    assert LedgerArchive.Subject(w, turnID) == Subject(w.messages, turnID);
    if Subject(w.messages, turnID) != [] {
      var other :| timed.owns(other) && timed.grammar.instance(other) == turnID &&
        LedgerArchive.ComposeNow(timed, w.graph, other) == Some(LedgerArchive.Subject(w, turnID)[0]);
      assert other == turn;
    }
  }

  lemma RunThree(
    timed: LedgerArchive.Setting, w: LedgerArchive.World, a: LedgerArchive.Event, b: LedgerArchive.Event,
    c: LedgerArchive.Event)
    ensures LedgerArchive.Run(timed, w, [a, b, c]) ==
            LedgerArchive.Step(timed, LedgerArchive.Step(timed, LedgerArchive.Step(timed, w, a), b), c)
  {
    RunOne(timed, w, [], a);
    RunOne(timed, w, [a], b);
    RunOne(timed, w, [a, b], c);
    assert [] + [a] == [a] && [a] + [b] == [a, b] && [a, b] + [c] == [a, b, c];
  }

  lemma RunOne(
    timed: LedgerArchive.Setting, w: LedgerArchive.World, before: seq<LedgerArchive.Event>, e: LedgerArchive.Event)
    ensures LedgerArchive.Run(timed, w, before + [e]) == LedgerArchive.Step(timed, LedgerArchive.Run(timed, w, before), e)
  {
    assert (before + [e])[..|before|] == before;
  }

  lemma AttemptSteps(
    setting: Setting, timed: LedgerArchive.Setting, w: LedgerArchive.World, client: LedgerArchive.Client,
    turn: EntityID, reply: Reply)
    requires timed.grammar == setting.grammar && timed.campaignID == setting.campaignID && timed.owns(turn)
    requires client !in w.writers && turn in w.graph
    requires setting.grammar.instance(turn) in w.stored ==> Subject(w.messages, setting.grammar.instance(turn)) != []
    ensures LedgerArchive.Run(timed, w, Attempt(client, turn, reply)).messages ==
            ArchiveOutcome(setting, w.messages, turn, w.graph[turn], reply).0
  {
    var e := Attempt(client, turn, reply);
    RunThree(timed, w, e[0], e[1], e[2]);
    var composed := Compose(setting.grammar, setting.campaignID, turn, w.graph[turn]);
    if composed.Some? {
      ReadAndPublish(setting, timed, LedgerArchive.Step(timed, w, e[0]), client, turn, composed.value, Lands(reply));
    }
  }

  lemma ReadAndPublish(
    setting: Setting, timed: LedgerArchive.Setting, w: LedgerArchive.World, client: LedgerArchive.Client,
    turn: EntityID, manifest: Manifest, lands: bool)
    requires timed.grammar == setting.grammar && client in w.writers
    requires w.writers[client] == LedgerArchive.Composed(turn, manifest)
    requires setting.grammar.instance(turn) in w.stored ==> Subject(w.messages, setting.grammar.instance(turn)) != []
    ensures var after := LedgerArchive.Step(timed, LedgerArchive.Step(timed, w, LedgerArchive.Reads(client)),
                                            LedgerArchive.Publishes(client, lands));
      var turnID := setting.grammar.instance(turn);
      after.messages == if Subject(w.messages, turnID) == [] && lands then w.messages[turnID := [manifest]] else w.messages
  {
    var turnID := setting.grammar.instance(turn);
    assert LedgerArchive.Subject(w, turnID) == Subject(w.messages, turnID);
    assert [] + [manifest] == [manifest];
  }
}
