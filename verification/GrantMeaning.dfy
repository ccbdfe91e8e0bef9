/** What a committed grant says, fact by fact, whoever wrote it and however often it was retried. */
module GrantMeaning {
  import opened Wrappers
  import opened Vocabulary
  import opened Graph
  import opened KnowledgeAuthorizer
  import opened KnowledgeReceipts
  import opened KnowledgeGranter
  import opened GrantRecovery

  function About(id: EntityID, p: Predicate, text: string): Meaning {
    Meaning(id, p, Text(text))
  }

  /** The actor's knowledge of one piece of evidence: those three facts, each once. */
  ghost predicate KnowledgeSaid(names: Names, g: GraphState, entry: Entry) {
    var id := names.knowledge(entry.recipient, entry.evidence);
    && id in g
    && multiset(Meanings(g[id])) == multiset{
         About(id, WorldEntityKind, "knowledge"),
         About(id, KnowledgeActorHolder, entry.recipient),
         About(id, KnowledgeEvidenceRef, entry.evidence)}
  }

  /** The reference under which the turn's testimony of this entry is stored; empty without one. */
  function SpokenRef(names: Names, job: Job, entry: Entry): string {
    match entry.testimony
    case None => ""
    case Some(t) => names.testimonyRef(names.testimony(job.turnID, job.decisionID, t.belief, entry.recipient, entry.evidence))
  }

  /** The turn's revelation of it: to whom, of what, in which turn, and, of a testimony, by whom and where it is kept. */
  ghost predicate RevelationSaid(names: Names, g: GraphState, job: Job, entry: Entry) {
    var id := names.revelation(job.turnID, job.decisionID, entry.recipient, entry.evidence);
    && id in g
    && multiset(Meanings(g[id])) == multiset{
         About(id, WorldEntityKind, "revelation"),
         About(id, RevelationActorHolder, entry.recipient),
         About(id, RevelationEvidenceRef, entry.evidence),
         About(id, RevelationTurnID, job.turnID)}
       + (match entry.testimony
          case None => multiset{}
          case Some(t) => multiset{
            About(id, RevelationSourceActor, t.source),
            About(id, RevelationTestimonyRef, SpokenRef(names, job, entry))})
  }

  /** What was said is kept word for word, beside the turn and the decision it was said in. */
  ghost predicate TestimonyKept(names: Names, s: Stores, job: Job, entry: Entry) {
    match entry.testimony
    case None => true
    case Some(t) =>
      var key := names.testimony(job.turnID, job.decisionID, t.belief, entry.recipient, entry.evidence);
      && key in s.testimonies
      && s.testimonies[key].turnID == job.turnID && s.testimonies[key].decisionID == job.decisionID
      && s.testimonies[key].testimony == t
  }

  ghost predicate EntryRecorded(names: Names, s: Stores, job: Job, entry: Entry) {
    KnowledgeSaid(names, s.graph, entry) && RevelationSaid(names, s.graph, job, entry) && TestimonyKept(names, s, job, entry)
  }

  predicate Lists(names: Names, job: Job, entry: Entry, x: ReceiptEntry) {
    && x.recipient == entry.recipient && x.evidence == entry.evidence
    && x.knowledgeID == names.knowledge(entry.recipient, entry.evidence)
    && x.revelationID == names.revelation(job.turnID, job.decisionID, entry.recipient, entry.evidence)
    && x.testimonyRef == SpokenRef(names, job, entry)
  }

  /** The receipt of the turn's decision lists the batch: each entry, and no other, with where its parts are kept. */
  ghost predicate ReceiptSays(names: Names, job: Job, receipt: Receipt) {
    && receipt.turnID == job.turnID && receipt.decisionID == job.decisionID && receipt.status == CommittedReceipt
    && |receipt.entries| == |job.entries|
    && (forall x :: x in receipt.entries ==> exists entry :: entry in job.entries && Lists(names, job, entry, x))
    && (forall entry :: entry in job.entries ==> exists x :: x in receipt.entries && Lists(names, job, entry, x))
  }

  // ---- The births ----------------------------------------------------------

  lemma BirthMeanings(s: EntityState)
    requires |s| == 3
    ensures Meanings(s) == [Meaning(s[0].subject, s[0].pred, s[0].obj), Meaning(s[1].subject, s[1].pred, s[1].obj),
                            Meaning(s[2].subject, s[2].pred, s[2].obj)]
  {}

  lemma KnowledgeIsSaid(names: Names, s: Stores, entry: Entry)
    requires Landed(s, KnowledgeWrite(names, entry, 0))
    ensures KnowledgeSaid(names, s.graph, entry)
  {
    BirthMeanings(KnowledgeWrite(names, entry, 0).birth);
  }

  lemma MeaningsConcat(a: EntityState, b: EntityState)
    ensures Meanings(a + b) == Meanings(a) + Meanings(b)
  {}

  lemma CoreMeanings(names: Names, job: Job, entry: Entry)
    ensures var id := RevelationID(names, job, entry);
      Meanings(RevelationCore(names, job, entry, 0)) == [
        About(id, WorldEntityKind, "revelation"), About(id, RevelationActorHolder, entry.recipient),
        About(id, RevelationEvidenceRef, entry.evidence), About(id, RevelationTurnID, job.turnID)]
  {}

  lemma AttributionMeanings(names: Names, job: Job, entry: Entry)
    ensures var id := RevelationID(names, job, entry);
      Meanings(Attribution(names, job, entry, 0)) ==
      match entry.testimony
      case None => []
      case Some(t) => [About(id, RevelationSourceActor, t.source),
                       About(id, RevelationTestimonyRef, SpokenRef(names, job, entry))]
  {}

  lemma RevelationIsSaid(names: Names, s: Stores, job: Job, entry: Entry)
    requires Landed(s, RevelationWrite(names, job, entry, 0))
    ensures RevelationSaid(names, s.graph, job, entry)
  {
    MeaningsConcat(RevelationCore(names, job, entry, 0), Attribution(names, job, entry, 0));
    CoreMeanings(names, job, entry);
    AttributionMeanings(names, job, entry);
  }

  lemma EntryIsRecorded(names: Names, s: Stores, job: Job, i: nat)
    requires i < |job.entries| && EntryExact(names, s, job, i)
    ensures EntryRecorded(names, s, job, job.entries[i])
  {
    KnowledgeIsSaid(names, s, job.entries[i]);
    RevelationIsSaid(names, s, job, job.entries[i]);
  }

  // ---- The receipt ---------------------------------------------------------

  lemma Listed(names: Names, job: Job, entry: Entry)
    ensures Lists(names, job, entry, ReceiptEntryOf(names, job, entry))
  {}

  lemma ReceiptIsSaid(names: Names, job: Job)
    ensures ReceiptSays(names, job, ReceiptOf(names, job))
  {
    var unsorted := seq(|job.entries|, i requires 0 <= i < |job.entries| => ReceiptEntryOf(names, job, job.entries[i]));
    var sorted := ReceiptOf(names, job).entries;
    SortedMembers(unsorted);
    assert |sorted| == |multiset(sorted)| == |unsorted|;
    forall x | x in sorted ensures exists entry :: entry in job.entries && Lists(names, job, entry, x) {
      assert x in multiset(unsorted);
      var i :| 0 <= i < |unsorted| && unsorted[i] == x;
      Listed(names, job, job.entries[i]);
    }
    forall entry | entry in job.entries ensures exists x :: x in sorted && Lists(names, job, entry, x) {
      var i :| 0 <= i < |job.entries| && job.entries[i] == entry;
      Listed(names, job, entry);
      assert unsorted[i] in multiset(sorted);
    }
  }

  // ---- Whole runs ----------------------------------------------------------

  /** The receipt under the batch's turn lists it, and every entry of it is recorded. */
  ghost predicate Recorded(names: Names, s: Stores, job: Job) {
    && job.turnID in s.receipts && ReceiptSays(names, job, s.receipts[job.turnID])
    && forall entry :: entry in job.entries ==> EntryRecorded(names, s, job, entry)
  }

  lemma ExactIsRecorded(names: Names, s: Stores, job: Job)
    requires job.turnID in s.receipts && s.receipts[job.turnID] == ReceiptOf(names, job)
    requires forall i :: 0 <= i < |job.entries| ==> EntryExact(names, s, job, i)
    ensures Recorded(names, s, job)
  {
    ReceiptIsSaid(names, job);
    forall entry | entry in job.entries ensures EntryRecorded(names, s, job, entry) {
      var i :| 0 <= i < |job.entries| && job.entries[i] == entry;
      EntryIsRecorded(names, s, job, i);
    }
  }

  /** In every run, a reference a turn carries leads to a started batch of that turn's own, recorded fact by fact. */
  lemma ReferenceMeansRecorded(
    names: Names, plans: iset<Job>, s: Stores, events: seq<Event>, turn: EntityID, ref: string)
    requires DistinctTestimonies(names) && Consistent(plans) && PlansValid(names, plans)
    requires Fresh(s) && Voiced(names, plans, s)
    requires ref in Strings(Lookup(Run(names, plans, World(s, map[]), events).stores.graph, turn), TurnKnowledgeRef)
    ensures var after := Run(names, plans, World(s, map[]), events).stores;
      exists own, job :: own in plans && own.turn == turn && names.receiptRef(own.turnID) == ref &&
        job in plans && job.turnID == own.turnID && Recorded(names, after, job)
  {
    var after := Run(names, plans, World(s, map[]), events).stores;
    ReferenceImpliesExactGrant(names, plans, s, events, turn, ref);
    var own, job :| own in plans && own.turn == turn && names.receiptRef(own.turnID) == ref &&
      job in plans && job.turnID == own.turnID && own.turnID in after.receipts &&
      after.receipts[own.turnID] == ReceiptOf(names, job) &&
      forall i :: 0 <= i < |job.entries| ==> EntryExact(names, after, job, i);
    ExactIsRecorded(names, after, job);
  }

  /** And from wherever a run left off, one undisturbed commit records its batch and refers the turn to it alone. */
  lemma CommitRecords(names: Names, plans: iset<Job>, s: Stores, events: seq<Event>, job: Job, at: int)
    requires Injective(names) && DistinctTestimonies(names) && Consistent(plans) && PlansValid(names, plans)
    requires Fresh(s) && Rightful(names, plans, s.graph) && Voiced(names, plans, s) && job in plans
    requires Storable(names, Run(names, plans, World(s, map[]), events).stores, job)
    ensures var (after, _, ok) := Perform(
        names, Run(names, plans, World(s, map[]), events).stores, CommitWrites(names, job, at), []);
      && ok && Recorded(names, after, job)
      && Strings(Lookup(after.graph, job.turn), TurnKnowledgeRef) == [names.receiptRef(job.turnID)]
  {
    GrantConverges(names, plans, s, events, job, at);
    ExactIsRecorded(names, Perform(
      names, Run(names, plans, World(s, map[]), events).stores, CommitWrites(names, job, at), []).0, job);
  }
}
