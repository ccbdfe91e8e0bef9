/** Committing one authorized grant batch: testimonies, then knowledge entities, then
    revelation entities, then the receipt, and the turn's reference to it last. */
module KnowledgeGranter {
  import opened Wrappers
  import opened Vocabulary
  import opened Graph
  import opened KnowledgeAuthorizer
  import opened KnowledgeReceipts

  const SOURCE := "knowledge-granter"
  const MAX_TESTIMONY_PROSE := 32768

  /** The deterministic identities: framed hashes under the recipient's anchor, and the
      reference text of a stored artifact. */
  datatype Names = Names(
    formats: Formats,
    sixPart: EntityID -> bool,
    knowledge: (EntityID, EntityID) -> EntityID,
    revelation: (string, string, EntityID, EntityID) -> EntityID,
    testimony: (string, string, EntityID, EntityID, EntityID) -> string,
    testimonyRef: string -> string,
    receiptRef: string -> string)

  /** One turn's authorized batch. */
  datatype Job = Job(turn: EntityID, turnID: string, decisionID: string, entries: seq<Entry>)

  datatype StoredTestimony = StoredTestimony(turnID: string, decisionID: string, testimony: Testimony)

  datatype Stores = Stores(
    graph: GraphState,
    testimonies: map<string, StoredTestimony>,
    receipts: map<string, Receipt>)

  datatype GrantWrite =
    | PutTestimony(key: string, testimony: StoredTestimony)
    | CreateOrVerify(id: EntityID, birth: EntityState)
    | PutReceipt(receipt: Receipt)
    | LandRef(turn: EntityID, ref: string, at: int)

  // ---- What a batch writes -------------------------------------------------

  function Fact(subject: EntityID, p: Predicate, text: string, at: int): Triple {
    Triple(subject, p, Text(text), Provenance(SOURCE, at, subject, false))
  }

  function KnowledgeBirth(id: EntityID, recipient: EntityID, evidence: EntityID, at: int): EntityState {
    [Fact(id, WorldEntityKind, "knowledge", at),
     Fact(id, KnowledgeActorHolder, recipient, at),
     Fact(id, KnowledgeEvidenceRef, evidence, at)]
  }

  function TestimonyKey(names: Names, job: Job, entry: Entry): string
    requires entry.testimony.Some?
  {
    names.testimony(job.turnID, job.decisionID, entry.testimony.value.belief, entry.recipient, entry.evidence)
  }

  function TestimonyRef(names: Names, job: Job, entry: Entry): string {
    if entry.testimony == None then "" else names.testimonyRef(TestimonyKey(names, job, entry))
  }

  function RevelationID(names: Names, job: Job, entry: Entry): EntityID {
    names.revelation(job.turnID, job.decisionID, entry.recipient, entry.evidence)
  }

  /** Who learned what, and when. */
  function RevelationCore(names: Names, job: Job, entry: Entry, at: int): EntityState {
    var id := RevelationID(names, job, entry);
    [Fact(id, WorldEntityKind, "revelation", at),
     Fact(id, RevelationActorHolder, entry.recipient, at),
     Fact(id, RevelationEvidenceRef, entry.evidence, at),
     Fact(id, RevelationTurnID, job.turnID, at)]
  }

  /** Who said so, when somebody did. */
  function Attribution(names: Names, job: Job, entry: Entry, at: int): EntityState {
    var id := RevelationID(names, job, entry);
    if entry.testimony == None then []
    else [Fact(id, RevelationSourceActor, entry.testimony.value.source, at),
          Fact(id, RevelationTestimonyRef, TestimonyRef(names, job, entry), at)]
  }

  function RevelationBirth(names: Names, job: Job, entry: Entry, at: int): EntityState {
    RevelationCore(names, job, entry, at) + Attribution(names, job, entry, at)
  }

  function ReceiptEntryOf(names: Names, job: Job, entry: Entry): ReceiptEntry {
    ReceiptEntry(entry.recipient, entry.evidence, names.knowledge(entry.recipient, entry.evidence),
                 RevelationID(names, job, entry), TestimonyRef(names, job, entry))
  }

  function ReceiptOf(names: Names, job: Job): Receipt {
    Receipt(job.turnID, job.decisionID, CommittedReceipt, SortedEntries(
      seq(|job.entries|, i requires 0 <= i < |job.entries| => ReceiptEntryOf(names, job, job.entries[i]))))
  }

  function TestimonyWrites(names: Names, job: Job, entries: seq<Entry>): seq<GrantWrite> {
    if entries == [] then []
    else
      var before := TestimonyWrites(names, job, entries[..|entries| - 1]);
      var last := entries[|entries| - 1];
      if last.testimony == None then before
      else before + [PutTestimony(TestimonyKey(names, job, last),
                                  StoredTestimony(job.turnID, job.decisionID, last.testimony.value))]
  }

  function KnowledgeWrite(names: Names, entry: Entry, at: int): GrantWrite {
    var id := names.knowledge(entry.recipient, entry.evidence);
    CreateOrVerify(id, KnowledgeBirth(id, entry.recipient, entry.evidence, at))
  }

  function KnowledgeWrites(names: Names, entries: seq<Entry>, at: int): seq<GrantWrite> {
    seq(|entries|, i requires 0 <= i < |entries| => KnowledgeWrite(names, entries[i], at))
  }

  function RevelationWrite(names: Names, job: Job, entry: Entry, at: int): GrantWrite {
    CreateOrVerify(RevelationID(names, job, entry), RevelationBirth(names, job, entry, at))
  }

  function RevelationWrites(names: Names, job: Job, at: int): seq<GrantWrite> {
    seq(|job.entries|, i requires 0 <= i < |job.entries| => RevelationWrite(names, job, job.entries[i], at))
  }

  function EntityWrites(names: Names, job: Job, at: int): seq<GrantWrite> {
    TestimonyWrites(names, job, job.entries) + KnowledgeWrites(names, job.entries, at)
    + RevelationWrites(names, job, at)
  }

  function FinalWrites(names: Names, job: Job, at: int): seq<GrantWrite> {
    [PutReceipt(ReceiptOf(names, job)), LandRef(job.turn, names.receiptRef(job.turnID), at)]
  }

  function CommitWrites(names: Names, job: Job, at: int): seq<GrantWrite> {
    EntityWrites(names, job, at) + FinalWrites(names, job, at)
  }

  // ---- What one write does -------------------------------------------------

  /** The comparison that ignores who recorded a fact and when. */
  datatype Meaning = Meaning(subject: EntityID, pred: Predicate, obj: Value)

  function Meanings(s: EntityState): seq<Meaning> {
    seq(|s|, i requires 0 <= i < |s| => Meaning(s[i].subject, s[i].pred, s[i].obj))
  }

  predicate SameMeaning(got: EntityState, want: EntityState) {
    multiset(Meanings(got)) == multiset(Meanings(want))
  }

  predicate TestimonyValid(formats: Formats, t: StoredTestimony) {
    && formats.segment(t.turnID) && t.decisionID != ""
    && formats.canonical(t.testimony.belief) && formats.canonical(t.testimony.source)
    && formats.canonical(t.testimony.recipient) && formats.canonical(t.testimony.evidence)
    && 0 < |t.testimony.prose| <= MAX_TESTIMONY_PROSE
  }

  ghost predicate ReceiptValid(formats: Formats, r: Receipt) {
    && HeaderValid(formats, r)
    && (forall i :: 0 <= i < |r.entries| ==> EntryValid(formats, r.entries[i]))
    && Sorted(r.entries)
  }

  function RefTriple(turn: EntityID, ref: string, at: int): Triple {
    Fact(turn, TurnKnowledgeRef, ref, at)
  }

  /** The stores after one write, and whether the caller may go on. */
  ghost function Land(names: Names, s: Stores, write: GrantWrite, reply: Reply): (Stores, bool) {
    match write
    case PutTestimony(key, testimony) =>
      if !TestimonyValid(names.formats, testimony) then (s, false)
      else (if Lands(reply) then s.(testimonies := s.testimonies[key := testimony]) else s, reply == Committed)
    case CreateOrVerify(id, birth) =>
      var (g', created) := CreateOutcome(s.graph, id, birth, reply);
      (s.(graph := g'), created != CreateFailed && SameMeaning(g'[id], birth))
    case PutReceipt(receipt) =>
      if !ReceiptValid(names.formats, receipt) then (s, false)
      else (if Lands(reply) then s.(receipts := s.receipts[receipt.turnID := receipt]) else s, reply == Committed)
    case LandRef(turn, ref, at) =>
      var (g', ok) := ReconcileOutcome(s.graph, TURN_KNOWLEDGE, turn, [RefTriple(turn, ref, at)], reply);
      (s.(graph := g'), ok)
  }

  /** Issues writes in order until one is refused: the stores, the replies left, and whether all were accepted. */
  ghost function Perform(names: Names, s: Stores, writes: seq<GrantWrite>, replies: seq<Reply>)
    : (Stores, seq<Reply>, bool)
    decreases writes
  {
    if writes == [] then (s, replies, true)
    else
      var (s', ok) := Land(names, s, writes[0], NextReply(replies));
      if ok then Perform(names, s', writes[1..], Later(replies)) else (s', Later(replies), false)
  }

  lemma {:induction false} PerformConcat(
    names: Names, s: Stores, a: seq<GrantWrite>, b: seq<GrantWrite>, replies: seq<Reply>)
    ensures var (s1, r1, ok) := Perform(names, s, a, replies);
      Perform(names, s, a + b, replies) == if ok then Perform(names, s1, b, r1) else (s1, r1, false)
    decreases a
  {
    if a == [] {
      assert a + b == b;
    } else {
      var (s', ok) := Land(names, s, a[0], NextReply(replies));
      assert (a + b)[1..] == a[1..] + b;
      if ok {
        PerformConcat(names, s', a[1..], b, Later(replies));
      }
    }
  }

  lemma PerformOne(names: Names, s: Stores, write: GrantWrite, replies: seq<Reply>)
    ensures var (s', ok) := Land(names, s, write, NextReply(replies));
      Perform(names, s, [write], replies) == (s', Later(replies), ok)
  {
    assert [write][1..] == [];
  }

  /** Extending a prefix that was accepted whole by one more write. */
  lemma PerformNext(
    names: Names, s: Stores, all: seq<GrantWrite>, i: nat, replies: seq<Reply>, s1: Stores, r1: seq<Reply>)
    requires i < |all| && Perform(names, s, all[..i], replies) == (s1, r1, true)
    ensures var (s2, ok) := Land(names, s1, all[i], NextReply(r1));
      && Perform(names, s, all[..i + 1], replies) == (s2, Later(r1), ok)
      && (!ok ==> Perform(names, s, all, replies) == (s2, Later(r1), false))
  {
    assert all[..i + 1] == all[..i] + [all[i]];
    PerformConcat(names, s, all[..i], [all[i]], replies);
    PerformOne(names, s1, all[i], r1);
    assert all == all[..i + 1] + all[i + 1..];
    PerformConcat(names, s, all[..i + 1], all[i + 1..], replies);
  }

  // ---- The granter ---------------------------------------------------------

  class Granter {
    const names: Names
    var graph: GraphState
    var testimonies: map<string, StoredTestimony>
    var receipts: map<string, Receipt>
    /** The replies still to come, one per write; later writes commit cleanly. */
    var replies: seq<Reply>

    constructor (names: Names, stores: Stores, replies: seq<Reply>)
      ensures this.names == names && Contents() == stores && this.replies == replies
    {
      this.names, this.replies := names, replies;
      graph, testimonies, receipts := stores.graph, stores.testimonies, stores.receipts;
    }

    ghost function Contents(): Stores
      reads this
    {
      Stores(graph, testimonies, receipts)
    }

    method StoreTestimony(key: string, testimony: StoredTestimony) returns (ok: bool)
      modifies this
      ensures (Contents(), ok) == Land(names, old(Contents()), PutTestimony(key, testimony), NextReply(old(replies)))
      ensures replies == Later(old(replies))
    {
      var reply := NextReply(replies);
      replies := Later(replies);
      if !TestimonyValid(names.formats, testimony) {
        return false;
      }
      if Lands(reply) {
        testimonies := testimonies[key := testimony];
      }
      ok := reply == Committed;
    }

    /** An entity that already exists is accepted when it means the same, whoever recorded it. */
    method CreateOrVerifyEntity(id: EntityID, birth: EntityState) returns (ok: bool)
      modifies this
      ensures (Contents(), ok) == Land(names, old(Contents()), CreateOrVerify(id, birth), NextReply(old(replies)))
      ensures replies == Later(old(replies))
    {
      var (g', created) := CreateOutcome(graph, id, birth, NextReply(replies));
      CreateKeeps(graph, id, birth, NextReply(replies));
      graph := g';
      replies := Later(replies);
      if created == CreateFailed {
        return false;
      }
      ok := SameMeaning(graph[id], birth);
    }

    method StoreReceipt(receipt: Receipt) returns (ok: bool)
      requires Framed(names.formats)
      modifies this
      ensures (Contents(), ok) == Land(names, old(Contents()), PutReceipt(receipt), NextReply(old(replies)))
      ensures replies == Later(old(replies))
    {
      var reply := NextReply(replies);
      replies := Later(replies);
      var valid := Validate(names.formats, receipt);
      if !valid {
        return false;
      }
      if Lands(reply) {
        receipts := receipts[receipt.turnID := receipt];
      }
      ok := reply == Committed;
    }

    method WriteTurnRef(turn: EntityID, ref: string, at: int) returns (ok: bool)
      modifies this
      ensures (Contents(), ok) == Land(names, old(Contents()), LandRef(turn, ref, at), NextReply(old(replies)))
      ensures replies == Later(old(replies))
    {
      var (g', landed) := ReconcileOutcome(graph, TURN_KNOWLEDGE, turn, [RefTriple(turn, ref, at)], NextReply(replies));
      graph, replies, ok := g', Later(replies), landed;
    }

    method StoreTestimonies(job: Job) returns (ok: bool)
      modifies this
      ensures (Contents(), replies, ok) ==
              Perform(names, old(Contents()), TestimonyWrites(names, job, job.entries), old(replies))
    {
      ghost var s, r, writes := Contents(), replies, TestimonyWrites(names, job, job.entries);
      ghost var done := 0;
      for i := 0 to |job.entries|
        invariant done == |TestimonyWrites(names, job, job.entries[..i])| <= |writes|
        invariant Perform(names, s, writes[..done], r) == (Contents(), replies, true)
      {
        var entry := job.entries[i];
        TestimonyAt(names, job, i);
        if entry.testimony.Some? {
          PerformNext(names, s, writes, done, r, Contents(), replies);
          ok := StoreTestimony(TestimonyKey(names, job, entry),
                               StoredTestimony(job.turnID, job.decisionID, entry.testimony.value));
          if !ok {
            return;
          }
          done := done + 1;
        }
      }
      assert job.entries[..|job.entries|] == job.entries && writes[..|writes|] == writes;
      ok := true;
    }

    method CreateKnowledge(job: Job, at: int) returns (ok: bool)
      modifies this
      ensures (Contents(), replies, ok) ==
              Perform(names, old(Contents()), KnowledgeWrites(names, job.entries, at), old(replies))
    {
      ghost var s, r, writes := Contents(), replies, KnowledgeWrites(names, job.entries, at);
      for i := 0 to |job.entries|
        invariant Perform(names, s, writes[..i], r) == (Contents(), replies, true)
      {
        var entry := job.entries[i];
        var id := names.knowledge(entry.recipient, entry.evidence);
        PerformNext(names, s, writes, i, r, Contents(), replies);
        ok := CreateOrVerifyEntity(id, KnowledgeBirth(id, entry.recipient, entry.evidence, at));
        if !ok {
          return;
        }
      }
      assert writes[..|writes|] == writes;
      ok := true;
    }

    method CreateRevelations(job: Job, at: int) returns (ok: bool)
      modifies this
      ensures (Contents(), replies, ok) ==
              Perform(names, old(Contents()), RevelationWrites(names, job, at), old(replies))
    {
      ghost var s, r, writes := Contents(), replies, RevelationWrites(names, job, at);
      for i := 0 to |job.entries|
        invariant Perform(names, s, writes[..i], r) == (Contents(), replies, true)
      {
        PerformNext(names, s, writes, i, r, Contents(), replies);
        ok := CreateOrVerifyEntity(RevelationID(names, job, job.entries[i]),
                                   RevelationBirth(names, job, job.entries[i], at));
        if !ok {
          return;
        }
      }
      assert writes[..|writes|] == writes;
      ok := true;
    }

    /** The ordered commit: it writes exactly `CommitWrites`, stopping where a write is refused, and
        returns the receipt's reference only when every one was accepted. */
    method Commit(job: Job, at: int) returns (ref: Option<string>)
      requires Framed(names.formats)
      modifies this
      ensures (exists i :: 0 <= i < |job.entries| && !names.sixPart(job.entries[i].recipient)) ==>
                ref == None && Contents() == old(Contents())
      ensures (forall i :: 0 <= i < |job.entries| ==> names.sixPart(job.entries[i].recipient)) ==>
                (Contents(), replies, ref.Some?) ==
                Perform(names, old(Contents()), CommitWrites(names, job, at), old(replies))
      ensures ref.Some? ==> ref.value == names.receiptRef(job.turnID)
    {
      if exists i :: 0 <= i < |job.entries| && !names.sixPart(job.entries[i].recipient) {
        return None;
      }
      ghost var s, r := Contents(), replies;
      var entities, knowledge := TestimonyWrites(names, job, job.entries), KnowledgeWrites(names, job.entries, at);
      PerformConcat(names, s, entities, knowledge, r);
      PerformConcat(names, s, entities + knowledge, RevelationWrites(names, job, at), r);
      PerformConcat(names, s, EntityWrites(names, job, at), FinalWrites(names, job, at), r);
      var ok := StoreTestimonies(job);
      if !ok {
        return None;
      }
      ok := CreateKnowledge(job, at);
      if !ok {
        return None;
      }
      ok := CreateRevelations(job, at);
      if !ok {
        return None;
      }
      ok := Finish(job, at);
      return if ok then Some(names.receiptRef(job.turnID)) else None;
    }

    method Finish(job: Job, at: int) returns (ok: bool)
      requires Framed(names.formats)
      modifies this
      ensures (Contents(), replies, ok) ==
              Perform(names, old(Contents()), FinalWrites(names, job, at), old(replies))
    {
      ghost var s, r := Contents(), replies;
      var put, land := PutReceipt(ReceiptOf(names, job)), LandRef(job.turn, names.receiptRef(job.turnID), at);
      assert FinalWrites(names, job, at) == [put] + [land];
      PerformConcat(names, s, [put], [land], r);
      PerformOne(names, s, put, r);
      ok := StoreReceipt(ReceiptOf(names, job));
      if ok {
        PerformOne(names, Contents(), land, replies);
        ok := WriteTurnRef(job.turn, names.receiptRef(job.turnID), at);
      }
    }
  }

  lemma {:induction false} TestimonyPrefix(names: Names, job: Job, entries: seq<Entry>, i: nat)
    requires i <= |entries|
    ensures TestimonyWrites(names, job, entries[..i]) <= TestimonyWrites(names, job, entries)
  {
    if i < |entries| {
      assert entries[..|entries| - 1][..i] == entries[..i];
      TestimonyPrefix(names, job, entries[..|entries| - 1], i);
    } else {
      assert entries[..i] == entries;
    }
  }

  /** Where one entry's testimony sits in the list of testimony writes. */
  lemma TestimonyAt(names: Names, job: Job, i: nat)
    requires i < |job.entries|
    ensures var all, done := TestimonyWrites(names, job, job.entries), |TestimonyWrites(names, job, job.entries[..i])|;
      var entry, after := job.entries[i], |TestimonyWrites(names, job, job.entries[..i + 1])|;
      if entry.testimony == None then after == done <= |all|
      else
        && after == done + 1 <= |all|
        && all[done] == PutTestimony(TestimonyKey(names, job, entry),
                                     StoredTestimony(job.turnID, job.decisionID, entry.testimony.value))
  {
    assert job.entries[..i + 1][..i] == job.entries[..i];
    TestimonyPrefix(names, job, job.entries, i + 1);
  }
}
