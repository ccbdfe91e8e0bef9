/** Any number of grant commits, of any turns, interleaved write by write: each may be cut
    off or redelivered anywhere, replies may be lost, and other writers move between them. */
module GrantRecovery {
  import opened Wrappers
  import opened Vocabulary
  import opened Graph
  import opened KnowledgeAuthorizer
  import opened KnowledgeReceipts
  import opened KnowledgeGranter

  type Worker = nat

  /** A commit under way: how many of its writes were accepted. */
  datatype Task = Task(job: Job, at: int, done: nat)

  datatype World = World(stores: Stores, tasks: map<Worker, Task>)

  datatype Event =
    | Begin(worker: Worker, job: Job, at: int)
    | Write(worker: Worker, reply: Reply)
    | Crash(worker: Worker)
    | Environment(next: GraphState)

  ghost predicate IsKnowledgeID(names: Names, id: EntityID) {
    exists recipient, evidence :: id == names.knowledge(recipient, evidence)
  }

  ghost predicate IsRevelationID(names: Names, id: EntityID) {
    exists turnID, decisionID, recipient, evidence ::
      id == names.revelation(turnID, decisionID, recipient, evidence)
  }

  ghost predicate IsGrantID(names: Names, id: EntityID) {
    IsKnowledgeID(names, id) || IsRevelationID(names, id)
  }

  /** Other writers leave granted entities and the turns' knowledge references alone. */
  ghost predicate LeavesGrants(names: Names, g: GraphState, next: GraphState) {
    && (forall id :: IsGrantID(names, id) ==> (id in next <==> id in g))
    && (forall id :: IsGrantID(names, id) && id in g ==> next[id] == g[id])
    && (forall turn :: Strings(Lookup(next, turn), TurnKnowledgeRef) == Strings(Lookup(g, turn), TurnKnowledgeRef))
  }

  /** The batches the run may start; a turn entity is never itself a granted entity. */
  ghost predicate PlansValid(names: Names, plans: iset<Job>) {
    forall job :: job in plans ==> !IsGrantID(names, job.turn)
  }

  ghost function WriteStep(names: Names, w: World, worker: Worker, reply: Reply): World
    requires worker in w.tasks && w.tasks[worker].done < |CommitWrites(names, w.tasks[worker].job, w.tasks[worker].at)|
  {
    var task := w.tasks[worker];
    var writes := CommitWrites(names, task.job, task.at);
    var (s', ok) := Land(names, w.stores, writes[task.done], reply);
    World(s', if ok && task.done + 1 < |writes| then w.tasks[worker := task.(done := task.done + 1)]
              else w.tasks - {worker})
  }

  ghost function Step(names: Names, plans: iset<Job>, w: World, event: Event): World {
    match event
    case Begin(worker, job, at) =>
      if worker !in w.tasks && job in plans then w.(tasks := w.tasks[worker := Task(job, at, 0)]) else w
    case Write(worker, reply) =>
      if worker in w.tasks && w.tasks[worker].done < |CommitWrites(names, w.tasks[worker].job, w.tasks[worker].at)|
      then WriteStep(names, w, worker, reply) else w
    case Crash(worker) => w.(tasks := w.tasks - {worker})
    case Environment(next) =>
      if LeavesGrants(names, w.stores.graph, next) then w.(stores := w.stores.(graph := next)) else w
  }

  ghost function Run(names: Names, plans: iset<Job>, w: World, events: seq<Event>): World {
    if events == [] then w
    else Step(names, plans, Run(names, plans, w, events[..|events| - 1]), events[|events| - 1])
  }

  // ---- What has landed stays landed ----------------------------------------

  ghost predicate Landed(s: Stores, write: GrantWrite) {
    match write
    case PutTestimony(key, _) => key in s.testimonies
    case CreateOrVerify(id, birth) => id in s.graph && SameMeaning(s.graph[id], birth)
    case PutReceipt(receipt) => receipt.turnID in s.receipts
    case LandRef(_, _, _) => true
  }

  ghost predicate Grows(names: Names, s: Stores, s': Stores) {
    && s.testimonies.Keys <= s'.testimonies.Keys
    && s.receipts.Keys <= s'.receipts.Keys
    && forall id :: IsGrantID(names, id) && id in s.graph ==> id in s'.graph && s'.graph[id] == s.graph[id]
  }

  ghost predicate OnGrantID(names: Names, write: GrantWrite) {
    && (write.CreateOrVerify? ==> IsGrantID(names, write.id))
    && (write.LandRef? ==> !IsGrantID(names, write.turn))
  }

  lemma LandGrows(names: Names, s: Stores, write: GrantWrite, reply: Reply)
    requires OnGrantID(names, write)
    ensures Grows(names, s, Land(names, s, write, reply).0)
    ensures Land(names, s, write, reply).1 ==> Landed(Land(names, s, write, reply).0, write)
  {
    match write
    case PutTestimony(_, _) =>
    case CreateOrVerify(id, birth) => CreateKeeps(s.graph, id, birth, reply);
    case PutReceipt(_) =>
    case LandRef(turn, ref, at) =>
      ReconcileObjects(s.graph, TURN_KNOWLEDGE, turn, [RefTriple(turn, ref, at)], reply);
  }

  lemma LandedGrows(names: Names, s: Stores, s': Stores, write: GrantWrite)
    requires Grows(names, s, s') && OnGrantID(names, write) && Landed(s, write)
    ensures Landed(s', write)
  {}

  lemma CommitWritesOnGrantIDs(names: Names, job: Job, at: int, i: nat)
    requires !IsGrantID(names, job.turn) && i < |CommitWrites(names, job, at)|
    ensures OnGrantID(names, CommitWrites(names, job, at)[i])
  {
    var testimonies := TestimonyWrites(names, job, job.entries);
    var write := CommitWrites(names, job, at)[i];
    if i < |testimonies| {
      TestimoniesOnly(names, job, job.entries, i);
    } else if i < |testimonies| + |job.entries| {
      var entry := job.entries[i - |testimonies|];
      assert write == KnowledgeWrite(names, entry, at);
      assert IsKnowledgeID(names, write.id);
    } else if i < |EntityWrites(names, job, at)| {
      var entry := job.entries[i - |testimonies| - |job.entries|];
      assert write == RevelationWrite(names, job, entry, at);
      assert IsRevelationID(names, write.id);
    }
  }

  lemma {:induction false} TestimoniesOnly(names: Names, job: Job, entries: seq<Entry>, i: nat)
    requires i < |TestimonyWrites(names, job, entries)|
    ensures TestimonyWrites(names, job, entries)[i].PutTestimony?
  {
    if i < |TestimonyWrites(names, job, entries[..|entries| - 1])| {
      TestimoniesOnly(names, job, entries[..|entries| - 1], i);
    }
  }

  // ---- The invariant -------------------------------------------------------

  /** Everything one granted entry promises is in the stores. */
  ghost predicate EntryComplete(names: Names, s: Stores, job: Job, entry: Entry) {
    && Landed(s, KnowledgeWrite(names, entry, 0))
    && Landed(s, RevelationWrite(names, job, entry, 0))
    && (entry.testimony.Some? ==> TestimonyKey(names, job, entry) in s.testimonies)
  }

  /** The receipt is that of some started plan, and everything the plan promises is there. */
  ghost predicate ReceiptComplete(names: Names, plans: iset<Job>, s: Stores, receipt: Receipt) {
    exists job :: job in plans && receipt == ReceiptOf(names, job) &&
      forall i :: 0 <= i < |job.entries| ==> EntryComplete(names, s, job, job.entries[i])
  }

  /** A plan of this very turn stored the receipt behind the reference. */
  ghost predicate Backed(names: Names, plans: iset<Job>, s: Stores, turn: EntityID, ref: string) {
    exists job :: job in plans && job.turn == turn && job.turnID in s.receipts && names.receiptRef(job.turnID) == ref
  }

  ghost predicate RefsBacked(names: Names, plans: iset<Job>, s: Stores) {
    forall turn, ref :: ref in Strings(Lookup(s.graph, turn), TurnKnowledgeRef) ==> Backed(names, plans, s, turn, ref)
  }

  ghost predicate ReceiptsComplete(names: Names, plans: iset<Job>, s: Stores) {
    forall turnID :: turnID in s.receipts ==>
      s.receipts[turnID].turnID == turnID && ReceiptComplete(names, plans, s, s.receipts[turnID])
  }

  ghost predicate TaskSound(names: Names, plans: iset<Job>, s: Stores, task: Task) {
    && task.job in plans
    && task.done < |CommitWrites(names, task.job, task.at)|
    && forall i :: 0 <= i < task.done ==> Landed(s, CommitWrites(names, task.job, task.at)[i])
  }

  ghost predicate Inv(names: Names, plans: iset<Job>, w: World) {
    && ReceiptsComplete(names, plans, w.stores)
    && RefsBacked(names, plans, w.stores)
    && (forall worker :: worker in w.tasks ==> TaskSound(names, plans, w.stores, w.tasks[worker]))
  }

  lemma TaskGrows(names: Names, plans: iset<Job>, s: Stores, s': Stores, task: Task)
    requires PlansValid(names, plans) && Grows(names, s, s') && TaskSound(names, plans, s, task)
    ensures TaskSound(names, plans, s', task)
  {
    forall i | 0 <= i < task.done ensures Landed(s', CommitWrites(names, task.job, task.at)[i]) {
      CommitWritesOnGrantIDs(names, task.job, task.at, i);
      LandedGrows(names, s, s', CommitWrites(names, task.job, task.at)[i]);
    }
  }

  lemma ReceiptGrows(names: Names, plans: iset<Job>, s: Stores, s': Stores, receipt: Receipt)
    requires Grows(names, s, s') && ReceiptComplete(names, plans, s, receipt)
    ensures ReceiptComplete(names, plans, s', receipt)
  {
    var job :| job in plans && receipt == ReceiptOf(names, job) &&
      forall i :: 0 <= i < |job.entries| ==> EntryComplete(names, s, job, job.entries[i]);
    forall i | 0 <= i < |job.entries| ensures EntryComplete(names, s', job, job.entries[i]) {
      EntryGrows(names, s, s', job, job.entries[i]);
    }
  }

  lemma EntryGrows(names: Names, s: Stores, s': Stores, job: Job, entry: Entry)
    requires Grows(names, s, s') && EntryComplete(names, s, job, entry)
    ensures EntryComplete(names, s', job, entry)
  {
    assert IsKnowledgeID(names, KnowledgeWrite(names, entry, 0).id);
    assert IsRevelationID(names, RevelationWrite(names, job, entry, 0).id);
  }

  lemma MeaningIgnoresTime(names: Names, job: Job, entry: Entry, s: Stores, at: int)
    ensures Landed(s, KnowledgeWrite(names, entry, at)) ==> Landed(s, KnowledgeWrite(names, entry, 0))
    ensures Landed(s, RevelationWrite(names, job, entry, at)) ==> Landed(s, RevelationWrite(names, job, entry, 0))
  {
    var id := names.knowledge(entry.recipient, entry.evidence);
    assert Meanings(KnowledgeBirth(id, entry.recipient, entry.evidence, at)) ==
           Meanings(KnowledgeBirth(id, entry.recipient, entry.evidence, 0));
    assert Meanings(RevelationBirth(names, job, entry, at)) == Meanings(RevelationBirth(names, job, entry, 0));
  }

  /** Once a commit's entity writes are all accepted, everything its receipt will name exists. */
  lemma EntitiesLanded(names: Names, s: Stores, job: Job, at: int, i: nat)
    requires i < |job.entries|
    requires forall k :: 0 <= k < |EntityWrites(names, job, at)| ==> Landed(s, CommitWrites(names, job, at)[k])
    ensures EntryComplete(names, s, job, job.entries[i])
  {
    var testimonies, entry := TestimonyWrites(names, job, job.entries), job.entries[i];
    assert CommitWrites(names, job, at)[|testimonies| + i] == KnowledgeWrite(names, entry, at);
    assert CommitWrites(names, job, at)[|testimonies| + |job.entries| + i] == RevelationWrite(names, job, entry, at);
    MeaningIgnoresTime(names, job, entry, s, at);
    if entry.testimony.Some? {
      TestimonyAt(names, job, i);
      var done := |TestimonyWrites(names, job, job.entries[..i])|;
      assert CommitWrites(names, job, at)[done] == testimonies[done];
    }
  }

  // ---- Every step keeps it -------------------------------------------------

  /** A reference that lands only ever adds itself. */
  lemma RefLands(g: GraphState, turn: EntityID, ref: string, at: int, reply: Reply, other: EntityID, text: string)
    ensures var g' := ReconcileOutcome(g, TURN_KNOWLEDGE, turn, [RefTriple(turn, ref, at)], reply).0;
      text in Strings(Lookup(g', other), TurnKnowledgeRef) ==>
        (text == ref && other == turn) || text in Strings(Lookup(g, other), TurnKnowledgeRef)
  {
    var desired := [RefTriple(turn, ref, at)];
    var g' := ReconcileOutcome(g, TURN_KNOWLEDGE, turn, desired, reply).0;
    ReconcileObjects(g, TURN_KNOWLEDGE, turn, desired, reply);
    if other == turn && turn in g && g'[turn] != g[turn] {
      ReplaceTriples(g[turn], TURN_KNOWLEDGE, desired, TurnKnowledgeRef);
      WithinEverything(desired, {TurnKnowledgeRef});
      StringsAreObjects(g'[turn], TurnKnowledgeRef, text);
    }
  }

  lemma NewRefs(names: Names, s: Stores, write: GrantWrite, reply: Reply, turn: EntityID, ref: string)
    requires write.CreateOrVerify? ==> ref !in Strings(write.birth, TurnKnowledgeRef)
    requires ref in Strings(Lookup(Land(names, s, write, reply).0.graph, turn), TurnKnowledgeRef)
    ensures ref in Strings(Lookup(s.graph, turn), TurnKnowledgeRef) ||
            (write.LandRef? && write.turn == turn && write.ref == ref)
  {
    match write
    case PutTestimony(_, _) =>
    case CreateOrVerify(id, birth) => CreateKeeps(s.graph, id, birth, reply);
    case PutReceipt(_) =>
    case LandRef(t, r, at) => RefLands(s.graph, t, r, at, reply, turn, ref);
  }

  lemma LandKeepsRefs(names: Names, plans: iset<Job>, s: Stores, write: GrantWrite, reply: Reply)
    requires RefsBacked(names, plans, s) && OnGrantID(names, write)
    requires write.CreateOrVerify? ==> forall ref :: ref !in Strings(write.birth, TurnKnowledgeRef)
    requires write.LandRef? ==> Backed(names, plans, s, write.turn, write.ref)
    ensures RefsBacked(names, plans, Land(names, s, write, reply).0)
  {
    var s' := Land(names, s, write, reply).0;
    LandGrows(names, s, write, reply);
    forall turn, ref | ref in Strings(Lookup(s'.graph, turn), TurnKnowledgeRef)
      ensures Backed(names, plans, s', turn, ref)
    {
      NewRefs(names, s, write, reply, turn, ref);
      assert Backed(names, plans, s, turn, ref);
      var job :| job in plans && job.turn == turn && job.turnID in s.receipts && names.receiptRef(job.turnID) == ref;
      assert job.turnID in s'.receipts;
    }
  }

  lemma {:induction false} NoRefsWithout(s: EntityState, ref: string)
    requires forall i :: 0 <= i < |s| ==> s[i].pred != TurnKnowledgeRef
    ensures ref !in Strings(s, TurnKnowledgeRef)
  {
    if s != [] {
      NoRefsWithout(s[1..], ref);
    }
  }

  /** The entity behind each create of a commit. */
  lemma CreateShape(names: Names, job: Job, at: int, i: nat) returns (j: nat)
    requires i < |CommitWrites(names, job, at)| && CommitWrites(names, job, at)[i].CreateOrVerify?
    ensures j < |job.entries|
    ensures CommitWrites(names, job, at)[i] == KnowledgeWrite(names, job.entries[j], at) ||
            CommitWrites(names, job, at)[i] == RevelationWrite(names, job, job.entries[j], at)
  {
    var n := |TestimonyWrites(names, job, job.entries)|;
    if i < n {
      TestimoniesOnly(names, job, job.entries, i);
    }
    j := if i < n + |job.entries| then i - n else i - n - |job.entries|;
  }

  lemma KnowledgeHoldsNoRefs(id: EntityID, recipient: EntityID, evidence: EntityID, at: int, ref: string)
    ensures ref !in Strings(KnowledgeBirth(id, recipient, evidence, at), TurnKnowledgeRef)
  {
    NoRefsWithout(KnowledgeBirth(id, recipient, evidence, at), ref);
  }

  lemma RevelationHoldsNoRefs(names: Names, job: Job, entry: Entry, at: int, ref: string)
    ensures ref !in Strings(RevelationBirth(names, job, entry, at), TurnKnowledgeRef)
  {
    var core, attribution := RevelationCore(names, job, entry, at), Attribution(names, job, entry, at);
    WithinNothing(core, {TurnKnowledgeRef});
    WithinNothing(attribution, {TurnKnowledgeRef});
    WithinConcat(core, attribution, {TurnKnowledgeRef});
    StringsAreObjects(core + attribution, TurnKnowledgeRef, ref);
  }

  lemma BirthsHoldNoRefs(names: Names, job: Job, at: int, i: nat, ref: string)
    requires i < |CommitWrites(names, job, at)| && CommitWrites(names, job, at)[i].CreateOrVerify?
    ensures ref !in Strings(CommitWrites(names, job, at)[i].birth, TurnKnowledgeRef)
  {
    var j := CreateShape(names, job, at, i);
    var entry := job.entries[j];
    KnowledgeHoldsNoRefs(names.knowledge(entry.recipient, entry.evidence), entry.recipient, entry.evidence, at, ref);
    RevelationHoldsNoRefs(names, job, entry, at, ref);
  }

  lemma ReceiptStored(names: Names, plans: iset<Job>, s: Stores, task: Task, reply: Reply)
    requires PlansValid(names, plans) && TaskSound(names, plans, s, task)
    requires ReceiptsComplete(names, plans, s)
    ensures ReceiptsComplete(names, plans, Land(names, s, CommitWrites(names, task.job, task.at)[task.done], reply).0)
  {
    var write := CommitWrites(names, task.job, task.at)[task.done];
    var s' := Land(names, s, write, reply).0;
    CommitWritesOnGrantIDs(names, task.job, task.at, task.done);
    LandGrows(names, s, write, reply);
    if write.PutReceipt? {
      PutReceiptIsNext(names, task.job, task.at, task.done);
      forall i | 0 <= i < |task.job.entries| ensures EntryComplete(names, s', task.job, task.job.entries[i]) {
        EntitiesLanded(names, s, task.job, task.at, i);
        EntryGrows(names, s, s', task.job, task.job.entries[i]);
      }
      assert ReceiptComplete(names, plans, s', ReceiptOf(names, task.job));
    }
    forall turnID | turnID in s'.receipts
      ensures s'.receipts[turnID].turnID == turnID && ReceiptComplete(names, plans, s', s'.receipts[turnID])
    {
      if turnID in s.receipts && s'.receipts[turnID] == s.receipts[turnID] {
        ReceiptGrows(names, plans, s, s', s.receipts[turnID]);
      }
    }
  }

  lemma PutReceiptIsNext(names: Names, job: Job, at: int, i: nat)
    requires i < |CommitWrites(names, job, at)|
    requires CommitWrites(names, job, at)[i].PutReceipt? || CommitWrites(names, job, at)[i].LandRef?
    ensures CommitWrites(names, job, at)[i].PutReceipt? ==>
              i == |EntityWrites(names, job, at)| && CommitWrites(names, job, at)[i].receipt == ReceiptOf(names, job)
    ensures CommitWrites(names, job, at)[i].LandRef? ==>
              i == |EntityWrites(names, job, at)| + 1 &&
              CommitWrites(names, job, at)[i - 1] == PutReceipt(ReceiptOf(names, job)) &&
              CommitWrites(names, job, at)[i] == LandRef(job.turn, names.receiptRef(job.turnID), at)
  {
    if i < |TestimonyWrites(names, job, job.entries)| {
      TestimoniesOnly(names, job, job.entries, i);
    }
  }

  lemma WriteKeeps(names: Names, plans: iset<Job>, w: World, worker: Worker, reply: Reply)
    requires PlansValid(names, plans) && Inv(names, plans, w) && worker in w.tasks
    ensures Inv(names, plans, WriteStep(names, w, worker, reply))
  {
    var task := w.tasks[worker];
    NextWriteKeepsRefs(names, plans, w.stores, task, reply);
    ReceiptStored(names, plans, w.stores, task, reply);
    TasksKeep(names, plans, w, worker, reply);
  }

  lemma NextWriteKeepsRefs(names: Names, plans: iset<Job>, s: Stores, task: Task, reply: Reply)
    requires PlansValid(names, plans) && TaskSound(names, plans, s, task) && RefsBacked(names, plans, s)
    ensures RefsBacked(names, plans, Land(names, s, CommitWrites(names, task.job, task.at)[task.done], reply).0)
  {
    var write := CommitWrites(names, task.job, task.at)[task.done];
    CommitWritesOnGrantIDs(names, task.job, task.at, task.done);
    if write.CreateOrVerify? {
      forall ref { BirthsHoldNoRefs(names, task.job, task.at, task.done, ref); }
    }
    if write.LandRef? {
      PutReceiptIsNext(names, task.job, task.at, task.done);
      assert Landed(s, CommitWrites(names, task.job, task.at)[task.done - 1]);
      assert Backed(names, plans, s, write.turn, write.ref);
    }
    LandKeepsRefs(names, plans, s, write, reply);
  }

  lemma TasksKeep(names: Names, plans: iset<Job>, w: World, worker: Worker, reply: Reply)
    requires PlansValid(names, plans) && worker in w.tasks && TaskSound(names, plans, w.stores, w.tasks[worker])
    requires forall other :: other in w.tasks ==> TaskSound(names, plans, w.stores, w.tasks[other])
    ensures var w' := WriteStep(names, w, worker, reply);
      forall other :: other in w'.tasks ==> TaskSound(names, plans, w'.stores, w'.tasks[other])
  {
    var task, w' := w.tasks[worker], WriteStep(names, w, worker, reply);
    var write := CommitWrites(names, task.job, task.at)[task.done];
    var (s', ok) := Land(names, w.stores, write, reply);
    CommitWritesOnGrantIDs(names, task.job, task.at, task.done);
    LandGrows(names, w.stores, write, reply);
    forall other | other in w'.tasks ensures TaskSound(names, plans, s', w'.tasks[other]) {
      TaskGrows(names, plans, w.stores, s', w.tasks[other]);
      if other == worker {
        TaskAdvances(names, plans, s', task);
      }
    }
  }

  lemma TaskAdvances(names: Names, plans: iset<Job>, s: Stores, task: Task)
    requires TaskSound(names, plans, s, task) && task.done + 1 < |CommitWrites(names, task.job, task.at)|
    requires Landed(s, CommitWrites(names, task.job, task.at)[task.done])
    ensures TaskSound(names, plans, s, task.(done := task.done + 1))
  {}

  lemma StepKeeps(names: Names, plans: iset<Job>, w: World, event: Event)
    requires PlansValid(names, plans) && Inv(names, plans, w)
    ensures Inv(names, plans, Step(names, plans, w, event))
  {
    match event
    case Begin(_, _, _) =>
    case Write(worker, reply) =>
      if worker in w.tasks {
        WriteKeeps(names, plans, w, worker, reply);
      }
    case Crash(_) =>
    case Environment(next) =>
      if LeavesGrants(names, w.stores.graph, next) {
        var s' := w.stores.(graph := next);
        forall turnID | turnID in s'.receipts ensures ReceiptComplete(names, plans, s', s'.receipts[turnID]) {
          ReceiptGrows(names, plans, w.stores, s', w.stores.receipts[turnID]);
        }
        forall turn, ref | ref in Strings(Lookup(next, turn), TurnKnowledgeRef)
          ensures Backed(names, plans, s', turn, ref)
        {
          assert Backed(names, plans, w.stores, turn, ref);
        }
        forall worker | worker in w.tasks ensures TaskSound(names, plans, s', w.tasks[worker]) {
          TaskGrows(names, plans, w.stores, s', w.tasks[worker]);
        }
      }
  }

  ghost predicate Fresh(s: Stores) {
    && s.receipts == map[]
    && forall turn :: Strings(Lookup(s.graph, turn), TurnKnowledgeRef) == []
  }

  lemma {:induction false} RunKeeps(names: Names, plans: iset<Job>, s: Stores, events: seq<Event>)
    requires PlansValid(names, plans) && Fresh(s)
    ensures Inv(names, plans, Run(names, plans, World(s, map[]), events))
    decreases |events|
  {
    if events != [] {
      var earlier := events[..|events| - 1];
      RunKeeps(names, plans, s, earlier);
      StepKeeps(names, plans, Run(names, plans, World(s, map[]), earlier), events[|events| - 1]);
    }
  }

  /** Whatever plans race and wherever they are cut off: a turn that carries a knowledge reference has the receipt of a
      plan of its own stored, and for every entry of that receipt the knowledge and revelation entity exist and mean
      what was granted, and the testimony is stored. */
  lemma ReferenceImpliesGrant(
    names: Names, plans: iset<Job>, s: Stores, events: seq<Event>, turn: EntityID, ref: string)
    requires PlansValid(names, plans) && Fresh(s)
    requires ref in Strings(Lookup(Run(names, plans, World(s, map[]), events).stores.graph, turn), TurnKnowledgeRef)
    ensures var after := Run(names, plans, World(s, map[]), events).stores;
      exists job :: job in plans && job.turn == turn && job.turnID in after.receipts &&
        names.receiptRef(job.turnID) == ref && after.receipts[job.turnID].turnID == job.turnID &&
        ReceiptComplete(names, plans, after, after.receipts[job.turnID])
  {
    RunKeeps(names, plans, s, events);
    var after := Run(names, plans, World(s, map[]), events).stores;
    assert Backed(names, plans, after, turn, ref);
  }

  // ---- Rerunning converges -------------------------------------------------

  /** Collision-free identities: knowledge is keyed by its pair alone, revelations also by turn and decision. */
  ghost predicate Injective(names: Names) {
    && (forall r1, e1, r2, e2 :: names.knowledge(r1, e1) == names.knowledge(r2, e2) ==> r1 == r2 && e1 == e2)
    && (forall t1, d1, r1, e1, t2, d2, r2, e2 ::
          names.revelation(t1, d1, r1, e1) == names.revelation(t2, d2, r2, e2) ==>
            t1 == t2 && d1 == d2 && r1 == r2 && e1 == e2)
    && (forall r1, e1, t, d, r2, e2 :: names.knowledge(r1, e1) != names.revelation(t, d, r2, e2))
  }

  ghost predicate DistinctTestimonies(names: Names) {
    forall t1, d1, b1, r1, e1, t2, d2, b2, r2, e2 ::
      names.testimony(t1, d1, b1, r1, e1) == names.testimony(t2, d2, b2, r2, e2) ==>
        t1 == t2 && d1 == d2 && r1 == r2 && e1 == e2
  }

  /** Reruns of one decision derive one plan: they agree on what backs each pair. */
  ghost predicate Consistent(plans: iset<Job>) {
    forall a, b, i, j ::
      && a in plans && b in plans && a.turnID == b.turnID && a.decisionID == b.decisionID
      && 0 <= i < |a.entries| && 0 <= j < |b.entries| && SamePair(a.entries[i], b.entries[j]) ==>
        a.entries[i] == b.entries[j]
  }

  ghost predicate KnowledgeWanted(names: Names, id: EntityID, state: EntityState) {
    exists entry: Entry ::
      KnowledgeWrite(names, entry, 0).id == id && SameMeaning(state, KnowledgeWrite(names, entry, 0).birth)
  }

  ghost predicate RevelationWanted(names: Names, plans: iset<Job>, id: EntityID, state: EntityState) {
    exists job, i :: job in plans && 0 <= i < |job.entries| &&
      RevelationWrite(names, job, job.entries[i], 0).id == id &&
      SameMeaning(state, RevelationWrite(names, job, job.entries[i], 0).birth)
  }

  /** Every granted entity in the graph says what some started plan wants it to say. */
  ghost predicate Rightful(names: Names, plans: iset<Job>, g: GraphState) {
    && (forall id :: id in g && IsKnowledgeID(names, id) ==> KnowledgeWanted(names, id, g[id]))
    && (forall id :: id in g && IsRevelationID(names, id) ==> RevelationWanted(names, plans, id, g[id]))
  }

  /** Grants of one pair by different turns want one and the same knowledge entity. */
  lemma KnowledgeAgrees(names: Names, id: EntityID, state: EntityState, entry: Entry, at: int)
    requires Injective(names) && KnowledgeWanted(names, id, state) && KnowledgeWrite(names, entry, at).id == id
    ensures SameMeaning(state, KnowledgeWrite(names, entry, at).birth)
  {
    var other: Entry :|
      KnowledgeWrite(names, other, 0).id == id && SameMeaning(state, KnowledgeWrite(names, other, 0).birth);
    assert Meanings(KnowledgeWrite(names, other, 0).birth) == Meanings(KnowledgeWrite(names, entry, at).birth);
  }

  lemma RevelationAgrees(
    names: Names, plans: iset<Job>, id: EntityID, state: EntityState, job: Job, i: nat, at: int)
    requires Injective(names) && Consistent(plans) && job in plans && i < |job.entries|
    requires RevelationWanted(names, plans, id, state) && RevelationWrite(names, job, job.entries[i], at).id == id
    ensures SameMeaning(state, RevelationWrite(names, job, job.entries[i], at).birth)
  {
    var other, j :| other in plans && 0 <= j < |other.entries| &&
      RevelationWrite(names, other, other.entries[j], 0).id == id &&
      SameMeaning(state, RevelationWrite(names, other, other.entries[j], 0).birth);
    assert other.turnID == job.turnID && other.decisionID == job.decisionID;
    assert SamePair(other.entries[j], job.entries[i]);
    RevelationMeans(names, other, job, job.entries[i], at);
  }

  /** What a revelation means depends on its turn, its decision and its entry alone. */
  lemma RevelationMeans(names: Names, a: Job, b: Job, entry: Entry, at: int)
    requires a.turnID == b.turnID && a.decisionID == b.decisionID
    ensures Meanings(RevelationBirth(names, a, entry, 0)) == Meanings(RevelationBirth(names, b, entry, at))
  {}

  /** A create of a started plan never finds a conflicting resident. */
  lemma CreateAgrees(names: Names, plans: iset<Job>, g: GraphState, job: Job, at: int, k: nat)
    requires Injective(names) && Consistent(plans) && Rightful(names, plans, g) && job in plans
    requires k < |CommitWrites(names, job, at)| && CommitWrites(names, job, at)[k].CreateOrVerify?
    ensures var write := CommitWrites(names, job, at)[k];
      write.id in g ==> SameMeaning(g[write.id], write.birth)
  {
    var write := CommitWrites(names, job, at)[k];
    var j := CreateShape(names, job, at, k);
    if write.id in g {
      if write == KnowledgeWrite(names, job.entries[j], at) {
        assert IsKnowledgeID(names, write.id);
        KnowledgeAgrees(names, write.id, g[write.id], job.entries[j], at);
      } else {
        assert IsRevelationID(names, write.id);
        RevelationAgrees(names, plans, write.id, g[write.id], job, j, at);
      }
    }
  }

  /** Any one write of a started plan keeps granted entities rightful, whatever its reply. */
  lemma LandKeepsRightful(names: Names, plans: iset<Job>, s: Stores, job: Job, at: int, k: nat, reply: Reply)
    requires Injective(names) && PlansValid(names, plans) && Rightful(names, plans, s.graph) && job in plans
    requires k < |CommitWrites(names, job, at)|
    ensures Rightful(names, plans, Land(names, s, CommitWrites(names, job, at)[k], reply).0.graph)
  {
    var write := CommitWrites(names, job, at)[k];
    CommitWritesOnGrantIDs(names, job, at, k);
    LandGrows(names, s, write, reply);
    match write
    case PutTestimony(_, _) =>
    case PutReceipt(_) =>
    case LandRef(turn, ref, _) =>
      ReconcileObjects(s.graph, TURN_KNOWLEDGE, turn, [RefTriple(turn, ref, write.at)], reply);
      UnmovedRightful(names, plans, s.graph, Land(names, s, write, reply).0.graph);
    case CreateOrVerify(id, birth) =>
      CreateKeeps(s.graph, id, birth, reply);
      var j := CreateShape(names, job, at, k);
      BirthIsWanted(names, plans, job, j, at);
      NeverBoth(names, id);
      BornRightful(names, plans, s.graph, id, birth);
  }

  lemma UnmovedRightful(names: Names, plans: iset<Job>, g: GraphState, g': GraphState)
    requires Rightful(names, plans, g)
    requires forall id :: IsGrantID(names, id) && id in g' ==> id in g && g'[id] == g[id]
    ensures Rightful(names, plans, g')
  {}

  lemma BornRightful(names: Names, plans: iset<Job>, g: GraphState, id: EntityID, birth: EntityState)
    requires Rightful(names, plans, g)
    requires IsKnowledgeID(names, id) ==> KnowledgeWanted(names, id, birth)
    requires IsRevelationID(names, id) ==> RevelationWanted(names, plans, id, birth)
    ensures Rightful(names, plans, g[id := birth])
  {}

  lemma NeverBoth(names: Names, id: EntityID)
    requires Injective(names)
    ensures !(IsKnowledgeID(names, id) && IsRevelationID(names, id))
  {}

  lemma BirthIsWanted(names: Names, plans: iset<Job>, job: Job, j: nat, at: int)
    requires job in plans && j < |job.entries|
    ensures var write := KnowledgeWrite(names, job.entries[j], at);
      IsKnowledgeID(names, write.id) && KnowledgeWanted(names, write.id, write.birth)
    ensures var write := RevelationWrite(names, job, job.entries[j], at);
      IsRevelationID(names, write.id) && RevelationWanted(names, plans, write.id, write.birth)
  {
    var entry := job.entries[j];
    assert Meanings(KnowledgeWrite(names, entry, at).birth) == Meanings(KnowledgeWrite(names, entry, 0).birth);
    assert Meanings(RevelationWrite(names, job, entry, at).birth) == Meanings(RevelationWrite(names, job, entry, 0).birth);
    assert KnowledgeWrite(names, entry, 0).id == KnowledgeWrite(names, entry, at).id;
    assert RevelationWrite(names, job, entry, 0).id == RevelationWrite(names, job, entry, at).id;
  }

  lemma StepKeepsRightful(names: Names, plans: iset<Job>, w: World, event: Event)
    requires Injective(names) && PlansValid(names, plans) && Inv(names, plans, w)
    requires Rightful(names, plans, w.stores.graph)
    ensures Rightful(names, plans, Step(names, plans, w, event).stores.graph)
  {
    match event
    case Begin(_, _, _) =>
    case Write(worker, reply) =>
      if worker in w.tasks {
        var task := w.tasks[worker];
        LandKeepsRightful(names, plans, w.stores, task.job, task.at, task.done, reply);
      }
    case Crash(_) =>
    case Environment(next) =>
      assert forall id :: IsKnowledgeID(names, id) ==> IsGrantID(names, id);
      assert forall id :: IsRevelationID(names, id) ==> IsGrantID(names, id);
  }

  lemma {:induction false} RunKeepsRightful(names: Names, plans: iset<Job>, s: Stores, events: seq<Event>)
    requires Injective(names) && PlansValid(names, plans) && Fresh(s) && Rightful(names, plans, s.graph)
    ensures Rightful(names, plans, Run(names, plans, World(s, map[]), events).stores.graph)
    decreases |events|
  {
    if events != [] {
      var earlier := events[..|events| - 1];
      RunKeeps(names, plans, s, earlier);
      RunKeepsRightful(names, plans, s, earlier);
      StepKeepsRightful(names, plans, Run(names, plans, World(s, map[]), earlier), events[|events| - 1]);
    }
  }

  // ---- What testimonies say ------------------------------------------------

  function Spoken(job: Job, i: nat): StoredTestimony
    requires i < |job.entries| && job.entries[i].testimony.Some?
  {
    StoredTestimony(job.turnID, job.decisionID, job.entries[i].testimony.value)
  }

  ghost predicate SpokenBy(names: Names, plans: iset<Job>, key: string, testimony: StoredTestimony) {
    exists job, i: nat :: job in plans && i < |job.entries| && job.entries[i].testimony.Some? &&
      key == TestimonyKey(names, job, job.entries[i]) && testimony == Spoken(job, i)
  }

  /** Every stored testimony is what some started plan has under that key. */
  ghost predicate Voiced(names: Names, plans: iset<Job>, s: Stores) {
    forall key :: key in s.testimonies ==> SpokenBy(names, plans, key, s.testimonies[key])
  }

  lemma LandKeepsVoiced(names: Names, plans: iset<Job>, s: Stores, job: Job, at: int, k: nat, reply: Reply)
    requires Voiced(names, plans, s) && job in plans && k < |CommitWrites(names, job, at)|
    ensures Voiced(names, plans, Land(names, s, CommitWrites(names, job, at)[k], reply).0)
  {
    var write := CommitWrites(names, job, at)[k];
    if write.PutTestimony? {
      var j := TestimonyShape(names, job, job.entries, k);
      assert SpokenBy(names, plans, write.key, write.testimony) by {
        assert write.testimony == Spoken(job, j);
      }
    }
  }

  /** A testimony stored under an entry's key is that entry's own. */
  lemma TestimonyIsExact(names: Names, plans: iset<Job>, s: Stores, job: Job, i: nat)
    requires DistinctTestimonies(names) && Consistent(plans) && Voiced(names, plans, s) && job in plans
    requires i < |job.entries| && job.entries[i].testimony.Some?
    requires TestimonyKey(names, job, job.entries[i]) in s.testimonies
    ensures s.testimonies[TestimonyKey(names, job, job.entries[i])] == Spoken(job, i)
  {
    var key := TestimonyKey(names, job, job.entries[i]);
    assert SpokenBy(names, plans, key, s.testimonies[key]);
    var other, j: nat :| other in plans && j < |other.entries| && other.entries[j].testimony.Some? &&
      key == TestimonyKey(names, other, other.entries[j]) && s.testimonies[key] == Spoken(other, j);
    assert SamePair(other.entries[j], job.entries[i]);
  }

  lemma {:induction false} RunKeepsVoiced(names: Names, plans: iset<Job>, s: Stores, events: seq<Event>)
    requires PlansValid(names, plans) && Fresh(s) && Voiced(names, plans, s)
    ensures Voiced(names, plans, Run(names, plans, World(s, map[]), events).stores)
    decreases |events|
  {
    if events != [] {
      var earlier, last := events[..|events| - 1], events[|events| - 1];
      RunKeeps(names, plans, s, earlier);
      RunKeepsVoiced(names, plans, s, earlier);
      var w := Run(names, plans, World(s, map[]), earlier);
      if last.Write? && last.worker in w.tasks {
        var task := w.tasks[last.worker];
        assert TaskSound(names, plans, w.stores, task);
        LandKeepsVoiced(names, plans, w.stores, task.job, task.at, task.done, last.reply);
      }
    }
  }

  /** Everything an entry promises is there and says what was granted, the testimony word for word. */
  ghost predicate EntryExact(names: Names, s: Stores, job: Job, i: nat)
    requires i < |job.entries|
  {
    && EntryComplete(names, s, job, job.entries[i])
    && (job.entries[i].testimony.Some? ==>
          TestimonyKey(names, job, job.entries[i]) in s.testimonies &&
          s.testimonies[TestimonyKey(names, job, job.entries[i])] == Spoken(job, i))
  }

  /** When reruns of one decision agree, a turn's knowledge reference leads to a plan whose every entity means what was
      granted and whose every testimony is stored word for word. */
  lemma ReferenceImpliesExactGrant(
    names: Names, plans: iset<Job>, s: Stores, events: seq<Event>, turn: EntityID, ref: string)
    requires DistinctTestimonies(names) && Consistent(plans) && PlansValid(names, plans)
    requires Fresh(s) && Voiced(names, plans, s)
    requires ref in Strings(Lookup(Run(names, plans, World(s, map[]), events).stores.graph, turn), TurnKnowledgeRef)
    ensures var after := Run(names, plans, World(s, map[]), events).stores;
      exists own, job :: own in plans && own.turn == turn && names.receiptRef(own.turnID) == ref &&
        job in plans && job.turnID == own.turnID && own.turnID in after.receipts &&
        after.receipts[own.turnID] == ReceiptOf(names, job) &&
        forall i :: 0 <= i < |job.entries| ==> EntryExact(names, after, job, i)
  {
    var after := Run(names, plans, World(s, map[]), events).stores;
    ReferenceImpliesGrant(names, plans, s, events, turn, ref);
    RunKeepsVoiced(names, plans, s, events);
    var own :| own in plans && own.turn == turn && own.turnID in after.receipts &&
      names.receiptRef(own.turnID) == ref && after.receipts[own.turnID].turnID == own.turnID &&
      ReceiptComplete(names, plans, after, after.receipts[own.turnID]);
    var job :| job in plans && after.receipts[own.turnID] == ReceiptOf(names, job) &&
      forall i :: 0 <= i < |job.entries| ==> EntryComplete(names, after, job, job.entries[i]);
    forall i | 0 <= i < |job.entries| ensures EntryExact(names, after, job, i) {
      if job.entries[i].testimony.Some? {
        TestimonyIsExact(names, plans, after, job, i);
      }
    }
  }

  /** The artifacts of a batch pass their own validation, and its turn exists. */
  ghost predicate Storable(names: Names, s: Stores, job: Job) {
    && job.turn in s.graph
    && ReceiptValid(names.formats, ReceiptOf(names, job))
    && forall i :: 0 <= i < |job.entries| && job.entries[i].testimony.Some? ==>
         TestimonyValid(names.formats, StoredTestimony(job.turnID, job.decisionID, job.entries[i].testimony.value))
  }

  lemma {:induction false} TestimonyShape(names: Names, job: Job, entries: seq<Entry>, i: nat) returns (j: nat)
    requires i < |TestimonyWrites(names, job, entries)|
    ensures j < |entries| && entries[j].testimony.Some?
    ensures TestimonyWrites(names, job, entries)[i] ==
            PutTestimony(TestimonyKey(names, job, entries[j]),
                         StoredTestimony(job.turnID, job.decisionID, entries[j].testimony.value))
  {
    if i < |TestimonyWrites(names, job, entries[..|entries| - 1])| {
      j := TestimonyShape(names, job, entries[..|entries| - 1], i);
    } else {
      j := |entries| - 1;
    }
  }

  /** With nothing going wrong, the next write of a started plan is accepted. */
  lemma CleanWrite(names: Names, plans: iset<Job>, s: Stores, job: Job, at: int, k: nat)
    requires Injective(names) && Consistent(plans) && Rightful(names, plans, s.graph) && job in plans
    requires Storable(names, s, job) && k < |CommitWrites(names, job, at)|
    ensures Land(names, s, CommitWrites(names, job, at)[k], Committed).1
    ensures job.turn in Land(names, s, CommitWrites(names, job, at)[k], Committed).0.graph
  {
    var write := CommitWrites(names, job, at)[k];
    match write
    case CreateOrVerify(_, _) => CleanCreate(names, plans, s, job, at, k);
    case PutTestimony(_, _) => CleanTestimony(names, s, job, at, k);
    case PutReceipt(_) => PutReceiptIsNext(names, job, at, k);
    case LandRef(_, _, _) => PutReceiptIsNext(names, job, at, k);
  }

  lemma CleanCreate(names: Names, plans: iset<Job>, s: Stores, job: Job, at: int, k: nat)
    requires Injective(names) && Consistent(plans) && Rightful(names, plans, s.graph) && job in plans
    requires job.turn in s.graph && k < |CommitWrites(names, job, at)| && CommitWrites(names, job, at)[k].CreateOrVerify?
    ensures Land(names, s, CommitWrites(names, job, at)[k], Committed).1
    ensures job.turn in Land(names, s, CommitWrites(names, job, at)[k], Committed).0.graph
  {
    var write := CommitWrites(names, job, at)[k];
    CreateAgrees(names, plans, s.graph, job, at, k);
    CreateKeeps(s.graph, write.id, write.birth, Committed);
  }

  lemma CleanTestimony(names: Names, s: Stores, job: Job, at: int, k: nat)
    requires Storable(names, s, job) && k < |CommitWrites(names, job, at)| && CommitWrites(names, job, at)[k].PutTestimony?
    ensures Land(names, s, CommitWrites(names, job, at)[k], Committed).1
    ensures Land(names, s, CommitWrites(names, job, at)[k], Committed).0.graph == s.graph
  {
    if k < |TestimonyWrites(names, job, job.entries)| {
      var j := TestimonyShape(names, job, job.entries, k);
    }
  }

  /** The turn carries the reference of its receipt, and no other. */
  ghost predicate Refers(names: Names, s: Stores, job: Job) {
    Strings(Lookup(s.graph, job.turn), TurnKnowledgeRef) == [names.receiptRef(job.turnID)]
  }

  lemma RefStands(names: Names, s: Stores, job: Job, at: int)
    requires job.turn in s.graph
    ensures var s' := Land(names, s, LandRef(job.turn, names.receiptRef(job.turnID), at), Committed).0;
      Refers(names, s', job) && s'.receipts == s.receipts
  {
    var desired := [RefTriple(job.turn, names.receiptRef(job.turnID), at)];
    ReplaceTriples(s.graph[job.turn], TURN_KNOWLEDGE, desired, TurnKnowledgeRef);
    WithinEverything(desired, {TurnKnowledgeRef});
    StringsFromTriples(Replace(s.graph[job.turn], TURN_KNOWLEDGE, desired), desired, TurnKnowledgeRef);
  }

  /** The first `k` writes of a plan have landed, and nothing granted contradicts any started plan. */
  ghost predicate Rerun(names: Names, plans: iset<Job>, s: Stores, job: Job, at: int, k: nat)
    requires k <= |CommitWrites(names, job, at)|
  {
    && Rightful(names, plans, s.graph) && Voiced(names, plans, s) && job.turn in s.graph
    && (forall i :: 0 <= i < k ==> Landed(s, CommitWrites(names, job, at)[i]))
    && (k > |EntityWrites(names, job, at)| ==>
          job.turnID in s.receipts && s.receipts[job.turnID] == ReceiptOf(names, job))
    && (k == |CommitWrites(names, job, at)| ==> Refers(names, s, job))
  }

  lemma RerunStep(names: Names, plans: iset<Job>, s: Stores, job: Job, at: int, k: nat)
    requires Injective(names) && Consistent(plans) && PlansValid(names, plans) && job in plans
    requires Storable(names, s, job) && k < |CommitWrites(names, job, at)| && Rerun(names, plans, s, job, at, k)
    ensures Land(names, s, CommitWrites(names, job, at)[k], Committed).1
    ensures Rerun(names, plans, Land(names, s, CommitWrites(names, job, at)[k], Committed).0, job, at, k + 1)
  {
    var writes := CommitWrites(names, job, at);
    CleanWrite(names, plans, s, job, at, k);
    LandKeepsRightful(names, plans, s, job, at, k, Committed);
    LandKeepsVoiced(names, plans, s, job, at, k, Committed);
    LandedPrefix(names, plans, s, job, at, k);
    if k >= |EntityWrites(names, job, at)| {
      FinalStep(names, s, job, at, k);
    }
  }

  lemma LandedPrefix(names: Names, plans: iset<Job>, s: Stores, job: Job, at: int, k: nat)
    requires PlansValid(names, plans) && job in plans && k < |CommitWrites(names, job, at)|
    requires forall i :: 0 <= i < k ==> Landed(s, CommitWrites(names, job, at)[i])
    requires Land(names, s, CommitWrites(names, job, at)[k], Committed).1
    ensures forall i :: 0 <= i <= k ==>
              Landed(Land(names, s, CommitWrites(names, job, at)[k], Committed).0, CommitWrites(names, job, at)[i])
  {
    var write := CommitWrites(names, job, at)[k];
    var s' := Land(names, s, write, Committed).0;
    CommitWritesOnGrantIDs(names, job, at, k);
    LandGrows(names, s, write, Committed);
    forall i | 0 <= i <= k ensures Landed(s', CommitWrites(names, job, at)[i]) {
      if i < k {
        CommitWritesOnGrantIDs(names, job, at, i);
        LandedGrows(names, s, s', CommitWrites(names, job, at)[i]);
      }
    }
  }

  lemma ReceiptStands(names: Names, s: Stores, receipt: Receipt)
    requires ReceiptValid(names.formats, receipt)
    ensures Land(names, s, PutReceipt(receipt), Committed) ==
            (s.(receipts := s.receipts[receipt.turnID := receipt]), true)
  {}

  /** The receipt and the reference, landing cleanly. */
  lemma FinalStep(names: Names, s: Stores, job: Job, at: int, k: nat)
    requires |EntityWrites(names, job, at)| <= k < |CommitWrites(names, job, at)|
    requires Storable(names, s, job)
    requires k > |EntityWrites(names, job, at)| ==>
               job.turnID in s.receipts && s.receipts[job.turnID] == ReceiptOf(names, job)
    ensures var s' := Land(names, s, CommitWrites(names, job, at)[k], Committed).0;
      && job.turnID in s'.receipts && s'.receipts[job.turnID] == ReceiptOf(names, job)
      && (k + 1 == |CommitWrites(names, job, at)| ==> Refers(names, s', job))
  {
    if k == |EntityWrites(names, job, at)| {
      assert CommitWrites(names, job, at)[k] == PutReceipt(ReceiptOf(names, job));
      ReceiptStands(names, s, ReceiptOf(names, job));
    } else {
      assert CommitWrites(names, job, at)[k] == LandRef(job.turn, names.receiptRef(job.turnID), at);
      RefStands(names, s, job, at);
    }
  }

  /** Writes that keep a property, each accepted when it holds, are all accepted undisturbed. */
  lemma {:induction false} PerformReaches(
    names: Names, s: Stores, writes: seq<GrantWrite>, k: nat, holds: (Stores, nat) -> bool)
    requires k <= |writes| && holds(s, k)
    requires forall t, i: nat :: i < |writes| && holds(t, i) ==>
               Land(names, t, writes[i], Committed).1 && holds(Land(names, t, writes[i], Committed).0, i + 1)
    ensures var (after, _, ok) := Perform(names, s, writes[k..], []);
      ok && holds(after, |writes|)
    decreases |writes| - k
  {
    if k < |writes| {
      assert writes[k..][0] == writes[k] && writes[k..][1..] == writes[k + 1..];
      PerformReaches(names, Land(names, s, writes[k], Committed).0, writes, k + 1, holds);
    }
  }

  /** From any point on, an undisturbed rerun is accepted whole. */
  lemma CleanRerun(names: Names, plans: iset<Job>, s: Stores, job: Job, at: int)
    requires Injective(names) && Consistent(plans) && PlansValid(names, plans) && job in plans
    requires Storable(names, s, job) && Rerun(names, plans, s, job, at, 0)
    ensures var (after, _, ok) := Perform(names, s, CommitWrites(names, job, at), []);
      ok && Rerun(names, plans, after, job, at, |CommitWrites(names, job, at)|)
  {
    var writes := CommitWrites(names, job, at);
    ghost var holds := (t: Stores, i: nat) => i <= |writes| && Rerun(names, plans, t, job, at, i);
    forall t, i: nat | i < |writes| && holds(t, i)
      ensures Land(names, t, writes[i], Committed).1 && holds(Land(names, t, writes[i], Committed).0, i + 1)
    {
      RerunStep(names, plans, t, job, at, i);
    }
    PerformReaches(names, s, writes, 0, holds);
    assert writes[0..] == writes;
  }

  /** Grant commit converges: after any run of started plans, however it was cut up, rerunning a plan
      undisturbed succeeds, stores its receipt, refers the turn to it, and leaves every knowledge and revelation entity
      it names meaning exactly what an uninterrupted commit would have made it mean, and every testimony word for
      word. */
  lemma GrantConverges(names: Names, plans: iset<Job>, s: Stores, events: seq<Event>, job: Job, at: int)
    requires Injective(names) && DistinctTestimonies(names) && Consistent(plans) && PlansValid(names, plans)
    requires Fresh(s) && Rightful(names, plans, s.graph) && Voiced(names, plans, s) && job in plans
    requires Storable(names, Run(names, plans, World(s, map[]), events).stores, job)
    ensures var (after, _, ok) := Perform(
        names, Run(names, plans, World(s, map[]), events).stores, CommitWrites(names, job, at), []);
      && ok
      && (forall i :: 0 <= i < |CommitWrites(names, job, at)| ==> Landed(after, CommitWrites(names, job, at)[i]))
      && job.turnID in after.receipts && after.receipts[job.turnID] == ReceiptOf(names, job)
      && Refers(names, after, job)
      && (forall i :: 0 <= i < |job.entries| ==> EntryExact(names, after, job, i))
  {
    RunKeepsRightful(names, plans, s, events);
    RunKeepsVoiced(names, plans, s, events);
    CleanRerun(names, plans, Run(names, plans, World(s, map[]), events).stores, job, at);
    var after := Perform(
      names, Run(names, plans, World(s, map[]), events).stores, CommitWrites(names, job, at), []).0;
    forall i | 0 <= i < |job.entries| ensures EntryExact(names, after, job, i) {
      EntitiesLanded(names, after, job, at, i);
      if job.entries[i].testimony.Some? {
        TestimonyIsExact(names, plans, after, job, i);
      }
    }
  }
}
