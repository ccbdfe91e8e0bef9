/** Exact-resident values: a create-once claim decides, and an object copy is repaired from it.
    Any number of clients interleave store by store, lose replies and crash. */
module ExactClaims {
  import opened Wrappers
  import opened Graph

  type Key = string
  type Bytes = string

  const MAX_CLAIM_BYTES := 8192

  datatype Stores = Stores(claims: map<Key, Bytes>, objects: map<Key, Bytes>)

  datatype ClaimStage = Creating | ReadingClaim | ReadingObject(winner: Bytes) | Repairing(winner: Bytes)

  datatype ClaimNext = Continue(stage: ClaimStage) | Winner(value: Bytes) | Corrupt | Unavailable

  /** One store interaction of a claim. Creating is the linearization point; a create whose reply is
      lost may have won, but its caller is told nothing. */
  function ClaimAdvance(s: Stores, key: Key, candidate: Bytes, stage: ClaimStage, reply: Reply): (Stores, ClaimNext) {
    match stage
    case Creating =>
      if key in s.claims then (s, if reply == Committed then Continue(ReadingClaim) else Unavailable)
      else
        (if Lands(reply) then s.(claims := s.claims[key := candidate]) else s,
         if reply == Committed then Continue(ReadingObject(candidate)) else Unavailable)
    case ReadingClaim =>
      (s, if reply != Committed || key !in s.claims then Unavailable else Continue(ReadingObject(s.claims[key])))
    case ReadingObject(winner) =>
      (s, if reply != Committed then Unavailable
          else if key !in s.objects then Continue(Repairing(winner))
          else if s.objects[key] == winner then Winner(winner)
          else Corrupt)
    case Repairing(winner) =>
      (if Lands(reply) then s.(objects := s.objects[key := winner]) else s,
       if reply == Committed then Winner(winner) else Unavailable)
  }

  function Remaining(next: ClaimNext): nat {
    match next
    case Continue(Creating) => 4
    case Continue(ReadingClaim) => 3
    case Continue(ReadingObject(_)) => 2
    case Continue(Repairing(_)) => 1
    case _ => 0
  }

  /** A claim that nobody interrupts. */
  function Drive(s: Stores, key: Key, candidate: Bytes, next: ClaimNext, replies: seq<Reply>)
    : (Stores, ClaimNext, seq<Reply>)
    decreases Remaining(next)
  {
    match next
    case Continue(stage) =>
      var (s', next') := ClaimAdvance(s, key, candidate, stage, NextReply(replies));
      Drive(s', key, candidate, next', Later(replies))
    case _ => (s, next, replies)
  }

  function Begin(candidate: Bytes): ClaimNext {
    if |candidate| > MAX_CLAIM_BYTES then Unavailable else Continue(Creating)
  }

  class Backend {
    var claims: map<Key, Bytes>
    var objects: map<Key, Bytes>
    var replies: seq<Reply>

    constructor (s: Stores, replies: seq<Reply>)
      ensures Contents() == s && this.replies == replies
    {
      claims, objects, this.replies := s.claims, s.objects, replies;
    }

    function Contents(): Stores
      reads this
    {
      Stores(claims, objects)
    }

    method Answer() returns (reply: Reply)
      modifies this
      ensures Contents() == old(Contents())
      ensures reply == NextReply(old(replies)) && replies == Later(old(replies))
    {
      reply := NextReply(replies);
      replies := Later(replies);
    }

    /** Establishes the value at a key, or returns the one already established, and leaves an object copy of it. */
    method ClaimExact(key: Key, candidate: Bytes) returns (r: ClaimNext)
      modifies this
      ensures (Contents(), r, replies) == Drive(old(Contents()), key, candidate, Begin(candidate), old(replies))
    {
      if |candidate| > MAX_CLAIM_BYTES {
        return Unavailable;
      }
      var reply := Answer();
      if key !in claims {
        if Lands(reply) {
          claims := claims[key := candidate];
        }
        if reply != Committed {
          return Unavailable;
        }
        r := Settle(key, candidate, candidate);
        return;
      }
      if reply != Committed {
        return Unavailable;
      }
      r := ReadThenSettle(key, candidate);
    }

    method ReadThenSettle(key: Key, candidate: Bytes) returns (r: ClaimNext)
      modifies this
      ensures (Contents(), r, replies) ==
              Drive(old(Contents()), key, candidate, Continue(ReadingClaim), old(replies))
    {
      var reply := Answer();
      if reply != Committed || key !in claims {
        return Unavailable;
      }
      r := Settle(key, candidate, claims[key]);
    }

    /** The object copy is repaired when missing and never overwritten when it differs. */
    method Settle(key: Key, candidate: Bytes, winner: Bytes) returns (r: ClaimNext)
      modifies this
      ensures (Contents(), r, replies) ==
              Drive(old(Contents()), key, candidate, Continue(ReadingObject(winner)), old(replies))
    {
      var reply := Answer();
      if reply != Committed {
        return Unavailable;
      }
      if key in objects {
        return if objects[key] == winner then Winner(winner) else Corrupt;
      }
      r := Repair(key, candidate, winner);
    }

    method Repair(key: Key, candidate: Bytes, winner: Bytes) returns (r: ClaimNext)
      modifies this
      ensures (Contents(), r, replies) ==
              Drive(old(Contents()), key, candidate, Continue(Repairing(winner)), old(replies))
    {
      var reply := Answer();
      if Lands(reply) {
        objects := objects[key := winner];
      }
      return if reply == Committed then Winner(winner) else Unavailable;
    }
  }

  // ---- Any number of clients -----------------------------------------------

  type Client = nat

  datatype Attempt = Attempt(key: Key, candidate: Bytes, next: ClaimNext)

  /** The stores, every attempt ever started, and the candidates put forward for each key. */
  datatype World = World(stores: Stores, attempts: map<Client, Attempt>)

  datatype Event =
    | Start(client: Client, key: Key, candidate: Bytes)
    | Proceed(client: Client, reply: Reply)
    | Crash(client: Client)

  function ProceedStep(w: World, client: Client, reply: Reply): World
    requires client in w.attempts && w.attempts[client].next.Continue?
  {
    var a := w.attempts[client];
    var (s', next) := ClaimAdvance(w.stores, a.key, a.candidate, a.next.stage, reply);
    World(s', w.attempts[client := a.(next := next)])
  }

  function Step(w: World, event: Event): World {
    match event
    case Start(client, key, candidate) =>
      if client in w.attempts then w
      else w.(attempts := w.attempts[client := Attempt(key, candidate, Begin(candidate))])
    case Proceed(client, reply) =>
      if client in w.attempts && w.attempts[client].next.Continue? then ProceedStep(w, client, reply) else w
    case Crash(client) =>
      if client in w.attempts && w.attempts[client].next.Continue?
      then w.(attempts := w.attempts[client := w.attempts[client].(next := Unavailable)]) else w
  }

  function Run(w: World, events: seq<Event>): World {
    if events == [] then w else Step(Run(w, events[..|events| - 1]), events[|events| - 1])
  }

  const EMPTY := World(Stores(map[], map[]), map[])

  /** An object is absent or equal to its claim. */
  predicate StoresSound(s: Stores) {
    forall key :: key in s.objects ==> key in s.claims && s.objects[key] == s.claims[key]
  }

  /** What an attempt has seen as the winner is the claim, and it never saw corruption. */
  predicate AttemptSound(s: Stores, key: Key, next: ClaimNext) {
    match next
    case Continue(Creating) => true
    case Continue(ReadingClaim) => key in s.claims
    case Continue(ReadingObject(winner)) => key in s.claims && s.claims[key] == winner
    case Continue(Repairing(winner)) => key in s.claims && s.claims[key] == winner
    case Winner(value) => key in s.claims && s.claims[key] == value && key in s.objects
    case Corrupt => false
    case Unavailable => true
  }

  /** Claims are never lost or changed, objects never lost. */
  predicate Extends(s: Stores, s': Stores) {
    && (forall key :: key in s.claims ==> key in s'.claims && s'.claims[key] == s.claims[key])
    && s.objects.Keys <= s'.objects.Keys
  }

  ghost predicate Inv(w: World) {
    && StoresSound(w.stores)
    && (forall client :: client in w.attempts ==>
          AttemptSound(w.stores, w.attempts[client].key, w.attempts[client].next))
    && (forall key :: key in w.stores.claims ==>
          exists client :: client in w.attempts && w.attempts[client].key == key &&
            w.attempts[client].candidate == w.stores.claims[key])
  }

  lemma AdvanceKeeps(s: Stores, key: Key, candidate: Bytes, stage: ClaimStage, reply: Reply)
    requires StoresSound(s) && AttemptSound(s, key, Continue(stage))
    ensures var (s', next) := ClaimAdvance(s, key, candidate, stage, reply);
      && StoresSound(s') && Extends(s, s') && AttemptSound(s', key, next)
      && (forall k :: k in s'.claims && k !in s.claims ==> k == key && s'.claims[k] == candidate)
  {}

  lemma SoundStays(s: Stores, s': Stores, key: Key, next: ClaimNext)
    requires Extends(s, s') && AttemptSound(s, key, next)
    ensures AttemptSound(s', key, next)
  {}

  lemma StepKeeps(w: World, event: Event)
    requires Inv(w)
    ensures Inv(Step(w, event)) && Extends(w.stores, Step(w, event).stores)
  {
    var w' := Step(w, event);
    if event.Proceed? && event.client in w.attempts && w.attempts[event.client].next.Continue? {
      var a := w.attempts[event.client];
      AdvanceKeeps(w.stores, a.key, a.candidate, a.next.stage, event.reply);
      forall c | c in w'.attempts ensures AttemptSound(w'.stores, w'.attempts[c].key, w'.attempts[c].next) {
        SoundStays(w.stores, w'.stores, w.attempts[c].key, w.attempts[c].next);
      }
    }
    forall key | key in w'.stores.claims
      ensures exists c :: c in w'.attempts && w'.attempts[c].key == key && w'.attempts[c].candidate == w'.stores.claims[key]
    {
      if key in w.stores.claims {
        var c :| c in w.attempts && w.attempts[c].key == key && w.attempts[c].candidate == w.stores.claims[key];
        assert c in w'.attempts;
      } else {
        assert event.Proceed? && event.client in w'.attempts;
      }
    }
  }

  lemma {:induction false} RunKeeps(events: seq<Event>)
    ensures Inv(Run(EMPTY, events))
  {
    if events != [] {
      RunKeeps(events[..|events| - 1]);
      StepKeeps(Run(EMPTY, events[..|events| - 1]), events[|events| - 1]);
    }
  }

  /** Claim agreement: all winners ever returned for a key are equal and are one client's candidate, the
      object copy is there and equal, and nobody ever meets the corrupt outcome. */
  lemma ClaimsAgree(events: seq<Event>, a: Client, b: Client)
    requires var w := Run(EMPTY, events); a in w.attempts && b in w.attempts
    ensures var w := Run(EMPTY, events);
      && w.attempts[a].next != Corrupt
      && (w.attempts[a].next.Winner? ==>
            && (exists c :: c in w.attempts && w.attempts[c].key == w.attempts[a].key &&
                  w.attempts[c].candidate == w.attempts[a].next.value)
            && w.attempts[a].key in w.stores.objects
            && w.stores.objects[w.attempts[a].key] == w.attempts[a].next.value)
      && (w.attempts[a].next.Winner? && w.attempts[b].next.Winner? && w.attempts[a].key == w.attempts[b].key ==>
            w.attempts[a].next.value == w.attempts[b].next.value)
  {
    RunKeeps(events);
    var w := Run(EMPTY, events);
    assert AttemptSound(w.stores, w.attempts[a].key, w.attempts[a].next);
    assert AttemptSound(w.stores, w.attempts[b].key, w.attempts[b].next);
  }

  /** What was once claimed stays claimed, byte for byte, for ever. */
  lemma {:induction false} ClaimsAreForever(events: seq<Event>, k: nat, key: Key)
    requires k <= |events| && key in Run(EMPTY, events[..k]).stores.claims
    ensures key in Run(EMPTY, events).stores.claims
    ensures Run(EMPTY, events).stores.claims[key] == Run(EMPTY, events[..k]).stores.claims[key]
  {
    if k < |events| {
      var init := events[..|events| - 1];
      assert init[..k] == events[..k];
      ClaimsAreForever(init, k, key);
      RunKeeps(init);
      StepKeeps(Run(EMPTY, init), events[|events| - 1]);
    } else {
      assert events[..k] == events;
    }
  }
}
