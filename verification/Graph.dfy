/** The graph store the engine writes through: entities hold triples, a write
    replaces one declared predicate group of one entity, and any reply can be lost. */
module Graph {
  import opened Wrappers
  import opened Vocabulary

  type EntityID = string

  datatype Value = Text(text: string) | Number(number: int) | Flag(flag: bool)

  /** Who recorded a fact, when, and on whose behalf. */
  datatype Provenance = Provenance(source: string, at: int, context: string, reference: bool)

  datatype Triple = Triple(subject: EntityID, pred: Predicate, obj: Value, provenance: Provenance)

  type EntityState = seq<Triple>

  type GraphState = map<EntityID, EntityState>

  function Lookup(g: GraphState, id: EntityID): EntityState {
    if id in g then g[id] else []
  }

  /** Every triple of a state whose predicate lies in a group, in stored order. */
  function Within(s: EntityState, group: set<Predicate>): seq<Triple> {
    if s == [] then []
    else if s[0].pred in group then [s[0]] + Within(s[1..], group)
    else Within(s[1..], group)
  }

  /** Every triple of a state whose predicate lies outside a group, in stored order. */
  function Without(s: EntityState, group: set<Predicate>): seq<Triple> {
    if s == [] then []
    else if s[0].pred in group then Without(s[1..], group)
    else [s[0]] + Without(s[1..], group)
  }

  function TriplesOf(s: EntityState, p: Predicate): seq<Triple> {
    Within(s, {p})
  }

  /** The set of objects an entity records for a predicate. */
  function Objects(s: EntityState, p: Predicate): set<Value> {
    set t | t in TriplesOf(s, p) :: t.obj
  }

  /** The text objects an entity records for a predicate, in stored order. */
  function Strings(s: EntityState, p: Predicate): seq<string> {
    if s == [] then []
    else if s[0].pred == p && s[0].obj.Text? then [s[0].obj.text] + Strings(s[1..], p)
    else Strings(s[1..], p)
  }

  function SoleString(s: EntityState, p: Predicate): Option<string> {
    var values := Strings(s, p);
    if |values| == 1 then Some(values[0]) else None
  }

  /** The stored effect of reconciling one group: the group becomes the desired set, nothing else moves. */
  function Replace(s: EntityState, group: set<Predicate>, desired: seq<Triple>): EntityState {
    Without(s, group) + desired
  }

  /** What the mutation client accepts: facts about this entity, inside the named group. */
  predicate Admits(id: EntityID, group: set<Predicate>, desired: seq<Triple>) {
    forall t :: t in desired ==> t.subject == id && t.pred in group
  }

  /** How one mutation request can end. An unknown commit may or may not have
      landed, and the confirming read that follows it may or may not answer. */
  datatype Reply = Committed | Failed | CommitUnknown(landed: bool, readback: bool)

  /** The request took effect, whatever its caller was told. */
  predicate Lands(reply: Reply) {
    reply.Committed? || (reply.CommitUnknown? && reply.landed)
  }

  /** Whether the resident group carries exactly the desired facts, in any order. */
  predicate GroupMatches(s: EntityState, group: set<Predicate>, desired: seq<Triple>) {
    multiset(Within(s, group)) == multiset(desired)
  }

  /** One `Reconcile` call as a value: the graph afterwards, and whether the caller was told it succeeded. */
  function ReconcileOutcome(
    g: GraphState, group: set<Predicate>, id: EntityID, desired: seq<Triple>, reply: Reply
  ): (GraphState, bool) {
    if id !in g || !Admits(id, group, desired) then (g, false)
    else
      var landed := g[id := Replace(g[id], group, desired)];
      match reply
      case Committed => (landed, true)
      case Failed => (g, false)
      case CommitUnknown(hasLanded, readback) =>
        var g' := if hasLanded then landed else g;
        (g', readback && GroupMatches(g'[id], group, desired))
  }

  datatype CreateReply = Created | AlreadyExists | CreateFailed

  /** Whether a resident entity is exactly the birth a caller asked for, stamps included. */
  predicate BirthMatches(resident: EntityState, birth: EntityState) {
    multiset(resident) == multiset(birth)
  }

  /** One atomic create-or-fail as a value. A commit-unknown reply is settled by reading the entity back. */
  function CreateOutcome(g: GraphState, id: EntityID, birth: EntityState, reply: Reply): (GraphState, CreateReply) {
    match reply
    case Failed => (g, CreateFailed)
    case Committed => if id in g then (g, AlreadyExists) else (g[id := birth], Created)
    case CommitUnknown(landed, readback) =>
      var g' := if landed && id !in g then g[id := birth] else g;
      (g', if readback && id in g' && BirthMatches(g'[id], birth) then Created else CreateFailed)
  }

  class Store {
    var graph: GraphState
    /** The replies still to come, one per mutation; later mutations commit cleanly. */
    var replies: seq<Reply>

    constructor (graph: GraphState, replies: seq<Reply>)
      ensures this.graph == graph && this.replies == replies
    {
      this.graph, this.replies := graph, replies;
    }

    method CreateEntity(id: EntityID, birth: EntityState) returns (created: CreateReply)
      modifies this
      ensures (graph, created) == CreateOutcome(old(graph), id, birth, NextReply(old(replies)))
      ensures replies == Later(old(replies))
    {
      var reply := NextReply(replies);
      replies := Later(replies);
      match reply {
        case Failed => created := CreateFailed;
        case Committed =>
          if id in graph {
            created := AlreadyExists;
          } else {
            graph := graph[id := birth];
            created := Created;
          }
        case CommitUnknown(landed, readback) =>
          if landed && id !in graph {
            graph := graph[id := birth];
          }
          created := if readback && id in graph && BirthMatches(graph[id], birth) then Created else CreateFailed;
      }
    }

    method Reconcile(group: set<Predicate>, id: EntityID, desired: seq<Triple>) returns (ok: bool)
      modifies this
      ensures (graph, ok) == ReconcileOutcome(old(graph), group, id, desired, NextReply(old(replies)))
      ensures replies == Later(old(replies))
    {
      var reply := NextReply(replies);
      replies := Later(replies);
      if id !in graph || !Admits(id, group, desired) {
        return false;
      }
      if reply == Failed {
        return false;
      }
      if reply.Committed? || reply.landed {
        graph := graph[id := Replace(graph[id], group, desired)];
      }
      ok := reply.Committed? || (reply.readback && GroupMatches(graph[id], group, desired));
    }
  }

  /** A create never moves an existing entity, and a successful one leaves this birth resident. */
  lemma CreateKeeps(g: GraphState, id: EntityID, birth: EntityState, reply: Reply)
    ensures var (g', created) := CreateOutcome(g, id, birth, reply);
      && (g' == g || (id !in g && g' == g[id := birth]))
      && (created != CreateFailed ==> id in g')
      && (created == Created ==> BirthMatches(g'[id], birth))
      && (created == AlreadyExists ==> g' == g)
  {}

  function NextReply(replies: seq<Reply>): Reply {
    if replies == [] then Committed else replies[0]
  }

  function Later(replies: seq<Reply>): seq<Reply> {
    if replies == [] then [] else replies[1..]
  }

  // ---- How filtering, concatenation and replacement interact --------------

  lemma {:induction false} WithinMembers(s: EntityState, group: set<Predicate>, t: Triple)
    ensures t in Within(s, group) <==> t in s && t.pred in group
  {
    if s != [] {
      WithinMembers(s[1..], group, t);
      assert t in s <==> t == s[0] || t in s[1..];
    }
  }

  lemma {:induction false} StringsAreObjects(s: EntityState, p: Predicate, text: string)
    ensures text in Strings(s, p) <==> Text(text) in Objects(s, p)
  {
    if s != [] {
      StringsAreObjects(s[1..], p, text);
      if s[0].pred == p {
        assert TriplesOf(s, p) == [s[0]] + TriplesOf(s[1..], p);
        assert Objects(s, p) == {s[0].obj} + Objects(s[1..], p);
      }
    }
  }

  /** The texts an entity records for a predicate depend on that predicate's facts alone. */
  lemma StringsFromTriples(s: EntityState, t: EntityState, p: Predicate)
    requires TriplesOf(s, p) == TriplesOf(t, p)
    ensures Strings(s, p) == Strings(t, p)
  {
    StringsWithin(s, p);
    StringsWithin(t, p);
  }

  lemma {:induction false} StringsWithin(s: EntityState, p: Predicate)
    ensures Strings(s, p) == Strings(TriplesOf(s, p), p)
  {
    if s != [] {
      StringsWithin(s[1..], p);
      if s[0].pred == p {
        assert TriplesOf(s, p) == [s[0]] + TriplesOf(s[1..], p);
      }
    }
  }

  lemma {:induction false} WithinConcat(a: EntityState, b: EntityState, group: set<Predicate>)
    ensures Within(a + b, group) == Within(a, group) + Within(b, group)
  {
    if a == [] {
      assert a + b == b;
    } else {
      WithinConcat(a[1..], b, group);
      assert (a + b)[1..] == a[1..] + b;
    }
  }

  lemma {:induction false} WithinWithout(s: EntityState, group: set<Predicate>, p: Predicate)
    ensures TriplesOf(Without(s, group), p) == if p in group then [] else TriplesOf(s, p)
  {
    if s != [] {
      WithinWithout(s[1..], group, p);
      if s[0].pred !in group {
        assert Without(s, group)[1..] == Without(s[1..], group);
      }
    }
  }

  lemma {:induction false} WithinNothing(s: seq<Triple>, group: set<Predicate>)
    requires forall t :: t in s ==> t.pred !in group
    ensures Within(s, group) == []
  {
    if s != [] {
      WithinNothing(s[1..], group);
    }
  }

  lemma {:induction false} WithinEverything(s: seq<Triple>, group: set<Predicate>)
    requires forall t :: t in s ==> t.pred in group
    ensures Within(s, group) == s
  {
    if s != [] {
      WithinEverything(s[1..], group);
    }
  }

  lemma OneTriple(t: Triple, p: Predicate)
    ensures TriplesOf([t], p) == if t.pred == p then [t] else []
  {
    if t.pred == p {
      WithinEverything([t], {p});
    } else {
      WithinNothing([t], {p});
    }
  }

  lemma ThreeTriples(a: Triple, b: Triple, c: Triple, p: Predicate)
    ensures TriplesOf([a, b, c], p) ==
            (if a.pred == p then [a] else []) + (if b.pred == p then [b] else []) + (if c.pred == p then [c] else [])
  {
    assert [a, b, c] == [a] + ([b] + [c]);
    WithinConcat([a], [b] + [c], {p});
    WithinConcat([b], [c], {p});
    OneTriple(a, p);
    OneTriple(b, p);
    OneTriple(c, p);
  }

  lemma FourTriples(a: Triple, b: Triple, c: Triple, d: Triple, p: Predicate)
    ensures TriplesOf([a, b, c, d], p) ==
            (if a.pred == p then [a] else []) + (if b.pred == p then [b] else []) +
            (if c.pred == p then [c] else []) + (if d.pred == p then [d] else [])
  {
    assert [a, b, c, d] == [a] + [b, c, d];
    WithinConcat([a], [b, c, d], {p});
    OneTriple(a, p);
    ThreeTriples(b, c, d, p);
  }

  lemma {:induction false} TriplesWithin(s: EntityState, group: set<Predicate>, p: Predicate)
    requires p in group
    ensures TriplesOf(Within(s, group), p) == TriplesOf(s, p)
  {
    if s != [] {
      TriplesWithin(s[1..], group, p);
      if s[0].pred in group {
        assert Within(s, group)[1..] == Within(s[1..], group);
      }
    }
  }

  /** Frame and effect of one replacement, predicate by predicate. */
  lemma ReplaceTriples(s: EntityState, group: set<Predicate>, desired: seq<Triple>, p: Predicate)
    requires forall t :: t in desired ==> t.pred in group
    ensures p in group ==> TriplesOf(Replace(s, group, desired), p) == TriplesOf(desired, p)
    ensures p !in group ==> TriplesOf(Replace(s, group, desired), p) == TriplesOf(s, p)
  {
    WithinConcat(Without(s, group), desired, {p});
    WithinWithout(s, group, p);
    if p !in group {
      WithinNothing(desired, {p});
    }
  }

  /** A confirmed reconcile left the group holding exactly the desired objects, and an
      unconfirmed one left it either there or untouched; no other fact of any entity moved. */
  lemma ReconcileObjects(g: GraphState, group: set<Predicate>, id: EntityID, desired: seq<Triple>, reply: Reply)
    ensures var (g', ok) := ReconcileOutcome(g, group, id, desired, reply);
      && g'.Keys == g.Keys
      && (forall e :: e in g && e != id ==> g'[e] == g[e])
      && (ok ==> id in g)
      && (id in g ==>
        && (g'[id] == g[id] || (Admits(id, group, desired) && g'[id] == Replace(g[id], group, desired)))
        && (forall p :: p !in group ==> TriplesOf(g'[id], p) == TriplesOf(g[id], p))
        && (ok ==> forall p :: p in group ==> Objects(g'[id], p) == Objects(desired, p)))
  {
    var (g', ok) := ReconcileOutcome(g, group, id, desired, reply);
    if id in g && Admits(id, group, desired) {
      forall p
        ensures p !in group ==> TriplesOf(g'[id], p) == TriplesOf(g[id], p)
      {
        ReplaceTriples(g[id], group, desired, p);
      }
      if ok {
        forall p | p in group ensures Objects(g'[id], p) == Objects(desired, p) {
          if reply.Committed? {
            ReplaceTriples(g[id], group, desired, p);
          } else {
            MatchingObjects(g'[id], group, desired, p);
          }
        }
      }
    }
  }

  lemma {:induction false} WithinCounts(s: EntityState, group: set<Predicate>, t: Triple)
    ensures multiset(Within(s, group))[t] == if t.pred in group then multiset(s)[t] else 0
  {
    if s != [] {
      WithinCounts(s[1..], group, t);
      assert s == [s[0]] + s[1..];
    }
  }

  /** A group that matches holds for each predicate exactly the desired facts, in some order. */
  lemma MatchingTriples(s: EntityState, group: set<Predicate>, desired: seq<Triple>, p: Predicate)
    requires GroupMatches(s, group, desired) && p in group
    ensures multiset(TriplesOf(s, p)) == multiset(TriplesOf(desired, p))
  {
    forall t ensures multiset(TriplesOf(s, p))[t] == multiset(TriplesOf(desired, p))[t] {
      WithinCounts(s, {p}, t);
      WithinCounts(s, group, t);
      WithinCounts(desired, {p}, t);
    }
  }

  lemma MatchingObjects(s: EntityState, group: set<Predicate>, desired: seq<Triple>, p: Predicate)
    requires GroupMatches(s, group, desired) && p in group
    ensures Objects(s, p) == Objects(desired, p)
  {
    var resident := Within(s, group);
    TriplesWithin(s, group, p);
    forall t ensures t in TriplesOf(resident, p) <==> t in TriplesOf(desired, p) {
      WithinMembers(resident, {p}, t);
      WithinMembers(desired, {p}, t);
      assert t in resident <==> t in multiset(resident);
      assert t in desired <==> t in multiset(desired);
    }
  }

  /** A group of one predicate reconciled to one fact: landed or confirmed, it holds exactly that fact. */
  lemma SingletonGroup(g: GraphState, id: EntityID, desired: Triple, reply: Reply)
    requires desired.subject == id
    ensures var (g', ok) := ReconcileOutcome(g, {desired.pred}, id, [desired], reply);
      && (g' == g || (id in g' && TriplesOf(g'[id], desired.pred) == [desired]))
      && (ok ==> id in g' && TriplesOf(g'[id], desired.pred) == [desired])
  {
    var (g', ok) := ReconcileOutcome(g, {desired.pred}, id, [desired], reply);
    WithinEverything([desired], {desired.pred});
    if id in g {
      ReplaceTriples(g[id], {desired.pred}, [desired], desired.pred);
      if ok && GroupMatches(g'[id], {desired.pred}, [desired]) {
        var resident := TriplesOf(g'[id], desired.pred);
        assert |resident| == |multiset(resident)| == 1;
        assert resident[0] in multiset(resident);
        assert resident == [desired];
      }
    }
  }
}
