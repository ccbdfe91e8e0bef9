/** The gateway's live connections: an identity index and a delivery index kept as inverses. */
module Sessions {
  import opened ByteOrder

  type ConnID = string
  type PlayerID = string

  datatype Session = Session(conn: ConnID, player: PlayerID)

  datatype Table = Table(byConn: map<ConnID, Session>, byPlayer: map<PlayerID, set<ConnID>>)

  const EMPTY := Table(map[], map[])

  function Connections(t: Table, player: PlayerID): set<ConnID> {
    if player in t.byPlayer then t.byPlayer[player] else {}
  }

  /** The delivery index is exactly the inverse of the identity index, with no empty entries, and no
      player is over the cap. */
  ghost predicate Valid(t: Table, cap: nat) {
    && (forall c :: c in t.byConn ==> t.byConn[c].conn == c)
    && (forall p, c :: c in Connections(t, p) <==> c in t.byConn && t.byConn[c].player == p)
    && (forall p :: p in t.byPlayer ==> t.byPlayer[p] != {} && |t.byPlayer[p]| <= cap)
  }

  /** The table after a connection left its player's set; the connection itself stays. */
  function Unbound(t: Table, c: ConnID): Table {
    if c !in t.byConn then t
    else
      var p := t.byConn[c].player;
      var rest := Connections(t, p) - {c};
      t.(byPlayer := if rest == {} then t.byPlayer - {p} else t.byPlayer[p := rest])
  }

  function Removed(t: Table, c: ConnID): Table {
    var u := Unbound(t, c);
    u.(byConn := u.byConn - {c})
  }

  /** Binding replaces whatever the connection was bound to; a player at the cap refuses the newcomer. */
  function Put(t: Table, cap: nat, s: Session): (Table, bool) {
    var u := Unbound(t, s.conn);
    if |Connections(u, s.player)| >= cap then (u.(byConn := u.byConn - {s.conn}), false)
    else (Table(u.byConn[s.conn := s], u.byPlayer[s.player := Connections(u, s.player) + {s.conn}]), true)
  }

  class SessionTable {
    var byConn: map<ConnID, Session>
    var byPlayer: map<PlayerID, set<ConnID>>
    const cap: nat

    constructor (cap: nat)
      ensures Contents() == EMPTY && this.cap == cap && Valid(Contents(), cap)
    {
      byConn, byPlayer, this.cap := map[], map[], cap;
    }

    function Contents(): Table
      reads this
    {
      Table(byConn, byPlayer)
    }

    method UnbindConnection(c: ConnID)
      requires Valid(Contents(), cap)
      modifies this`byPlayer
      ensures Contents() == Unbound(old(Contents()), c)
    {
      if c !in byConn {
        return;
      }
      var previous := byConn[c].player;
      assert c in Connections(Contents(), previous);
      var connections := byPlayer[previous] - {c};
      if connections == {} {
        byPlayer := byPlayer - {previous};
      } else {
        byPlayer := byPlayer[previous := connections];
      }
    }

    method PutSession(s: Session) returns (ok: bool)
      requires Valid(Contents(), cap)
      modifies this
      ensures (Contents(), ok) == Put(old(Contents()), cap, s)
      ensures Valid(Contents(), cap)
    {
      PutKeeps(Contents(), cap, s);
      UnbindConnection(s.conn);
      var held := if s.player in byPlayer then byPlayer[s.player] else {};
      if |held| >= cap {
        byConn := byConn - {s.conn};
        return false;
      }
      byConn := byConn[s.conn := s];
      byPlayer := byPlayer[s.player := held + {s.conn}];
      ok := true;
    }

    method Remove(c: ConnID)
      requires Valid(Contents(), cap)
      modifies this
      ensures Contents() == Removed(old(Contents()), c)
      ensures Valid(Contents(), cap)
    {
      RemoveKeeps(Contents(), cap, c);
      UnbindConnection(c);
      byConn := byConn - {c};
    }

    /** The sessions bound to a player, each once, sorted by connection. */
    method ForPlayer(player: PlayerID) returns (out: seq<Session>)
      requires Valid(Contents(), cap)
      ensures Sorted(out)
      ensures forall s :: s in out <==> s.conn in byConn && byConn[s.conn] == s && s.player == player
    {
      out := [];
      var rest := if player in byPlayer then byPlayer[player] else {};
      ghost var seen: set<ConnID> := {};
      while rest != {}
        invariant seen + rest == Connections(Contents(), player) && seen !! rest
        invariant Sorted(out)
        invariant forall s :: s in out <==> s.conn in seen && byConn[s.conn] == s
        decreases |rest|
      {
        var c :| c in rest;
        assert c in Connections(Contents(), player);
        InsertSorts(byConn[c], out);
        InsertMembers(byConn[c], out);
        out := Insert(byConn[c], out);
        rest, seen := rest - {c}, seen + {c};
      }
    }
  }

  // ---- What every operation keeps ------------------------------------------

  lemma UnboundConnections(t: Table, cap: nat, c: ConnID, p: PlayerID)
    requires Valid(t, cap)
    ensures Connections(Unbound(t, c), p) == Connections(t, p) - {c}
  {
    assert c in Connections(t, p) <==> c in t.byConn && t.byConn[c].player == p;
  }

  lemma DropKeeps(t: Table, cap: nat, c: ConnID)
    requires Valid(t, cap)
    ensures Valid(Removed(t, c), cap)
    ensures Removed(t, c).byConn == t.byConn - {c}
    ensures Removed(t, c).byPlayer == Unbound(t, c).byPlayer
  {
    var d := Removed(t, c);
    forall p, x ensures x in Connections(d, p) <==> x in d.byConn && d.byConn[x].player == p {
      UnboundConnections(t, cap, c, p);
      assert Connections(d, p) == Connections(Unbound(t, c), p);
      assert x in Connections(t, p) <==> x in t.byConn && t.byConn[x].player == p;
    }
    forall p | p in d.byPlayer ensures d.byPlayer[p] != {} && |d.byPlayer[p]| <= cap {
      UnboundConnections(t, cap, c, p);
      Smaller(Connections(t, p) - {c}, Connections(t, p));
    }
  }

  lemma RemoveKeeps(t: Table, cap: nat, c: ConnID)
    requires Valid(t, cap)
    ensures Valid(Removed(t, c), cap)
    ensures Removed(t, c).byConn == t.byConn - {c}
  {
    DropKeeps(t, cap, c);
  }

  /** Adding an unbound connection to a player below the cap. */
  lemma AddKeeps(d: Table, cap: nat, s: Session)
    requires Valid(d, cap) && s.conn !in d.byConn && |Connections(d, s.player)| < cap
    ensures Valid(Table(d.byConn[s.conn := s], d.byPlayer[s.player := Connections(d, s.player) + {s.conn}]), cap)
  {
    var t' := Table(d.byConn[s.conn := s], d.byPlayer[s.player := Connections(d, s.player) + {s.conn}]);
    assert s.conn !in Connections(d, s.player);
    forall p, x ensures x in Connections(t', p) <==> x in t'.byConn && t'.byConn[x].player == p {
      assert x in Connections(d, p) <==> x in d.byConn && d.byConn[x].player == p;
      assert Connections(t', p) == if p == s.player then Connections(d, p) + {s.conn} else Connections(d, p);
    }
    assert |Connections(d, s.player) + {s.conn}| == |Connections(d, s.player)| + 1;
  }

  /** A put leaves every other connection as it was; it is refused exactly when the player already
      holds a full set of other connections, and a refused connection is bound to nobody. */
  lemma PutKeeps(t: Table, cap: nat, s: Session)
    requires Valid(t, cap)
    ensures var (t', ok) := Put(t, cap, s);
      && Valid(t', cap)
      && (ok <==> |Connections(t, s.player) - {s.conn}| < cap)
      && t'.byConn == if ok then t.byConn[s.conn := s] else t.byConn - {s.conn}
  {
    var d := Removed(t, s.conn);
    DropKeeps(t, cap, s.conn);
    UnboundConnections(t, cap, s.conn, s.player);
    assert Connections(d, s.player) == Connections(Unbound(t, s.conn), s.player);
    assert Unbound(t, s.conn).byConn == t.byConn;
    if |Connections(d, s.player)| < cap {
      AddKeeps(d, cap, s);
      assert d.byConn[s.conn := s] == t.byConn[s.conn := s];
    }
  }

  // ---- Whole histories -----------------------------------------------------

  datatype Op = PutOp(session: Session) | RemoveOp(conn: ConnID)

  function Apply(t: Table, cap: nat, op: Op): Table {
    match op
    case PutOp(s) => Put(t, cap, s).0
    case RemoveOp(c) => Removed(t, c)
  }

  function Run(cap: nat, ops: seq<Op>): Table {
    if ops == [] then EMPTY else Apply(Run(cap, ops[..|ops| - 1]), cap, ops[|ops| - 1])
  }

  lemma {:induction false} RunKeeps(cap: nat, ops: seq<Op>)
    ensures Valid(Run(cap, ops), cap)
  {
    if ops != [] {
      var before := Run(cap, ops[..|ops| - 1]);
      RunKeeps(cap, ops[..|ops| - 1]);
      match ops[|ops| - 1]
      case PutOp(s) => PutKeeps(before, cap, s);
      case RemoveOp(c) => RemoveKeeps(before, cap, c);
    }
  }

  lemma {:induction false} PartitionBound(conns: set<ConnID>, byPlayer: map<PlayerID, set<ConnID>>, cap: nat)
    requires forall c :: c in conns ==> exists p :: p in byPlayer && c in byPlayer[p]
    requires forall p :: p in byPlayer ==> |byPlayer[p]| <= cap
    ensures |conns| <= |byPlayer| * cap
    decreases |byPlayer|
  {
    if byPlayer == map[] {
      assert conns == {};
    } else {
      var p :| p in byPlayer;
      var rest := byPlayer - {p};
      forall c | c in conns - byPlayer[p] ensures exists q :: q in rest && c in rest[q] {
        var q :| q in byPlayer && c in byPlayer[q];
        assert q in rest && c in rest[q];
      }
      assert rest.Keys == byPlayer.Keys - {p} && |rest.Keys| == |byPlayer.Keys| - 1;
      PartitionBound(conns - byPlayer[p], rest, cap);
      Split(conns, byPlayer[p]);
      Times(|byPlayer|, cap);
    }
  }

  lemma Split(a: set<ConnID>, b: set<ConnID>)
    ensures |a| <= |a - b| + |b|
  {
    assert a == (a - b) + (a * b);
    Smaller(a * b, b);
  }

  lemma Times(n: nat, cap: nat)
    requires n > 0
    ensures (n - 1) * cap + cap == n * cap
  {}

  lemma {:induction false} Smaller(a: set<ConnID>, b: set<ConnID>)
    requires a <= b
    ensures |a| <= |b|
  {
    assert b == a + (b - a);
  }

  /** After any history of puts, refused puts, rebinds and removals, the table holds at most the cap per
      distinct player, so at most players times cap in all. */
  lemma TableIsBounded(cap: nat, ops: seq<Op>)
    ensures |Run(cap, ops).byConn| <= |Run(cap, ops).byPlayer| * cap
    ensures forall p :: p in Run(cap, ops).byPlayer ==> |Run(cap, ops).byPlayer[p]| <= cap
  {
    var t := Run(cap, ops);
    RunKeeps(cap, ops);
    forall c | c in t.byConn.Keys ensures exists p :: p in t.byPlayer && c in t.byPlayer[p] {
      assert c in Connections(t, t.byConn[c].player);
    }
    PartitionBound(t.byConn.Keys, t.byPlayer, cap);
  }

  // ---- Sorting -------------------------------------------------------------

  predicate Sorted(sessions: seq<Session>) {
    forall i, j :: 0 <= i < j < |sessions| ==> Below(sessions[i].conn, sessions[j].conn)
  }

  function Insert(s: Session, sorted: seq<Session>): seq<Session> {
    if sorted == [] || Below(s.conn, sorted[0].conn) then [s] + sorted
    else [sorted[0]] + Insert(s, sorted[1..])
  }

  lemma {:induction false} InsertMembers(s: Session, sorted: seq<Session>)
    ensures forall x :: x in Insert(s, sorted) <==> x == s || x in sorted
  {
    if sorted != [] && !Below(s.conn, sorted[0].conn) {
      InsertMembers(s, sorted[1..]);
      assert sorted == [sorted[0]] + sorted[1..];
    }
  }

  lemma {:induction false} InsertSorts(s: Session, sorted: seq<Session>)
    requires Sorted(sorted) && forall x :: x in sorted ==> x.conn != s.conn
    ensures Sorted(Insert(s, sorted))
  {
    if sorted != [] {
      BelowTrichotomy(s.conn, sorted[0].conn);
      if Below(s.conn, sorted[0].conn) {
        forall j | 0 <= j < |sorted| ensures Below(s.conn, sorted[j].conn) {
          if j > 0 { BelowTransitive(s.conn, sorted[0].conn, sorted[j].conn); }
        }
      } else {
        assert sorted[0] in sorted;
        InsertSorts(s, sorted[1..]);
        InsertMembers(s, sorted[1..]);
        var rest := Insert(s, sorted[1..]);
        forall j | 0 <= j < |rest| ensures Below(sorted[0].conn, rest[j].conn) {
          assert rest[j] in rest;
        }
      }
    }
  }
}
