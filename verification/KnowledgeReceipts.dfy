/** The aggregate receipt of one grant batch: canonical order, and the check that reads it back. */
module KnowledgeReceipts {
  import opened Wrappers
  import opened Graph
  import opened ByteOrder

  const MAX_RECEIPT_ENTRIES := 24
  const NUL: char := '\0'

  datatype ReceiptStatus = CommittedReceipt | NotApplicableReceipt | UnknownStatus(name: string)

  datatype ReceiptEntry = ReceiptEntry(
    recipient: EntityID, evidence: EntityID, knowledgeID: EntityID, revelationID: EntityID, testimonyRef: string)

  datatype Receipt = Receipt(turnID: string, decisionID: string, status: ReceiptStatus, entries: seq<ReceiptEntry>)

  /** The grammars the upstream library decides. */
  datatype Formats = Formats(segment: string -> bool, canonical: EntityID -> bool, reference: string -> bool)

  predicate NulFree(s: string) {
    forall i :: 0 <= i < |s| ==> s[i] != NUL
  }

  predicate PairBelow(a: ReceiptEntry, b: ReceiptEntry) {
    Below(a.recipient, b.recipient) || (a.recipient == b.recipient && Below(a.evidence, b.evidence))
  }

  function Key(e: ReceiptEntry): string {
    e.recipient + [NUL] + e.evidence
  }

  /** Joining with a byte no identity contains compares exactly as the pair does. */
  lemma {:induction false} JoinedOrder(a1: string, b1: string, a2: string, b2: string)
    requires NulFree(a1) && NulFree(a2)
    ensures Below(a1 + [NUL] + b1, a2 + [NUL] + b2) <==> Below(a1, a2) || (a1 == a2 && Below(b1, b2))
  {
    var k1, k2 := a1 + [NUL] + b1, a2 + [NUL] + b2;
    if a1 != [] && a2 != [] {
      assert k1[1..] == a1[1..] + [NUL] + b1 && k2[1..] == a2[1..] + [NUL] + b2;
      JoinedOrder(a1[1..], b1, a2[1..], b2);
      assert a1 == a2 <==> a1[0] == a2[0] && a1[1..] == a2[1..] by {
        assert a1 == [a1[0]] + a1[1..] && a2 == [a2[0]] + a2[1..];
      }
    } else if a1 == [] && a2 == [] {
      assert k1[1..] == b1 && k2[1..] == b2;
    } else if a1 == [] {
      assert k1[0] == NUL && k2[0] == a2[0];
    } else {
      assert k1[0] == a1[0] && k2[0] == NUL;
    }
  }

  // ---- Canonical order -----------------------------------------------------

  ghost predicate Sorted(entries: seq<ReceiptEntry>) {
    forall i, j :: 0 <= i < j < |entries| ==> PairBelow(entries[i], entries[j])
  }

  ghost predicate DistinctPairs(entries: seq<ReceiptEntry>) {
    forall i, j :: 0 <= i < j < |entries| ==>
      entries[i].recipient != entries[j].recipient || entries[i].evidence != entries[j].evidence
  }

  function Insert(e: ReceiptEntry, sorted: seq<ReceiptEntry>): seq<ReceiptEntry> {
    if sorted == [] || PairBelow(e, sorted[0]) then [e] + sorted
    else [sorted[0]] + Insert(e, sorted[1..])
  }

  /** The canonical copy of a batch's entries. */
  function SortedEntries(entries: seq<ReceiptEntry>): seq<ReceiptEntry> {
    if entries == [] then [] else Insert(entries[0], SortedEntries(entries[1..]))
  }

  lemma {:induction false} InsertMembers(e: ReceiptEntry, sorted: seq<ReceiptEntry>)
    ensures multiset(Insert(e, sorted)) == multiset{e} + multiset(sorted)
  {
    if sorted != [] && !PairBelow(e, sorted[0]) {
      InsertMembers(e, sorted[1..]);
      assert sorted == [sorted[0]] + sorted[1..];
    }
  }

  lemma {:induction false} SortedMembers(entries: seq<ReceiptEntry>)
    ensures multiset(SortedEntries(entries)) == multiset(entries)
  {
    if entries != [] {
      SortedMembers(entries[1..]);
      InsertMembers(entries[0], SortedEntries(entries[1..]));
      assert entries == [entries[0]] + entries[1..];
    }
  }

  lemma PairTrichotomy(a: ReceiptEntry, b: ReceiptEntry)
    ensures PairBelow(a, b) || PairBelow(b, a) || (a.recipient == b.recipient && a.evidence == b.evidence)
    ensures !(PairBelow(a, b) && PairBelow(b, a))
  {
    BelowTrichotomy(a.recipient, b.recipient);
    BelowTrichotomy(a.evidence, b.evidence);
  }

  lemma PairTransitive(a: ReceiptEntry, b: ReceiptEntry, c: ReceiptEntry)
    requires PairBelow(a, b) && PairBelow(b, c)
    ensures PairBelow(a, c)
  {
    if Below(a.recipient, b.recipient) && Below(b.recipient, c.recipient) {
      BelowTransitive(a.recipient, b.recipient, c.recipient);
    }
    if Below(a.evidence, b.evidence) && Below(b.evidence, c.evidence) {
      BelowTransitive(a.evidence, b.evidence, c.evidence);
    }
  }

  lemma {:induction false} InsertSorts(e: ReceiptEntry, sorted: seq<ReceiptEntry>)
    requires Sorted(sorted)
    requires forall x :: x in sorted ==> x.recipient != e.recipient || x.evidence != e.evidence
    ensures Sorted(Insert(e, sorted))
  {
    if sorted != [] {
      PairTrichotomy(e, sorted[0]);
      if PairBelow(e, sorted[0]) {
        forall j | 0 <= j < |sorted| ensures PairBelow(e, sorted[j]) {
          if j > 0 { PairTransitive(e, sorted[0], sorted[j]); }
        }
      } else {
        InsertSorts(e, sorted[1..]);
        InsertMembers(e, sorted[1..]);
        forall x | x in Insert(e, sorted[1..]) ensures PairBelow(sorted[0], x) {
          assert x in multiset(Insert(e, sorted[1..]));
          assert x == e || x in sorted[1..];
        }
      }
    }
  }

  lemma {:induction false} SortingSorts(entries: seq<ReceiptEntry>)
    requires DistinctPairs(entries)
    ensures Sorted(SortedEntries(entries))
  {
    if entries != [] {
      var rest := entries[1..];
      assert forall i :: 0 <= i < |rest| ==> rest[i] == entries[i + 1];
      SortingSorts(rest);
      SortedMembers(rest);
      forall x | x in SortedEntries(rest)
        ensures x.recipient != entries[0].recipient || x.evidence != entries[0].evidence
      {
        assert x in multiset(SortedEntries(rest)) && x in rest;
      }
      InsertSorts(entries[0], SortedEntries(rest));
    }
  }

  lemma SameHead(a: seq<ReceiptEntry>, b: seq<ReceiptEntry>)
    requires Sorted(a) && Sorted(b) && multiset(a) == multiset(b) && a != [] && b != []
    ensures a[0] == b[0]
  {
    assert a[0] in multiset(b) && b[0] in multiset(a);
    var i :| 0 <= i < |b| && b[i] == a[0];
    var j :| 0 <= j < |a| && a[j] == b[0];
    PairTrichotomy(a[0], b[0]);
  }

  /** The canonical order does not depend on the sorting algorithm: it is the only sorted arrangement. */
  lemma {:induction false} SortedIsUnique(a: seq<ReceiptEntry>, b: seq<ReceiptEntry>)
    requires Sorted(a) && Sorted(b) && multiset(a) == multiset(b)
    ensures a == b
  {
    assert |a| == |multiset(a)| == |multiset(b)| == |b|;
    if a != [] {
      SameHead(a, b);
      assert a == [a[0]] + a[1..] && b == [b[0]] + b[1..];
      assert multiset(a[1..]) == multiset(a) - multiset{a[0]};
      SortedIsUnique(a[1..], b[1..]);
    }
  }

  // ---- The check -----------------------------------------------------------

  predicate EntryValid(formats: Formats, e: ReceiptEntry) {
    && formats.canonical(e.recipient) && formats.canonical(e.evidence)
    && formats.canonical(e.knowledgeID) && formats.canonical(e.revelationID)
    && (e.testimonyRef == "" || formats.reference(e.testimonyRef))
  }

  predicate HeaderValid(formats: Formats, r: Receipt) {
    && formats.segment(r.turnID)
    && |r.entries| <= MAX_RECEIPT_ENTRIES
    && match r.status
       case CommittedReceipt => r.decisionID != ""
       case NotApplicableReceipt => r.decisionID == "" && r.entries == []
       case UnknownStatus(_) => false
  }

  /** Canonical identities never contain the joining byte. */
  ghost predicate Framed(formats: Formats) {
    forall id :: formats.canonical(id) ==> NulFree(id)
  }

  /** The check reads each joined key against the one before it. What it accepts is exactly a
      well-formed receipt whose entries are in canonical order with no pair named twice. */
  method Validate(formats: Formats, r: Receipt) returns (ok: bool)
    requires Framed(formats)
    ensures ok <==>
              && HeaderValid(formats, r)
              && (forall i :: 0 <= i < |r.entries| ==> EntryValid(formats, r.entries[i]))
              && Sorted(r.entries)
  {
    if !HeaderValid(formats, r) {
      return false;
    }
    var previous := "";
    for i := 0 to |r.entries|
      invariant forall j :: 0 <= j < i ==> EntryValid(formats, r.entries[j])
      invariant Sorted(r.entries[..i])
      invariant previous == if i == 0 then "" else Key(r.entries[i - 1])
    {
      if !EntryValid(formats, r.entries[i]) {
        return false;
      }
      var key := Key(r.entries[i]);
      NextKey(formats, r.entries, i, previous);
      if key == previous || Below(key, previous) {
        return false;
      }
      previous := key;
    }
    assert r.entries[..|r.entries|] == r.entries;
    ok := true;
  }

  lemma NextKey(formats: Formats, entries: seq<ReceiptEntry>, i: nat, previous: string)
    requires Framed(formats) && i < |entries| && Sorted(entries[..i])
    requires forall j :: 0 <= j <= i ==> EntryValid(formats, entries[j])
    requires previous == if i == 0 then "" else Key(entries[i - 1])
    ensures Below(previous, Key(entries[i])) <==> Sorted(entries[..i + 1])
    ensures Below(previous, Key(entries[i])) <==> !(Key(entries[i]) == previous || Below(Key(entries[i]), previous))
  {
    BelowTrichotomy(previous, Key(entries[i]));
    var longer := entries[..i + 1];
    if i > 0 {
      JoinedOrder(entries[i - 1].recipient, entries[i - 1].evidence, entries[i].recipient, entries[i].evidence);
      assert Below(previous, Key(entries[i])) <==> PairBelow(longer[i - 1], longer[i]);
      if PairBelow(longer[i - 1], longer[i]) {
        forall a, b | 0 <= a < b < |longer| ensures PairBelow(longer[a], longer[b]) {
          assert b < i ==> PairBelow(entries[..i][a], entries[..i][b]);
          if b == i && a < i - 1 {
            assert PairBelow(entries[..i][a], entries[..i][i - 1]);
            PairTransitive(longer[a], longer[i - 1], longer[i]);
          }
        }
      }
    }
  }

  /** Sorting is what makes a receipt of distinct pairs pass the check. */
  lemma SortedReceiptIsValid(formats: Formats, r: Receipt)
    requires HeaderValid(formats, r) && DistinctPairs(r.entries)
    requires forall i :: 0 <= i < |r.entries| ==> EntryValid(formats, r.entries[i])
    ensures var canonical := r.(entries := SortedEntries(r.entries));
      && HeaderValid(formats, canonical)
      && (forall i :: 0 <= i < |canonical.entries| ==> EntryValid(formats, canonical.entries[i]))
      && Sorted(canonical.entries)
  {
    SortingSorts(r.entries);
    SortedMembers(r.entries);
    var sorted := SortedEntries(r.entries);
    assert |sorted| == |multiset(sorted)| == |r.entries|;
    forall i | 0 <= i < |sorted| ensures EntryValid(formats, sorted[i]) {
      assert sorted[i] in multiset(sorted);
      assert sorted[i] in r.entries;
    }
  }
}
