/** Identities that cannot be confused: length-framed hash input, and storage references that
    read back as what was written. */
module Identities {
  import opened Wrappers

  type Byte = x: int | 0 <= x < 256

  const WORD := 0x1_0000_0000

  // ---- Length framing ------------------------------------------------------

  /** The length in four bytes, most significant first, truncated to the width of the field. */
  function Length(n: nat): seq<Byte> {
    var v := n % WORD;
    [v / 0x100_0000, v / 0x1_0000 % 256, v / 0x100 % 256, v % 256]
  }

  function Frame(part: seq<Byte>): seq<Byte> {
    Length(|part|) + part
  }

  function Framed(parts: seq<seq<Byte>>): seq<Byte> {
    if parts == [] then [] else Frame(parts[0]) + Framed(parts[1..])
  }

  predicate Frameable(parts: seq<seq<Byte>>) {
    forall i :: 0 <= i < |parts| ==> |parts[i]| < WORD
  }

  function Big(b: seq<Byte>): int
    requires |b| == 4
  {
    var w, x, y, z: int := b[0], b[1], b[2], b[3];
    w * 0x100_0000 + x * 0x1_0000 + y * 0x100 + z
  }

  lemma LengthReads(n: nat)
    requires n < WORD
    ensures Big(Length(n)) == n
  {
    var a, b, c := n / 0x100_0000, n / 0x1_0000, n / 0x100;
    assert b == a * 256 + b % 256;
    assert c == b * 256 + c % 256;
    assert n == c * 256 + n % 256;
  }

  /** The framed input determines the parts: no other list, of any length, hashes the same bytes. */
  lemma {:induction false} FramingIsInjective(a: seq<seq<Byte>>, b: seq<seq<Byte>>)
    requires Frameable(a) && Frameable(b) && Framed(a) == Framed(b)
    ensures a == b
    decreases |a|
  {
    if a != [] && b != [] {
      var x, y := Framed(a), Framed(b);
      assert x[..4] == Length(|a[0]|) && y[..4] == Length(|b[0]|);
      LengthReads(|a[0]|);
      LengthReads(|b[0]|);
      assert |a[0]| == |b[0]|;
      assert x[4..4 + |a[0]|] == a[0] && y[4..4 + |b[0]|] == b[0];
      assert x[4 + |a[0]|..] == Framed(a[1..]) && y[4 + |b[0]|..] == Framed(b[1..]);
      FramingIsInjective(a[1..], b[1..]);
      assert a == [a[0]] + a[1..] && b == [b[0]] + b[1..];
    }
  }

  /** The bound is needed: a part of exactly 2^32 bytes that is itself a framed part hashes like an empty part
      followed by what it frames, because its own length field wraps to zero. */
  lemma LengthWraps(body: seq<Byte>)
    requires |body| == WORD - 4
    ensures Framed([Frame(body)]) == Framed([[], body]) && [Frame(body)] != [[], body]
  {
    var whole, split: seq<seq<Byte>> := [Frame(body)], [[], body];
    assert |Frame(body)| == WORD && Length(WORD) == Length(0);
    assert whole[1..] == [] && Framed(whole) == Frame(whole[0]) + [];
    assert split[1..] == [body] && [body][1..] == [];
    assert Framed([body]) == Frame(body) + [];
    assert |whole| != |split|;
  }

  /** A running digest, which only ever sees bytes in the order they are written. */
  class Digest {
    var written: seq<Byte>

    constructor ()
      ensures written == []
    {
      written := [];
    }

    method WriteBytes(bytes: seq<Byte>)
      modifies this
      ensures written == old(written) + bytes
    {
      written := written + bytes;
    }

    method WriteFramed(value: seq<Byte>)
      modifies this
      ensures written == old(written) + Frame(value)
    {
      WriteBytes(Length(|value|));
      WriteBytes(value);
    }
  }

  /** Feeds every part to one digest, each behind its length. */
  method FeedFramed(digest: Digest, parts: seq<seq<Byte>>)
    modifies digest
    ensures digest.written == old(digest.written) + Framed(parts)
  {
    ghost var before := digest.written;
    assert parts[0..] == parts;
    for i := 0 to |parts|
      invariant digest.written + Framed(parts[i..]) == before + Framed(parts)
    {
      assert parts[i..][1..] == parts[i + 1..];
      digest.WriteFramed(parts[i]);
    }
    assert parts[|parts|..] == [];
  }

  /** An action's preimage: a fixed domain, then the player and the key, each framed. */
  function ActionPreimage(domain: seq<Byte>, player: seq<Byte>, key: seq<Byte>): seq<Byte> {
    domain + Framed([player, key])
  }

  /** One action identity per (player, idempotency key): neither can borrow bytes from the other. */
  lemma ActionPreimageIsInjective(domain: seq<Byte>, p: seq<Byte>, k: seq<Byte>, p': seq<Byte>, k': seq<Byte>)
    requires Frameable([p, k]) && Frameable([p', k'])
    ensures ActionPreimage(domain, p, k) == ActionPreimage(domain, p', k') <==> p == p' && k == k'
  {
    if ActionPreimage(domain, p, k) == ActionPreimage(domain, p', k') {
      assert ActionPreimage(domain, p, k)[|domain|..] == Framed([p, k]);
      assert ActionPreimage(domain, p', k')[|domain|..] == Framed([p', k']);
      FramingIsInjective([p, k], [p', k']);
      assert [p, k][0] == [p', k'][0] && [p, k][1] == [p', k'][1];
    }
  }

  // ---- Storage references --------------------------------------------------

  const SCHEME := "obj://"
  const SEPARATOR: char := '/'
  const MAX_TRIPLE_OBJECT := 256

  datatype Ref = Ref(instance: string, key: string)

  const NO_REF := Ref("", "")

  function Text(r: Ref): string {
    if r == NO_REF then "" else SCHEME + r.instance + [SEPARATOR] + r.key
  }

  predicate RefValid(r: Ref) {
    r.instance != "" && SEPARATOR !in r.instance && r.key != "" && |Text(r)| <= MAX_TRIPLE_OBJECT
  }

  /** What lies before and after the first separator. */
  function Cut(s: string): Option<(string, string)> {
    if s == [] then None
    else if s[0] == SEPARATOR then Some(("", s[1..]))
    else match Cut(s[1..])
      case None => None
      case Some((before, after)) => Some(([s[0]] + before, after))
  }

  function ParseRef(s: string): Option<Ref> {
    if s == "" then Some(NO_REF)
    else if !(SCHEME <= s) then None
    else match Cut(s[|SCHEME|..])
      case None => None
      case Some((instance, key)) => if RefValid(Ref(instance, key)) then Some(Ref(instance, key)) else None
  }

  lemma {:induction false} CutReads(s: string)
    ensures match Cut(s)
            case None => SEPARATOR !in s
            case Some((before, after)) => s == before + [SEPARATOR] + after && SEPARATOR !in before
  {
    if s != [] && s[0] != SEPARATOR {
      CutReads(s[1..]);
      assert s == [s[0]] + s[1..];
    }
  }

  lemma {:induction false} CutFinds(before: string, after: string)
    requires SEPARATOR !in before
    ensures Cut(before + [SEPARATOR] + after) == Some((before, after))
  {
    var s := before + [SEPARATOR] + after;
    if before == [] {
      assert s[1..] == after;
    } else {
      assert s[1..] == before[1..] + [SEPARATOR] + after;
      CutFinds(before[1..], after);
      assert [before[0]] + before[1..] == before;
    }
  }

  /** Parsing and writing undo each other on everything valid, and an absent reference stays absent. */
  lemma ReferencesRoundTrip(r: Ref, s: string)
    ensures ParseRef(Text(r)) == Some(r) <==> RefValid(r) || r == NO_REF
    ensures ParseRef(s) == Some(r) ==> Text(r) == s
  {
    if r != NO_REF {
      var tail := r.instance + [SEPARATOR] + r.key;
      assert Text(r) == SCHEME + tail;
      assert SCHEME <= Text(r) && Text(r)[|SCHEME|..] == tail;
      if SEPARATOR !in r.instance {
        CutFinds(r.instance, r.key);
      }
    }
    if SCHEME <= s {
      CutReads(s[|SCHEME|..]);
      assert s == SCHEME + s[|SCHEME|..];
    }
  }

  // ---- Object keys ---------------------------------------------------------

  datatype SubjectKind = TurnSubject | RevelationSubject

  function KindText(k: SubjectKind): string {
    match k case TurnSubject => "turn" case RevelationSubject => "revelation"
  }

  /** One subject's artifact: kind, subject and slot, joined by the separator none of them holds. */
  function KeyFor(kind: SubjectKind, subject: string, slot: string): string {
    KindText(kind) + [SEPARATOR] + (subject + [SEPARATOR] + slot)
  }

  /** Two artifacts share a key only if they are the same artifact. */
  lemma KeysAreInjective(k: SubjectKind, s: string, t: string, k': SubjectKind, s': string, t': string)
    requires SEPARATOR !in s && SEPARATOR !in s'
    ensures KeyFor(k, s, t) == KeyFor(k', s', t') <==> k == k' && s == s' && t == t'
  {
    if KeyFor(k, s, t) == KeyFor(k', s', t') {
      CutFinds(KindText(k), s + [SEPARATOR] + t);
      CutFinds(KindText(k'), s' + [SEPARATOR] + t');
      CutFinds(s, t);
      CutFinds(s', t');
      assert KindText(k) == KindText(k');
      assert |KindText(TurnSubject)| != |KindText(RevelationSubject)|;
    }
  }
}
