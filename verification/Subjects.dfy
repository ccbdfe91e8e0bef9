/** Whether a stream's subject pattern captures everything a wanted subject can be. */
module Subjects {
  type Token = string

  const ANY: Token := "*"
  const REST: Token := ">"

  /** `>` may only close a pattern. */
  predicate WellFormed(pattern: seq<Token>) {
    forall i :: 0 <= i < |pattern| - 1 ==> pattern[i] != REST
  }

  predicate Concrete(subject: seq<Token>) {
    forall i :: 0 <= i < |subject| ==> subject[i] != ANY && subject[i] != REST
  }

  /** The broker's rule: `*` is one token, `>` is one or more. */
  predicate Matches(pattern: seq<Token>, subject: seq<Token>) {
    if pattern == [] then subject == []
    else if pattern[0] == REST then subject != []
    else subject != [] && (pattern[0] == ANY || pattern[0] == subject[0]) && Matches(pattern[1..], subject[1..])
  }

  /** What the boot check computes. */
  predicate Covers(pattern: seq<Token>, want: seq<Token>) {
    if pattern == [] then want == []
    else if pattern[0] == REST then true
    else want != [] && (pattern[0] == ANY || pattern[0] == want[0]) && Covers(pattern[1..], want[1..])
  }

  method PatternCovers(pattern: seq<Token>, want: seq<Token>) returns (covers: bool)
    ensures covers <==> Covers(pattern, want)
  {
    for i := 0 to |pattern|
      invariant i <= |want|
      invariant Covers(pattern, want) <==> Covers(pattern[i..], want[i..])
    {
      assert pattern[i..][1..] == pattern[i + 1..];
      if pattern[i] == REST {
        return true;
      }
      if i >= |want| {
        return false;
      }
      assert want[i..][1..] == want[i + 1..];
      if pattern[i] != ANY && pattern[i] != want[i] {
        return false;
      }
    }
    covers := |pattern| == |want|;
  }

  method SubjectCaptured(want: seq<Token>, subjects: seq<seq<Token>>) returns (captured: bool)
    ensures captured <==> exists i :: 0 <= i < |subjects| && Covers(subjects[i], want)
  {
    for i := 0 to |subjects|
      invariant forall j :: 0 <= j < i ==> !Covers(subjects[j], want)
    {
      var covers := PatternCovers(subjects[i], want);
      if covers {
        return true;
      }
    }
    captured := false;
  }

  /** The two positions the loop does not look at: a wanted `>` opposite a `*`, and a pattern's `>` with
      no wanted token left for it. */
  predicate Overlooked(pattern: seq<Token>, want: seq<Token>) {
    exists i :: 0 <= i < |pattern| && OverlookedAt(pattern, want, i)
  }

  predicate OverlookedAt(pattern: seq<Token>, want: seq<Token>, i: nat)
    requires i < |pattern|
  {
    && (forall j :: 0 <= j < i ==> pattern[j] != REST)
    && ((pattern[i] == ANY && i < |want| && want[i] == REST) || (pattern[i] == REST && i >= |want|))
  }

  lemma RestOverlooksNothing(pattern: seq<Token>, want: seq<Token>)
    requires pattern != [] && pattern[0] == REST && want != []
    ensures !Overlooked(pattern, want)
  {}

  lemma OverlookedShifts(pattern: seq<Token>, want: seq<Token>)
    requires pattern != [] && want != [] && pattern[0] != REST && !(pattern[0] == ANY && want[0] == REST)
    ensures Overlooked(pattern, want) <==> Overlooked(pattern[1..], want[1..])
  {
    if i :| 0 <= i < |pattern| && OverlookedAt(pattern, want, i) {
      assert i > 0;
      forall j | 0 <= j < i - 1 ensures pattern[1..][j] != REST {
        assert pattern[1..][j] == pattern[j + 1];
      }
      assert pattern[1..][i - 1] == pattern[i];
      assert OverlookedAt(pattern[1..], want[1..], i - 1);
    }
    if i :| 0 <= i < |pattern[1..]| && OverlookedAt(pattern[1..], want[1..], i) {
      forall j | 0 <= j < i + 1 ensures pattern[j] != REST {
        assert j > 0 ==> pattern[j] == pattern[1..][j - 1];
      }
      assert pattern[i + 1] == pattern[1..][i];
      assert OverlookedAt(pattern, want, i + 1);
    }
  }

  lemma {:induction false} CoverIsSound(pattern: seq<Token>, want: seq<Token>, subject: seq<Token>)
    requires WellFormed(pattern) && WellFormed(want) && Concrete(subject)
    requires Covers(pattern, want) && !Overlooked(pattern, want) && Matches(want, subject)
    ensures Matches(pattern, subject)
  {
    if pattern != [] {
      assert !OverlookedAt(pattern, want, 0);
      if pattern[0] != REST {
        OverlookedShifts(pattern, want);
        CoverIsSound(pattern[1..], want[1..], subject[1..]);
      }
    }
  }

  function Other(token: Token): Token {
    if token == "x" then "y" else "x"
  }

  function Sample(token: Token): Token {
    if token == ANY || token == REST then "x" else token
  }

  /** Some subject every pattern matches. */
  function Example(want: seq<Token>): seq<Token> {
    if want == [] then [] else [Sample(want[0])] + Example(want[1..])
  }

  lemma {:induction false} ExampleMatches(want: seq<Token>)
    requires WellFormed(want)
    ensures Concrete(Example(want)) && Matches(want, Example(want))
  {
    if want != [] {
      ExampleMatches(want[1..]);
      assert Example(want)[1..] == Example(want[1..]);
    }
  }

  lemma Prepend(token: Token, pattern: seq<Token>, subject: seq<Token>)
    requires Concrete(subject) && token != ANY && token != REST
    ensures Concrete([token] + subject)
    ensures pattern != [] && pattern[0] != REST && (pattern[0] == ANY || pattern[0] == token) ==>
              (Matches(pattern, [token] + subject) <==> Matches(pattern[1..], subject))
  {
    assert ([token] + subject)[1..] == subject;
  }

  /** A subject that escapes: whenever the check fails, or passes while overlooking, some concrete subject
      is wanted and not captured. */
  lemma {:induction false} Escapes(pattern: seq<Token>, want: seq<Token>) returns (subject: seq<Token>)
    requires WellFormed(pattern) && WellFormed(want)
    requires !Covers(pattern, want) || Overlooked(pattern, want)
    ensures Concrete(subject) && Matches(want, subject) && !Matches(pattern, subject)
    decreases |pattern|
  {
    if pattern == [] {
      subject := Example(want);
      ExampleMatches(want);
    } else if want == [] {
      subject := [];
    } else if pattern[0] == REST {
      RestOverlooksNothing(pattern, want);
      assert false;
    } else if want[0] == REST {
      subject := EscapesRest(pattern, want);
    } else if pattern[0] == ANY || pattern[0] == want[0] {
      OverlookedShifts(pattern, want);
      var rest := Escapes(pattern[1..], want[1..]);
      subject := [Sample(want[0])] + rest;
      Prepend(Sample(want[0]), pattern, rest);
      Prepend(Sample(want[0]), want, rest);
    } else {
      var token := if want[0] == ANY then Other(pattern[0]) else want[0];
      ExampleMatches(want[1..]);
      subject := [token] + Example(want[1..]);
      Prepend(token, want, Example(want[1..]));
    }
  }

  lemma EscapesRest(pattern: seq<Token>, want: seq<Token>) returns (subject: seq<Token>)
    requires WellFormed(pattern) && pattern != [] && pattern[0] != REST && want != [] && want[0] == REST
    ensures Concrete(subject) && Matches(want, subject) && !Matches(pattern, subject)
  {
    if pattern[0] != ANY {
      subject := [Other(pattern[0])];
    } else if |pattern| == 1 {
      subject := ["x", "x"];
      assert subject[1..] == ["x"];
    } else {
      subject := ["x"];
      assert subject[1..] == [];
    }
  }

  /** Subject coverage, exactly: a pattern captures every concrete subject a wanted pattern can be if and
      only if the boot check passes and neither overlooked position occurs. */
  lemma CoverageIsExact(pattern: seq<Token>, want: seq<Token>)
    requires WellFormed(pattern) && WellFormed(want)
    ensures (forall subject :: Concrete(subject) && Matches(want, subject) ==> Matches(pattern, subject)) <==>
            Covers(pattern, want) && !Overlooked(pattern, want)
  {
    if Covers(pattern, want) && !Overlooked(pattern, want) {
      forall subject | Concrete(subject) && Matches(want, subject) ensures Matches(pattern, subject) {
        CoverIsSound(pattern, want, subject);
      }
    } else {
      var subject := Escapes(pattern, want);
    }
  }

  /** The check alone is not enough: it passes `a.*` for `a.>`, though `a.x.x` escapes. */
  lemma StarDoesNotCoverRest()
    ensures Covers(["a", ANY], ["a", REST])
    ensures Matches(["a", REST], ["a", "x", "x"]) && !Matches(["a", ANY], ["a", "x", "x"])
  {
    assert ["a", ANY][1..] == [ANY] && ["a", REST][1..] == [REST] && ["a", "x", "x"][1..] == ["x", "x"];
    assert [ANY][1..] == [] && [REST][1..] == [] && ["x", "x"][1..] == ["x"];
    assert Covers([ANY], [REST]) && Matches([REST], ["x", "x"]) && !Matches([ANY], ["x", "x"]);
  }

  /** And it passes `a.>` for `a`, though the subject `a` itself escapes. */
  lemma RestDoesNotCoverNothing()
    ensures Covers(["a", REST], ["a"])
    ensures Matches(["a"], ["a"]) && !Matches(["a", REST], ["a"])
  {
    assert ["a", REST][1..] == [REST] && ["a"][1..] == [];
  }
}
