/** Routing a request to the one persona role it can only be for. */
module MockModel {
  import opened Wrappers

  datatype Match = Match(model: string, tools: seq<string>)

  datatype Role = Role(name: string, match_: Match)

  /** A role matches when its model, if it names one, and all its tools are declared. */
  predicate Matches(m: Match, model: string, declared: seq<string>) {
    && (m.model != "" ==> m.model == model)
    && forall i :: 0 <= i < |m.tools| ==> m.tools[i] in declared
  }

  /** The static check: no wider model constraint, and no tool the other does not already need. */
  predicate Subsumes(m: Match, other: Match) {
    && (m.model != "" ==> m.model == other.model)
    && forall i :: 0 <= i < |m.tools| ==> m.tools[i] in other.tools
  }

  /** The request that asks for exactly one role, under a model nobody else can insist on. */
  function OwnModel(m: Match, unclaimed: string): string {
    if m.model != "" then m.model else unclaimed
  }

  /** The static check holds exactly when the requests of `other` are among those of `m`. */
  lemma SubsumesIsInclusion(m: Match, other: Match)
    ensures Subsumes(m, other) <==>
            forall model, declared :: Matches(other, model, declared) ==> Matches(m, model, declared)
  {
    if forall model, declared :: Matches(other, model, declared) ==> Matches(m, model, declared) {
      var model := OwnModel(other, m.model + "'");
      assert Matches(other, model, other.tools);
      assert Matches(m, model, other.tools);
      assert |m.model + "'"| != |m.model|;
    }
    if Subsumes(m, other) {
      forall model, declared | Matches(other, model, declared) ensures Matches(m, model, declared) {
        forall i | 0 <= i < |m.tools| ensures m.tools[i] in declared {
          var j :| 0 <= j < |other.tools| && other.tools[j] == m.tools[i];
        }
      }
    }
  }

  /** The names of the roles a request matches, in declaration order. */
  function Matching(roles: seq<Role>, model: string, declared: seq<string>): seq<string> {
    if roles == [] then []
    else
      var before, last := Matching(roles[..|roles| - 1], model, declared), roles[|roles| - 1];
      if Matches(last.match_, model, declared) then before + [last.name] else before
  }

  datatype Routed = To(role: string) | Unroutable | Ambiguous

  function Route(roles: seq<Role>, model: string, declared: seq<string>): Routed {
    var matched := Matching(roles, model, declared);
    if |matched| == 1 then To(matched[0]) else if |matched| == 0 then Unroutable else Ambiguous
  }

  method RouteRole(roles: seq<Role>, model: string, declared: seq<string>) returns (r: Routed)
    ensures r == Route(roles, model, declared)
  {
    var matched: seq<string> := [];
    for i := 0 to |roles|
      invariant matched == Matching(roles[..i], model, declared)
    {
      assert roles[..i + 1][..i] == roles[..i];
      if Matches(roles[i].match_, model, declared) {
        matched := matched + [roles[i].name];
      }
    }
    assert roles[..|roles|] == roles;
    r := if |matched| == 1 then To(matched[0]) else if |matched| == 0 then Unroutable else Ambiguous;
  }

  predicate Distinguishable(roles: seq<Role>) {
    forall i, j :: 0 <= i < |roles| && 0 <= j < |roles| && i != j ==> !Subsumes(roles[i].match_, roles[j].match_)
  }

  /** Decides whether no role subsumes another. */
  method ValidateRolesAreDistinguishable(roles: seq<Role>) returns (ok: bool)
    ensures ok <==> Distinguishable(roles)
  {
    for i := 0 to |roles|
      invariant forall a, b :: 0 <= a < i && 0 <= b < |roles| && a != b ==> !Subsumes(roles[a].match_, roles[b].match_)
    {
      for j := 0 to |roles|
        invariant forall b :: 0 <= b < j && b != i ==> !Subsumes(roles[i].match_, roles[b].match_)
      {
        if i != j && Subsumes(roles[i].match_, roles[j].match_) {
          return false;
        }
      }
    }
    ok := true;
  }

  lemma {:induction false} MatchingOnly(roles: seq<Role>, model: string, declared: seq<string>, k: nat)
    requires k < |roles| && Matches(roles[k].match_, model, declared)
    requires forall i :: 0 <= i < |roles| && i != k ==> !Matches(roles[i].match_, model, declared)
    ensures Matching(roles, model, declared) == [roles[k].name]
  {
    if k == |roles| - 1 {
      MatchingNone(roles[..k], model, declared);
    } else {
      MatchingOnly(roles[..|roles| - 1], model, declared, k);
    }
  }

  lemma {:induction false} MatchingNone(roles: seq<Role>, model: string, declared: seq<string>)
    requires forall i :: 0 <= i < |roles| ==> !Matches(roles[i].match_, model, declared)
    ensures Matching(roles, model, declared) == []
  {
    if roles != [] {
      MatchingNone(roles[..|roles| - 1], model, declared);
    }
  }

  lemma {:induction false} MatchingBoth(roles: seq<Role>, model: string, declared: seq<string>, a: nat, b: nat)
    requires a < b < |roles|
    requires Matches(roles[a].match_, model, declared) && Matches(roles[b].match_, model, declared)
    ensures |Matching(roles, model, declared)| >= 2
  {
    if b == |roles| - 1 {
      MatchingSome(roles[..b], model, declared, a);
    } else {
      MatchingBoth(roles[..|roles| - 1], model, declared, a, b);
    }
  }

  lemma {:induction false} MatchingSome(roles: seq<Role>, model: string, declared: seq<string>, a: nat)
    requires a < |roles| && Matches(roles[a].match_, model, declared)
    ensures |Matching(roles, model, declared)| >= 1
  {
    if a < |roles| - 1 {
      MatchingSome(roles[..|roles| - 1], model, declared, a);
    }
  }

  /** In a validated fixture every role has a request of its own: its tools, and its model or any model
      no role names. */
  lemma EveryRoleIsReachable(roles: seq<Role>, k: nat, unclaimed: string)
    requires Distinguishable(roles) && k < |roles|
    requires unclaimed != "" && forall i :: 0 <= i < |roles| ==> roles[i].match_.model != unclaimed
    ensures Route(roles, OwnModel(roles[k].match_, unclaimed), roles[k].match_.tools) == To(roles[k].name)
  {
    var own := roles[k].match_;
    forall i | 0 <= i < |roles| && i != k ensures !Matches(roles[i].match_, OwnModel(own, unclaimed), own.tools) {
      assert !Subsumes(roles[i].match_, own);
    }
    MatchingOnly(roles, OwnModel(own, unclaimed), own.tools, k);
  }

  /** And the check is no stricter than that: a fixture it rejects has a role no request reaches. */
  lemma RejectedFixturesHaveAShadowedRole(roles: seq<Role>)
    requires !Distinguishable(roles)
    ensures exists k :: 0 <= k < |roles| &&
              forall model, declared :: Matches(roles[k].match_, model, declared) ==>
                Route(roles, model, declared) == Ambiguous
  {
    var i, j :| 0 <= i < |roles| && 0 <= j < |roles| && i != j && Subsumes(roles[i].match_, roles[j].match_);
    SubsumesIsInclusion(roles[i].match_, roles[j].match_);
    forall model, declared | Matches(roles[j].match_, model, declared)
      ensures Route(roles, model, declared) == Ambiguous
    {
      assert Matches(roles[i].match_, model, declared);
      MatchingBoth(roles, model, declared, if i < j then i else j, if i < j then j else i);
    }
  }

  // ---- Serving a script ----------------------------------------------------

  /** One role's script in one scenario: which steps answer again and again. */
  datatype Taken = Step(index: nat, ordinal: nat) | Exhausted

  function Advance(repeats: seq<bool>, cursor: nat): nat {
    if cursor < |repeats| && !repeats[cursor] then cursor + 1 else cursor
  }

  class Script {
    const repeats: seq<bool>
    var cursor: nat
    var served: nat

    constructor (repeats: seq<bool>)
      ensures this.repeats == repeats && cursor == 0 && served == 0
    {
      this.repeats, cursor, served := repeats, 0, 0;
    }

    /** Answers with the step under the cursor; a repeating step stays under it. */
    method Take() returns (taken: Taken)
      modifies this
      ensures taken == if old(cursor) < |repeats| then Step(old(cursor), old(served)) else Exhausted
      ensures cursor == Advance(repeats, old(cursor))
      ensures served == if old(cursor) < |repeats| then old(served) + 1 else old(served)
    {
      if cursor >= |repeats| {
        return Exhausted;
      }
      taken := Step(cursor, served);
      served := served + 1;
      if !repeats[cursor] {
        cursor := cursor + 1;
      }
    }
  }

  /** Where the cursor stands after some calls. */
  function CursorAfter(repeats: seq<bool>, calls: nat): nat {
    if calls == 0 then 0 else Advance(repeats, CursorAfter(repeats, calls - 1))
  }

  /** The k-th call reaches the k-th step, or stays at the first repeating step before it, or finds
      the script exhausted: no step is skipped and none but a repeating one is served twice. */
  lemma {:induction false} StepsAreServedInOrder(repeats: seq<bool>, calls: nat)
    ensures var at := CursorAfter(repeats, calls);
      && at <= calls && at <= |repeats|
      && (forall i :: 0 <= i < at ==> !repeats[i])
      && (at == calls || at == |repeats| || repeats[at])
  {
    if calls > 0 {
      StepsAreServedInOrder(repeats, calls - 1);
    }
  }
}
