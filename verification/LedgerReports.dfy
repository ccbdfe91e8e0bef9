/** What the report of a reconciliation pass says about the turns it scanned. */
module LedgerReports {
  import opened Wrappers
  import opened Vocabulary
  import opened Graph
  import opened LedgerManifest
  import opened LedgerWriter

  /** A turn by identity, at exactly one declared phase. */
  predicate Readable(setting: Setting, t: Turn) {
    && setting.grammar.canonical(t.id) && setting.isTurn(t.id)
    && |TriplesOf(t.state, TurnPhaseCurrent)| == 1
    && TriplesOf(t.state, TurnPhaseCurrent)[0].obj.Text?
    && TriplesOf(t.state, TurnPhaseCurrent)[0].obj.text in TURN_PHASES
  }

  predicate Over(t: Turn) {
    && |TriplesOf(t.state, TurnPhaseCurrent)| == 1
    && (|| TriplesOf(t.state, TurnPhaseCurrent)[0].obj == Text("complete")
        || TriplesOf(t.state, TurnPhaseCurrent)[0].obj == Text("failed"))
  }

  /** The newest manifest under the turn's subject is the turn's own. */
  predicate Archived(setting: Setting, archive: Archive, t: Turn) {
    var resident := Subject(archive, setting.grammar.instance(t.id));
    && resident != []
    && Compose(setting.grammar, setting.campaignID, t.id, t.state) == Some(resident[|resident| - 1])
  }

  /** The turns nobody can read, and those that ended and yet are not archived, in the order scanned. */
  function Failing(setting: Setting, archive: Archive, turns: seq<Turn>): seq<EntityID> {
    if turns == [] then []
    else
      (if Fails(setting, archive, turns[0]) then [turns[0].id] else []) + Failing(setting, archive, turns[1..])
  }

  predicate Fails(setting: Setting, archive: Archive, t: Turn) {
    !Readable(setting, t) || (Over(t) && !Archived(setting, archive, t))
  }

  function Running(setting: Setting, turns: seq<Turn>): nat {
    if turns == [] then 0
    else (if Runs(setting, turns[0]) then 1 else 0) + Running(setting, turns[1..])
  }

  predicate Runs(setting: Setting, t: Turn) {
    Readable(setting, t) && !Over(t)
  }

  lemma TriagedExactly(setting: Setting, t: Turn)
    ensures TriageOf(setting, t) == Malformed <==> !Readable(setting, t)
    ensures TriageOf(setting, t) == InFlight <==> Readable(setting, t) && !Over(t)
    ensures TriageOf(setting, t) == Resolved <==> Readable(setting, t) && Over(t)
  {
    PhaseReads(t.state);
  }

  /** One undisturbed attempt is refused exactly when it leaves the turn unarchived. */
  lemma RefusedExactly(setting: Setting, archive: Archive, t: Turn, final: Archive)
    requires Extends(ArchiveOutcome(setting, archive, t.id, t.state, Committed).0, final)
    ensures ArchiveOutcome(setting, archive, t.id, t.state, Committed).1 == Refused <==> !Archived(setting, final, t)
  {
    var after := ArchiveOutcome(setting, archive, t.id, t.state, Committed).0;
    if Compose(setting.grammar, setting.campaignID, t.id, t.state).Some? {
      assert Subject(after, setting.grammar.instance(t.id)) != [];
    }
  }

  lemma TurnReported(setting: Setting, archive: Archive, report: Report, t: Turn, final: Archive)
    requires Extends(ReconcileTurn(setting, archive, report, t, Committed).0, final)
    ensures var after := ReconcileTurn(setting, archive, report, t, Committed).1;
      && after.failures == report.failures + (if Fails(setting, final, t) then [t.id] else [])
      && after.inFlight == report.inFlight + (if Runs(setting, t) then 1 else 0)
  {
    TriagedExactly(setting, t);
    if TriageOf(setting, t) == Resolved {
      RefusedExactly(setting, archive, t, final);
    }
  }

  lemma Regroup<T>(a: seq<T>, b: seq<T>, c: seq<T>)
    ensures (a + b) + c == a + (b + c)
  {}

  lemma PassSteps(setting: Setting, archive: Archive, report: Report, turns: seq<Turn>)
    requires turns != []
    ensures var (archive', report') := ReconcileTurn(setting, archive, report, turns[0], Committed);
      ReconcileAll(setting, archive, report, turns, []) == ReconcileAll(setting, archive', report', turns[1..], [])
  {}

  /** The report of an undisturbed pass names, in the order scanned, exactly the turns nobody can read and the ended
      turns the archive it leaves does not hold, and counts as in flight exactly the readable turns that have not ended. */
  lemma {:induction false} ReportsExactly(setting: Setting, archive: Archive, report: Report, turns: seq<Turn>)
    ensures var (final, after, _) := ReconcileAll(setting, archive, report, turns, []);
      && after.failures == report.failures + Failing(setting, final, turns)
      && after.inFlight == report.inFlight + Running(setting, turns)
    decreases turns
  {
    if turns != [] {
      var (archive', report') := ReconcileTurn(setting, archive, report, turns[0], Committed);
      PassSteps(setting, archive, report, turns);
      var final := ReconcileAll(setting, archive', report', turns[1..], []).0;
      PassExtends(setting, archive', report', turns[1..], []);
      TurnReported(setting, archive, report, turns[0], final);
      ReportsExactly(setting, archive', report', turns[1..]);
      Regroup(report.failures, if Fails(setting, final, turns[0]) then [turns[0].id] else [], Failing(setting, final, turns[1..]));
    }
  }
}
