/** The ledger writer on its own: archiving one turn, and the paging scan over all turns that archives
    whatever was never announced. */
module LedgerWriter {
  import opened Wrappers
  import opened Vocabulary
  import opened Graph
  import opened LedgerManifest

  const MAX_PAGES := 1000

  /** The upstream grammar also says which entities are turns at all. */
  datatype Setting = Setting(grammar: Grammar, campaignID: EntityID, isTurn: EntityID -> bool)

  type Archive = map<string, seq<Manifest>>

  datatype Outcome = Appended(manifest: Manifest) | Resident(manifest: Manifest) | Refused

  function Subject(archive: Archive, turnID: string): seq<Manifest> {
    if turnID in archive then archive[turnID] else []
  }

  /** One archive attempt: an identical resident manifest is success, a different one is never overwritten. */
  function ArchiveOutcome(setting: Setting, archive: Archive, turn: EntityID, s: EntityState, reply: Reply): (Archive, Outcome) {
    var turnID := setting.grammar.instance(turn);
    match Compose(setting.grammar, setting.campaignID, turn, s)
    case None => (archive, Refused)
    case Some(manifest) =>
      var resident := Subject(archive, turnID);
      if resident != [] then
        (archive, if resident[|resident| - 1] == manifest then Resident(manifest) else Refused)
      else
        var landed := Lands(reply);
        (if landed then archive[turnID := [manifest]] else archive,
         if reply == Committed then Appended(manifest) else Refused)
  }

  /** Where the durable guard sees what composing sees: a published manifest reads back as resident. */
  lemma AppendedReadsBack(setting: Setting, archive: Archive, turn: EntityID, s: EntityState, reply: Reply, again: Reply)
    requires ArchiveOutcome(setting, archive, turn, s, reply).1.Appended? || ArchiveOutcome(setting, archive, turn, s, reply).1.Resident?
    ensures var (after, _) := ArchiveOutcome(setting, archive, turn, s, reply);
      ArchiveOutcome(setting, after, turn, s, again) ==
      (after, Resident(Compose(setting.grammar, setting.campaignID, turn, s).value))
  {}

  // ---- Reconciliation ------------------------------------------------------

  datatype Turn = Turn(id: EntityID, state: EntityState)

  datatype Report = Report(scanned: nat, archived: nat, alreadyArchived: nat, inFlight: nat, failures: seq<EntityID>)

  const EMPTY := Report(0, 0, 0, 0, [])

  /** A turn nothing can be archived for yet, or ever: it is counted, not retried here. */
  datatype Triage = Malformed | InFlight | Resolved

  function TriageOf(setting: Setting, t: Turn): Triage {
    if !setting.grammar.canonical(t.id) || !setting.isTurn(t.id) then Malformed
    else match RecordedPhase(t.state)
      case None => Malformed
      case Some(phase) => if IsTerminal(phase.0) then Resolved else InFlight
  }

  predicate NeedsPublish(setting: Setting, archive: Archive, t: Turn) {
    && TriageOf(setting, t) == Resolved
    && Compose(setting.grammar, setting.campaignID, t.id, t.state).Some?
    && Subject(archive, setting.grammar.instance(t.id)) == []
  }

  /** One enumerated turn; a failure is collected, so one corrupt record hides no other turn. */
  function ReconcileTurn(setting: Setting, archive: Archive, report: Report, t: Turn, reply: Reply): (Archive, Report) {
    var seen := report.(scanned := report.scanned + 1);
    match TriageOf(setting, t)
    case Malformed => (archive, seen.(failures := seen.failures + [t.id]))
    case InFlight => (archive, seen.(inFlight := seen.inFlight + 1))
    case Resolved =>
      var (archive', outcome) := ArchiveOutcome(setting, archive, t.id, t.state, reply);
      match outcome
      case Appended(_) => (archive', seen.(archived := seen.archived + 1))
      case Resident(_) => (archive', seen.(alreadyArchived := seen.alreadyArchived + 1))
      case Refused => (archive', seen.(failures := seen.failures + [t.id]))
  }

  /** A publish consumes one reply; nothing else does. */
  function AfterTurn(setting: Setting, archive: Archive, t: Turn, replies: seq<Reply>): seq<Reply> {
    if NeedsPublish(setting, archive, t) then Later(replies) else replies
  }

  function ReconcileAll(
    setting: Setting, archive: Archive, report: Report, turns: seq<Turn>, replies: seq<Reply>
  ): (Archive, Report, seq<Reply>)
    decreases turns
  {
    if turns == [] then (archive, report, replies)
    else
      var (archive', report') := ReconcileTurn(setting, archive, report, turns[0], NextReply(replies));
      ReconcileAll(setting, archive', report', turns[1..], AfterTurn(setting, archive, turns[0], replies))
  }

  datatype Page = Page(turns: seq<Turn>, next: string)

  /** The turns a scan reaches from a cursor within a page budget, and whether it reached the end. */
  function Scan(pages: string -> Option<Page>, cursor: string, budget: nat): (seq<Turn>, bool)
    decreases budget
  {
    if budget == 0 then ([], false)
    else match pages(cursor)
      case None => ([], false)
      case Some(page) =>
        if page.next == "" then (page.turns, true)
        else if page.next == cursor then (page.turns, false)
        else
          var (rest, done) := Scan(pages, page.next, budget - 1);
          (page.turns + rest, done)
  }

  class Writer {
    const setting: Setting
    var archive: Archive
    var replies: seq<Reply>

    constructor (setting: Setting, archive: Archive, replies: seq<Reply>)
      ensures this.setting == setting && this.archive == archive && this.replies == replies
    {
      this.setting, this.archive, this.replies := setting, archive, replies;
    }

    /** Read the turn's own subject first; publish only when it is empty. */
    method ArchiveTurn(turn: EntityID, s: EntityState) returns (outcome: Outcome)
      modifies this
      ensures (archive, outcome) == ArchiveOutcome(setting, old(archive), turn, s, NextReply(old(replies)))
      ensures replies ==
              if Compose(setting.grammar, setting.campaignID, turn, s).Some? &&
                 Subject(old(archive), setting.grammar.instance(turn)) == []
              then Later(old(replies)) else old(replies)
    {
      var composed := Compose(setting.grammar, setting.campaignID, turn, s);
      if composed == None {
        return Refused;
      }
      var turnID := setting.grammar.instance(turn);
      var resident := Subject(archive, turnID);
      if resident != [] {
        return if resident[|resident| - 1] == composed.value then Resident(composed.value) else Refused;
      }
      var reply := NextReply(replies);
      replies := Later(replies);
      if Lands(reply) {
        archive := archive[turnID := [composed.value]];
      }
      return if reply == Committed then Appended(composed.value) else Refused;
    }

    method ReconcileOne(t: Turn, report: Report) returns (report': Report)
      modifies this
      ensures (archive, report') == ReconcileTurn(setting, old(archive), report, t, NextReply(old(replies)))
      ensures replies == AfterTurn(setting, old(archive), t, old(replies))
    {
      report' := report.(scanned := report.scanned + 1);
      match TriageOf(setting, t) {
        case Malformed => report' := report'.(failures := report'.failures + [t.id]);
        case InFlight => report' := report'.(inFlight := report'.inFlight + 1);
        case Resolved =>
          var outcome := ArchiveTurn(t.id, t.state);
          match outcome {
            case Appended(_) => report' := report'.(archived := report'.archived + 1);
            case Resident(_) => report' := report'.(alreadyArchived := report'.alreadyArchived + 1);
            case Refused => report' := report'.(failures := report'.failures + [t.id]);
          }
      }
    }

    method ReconcilePage(turns: seq<Turn>, report: Report) returns (report': Report)
      modifies this
      ensures (archive, report', replies) == ReconcileAll(setting, old(archive), report, turns, old(replies))
    {
      report' := report;
      for i := 0 to |turns|
        invariant ReconcileAll(setting, archive, report', turns[i..], replies) ==
                  ReconcileAll(setting, old(archive), report, turns, old(replies))
      {
        assert turns[i..][0] == turns[i] && turns[i..][1..] == turns[i + 1..];
        report' := ReconcileOne(turns[i], report');
      }
      assert turns[|turns|..] == [];
    }

    /** Walks every page of turns by cursor, refusing a scan that does not advance. */
    method Reconcile(pages: string -> Option<Page>) returns (report: Report, finished: bool)
      modifies this
      ensures finished == Scan(pages, "", MAX_PAGES).1
      ensures (archive, report, replies) ==
              ReconcileAll(setting, old(archive), EMPTY, Scan(pages, "", MAX_PAGES).0, old(replies))
    {
      report := EMPTY;
      var cursor := "";
      ghost var scanned: seq<Turn> := [];
      assert scanned + Scan(pages, cursor, MAX_PAGES).0 == Scan(pages, "", MAX_PAGES).0;
      for page := 0 to MAX_PAGES
        invariant (archive, report, replies) == ReconcileAll(setting, old(archive), EMPTY, scanned, old(replies))
        invariant Scan(pages, "", MAX_PAGES).0 == scanned + Scan(pages, cursor, MAX_PAGES - page).0
        invariant Scan(pages, "", MAX_PAGES).1 == Scan(pages, cursor, MAX_PAGES - page).1
      {
        ScanPage(pages, cursor, MAX_PAGES - page, scanned);
        var result := pages(cursor);
        if result == None {
          return report, false;
        }
        ReconcileConcat(setting, old(archive), EMPTY, scanned, result.value.turns, old(replies));
        report := ReconcilePage(result.value.turns, report);
        scanned := scanned + result.value.turns;
        if result.value.next == "" {
          return report, true;
        }
        if result.value.next == cursor {
          return report, false;
        }
        cursor := result.value.next;
      }
      assert scanned + [] == scanned;
      finished := false;
    }
  }

  /** What one page adds to a scan. */
  lemma ScanPage(pages: string -> Option<Page>, cursor: string, budget: nat, scanned: seq<Turn>)
    requires budget > 0
    ensures pages(cursor) == None ==> scanned + Scan(pages, cursor, budget).0 == scanned && !Scan(pages, cursor, budget).1
    ensures pages(cursor).Some? ==>
              var page := pages(cursor).value;
              if page.next == "" || page.next == cursor then
                scanned + Scan(pages, cursor, budget).0 == scanned + page.turns &&
                Scan(pages, cursor, budget).1 == (page.next == "")
              else
                scanned + Scan(pages, cursor, budget).0 == (scanned + page.turns) + Scan(pages, page.next, budget - 1).0 &&
                Scan(pages, cursor, budget).1 == Scan(pages, page.next, budget - 1).1
  {}

  lemma {:induction false} ReconcileConcat(
    setting: Setting, archive: Archive, report: Report, a: seq<Turn>, b: seq<Turn>, replies: seq<Reply>)
    ensures var (archive1, report1, replies1) := ReconcileAll(setting, archive, report, a, replies);
      ReconcileAll(setting, archive, report, a + b, replies) == ReconcileAll(setting, archive1, report1, b, replies1)
    decreases a
  {
    if a == [] {
      assert a + b == b;
    } else {
      var (archive', report') := ReconcileTurn(setting, archive, report, a[0], NextReply(replies));
      assert (a + b)[1..] == a[1..] + b;
      ReconcileConcat(setting, archive', report', a[1..], b, AfterTurn(setting, archive, a[0], replies));
    }
  }

  // ---- What a pass guarantees ----------------------------------------------

  /** Every scanned turn is counted once, as archived, already archived, in flight, or failed. */
  lemma {:induction false} EveryTurnIsCounted(
    setting: Setting, archive: Archive, report: Report, turns: seq<Turn>, replies: seq<Reply>)
    requires report.scanned == report.archived + report.alreadyArchived + report.inFlight + |report.failures|
    ensures var after := ReconcileAll(setting, archive, report, turns, replies).1;
      && after.scanned == report.scanned + |turns|
      && after.scanned == after.archived + after.alreadyArchived + after.inFlight + |after.failures|
    decreases turns
  {
    if turns != [] {
      var (archive', report') := ReconcileTurn(setting, archive, report, turns[0], NextReply(replies));
      EveryTurnIsCounted(setting, archive', report', turns[1..], AfterTurn(setting, archive, turns[0], replies));
    }
  }

  /** Nothing resident ever changes: the archive only gains subjects, each with one manifest. */
  ghost predicate Extends(archive: Archive, archive': Archive) {
    forall turnID :: Subject(archive, turnID) != [] ==> Subject(archive', turnID) == Subject(archive, turnID)
  }

  lemma {:induction false} PassExtends(
    setting: Setting, archive: Archive, report: Report, turns: seq<Turn>, replies: seq<Reply>)
    ensures Extends(archive, ReconcileAll(setting, archive, report, turns, replies).0)
    decreases turns
  {
    if turns != [] {
      var (archive', report') := ReconcileTurn(setting, archive, report, turns[0], NextReply(replies));
      PassExtends(setting, archive', report', turns[1..], AfterTurn(setting, archive, turns[0], replies));
    }
  }

  /** An undisturbed pass leaves no resolved, composable turn without an archived manifest. */
  lemma {:induction false} PassCovers(setting: Setting, archive: Archive, report: Report, turns: seq<Turn>, k: nat)
    requires k < |turns|
    ensures !NeedsPublish(setting, ReconcileAll(setting, archive, report, turns, []).0, turns[k])
    decreases turns
  {
    var (archive', report') := ReconcileTurn(setting, archive, report, turns[0], Committed);
    PassExtends(setting, archive', report', turns[1..], []);
    if k > 0 {
      PassCovers(setting, archive', report', turns[1..], k - 1);
    }
  }

  /** A turn that needs no publish is passed over: the archive does not move and nothing counts as new. */
  lemma {:induction false} IdlePass(
    setting: Setting, archive: Archive, report: Report, turns: seq<Turn>, replies: seq<Reply>)
    requires forall i :: 0 <= i < |turns| ==> !NeedsPublish(setting, archive, turns[i])
    ensures var (archive', report', _) := ReconcileAll(setting, archive, report, turns, replies);
      archive' == archive && report'.archived == report.archived
    decreases turns
  {
    if turns != [] {
      assert !NeedsPublish(setting, archive, turns[0]);
      var (archive', report') := ReconcileTurn(setting, archive, report, turns[0], NextReply(replies));
      assert forall i :: 0 <= i < |turns[1..]| ==> turns[1..][i] == turns[i + 1];
      IdlePass(setting, archive', report', turns[1..], AfterTurn(setting, archive, turns[0], replies));
    }
  }

  /** Reconciliation converges: after one undisturbed pass, another pass over the same turns writes nothing. */
  lemma SecondPassWritesNothing(setting: Setting, archive: Archive, turns: seq<Turn>, replies: seq<Reply>)
    ensures var first := ReconcileAll(setting, archive, EMPTY, turns, []).0;
      var (second, report, _) := ReconcileAll(setting, first, EMPTY, turns, replies);
      second == first && report.archived == 0
  {
    var first := ReconcileAll(setting, archive, EMPTY, turns, []).0;
    forall i | 0 <= i < |turns| ensures !NeedsPublish(setting, first, turns[i]) {
      PassCovers(setting, archive, EMPTY, turns, i);
    }
    IdlePass(setting, first, EMPTY, turns, replies);
  }
}
