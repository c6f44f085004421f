/** What the bounded store guarantees to the daily and monthly reports. */
module DailyReports {
  import opened Ordering
  import opened Wrappers
  import opened Calendar
  import opened DailyHistory

  // ------------------------------------------------------------ retention

  ghost predicate UpTo(saves: seq<Save>, last: Date) {
    forall i | 0 <= i < |saves| ::
      ValidDate(saves[i].date) && (saves[i].date == last || DateLt(saves[i].date, last))
  }

  lemma {:induction false} HistoryDate(saves: seq<Save>, text: string)
    requires text in HistoryOf(saves)
    ensures exists i :: 0 <= i < |saves| && saves[i].nodes != [] && Iso(saves[i].date) == text
  {
    var n := |saves| - 1;
    if saves[n].nodes == [] || Iso(saves[n].date) != text {
      HistoryDate(saves[..n], text);
      var i :| 0 <= i < n && saves[..n][i].nodes != [] && Iso(saves[..n][i].date) == text;
      assert saves[i] == saves[..n][i];
    }
  }

  ghost function DaysAfter(year: nat, month: nat, from: nat, last: nat): set<string> {
    set day: nat | from < day <= last :: Iso(Date(year, month, day))
  }

  /** The report dates that can follow `start` within its month, and the 1st after it. */
  ghost function LaterTexts(start: Date, report: Date): set<string> {
    DaysAfter(start.year, start.month, start.day, 31) + {Iso(report)}
  }

  lemma {:induction false} DayTexts(year: nat, month: nat, from: nat, last: nat)
    requires from <= last
    ensures |DaysAfter(year, month, from, last)| <= last - from
    decreases last
  {
    hide Iso;
    if from < last {
      DayTexts(year, month, from, last - 1);
      assert DaysAfter(year, month, from, last)
          == DaysAfter(year, month, from, last - 1) + {Iso(Date(year, month, last))};
    } else {
      assert DaysAfter(year, month, from, last) == {};
    }
  }

  /** A saved date is still stored when fewer than `limit` texts can be newer. */
  lemma NewestStay(saves: seq<Save>, limit: nat, text: string, newer: set<string>)
    requires text in HistoryOf(saves) && |newer| < limit
    requires forall t | t in HistoryOf(saves) && StrLt(text, t) :: t in newer
    ensures text in DateSet(RunSaves(saves, limit))
  {
    var kept := DateSet(RunSaves(saves, limit));
    var all := HistoryOf(saves).Keys;
    assert IsFirst(Newer, kept, all, limit) by {
      StoreRefinesHistory(saves, limit);
    }
    if text !in kept {
      assert forall t | t in kept :: Newer(t, text);
      assert kept <= newer;
      SubsetSize(kept, newer);
      assert kept < all;
      assert |kept| < |all| by { if |kept| == |all| { SubsetSize(kept, all); } SubsetSize(kept, all); }
      assert false;
    }
  }

  /** Dates of the month of `start` and the report on the 1st after it. */
  lemma BetweenStartAndReport(start: Date, report: Date, d: Date)
    requires ValidDate(start) && ValidDate(report) && ValidDate(d)
    requires PreviousMonthStart(report) == Some(Date(start.year, start.month, 1))
    requires DateLt(start, d) && (d == report || DateLt(d, report))
    ensures d == report || (d.year == start.year && d.month == start.month && start.day < d.day <= 31)
  {
  }

  lemma LaterTextIsListed(saves: seq<Save>, report: Date, d: Date, text: string)
    requires ValidDate(report) && ValidDate(d) && UpTo(saves, report)
    requires PreviousMonthStart(report) == Some(Date(d.year, d.month, 1))
    requires text in HistoryOf(saves) && StrLt(Iso(d), text)
    ensures text in LaterTexts(d, report)
  {
    HistoryDate(saves, text);
    var i :| 0 <= i < |saves| && saves[i].nodes != [] && Iso(saves[i].date) == text;
    var e := saves[i].date;
    IsoOrderIsDateOrder(d, e);
    BetweenStartAndReport(d, report, e);
    assert e == report || e == Date(d.year, d.month, e.day);
  }

  /** For the report on a 1st, every snapshot of the previous month that was ever saved is still
      stored, whatever else was saved up to and including the report date itself. */
  lemma PreviousMonthIsRetained(saves: seq<Save>, limit: nat, report: Date, d: Date)
    requires limit >= 32
    requires ValidDate(report) && ValidDate(d) && UpTo(saves, report)
    requires PreviousMonthStart(report) == Some(Date(d.year, d.month, 1))
    requires Iso(d) in HistoryOf(saves)
    ensures Iso(d) in DateSet(RunSaves(saves, limit))
  {
    var newer, text := LaterTexts(d, report), Iso(d);
    assert |newer| < limit by {
      DayTexts(d.year, d.month, d.day, 31);
    }
    forall t | t in HistoryOf(saves) && StrLt(text, t) ensures t in newer {
      LaterTextIsListed(saves, report, d, t);
    }
    NewestStay(saves, limit, text, newer);
  }

  /** The snapshot of the day before the report is still stored. */
  lemma PreviousDayIsRetained(saves: seq<Save>, limit: nat, report: Date)
    requires limit >= 2 && ValidDate(report) && UpTo(saves, report) && Pred(report).Some?
    requires Iso(Pred(report).value) in HistoryOf(saves)
    ensures Iso(Pred(report).value) in DateSet(RunSaves(saves, limit))
  {
    hide Iso, HistoryOf, RunSaves, StrLt;
    var d := Pred(report).value;
    PredIsPrevious(report);
    forall t | t in HistoryOf(saves) && StrLt(Iso(d), t) ensures t in {Iso(report)} {
      HistoryDate(saves, t);
      var i :| 0 <= i < |saves| && saves[i].nodes != [] && Iso(saves[i].date) == t;
      IsoOrderIsDateOrder(d, saves[i].date);
    }
    NewestStay(saves, limit, Iso(d), {Iso(report)});
  }

  /** With this limit every report on a 1st still finds the previous month's first snapshot. */
  ghost predicate ServesMonthlyReports(limit: nat) {
    forall saves: seq<Save>, report: Date |
      ValidDate(report) && UpTo(saves, report) && PreviousMonthStart(report).Some?
      && Iso(PreviousMonthStart(report).value) in HistoryOf(saves) ::
      Iso(PreviousMonthStart(report).value) in DateSet(RunSaves(saves, limit))
  }

  lemma HistoryStep(saves: seq<Save>, save: Save)
    requires save.nodes != []
    ensures HistoryOf(saves + [save])
        == HistoryOf(saves)[Iso(save.date) := FromNodeDetails(save.date, save.nodes).details]
  {
    assert (saves + [save])[..|saves|] == saves;
  }

  /** Saves on every day of January and on the first of February. */
  function JanuaryDate(i: nat): Date {
    if i < 31 then Date(2026, 1, i + 1) else Date(2026, 2, 1)
  }

  function JanuarySaves(n: nat): seq<Save> {
    if n == 0 then [] else JanuarySaves(n - 1) + [Save(JanuaryDate(n - 1), [NodeDetail("a", "a", 1, 0)])]
  }

  lemma {:induction false} JanuaryHistory(n: nat)
    requires n <= 32
    ensures |HistoryOf(JanuarySaves(n))| == n
    ensures n > 0 ==> Iso(JanuaryDate(0)) in HistoryOf(JanuarySaves(n))
  {
    if n > 0 {
      JanuaryHistory(n - 1);
      var save := Save(JanuaryDate(n - 1), [NodeDetail("a", "a", 1, 0)]);
      var h, text := HistoryOf(JanuarySaves(n - 1)), Iso(save.date);
      HistoryStep(JanuarySaves(n - 1), save);
      assert text !in h by {
        if text in h { JanuaryTexts(n - 1, text); }
      }
    }
  }

  lemma JanuaryUpTo(n: nat)
    requires n <= 32
    ensures UpTo(JanuarySaves(n), Date(2026, 2, 1))
  {
    forall i | 0 <= i < |JanuarySaves(n)|
      ensures ValidDate(JanuarySaves(n)[i].date)
      ensures JanuarySaves(n)[i].date == Date(2026, 2, 1) || DateLt(JanuarySaves(n)[i].date, Date(2026, 2, 1))
    {
      JanuaryLength(n);
      JanuaryAt(n, i);
    }
  }

  lemma JanuaryTexts(n: nat, text: string)
    requires n <= 31 && text in HistoryOf(JanuarySaves(n))
    ensures text != Iso(JanuaryDate(n))
  {
    hide Iso, JanuarySaves, HistoryOf, StrLt;
    HistoryDate(JanuarySaves(n), text);
    JanuaryLength(n);
    var i :| 0 <= i < n && Iso(JanuarySaves(n)[i].date) == text;
    JanuaryAt(n, i);
    IsoOrderIsDateOrder(JanuaryDate(i), JanuaryDate(n));
  }

  lemma {:induction false} JanuaryLength(n: nat)
    ensures |JanuarySaves(n)| == n
  {
    if n > 0 { JanuaryLength(n - 1); }
  }

  lemma {:induction false} JanuaryAt(n: nat, i: nat)
    requires i < n
    ensures |JanuarySaves(n)| == n && JanuarySaves(n)[i].date == JanuaryDate(i)
  {
    JanuaryLength(n - 1);
    if i < n - 1 { JanuaryAt(n - 1, i); }
  }

  /** A store of fewer than 32 days has dropped the 1st of January when February reports. */
  lemma ShorterHistoryFails(limit: nat)
    requires limit < 32
    ensures !ServesMonthlyReports(limit)
  {
    hide Iso, JanuarySaves, RunSaves, HistoryOf;
    var saves, report := JanuarySaves(32), Date(2026, 2, 1);
    var first := Iso(JanuaryDate(0));
    JanuaryHistory(32);
    JanuaryUpTo(32);
    assert JanuaryDate(0) == Date(2026, 1, 1);
    assert PreviousMonthStart(report) == Some(JanuaryDate(0));
    var kept := DateSet(RunSaves(saves, limit));
    var all := HistoryOf(saves).Keys;
    assert IsFirst(Newer, kept, all, limit) by { StoreRefinesHistory(saves, limit); }
    assert |all| == 32;
    assert !(all <= kept) by { if all <= kept { SubsetSize(all, kept); } }
    var t :| t in all && t !in kept;
    if first in kept {
      assert Newer(first, t);
      FirstIsOldest(t);
      assert false;
    }
    assert ServesMonthlyReports(limit) ==> first in kept;
  }

  lemma FirstIsOldest(t: string)
    requires t in HistoryOf(JanuarySaves(32))
    ensures !StrLt(t, Iso(JanuaryDate(0)))
  {
    hide Iso, JanuarySaves, HistoryOf;
    HistoryDate(JanuarySaves(32), t);
    JanuaryLength(32);
    var i :| 0 <= i < 32 && Iso(JanuarySaves(32)[i].date) == t;
    JanuaryAt(32, i);
    IsoOrderIsDateOrder(JanuaryDate(i), JanuaryDate(0));
  }

  /** 32 days are exactly enough. */
  lemma ThirtyTwoDaysAreExactlyEnough(limit: nat)
    ensures ServesMonthlyReports(limit) <==> limit >= 32
  {
    if limit < 32 {
      ShorterHistoryFails(limit);
    } else {
      forall saves: seq<Save>, report: Date |
        ValidDate(report) && UpTo(saves, report) && PreviousMonthStart(report).Some?
        && Iso(PreviousMonthStart(report).value) in HistoryOf(saves)
        ensures Iso(PreviousMonthStart(report).value) in DateSet(RunSaves(saves, limit))
      {
        PredIsPrevious(report);
        PreviousMonthIsRetained(saves, limit, report, PreviousMonthStart(report).value);
      }
    }
  }

  // ------------------------------------------------- monthly versus daily

  /** The first detail with this node id, as a report looks it up. */
  function Find(nodes: seq<NodeDetail>, nodeId: string): Option<NodeDetail> {
    if nodes == [] then None
    else if nodes[0].nodeId == nodeId then Some(nodes[0])
    else Find(nodes[1..], nodeId)
  }

  function FindSummary(details: seq<SummaryDetail>, nodeId: string): Option<SummaryDetail> {
    if details == [] then None
    else if details[0].nodeId == nodeId then Some(details[0])
    else FindSummary(details[1..], nodeId)
  }

  lemma {:induction false} StoredDetailIsFound(date: Date, nodes: seq<NodeDetail>, nodeId: string)
    requires nodeId != "" && Find(nodes, nodeId).Some?
    ensures FindById(FromNodeDetails(date, nodes).details, nodeId).Some?
    ensures FindById(FromNodeDetails(date, nodes).details, nodeId).value.blockQty == Find(nodes, nodeId).value.blockQty
  {
    if nodes[0].nodeId != nodeId {
      StoredDetailIsFound(date, nodes[1..], nodeId);
      assert FromNodeDetails(date, nodes).details[1..] == FromNodeDetails(date, nodes[1..]).details;
    }
  }

  lemma {:induction false} SummaryIsFound(snaps: seq<Snapshot>, date: Date, nodes: seq<NodeDetail>, nodeId: string)
    requires Find(nodes, nodeId).Some?
    ensures FindSummary(Summary(snaps, date, nodes), nodeId) ==
            Some(SummaryOf(Find(nodes, nodeId).value, SnapshotOn(snaps, Pred(date)),
                SnapshotOn(snaps, PreviousMonthStart(date)), date.day == 1))
  {
    if nodes[0].nodeId != nodeId {
      SummaryIsFound(snaps, date, nodes[1..], nodeId);
      assert Summary(snaps, date, nodes)[1..] == Summary(snaps, date, nodes[1..]);
    }
  }

  lemma {:induction false} FoundHasId(nodes: seq<NodeDetail>, nodeId: string)
    requires Find(nodes, nodeId).Some?
    ensures Find(nodes, nodeId).value.nodeId == nodeId
  {
    if nodes[0].nodeId != nodeId {
      FoundHasId(nodes[1..], nodeId);
    }
  }

  lemma {:induction false} SnapshotForFinds(snaps: seq<Snapshot>, text: string)
    ensures SnapshotFor(snaps, text).Some? <==> text in DateSet(snaps)
    ensures SnapshotFor(snaps, text).Some? ==>
              SnapshotFor(snaps, text).value in snaps && SnapshotFor(snaps, text).value.date == text
  {
    InDateSet(snaps, text);
    if snaps != [] {
      SnapshotForFinds(snaps[1..], text);
      InDateSet(snaps[1..], text);
      assert forall s :: s in snaps <==> s == snaps[0] || s in snaps[1..];
    }
  }

  // ------------------------------------------------ which record is compared

  ghost predicate HasId(details: seq<StoredDetail>, id: string) {
    exists d :: d in details && d.nodeId == id
  }

  /** The record a node is compared with: the first with its id; for a node without an id, or with one that was not
      stored, the first with its name. An empty id or name matches nothing. */
  ghost predicate IsMatch(details: seq<StoredDetail>, node: NodeDetail, k: nat) {
    && k < |details|
    && if node.nodeId != "" && HasId(details, node.nodeId)
       then details[k].nodeId == node.nodeId && forall j | 0 <= j < k :: details[j].nodeId != node.nodeId
       else node.nodeName != "" && details[k].nodeName == node.nodeName
            && forall j | 0 <= j < k :: details[j].nodeName != node.nodeName
  }

  lemma {:induction false} FirstWithId(details: seq<StoredDetail>, id: string)
    requires id != ""
    ensures FindById(details, id).None? <==> !HasId(details, id)
    ensures forall k | 0 <= k < |details| && details[k].nodeId == id
                       && (forall j | 0 <= j < k :: details[j].nodeId != id) ::
              FindById(details, id) == Some(details[k])
  {
    if details != [] {
      FirstWithId(details[1..], id);
      assert forall d :: d in details <==> d == details[0] || d in details[1..];
      forall k | 0 < k < |details| && details[k].nodeId == id && forall j | 0 <= j < k :: details[j].nodeId != id
        ensures FindById(details, id) == Some(details[k])
      {
        assert details[1..][k - 1] == details[k];
        assert forall j | 0 <= j < k - 1 :: details[1..][j] == details[j + 1];
      }
    }
  }

  lemma {:induction false} FirstWithName(details: seq<StoredDetail>, name: string)
    requires name != ""
    ensures FindByName(details, name).Some? ==>
              exists k :: 0 <= k < |details| && details[k].nodeName == name
                          && forall j | 0 <= j < k :: details[j].nodeName != name
    ensures forall k | 0 <= k < |details| && details[k].nodeName == name
                       && (forall j | 0 <= j < k :: details[j].nodeName != name) ::
              FindByName(details, name) == Some(details[k])
  {
    if details != [] {
      var rest := details[1..];
      FirstWithName(rest, name);
      forall k | 0 < k < |details| && details[k].nodeName == name
                 && forall j | 0 <= j < k :: details[j].nodeName != name
        ensures FindByName(details, name) == Some(details[k])
      {
        assert rest[k - 1] == details[k];
        assert forall j | 0 <= j < k - 1 :: rest[j] == details[j + 1];
      }
      if details[0].nodeName != name && FindByName(rest, name).Some? {
        var k :| 0 <= k < |rest| && rest[k].nodeName == name && forall j | 0 <= j < k :: rest[j].nodeName != name;
        forall j | 0 <= j < k + 1 ensures details[j].nodeName != name {
          assert j > 0 ==> details[j] == rest[j - 1];
        }
        assert details[k + 1].nodeName == name;
      }
    }
  }

  lemma {:induction false} FirstIdExists(details: seq<StoredDetail>, id: string) returns (k: nat)
    requires HasId(details, id)
    ensures k < |details| && details[k].nodeId == id && forall j | 0 <= j < k :: details[j].nodeId != id
  {
    if details[0].nodeId == id {
      k := 0;
    } else {
      var d :| d in details && d.nodeId == id;
      assert d in details[1..];
      var rest := FirstIdExists(details[1..], id);
      k := rest + 1;
      forall j | 0 <= j < k ensures details[j].nodeId != id {
        assert j > 0 ==> details[j] == details[1..][j - 1];
      }
    }
  }

  /** The lookup gives the matching record, and nothing only if there is none. */
  lemma LookupGivesTheMatch(s: Snapshot, node: NodeDetail)
    ensures forall k: nat | IsMatch(s.details, node, k) :: FindSnapshotDetail(Some(s), node) == Some(s.details[k])
    ensures FindSnapshotDetail(Some(s), node).Some? <==> exists k: nat :: IsMatch(s.details, node, k)
  {
    hide FindById, FindByName;
    if node.nodeId != "" {
      FirstWithId(s.details, node.nodeId);
      if HasId(s.details, node.nodeId) {
        var k := FirstIdExists(s.details, node.nodeId);
        assert IsMatch(s.details, node, k);
      }
    }
    if node.nodeName != "" {
      FirstWithName(s.details, node.nodeName);
      if (node.nodeId == "" || !HasId(s.details, node.nodeId)) && FindByName(s.details, node.nodeName).Some? {
        var k: nat :| k < |s.details| && s.details[k].nodeName == node.nodeName
                      && forall j | 0 <= j < k :: s.details[j].nodeName != node.nodeName;
        assert IsMatch(s.details, node, k);
      }
    }
  }

  lemma StoredIsFound(snaps: seq<Snapshot>, s: Snapshot)
    requires Ascending(DateTextLt, snaps) && s in snaps
    ensures SnapshotFor(snaps, s.date) == Some(s)
  {
    SnapshotForFinds(snaps, s.date);
    InDateSet(snaps, s.date);
    var found := SnapshotFor(snaps, s.date).value;
    var i :| 0 <= i < |snaps| && snaps[i] == s;
    var j :| 0 <= j < |snaps| && snaps[j] == found;
    assert !StrLt(s.date, s.date) by { StrIsStrictTotal(); }
    assert i < j ==> DateTextLt(snaps[i], snaps[j]);
    assert j < i ==> DateTextLt(snaps[j], snaps[i]);
  }

  /** The rise from the matching record of a stored snapshot, 0 if the count did not rise; nothing without a match. */
  ghost predicate TellsRise(rise: Option<nat>, s: Snapshot, node: NodeDetail) {
    && (forall k: nat | IsMatch(s.details, node, k) ::
          var before := s.details[k].blockQty;
          rise == Some(if node.blockQty > before then node.blockQty - before else 0))
    && ((forall k: nat :: !IsMatch(s.details, node, k)) ==> rise == None)
  }

  lemma GainTellsRise(s: Snapshot, node: NodeDetail)
    ensures TellsRise(Gain(node, FindSnapshotDetail(Some(s), node)), s, node)
  {
    hide IsMatch, FindSnapshotDetail;
    LookupGivesTheMatch(s, node);
  }

  /** A report's entry carries the node's own figures, compares with the day before, and on the 1st, and only then,
      with the 1st of the month before as well. */
  lemma EntryTells(snaps: seq<Snapshot>, date: Date, nodes: seq<NodeDetail>, i: nat, s: Snapshot)
    requires Ascending(DateTextLt, snaps) && s in snaps && i < |nodes|
    ensures var e := Summary(snaps, date, nodes)[i];
            && e.nodeId == nodes[i].nodeId && e.nodeName == nodes[i].nodeName
            && e.ranking == nodes[i].ranking && e.blockQty == nodes[i].blockQty
            && (e.showMonthlyTotals <==> date.day == 1)
            && (date.day != 1 ==> e.monthlyBlockQty == None)
            && (Pred(date).Some? ==>
                  var yesterday := Pred(date).value;
                  && (s.date == Iso(yesterday) ==> TellsRise(e.dailyBlockQty, s, nodes[i]))
                  && (date.day == 1 && s.date == Iso(Date(yesterday.year, yesterday.month, 1)) ==>
                        TellsRise(e.monthlyBlockQty, s, nodes[i])))
  {
    hide Iso, TellsRise, Pred, FindById, FindByName, SnapshotFor;
    StoredIsFound(snaps, s);
    GainTellsRise(s, nodes[i]);
  }

  /** A snapshot that is not stored leaves its quantity untold. */
  lemma NothingStoredNothingTold(snaps: seq<Snapshot>, date: Date, nodes: seq<NodeDetail>, i: nat)
    requires i < |nodes| && Pred(date).Some?
    ensures var e, yesterday := Summary(snaps, date, nodes)[i], Pred(date).value;
            && (Iso(yesterday) !in DateSet(snaps) ==> e.dailyBlockQty == None)
            && (Iso(Date(yesterday.year, yesterday.month, 1)) !in DateSet(snaps) ==> e.monthlyBlockQty == None)
  {
    hide Iso, Pred, SnapshotFor, DateSet;
    var yesterday := Pred(date).value;
    SnapshotForFinds(snaps, Iso(yesterday));
    SnapshotForFinds(snaps, Iso(Date(yesterday.year, yesterday.month, 1)));
  }

  /** The stored snapshot of a retained date is the last one saved for it. */
  lemma LookupGivesHistory(saves: seq<Save>, limit: nat, text: string)
    requires text in DateSet(RunSaves(saves, limit))
    ensures text in HistoryOf(saves)
    ensures SnapshotFor(RunSaves(saves, limit), text) == Some(Snapshot(text, HistoryOf(saves)[text]))
  {
    SnapshotForFinds(RunSaves(saves, limit), text);
    StoreRefinesHistory(saves, limit);
  }

  /** The report dates of one month: its first day, each later day, then the next month's first. */
  function ReportDate(year: nat, month: nat, k: nat): Date {
    if k < DaysInMonth(year, month) then Date(year, month, k + 1)
    else if month < 12 then Date(year, month + 1, 1)
    else Date(year + 1, 1, 1)
  }

  /** The saves made before the k-th report of the month. */
  function SavesBefore(earlier: seq<Save>, year: nat, month: nat, nodes: nat -> seq<NodeDetail>, k: nat): seq<Save> {
    if k == 0 then earlier
    else SavesBefore(earlier, year, month, nodes, k - 1) + [Save(ReportDate(year, month, k - 1), nodes(k - 1))]
  }

  /** The k-th report, computed before its own save. */
  function Report(earlier: seq<Save>, year: nat, month: nat, nodes: nat -> seq<NodeDetail>,
                  k: nat): seq<SummaryDetail> {
    Summary(RunSaves(SavesBefore(earlier, year, month, nodes, k), HISTORY_LIMIT), ReportDate(year, month, k), nodes(k))
  }

  ghost predicate Month(earlier: seq<Save>, year: nat, month: nat, nodes: nat -> seq<NodeDetail>, nodeId: string) {
    && 1 <= month <= 12 && (year < 9999 || (year == 9999 && month < 12))
    && (forall i | 0 <= i < |earlier| :: ValidDate(earlier[i].date) && DateLt(earlier[i].date, Date(year, month, 1)))
    && nodeId != ""
    && (forall k: nat | k <= DaysInMonth(year, month) :: Find(nodes(k), nodeId).Some?)
  }

  function Blocks(nodes: nat -> seq<NodeDetail>, nodeId: string, k: nat): nat {
    match Find(nodes(k), nodeId)
    case Some(d) => d.blockQty
    case None => 0
  }

  lemma ReportDates(year: nat, month: nat, j: nat, k: nat)
    requires 1 <= month <= 12 && (year < 9999 || (year == 9999 && month < 12))
    requires j < k <= DaysInMonth(year, month)
    ensures ValidDate(ReportDate(year, month, j)) && ValidDate(ReportDate(year, month, k))
    ensures DateLt(ReportDate(year, month, j), ReportDate(year, month, k))
    ensures Pred(ReportDate(year, month, k)) == Some(ReportDate(year, month, k - 1))
    ensures k == DaysInMonth(year, month) ==>
              PreviousMonthStart(ReportDate(year, month, k)) == Some(ReportDate(year, month, 0))
  {
  }

  lemma {:induction false} SavesAreEarlier(earlier: seq<Save>, year: nat, month: nat, nodes: nat -> seq<NodeDetail>,
                                           nodeId: string, n: nat, k: nat)
    requires Month(earlier, year, month, nodes, nodeId) && n <= k <= DaysInMonth(year, month)
    ensures UpTo(SavesBefore(earlier, year, month, nodes, n), ReportDate(year, month, k))
  {
    if n == 0 {
      if k > 0 { ReportDates(year, month, 0, k); }
    } else {
      SavesAreEarlier(earlier, year, month, nodes, nodeId, n - 1, k);
      ReportDates(year, month, n - 1, k);
    }
  }

  lemma ReportTextsDiffer(year: nat, month: nat, j: nat, k: nat)
    requires 1 <= month <= 12 && (year < 9999 || (year == 9999 && month < 12))
    requires j < k <= DaysInMonth(year, month)
    ensures Iso(ReportDate(year, month, j)) != Iso(ReportDate(year, month, k))
  {
    ReportDates(year, month, j, k);
    IsoOrderIsDateOrder(ReportDate(year, month, j), ReportDate(year, month, k));
  }

  /** What the j-th report saved is what the history says about its date from then on. */
  lemma {:induction false} HistoryKeepsReport(earlier: seq<Save>, year: nat, month: nat, nodes: nat -> seq<NodeDetail>,
                                              j: nat, k: nat)
    requires 1 <= month <= 12 && (year < 9999 || (year == 9999 && month < 12))
    requires j < k <= DaysInMonth(year, month) && forall i: nat | i < k :: nodes(i) != []
    ensures var text, h := Iso(ReportDate(year, month, j)), HistoryOf(SavesBefore(earlier, year, month, nodes, k));
            text in h && h[text] == FromNodeDetails(ReportDate(year, month, j), nodes(j)).details
  {
    hide Iso, FromNodeDetails, HistoryOf, ReportDate;
    HistoryStep(SavesBefore(earlier, year, month, nodes, k - 1), Save(ReportDate(year, month, k - 1), nodes(k - 1)));
    if j < k - 1 {
      HistoryKeepsReport(earlier, year, month, nodes, j, k - 1);
      ReportTextsDiffer(year, month, j, k - 1);
    }
  }

  lemma MonthHasNodes(earlier: seq<Save>, year: nat, month: nat, nodes: nat -> seq<NodeDetail>,
                      nodeId: string)
    requires Month(earlier, year, month, nodes, nodeId)
    ensures forall k: nat | k <= DaysInMonth(year, month) :: nodes(k) != []
  {
    forall k: nat | k <= DaysInMonth(year, month) ensures nodes(k) != [] {
      assert Find(nodes(k), nodeId).Some?;
    }
  }

  /** The snapshot that a later report of the month looks back to is still there, as it was saved. */
  lemma LookBackFinds(earlier: seq<Save>, year: nat, month: nat, nodes: nat -> seq<NodeDetail>,
                      nodeId: string, j: nat, k: nat)
    requires Month(earlier, year, month, nodes, nodeId) && j < k <= DaysInMonth(year, month)
    requires j == k - 1 || (j == 0 && k == DaysInMonth(year, month))
    ensures SnapshotFor(RunSaves(SavesBefore(earlier, year, month, nodes, k), HISTORY_LIMIT),
        Iso(ReportDate(year, month, j)))
         == Some(FromNodeDetails(ReportDate(year, month, j), nodes(j)))
  {
    hide Iso, HistoryOf, RunSaves, ReportDate, DateSet, Find;
    var saves := SavesBefore(earlier, year, month, nodes, k);
    var earlierDay, today := ReportDate(year, month, j), ReportDate(year, month, k);
    var text := Iso(earlierDay);
    MonthHasNodes(earlier, year, month, nodes, nodeId);
    HistoryKeepsReport(earlier, year, month, nodes, j, k);
    assert text in DateSet(RunSaves(saves, HISTORY_LIMIT)) by {
      ReportDates(year, month, j, k);
      SavesAreEarlier(earlier, year, month, nodes, nodeId, k, k);
      if j == k - 1 {
        PreviousDayIsRetained(saves, HISTORY_LIMIT, today);
      } else {
        PreviousMonthIsRetained(saves, HISTORY_LIMIT, today, earlierDay);
      }
    }
    LookupGivesHistory(saves, HISTORY_LIMIT, text);
  }

  /** A report that looks back to an earlier report of the month finds the node's count of that day. */
  lemma LookBack(earlier: seq<Save>, year: nat, month: nat, nodes: nat -> seq<NodeDetail>,
                 nodeId: string, j: nat, k: nat)
    requires Month(earlier, year, month, nodes, nodeId) && j < k <= DaysInMonth(year, month)
    ensures Find(nodes(k), nodeId).Some?
    ensures var snap := Some(FromNodeDetails(ReportDate(year, month, j), nodes(j)));
            Gain(Find(nodes(k), nodeId).value, FindSnapshotDetail(snap, Find(nodes(k), nodeId).value))
            == Some(SaturatingSub(Blocks(nodes, nodeId, k), Blocks(nodes, nodeId, j)))
  {
    assert Find(nodes(j), nodeId).Some? && Find(nodes(k), nodeId).Some?;
    StoredDetailIsFound(ReportDate(year, month, j), nodes(j), nodeId);
    FoundHasId(nodes(k), nodeId);
  }

  function Daily(earlier: seq<Save>, year: nat, month: nat, nodes: nat -> seq<NodeDetail>, nodeId: string,
                 k: nat): Option<nat> {
    match FindSummary(Report(earlier, year, month, nodes, k), nodeId)
    case Some(d) => d.dailyBlockQty
    case None => None
  }

  function Monthly(earlier: seq<Save>, year: nat, month: nat, nodes: nat -> seq<NodeDetail>,
                   nodeId: string): Option<nat> {
    match FindSummary(Report(earlier, year, month, nodes, DaysInMonth(year, month)), nodeId)
    case Some(d) => d.monthlyBlockQty
    case None => None
  }

  /** The daily quantities of the first k reports after the one on the 1st. */
  function DailySum(earlier: seq<Save>, year: nat, month: nat, nodes: nat -> seq<NodeDetail>, nodeId: string,
                    k: nat): nat {
    if k == 0 then 0
    else
      var daily := Daily(earlier, year, month, nodes, nodeId, k);
      DailySum(earlier, year, month, nodes, nodeId, k - 1) + if daily.Some? then daily.value else 0
  }

  /** The k-th report's entry for the node, given what the two lookups return. */
  lemma ReportEntry(earlier: seq<Save>, year: nat, month: nat, nodes: nat -> seq<NodeDetail>,
                    nodeId: string, k: nat)
    requires Month(earlier, year, month, nodes, nodeId) && 1 <= k <= DaysInMonth(year, month)
    ensures Find(nodes(k), nodeId).Some?
    ensures var snaps, today := RunSaves(SavesBefore(earlier, year, month, nodes, k), HISTORY_LIMIT),
        ReportDate(year, month, k);
            FindSummary(Report(earlier, year, month, nodes, k), nodeId) ==
            Some(SummaryOf(Find(nodes(k), nodeId).value,
                           SnapshotFor(snaps, Iso(ReportDate(year, month, k - 1))),
                           SnapshotOn(snaps, PreviousMonthStart(today)), today.day == 1))
  {
    hide Iso, Find, Summary, RunSaves, ReportDate, SummaryOf, SnapshotFor, PreviousMonthStart, FindSummary;
    var snaps, today := RunSaves(SavesBefore(earlier, year, month, nodes, k), HISTORY_LIMIT),
        ReportDate(year, month, k);
    assert Pred(today) == Some(ReportDate(year, month, k - 1)) by { ReportDates(year, month, k - 1, k); }
    SummaryIsFound(snaps, today, nodes(k), nodeId);
  }

  lemma DailyIsGain(earlier: seq<Save>, year: nat, month: nat, nodes: nat -> seq<NodeDetail>,
                    nodeId: string, k: nat)
    requires Month(earlier, year, month, nodes, nodeId) && 1 <= k <= DaysInMonth(year, month)
    ensures Daily(earlier, year, month, nodes, nodeId, k)
        == Some(SaturatingSub(Blocks(nodes, nodeId, k), Blocks(nodes, nodeId, k - 1)))
  {
    hide Iso, Find, FindSnapshotDetail, RunSaves, SnapshotFor, Report, FindSummary;
    ReportEntry(earlier, year, month, nodes, nodeId, k);
    LookBackFinds(earlier, year, month, nodes, nodeId, k - 1, k);
    LookBack(earlier, year, month, nodes, nodeId, k - 1, k);
  }

  lemma MonthlyIsGain(earlier: seq<Save>, year: nat, month: nat, nodes: nat -> seq<NodeDetail>,
                      nodeId: string)
    requires Month(earlier, year, month, nodes, nodeId)
    ensures Monthly(earlier, year, month, nodes, nodeId)
         == Some(SaturatingSub(Blocks(nodes, nodeId, DaysInMonth(year, month)), Blocks(nodes, nodeId, 0)))
  {
    hide Iso, Find, FindSnapshotDetail, RunSaves, SnapshotFor, Report, FindSummary;
    var k := DaysInMonth(year, month);
    ReportEntry(earlier, year, month, nodes, nodeId, k);
    LookBackFinds(earlier, year, month, nodes, nodeId, 0, k);
    LookBack(earlier, year, month, nodes, nodeId, 0, k);
    assert PreviousMonthStart(ReportDate(year, month, k)) == Some(ReportDate(year, month, 0)) by {
      ReportDates(year, month, 0, k);
    }
  }

  /** How much the count rose on the days it rose. */
  function Rises(nodes: nat -> seq<NodeDetail>, nodeId: string, k: nat): nat {
    if k == 0 then 0
    else Rises(nodes, nodeId, k - 1) + SaturatingSub(Blocks(nodes, nodeId, k), Blocks(nodes, nodeId, k - 1))
  }

  /** How much it fell on the days it fell. */
  function Falls(nodes: nat -> seq<NodeDetail>, nodeId: string, k: nat): nat {
    if k == 0 then 0
    else Falls(nodes, nodeId, k - 1) + SaturatingSub(Blocks(nodes, nodeId, k - 1), Blocks(nodes, nodeId, k))
  }

  ghost predicate NeverFalls(nodes: nat -> seq<NodeDetail>, nodeId: string, n: nat) {
    forall k | 1 <= k <= n :: Blocks(nodes, nodeId, k - 1) <= Blocks(nodes, nodeId, k)
  }

  ghost predicate NeverRises(nodes: nat -> seq<NodeDetail>, nodeId: string, n: nat) {
    forall k | 1 <= k <= n :: Blocks(nodes, nodeId, k) <= Blocks(nodes, nodeId, k - 1)
  }

  lemma {:induction false} NetChange(nodes: nat -> seq<NodeDetail>, nodeId: string, k: nat)
    ensures Blocks(nodes, nodeId, k) - Blocks(nodes, nodeId, 0) == Rises(nodes, nodeId, k) - Falls(nodes, nodeId, k)
    ensures Falls(nodes, nodeId, k) == 0 <==> NeverFalls(nodes, nodeId, k)
    ensures Rises(nodes, nodeId, k) == 0 <==> NeverRises(nodes, nodeId, k)
  {
    hide Blocks;
    if k > 0 {
      NetChange(nodes, nodeId, k - 1);
    }
  }

  lemma {:induction false} DailySumIsRises(earlier: seq<Save>, year: nat, month: nat, nodes: nat -> seq<NodeDetail>,
                                           nodeId: string, k: nat)
    requires Month(earlier, year, month, nodes, nodeId) && k <= DaysInMonth(year, month)
    ensures DailySum(earlier, year, month, nodes, nodeId, k) == Rises(nodes, nodeId, k)
  {
    hide Blocks, Daily, Month;
    if k > 0 {
      DailySumIsRises(earlier, year, month, nodes, nodeId, k - 1);
      DailyIsGain(earlier, year, month, nodes, nodeId, k);
    }
  }

  /** The monthly quantity on the 1st never exceeds the sum of the dailies from the 2nd of the previous month to
      that 1st, and equals it if and only if the counts of the month never fall or never rise. */
  lemma MonthlyIsSumOfDailies(earlier: seq<Save>, year: nat, month: nat,
                              nodes: nat -> seq<NodeDetail>, nodeId: string)
    requires Month(earlier, year, month, nodes, nodeId)
    ensures forall k | 1 <= k <= DaysInMonth(year, month) :: Daily(earlier, year, month, nodes, nodeId, k).Some?
    ensures var days := DaysInMonth(year, month);
            var monthly := Monthly(earlier, year, month, nodes, nodeId);
            var sum := DailySum(earlier, year, month, nodes, nodeId, days);
            && monthly.Some? && monthly.value <= sum
            && (monthly.value == sum <==> NeverFalls(nodes, nodeId, days) || NeverRises(nodes, nodeId, days))
  {
    hide Daily, Monthly, DailySum, Blocks, Rises, Falls, NeverFalls, NeverRises, Month;
    var days := DaysInMonth(year, month);
    MonthlyIsGain(earlier, year, month, nodes, nodeId);
    DailySumIsRises(earlier, year, month, nodes, nodeId, days);
    NetChange(nodes, nodeId, days);
    forall d | 1 <= d <= days ensures Daily(earlier, year, month, nodes, nodeId, d).Some? {
      DailyIsGain(earlier, year, month, nodes, nodeId, d);
    }
  }
}
