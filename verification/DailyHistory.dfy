/** The bounded store of daily node snapshots and the reports computed from it
    (src/collect/daily_snapshot.rs). */
module DailyHistory {
  import opened Ordering
  import opened Wrappers
  import opened Calendar

  const HISTORY_LIMIT := 32

  datatype NodeDetail = NodeDetail(nodeId: string, nodeName: string, ranking: int, blockQty: nat)

  datatype StoredDetail = StoredDetail(nodeId: string, nodeName: string, blockQty: nat)

  datatype Snapshot = Snapshot(date: string, details: seq<StoredDetail>)

  datatype SummaryDetail = SummaryDetail(
    nodeId: string,
    nodeName: string,
    ranking: int,
    blockQty: nat,
    dailyBlockQty: Option<nat>,
    showMonthlyTotals: bool,
    monthlyBlockQty: Option<nat>)

  // ------------------------------------------------------- specification

  predicate DateTextLt(a: Snapshot, b: Snapshot) {
    StrLt(a.date, b.date)
  }

  function FromNodeDetails(date: Date, nodes: seq<NodeDetail>): Snapshot {
    Snapshot(Iso(date), seq(|nodes|, i requires 0 <= i < |nodes| =>
      StoredDetail(nodes[i].nodeId, nodes[i].nodeName, nodes[i].blockQty)))
  }

  function Without(snaps: seq<Snapshot>, date: string): seq<Snapshot> {
    if snaps == [] then []
    else
      var n := |snaps| - 1;
      Without(snaps[..n], date) + if snaps[n].date != date then [snaps[n]] else []
  }

  function Upserted(snaps: seq<Snapshot>, s: Snapshot): seq<Snapshot> {
    StableSort(DateTextLt, Without(snaps, s.date) + [s])
  }

  function Newest(snaps: seq<Snapshot>, limit: nat): seq<Snapshot> {
    snaps[|snaps| - Min(|snaps|, limit)..]
  }

  function Saved(snaps: seq<Snapshot>, date: Date, nodes: seq<NodeDetail>, limit: nat): seq<Snapshot> {
    if nodes == [] then snaps else Newest(Upserted(snaps, FromNodeDetails(date, nodes)), limit)
  }

  function SnapshotFor(snaps: seq<Snapshot>, date: string): Option<Snapshot> {
    if snaps == [] then None
    else if snaps[0].date == date then Some(snaps[0])
    else SnapshotFor(snaps[1..], date)
  }

  function PreviousMonthStart(date: Date): Option<Date> {
    if date.day != 1 then None
    else match Pred(date)
      case Some(previous) => Some(Date(previous.year, previous.month, 1))
      case None => None
  }

  function FindById(details: seq<StoredDetail>, nodeId: string): Option<StoredDetail> {
    if details == [] then None
    else if details[0].nodeId != "" && details[0].nodeId == nodeId then Some(details[0])
    else FindById(details[1..], nodeId)
  }

  function FindByName(details: seq<StoredDetail>, nodeName: string): Option<StoredDetail> {
    if details == [] then None
    else if details[0].nodeName != "" && details[0].nodeName == nodeName then Some(details[0])
    else FindByName(details[1..], nodeName)
  }

  function FindSnapshotDetail(snapshot: Option<Snapshot>, detail: NodeDetail): Option<StoredDetail> {
    match snapshot
    case None => None
    case Some(s) =>
      var byId := if detail.nodeId != "" then FindById(s.details, detail.nodeId) else None;
      if byId.Some? then byId
      else if detail.nodeName != "" then FindByName(s.details, detail.nodeName)
      else None
  }

  function SaturatingSub(a: nat, b: nat): nat {
    if a > b then a - b else 0
  }

  function Gain(detail: NodeDetail, earlier: Option<StoredDetail>): Option<nat> {
    match earlier
    case Some(e) => Some(SaturatingSub(detail.blockQty, e.blockQty))
    case None => None
  }

  function SummaryOf(detail: NodeDetail, previous: Option<Snapshot>, monthly: Option<Snapshot>,
                     show: bool): SummaryDetail {
    SummaryDetail(detail.nodeId, detail.nodeName, detail.ranking, detail.blockQty,
      Gain(detail, FindSnapshotDetail(previous, detail)), show, Gain(detail, FindSnapshotDetail(monthly, detail)))
  }

  function SnapshotOn(snaps: seq<Snapshot>, date: Option<Date>): Option<Snapshot> {
    match date
    case Some(d) => SnapshotFor(snaps, Iso(d))
    case None => None
  }

  function Summary(snaps: seq<Snapshot>, date: Date, nodes: seq<NodeDetail>): seq<SummaryDetail> {
    seq(|nodes|, i requires 0 <= i < |nodes| =>
      SummaryOf(nodes[i], SnapshotOn(snaps, Pred(date)), SnapshotOn(snaps, PreviousMonthStart(date)), date.day == 1))
  }

  // -------------------------------------------------------- the store

  class DailyNodeSnapshotStore {
    var snapshots: seq<Snapshot>

    constructor ()
      ensures snapshots == []
    {
      snapshots := [];
    }

    method FindSnapshot(date: Date) returns (found: Option<Snapshot>)
      ensures found == SnapshotFor(snapshots, Iso(date))
    {
      for i := 0 to |snapshots|
        invariant SnapshotFor(snapshots, Iso(date)) == SnapshotFor(snapshots[i..], Iso(date))
      {
        if snapshots[i].date == Iso(date) {
          return Some(snapshots[i]);
        }
      }
      found := None;
    }

    method Upsert(snapshot: Snapshot)
      modifies this
      ensures snapshots == Upserted(old(snapshots), snapshot)
    {
      var kept: seq<Snapshot> := [];
      for i := 0 to |snapshots|
        invariant snapshots == old(snapshots)
        invariant kept == Without(snapshots[..i], snapshot.date)
      {
        assert snapshots[..i + 1][..i] == snapshots[..i];
        if snapshots[i].date != snapshot.date {
          kept := kept + [snapshots[i]];
        }
      }
      assert snapshots[..|snapshots|] == snapshots;
      snapshots := kept;
      snapshots := snapshots + [snapshot];
      snapshots := StableSort(DateTextLt, snapshots);
    }

    method Prune()
      modifies this
      ensures snapshots == Newest(old(snapshots), HISTORY_LIMIT)
    {
      if |snapshots| <= HISTORY_LIMIT {
        return;
      }
      var excess := |snapshots| - HISTORY_LIMIT;
      snapshots := snapshots[excess..];
    }

    method SaveSnapshot(date: Date, nodes: seq<NodeDetail>)
      modifies this
      ensures snapshots == Saved(old(snapshots), date, nodes, HISTORY_LIMIT)
    {
      if |nodes| == 0 {
        return;
      }
      Upsert(FromNodeDetails(date, nodes));
      Prune();
    }

    method DailySummaryDetails(date: Date, nodes: seq<NodeDetail>) returns (details: seq<SummaryDetail>)
      ensures details == Summary(snapshots, date, nodes)
    {
      var previous: Option<Snapshot> := None;
      if Pred(date).Some? {
        previous := FindSnapshot(Pred(date).value);
      }
      var monthly: Option<Snapshot> := None;
      if PreviousMonthStart(date).Some? {
        monthly := FindSnapshot(PreviousMonthStart(date).value);
      }
      details := seq(|nodes|, i requires 0 <= i < |nodes| => SummaryOf(nodes[i], previous, monthly, date.day == 1));
    }

    /** The nightly report: the summary is computed before today's snapshot is saved. */
    method SendDailySummary(date: Date, nodes: seq<NodeDetail>) returns (details: seq<SummaryDetail>)
      modifies this
      ensures details == Summary(old(snapshots), date, nodes)
      ensures snapshots == Saved(old(snapshots), date, nodes, HISTORY_LIMIT)
    {
      details := DailySummaryDetails(date, nodes);
      SaveSnapshot(date, nodes);
    }
  }

  // -------------------------------- the store refines the full history

  datatype Save = Save(date: Date, nodes: seq<NodeDetail>)

  function RunSaves(saves: seq<Save>, limit: nat): seq<Snapshot> {
    if saves == [] then []
    else
      var n := |saves| - 1;
      Saved(RunSaves(saves[..n], limit), saves[n].date, saves[n].nodes, limit)
  }

  /** Everything ever saved, the last write of a date winning. */
  function HistoryOf(saves: seq<Save>): map<string, seq<StoredDetail>> {
    if saves == [] then map[]
    else
      var n := |saves| - 1;
      var h := HistoryOf(saves[..n]);
      if saves[n].nodes == [] then h
      else
        var s := FromNodeDetails(saves[n].date, saves[n].nodes);
        h[s.date := s.details]
  }

  predicate Newer(a: string, b: string) {
    StrLt(b, a)
  }

  function Dates(snaps: seq<Snapshot>): seq<string> {
    seq(|snaps|, i requires 0 <= i < |snaps| => snaps[i].date)
  }

  ghost function DateSet(snaps: seq<Snapshot>): set<string> {
    Elems(Dates(snaps))
  }

  ghost predicate ContentsOf(snaps: seq<Snapshot>, history: map<string, seq<StoredDetail>>) {
    forall s | s in snaps :: s.date in history && history[s.date] == s.details
  }

  /** Strictly date-sorted, the `limit` newest dates of the history, each with its newest content. */
  ghost predicate Refines(snaps: seq<Snapshot>, history: map<string, seq<StoredDetail>>, limit: nat) {
    && Ascending(DateTextLt, snaps)
    && IsFirst(Newer, DateSet(snaps), history.Keys, limit)
    && ContentsOf(snaps, history)
  }

  lemma NewerIsStrictTotal()
    ensures StrictTotal(Newer)
  {
    StrIsStrictTotal();
  }

  lemma DateTextIsStrictOrder()
    ensures StrictOrder(DateTextLt)
  {
    StrIsStrictTotal();
  }

  lemma InDateSet(snaps: seq<Snapshot>, date: string)
    ensures date in DateSet(snaps) <==> exists s :: s in snaps && s.date == date
  {
    if date in DateSet(snaps) {
      var i :| 0 <= i < |snaps| && Dates(snaps)[i] == date;
      assert snaps[i] in snaps;
    }
    if s :| s in snaps && s.date == date {
      var i :| 0 <= i < |snaps| && snaps[i] == s;
      assert Dates(snaps)[i] == date;
    }
  }

  lemma {:induction false} WithoutKeeps(snaps: seq<Snapshot>, date: string)
    requires Ascending(DateTextLt, snaps)
    ensures Ascending(DateTextLt, Without(snaps, date))
    ensures forall s :: s in Without(snaps, date) <==> s in snaps && s.date != date
  {
    if snaps != [] {
      var n := |snaps| - 1;
      WithoutKeeps(snaps[..n], date);
      var r := Without(snaps[..n], date);
      assert snaps == snaps[..n] + [snaps[n]];
      forall i | 0 <= i < |r| ensures DateTextLt(r[i], snaps[n]) {
        assert r[i] in snaps[..n];
        var k :| 0 <= k < n && snaps[..n][k] == r[i];
      }
      forall s ensures s in Without(snaps, date) <==> s in snaps && s.date != date {
        assert s in snaps <==> s in snaps[..n] || s == snaps[n];
      }
    }
  }

  lemma UpsertShape(snaps: seq<Snapshot>, s: Snapshot)
    requires Ascending(DateTextLt, snaps)
    ensures Ascending(DateTextLt, Upserted(snaps, s))
    ensures forall x :: x in Upserted(snaps, s) <==> x == s || (x in snaps && x.date != s.date)
  {
    WithoutKeeps(snaps, s.date);
    var xs := Without(snaps, s.date) + [s];
    forall i, j | 0 <= i < j < |xs| ensures DateTextLt(xs[i], xs[j]) || DateTextLt(xs[j], xs[i]) {
      if j == |xs| - 1 {
        assert xs[i] in Without(snaps, s.date);
        StrTrichotomy(xs[i].date, s.date);
      }
    }
    DateTextIsStrictOrder();
    ComparableSortAscends(DateTextLt, xs);
    assert forall x :: x in StableSort(DateTextLt, xs) <==> x in Elems(StableSort(DateTextLt, xs));
    assert forall x :: x in xs <==> x in Elems(xs);
  }

  lemma DatesAscend(snaps: seq<Snapshot>)
    requires Ascending(DateTextLt, snaps)
    ensures Ascending(StrLt, Dates(snaps))
  {
    forall i, j | 0 <= i < j < |snaps| ensures StrLt(Dates(snaps)[i], Dates(snaps)[j]) {
      assert DateTextLt(snaps[i], snaps[j]);
    }
  }

  lemma NewestAreFirst(snaps: seq<Snapshot>, limit: nat)
    requires Ascending(DateTextLt, snaps)
    ensures IsFirst(Newer, DateSet(Newest(snaps, limit)), DateSet(snaps), limit)
  {
    DatesAscend(snaps);
    var k := |snaps| - Min(|snaps|, limit);
    assert Dates(Newest(snaps, limit)) == Dates(snaps)[k..];
    SuffixIsFirst(StrLt, Newer, Dates(snaps), limit) by {
      StrIsStrictTotal();
    }
  }

  lemma UpsertDates(snaps: seq<Snapshot>, s: Snapshot)
    requires Ascending(DateTextLt, snaps)
    ensures DateSet(Upserted(snaps, s)) == DateSet(snaps) + {s.date}
  {
    var u := Upserted(snaps, s);
    UpsertShape(snaps, s);
    forall date ensures date in DateSet(u) <==> date in DateSet(snaps) + {s.date} {
      InDateSet(u, date);
      InDateSet(snaps, date);
      assert s in u;
    }
  }

  lemma SaveKeepsNewestDates(snaps: seq<Snapshot>, dates: set<string>, s: Snapshot, limit: nat)
    requires Ascending(DateTextLt, snaps) && IsFirst(Newer, DateSet(snaps), dates, limit)
    ensures IsFirst(Newer, DateSet(Newest(Upserted(snaps, s), limit)), dates + {s.date}, limit)
  {
    UpsertShape(snaps, s);
    NewestAreFirst(Upserted(snaps, s), limit);
    UpsertDates(snaps, s);
    FirstInsert(Newer, DateSet(snaps), DateSet(Newest(Upserted(snaps, s), limit)), dates, s.date, limit) by {
      NewerIsStrictTotal();
    }
  }

  lemma UpsertContents(snaps: seq<Snapshot>, history: map<string, seq<StoredDetail>>, s: Snapshot,
                       x: Snapshot)
    requires Ascending(DateTextLt, snaps) && ContentsOf(snaps, history) && x in Upserted(snaps, s)
    ensures x.date in history[s.date := s.details] && history[s.date := s.details][x.date] == x.details
  {
    assert x == s || (x in snaps && x.date != s.date) by {
      UpsertShape(snaps, s);
    }
  }

  lemma SaveContents(snaps: seq<Snapshot>, history: map<string, seq<StoredDetail>>, s: Snapshot,
                     limit: nat)
    requires Ascending(DateTextLt, snaps) && ContentsOf(snaps, history)
    ensures ContentsOf(Newest(Upserted(snaps, s), limit), history[s.date := s.details])
  {
    var u := Upserted(snaps, s);
    var k := |u| - Min(|u|, limit);
    forall x | x in u[k..]
      ensures x.date in history[s.date := s.details] && history[s.date := s.details][x.date] == x.details
    {
      var i :| 0 <= i < |u| - k && u[k..][i] == x;
      assert u[i + k] == x;
      UpsertContents(snaps, history, s, x);
    }
  }

  lemma NewestAscend(snaps: seq<Snapshot>, limit: nat)
    requires Ascending(DateTextLt, snaps)
    ensures Ascending(DateTextLt, Newest(snaps, limit))
  {
    var k := |snaps| - Min(|snaps|, limit);
    forall i, j | 0 <= i < j < |snaps| - k ensures DateTextLt(snaps[k..][i], snaps[k..][j]) {
      assert DateTextLt(snaps[i + k], snaps[j + k]);
    }
  }

  lemma SaveRefines(snaps: seq<Snapshot>, history: map<string, seq<StoredDetail>>, s: Snapshot,
                    limit: nat)
    requires Refines(snaps, history, limit)
    ensures Refines(Newest(Upserted(snaps, s), limit), history[s.date := s.details], limit)
  {
    SaveKeepsNewestDates(snaps, history.Keys, s, limit);
    assert history[s.date := s.details].Keys == history.Keys + {s.date};
    SaveContents(snaps, history, s, limit);
    UpsertShape(snaps, s);
    NewestAscend(Upserted(snaps, s), limit);
  }

  /** After any saves from an empty store: the newest dates of the full history, sorted, once each,
      with each date's newest content. */
  lemma {:induction false} StoreRefinesHistory(saves: seq<Save>, limit: nat)
    ensures Refines(RunSaves(saves, limit), HistoryOf(saves), limit)
  {
    if saves == [] {
      assert Dates(RunSaves(saves, limit)) == [];
      assert DateSet(RunSaves(saves, limit)) == {};
    } else {
      var n := |saves| - 1;
      StoreRefinesHistory(saves[..n], limit);
      if saves[n].nodes != [] {
        SaveRefines(RunSaves(saves[..n], limit), HistoryOf(saves[..n]), FromNodeDetails(saves[n].date, saves[n].nodes),
            limit);
      }
    }
  }

  /** The specification leaves no freedom: at most one store refines a history. */
  lemma RefinementIsUnique(a: seq<Snapshot>, b: seq<Snapshot>,
                           history: map<string, seq<StoredDetail>>, limit: nat)
    requires Refines(a, history, limit) && Refines(b, history, limit)
    ensures a == b
  {
    FirstNested(Newer, DateSet(a), DateSet(b), history.Keys, limit, limit) by { NewerIsStrictTotal(); }
    DatesAscend(a);
    DatesAscend(b);
    AscendingUnique(StrLt, Dates(a), Dates(b)) by { StrIsStrictTotal(); }
    assert |a| == |Dates(a)| == |b|;
    forall i | 0 <= i < |a| ensures a[i] == b[i] {
      assert Dates(a)[i] == Dates(b)[i];
      assert a[i] in a && b[i] in b;
    }
  }
}
