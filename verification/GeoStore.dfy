/** The two tables of the peer geography store and the three operations its
    worker runs on them (src/geo/store.rs). A statement becomes a map update with
    the same conflict clause; a transaction that fails changes nothing. */
module GeoStore {
  import opened Ordering
  import opened Wrappers
  import opened GeoSnapshot

  const LOCATION_CACHE_TTL_SECONDS := 86_400

  datatype LocationRow = LocationRow(country: string, loc: string, refreshedAt: int, lastError: string)

  /** One enrichment result; `error` marks a failure. */
  datatype LocationEntry = LocationEntry(ip: string, country: Option<string>, loc: Option<string>,
      error: Option<string>)

  datatype Tables = Tables(peers: map<string, int>, cache: map<string, LocationRow>)

  function GetOr(value: Option<string>, default: string): string {
    if value.Some? then value.value else default
  }

  // ------------------------------------------------------- specification

  function UpsertLocation(cache: map<string, LocationRow>, e: LocationEntry, now: int): map<string, LocationRow> {
    match e.error
    case Some(error) =>
      cache[e.ip := if e.ip in cache then cache[e.ip].(lastError := error) else LocationRow("", "", 0, error)]
    case None =>
      cache[e.ip := LocationRow(GetOr(e.country, ""), GetOr(e.loc, ""), now, "")]
  }

  function UpsertAll(cache: map<string, LocationRow>, entries: seq<LocationEntry>, now: int): map<string, LocationRow> {
    if entries == [] then cache
    else
      var n := |entries| - 1;
      UpsertLocation(UpsertAll(cache, entries[..n], now), entries[n], now)
  }

  function Replaced(t: Tables, ips: seq<string>, now: int): Tables {
    t.(peers := map ip | ip in Elems(ips) :: now)
  }

  function Updated(t: Tables, entries: seq<LocationEntry>, now: int): Tables {
    t.(cache := UpsertAll(t.cache, entries, now))
  }

  predicate NeedsEnrichment(t: Tables, now: int, ip: string) {
    ip !in t.cache || t.cache[ip].refreshedAt < now - LOCATION_CACHE_TTL_SECONDS
  }

  function Stale(t: Tables, now: int): set<string> {
    set ip | ip in t.peers && NeedsEnrichment(t, now, ip)
  }

  function CachedCountry(t: Tables, ip: string): string {
    if ip in t.cache then t.cache[ip].country else ""
  }

  ghost function PeerCountries(t: Tables): CountryMap {
    map ip | ip in t.peers :: NormalizeCountryCode(CachedCountry(t, ip))
  }

  /** The Geo View Snapshot of the committed tables. */
  ghost function View(t: Tables): GeoViewSnapshot {
    GroupView(PeerCountries(t))
  }

  /** The snapshot counts each peer under the country of its cache row, and a peer without a row as unknown. */
  lemma ViewTallies(t: Tables)
    ensures Tallies(View(t), map ip | ip in t.peers :: if ip in t.cache then t.cache[ip].country else "")
  {
    hide NormalizeCountryCode, Tallies, GroupView;
    GroupViewTallies(PeerCountries(t), map ip | ip in t.peers :: if ip in t.cache then t.cache[ip].country else "");
  }

  /** A text without two letters names no country. */
  lemma EmptyIsUnknown()
    ensures NormalizeCountryCode("") == None
  {
  }

  // ------------------------------------------------------- the worker's database

  method KeyRows(keys: set<string>) returns (r: seq<string>)
    ensures Elems(r) == keys
  {
    var todo := keys;
    r := [];
    while todo != {}
      invariant todo <= keys
      invariant Elems(r) == keys - todo
    {
      var ip :| ip in todo;
      AddElem(r, ip);
      r := r + [ip];
      todo := todo - {ip};
    }
  }

  /** `ORDER BY ip` over a primary key. */
  method OrderedKeys(keys: set<string>) returns (r: seq<string>)
    ensures r == Sorted(StrLt, keys)
  {
    var rows := KeyRows(keys);
    r := SortDedup(rows);
  }

  method WhereStale(t: Tables, now: int, keys: seq<string>) returns (r: seq<string>)
    ensures r == Filtered(t, now, keys)
  {
    r := [];
    for i := 0 to |keys|
      invariant r == Filtered(t, now, keys[..i])
    {
      assert keys[..i + 1][..i] == keys[..i];
      if NeedsEnrichment(t, now, keys[i]) {
        r := r + [keys[i]];
      }
    }
    assert keys[..|keys|] == keys;
  }

  method SelectStale(t: Tables, now: int) returns (r: seq<string>)
    ensures r == Sorted(StrLt, Stale(t, now))
  {
    var keys := OrderedKeys(t.peers.Keys);
    FilteredKeysAreStale(t, now);
    r := WhereStale(t, now, keys);
  }

  /** Filtering the ordered keys keeps the order. */
  lemma FilteredKeysAreStale(t: Tables, now: int)
    ensures Filtered(t, now, Sorted(StrLt, t.peers.Keys)) == Sorted(StrLt, Stale(t, now))
  {
    var keys := Sorted(StrLt, t.peers.Keys);
    var r := Filtered(t, now, keys);
    assert Ascending(StrLt, r) && Elems(r) == Stale(t, now) by {
      SortedStrings(t.peers.Keys);
      FilteredIsSorted(t, now, keys);
      forall ip ensures ip in Elems(r) <==> ip in Stale(t, now) {
        assert ip in keys <==> ip in Elems(keys);
      }
    }
    SortedIs(StrLt, r, Stale(t, now)) by {
      StrIsStrictTotal();
    }
  }

  function Filtered(t: Tables, now: int, keys: seq<string>): seq<string> {
    if keys == [] then []
    else
      var n := |keys| - 1;
      Filtered(t, now, keys[..n]) + if NeedsEnrichment(t, now, keys[n]) then [keys[n]] else []
  }

  lemma {:induction false} FilteredIsSorted(t: Tables, now: int, keys: seq<string>)
    requires Ascending(StrLt, keys)
    ensures Ascending(StrLt, Filtered(t, now, keys))
    ensures Elems(Filtered(t, now, keys)) == set ip | ip in keys && NeedsEnrichment(t, now, ip)
  {
    hide StrLt, NeedsEnrichment;
    if keys != [] {
      var n := |keys| - 1;
      FilteredIsSorted(t, now, keys[..n]);
      var r := Filtered(t, now, keys[..n]);
      assert keys == keys[..n] + [keys[n]];
      assert r + [] == r;
      AddElem(r, keys[n]);
      forall i | 0 <= i < |r| ensures StrLt(r[i], keys[n]) {
        assert r[i] in Elems(r);
        var k :| 0 <= k < n && keys[..n][k] == r[i];
      }
    }
  }

  /** One `INSERT` per IP into the emptied table. */
  method InsertPeers(ips: seq<string>, now: int) returns (tx: map<string, int>)
    ensures tx == map ip | ip in Elems(ips) :: now
  {
    tx := map[];
    for i := 0 to |ips|
      invariant tx == map ip | ip in ips[..i] :: now
    {
      assert ips[..i + 1] == ips[..i] + [ips[i]];
      tx := tx[ips[i] := now];
    }
    assert ips[..|ips|] == ips;
  }

  class PeerGeoDb {
    var currentPeers: map<string, int>
    var locationCache: map<string, LocationRow>

    function Contents(): Tables
      reads this
    {
      Tables(currentPeers, locationCache)
    }

    constructor ()
      ensures Contents() == Tables(map[], map[])
    {
      currentPeers, locationCache := map[], map[];
    }

    /** `commits` is the database's verdict on the transaction. */
    method ReplacePeerSnapshotTx(ips: seq<string>, now: int, commits: bool) returns (result: Result<seq<string>>)
      modifies this
      ensures if commits then Contents() == Replaced(old(Contents()), ips, now) else Contents() == old(Contents())
      ensures commits ==> result == Ok(Sorted(StrLt, Stale(Contents(), now)))
      ensures commits ==> currentPeers.Keys == Elems(ips) && forall ip | ip in currentPeers :: currentPeers[ip] == now
      ensures !commits ==> result.Err?
    {
      hide Stale, Sorted, StrLt;
      var uniqueIps := SortDedup(ips);
      var tx := InsertPeers(uniqueIps, now);
      var needsEnrichment := SelectStale(Tables(tx, locationCache), now);
      if !commits {
        return Err("replace failed");
      }
      currentPeers := tx;
      result := Ok(needsEnrichment);
    }

    method UpdateLocationCacheTx(entries: seq<LocationEntry>, now: int, commits: bool) returns (result: Result<()>)
      modifies this
      ensures if commits then Contents() == Updated(old(Contents()), entries, now) else Contents() == old(Contents())
      ensures result.Ok? <==> commits
    {
      var tx := locationCache;
      for i := 0 to |entries|
        invariant tx == UpsertAll(locationCache, entries[..i], now)
      {
        assert entries[..i + 1][..i] == entries[..i];
        var entry := entries[i];
        if entry.error.Some? {
          if entry.ip in tx {
            tx := tx[entry.ip := tx[entry.ip].(lastError := entry.error.value)];
          } else {
            tx := tx[entry.ip := LocationRow("", "", 0, entry.error.value)];
          }
        } else {
          tx := tx[entry.ip := LocationRow(GetOr(entry.country, ""), GetOr(entry.loc, ""), now, "")];
        }
      }
      assert entries[..|entries|] == entries;
      if !commits {
        return Err("update failed");
      }
      locationCache := tx;
      result := Ok(());
    }

    method BuildGeoViewSnapshot(readable: bool) returns (result: Result<GeoViewSnapshot>)
      ensures readable ==> result == Ok(View(Contents()))
      ensures readable ==>
                Tallies(result.value, map ip | ip in Contents().peers ::
                          if ip in Contents().cache then Contents().cache[ip].country else "")
      ensures !readable ==> result.Err?
    {
      hide Tallies, View, GroupView, FirstCountries, CachedCountry, Sorted, StrLt;
      if !readable {
        return Err("read failed");
      }
      var keys := OrderedKeys(currentPeers.Keys);
      var rows: seq<(string, string)> := [];
      for i := 0 to |keys|
        invariant rows == JoinRows(Contents(), keys[..i])
      {
        assert keys[..i + 1][..i] == keys[..i];
        rows := rows + [(keys[i], CachedCountry(Contents(), keys[i]))];
      }
      assert keys[..|keys|] == keys;
      JoinGivesView(Contents(), keys);
      ViewTallies(Contents());
      var snapshot := AssembleSnapshot(rows);
      result := Ok(snapshot);
    }
  }

  /** `current_peers LEFT JOIN location_cache`, one row per peer. */
  function JoinRows(t: Tables, keys: seq<string>): seq<(string, string)> {
    if keys == [] then []
    else
      var n := |keys| - 1;
      JoinRows(t, keys[..n]) + [(keys[n], CachedCountry(t, keys[n]))]
  }

  lemma JoinGivesView(t: Tables, keys: seq<string>)
    requires Elems(keys) == t.peers.Keys
    ensures GroupView(FirstCountries(JoinRows(t, keys))) == View(t)
  {
    hide GroupView, FirstCountries, JoinRows, PeerCountries;
    JoinGivesPeerCountries(t, keys);
  }

  lemma JoinGivesPeerCountries(t: Tables, keys: seq<string>)
    requires Elems(keys) == t.peers.Keys
    ensures FirstCountries(JoinRows(t, keys)) == PeerCountries(t)
  {
    JoinCountries(t, keys);
    assert forall ip :: ip in keys <==> ip in Elems(keys);
  }

  lemma {:induction false} JoinCountries(t: Tables, keys: seq<string>)
    ensures FirstCountries(JoinRows(t, keys)) == map ip | ip in keys :: NormalizeCountryCode(CachedCountry(t, ip))
  {
    if keys != [] {
      var n := |keys| - 1;
      JoinCountries(t, keys[..n]);
      assert keys == keys[..n] + [keys[n]];
      var rows := JoinRows(t, keys);
      assert rows[..|rows| - 1] == JoinRows(t, keys[..n]);
    }
  }

  // ------------------------------------------ the cache refines its log

  /** What the worker was asked to write, with the clock and the outcome of each transaction. */
  datatype StoreOp =
    | Replace(ips: seq<string>, now: int, commits: bool)
    | Update(entries: seq<LocationEntry>, now: int, commits: bool)

  function Apply(t: Tables, op: StoreOp): Tables {
    if !op.commits then t
    else match op
      case Replace(ips, now, _) => Replaced(t, ips, now)
      case Update(entries, now, _) => Updated(t, entries, now)
  }

  function RunOps(t: Tables, ops: seq<StoreOp>): Tables {
    if ops == [] then t else Apply(RunOps(t, ops[..|ops| - 1]), ops[|ops| - 1])
  }

  datatype Attempt = Attempt(entry: LocationEntry, at: int)

  function AttemptsIn(entries: seq<LocationEntry>, now: int, ip: string): seq<Attempt> {
    if entries == [] then []
    else
      var n := |entries| - 1;
      AttemptsIn(entries[..n], now, ip) + if entries[n].ip == ip then [Attempt(entries[n], now)] else []
  }

  function AttemptsBy(op: StoreOp, ip: string): seq<Attempt> {
    match op
    case Update(entries, now, true) => AttemptsIn(entries, now, ip)
    case _ => []
  }

  /** The committed enrichment results of one IP, oldest first, whatever batch they came in. */
  function Attempts(ops: seq<StoreOp>, ip: string): seq<Attempt> {
    if ops == [] then [] else Attempts(ops[..|ops| - 1], ip) + AttemptsBy(Last(ops), ip)
  }

  function LastSuccess(attempts: seq<Attempt>): Option<Attempt> {
    if attempts == [] then None
    else
      var last := attempts[|attempts| - 1];
      if last.entry.error.None? then Some(last) else LastSuccess(attempts[..|attempts| - 1])
  }

  /** A row says: this is the last success, or else what was there before, or else the defaults. */
  ghost predicate RowMatches(before: map<string, LocationRow>, attempts: seq<Attempt>, after: map<string, LocationRow>,
                             ip: string) {
    && (ip in after <==> ip in before || attempts != [])
    && (ip in after ==>
          var row, was := after[ip], if ip in before then before[ip] else LocationRow("", "", 0, "");
          && (match LastSuccess(attempts)
              case Some(s) =>
                row.country == GetOr(s.entry.country, "") && row.loc == GetOr(s.entry.loc, "")
                && row.refreshedAt == s.at
              case None =>
                row.country == was.country && row.loc == was.loc && row.refreshedAt == was.refreshedAt)
          && row.lastError ==
             if attempts == [] then was.lastError else GetOr(attempts[|attempts| - 1].entry.error, ""))
  }

  lemma LastSuccessStep(attempts: seq<Attempt>, a: Attempt)
    ensures LastSuccess(attempts + [a]) == if a.entry.error.None? then Some(a) else LastSuccess(attempts)
  {
    assert (attempts + [a])[..|attempts|] == attempts;
  }

  lemma RowMatchesOne(before: map<string, LocationRow>, attempts: seq<Attempt>,
                      after: map<string, LocationRow>, e: LocationEntry, now: int, ip: string)
    requires RowMatches(before, attempts, after, ip)
    ensures RowMatches(before, attempts + if e.ip == ip then [Attempt(e, now)] else [],
                       UpsertLocation(after, e, now), ip)
  {
    if e.ip == ip {
      LastSuccessStep(attempts, Attempt(e, now));
    } else {
      assert attempts + [] == attempts;
    }
  }

  lemma {:induction false} RowMatchesBatch(before: map<string, LocationRow>, attempts: seq<Attempt>,
                                           after: map<string, LocationRow>, entries: seq<LocationEntry>,
                                           now: int, ip: string)
    requires RowMatches(before, attempts, after, ip)
    ensures RowMatches(before, attempts + AttemptsIn(entries, now, ip), UpsertAll(after, entries, now), ip)
  {
    if entries == [] {
      assert attempts + [] == attempts;
    } else {
      var n := |entries| - 1;
      RowMatchesBatch(before, attempts, after, entries[..n], now, ip);
      var sofar := attempts + AttemptsIn(entries[..n], now, ip);
      RowMatchesOne(before, sofar, UpsertAll(after, entries[..n], now), entries[n], now, ip);
      var one := if entries[n].ip == ip then [Attempt(entries[n], now)] else [];
      assert sofar + one == attempts + AttemptsIn(entries, now, ip);
    }
  }

  /** For every run of the worker and every IP, the cache row is determined by that IP's own results. */
  lemma {:induction false} CacheRefinesLog(t: Tables, ops: seq<StoreOp>, ip: string)
    ensures RowMatches(t.cache, Attempts(ops, ip), RunOps(t, ops).cache, ip)
  {
    if ops != [] {
      var n := |ops| - 1;
      CacheRefinesLog(t, ops[..n], ip);
      var sofar := Attempts(ops[..n], ip);
      assert sofar + [] == sofar;
      match ops[n] {
        case Update(entries, now, true) =>
          RowMatchesBatch(t.cache, sofar, RunOps(t, ops[..n]).cache, entries, now, ip);
        case _ =>
      }
    }
  }

  /** What a replace promises to return: never refreshed, or refreshed more than 24 hours ago. */
  ghost function DueForRefresh(ops: seq<StoreOp>, ips: seq<string>, now: int): set<string> {
    set ip | ip in Elems(ips) &&
      (match LastSuccess(Attempts(ops, ip))
       case Some(s) => now - s.at > 24 * 60 * 60
       case None => true)
  }

  /** The cache holds only failures for this IP. */
  predicate OnlyFailed(t: Tables, ip: string, ops: seq<StoreOp>) {
    ip in t.cache && LastSuccess(Attempts(ops, ip)).None?
  }

  /** A failed-only row is stamped 0, so it counts as due exactly when the clock is past 24 hours.
      The returned set is therefore the promised one exactly under this condition. */
  lemma ReplaceReturnsWhatIsDue(ops: seq<StoreOp>, ips: seq<string>, now: int)
    ensures var t := Replaced(RunOps(Tables(map[], map[]), ops), ips, now);
            Stale(t, now) == DueForRefresh(ops, ips, now) <==>
            now > 24 * 60 * 60 || forall ip | ip in ips :: !OnlyFailed(t, ip, ops)
  {
    var t := Replaced(RunOps(Tables(map[], map[]), ops), ips, now);
    forall ip ensures ip in ips ==>
      ((ip in Stale(t, now) <==> ip in DueForRefresh(ops, ips, now)) <==>
       now > LOCATION_CACHE_TTL_SECONDS || !OnlyFailed(t, ip, ops))
    {
      CacheRefinesLog(Tables(map[], map[]), ops, ip);
    }
    assert Stale(t, now) <= t.peers.Keys && DueForRefresh(ops, ips, now) <= t.peers.Keys;
    if Stale(t, now) != DueForRefresh(ops, ips, now) {
      var ip :| ip in t.peers && (ip in Stale(t, now) <==> ip !in DueForRefresh(ops, ips, now));
    }
  }

  /** Before 24 hours on the clock an IP that only ever failed is not offered again. */
  lemma EarlyClockSkipsFailedIp()
    ensures var ops := [Update([LocationEntry("1.1.1.1", None, None, Some("timeout"))], 10, true)];
            var t := Replaced(RunOps(Tables(map[], map[]), ops), ["1.1.1.1"], 20);
            "1.1.1.1" in DueForRefresh(ops, ["1.1.1.1"], 20) && "1.1.1.1" !in Stale(t, 20)
  {
    var ip := "1.1.1.1";
    var e := LocationEntry(ip, None, None, Some("timeout"));
    var op := Update([e], 10, true);
    assert [e][..0] == [] && [op][..0] == [];
    assert AttemptsIn([e], 10, ip) == [Attempt(e, 10)];
    assert Attempts([op], ip) == [Attempt(e, 10)];
    assert LastSuccess(Attempts([op][..0], ip)) == None;
    assert [Attempt(e, 10)][..0] == [];
    assert LastSuccess([Attempt(e, 10)]) == None;
    CacheRefinesLog(Tables(map[], map[]), [op], ip);
  }
}
