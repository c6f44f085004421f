/** The Peer Country Distribution: grouping the joined rows by Country Code
    (src/geo/snapshot.rs). */
module GeoSnapshot {
  import opened Ordering
  import opened Wrappers

  datatype CountryCount = CountryCount(code: string, peers: nat)

  datatype GeoViewSnapshot = GeoViewSnapshot(
    totalPeers: nat,
    uniqueCountries: nat,
    countryCounts: seq<CountryCount>,
    unknownCount: nat)

  const EMPTY_SNAPSHOT := GeoViewSnapshot(0, 0, [], 0)

  // ------------------------------------------------------- Country Codes

  /** The characters that string trimming removes (Unicode White_Space). */
  predicate IsSpace(c: char) {
    || '\U{9}' <= c <= '\U{d}' || c == ' ' || c == '\U{85}' || c == '\U{a0}' || c == '\U{1680}'
    || '\U{2000}' <= c <= '\U{200a}' || c == '\U{2028}' || c == '\U{2029}' || c == '\U{202f}'
    || c == '\U{205f}' || c == '\U{3000}'
  }

  predicate IsLetter(c: char) {
    'a' <= c <= 'z' || 'A' <= c <= 'Z'
  }

  function Upper(c: char): char {
    if 'a' <= c <= 'z' then (c as int - 'a' as int + 'A' as int) as char else c
  }

  function TrimStart(s: string): string {
    if s != "" && IsSpace(s[0]) then TrimStart(s[1..]) else s
  }

  function TrimEnd(s: string): string {
    if s != "" && IsSpace(s[|s| - 1]) then TrimEnd(s[..|s| - 1]) else s
  }

  function Trim(s: string): string {
    TrimEnd(TrimStart(s))
  }

  // Two bytes that are both ASCII letters are two characters that are.
  function NormalizeCountryCode(country: string): Option<string> {
    var t := Trim(country);
    if |t| != 2 || !IsLetter(t[0]) || !IsLetter(t[1]) then None
    else Some([Upper(t[0]), Upper(t[1])])
  }

  ghost predicate AllSpace(s: string) {
    forall i | 0 <= i < |s| :: IsSpace(s[i])
  }

  /** `upper` is the capital of the letter `c`. */
  predicate IsCapitalOf(upper: char, c: char) {
    'A' <= upper <= 'Z' && (upper == c || upper as int - 'A' as int == c as int - 'a' as int)
  }

  /** `country` is blanks, two letters, blanks, and `code` is the letters in upper case. */
  ghost predicate SpellsCode(country: string, code: string, at: nat) {
    && at + 2 <= |country|
    && AllSpace(country[..at]) && AllSpace(country[at + 2..])
    && |code| == 2 && IsCapitalOf(code[0], country[at]) && IsCapitalOf(code[1], country[at + 1])
  }

  lemma {:induction false} TrimStartShape(s: string) returns (n: nat)
    ensures n <= |s| && TrimStart(s) == s[n..] && AllSpace(s[..n])
    ensures n == |s| || !IsSpace(s[n])
  {
    if s != "" && IsSpace(s[0]) {
      var m := TrimStartShape(s[1..]);
      n := m + 1;
      assert s[1..][m..] == s[n..];
      forall i | 0 <= i < n ensures IsSpace(s[i]) {
        assert i > 0 ==> s[1..][..m][i - 1] == s[i];
      }
    } else {
      n := 0;
    }
  }

  lemma {:induction false} TrimEndShape(s: string) returns (n: nat)
    ensures n <= |s| && TrimEnd(s) == s[..n] && AllSpace(s[n..])
    ensures n == 0 || !IsSpace(s[n - 1])
  {
    var k := |s| - 1;
    if s != "" && IsSpace(s[k]) {
      n := TrimEndShape(s[..k]);
      assert s[..k][..n] == s[..n];
      forall i | n <= i < |s| ensures IsSpace(s[i]) {
        assert i < k ==> s[..k][n..][i - n] == s[i];
      }
      assert forall i | 0 <= i < |s[n..]| :: s[n..][i] == s[i + n];
    } else {
      n := |s|;
    }
  }

  lemma CapitalMeans()
    ensures forall upper, c :: IsCapitalOf(upper, c) <==> IsLetter(c) && upper == Upper(c)
  {
  }

  ghost predicate SpellsUpper(country: string, code: string, at: nat) {
    && at + 2 <= |country|
    && AllSpace(country[..at]) && AllSpace(country[at + 2..])
    && IsLetter(country[at]) && IsLetter(country[at + 1])
    && code == [Upper(country[at]), Upper(country[at + 1])]
  }

  lemma NormalizeSpells(country: string, code: string)
    ensures NormalizeCountryCode(country) == Some(code) <==> exists at: nat :: SpellsUpper(country, code, at)
  {
    var a := TrimStartShape(country);
    var b := TrimEndShape(country[a..]);
    var t := Trim(country);
    assert t == country[a..][..b] == country[a..a + b];
    assert country[a..][b..] == country[a + b..];
    if NormalizeCountryCode(country) == Some(code) {
      assert SpellsUpper(country, code, a);
    }
    if at: nat :| SpellsUpper(country, code, at) {
      assert forall i | 0 <= i < at :: country[i] == country[..at][i];
      assert forall i | 0 <= i < a :: country[i] == country[..a][i];
      assert a == at;
      assert forall i | a + b <= i < |country| :: country[i] == country[a + b..][i - a - b];
      assert forall i | at + 2 <= i < |country| :: country[i] == country[at + 2..][i - at - 2];
      assert b == 2;
    }
  }

  /** A Country Code is accepted exactly when the value spells it between blanks. */
  lemma NormalizeAccepts(country: string, code: string)
    ensures NormalizeCountryCode(country) == Some(code) <==> exists at: nat :: SpellsCode(country, code, at)
  {
    hide NormalizeCountryCode, AllSpace, IsCapitalOf, IsLetter, Upper;
    NormalizeSpells(country, code);
    CapitalMeans();
    if at: nat :| SpellsUpper(country, code, at) {
      assert SpellsCode(country, code, at);
    }
    if at: nat :| SpellsCode(country, code, at) {
      assert code == [Upper(country[at]), Upper(country[at + 1])];
      assert SpellsUpper(country, code, at);
    }
  }

  lemma NormalizeIsStable(country: string)
    requires NormalizeCountryCode(country).Some?
    ensures NormalizeCountryCode(NormalizeCountryCode(country).value) == NormalizeCountryCode(country)
  {
    var code := NormalizeCountryCode(country).value;
    NormalizeAccepts(country, code);
    NormalizeAccepts(code, code);
    assert code[..0] == "" && code[2..] == "";
    assert SpellsCode(code, code, 0);
  }

  // ------------------------------------------------ what grouping means

  /** Each IP with its Country Code, None when unknown. */
  type CountryMap = map<string, Option<string>>

  /** Each IP with the code of the first row that mentions it. */
  ghost function FirstCountries(rows: seq<(string, string)>): CountryMap {
    if rows == [] then map[]
    else
      var n := |rows| - 1;
      var m := FirstCountries(rows[..n]);
      if rows[n].0 in m then m else m[rows[n].0 := NormalizeCountryCode(rows[n].1)]
  }

  /** The IPs whose code is `code` (None: Unknown Country). */
  ghost function IpsWith(m: CountryMap, code: Option<string>): set<string> {
    KeysWith(m, code)
  }

  ghost function KeysWith<K, V>(m: map<K, V>, v: V): set<K> {
    set k | k in m && m[k] == v
  }

  lemma KeysWithStep<K, V>(m: map<K, V>, k: K, found: V, v: V)
    requires k !in m
    ensures KeysWith(m[k := found], v) == KeysWith(m, v) + (if found == v then {k} else {})
  {
  }

  ghost function Codes(m: CountryMap): set<string> {
    set ip | ip in m && m[ip].Some? :: m[ip].value
  }

  ghost function CountFor(m: CountryMap, code: string): CountryCount {
    CountryCount(code, |IpsWith(m, Some(code))|)
  }

  ghost function Counts(m: CountryMap): set<CountryCount> {
    CountImage(m, Codes(m))
  }

  /** More peers first, then by code. */
  predicate CountLt(a: CountryCount, b: CountryCount) {
    a.peers > b.peers || (a.peers == b.peers && StrLt(a.code, b.code))
  }

  lemma CountIsStrictTotal()
    ensures StrictTotal(CountLt)
  {
    StrIsStrictTotal();
  }

  /** The IPs whose country text normalises to `code`. */
  ghost function IpsOf(countries: map<string, string>, code: Option<string>): set<string> {
    set ip | ip in countries && NormalizeCountryCode(countries[ip]) == code
  }

  ghost predicate HasGroup(s: GeoViewSnapshot, code: string) {
    exists i :: 0 <= i < |s.countryCounts| && s.countryCounts[i].code == code
  }

  /** The snapshot counts, for these country texts of all peers, every peer once: by code, the larger group first,
      equal groups by code, and the rest as unknown. */
  ghost predicate Tallies(s: GeoViewSnapshot, countries: map<string, string>) {
    && s.totalPeers == |countries|
    && s.unknownCount == |IpsOf(countries, None)|
    && s.uniqueCountries == |s.countryCounts|
    && (forall i | 0 <= i < |s.countryCounts| ::
          s.countryCounts[i].peers == |IpsOf(countries, Some(s.countryCounts[i].code))| > 0)
    && (forall ip | ip in countries && NormalizeCountryCode(countries[ip]).Some? ::
          HasGroup(s, NormalizeCountryCode(countries[ip]).value))
    && (forall i, j | 0 <= i < j < |s.countryCounts| ::
          var a, b := s.countryCounts[i], s.countryCounts[j];
          a.peers > b.peers || (a.peers == b.peers && StrLt(a.code, b.code)))
  }

  ghost function GroupView(m: CountryMap): GeoViewSnapshot {
    GeoViewSnapshot(|m|, |Codes(m)|, Sorted(CountLt, Counts(m)), |IpsWith(m, None)|)
  }

  // ------------------------------------------------------- the operation

  lemma IpsWithStep(m: CountryMap, ip: string, found: Option<string>, code: Option<string>)
    requires ip !in m
    ensures IpsWith(m[ip := found], code)
         == IpsWith(m, code) + (if found == code then {ip} else {})
    ensures |IpsWith(m[ip := found], code)|
         == |IpsWith(m, code)| + (if found == code then 1 else 0)
  {
    KeysWithStep(m, ip, found, code);
    assert ip !in IpsWith(m, code);
  }

  lemma CodesStep(m: CountryMap, ip: string, found: Option<string>)
    requires ip !in m
    ensures Codes(m[ip := found])
         == Codes(m) + (match found case Some(code) => {code} case None => {})
  {
    var m' := m[ip := found];
    forall code ensures code in Codes(m') <==>
      code in Codes(m) || found == Some(code)
    {
      if code in Codes(m) {
        var w :| w in m && m[w] == Some(code);
        assert w in m' && m'[w] == m[w];
      }
      if found == Some(code) {
        assert ip in m' && m'[ip] == found;
      }
    }
  }

  lemma CodesHavePeers(m: CountryMap, code: string)
    ensures code in Codes(m) <==> |IpsWith(m, Some(code))| > 0
  {
    if code in Codes(m) {
      var w :| w in m && m[w] == Some(code);
      assert w in IpsWith(m, Some(code));
    }
    if |IpsWith(m, Some(code))| > 0 {
      var w :| w in IpsWith(m, Some(code));
    }
  }

  /** The running tables agree with the rows read so far. */
  ghost predicate Tallied(m: CountryMap, totals: map<string, nat>, unknown: nat) {
    && totals.Keys == Codes(m)
    && (forall c | c in totals :: totals[c] == |IpsWith(m, Some(c))|)
    && unknown == |IpsWith(m, None)|
  }

  function Bump(totals: map<string, nat>, code: string): map<string, nat> {
    totals[code := (if code in totals then totals[code] else 0) + 1]
  }

  lemma TallyKnown(m: CountryMap, ip: string, code: string,
                   totals: map<string, nat>, unknown: nat)
    requires ip !in m && Tallied(m, totals, unknown)
    ensures Tallied(m[ip := Some(code)], Bump(totals, code), unknown)
  {
    CodesStep(m, ip, Some(code));
    CodesHavePeers(m, code);
    IpsWithStep(m, ip, Some(code), None);
    forall c | c in Bump(totals, code)
      ensures Bump(totals, code)[c] == |IpsWith(m[ip := Some(code)], Some(c))|
    {
      IpsWithStep(m, ip, Some(code), Some(c));
    }
  }

  lemma TallyUnknown(m: CountryMap, ip: string,
                     totals: map<string, nat>, unknown: nat)
    requires ip !in m && Tallied(m, totals, unknown)
    ensures Tallied(m[ip := None], totals, unknown + 1)
  {
    CodesStep(m, ip, None);
    IpsWithStep(m, ip, None, None);
    forall c | c in totals ensures totals[c] == |IpsWith(m[ip := None], Some(c))| {
      IpsWithStep(m, ip, None, Some(c));
    }
  }

  lemma TallyNone()
    ensures Tallied(map[], map[], 0)
  {
  }

  method TallyRows(rows: seq<(string, string)>) returns (seenIps: set<string>, totals: map<string, nat>, unknown: nat)
    ensures seenIps == FirstCountries(rows).Keys
    ensures Tallied(FirstCountries(rows), totals, unknown)
  {
    hide NormalizeCountryCode, Tallied;
    TallyNone();
    seenIps, totals, unknown := {}, map[], 0;
    for i := 0 to |rows|
      invariant seenIps == FirstCountries(rows[..i]).Keys
      invariant Tallied(FirstCountries(rows[..i]), totals, unknown)
    {
      var (ip, country) := rows[i];
      ghost var m := FirstCountries(rows[..i]);
      assert rows[..i + 1][..i] == rows[..i];
      if ip in seenIps {
        continue;
      }
      var code := NormalizeCountryCode(country);
      assert FirstCountries(rows[..i + 1]) == m[ip := code];
      seenIps := seenIps + {ip};
      if code.Some? {
        TallyKnown(m, ip, code.value, totals, unknown);
        totals := Bump(totals, code.value);
      } else {
        TallyUnknown(m, ip, totals, unknown);
        unknown := unknown + 1;
      }
    }
    assert rows[..|rows|] == rows;
  }

  method AssembleSnapshot(rows: seq<(string, string)>) returns (s: GeoViewSnapshot)
    ensures s == GroupView(FirstCountries(rows))
  {
    var seenIps, totals, unknown := TallyRows(rows);
    var counts := RankTotals(totals, FirstCountries(rows));
    s := GeoViewSnapshot(|seenIps|, |counts|, counts, unknown);
    CountsSize(FirstCountries(rows));
  }

  ghost function CountImage(m: CountryMap, codes: set<string>): set<CountryCount> {
    set code | code in codes :: CountFor(m, code)
  }

  lemma CountImageStep(m: CountryMap, codes: set<string>, code: string)
    requires code !in codes
    ensures CountImage(m, codes + {code}) == CountImage(m, codes) + {CountFor(m, code)}
    ensures CountFor(m, code) !in CountImage(m, codes)
  {
  }

  /** Turn the totals table into rows and sort them in place. */
  method RankTotals(totals: map<string, nat>, ghost m: CountryMap) returns (counts: seq<CountryCount>)
    requires totals.Keys == Codes(m)
    requires forall c | c in totals :: totals[c] == |IpsWith(m, Some(c))|
    ensures counts == Sorted(CountLt, Counts(m))
  {
    counts := [];
    var todo := totals.Keys;
    while todo != {}
      invariant todo <= totals.Keys
      invariant Elems(counts) == CountImage(m, totals.Keys - todo)
      invariant forall i, j | 0 <= i < j < |counts| :: counts[i] != counts[j]
    {
      var c :| c in todo;
      var row := CountryCount(c, totals[c]);
      CountImageStep(m, totals.Keys - todo, c);
      assert totals.Keys - (todo - {c}) == totals.Keys - todo + {c};
      assert forall i | 0 <= i < |counts| :: counts[i] in Elems(counts);
      AddElem(counts, row);
      counts := counts + [row];
      todo := todo - {c};
    }
    assert totals.Keys - todo == Codes(m);
    CountIsStrictTotal();
    DistinctSortAscends(CountLt, counts);
    SortedIs(CountLt, StableSort(CountLt, counts), Counts(m));
    counts := StableSort(CountLt, counts);
  }

  lemma CountsSize(m: CountryMap)
    ensures |Counts(m)| == |Codes(m)|
  {
    CountImageSize(m, Codes(m));
  }

  lemma {:induction false} CountImageSize(m: CountryMap, codes: set<string>)
    ensures |CountImage(m, codes)| == |codes|
  {
    if codes != {} {
      var c :| c in codes;
      CountImageSize(m, codes - {c});
      CountImageStep(m, codes - {c}, c);
      assert codes - {c} + {c} == codes;
    }
  }

  // ---------------------------------------------- the distribution's laws

  function TotalPeers(counts: seq<CountryCount>): nat {
    if counts == [] then 0 else TotalPeers(counts[..|counts| - 1]) + counts[|counts| - 1].peers
  }

  /** Every group is exactly the peers of that code, groups are unique and in strict order. */
  lemma GroupsAreExact(m: CountryMap)
    ensures forall x | x in GroupView(m).countryCounts :: x.peers > 0 && x == CountFor(m, x.code)
    ensures forall ip | ip in m && m[ip].Some? ::
              CountFor(m, m[ip].value) in GroupView(m).countryCounts
    ensures Ascending(CountLt, GroupView(m).countryCounts)
    ensures forall i, j | 0 <= i < j < |GroupView(m).countryCounts| ::
              GroupView(m).countryCounts[i].code != GroupView(m).countryCounts[j].code
  {
    var counts := GroupView(m).countryCounts;
    CountIsStrictTotal();
    SortedAscends(CountLt, Counts(m));
    forall x | x in counts ensures x.peers > 0 && x == CountFor(m, x.code) {
      assert x in Elems(counts);
      CodesHavePeers(m, x.code);
    }
    forall ip | ip in m && m[ip].Some?
      ensures CountFor(m, m[ip].value) in counts
    {
      assert CountFor(m, m[ip].value) in Elems(counts);
    }
    forall i, j | 0 <= i < j < |counts| ensures counts[i].code != counts[j].code {
      assert counts[i] in counts && counts[j] in counts;
      assert CountLt(counts[i], counts[j]) && !CountLt(counts[i], counts[i]);
    }
  }

  /** The groups of the country texts, as the group-by keeps them. */
  ghost predicate IsCodedBy(m: CountryMap, countries: map<string, string>) {
    && m.Keys == countries.Keys
    && forall ip | ip in countries :: m[ip] == NormalizeCountryCode(countries[ip])
  }

  lemma SameGroups(m: CountryMap, countries: map<string, string>, code: Option<string>)
    requires IsCodedBy(m, countries)
    ensures IpsWith(m, code) == IpsOf(countries, code)
  {
    hide NormalizeCountryCode;
  }

  lemma GroupSizes(m: CountryMap, countries: map<string, string>)
    requires IsCodedBy(m, countries)
    ensures var s := GroupView(m);
            && s.totalPeers == |countries| && s.unknownCount == |IpsOf(countries, None)|
            && s.uniqueCountries == |s.countryCounts|
  {
    hide NormalizeCountryCode, CountLt, Counts, Codes;
    CountsSize(m);
    SameGroups(m, countries, None);
    assert |m| == |m.Keys| && |countries| == |countries.Keys|;
  }

  lemma GroupCounts(m: CountryMap, countries: map<string, string>, i: nat)
    requires IsCodedBy(m, countries) && i < |GroupView(m).countryCounts|
    ensures var x := GroupView(m).countryCounts[i];
            x.peers == |IpsOf(countries, Some(x.code))| > 0
  {
    hide GroupView, IpsWith, IpsOf, IsCodedBy;
    GroupsAreExact(m);
    var x := GroupView(m).countryCounts[i];
    assert x in GroupView(m).countryCounts;
    SameGroups(m, countries, Some(x.code));
  }

  lemma GroupCovers(m: CountryMap, countries: map<string, string>, ip: string)
    requires IsCodedBy(m, countries) && ip in countries && NormalizeCountryCode(countries[ip]).Some?
    ensures HasGroup(GroupView(m), NormalizeCountryCode(countries[ip]).value)
  {
    hide GroupView, NormalizeCountryCode, IpsWith;
    GroupsAreExact(m);
    assert ip in m && m[ip].Some?;
    var x := CountFor(m, m[ip].value);
    var i :| 0 <= i < |GroupView(m).countryCounts| && GroupView(m).countryCounts[i] == x;
  }

  /** The group-by is what the country texts tally to. */
  lemma GroupViewTallies(m: CountryMap, countries: map<string, string>)
    requires IsCodedBy(m, countries)
    ensures Tallies(GroupView(m), countries)
  {
    hide GroupView, NormalizeCountryCode, StrLt, IpsOf, IsCodedBy, HasGroup;
    var counts := GroupView(m).countryCounts;
    GroupSizes(m, countries);
    GroupsAreExact(m);
    forall i | 0 <= i < |counts| ensures counts[i].peers == |IpsOf(countries, Some(counts[i].code))| > 0 {
      GroupCounts(m, countries, i);
    }
    forall ip | ip in countries && NormalizeCountryCode(countries[ip]).Some?
      ensures HasGroup(GroupView(m), NormalizeCountryCode(countries[ip]).value)
    {
      GroupCovers(m, countries, ip);
    }
    assert forall i, j | 0 <= i < j < |counts| :: CountLt(counts[i], counts[j]);
  }

  lemma {:induction false} NeverMentioned(rows: seq<(string, string)>, ip: string)
    requires forall j | 0 <= j < |rows| :: rows[j].0 != ip
    ensures ip !in FirstCountries(rows)
  {
    if rows != [] {
      NeverMentioned(rows[..|rows| - 1], ip);
    }
  }

  /** The first row that mentions an IP decides its country. */
  lemma {:induction false} FirstRowWins(rows: seq<(string, string)>, i: nat)
    requires i < |rows| && forall j | 0 <= j < i :: rows[j].0 != rows[i].0
    ensures rows[i].0 in FirstCountries(rows)
    ensures FirstCountries(rows)[rows[i].0] == NormalizeCountryCode(rows[i].1)
  {
    hide NormalizeCountryCode;
    var n := |rows| - 1;
    if i < n {
      FirstRowWins(rows[..n], i);
    } else {
      NeverMentioned(rows[..n], rows[n].0);
    }
  }

  /** The IPs whose code is in one of the first rows. */
  ghost function Covered(m: CountryMap, counts: seq<CountryCount>): set<string> {
    if counts == [] then {}
    else Covered(m, counts[..|counts| - 1]) + IpsWith(m, Some(counts[|counts| - 1].code))
  }

  lemma {:induction false} CoveredMeans(m: CountryMap, counts: seq<CountryCount>, ip: string)
    ensures ip in Covered(m, counts) <==> ip in m && exists i :: 0 <= i < |counts| && m[ip] == Some(counts[i].code)
  {
    if counts != [] {
      var n := |counts| - 1;
      CoveredMeans(m, counts[..n], ip);
      assert forall i | 0 <= i < n :: counts[..n][i] == counts[i];
    }
  }

  lemma {:induction false} TotalIsCovered(m: CountryMap, counts: seq<CountryCount>)
    requires forall i | 0 <= i < |counts| :: counts[i] == CountFor(m, counts[i].code)
    requires forall i, j | 0 <= i < j < |counts| :: counts[i].code != counts[j].code
    ensures TotalPeers(counts) == |Covered(m, counts)|
  {
    if counts != [] {
      var n := |counts| - 1;
      TotalIsCovered(m, counts[..n]);
      var last := IpsWith(m, Some(counts[n].code));
      forall ip | ip in last ensures ip !in Covered(m, counts[..n]) {
        CoveredMeans(m, counts[..n], ip);
      }
      assert Covered(m, counts[..n]) !! last;
    }
  }

  lemma KnownIsCovered(m: CountryMap, ip: string)
    ensures ip in Covered(m, GroupView(m).countryCounts) <==> ip in m && m[ip].Some?
  {
    var counts := GroupView(m).countryCounts;
    CoveredMeans(m, counts, ip);
    GroupsAreExact(m);
    if ip in m && m[ip].Some? {
      var x := CountFor(m, m[ip].value);
      var i :| 0 <= i < |counts| && counts[i] == x;
    }
  }

  /** Country counts plus unknown account for every peer once. */
  lemma PeersAreCountedOnce(m: CountryMap)
    ensures TotalPeers(GroupView(m).countryCounts) + GroupView(m).unknownCount == GroupView(m).totalPeers
  {
    var counts := GroupView(m).countryCounts;
    GroupsAreExact(m);
    forall i | 0 <= i < |counts| ensures counts[i] == CountFor(m, counts[i].code) {
      assert counts[i] in counts;
    }
    TotalIsCovered(m, counts);
    var known, unknown := Covered(m, counts), IpsWith(m, None);
    forall ip ensures ip in known <==> ip in m && m[ip].Some? {
      KnownIsCovered(m, ip);
    }
    assert known + unknown == m.Keys && known !! unknown;
    assert |m| == |m.Keys|;
  }

  /** No IP is reported with two different countries. */
  ghost predicate Consistent(rows: seq<(string, string)>) {
    forall r, s | r in rows && s in rows && r.0 == s.0 :: r == s
  }

  lemma {:induction false} FirstCountriesFromRows(rows: seq<(string, string)>)
    ensures forall ip | ip in FirstCountries(rows) ::
              exists r :: r in rows && r.0 == ip && FirstCountries(rows)[ip] == NormalizeCountryCode(r.1)
    ensures forall r | r in rows :: r.0 in FirstCountries(rows)
  {
    if rows != [] {
      var n := |rows| - 1;
      FirstCountriesFromRows(rows[..n]);
      assert rows == rows[..n] + [rows[n]];
    }
  }

  /** For consistent rows only the set of rows matters: neither order nor repetition does. */
  lemma OrderOfRowsIsIrrelevant(rows: seq<(string, string)>, other: seq<(string, string)>)
    requires Consistent(rows) && Elems(rows) == Elems(other)
    ensures FirstCountries(rows) == FirstCountries(other)
    ensures GroupView(FirstCountries(rows)) == GroupView(FirstCountries(other))
  {
    FirstCountriesFromRows(rows);
    FirstCountriesFromRows(other);
    var a, b := FirstCountries(rows), FirstCountries(other);
    assert forall r :: r in rows <==> r in Elems(rows);
    assert forall r :: r in other <==> r in Elems(other);
    forall ip | ip in a ensures ip in b && a[ip] == b[ip] {
      var r :| r in rows && r.0 == ip && a[ip] == NormalizeCountryCode(r.1);
      assert r in other;
      var q :| q in other && q.0 == ip && b[ip] == NormalizeCountryCode(q.1);
      assert q in rows;
    }
    forall ip | ip in b ensures ip in a {
      var q :| q in other && q.0 == ip;
      assert q in rows;
    }
    assert a == b;
  }
}
