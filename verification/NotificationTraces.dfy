/** What the notifier does over whole runs: the notices of each connection and node as functions of what was
    observed, the limiter as a spacing rule per key, and where every event goes. */
module NotificationTraces {
  import opened Ordering
  import opened Streams
  import opened RateLimit
  import opened Notifications

  // ------------------------------------------------------------ connections

  datatype Observation = Observation(key: string, seen: ConnectionState)

  function StatesAfter(obs: seq<Observation>): map<string, ConnectionState> {
    if obs == [] then map[]
    else StatesAfter(obs[..|obs| - 1])[Last(obs).key := Last(obs).seen]
  }

  /** What is due to be told about `key` while `obs` come in, of all keys. */
  function Notices(key: string, obs: seq<Observation>): seq<ConnectionState> {
    if obs == [] then []
    else
      var earlier, o := obs[..|obs| - 1], Last(obs);
      if o.key == key && IsNews(StatesAfter(earlier), key, o.seen) then Notices(key, earlier) + [o.seen]
      else Notices(key, earlier)
  }

  function Stream(key: string, obs: seq<Observation>): seq<ConnectionState> {
    if obs == [] then []
    else
      var earlier := Stream(key, obs[..|obs| - 1]);
      if Last(obs).key == key then earlier + [Last(obs).seen] else earlier
  }

  /** What the notifier takes for the state of a connection: healthy until it has seen otherwise. */
  function StateOf(states: map<string, ConnectionState>, key: string): ConnectionState {
    if key in states then states[key] else Healthy
  }

  lemma {:induction false} StateIsLastSeen(key: string, obs: seq<Observation>)
    ensures StateOf(StatesAfter(obs), key) == LastOr(Stream(key, obs), Healthy)
  {
    if obs != [] {
      StateIsLastSeen(key, obs[..|obs| - 1]);
    }
  }

  /** The notices due about a connection are its observations with leading recoveries dropped and repeats
      collapsed; what is seen of other connections never matters. */
  lemma {:induction false} NoticesAreTheEdges(key: string, obs: seq<Observation>)
    ensures Notices(key, obs) == Edges(Healthy, Stream(key, obs))
  {
    hide Edges, StatesAfter;
    if obs == [] {
      NoEdges(Healthy);
    } else {
      var earlier, o := obs[..|obs| - 1], Last(obs);
      NoticesAreTheEdges(key, earlier);
      if o.key == key {
        StateIsLastSeen(key, earlier);
        EdgeStep(Healthy, Stream(key, earlier), o.seen);
        assert IsNews(StatesAfter(earlier), key, o.seen) <==> o.seen != StateOf(StatesAfter(earlier), key);
      }
    }
  }

  /** So due failures and recoveries alternate, a failure first, and the last one due tells the present state. */
  lemma NoticesAlternate(key: string, obs: seq<Observation>)
    ensures forall i | 0 <= i < |Notices(key, obs)| :: Notices(key, obs)[i] == if i % 2 == 0 then Unhealthy else Healthy
    ensures LastOr(Notices(key, obs), Healthy) == StateOf(StatesAfter(obs), key)
  {
    hide Edges, Notices;
    NoticesAreTheEdges(key, obs);
    EdgesShape(Healthy, Stream(key, obs));
    StateIsLastSeen(key, obs);
    var notices := Notices(key, obs);
    assert forall i | 0 <= i < |notices| :: notices[i].Unhealthy? || notices[i].Healthy?;
    Alternates(Unhealthy, Healthy, notices);
  }

  function BeforeAt(s: string): nat {
    if s == "" || s[0] == '@' then 0 else 1 + BeforeAt(s[1..])
  }

  lemma {:induction false} NameEndsAtAt(name: string, url: string)
    requires '@' !in name
    ensures BeforeAt(ConnectionKey(name, url)) == |name|
  {
    if name != "" {
      NameEndsAtAt(name[1..], url);
      assert ConnectionKey(name, url)[1..] == ConnectionKey(name[1..], url);
    }
  }

  /** A node's name is the text before the first '@' of an option, so a connection's key determines its node
      and endpoint, whatever the endpoint contains. */
  lemma ConnectionKeysIdentify(name: string, url: string, other: string, otherUrl: string)
    requires '@' !in name && '@' !in other
    requires ConnectionKey(name, url) == ConnectionKey(other, otherUrl)
    ensures name == other && url == otherUrl
  {
    var key, same := ConnectionKey(name, url), ConnectionKey(other, otherUrl);
    NameEndsAtAt(name, url);
    NameEndsAtAt(other, otherUrl);
    assert key[..|name|] == name && same[..|other|] == other;
    assert key[|name| + 1..] == url && same[|other| + 1..] == otherUrl;
  }

  // ---------------------------------------------------------------- rankings

  datatype Standing = Standing(nodeId: string, ranking: int)

  function RankingsAfter(obs: seq<Standing>): map<string, int> {
    if obs == [] then map[]
    else Ranked(RankingsAfter(obs[..|obs| - 1]), Last(obs).nodeId, Last(obs).ranking)
  }

  /** The changes due for a node while the standings of all nodes come in. */
  function Changes(nodeId: string, obs: seq<Standing>): seq<RankingChange> {
    if obs == [] then []
    else
      var earlier, o := obs[..|obs| - 1], Last(obs);
      var change := PlannedChange(RankingsAfter(earlier), o.nodeId, o.ranking);
      if o.nodeId == nodeId && change.Some? then Changes(nodeId, earlier) + [change.value]
      else Changes(nodeId, earlier)
  }

  function PositiveRankings(nodeId: string, obs: seq<Standing>): seq<int> {
    if obs == [] then []
    else
      var earlier, o := PositiveRankings(nodeId, obs[..|obs| - 1]), Last(obs);
      if o.nodeId == nodeId && o.ranking > 0 then earlier + [o.ranking] else earlier
  }

  lemma {:induction false} RankingIsLastPositive(nodeId: string, obs: seq<Standing>)
    ensures nodeId in RankingsAfter(obs) <==> PositiveRankings(nodeId, obs) != []
    ensures nodeId in RankingsAfter(obs) ==> RankingsAfter(obs)[nodeId] == Last(PositiveRankings(nodeId, obs)) > 0
  {
    if obs != [] {
      RankingIsLastPositive(nodeId, obs[..|obs| - 1]);
    }
  }

  /** `changes` leads from one of `levels` to the next. */
  ghost predicate Chains(changes: seq<RankingChange>, levels: seq<int>) {
    && |levels| == (if levels == [] then 0 else |changes| + 1)
    && (levels == [] ==> changes == [])
    && forall i | 0 <= i < |changes| && i + 1 < |levels| ::
         changes[i].previous == levels[i] && changes[i].current == levels[i + 1]
  }

  lemma ChainStep(changes: seq<RankingChange>, levels: seq<int>, next: int)
    requires Chains(changes, levels) && levels != []
    ensures Chains(changes + [RankingChange(Last(levels), next)], levels + [next])
  {
  }

  /** The first positive ranking and then each change's `current` are the positive rankings with repeats
      removed, and each change starts where the one before ended. */
  lemma {:induction false} ChangesFormAChain(nodeId: string, obs: seq<Standing>)
    ensures Chains(Changes(nodeId, obs), Compressed(PositiveRankings(nodeId, obs)))
  {
    hide Compressed, Chains;
    if obs == [] {
      CompressedShape<int>([]);
      assert Chains([], []) by { EmptyChain(); }
    } else {
      var earlier, o := obs[..|obs| - 1], Last(obs);
      ChangesFormAChain(nodeId, earlier);
      if o.nodeId == nodeId && o.ranking > 0 {
        var levels := PositiveRankings(nodeId, earlier);
        RankingIsLastPositive(nodeId, earlier);
        CompressedStep(levels, o.ranking);
        CompressedShape(levels);
        if levels == [] {
          FirstLevel(Changes(nodeId, earlier), o.ranking);
        } else if Last(levels) != o.ranking {
          ChainStep(Changes(nodeId, earlier), Compressed(levels), o.ranking);
        }
      }
    }
  }

  lemma EmptyChain()
    ensures Chains([], [])
  {
  }

  lemma FirstLevel(changes: seq<RankingChange>, level: int)
    requires Chains(changes, [])
    ensures changes == [] && Chains(changes, [] + [level])
  {
  }

  /** The figure in the message: the distance, with a plus for a climb to a smaller ranking. */
  function AnnouncedDelta(change: RankingChange): int {
    var distance := if change.current < change.previous then change.previous - change.current
                    else change.current - change.previous;
    if change.current < change.previous then distance else -distance
  }

  function TotalDelta(changes: seq<RankingChange>): int {
    if changes == [] then 0 else TotalDelta(changes[..|changes| - 1]) + AnnouncedDelta(Last(changes))
  }

  lemma {:induction false} ChainTelescopes(changes: seq<RankingChange>, levels: seq<int>)
    requires Chains(changes, levels) && levels != []
    ensures TotalDelta(changes) == levels[0] - Last(levels)
  {
    if changes != [] {
      ChainTelescopes(changes[..|changes| - 1], levels[..|levels| - 1]);
    }
  }

  /** The deltas as announced add up to the first positive ranking less the last: the places climbed. */
  lemma DeltasTelescope(nodeId: string, obs: seq<Standing>)
    ensures var levels := PositiveRankings(nodeId, obs);
            TotalDelta(Changes(nodeId, obs)) == if levels == [] then 0 else levels[0] - Last(levels)
  {
    var levels := PositiveRankings(nodeId, obs);
    ChangesFormAChain(nodeId, obs);
    CompressedShape(levels);
    if levels != [] {
      ChainTelescopes(Changes(nodeId, obs), Compressed(levels));
    }
  }

  // ----------------------------------------------------------------- limiter

  /** Events of different kinds, or about different connections, nodes or days, never share a limit. */
  lemma LimitKeysNeverClash(kind: Kind, name: string, other: Kind, otherName: string)
    requires LimitKey(kind, name) == LimitKey(other, otherName)
    ensures kind == other && name == otherName
  {
    var key, same := LimitKey(kind, name), LimitKey(other, otherName);
    assert key[0] == same[0];
    if key[0] == 'c' {
      assert key[11] == same[11];
    }
    var n := |key| - |name|;
    assert key[n..] == name && same[n..] == otherName;
  }

  function DeskAfter(filter: Filter, limit: nat, run: seq<Attempt>): Desk {
    if run == [] then NEW_DESK
    else Decided(filter, limit, DeskAfter(filter, limit, run[..|run| - 1]), Last(run))
  }

  /** What becomes of the last attempt of a run. */
  function LastDecision(filter: Filter, limit: nat, run: seq<Attempt>): Decision
    requires run != []
  {
    Decide(filter, limit, DeskAfter(filter, limit, run[..|run| - 1]), Last(run))
  }

  predicate Passes(d: Decision) {
    d.Send? || d.SuppressedByQuietHours?
  }

  /** When the events of an enabled kind asked for `key`. */
  function Asked(filter: Filter, key: string, run: seq<Attempt>): seq<nat> {
    if run == [] then []
    else
      var earlier := Asked(filter, key, run[..|run| - 1]);
      if Last(run).key == key && Allows(filter, Last(run).kind) then earlier + [Last(run).now] else earlier
  }

  function LetThrough(filter: Filter, limit: nat, key: string, run: seq<Attempt>): seq<nat> {
    if run == [] then []
    else
      var earlier := LetThrough(filter, limit, key, run[..|run| - 1]);
      if Last(run).key == key && Passes(LastDecision(filter, limit, run)) then earlier + [Last(run).now] else earlier
  }

  ghost predicate StampIs(stamps: map<string, nat>, key: string, admitted: seq<nat>) {
    && (key in stamps <==> admitted != [])
    && (key in stamps ==> stamps[key] == Last(admitted))
  }

  lemma AdmittedStep(limit: nat, times: seq<nat>, now: nat)
    ensures Admitted(limit, times + [now])
         == if Accepts(limit, Admitted(limit, times), now) then Admitted(limit, times) + [now]
             else Admitted(limit, times)
  {
    assert (times + [now])[..|times|] == times;
  }

  lemma StampStep(limit: nat, stamps: map<string, nat>, key: string, admitted: seq<nat>, now: nat)
    requires limit > 0 && StampIs(stamps, key, admitted)
    ensures LetsThrough(stamps, key, now, limit) <==> Accepts(limit, admitted, now)
    ensures StampIs(Stamped(stamps, key, now, limit), key,
                    if Accepts(limit, admitted, now) then admitted + [now] else admitted)
  {
  }

  /** The times let through for a key are those the spacing rule admits out of the times asked for: buffered
      events use up the limit like sent ones, disabled kinds and other keys do not touch it. */
  lemma {:induction false} LimiterIsPerKey(filter: Filter, limit: nat, key: string, run: seq<Attempt>)
    ensures LetThrough(filter, limit, key, run) == Admitted(limit, Asked(filter, key, run))
    ensures limit > 0 ==> StampIs(DeskAfter(filter, limit, run).lastSentAt, key,
        Admitted(limit, Asked(filter, key, run)))
  {
    hide Admitted, Buffered, Rendered, StampIs;
    if run == [] {
      NothingAsked(limit, key);
    } else {
      var earlier, a := run[..|run| - 1], Last(run);
      LimiterIsPerKey(filter, limit, key, earlier);
      var desk, asked := DeskAfter(filter, limit, earlier), Asked(filter, key, earlier);
      if Allows(filter, a.kind) {
        if a.key == key {
          AdmittedStep(limit, asked, a.now);
          if limit > 0 {
            StampStep(limit, desk.lastSentAt, key, Admitted(limit, asked), a.now);
          }
        } else if limit > 0 {
          OtherStamp(limit, desk.lastSentAt, key, Admitted(limit, asked), a.key, a.now);
        }
      }
    }
  }

  lemma NothingAsked(limit: nat, key: string)
    ensures Admitted(limit, []) == [] && StampIs(map[], key, Admitted(limit, []))
  {
  }

  lemma OtherStamp(limit: nat, stamps: map<string, nat>, key: string, admitted: seq<nat>,
                   other: string, now: nat)
    requires StampIs(stamps, key, admitted) && other != key
    ensures StampIs(Stamped(stamps, other, now, limit), key, admitted)
  {
  }

  /** So what is let through for a key is at least the limit apart. */
  lemma NoticesAreSpaced(filter: Filter, limit: nat, key: string, run: seq<Attempt>)
    requires limit > 0
    ensures Spaced(limit, LetThrough(filter, limit, key, run))
  {
    LimiterIsPerKey(filter, limit, key, run);
    AdmittedAreSpaced(limit, Asked(filter, key, run));
  }

  /** A key loses nothing to the limiter exactly when what it asks for is already the limit apart. */
  lemma NothingLimitedIfSpaced(filter: Filter, limit: nat, key: string, run: seq<Attempt>)
    requires limit > 0
    ensures LetThrough(filter, limit, key, run) == Asked(filter, key, run) <==> Spaced(limit, Asked(filter, key, run))
  {
    LimiterIsPerKey(filter, limit, key, run);
    AllAdmittedIfSpaced(limit, Asked(filter, key, run));
  }

  // ---------------------------------------------------------- conservation

  /** Each string where it first occurs. */
  function Distinct(xs: seq<string>): seq<string> {
    if xs == [] then []
    else
      var earlier := xs[..|xs| - 1];
      if Last(xs) in earlier then Distinct(earlier) else Distinct(earlier) + [Last(xs)]
  }

  function Preview(xs: seq<string>): seq<string> {
    Distinct(xs)[..Min(|Distinct(xs)|, 3)]
  }

  function BucketOf(subjects: seq<string>): Bucket {
    Bucket(|subjects|, Preview(subjects))
  }

  lemma {:induction false} DistinctKeeps(xs: seq<string>, x: string)
    ensures x in Distinct(xs) <==> x in xs
  {
    if xs != [] {
      DistinctKeeps(xs[..|xs| - 1], x);
      assert xs == xs[..|xs| - 1] + [Last(xs)];
    }
  }

  /** `at` lists, in order, where each element of `xs` occurs first. */
  lemma {:induction false} DistinctAreFirsts(xs: seq<string>) returns (at: seq<nat>)
    ensures |at| == |Distinct(xs)|
    ensures forall i, j | 0 <= i < j < |at| :: at[i] < at[j]
    ensures forall i | 0 <= i < |at| :: at[i] < |xs| && xs[at[i]] == Distinct(xs)[i] && xs[at[i]] !in xs[..at[i]]
    ensures forall x | x in xs :: x in Distinct(xs)
  {
    at := [];
    if xs != [] {
      var n := |xs| - 1;
      at := DistinctAreFirsts(xs[..n]);
      forall i | 0 <= i < |at| ensures xs[at[i]] == Distinct(xs[..n])[i] && xs[at[i]] !in xs[..at[i]] {
        assert xs[..n][..at[i]] == xs[..at[i]];
      }
      if Last(xs) !in xs[..n] {
        at := at + [n];
      }
    }
    forall x | x in xs ensures x in Distinct(xs) {
      DistinctKeeps(xs, x);
    }
  }

  lemma NotedStep(xs: seq<string>, x: string)
    ensures Noted(BucketOf(xs), x) == BucketOf(xs + [x])
  {
    var all, d := xs + [x], Distinct(xs);
    assert all[..|xs|] == xs && Last(all) == x;
    DistinctKeeps(xs, x);
    if |d| < 3 {
      assert Preview(xs) == d;
    } else {
      assert (d + [x])[..3] == d[..3];
    }
  }

  function SubjectsOf(kind: Kind, held: seq<Attempt>): seq<string> {
    if held == [] then []
    else
      var earlier := SubjectsOf(kind, held[..|held| - 1]);
      if Last(held).kind == kind then earlier + [Last(held).subject] else earlier
  }

  /** The buffer as a function of the events it stands for. */
  function BufferOf(held: seq<Attempt>): Buffer {
    Buffer(|held|,
           BucketOf(SubjectsOf(ConnectionFailed, held)),
           BucketOf(SubjectsOf(ConnectionRecovered, held)),
           BucketOf(SubjectsOf(RankingChanged, held)))
  }

  ghost predicate NoDailies(held: seq<Attempt>) {
    forall i | 0 <= i < |held| :: held[i].kind != DailySummary
  }

  /** The events buffered since the buffer was last emptied. */
  function Held(filter: Filter, limit: nat, run: seq<Attempt>): seq<Attempt> {
    if run == [] then []
    else
      match LastDecision(filter, limit, run)
      case SuppressedByQuietHours => Held(filter, limit, run[..|run| - 1]) + [Last(run)]
      case Send(_) => []
      case _ => Held(filter, limit, run[..|run| - 1])
  }

  /** The events that summaries were sent for. */
  function Flushed(filter: Filter, limit: nat, run: seq<Attempt>): seq<Attempt> {
    if run == [] then []
    else
      var earlier := run[..|run| - 1];
      if LastDecision(filter, limit, run).Send? then Flushed(filter, limit, earlier) + Held(filter, limit, earlier)
      else Flushed(filter, limit, earlier)
  }

  /** The events that quiet hours kept from being sent. */
  function Quieted(filter: Filter, limit: nat, run: seq<Attempt>): seq<Attempt> {
    if run == [] then []
    else
      var earlier := Quieted(filter, limit, run[..|run| - 1]);
      if LastDecision(filter, limit, run).SuppressedByQuietHours? then earlier + [Last(run)] else earlier
  }

  function Passed(filter: Filter, limit: nat, run: seq<Attempt>): nat {
    if run == [] then 0
    else Passed(filter, limit, run[..|run| - 1]) + if Passes(LastDecision(filter, limit, run)) then 1 else 0
  }

  function Sent(filter: Filter, limit: nat, run: seq<Attempt>): nat {
    if run == [] then 0
    else Sent(filter, limit, run[..|run| - 1]) + if LastDecision(filter, limit, run).Send? then 1 else 0
  }

  function Reported(d: Decision): nat {
    if d.Send? && d.quietSummary.Some? then d.quietSummary.value.total else 0
  }

  /** The totals of the summaries sent. */
  function Summarised(filter: Filter, limit: nat, run: seq<Attempt>): nat {
    if run == [] then 0
    else Summarised(filter, limit, run[..|run| - 1]) + Reported(LastDecision(filter, limit, run))
  }

  lemma BufferedStep(held: seq<Attempt>, a: Attempt)
    requires NoDailies(held) && a.kind != DailySummary
    ensures Buffered(BufferOf(held), a.kind, a.subject) == BufferOf(held + [a]) && NoDailies(held + [a])
  {
    hide Noted, BucketOf;
    var all := held + [a];
    assert all[..|held|] == held && Last(all) == a;
    NotedStep(SubjectsOf(a.kind, held), a.subject);
  }

  /** In every reachable state the buffer stands for the events held since the last flush: its counts are
      theirs by kind, and each bucket names the first three distinct subjects. */
  lemma {:induction false} BufferIsWhatIsHeld(filter: Filter, limit: nat, run: seq<Attempt>)
    ensures DeskAfter(filter, limit, run).quiet == BufferOf(Held(filter, limit, run))
    ensures NoDailies(Held(filter, limit, run))
  {
    hide BufferOf, Buffered, Rendered, LetsThrough, Stamped;
    if run == [] {
      EmptyBuffer();
    } else {
      var earlier := run[..|run| - 1];
      BufferIsWhatIsHeld(filter, limit, earlier);
      if LastDecision(filter, limit, run).SuppressedByQuietHours? {
        BufferedStep(Held(filter, limit, earlier), Last(run));
      } else {
        EmptyBuffer();
      }
    }
  }

  lemma EmptyBuffer()
    ensures BufferOf([]) == EMPTY_BUFFER
  {
  }

  lemma {:induction false} CountsAddUp(held: seq<Attempt>)
    requires NoDailies(held)
    ensures |held| == |SubjectsOf(ConnectionFailed, held)| + |SubjectsOf(ConnectionRecovered, held)|
                      + |SubjectsOf(RankingChanged, held)|
  {
    if held != [] {
      assert held[|held| - 1].kind != DailySummary;
      CountsAddUp(held[..|held| - 1]);
    }
  }

  /** The buffered total is always the sum of the three buckets' counts. */
  lemma TotalIsTheSum(filter: Filter, limit: nat, run: seq<Attempt>)
    ensures var b := DeskAfter(filter, limit, run).quiet;
            b.total == b.failed.count + b.recovered.count + b.ranking.count
  {
    BufferIsWhatIsHeld(filter, limit, run);
    CountsAddUp(Held(filter, limit, run));
  }

  function LineTotal(lines: seq<Line>): nat {
    if lines == [] then 0 else LineTotal(lines[..|lines| - 1]) + Last(lines).count
  }

  lemma LineTotalAppends(lines: seq<Line>, kind: Kind, b: Bucket)
    ensures LineTotal(lines + BucketLine(kind, b)) == LineTotal(lines) + b.count
  {
    var all := lines + BucketLine(kind, b);
    if b.count == 0 {
      assert all == lines;
    } else {
      assert all[..|lines|] == lines;
    }
  }

  /** A message goes out with a summary exactly when something is held, and the summary then accounts for
      each held event, in its total and in its lines. */
  lemma SummaryAccountsForTheHeld(filter: Filter, limit: nat, run: seq<Attempt>)
    requires run != [] && LastDecision(filter, limit, run).Send?
    ensures var held := Held(filter, limit, run[..|run| - 1]);
            var summary := LastDecision(filter, limit, run).quietSummary;
            && (summary.None? <==> held == [])
            && (summary.Some? ==> summary.value.total == |held| == LineTotal(summary.value.lines))
  {
    hide LetsThrough, Stamped, BucketOf, SubjectsOf, BucketLine;
    var earlier := run[..|run| - 1];
    var b := DeskAfter(filter, limit, earlier).quiet;
    BufferIsWhatIsHeld(filter, limit, earlier);
    TotalIsTheSum(filter, limit, earlier);
    var none: seq<Line> := [];
    var first := BucketLine(ConnectionFailed, b.failed);
    LineTotalAppends(none, ConnectionFailed, b.failed);
    assert none + first == first;
    LineTotalAppends(first, ConnectionRecovered, b.recovered);
    LineTotalAppends(first + BucketLine(ConnectionRecovered, b.recovered), RankingChanged, b.ranking);
  }

  function PlaceOf(kind: Kind): nat {
    match kind
    case ConnectionFailed => 0
    case ConnectionRecovered => 1
    case RankingChanged => 2
    case DailySummary => 3
  }

  /** One line for each kind held, failures before recoveries before rankings, with how many of that kind are held
      and the first three distinct names. */
  ghost predicate TellsHeld(lines: seq<Line>, held: seq<Attempt>) {
    && (forall i | 0 <= i < |lines| ::
          var subjects := SubjectsOf(lines[i].kind, held);
          subjects != [] && lines[i].count == |subjects| && lines[i].names == Preview(subjects))
    && (forall kind: Kind | kind != DailySummary && SubjectsOf(kind, held) != [] :: HasLine(lines, kind))
    && (forall i, j | 0 <= i < j < |lines| :: PlaceOf(lines[i].kind) < PlaceOf(lines[j].kind) < 3)
  }

  ghost predicate HasLine(lines: seq<Line>, kind: Kind) {
    exists i :: 0 <= i < |lines| && lines[i].kind == kind
  }

  lemma LinesTellHeld(held: seq<Attempt>)
    requires held != []
    ensures Rendered(BufferOf(held)).Some? && TellsHeld(Rendered(BufferOf(held)).value.lines, held)
  {
    hide SubjectsOf, Preview;
    var b := BufferOf(held);
    var failed := BucketLine(ConnectionFailed, b.failed);
    var recovered := BucketLine(ConnectionRecovered, b.recovered);
    var ranking := BucketLine(RankingChanged, b.ranking);
    var lines := failed + recovered + ranking;
    forall kind: Kind | kind != DailySummary && SubjectsOf(kind, held) != [] ensures HasLine(lines, kind) {
      match kind {
        case ConnectionFailed => assert lines[0].kind == kind;
        case ConnectionRecovered => assert lines[|failed|].kind == kind;
        case RankingChanged => assert lines[|failed| + |recovered|].kind == kind;
        case _ =>
      }
    }
  }

  /** A summary tells each kind held in a line of its own, with its count and its first three names. */
  lemma SummaryTellsTheHeld(filter: Filter, limit: nat, run: seq<Attempt>)
    requires run != [] && LastDecision(filter, limit, run).Send? && Held(filter, limit, run[..|run| - 1]) != []
    ensures LastDecision(filter, limit, run).quietSummary.Some?
    ensures TellsHeld(LastDecision(filter, limit, run).quietSummary.value.lines, Held(filter, limit, run[..|run| - 1]))
  {
    hide TellsHeld, LetsThrough, BufferOf, Rendered;
    BufferIsWhatIsHeld(filter, limit, run[..|run| - 1]);
    LinesTellHeld(Held(filter, limit, run[..|run| - 1]));
  }

  // ------------------------------------------------------------- quiet hours

  /** The rules in terms of what was asked for: the kind is enabled, and the spacing of its key admits it now. */
  predicate MayPass(filter: Filter, limit: nat, run: seq<Attempt>)
    requires run != []
  {
    var earlier, a := run[..|run| - 1], Last(run);
    Allows(filter, a.kind) && Accepts(limit, Admitted(limit, Asked(filter, a.key, earlier)), a.now)
  }

  lemma PassesByTheRules(filter: Filter, limit: nat, run: seq<Attempt>)
    requires run != []
    ensures Passes(LastDecision(filter, limit, run)) <==> MayPass(filter, limit, run)
  {
    hide Admitted, Rendered, DeskAfter, Asked;
    var earlier, a := run[..|run| - 1], Last(run);
    LimiterIsPerKey(filter, limit, a.key, earlier);
  }

  /** The attempts that the rules let pass. */
  function Passing(filter: Filter, limit: nat, run: seq<Attempt>): seq<Attempt> {
    if run == [] then []
    else Passing(filter, limit, run[..|run| - 1]) + if MayPass(filter, limit, run) then [Last(run)] else []
  }

  function SentOnes(filter: Filter, limit: nat, run: seq<Attempt>): seq<Attempt> {
    if run == [] then []
    else
      SentOnes(filter, limit, run[..|run| - 1])
      + if LastDecision(filter, limit, run).Send? then [Last(run)] else []
  }

  /** Of these attempts, those that came in quiet time and are no daily summary, or the others. */
  function Split(attempts: seq<Attempt>, quiet: bool): seq<Attempt> {
    if attempts == [] then []
    else
      var a := Last(attempts);
      Split(attempts[..|attempts| - 1], quiet)
      + if (a.quietTime && a.kind != DailySummary) == quiet then [a] else []
  }

  lemma SplitStep(attempts: seq<Attempt>, a: Attempt, quiet: bool)
    ensures Split(attempts + [a], quiet)
         == Split(attempts, quiet) + if (a.quietTime && a.kind != DailySummary) == quiet then [a] else []
  {
    assert (attempts + [a])[..|attempts|] == attempts;
  }

  /** In every run, of what the rules let pass, exactly the attempts in quiet time other than daily summaries are
      kept back, and exactly the others are sent, each in order. */
  lemma {:induction false} QuietHoursDecide(filter: Filter, limit: nat, run: seq<Attempt>)
    ensures Quieted(filter, limit, run) == Split(Passing(filter, limit, run), true)
    ensures SentOnes(filter, limit, run) == Split(Passing(filter, limit, run), false)
    ensures |SentOnes(filter, limit, run)| == Sent(filter, limit, run)
  {
    hide MayPass, Split, DeskAfter, LetsThrough, Rendered;
    if run == [] {
      NoneSplit();
    } else {
      var a := Last(run);
      QuietHoursDecide(filter, limit, run[..|run| - 1]);
      PassesByTheRules(filter, limit, run);
      var passing := Passing(filter, limit, run[..|run| - 1]);
      SplitStep(passing, a, true);
      SplitStep(passing, a, false);
      assert passing + [] == passing;
      assert Split(passing, true) + [] == Split(passing, true) && Split(passing, false) + [] == Split(passing, false);
    }
  }

  lemma NoneSplit()
    ensures Split([], true) == [] == Split([], false)
  {
  }

  lemma {:induction false} SplitOnes(attempts: seq<Attempt>, quiet: bool)
    ensures forall i | 0 <= i < |Split(attempts, quiet)| ::
              var a := Split(attempts, quiet)[i]; (a.quietTime && a.kind != DailySummary) == quiet
  {
    if attempts != [] {
      SplitOnes(attempts[..|attempts| - 1], quiet);
    }
  }

  /** So only a daily summary leaves in quiet time, and nothing is buffered outside it. */
  lemma QuietTimeIsQuiet(filter: Filter, limit: nat, run: seq<Attempt>)
    ensures forall i | 0 <= i < |SentOnes(filter, limit, run)| ::
              var a := SentOnes(filter, limit, run)[i]; a.quietTime ==> a.kind == DailySummary
    ensures forall i | 0 <= i < |Quieted(filter, limit, run)| ::
              var a := Quieted(filter, limit, run)[i]; a.quietTime && a.kind != DailySummary
  {
    hide Split;
    QuietHoursDecide(filter, limit, run);
    SplitOnes(Passing(filter, limit, run), true);
    SplitOnes(Passing(filter, limit, run), false);
  }

  /** No buffered event is lost or told twice: those reported and those still held are, in order, all that
      quiet hours kept back. */
  lemma {:induction false} QuietedAreFlushedOrHeld(filter: Filter, limit: nat, run: seq<Attempt>)
    ensures Flushed(filter, limit, run) + Held(filter, limit, run) == Quieted(filter, limit, run)
  {
    hide LastDecision;
    if run != [] {
      QuietedAreFlushedOrHeld(filter, limit, run[..|run| - 1]);
    }
  }

  lemma {:induction false} TotalsMatch(filter: Filter, limit: nat, run: seq<Attempt>)
    ensures Summarised(filter, limit, run) == |Flushed(filter, limit, run)|
    ensures Passed(filter, limit, run) == Sent(filter, limit, run) + |Quieted(filter, limit, run)|
  {
    hide LastDecision, Held;
    if run != [] {
      TotalsMatch(filter, limit, run[..|run| - 1]);
      if LastDecision(filter, limit, run).Send? {
        SummaryAccountsForTheHeld(filter, limit, run);
      }
    }
  }

  /** Conservation: what passes the filter and the limiter is what was sent, what sent summaries counted, and
      what the buffer counts. */
  lemma EventsAreConserved(filter: Filter, limit: nat, run: seq<Attempt>)
    ensures Passed(filter, limit, run)
         == Sent(filter, limit, run) + Summarised(filter, limit, run) + DeskAfter(filter, limit, run).quiet.total
  {
    hide LastDecision;
    TotalsMatch(filter, limit, run);
    QuietedAreFlushedOrHeld(filter, limit, run);
    BufferIsWhatIsHeld(filter, limit, run);
  }
}
