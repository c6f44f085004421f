/** The notifier's state: which notices are due, the per-key limiter and the quiet-hours buffer
    (src/notify.rs). Message texts are left out; a summary keeps the figures and names its text is made of. */
module Notifications {
  import opened Wrappers

  const QUIET_SUMMARY_PREVIEW_LIMIT: nat := 3

  datatype Kind = ConnectionFailed | ConnectionRecovered | RankingChanged | DailySummary

  // ---------------------------------------------------------- event filter

  datatype Choice =
    | AllEvents
    | ConnectionEvents
    | ConnectionFailedEvents
    | ConnectionRecoveredEvents
    | RankingEvents
    | RankingChangedEvents
    | DailyEvents
    | DailySummaryEvents

  datatype Filter = Filter(connectionFailed: bool, connectionRecovered: bool, rankingChanged: bool, dailySummary: bool)

  const EVERYTHING := Filter(true, true, true, true)
  const NOTHING := Filter(false, false, false, false)

  predicate Allows(f: Filter, kind: Kind) {
    match kind
    case ConnectionFailed => f.connectionFailed
    case ConnectionRecovered => f.connectionRecovered
    case RankingChanged => f.rankingChanged
    case DailySummary => f.dailySummary
  }

  /** The kinds an option on the command line stands for. */
  predicate Selects(c: Choice, kind: Kind) {
    match c
    case AllEvents => true
    case ConnectionEvents => kind == ConnectionFailed || kind == ConnectionRecovered
    case ConnectionFailedEvents => kind == ConnectionFailed
    case ConnectionRecoveredEvents => kind == ConnectionRecovered
    case RankingEvents => kind == RankingChanged
    case RankingChangedEvents => kind == RankingChanged
    case DailyEvents => kind == DailySummary
    case DailySummaryEvents => kind == DailySummary
  }

  ghost predicate AnySelects(choices: seq<Choice>, kind: Kind) {
    exists i :: 0 <= i < |choices| && Selects(choices[i], kind)
  }

  lemma AnySelectsStep(choices: seq<Choice>, c: Choice, kind: Kind)
    ensures AnySelects(choices + [c], kind) <==> AnySelects(choices, kind) || Selects(c, kind)
  {
    var all := choices + [c];
    assert all[|choices|] == c;
    if AnySelects(choices, kind) {
      var i :| 0 <= i < |choices| && Selects(choices[i], kind);
      assert all[i] == choices[i];
    }
  }

  /** Some option given is one of `options`. */
  ghost predicate Given(choices: seq<Choice>, options: set<Choice>) {
    exists c :: c in choices && c in options
  }

  lemma GivenSelects(choices: seq<Choice>)
    ensures AnySelects(choices, ConnectionFailed)
       <==> Given(choices, {AllEvents, ConnectionEvents, ConnectionFailedEvents})
    ensures AnySelects(choices, ConnectionRecovered)
       <==> Given(choices, {AllEvents, ConnectionEvents, ConnectionRecoveredEvents})
    ensures AnySelects(choices, RankingChanged) <==> Given(choices, {AllEvents, RankingEvents, RankingChangedEvents})
    ensures AnySelects(choices, DailySummary) <==> Given(choices, {AllEvents, DailyEvents, DailySummaryEvents})
  {
    SelectedBy(choices, ConnectionFailed, {AllEvents, ConnectionEvents, ConnectionFailedEvents});
    SelectedBy(choices, ConnectionRecovered, {AllEvents, ConnectionEvents, ConnectionRecoveredEvents});
    SelectedBy(choices, RankingChanged, {AllEvents, RankingEvents, RankingChangedEvents});
    SelectedBy(choices, DailySummary, {AllEvents, DailyEvents, DailySummaryEvents});
  }

  lemma SelectedBy(choices: seq<Choice>, kind: Kind, options: set<Choice>)
    requires forall c :: Selects(c, kind) <==> c in options
    ensures AnySelects(choices, kind) <==> Given(choices, options)
  {
    if c :| c in choices && c in options {
      var i :| 0 <= i < |choices| && choices[i] == c;
      assert Selects(choices[i], kind);
    }
  }

  /** No option at all enables every kind; otherwise a kind is enabled by the options that name it. */
  method FilterFromOpts(choices: seq<Choice>) returns (f: Filter)
    ensures forall kind: Kind :: Allows(f, kind) <==> choices == [] || AnySelects(choices, kind)
    ensures var none := choices == [];
            && f.connectionFailed == (none || Given(choices, {AllEvents, ConnectionEvents, ConnectionFailedEvents}))
            && f.connectionRecovered
               == (none || Given(choices, {AllEvents, ConnectionEvents, ConnectionRecoveredEvents}))
            && f.rankingChanged == (none || Given(choices, {AllEvents, RankingEvents, RankingChangedEvents}))
            && f.dailySummary == (none || Given(choices, {AllEvents, DailyEvents, DailySummaryEvents}))
  {
    hide Given;
    if choices == [] {
      return EVERYTHING;
    }
    f := NOTHING;
    for i := 0 to |choices|
      invariant forall kind: Kind :: Allows(f, kind) <==> AnySelects(choices[..i], kind)
    {
      ghost var before := f;
      match choices[i] {
        case AllEvents => f := EVERYTHING;
        case ConnectionEvents => f := f.(connectionFailed := true, connectionRecovered := true);
        case ConnectionFailedEvents => f := f.(connectionFailed := true);
        case ConnectionRecoveredEvents => f := f.(connectionRecovered := true);
        case RankingEvents => f := f.(rankingChanged := true);
        case RankingChangedEvents => f := f.(rankingChanged := true);
        case DailyEvents => f := f.(dailySummary := true);
        case DailySummaryEvents => f := f.(dailySummary := true);
      }
      assert choices[..i + 1] == choices[..i] + [choices[i]];
      forall kind: Kind ensures Allows(f, kind) <==> AnySelects(choices[..i + 1], kind) {
        AnySelectsStep(choices[..i], choices[i], kind);
        assert Allows(f, kind) <==> Allows(before, kind) || Selects(choices[i], kind);
      }
    }
    assert choices[..|choices|] == choices;
    GivenSelects(choices);
    assert Allows(f, ConnectionFailed) == f.connectionFailed;
    assert Allows(f, ConnectionRecovered) == f.connectionRecovered;
    assert Allows(f, RankingChanged) == f.rankingChanged;
    assert Allows(f, DailySummary) == f.dailySummary;
  }

  // ---------------------------------------------------------- quiet buffer

  datatype Bucket = Bucket(count: nat, names: seq<string>)

  datatype Buffer = Buffer(total: nat, failed: Bucket, recovered: Bucket, ranking: Bucket)

  const EMPTY_BUFFER := Buffer(0, Bucket(0, []), Bucket(0, []), Bucket(0, []))

  datatype Line = Line(kind: Kind, count: nat, names: seq<string>)

  datatype Summary = Summary(total: nat, lines: seq<Line>)

  function Noted(b: Bucket, name: string): Bucket {
    Bucket(b.count + 1,
           if |b.names| >= QUIET_SUMMARY_PREVIEW_LIMIT || name in b.names then b.names else b.names + [name])
  }

  function Buffered(b: Buffer, kind: Kind, subject: string): Buffer {
    match kind
    case ConnectionFailed => b.(total := b.total + 1, failed := Noted(b.failed, subject))
    case ConnectionRecovered => b.(total := b.total + 1, recovered := Noted(b.recovered, subject))
    case RankingChanged => b.(total := b.total + 1, ranking := Noted(b.ranking, subject))
    case DailySummary => b.(total := b.total + 1)
  }

  function BucketLine(kind: Kind, b: Bucket): seq<Line> {
    if b.count == 0 then [] else [Line(kind, b.count, b.names)]
  }

  function Rendered(b: Buffer): Option<Summary> {
    if b.total == 0 then None
    else Some(Summary(b.total, BucketLine(ConnectionFailed, b.failed)
                               + BucketLine(ConnectionRecovered, b.recovered)
                               + BucketLine(RankingChanged, b.ranking)))
  }

  class QuietSummaryBucket {
    var count: nat
    var names: seq<string>

    function Value(): Bucket
      reads this
    {
      Bucket(count, names)
    }

    constructor ()
      ensures Value() == Bucket(0, [])
    {
      count, names := 0, [];
    }

    method Record(name: string)
      modifies this
      ensures Value() == Noted(old(Value()), name)
    {
      count := count + 1;
      if |names| >= QUIET_SUMMARY_PREVIEW_LIMIT || name in names {
        return;
      }
      names := names + [name];
    }

    method Clear()
      modifies this
      ensures Value() == Bucket(0, [])
    {
      count, names := 0, [];
    }
  }

  class QuietSummaryBuffer {
    var totalCount: nat
    const connectionFailed: QuietSummaryBucket
    const connectionRecovered: QuietSummaryBucket
    const rankingChanged: QuietSummaryBucket

    ghost predicate Valid() {
      && connectionFailed != connectionRecovered
      && connectionRecovered != rankingChanged
      && rankingChanged != connectionFailed
    }

    function Value(): Buffer
      reads this, connectionFailed, connectionRecovered, rankingChanged
    {
      Buffer(totalCount, connectionFailed.Value(), connectionRecovered.Value(), rankingChanged.Value())
    }

    constructor ()
      ensures Valid() && fresh(connectionFailed) && fresh(connectionRecovered) && fresh(rankingChanged)
      ensures Value() == EMPTY_BUFFER
    {
      totalCount := 0;
      connectionFailed := new QuietSummaryBucket();
      connectionRecovered := new QuietSummaryBucket();
      rankingChanged := new QuietSummaryBucket();
    }

    method Record(kind: Kind, subject: string)
      requires Valid()
      modifies this, connectionFailed, connectionRecovered, rankingChanged
      ensures Value() == Buffered(old(Value()), kind, subject)
    {
      totalCount := totalCount + 1;
      match kind
      case ConnectionFailed => connectionFailed.Record(subject);
      case ConnectionRecovered => connectionRecovered.Record(subject);
      case RankingChanged => rankingChanged.Record(subject);
      case DailySummary =>
    }

    method TakeSnapshot() returns (r: Option<Summary>)
      requires Valid()
      modifies this, connectionFailed, connectionRecovered, rankingChanged
      ensures r == Rendered(old(Value())) && Value() == EMPTY_BUFFER
    {
      if totalCount == 0 {
        r := None;
      } else {
        var lines := BucketLine(ConnectionFailed, connectionFailed.Value());
        lines := lines + BucketLine(ConnectionRecovered, connectionRecovered.Value());
        lines := lines + BucketLine(RankingChanged, rankingChanged.Value());
        r := Some(Summary(totalCount, lines));
      }
      totalCount := 0;
      connectionFailed.Clear();
      connectionRecovered.Clear();
      rankingChanged.Clear();
    }
  }

  // --------------------------------------------------- notices that are due

  datatype ConnectionState = Healthy | Unhealthy

  datatype RankingChange = RankingChange(previous: int, current: int)

  /** Whether an observation of `key` is worth a notice, given what was last seen of it. */
  predicate IsNews(states: map<string, ConnectionState>, key: string, seen: ConnectionState) {
    match seen
    case Unhealthy => !(key in states && states[key] == Unhealthy)
    case Healthy => key in states && states[key] == Unhealthy
  }

  function PlannedChange(rankings: map<string, int>, nodeId: string, ranking: int): Option<RankingChange> {
    if ranking <= 0 || nodeId !in rankings || rankings[nodeId] <= 0 || rankings[nodeId] == ranking then None
    else Some(RankingChange(rankings[nodeId], ranking))
  }

  function Ranked(rankings: map<string, int>, nodeId: string, ranking: int): map<string, int> {
    if ranking <= 0 then rankings else rankings[nodeId := ranking]
  }

  // -------------------------------------------------------------- delivery

  function ConnectionKey(name: string, url: string): string {
    name + "@" + url
  }

  function LimitKey(kind: Kind, name: string): string {
    (match kind
     case ConnectionFailed => "connection-failed:"
     case ConnectionRecovered => "connection-recovered:"
     case RankingChanged => "ranking-changed:"
     case DailySummary => "daily-summary:") + name
  }

  /** What delivery depends on: when each key was last let through, and the quiet buffer. */
  datatype Desk = Desk(lastSentAt: map<string, nat>, quiet: Buffer)

  const NEW_DESK := Desk(map[], EMPTY_BUFFER)

  /** One message offered for delivery; `change` is what a ranking message tells. */
  datatype Attempt = Attempt(
    kind: Kind,
    key: string,
    subject: string,
    change: Option<RankingChange>,
    now: nat,
    quietTime: bool)

  datatype Decision =
    | Disabled
    | SuppressedByRateLimit
    | SuppressedByQuietHours
    | Send(quietSummary: Option<Summary>)

  /** `saturating_duration_since`: a clock reading before the last one counts as no time passed. */
  predicate LetsThrough(lastSentAt: map<string, nat>, key: string, now: nat, limit: nat) {
    limit == 0
    || key !in lastSentAt
    || (if now > lastSentAt[key] then now - lastSentAt[key] else 0) >= limit
  }

  function Stamped(lastSentAt: map<string, nat>, key: string, now: nat, limit: nat): map<string, nat> {
    if limit != 0 && LetsThrough(lastSentAt, key, now, limit) then lastSentAt[key := now] else lastSentAt
  }

  function Decide(filter: Filter, limit: nat, d: Desk, a: Attempt): Decision {
    if !Allows(filter, a.kind) then Disabled
    else if !LetsThrough(d.lastSentAt, a.key, a.now, limit) then SuppressedByRateLimit
    else if a.kind != DailySummary && a.quietTime then SuppressedByQuietHours
    else Send(Rendered(d.quiet))
  }

  function Decided(filter: Filter, limit: nat, d: Desk, a: Attempt): Desk {
    if !Allows(filter, a.kind) then d
    else
      Desk(Stamped(d.lastSentAt, a.key, a.now, limit),
           match Decide(filter, limit, d, a)
           case SuppressedByQuietHours => Buffered(d.quiet, a.kind, a.subject)
           case Send(_) => EMPTY_BUFFER
           case _ => d.quiet)
  }

  class NotificationState {
    var connectionStates: map<string, ConnectionState>
    var lastRankings: map<string, int>
    var lastSentAt: map<string, nat>
    const quietSummary: QuietSummaryBuffer

    ghost predicate Valid() {
      quietSummary.Valid()
    }

    ghost function Footprint(): set<object> {
      {this, quietSummary, quietSummary.connectionFailed, quietSummary.connectionRecovered, quietSummary.rankingChanged}
    }

    ghost function Delivery(): Desk
      reads Footprint()
    {
      Desk(lastSentAt, quietSummary.Value())
    }

    constructor ()
      ensures Valid() && fresh(Footprint())
      ensures connectionStates == map[] && lastRankings == map[] && Delivery() == NEW_DESK
    {
      connectionStates, lastRankings, lastSentAt := map[], map[], map[];
      quietSummary := new QuietSummaryBuffer();
    }

    method MarkConnectionFailed(key: string) returns (due: bool)
      modifies this`connectionStates
      ensures due == IsNews(old(connectionStates), key, Unhealthy)
      ensures connectionStates == old(connectionStates)[key := Unhealthy]
    {
      due := !(key in connectionStates && connectionStates[key] == Unhealthy);
      connectionStates := connectionStates[key := Unhealthy];
    }

    method MarkConnectionRecovered(key: string) returns (due: bool)
      modifies this`connectionStates
      ensures due == IsNews(old(connectionStates), key, Healthy)
      ensures connectionStates == old(connectionStates)[key := Healthy]
    {
      due := key in connectionStates && connectionStates[key] == Unhealthy;
      connectionStates := connectionStates[key := Healthy];
    }

    method PlanRankingChange(nodeId: string, ranking: int) returns (change: Option<RankingChange>)
      modifies this`lastRankings
      ensures change == PlannedChange(old(lastRankings), nodeId, ranking)
      ensures lastRankings == Ranked(old(lastRankings), nodeId, ranking)
    {
      if ranking <= 0 {
        return None;
      }
      var known := nodeId in lastRankings;
      var previous := if known then lastRankings[nodeId] else 0;
      lastRankings := lastRankings[nodeId := ranking];
      if previous <= 0 || previous == ranking {
        return None;
      }
      return Some(RankingChange(previous, ranking));
    }

    method AllowDelivery(key: string, now: nat, limit: nat) returns (allowed: bool)
      modifies this`lastSentAt
      ensures allowed == LetsThrough(old(lastSentAt), key, now, limit)
      ensures lastSentAt == Stamped(old(lastSentAt), key, now, limit)
    {
      if limit == 0 {
        return true;
      }
      if key in lastSentAt {
        var elapsed := if now > lastSentAt[key] then now - lastSentAt[key] else 0;
        if elapsed < limit {
          return false;
        }
      }
      lastSentAt := lastSentAt[key := now];
      return true;
    }
  }

  class TelegramNotifier {
    const filter: Filter
    const rateLimit: nat
    const state: NotificationState

    constructor (filter: Filter, rateLimit: nat)
      ensures this.filter == filter && this.rateLimit == rateLimit
      ensures fresh(state.Footprint()) && state.Valid()
      ensures state.connectionStates == map[] && state.lastRankings == map[] && state.Delivery() == NEW_DESK
    {
      this.filter, this.rateLimit := filter, rateLimit;
      state := new NotificationState();
    }

    /** Up to the point where messages leave for the network. */
    method SendIfEnabled(a: Attempt) returns (decision: Decision)
      requires state.Valid()
      modifies state.Footprint()
      ensures decision == Decide(filter, rateLimit, old(state.Delivery()), a)
      ensures state.Delivery() == Decided(filter, rateLimit, old(state.Delivery()), a)
      ensures state.connectionStates == old(state.connectionStates) && state.lastRankings == old(state.lastRankings)
    {
      if !Allows(filter, a.kind) {
        return Disabled;
      }
      var quietHoursEnabled := a.kind != DailySummary;
      var allowed := state.AllowDelivery(a.key, a.now, rateLimit);
      if !allowed {
        decision := SuppressedByRateLimit;
      } else if quietHoursEnabled && a.quietTime {
        state.quietSummary.Record(a.kind, a.subject);
        decision := SuppressedByQuietHours;
      } else {
        var summary := state.quietSummary.TakeSnapshot();
        decision := Send(summary);
      }
    }

    /** Announces a failure unless the connection is already known to be down. */
    method NotifyNodeConnectionFailed(name: string, url: string, subject: string, now: nat, quietTime: bool)
      returns (decision: Option<Decision>)
      requires state.Valid()
      modifies state.Footprint()
      ensures var key := ConnectionKey(name, url);
              && state.connectionStates == old(state.connectionStates)[key := Unhealthy]
              && state.lastRankings == old(state.lastRankings)
              && var a := Attempt(ConnectionFailed, LimitKey(ConnectionFailed, key), subject, None, now, quietTime);
              && decision == (if IsNews(old(state.connectionStates), key, Unhealthy)
                              then Some(Decide(filter, rateLimit, old(state.Delivery()), a)) else None)
              && state.Delivery() == (if decision.Some? then Decided(filter, rateLimit, old(state.Delivery()), a)
                                      else old(state.Delivery()))
    {
      hide Decide, Decided;
      var key := ConnectionKey(name, url);
      var due := state.MarkConnectionFailed(key);
      if !due {
        return None;
      }
      var a := Attempt(ConnectionFailed, LimitKey(ConnectionFailed, key), subject, None, now, quietTime);
      var d := SendIfEnabled(a);
      decision := Some(d);
    }

    /** Announces a recovery only of a connection known to be down. */
    method NotifyNodeConnectionRecovered(name: string, url: string, subject: string, now: nat, quietTime: bool)
      returns (decision: Option<Decision>)
      requires state.Valid()
      modifies state.Footprint()
      ensures var key := ConnectionKey(name, url);
              var limitKey := LimitKey(ConnectionRecovered, key);
              && state.connectionStates == old(state.connectionStates)[key := Healthy]
              && state.lastRankings == old(state.lastRankings)
              && var a := Attempt(ConnectionRecovered, limitKey, subject, None, now, quietTime);
              && decision == (if IsNews(old(state.connectionStates), key, Healthy)
                              then Some(Decide(filter, rateLimit, old(state.Delivery()), a)) else None)
              && state.Delivery() == (if decision.Some? then Decided(filter, rateLimit, old(state.Delivery()), a)
                                      else old(state.Delivery()))
    {
      hide Decide, Decided;
      var key := ConnectionKey(name, url);
      var due := state.MarkConnectionRecovered(key);
      if !due {
        return None;
      }
      var a := Attempt(ConnectionRecovered, LimitKey(ConnectionRecovered, key), subject, None, now, quietTime);
      var d := SendIfEnabled(a);
      decision := Some(d);
    }

    /** Announces a move from one positive ranking to another. */
    method NotifyNodeRankingChange(nodeId: string, subject: string, ranking: int, now: nat, quietTime: bool)
      returns (decision: Option<Decision>)
      requires state.Valid()
      modifies state.Footprint()
      ensures state.lastRankings == Ranked(old(state.lastRankings), nodeId, ranking)
      ensures state.connectionStates == old(state.connectionStates)
      ensures var change := PlannedChange(old(state.lastRankings), nodeId, ranking);
              var a := Attempt(RankingChanged, LimitKey(RankingChanged, nodeId), subject, change, now, quietTime);
              && decision == (if change.Some?
                              then Some(Decide(filter, rateLimit, old(state.Delivery()), a)) else None)
              && state.Delivery() == (if decision.Some? then Decided(filter, rateLimit, old(state.Delivery()), a)
                                      else old(state.Delivery()))
    {
      hide Decide, Decided;
      var change := state.PlanRankingChange(nodeId, ranking);
      if change.None? {
        return None;
      }
      var a := Attempt(RankingChanged, LimitKey(RankingChanged, nodeId), subject, change, now, quietTime);
      var d := SendIfEnabled(a);
      decision := Some(d);
    }
  }
}
