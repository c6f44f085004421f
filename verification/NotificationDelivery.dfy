/** Observation and delivery together. One task per configured connection notes what it saw under one lock and
    offers the notice under another; one task does the same with rankings; the daily report comes in between
    (src/notify.rs, src/collect/collector.rs, src/collect/node_state.rs, src/collect/node_detail.rs). */
module NotificationDelivery {
  import opened Ordering
  import opened Wrappers
  import opened Streams
  import opened RateLimit
  import opened Notifications
  import opened NotificationTraces

  /** `urls` holds the connection each task watches; nothing keeps an entry from being repeated. */
  datatype Config = Config(urls: seq<string>, filter: Filter, limit: nat)

  datatype PendingChange = PendingChange(nodeId: string, change: RankingChange)

  /** `due` and `rankDue` hold the notices that tasks have yet to offer; the last three components record what
      happened. */
  datatype State = State(
    states: map<string, ConnectionState>,
    due: map<nat, ConnectionState>,
    rankings: map<string, int>,
    rankDue: Option<PendingChange>,
    desk: Desk,
    obs: seq<Observation>,
    standings: seq<Standing>,
    run: seq<Attempt>)

  const START := State(map[], map[], map[], None, NEW_DESK, [], [], [])

  datatype Event =
    | Observes(task: nat, seen: ConnectionState)
    | Offers(task: nat, subject: string, now: nat, quietTime: bool)
    | Ranks(nodeId: string, ranking: int)
    | OffersRanking(subject: string, now: nat, quietTime: bool)
    | OffersDaily(date: string, now: nat, quietTime: bool)

  function KindOf(seen: ConnectionState): Kind {
    match seen
    case Unhealthy => ConnectionFailed
    case Healthy => ConnectionRecovered
  }

  /** A task awaits its notice before it looks again. */
  predicate Enabled(c: Config, s: State, e: Event) {
    match e
    case Observes(task, _) => task < |c.urls| && task !in s.due
    case Offers(task, _, _, _) => task < |c.urls| && task in s.due
    case Ranks(_, _) => s.rankDue.None?
    case OffersRanking(_, _, _) => s.rankDue.Some?
    case OffersDaily(_, _, _) => true
  }

  predicate IsOffer(e: Event) {
    e.Offers? || e.OffersRanking? || e.OffersDaily?
  }

  function ConnectionAttempt(seen: ConnectionState, key: string, subject: string, now: nat, quietTime: bool): Attempt {
    Attempt(KindOf(seen), LimitKey(KindOf(seen), key), subject, None, now, quietTime)
  }

  function AttemptOf(c: Config, s: State, e: Event): Attempt
    requires Enabled(c, s, e) && IsOffer(e)
  {
    match e
    case Offers(task, subject, now, quietTime) =>
      ConnectionAttempt(s.due[task], c.urls[task], subject, now, quietTime)
    case OffersRanking(subject, now, quietTime) =>
      var p := s.rankDue.value;
      Attempt(RankingChanged, LimitKey(RankingChanged, p.nodeId), subject, Some(p.change), now, quietTime)
    case OffersDaily(date, now, quietTime) =>
      Attempt(DailySummary, LimitKey(DailySummary, date), date, None, now, quietTime)
  }

  function Planned(s: State, nodeId: string, ranking: int): Option<PendingChange> {
    match PlannedChange(s.rankings, nodeId, ranking)
    case Some(change) => Some(PendingChange(nodeId, change))
    case None => None
  }

  function Observed(c: Config, s: State, task: nat, seen: ConnectionState): State
    requires task < |c.urls|
  {
    var key := c.urls[task];
    s.(states := s.states[key := seen],
       due := if IsNews(s.states, key, seen) then s.due[task := seen] else s.due,
       obs := s.obs + [Observation(key, seen)])
  }

  function Next(c: Config, s: State, e: Event): State
    requires Enabled(c, s, e)
  {
    match e
    case Observes(task, seen) => Observed(c, s, task, seen)
    case Ranks(nodeId, ranking) =>
      s.(rankings := Ranked(s.rankings, nodeId, ranking),
         rankDue := Planned(s, nodeId, ranking),
         standings := s.standings + [Standing(nodeId, ranking)])
    case _ =>
      var a := AttemptOf(c, s, e);
      s.(desk := Decided(c.filter, c.limit, s.desk, a),
         due := if e.Offers? then s.due - {e.task} else s.due,
         rankDue := if e.OffersRanking? then None else s.rankDue,
         run := s.run + [a])
  }

  predicate Valid(c: Config, s: State, es: seq<Event>)
    decreases |es|
  {
    es == [] || (Enabled(c, s, es[0]) && Valid(c, Next(c, s, es[0]), es[1..]))
  }

  function Run(c: Config, s: State, es: seq<Event>): State
    requires Valid(c, s, es)
    decreases |es|
  {
    if es == [] then s else Run(c, Next(c, s, es[0]), es[1..])
  }

  // ------------------------------------------------- offered and outstanding

  /** What was offered for delivery about one connection. */
  function Offered(key: string, run: seq<Attempt>): seq<ConnectionState> {
    if run == [] then []
    else
      var earlier, a := Offered(key, run[..|run| - 1]), Last(run);
      if a.kind == ConnectionFailed && a.key == LimitKey(ConnectionFailed, key) then earlier + [Unhealthy]
      else if a.kind == ConnectionRecovered && a.key == LimitKey(ConnectionRecovered, key) then earlier + [Healthy]
      else earlier
  }

  /** The notice about a connection that one task holds. */
  function HeldAt(urls: seq<string>, due: map<nat, ConnectionState>, key: string, task: nat): seq<ConnectionState>
    requires task < |urls|
  {
    if task in due && urls[task] == key then [due[task]] else []
  }

  /** The notices about a connection held by the first `n` tasks. */
  function HeldBy(urls: seq<string>, due: map<nat, ConnectionState>, key: string, n: nat): seq<ConnectionState>
    requires n <= |urls|
  {
    if n == 0 then [] else HeldBy(urls, due, key, n - 1) + HeldAt(urls, due, key, n - 1)
  }

  function Outstanding(c: Config, s: State, key: string): seq<ConnectionState> {
    HeldBy(c.urls, s.due, key, |c.urls|)
  }

  /** The changes that were offered for one node. */
  function OfferedChanges(nodeId: string, run: seq<Attempt>): seq<RankingChange> {
    if run == [] then []
    else
      var earlier, a := OfferedChanges(nodeId, run[..|run| - 1]), Last(run);
      if a.kind == RankingChanged && a.key == LimitKey(RankingChanged, nodeId) && a.change.Some?
      then earlier + [a.change.value]
      else earlier
  }

  function OutstandingChange(s: State, nodeId: string): seq<RankingChange> {
    if s.rankDue.Some? && s.rankDue.value.nodeId == nodeId then [s.rankDue.value.change] else []
  }

  ghost predicate KeyIsOfKind(a: Attempt) {
    exists name: string :: a.key == LimitKey(a.kind, name)
  }

  /** Every attempt uses the key of its own kind. */
  ghost predicate WellKeyed(run: seq<Attempt>) {
    forall i | 0 <= i < |run| :: KeyIsOfKind(run[i])
  }

  ghost predicate Recorded(c: Config, s: State) {
    && s.states == StatesAfter(s.obs)
    && s.rankings == RankingsAfter(s.standings)
    && s.desk == DeskAfter(c.filter, c.limit, s.run)
    && WellKeyed(s.run)
  }

  /** Each notice due about the connection was offered once or is held by a task. */
  ghost predicate Told(c: Config, s: State, key: string) {
    multiset(Offered(key, s.run)) + multiset(Outstanding(c, s, key)) == multiset(Notices(key, s.obs))
  }

  ghost predicate ToldInOrder(c: Config, s: State, key: string) {
    Offered(key, s.run) + Outstanding(c, s, key) == Notices(key, s.obs)
  }

  ghost predicate ChangesTold(s: State, nodeId: string) {
    OfferedChanges(nodeId, s.run) + OutstandingChange(s, nodeId) == Changes(nodeId, s.standings)
  }

  /** What an offer brings along: who it names, when, in quiet time or not, and whether it is the daily report. */
  datatype Mark = Mark(subject: string, now: nat, quietTime: bool, daily: bool)

  function MarkOf(e: Event): seq<Mark> {
    match e
    case Offers(_, subject, now, quietTime) => [Mark(subject, now, quietTime, false)]
    case OffersRanking(subject, now, quietTime) => [Mark(subject, now, quietTime, false)]
    case OffersDaily(date, now, quietTime) => [Mark(date, now, quietTime, true)]
    case _ => []
  }

  function MarksIn(es: seq<Event>): seq<Mark> {
    if es == [] then [] else MarkOf(es[0]) + MarksIn(es[1..])
  }

  function Marks(run: seq<Attempt>): seq<Mark> {
    seq(|run|, i requires 0 <= i < |run| =>
      Mark(run[i].subject, run[i].now, run[i].quietTime, run[i].kind == DailySummary))
  }

  lemma MarksStep(c: Config, s: State, e: Event)
    requires Enabled(c, s, e)
    ensures Marks(Next(c, s, e).run) == Marks(s.run) + MarkOf(e)
  {
    hide Decided, LimitKey, Planned, Ranked;
  }

  /** In every run the attempts are the offers made, in order, each with its own subject, clock and quiet hours. */
  lemma {:induction false} AttemptsAreTheOffers(c: Config, s: State, es: seq<Event>)
    requires Valid(c, s, es)
    ensures Marks(Run(c, s, es).run) == Marks(s.run) + MarksIn(es)
    decreases |es|
  {
    hide Enabled, Next, Marks, MarkOf;
    if es == [] {
      assert Marks(s.run) + [] == Marks(s.run);
    } else {
      MarksStep(c, s, es[0]);
      AttemptsAreTheOffers(c, Next(c, s, es[0]), es[1..]);
    }
  }

  /** No two tasks watch the connection. */
  ghost predicate WatchedOnce(urls: seq<string>, key: string) {
    forall i, j | 0 <= i < j < |urls| :: !(urls[i] == key && urls[j] == key)
  }

  // ------------------------------------------------------ one step's effect

  lemma NoticesStep(key: string, obs: seq<Observation>, o: Observation)
    ensures Notices(key, obs + [o])
         == Notices(key, obs) + if o.key == key && IsNews(StatesAfter(obs), key, o.seen) then [o.seen] else []
    ensures StatesAfter(obs + [o]) == StatesAfter(obs)[o.key := o.seen]
  {
    assert (obs + [o])[..|obs|] == obs;
  }

  lemma ChangesStep(nodeId: string, obs: seq<Standing>, o: Standing)
    ensures var change := PlannedChange(RankingsAfter(obs), o.nodeId, o.ranking);
            Changes(nodeId, obs + [o])
            == Changes(nodeId, obs) + if o.nodeId == nodeId && change.Some? then [change.value] else []
    ensures RankingsAfter(obs + [o]) == Ranked(RankingsAfter(obs), o.nodeId, o.ranking)
  {
    assert (obs + [o])[..|obs|] == obs;
  }

  lemma OfferedStep(key: string, run: seq<Attempt>, a: Attempt, name: string)
    requires a.key == LimitKey(a.kind, name)
    ensures Offered(key, run + [a])
         == Offered(key, run) + if name == key && a.kind == ConnectionFailed then [Unhealthy]
                                else if name == key && a.kind == ConnectionRecovered then [Healthy]
                                else []
  {
    hide LimitKey;
    assert (run + [a])[..|run|] == run;
    if a.key == LimitKey(ConnectionFailed, key) {
      LimitKeysNeverClash(a.kind, name, ConnectionFailed, key);
    }
    if a.key == LimitKey(ConnectionRecovered, key) {
      LimitKeysNeverClash(a.kind, name, ConnectionRecovered, key);
    }
  }

  lemma OfferedChangesStep(nodeId: string, run: seq<Attempt>, a: Attempt, name: string)
    requires a.key == LimitKey(a.kind, name)
    ensures OfferedChanges(nodeId, run + [a])
         == OfferedChanges(nodeId, run) + if name == nodeId && a.kind == RankingChanged && a.change.Some?
                                          then [a.change.value] else []
  {
    hide LimitKey;
    assert (run + [a])[..|run|] == run;
    if a.key == LimitKey(RankingChanged, nodeId) {
      LimitKeysNeverClash(a.kind, name, RankingChanged, nodeId);
    }
  }

  function NameOf(c: Config, s: State, e: Event): string
    requires Enabled(c, s, e) && IsOffer(e)
  {
    match e
    case Offers(task, _, _, _) => c.urls[task]
    case OffersRanking(_, _, _) => s.rankDue.value.nodeId
    case OffersDaily(date, _, _) => date
  }

  lemma AttemptIsKeyed(c: Config, s: State, e: Event)
    requires Enabled(c, s, e) && IsOffer(e)
    ensures var a := AttemptOf(c, s, e); a.key == LimitKey(a.kind, NameOf(c, s, e))
  {
    hide LimitKey;
  }

  lemma HeldAtMore(urls: seq<string>, due: map<nat, ConnectionState>, key: string, other: nat,
                   task: nat, seen: ConnectionState)
    requires other < |urls| && task < |urls| && task !in due
    ensures multiset(HeldAt(urls, due[task := seen], key, other))
         == multiset(HeldAt(urls, due, key, other))
            + if other == task && urls[task] == key then multiset{seen} else multiset{}
  {
  }

  lemma {:induction false} HeldMore(urls: seq<string>, due: map<nat, ConnectionState>, key: string, n: nat,
                                    task: nat, seen: ConnectionState)
    requires n <= |urls| && task < |urls| && task !in due
    ensures multiset(HeldBy(urls, due[task := seen], key, n))
         == multiset(HeldBy(urls, due, key, n)) + if task < n && urls[task] == key then multiset{seen} else multiset{}
  {
    hide HeldAt;
    if n > 0 {
      HeldMore(urls, due, key, n - 1, task, seen);
      HeldAtMore(urls, due, key, n - 1, task, seen);
    }
  }

  lemma {:induction false} HeldByNobody(urls: seq<string>, due: map<nat, ConnectionState>, key: string, n: nat)
    requires n <= |urls| && forall task | 0 <= task < n :: urls[task] != key || task !in due
    ensures HeldBy(urls, due, key, n) == []
  {
    if n > 0 {
      HeldByNobody(urls, due, key, n - 1);
    }
  }

  lemma {:induction false} HeldByOne(urls: seq<string>, due: map<nat, ConnectionState>, key: string, n: nat, task: nat)
    requires WatchedOnce(urls, key) && task < n <= |urls| && urls[task] == key
    ensures HeldBy(urls, due, key, n) == if task in due then [due[task]] else []
  {
    if task == n - 1 {
      HeldByNobody(urls, due, key, n - 1);
    } else {
      HeldByOne(urls, due, key, n - 1, task);
    }
  }

  lemma {:induction false} HeldBySame(urls: seq<string>, due: map<nat, ConnectionState>,
                                      later: map<nat, ConnectionState>, key: string, n: nat)
    requires n <= |urls|
    requires forall task | 0 <= task < n && urls[task] == key ::
               (task in due <==> task in later) && (task in due ==> due[task] == later[task])
    ensures HeldBy(urls, due, key, n) == HeldBy(urls, later, key, n)
  {
    if n > 0 {
      HeldBySame(urls, due, later, key, n - 1);
    }
  }

  // -------------------------------------------------------------- invariants

  lemma RecordedStep(c: Config, s: State, e: Event)
    requires Recorded(c, s) && Enabled(c, s, e)
    ensures Recorded(c, Next(c, s, e))
  {
    hide Decided, LimitKey, IsNews, PlannedChange, Ranked;
    match e {
      case Observes(task, seen) => NoticesStep("", s.obs, Observation(c.urls[task], seen));
      case Ranks(nodeId, ranking) => ChangesStep("", s.standings, Standing(nodeId, ranking));
      case _ =>
        var a := AttemptOf(c, s, e);
        AttemptIsKeyed(c, s, e);
        assert a.key == LimitKey(a.kind, NameOf(c, s, e));
        assert (s.run + [a])[..|s.run|] == s.run;
    }
  }

  lemma ObservingIsTold(c: Config, s: State, task: nat, seen: ConnectionState, key: string)
    requires Recorded(c, s) && Enabled(c, s, Observes(task, seen)) && Told(c, s, key)
    ensures Told(c, Observed(c, s, task, seen), key)
  {
    hide Notices, Offered, HeldBy, IsNews, StatesAfter, RankingsAfter, DeskAfter, WellKeyed;
    NoticesStep(key, s.obs, Observation(c.urls[task], seen));
    HeldMore(c.urls, s.due, key, |c.urls|, task, seen);
  }

  /** What one offer adds to the offered notices about a connection. */
  function OfferedNow(c: Config, s: State, e: Event, key: string): seq<ConnectionState>
    requires Enabled(c, s, e) && IsOffer(e)
  {
    if e.Offers? && c.urls[e.task] == key then [s.due[e.task]] else []
  }

  lemma OfferAdds(c: Config, s: State, e: Event, key: string)
    requires Enabled(c, s, e) && IsOffer(e)
    ensures Offered(key, s.run + [AttemptOf(c, s, e)]) == Offered(key, s.run) + OfferedNow(c, s, e, key)
  {
    hide Offered, LimitKey;
    AttemptIsKeyed(c, s, e);
    OfferedStep(key, s.run, AttemptOf(c, s, e), NameOf(c, s, e));
  }

  lemma OfferReleases(c: Config, s: State, e: Event, key: string)
    requires Enabled(c, s, e) && IsOffer(e)
    ensures multiset(Outstanding(c, s, key))
         == multiset(Outstanding(c, Next(c, s, e), key)) + multiset(OfferedNow(c, s, e, key))
  {
    hide HeldBy, Decided, AttemptOf;
    if e.Offers? {
      var rest := s.due - {e.task};
      HeldMore(c.urls, rest, key, |c.urls|, e.task, s.due[e.task]);
      assert rest[e.task := s.due[e.task]] == s.due;
    }
  }

  lemma OfferingIsTold(c: Config, s: State, e: Event, key: string)
    requires Enabled(c, s, e) && IsOffer(e) && Told(c, s, key)
    ensures Told(c, Next(c, s, e), key)
  {
    hide Notices, Offered, Outstanding, OfferedNow, Decided, AttemptOf;
    OfferAdds(c, s, e, key);
    OfferReleases(c, s, e, key);
  }

  /** Each step of any task keeps every due notice offered once or held by a task. */
  lemma ToldStep(c: Config, s: State, e: Event, key: string)
    requires Recorded(c, s) && Enabled(c, s, e) && Told(c, s, key)
    ensures Told(c, Next(c, s, e), key)
  {
    hide Recorded, Notices, Offered, HeldBy, Decided;
    match e {
      case Observes(task, seen) => ObservingIsTold(c, s, task, seen, key);
      case Ranks(_, _) =>
      case _ => OfferingIsTold(c, s, e, key);
    }
  }

  lemma ObservingKeepsOrder(c: Config, s: State, task: nat, seen: ConnectionState, key: string)
    requires Recorded(c, s) && Enabled(c, s, Observes(task, seen))
    requires WatchedOnce(c.urls, key) && ToldInOrder(c, s, key)
    ensures ToldInOrder(c, Observed(c, s, task, seen), key)
  {
    hide Notices, Offered, HeldBy, IsNews, StatesAfter, RankingsAfter, DeskAfter, WellKeyed, WatchedOnce;
    var t := Observed(c, s, task, seen);
    NoticesStep(key, s.obs, Observation(c.urls[task], seen));
    if c.urls[task] == key {
      HeldByOne(c.urls, s.due, key, |c.urls|, task);
      HeldByOne(c.urls, t.due, key, |c.urls|, task);
    } else {
      HeldBySame(c.urls, s.due, t.due, key, |c.urls|);
    }
  }

  lemma OfferingKeepsOrder(c: Config, s: State, e: Event, key: string)
    requires Enabled(c, s, e) && IsOffer(e)
    requires WatchedOnce(c.urls, key) && ToldInOrder(c, s, key)
    ensures ToldInOrder(c, Next(c, s, e), key)
  {
    hide Notices, Offered, HeldBy, Decided, AttemptOf, WatchedOnce;
    var t := Next(c, s, e);
    OfferAdds(c, s, e, key);
    if e.Offers? && c.urls[e.task] == key {
      HeldByOne(c.urls, s.due, key, |c.urls|, e.task);
      HeldByOne(c.urls, t.due, key, |c.urls|, e.task);
    } else {
      HeldBySame(c.urls, s.due, t.due, key, |c.urls|);
    }
  }

  lemma OrderStep(c: Config, s: State, e: Event, key: string)
    requires Recorded(c, s) && Enabled(c, s, e)
    requires WatchedOnce(c.urls, key) && ToldInOrder(c, s, key)
    ensures ToldInOrder(c, Next(c, s, e), key)
  {
    hide Recorded, Notices, Offered, HeldBy, Decided, WatchedOnce;
    match e {
      case Observes(task, seen) => ObservingKeepsOrder(c, s, task, seen, key);
      case Ranks(_, _) =>
      case _ => OfferingKeepsOrder(c, s, e, key);
    }
  }

  /** Each step of any task keeps a node's offered changes, and the one held, its planned changes in order. */
  lemma ChangesToldStep(c: Config, s: State, e: Event, nodeId: string)
    requires Recorded(c, s) && Enabled(c, s, e) && ChangesTold(s, nodeId)
    ensures ChangesTold(Next(c, s, e), nodeId)
  {
    hide Changes, OfferedChanges, Decided, LimitKey, PlannedChange, StatesAfter, RankingsAfter, DeskAfter;
    match e {
      case Observes(_, _) =>
      case Ranks(node, ranking) => ChangesStep(nodeId, s.standings, Standing(node, ranking));
      case _ =>
        AttemptIsKeyed(c, s, e);
        OfferedChangesStep(nodeId, s.run, AttemptOf(c, s, e), NameOf(c, s, e));
    }
  }

  ghost predicate Inv(c: Config, s: State, key: string, nodeId: string) {
    && Recorded(c, s)
    && Told(c, s, key)
    && (WatchedOnce(c.urls, key) ==> ToldInOrder(c, s, key))
    && ChangesTold(s, nodeId)
  }

  lemma {:induction false} InvRun(c: Config, s: State, es: seq<Event>, key: string, nodeId: string)
    requires Inv(c, s, key, nodeId) && Valid(c, s, es)
    ensures Inv(c, Run(c, s, es), key, nodeId)
    decreases |es|
  {
    hide Recorded, Told, ToldInOrder, WatchedOnce, ChangesTold, Enabled, Next;
    if es != [] {
      RecordedStep(c, s, es[0]);
      ToldStep(c, s, es[0], key);
      if WatchedOnce(c.urls, key) {
        OrderStep(c, s, es[0], key);
      }
      ChangesToldStep(c, s, es[0], nodeId);
      InvRun(c, Next(c, s, es[0]), es[1..], key, nodeId);
    }
  }

  lemma InvStart(c: Config, key: string, nodeId: string)
    ensures Inv(c, START, key, nodeId)
  {
    HeldByNobody(c.urls, map[], key, |c.urls|);
  }

  lemma InvOf(c: Config, es: seq<Event>, key: string, nodeId: string)
    requires Valid(c, START, es)
    ensures Inv(c, Run(c, START, es), key, nodeId)
  {
    hide Inv, Valid, Run;
    InvStart(c, key, nodeId);
    InvRun(c, START, es, key, nodeId);
  }

  // ---------------------------------------------------------------- theorems

  /** However any number of tasks interleave, and however many watch one connection: each edge of the
      observations is offered once or still held, and what was offered is conserved between messages,
      summaries and the buffer. */
  lemma EveryEdgeIsOfferedOnce(c: Config, es: seq<Event>, key: string)
    requires Valid(c, START, es)
    ensures var s := Run(c, START, es);
            && multiset(Offered(key, s.run)) + multiset(Outstanding(c, s, key))
               == multiset(Edges(Healthy, Stream(key, s.obs)))
            && Passed(c.filter, c.limit, s.run)
               == Sent(c.filter, c.limit, s.run) + Summarised(c.filter, c.limit, s.run) + s.desk.quiet.total
  {
    hide Valid, Run, Notices, Edges, Stream, Offered, Outstanding, Passed, Sent, Summarised, WellKeyed, ToldInOrder,
      ChangesTold, WatchedOnce, StatesAfter, RankingsAfter;
    InvOf(c, es, key, "");
    var s := Run(c, START, es);
    NoticesAreTheEdges(key, s.obs);
    EventsAreConserved(c.filter, c.limit, s.run);
  }

  /** A connection with one task has its edges offered in order. */
  lemma EdgesAreOfferedInOrder(c: Config, es: seq<Event>, key: string)
    requires Valid(c, START, es) && WatchedOnce(c.urls, key)
    ensures var s := Run(c, START, es);
            Offered(key, s.run) + Outstanding(c, s, key) == Edges(Healthy, Stream(key, s.obs))
  {
    hide Valid, Run, Notices, Edges, Stream, Offered, Outstanding, Recorded, Told, ChangesTold, WatchedOnce;
    InvOf(c, es, key, "");
    NoticesAreTheEdges(key, Run(c, START, es).obs);
  }

  /** However the tasks interleave, the changes offered for a node, and the one still held, lead in order from
      each of its positive rankings to the next. */
  lemma RankingNoticesAreTheChain(c: Config, es: seq<Event>, nodeId: string)
    requires Valid(c, START, es)
    ensures var s := Run(c, START, es);
            Chains(OfferedChanges(nodeId, s.run) + OutstandingChange(s, nodeId),
                   Compressed(PositiveRankings(nodeId, s.standings)))
  {
    hide Valid, Run, Changes, OfferedChanges, OutstandingChange, Chains, Recorded, Told, ToldInOrder, WatchedOnce;
    InvOf(c, es, "", nodeId);
    ChangesFormAChain(nodeId, Run(c, START, es).standings);
  }

  // ------------------------------------------- what the limiter lets out

  /** What was sent or put into the quiet buffer about one connection. */
  function Forwarded(filter: Filter, limit: nat, key: string, run: seq<Attempt>): seq<ConnectionState> {
    if run == [] then []
    else
      var earlier, a := Forwarded(filter, limit, key, run[..|run| - 1]), Last(run);
      if !Passes(LastDecision(filter, limit, run)) then earlier
      else if a.kind == ConnectionFailed && a.key == LimitKey(ConnectionFailed, key) then earlier + [Unhealthy]
      else if a.kind == ConnectionRecovered && a.key == LimitKey(ConnectionRecovered, key) then earlier + [Healthy]
      else earlier
  }

  /** When notices of one kind were offered about one connection. */
  function OfferTimes(kind: Kind, key: string, run: seq<Attempt>): seq<nat> {
    if run == [] then []
    else
      var earlier, a := OfferTimes(kind, key, run[..|run| - 1]), Last(run);
      if a.kind == kind && a.key == LimitKey(kind, key) then earlier + [a.now] else earlier
  }

  /** Nothing of this kind was offered, or it is enabled and its offers respect the limit by themselves. */
  ghost predicate Unhindered(filter: Filter, limit: nat, kind: Kind, times: seq<nat>) {
    times == [] || (Allows(filter, kind) && (limit == 0 || Spaced(limit, times)))
  }

  ghost predicate BothUnhindered(c: Config, key: string, run: seq<Attempt>) {
    && Unhindered(c.filter, c.limit, ConnectionFailed, OfferTimes(ConnectionFailed, key, run))
    && Unhindered(c.filter, c.limit, ConnectionRecovered, OfferTimes(ConnectionRecovered, key, run))
  }

  lemma {:induction false} AskedAreTheOffers(filter: Filter, kind: Kind, key: string, run: seq<Attempt>)
    requires WellKeyed(run)
    ensures Asked(filter, LimitKey(kind, key), run) == if Allows(filter, kind) then OfferTimes(kind, key, run) else []
  {
    hide LimitKey, Allows;
    if run != [] {
      var a := Last(run);
      AskedAreTheOffers(filter, kind, key, run[..|run| - 1]);
      assert KeyIsOfKind(run[|run| - 1]);
      var name: string :| a.key == LimitKey(a.kind, name);
      if a.key == LimitKey(kind, key) {
        LimitKeysNeverClash(a.kind, name, kind, key);
      }
    }
  }

  /** The limiter and the filter leave a kind's offers alone exactly when it is unhindered. */
  lemma LetThroughIfUnhindered(filter: Filter, limit: nat, kind: Kind, key: string, run: seq<Attempt>)
    requires WellKeyed(run)
    ensures var through, times := LetThrough(filter, limit, LimitKey(kind, key), run), OfferTimes(kind, key, run);
            && |through| <= |times|
            && (|through| == |times| <==> Unhindered(filter, limit, kind, times))
  {
    hide LimitKey, Allows, Asked, LetThrough, OfferTimes, Admitted;
    var times := OfferTimes(kind, key, run);
    AskedAreTheOffers(filter, kind, key, run);
    LimiterIsPerKey(filter, limit, LimitKey(kind, key), run);
    AdmittedShape(limit, Asked(filter, LimitKey(kind, key), run));
    if limit == 0 {
      NoLimitAdmitsAll(Asked(filter, LimitKey(kind, key), run));
    } else {
      AllAdmittedIfSpaced(limit, Asked(filter, LimitKey(kind, key), run));
    }
  }

  lemma {:induction false} OffersByKind(key: string, run: seq<Attempt>)
    ensures |Offered(key, run)|
         == |OfferTimes(ConnectionFailed, key, run)| + |OfferTimes(ConnectionRecovered, key, run)|
  {
    hide LimitKey;
    if run != [] {
      OffersByKind(key, run[..|run| - 1]);
    }
  }

  lemma {:induction false} ForwardedByKind(filter: Filter, limit: nat, key: string, run: seq<Attempt>)
    requires WellKeyed(run)
    ensures |Forwarded(filter, limit, key, run)|
         == |LetThrough(filter, limit, LimitKey(ConnectionFailed, key), run)|
            + |LetThrough(filter, limit, LimitKey(ConnectionRecovered, key), run)|
  {
    hide LimitKey, LastDecision;
    if run != [] {
      var a := Last(run);
      ForwardedByKind(filter, limit, key, run[..|run| - 1]);
      assert KeyIsOfKind(run[|run| - 1]);
      var name: string :| a.key == LimitKey(a.kind, name);
      if a.key == LimitKey(ConnectionFailed, key) {
        LimitKeysNeverClash(a.kind, name, ConnectionFailed, key);
      }
      if a.key == LimitKey(ConnectionRecovered, key) {
        LimitKeysNeverClash(a.kind, name, ConnectionRecovered, key);
      }
    }
  }

  lemma {:induction false} ForwardedOfOffered(filter: Filter, limit: nat, key: string, run: seq<Attempt>)
    ensures |Forwarded(filter, limit, key, run)| <= |Offered(key, run)|
    ensures |Forwarded(filter, limit, key, run)| == |Offered(key, run)| ==>
              Forwarded(filter, limit, key, run) == Offered(key, run)
  {
    hide LimitKey, LastDecision;
    if run != [] {
      ForwardedOfOffered(filter, limit, key, run[..|run| - 1]);
    }
  }

  /** Everything offered about a connection leaves exactly when both kinds are unhindered. */
  lemma ForwardedIfUnhindered(c: Config, key: string, run: seq<Attempt>)
    requires WellKeyed(run)
    ensures |Forwarded(c.filter, c.limit, key, run)| <= |Offered(key, run)|
    ensures Forwarded(c.filter, c.limit, key, run) == Offered(key, run) <==> BothUnhindered(c, key, run)
    ensures |Forwarded(c.filter, c.limit, key, run)| == |Offered(key, run)| ==>
              Forwarded(c.filter, c.limit, key, run) == Offered(key, run)
  {
    hide Offered, Forwarded, OfferTimes, LetThrough, LimitKey, Unhindered, WellKeyed;
    OffersByKind(key, run);
    ForwardedByKind(c.filter, c.limit, key, run);
    ForwardedOfOffered(c.filter, c.limit, key, run);
    LetThroughIfUnhindered(c.filter, c.limit, ConnectionFailed, key, run);
    LetThroughIfUnhindered(c.filter, c.limit, ConnectionRecovered, key, run);
  }

  /** With nothing outstanding, what leaves the notifier about a connection mirrors its edges exactly when both
      kinds are unhindered and the offers kept the order; with one task on the connection, exactly when both
      kinds are unhindered. */
  lemma ForwardedMirrorsTheEdges(c: Config, es: seq<Event>, key: string)
    requires Valid(c, START, es) && Outstanding(c, Run(c, START, es), key) == []
    ensures var s := Run(c, START, es);
            var edges := Edges(Healthy, Stream(key, s.obs));
            && (Forwarded(c.filter, c.limit, key, s.run) == edges
                <==> BothUnhindered(c, key, s.run) && Offered(key, s.run) == edges)
            && (WatchedOnce(c.urls, key) ==>
                  (Forwarded(c.filter, c.limit, key, s.run) == edges <==> BothUnhindered(c, key, s.run)))
  {
    hide Valid, Run, Edges, Stream, Offered, Outstanding, Forwarded, BothUnhindered, WellKeyed, WatchedOnce,
      Passed, Sent, Summarised, Told, ToldInOrder, ChangesTold, StatesAfter, RankingsAfter, DeskAfter;
    var s := Run(c, START, es);
    var offered, edges := Offered(key, s.run), Edges(Healthy, Stream(key, s.obs));
    EveryEdgeIsOfferedOnce(c, es, key);
    SameSize(offered, edges);
    InvOf(c, es, key, "");
    ForwardedIfUnhindered(c, key, s.run);
    if WatchedOnce(c.urls, key) {
      EdgesAreOfferedInOrder(c, es, key);
      assert offered + [] == offered;
    }
  }

  lemma SameSize<T>(xs: seq<T>, ys: seq<T>)
    requires multiset(xs) + multiset([]) == multiset(ys)
    ensures |xs| == |ys|
  {
    assert |multiset(xs)| == |xs| && |multiset(ys)| == |ys|;
    assert multiset(xs) + multiset([]) == multiset(xs);
  }

  // ----------------------------------------------- one task per connection

  /** A run of tasks on these connections after which no notice about `key` is outstanding. */
  predicate Settled(c: Config, es: seq<Event>, urls: seq<string>, key: string) {
    c.urls == urls && Valid(c, START, es) && Outstanding(c, Run(c, START, es), key) == []
  }

  /** In every run, under every filter and limit, a connection with nothing outstanding had its edges offered in
      order. */
  ghost predicate AlwaysInOrder(urls: seq<string>, key: string) {
    forall c: Config, es: seq<Event> | Settled(c, es, urls, key) ::
      Offered(key, Run(c, START, es).run) == Edges(Healthy, Stream(key, Run(c, START, es).obs))
  }

  /** And what left mirrors the edges whenever both kinds were unhindered. */
  ghost predicate AlwaysMirrors(urls: seq<string>, key: string) {
    forall c: Config, es: seq<Event> | Settled(c, es, urls, key) && BothUnhindered(c, key, Run(c, START, es).run) ::
      Forwarded(c.filter, c.limit, key, Run(c, START, es).run) == Edges(Healthy, Stream(key, Run(c, START, es).obs))
  }

  lemma RunFrom(c: Config, s: State, e: Event, es: seq<Event>)
    requires Enabled(c, s, e) && Valid(c, Next(c, s, e), es)
    ensures Valid(c, s, [e] + es)
    ensures Run(c, s, [e] + es) == Run(c, Next(c, s, e), es)
  {
    hide Enabled, Next;
    assert ([e] + es)[1..] == es;
  }

  lemma NothingMore(c: Config, s: State)
    ensures Valid(c, s, []) && Run(c, s, []) == s
  {
  }

  function FailedAt(key: string, subject: string, now: nat): Attempt {
    ConnectionAttempt(Unhealthy, key, subject, now, false)
  }

  function RecoveredAt(key: string, subject: string, now: nat): Attempt {
    ConnectionAttempt(Healthy, key, subject, now, false)
  }

  /** Two tasks on one connection: the first sees it fail, the second sees it back, and the second's notice is
      offered first. */
  function SwappedRun(i: nat, j: nat, subject: string): seq<Event> {
    [Observes(i, Unhealthy)] + ([Observes(j, Healthy)]
      + ([Offers(j, subject, 1, false)] + ([Offers(i, subject, 2, false)] + [])))
  }

  lemma SwappedRunIsValid(c: Config, key: string, i: nat, j: nat, subject: string)
    requires i < j < |c.urls| && c.urls[i] == c.urls[j] == key
    ensures Valid(c, START, SwappedRun(i, j, subject))
    ensures var s := Run(c, START, SwappedRun(i, j, subject));
            && s.run == [RecoveredAt(key, subject, 1), FailedAt(key, subject, 2)]
            && s.obs == [Observation(key, Unhealthy), Observation(key, Healthy)]
            && s.due == map[] && s.states == map[key := Healthy]
  {
    hide LimitKey, Decided, Valid, Run;
    var e1, e2 := Observes(i, Unhealthy), Observes(j, Healthy);
    var e3, e4 := Offers(j, subject, 1, false), Offers(i, subject, 2, false);
    var s1 := Next(c, START, e1);
    var s2 := Next(c, s1, e2);
    var s3 := Next(c, s2, e3);
    var s4 := Next(c, s3, e4);
    NothingMore(c, s4);
    RunFrom(c, s3, e4, []);
    RunFrom(c, s2, e3, [e4] + []);
    RunFrom(c, s1, e2, [e3] + ([e4] + []));
    RunFrom(c, START, e1, [e2] + ([e3] + ([e4] + [])));
    assert s4.run == [RecoveredAt(key, subject, 1), FailedAt(key, subject, 2)];
    assert s4.states == map[key := Healthy];
  }

  lemma SwappedIsOffered(key: string, subject: string)
    ensures Offered(key, [RecoveredAt(key, subject, 1), FailedAt(key, subject, 2)]) == [Healthy, Unhealthy]
  {
    hide LimitKey, Offered;
    var first, second := RecoveredAt(key, subject, 1), FailedAt(key, subject, 2);
    assert Offered(key, []) == [] by { NothingOffered(key); }
    OfferedStep(key, [], first, key);
    OfferedStep(key, [first], second, key);
    assert [] + [first] == [first] && [first] + [second] == [first, second];
  }

  lemma NothingOffered(key: string)
    ensures Offered(key, []) == []
  {
  }

  lemma FailThenRecover(key: string)
    ensures var obs := [Observation(key, Unhealthy), Observation(key, Healthy)];
            Edges(Healthy, Stream(key, obs)) == [Unhealthy, Healthy]
  {
    hide Edges;
    var obs := [Observation(key, Unhealthy), Observation(key, Healthy)];
    var one := [Observation(key, Unhealthy)];
    assert one[..0] == [] && obs[..1] == one;
    assert Stream(key, one) == Stream(key, []) + [Unhealthy] == [Unhealthy];
    assert Stream(key, obs) == Stream(key, one) + [Healthy];
    NoEdges<ConnectionState>(Healthy);
    EdgeStep(Healthy, [], Unhealthy);
    EdgeStep(Healthy, [Unhealthy], Healthy);
    assert [] + [Unhealthy] == [Unhealthy];
  }

  /** The swapped run: with nothing disabled and no limit, what leaves about the connection is a recovery and then
      a failure, while it failed and recovered and is recorded as up. */
  lemma SecondTaskOvertakes(c: Config, key: string, i: nat, j: nat, subject: string)
    requires i < j < |c.urls| && c.urls[i] == c.urls[j] == key && c.filter == EVERYTHING && c.limit == 0
    ensures var es := SwappedRun(i, j, subject);
            && Valid(c, START, es)
            && var s := Run(c, START, es);
            && Outstanding(c, s, key) == [] && BothUnhindered(c, key, s.run)
            && Offered(key, s.run) == Forwarded(EVERYTHING, 0, key, s.run) == [Healthy, Unhealthy]
            && Edges(Healthy, Stream(key, s.obs)) == [Unhealthy, Healthy]
            && StateOf(s.states, key) == Healthy
  {
    hide Valid, Run, Offered, Forwarded, Edges, Stream, LimitKey, SwappedRun, OfferTimes;
    var es := SwappedRun(i, j, subject);
    SwappedRunIsValid(c, key, i, j, subject);
    var s := Run(c, START, es);
    SwappedIsOffered(key, subject);
    FailThenRecover(key);
    HeldByNobody(c.urls, s.due, key, |c.urls|);
    assert WellKeyed(s.run) by { InvOf(c, es, key, ""); }
    ForwardedIfUnhindered(c, key, s.run);
  }

  /** For any list of connections: the edges of one are offered in order in all runs, and mirrored in all unhindered
      runs, if and only if no two tasks watch it. */
  lemma OrderNeedsOneTask(urls: seq<string>, key: string)
    ensures AlwaysInOrder(urls, key) <==> WatchedOnce(urls, key)
    ensures AlwaysMirrors(urls, key) <==> WatchedOnce(urls, key)
  {
    hide Valid, Run, Offered, Forwarded, Outstanding, Edges, Stream, BothUnhindered;
    if WatchedOnce(urls, key) {
      forall c: Config, es: seq<Event> | Settled(c, es, urls, key)
        ensures Offered(key, Run(c, START, es).run) == Edges(Healthy, Stream(key, Run(c, START, es).obs))
        ensures BothUnhindered(c, key, Run(c, START, es).run) ==>
                  Forwarded(c.filter, c.limit, key, Run(c, START, es).run)
                  == Edges(Healthy, Stream(key, Run(c, START, es).obs))
      {
        EdgesAreOfferedInOrder(c, es, key);
        assert Offered(key, Run(c, START, es).run) + [] == Offered(key, Run(c, START, es).run);
        ForwardedMirrorsTheEdges(c, es, key);
      }
    } else {
      var i, j :| 0 <= i < j < |urls| && urls[i] == key && urls[j] == key;
      SecondTaskOvertakes(Config(urls, EVERYTHING, 0), key, i, j, "");
      assert Settled(Config(urls, EVERYTHING, 0), SwappedRun(i, j, ""), urls, key);
    }
  }

  // --------------------------------------------- a failure the limiter swallows

  lemma SecondFailureIsLimited(key: string, subject: string)
    ensures var run := [FailedAt(key, subject, 0), RecoveredAt(key, subject, 5), FailedAt(key, subject, 8)];
            Forwarded(EVERYTHING, 10, key, run) == [Unhealthy, Healthy]
  {
    hide LimitKey, Rendered;
    var first, second, third := FailedAt(key, subject, 0), RecoveredAt(key, subject, 5), FailedAt(key, subject, 8);
    var run := [first, second, third];
    assert run[..2] == [first, second] && run[..2][..1] == [first] && [first][..0] == [];
    if first.key == second.key {
      LimitKeysNeverClash(ConnectionFailed, key, ConnectionRecovered, key);
    }
    assert DeskAfter(EVERYTHING, 10, [first]).lastSentAt == map[first.key := 0];
    assert DeskAfter(EVERYTHING, 10, run[..2]).lastSentAt == map[first.key := 0, second.key := 5];
    assert Forwarded(EVERYTHING, 10, key, [first]) == [Unhealthy];
    assert Forwarded(EVERYTHING, 10, key, run[..2]) == [Unhealthy, Healthy];
    assert LastDecision(EVERYTHING, 10, run) == SuppressedByRateLimit;
  }

  /** One task notes an edge and offers it before anything else happens. */
  function AfterEdge(c: Config, s: State, seen: ConnectionState, subject: string, now: nat): State
    requires c.urls != [] && s.due == map[] && IsNews(s.states, c.urls[0], seen)
  {
    Next(c, Next(c, s, Observes(0, seen)), Offers(0, subject, now, false))
  }

  lemma EdgeIsTold(c: Config, s: State, seen: ConnectionState, subject: string, now: nat, es: seq<Event>)
    requires c.urls != [] && s.due == map[] && IsNews(s.states, c.urls[0], seen)
    requires Valid(c, AfterEdge(c, s, seen, subject, now), es)
    ensures var t := AfterEdge(c, s, seen, subject, now);
            var more := [Observes(0, seen)] + ([Offers(0, subject, now, false)] + es);
            && Valid(c, s, more) && Run(c, s, more) == Run(c, t, es)
  {
    hide Valid, Run, Decided, LimitKey;
    var noted := Next(c, s, Observes(0, seen));
    RunFrom(c, noted, Offers(0, subject, now, false), es);
    RunFrom(c, s, Observes(0, seen), [Offers(0, subject, now, false)] + es);
  }

  lemma EdgeState(c: Config, s: State, seen: ConnectionState, subject: string, now: nat)
    requires c.urls != [] && s.due == map[] && IsNews(s.states, c.urls[0], seen)
    ensures var t := AfterEdge(c, s, seen, subject, now);
            && t.due == map[] && t.states == s.states[c.urls[0] := seen]
            && t.run == s.run + [ConnectionAttempt(seen, c.urls[0], subject, now, false)]
  {
    hide Decided, LimitKey;
  }

  /** A run that is hindered: with a limit of 10 a failure at 0 and a recovery at 5 leave, a second failure at 8
      does not, and the last thing told is a recovery while the connection is down. */
  lemma SecondFailureIsSwallowed(key: string, subject: string)
    ensures var c := Config([key], EVERYTHING, 10);
            var es := [Observes(0, Unhealthy), Offers(0, subject, 0, false),
                       Observes(0, Healthy), Offers(0, subject, 5, false),
                       Observes(0, Unhealthy), Offers(0, subject, 8, false)];
            && Valid(c, START, es)
            && var s := Run(c, START, es);
            && Forwarded(EVERYTHING, 10, key, s.run) == [Unhealthy, Healthy]
            && StateOf(s.states, key) == Unhealthy
  {
    hide LimitKey, AfterEdge, Valid, Run, Forwarded;
    var c := Config([key], EVERYTHING, 10);
    EdgeState(c, START, Unhealthy, subject, 0);
    var down := AfterEdge(c, START, Unhealthy, subject, 0);
    EdgeState(c, down, Healthy, subject, 5);
    var up := AfterEdge(c, down, Healthy, subject, 5);
    EdgeState(c, up, Unhealthy, subject, 8);
    var downAgain := AfterEdge(c, up, Unhealthy, subject, 8);
    NothingMore(c, downAgain);
    EdgeIsTold(c, up, Unhealthy, subject, 8, []);
    var last := [Observes(0, Unhealthy)] + ([Offers(0, subject, 8, false)] + []);
    EdgeIsTold(c, down, Healthy, subject, 5, last);
    var later := [Observes(0, Healthy)] + ([Offers(0, subject, 5, false)] + last);
    EdgeIsTold(c, START, Unhealthy, subject, 0, later);
    assert [Observes(0, Unhealthy)] + ([Offers(0, subject, 0, false)] + later)
        == [Observes(0, Unhealthy), Offers(0, subject, 0, false), Observes(0, Healthy),
            Offers(0, subject, 5, false), Observes(0, Unhealthy), Offers(0, subject, 8, false)];
    assert downAgain.run == [FailedAt(key, subject, 0), RecoveredAt(key, subject, 5), FailedAt(key, subject, 8)];
    SecondFailureIsLimited(key, subject);
  }
}
