/** What holds in every state the peer geography pipeline can reach. */
module GeoPipelineTheorems {
  import opened Wrappers
  import opened GeoSnapshot
  import opened GeoStore
  import opened PeerAddresses
  import opened GeoPipeline
  import opened GeoPipelineProofs

  ghost predicate Inv(c: Config, s: State, initial: set<string>) {
    && Mail(s) && Orders(c, s) && Peers(c, s, initial) && Fresh(s)
    && Pending(s) && Lookups(c, s) && Attempted(s) && Drained(s)
  }

  lemma InvInit(c: Config, s: State)
    requires Init(s)
    ensures Inv(c, s, s.tables.peers.Keys)
  {
    hide View, GroupView, Caused, ReplyOk, OrderOk;
    assert LiveIps(s) == {};
    forall client ensures MailFor(s, client) {}
  }

  lemma InvStep(c: Config, s: State, e: Event, initial: set<string>)
    requires Inv(c, s, initial) && Enabled(c, s, e)
    ensures Inv(c, Next(c, s, e), initial)
  {
    hide Mail, Orders, Peers, Fresh, Pending, Lookups, Attempted, Drained, Enabled, Next;
    MailStep(c, s, e);
    OrdersStep(c, s, e);
    PeersStep(c, s, e, initial);
    FreshStep(c, s, e);
    PendingStep(c, s, e);
    LookupsStep(c, s, e);
    AttemptedStep(c, s, e);
    DrainedStep(c, s, e);
  }

  lemma {:induction false} InvRun(c: Config, s: State, es: seq<Event>, initial: set<string>)
    requires Inv(c, s, initial) && Valid(c, s, es)
    ensures Inv(c, Run(c, s, es), initial)
    decreases |es|
  {
    if es != [] {
      InvStep(c, s, es[0], initial);
      InvRun(c, Next(c, s, es[0]), es[1..], initial);
    }
  }

  // ------------------------------------------------------------ freshness

  /** In every reachable state the panel shows the committed tables, or a wake is pending or
      owed, or a retry is armed, or a refresh is under way; and once nothing of the kind is
      left, the panel shows exactly the committed tables. */
  lemma PanelIsFresh(c: Config, s0: State, es: seq<Event>)
    requires Init(s0) && Valid(c, s0, es)
    ensures Fresh(Run(c, s0, es))
    ensures var s := Run(c, s0, es);
            s.ui.UiIdle? && !s.wake && !s.retry && !s.worker.MustWake? ==> s.loaded && s.shown == View(s.tables)
  {
    InvInit(c, s0);
    InvRun(c, s0, es, s0.tables.peers.Keys);
  }

  // ----------------------------------------------------------- peer table

  /** The table holds the union reported in the last stored round, and in a stored round every node answered. */
  lemma PeerTableIsLastStoredRound(c: Config, s0: State, es: seq<Event>)
    requires Init(s0) && Valid(c, s0, es)
    ensures Run(c, s0, es).tables.peers.Keys == StoredPeers(c, Run(c, s0, es).rounds, s0.tables.peers.Keys)
    ensures forall r | r in Run(c, s0, es).rounds && r.commit.Some? ::
              |r.results| == c.nodes && forall i | 0 <= i < |r.results| :: r.results[i].Ok?
  {
    InvInit(c, s0);
    InvRun(c, s0, es, s0.tables.peers.Keys);
    var s := Run(c, s0, es);
    forall r | r in s.rounds && r.commit.Some?
      ensures |r.results| == c.nodes && forall i | 0 <= i < |r.results| :: r.results[i].Ok?
    {
      var k :| 0 <= k < |s.rounds| && s.rounds[k] == r;
      assert Complete(c, s.rounds[k]);
      FirstErrorMeans(r.results);
    }
  }

  /** In every round that ends during the run some node failed. */
  ghost predicate RoundsFail(c: Config, s: State, es: seq<Event>)
    requires Valid(c, s, es)
    decreases |es|
  {
    es == [] ||
    ((es[0] == CollectorStep(EndsRound) ==> FirstError(s.collector.results).Some?)
     && RoundsFail(c, Next(c, s, es[0]), es[1..]))
  }

  lemma FailingStepKeepsPeers(c: Config, s: State, e: Event)
    requires Mail(s) && !s.collector.Replacing? && Enabled(c, s, e)
    requires e == CollectorStep(EndsRound) ==> FirstError(s.collector.results).Some?
    ensures Next(c, s, e).tables.peers == s.tables.peers && !Next(c, s, e).collector.Replacing?
  {
    hide Mail, Take, Deliver, UiDoes, CollectorDoes, TaskDoes, FirstError;
    NoReplaceUnderWay(s);
    match e {
      case WorkerStep(Takes(now, ok)) => TakeMoves(s.(queue := s.queue[1..]), s.queue[0], now, ok);
      case WorkerStep(Wakes) =>
      case WorkerStep(Replies) => DeliverMoves(c, s.(worker := Idle), s.worker.reply);
      case UiStep(u) => UiMoves(s, u);
      case CollectorStep(k) => CollectorMoves(c, s, k);
      case TaskStep(t) => TaskMoves(s, t);
    }
  }

  lemma {:induction false} FailingRunKeepsPeers(c: Config, s: State, es: seq<Event>)
    requires Mail(s) && !s.collector.Replacing?
    requires Valid(c, s, es) && RoundsFail(c, s, es)
    ensures Run(c, s, es).tables.peers == s.tables.peers
    decreases |es|
  {
    hide Mail, Enabled, Next;
    if es != [] {
      MailStep(c, s, es[0]);
      FailingStepKeepsPeers(c, s, es[0]);
      FailingRunKeepsPeers(c, Next(c, s, es[0]), es[1..]);
    }
  }

  /** However long rounds keep failing, and whatever the other threads do meanwhile, the peer table stays as it
      was when the last replace had been answered, stamps included. */
  lemma FailedRoundsChangeNothing(c: Config, s0: State, before: seq<Event>, after: seq<Event>)
    requires Init(s0) && Valid(c, s0, before) && !Run(c, s0, before).collector.Replacing?
    requires Valid(c, Run(c, s0, before), after) && RoundsFail(c, Run(c, s0, before), after)
    ensures Run(c, Run(c, s0, before), after).tables.peers == Run(c, s0, before).tables.peers
  {
    hide Init, Mail, Orders, Peers, Fresh, Pending, Lookups, Attempted, Drained, Valid, Run, RoundsFail;
    InvInit(c, s0);
    InvRun(c, s0, before, s0.tables.peers.Keys);
    FailingRunKeepsPeers(c, Run(c, s0, before), after);
  }

  // ----------------------------------------------------------- enrichment

  /** At most one unreleased task per IP; the pending set is exactly their IPs and the one being spawned; and every
      look-up was caused by the last commit before it: some node reported the IP in that round, and at its commit
      the IP was enrichable and had no cache row or one more than 24 hours old. */
  lemma EnrichmentDiscipline(c: Config, s0: State, es: seq<Event>)
    requires Init(s0) && Valid(c, s0, es)
    ensures var s := Run(c, s0, es);
            && s.pending == LiveIps(s) + ClaimedIp(s) && LiveIps(s) !! ClaimedIp(s)
            && (forall i, j | 0 <= i < j < |s.tasks| && IsLive(s, i) && IsLive(s, j) :: s.tasks[i].ip != s.tasks[j].ip)
            && (forall i | 0 <= i < |s.tasks| :: Caused(c, s.rounds, s.tasks[i].asOf, s.tasks[i].ip))
  {
    hide Caused;
    InvInit(c, s0);
    InvRun(c, s0, es, s0.tables.peers.Keys);
  }

  /** Node `k` answered with an address that prints as `text`. */
  predicate ReportsAs(codec: Codec, results: seq<NodeResult>, k: nat, ip: IpAddr, text: string) {
    k < |results| && results[k].Ok? && ip in results[k].value && codec.print_(ip) == text
  }

  ghost predicate HasEnrichableReport(codec: Codec, results: seq<NodeResult>, text: string) {
    exists ip, k :: IsEnrichable(ip) && ReportsAs(codec, results, k, ip, text)
  }

  /** With a lawful codec the looked-up IP is the print of an enrichable address some node reported in the round
      that caused the look-up. */
  lemma LookedUpAddressesWereReported(c: Config, s0: State, es: seq<Event>, i: nat)
    requires Lawful(c.codec) && Init(s0) && Valid(c, s0, es) && i < |Run(c, s0, es).tasks|
    ensures var s := Run(c, s0, es);
            var t := s.tasks[i];
            && 1 <= t.asOf <= |s.rounds| && t.ip in DueIn(s.rounds[t.asOf - 1])
            && HasEnrichableReport(c.codec, s.rounds[t.asOf - 1].results, t.ip)
  {
    hide Valid, Run, DueIn;
    EnrichmentDiscipline(c, s0, es);
    var s := Run(c, s0, es);
    var t := s.tasks[i];
    assert Caused(c, s.rounds, t.asOf, t.ip);
    var results := s.rounds[t.asOf - 1].results;
    var r, ip :| r in results && r.Ok? && ip in r.value && c.codec.print_(ip) == t.ip;
    var k :| 0 <= k < |results| && results[k] == r;
    assert c.codec.parse(c.codec.print_(ip)) == Some(ip);
    assert ReportsAs(c.codec, results, k, ip, t.ip);
  }

  /** When the collector has returned, every task has attempted its one cache write and released its IP. */
  lemma ReturnDrainsTasks(c: Config, s0: State, es: seq<Event>)
    requires Init(s0) && Valid(c, s0, es)
    requires Run(c, s0, es).collector.Returned?
    ensures Run(c, s0, es).pending == {}
    ensures forall t | t in Run(c, s0, es).tasks :: t.phase.Finished? && |t.writes| == 1
  {
    InvInit(c, s0);
    InvRun(c, s0, es, s0.tables.peers.Keys);
    var s := Run(c, s0, es);
    assert forall i :: !IsLive(s, i);
    assert LiveIps(s) == {};
    forall t | t in s.tasks ensures t.phase.Finished? && |t.writes| == 1 {
      var i :| 0 <= i < |s.tasks| && s.tasks[i] == t;
      assert |s.tasks[i].writes| == ExpectedAttempts(s, i);
    }
  }

  // -------------------------------------------------- the tables' history

  function OpOf(command: Command, now: int, ok: bool): seq<StoreOp> {
    match command
    case ReplaceSnapshot(ips) => [StoreOp.Replace(ips, now, ok)]
    case UpdateLocations(_, entry) => [StoreOp.Update([entry], now, ok)]
    case ReadSnapshot => []
  }

  /** The transaction an event makes, if it makes one. */
  function OpsIn(s: State, e: Event): seq<StoreOp> {
    match e
    case WorkerStep(Takes(now, ok)) => if s.queue == [] then [] else OpOf(s.queue[0], now, ok)
    case _ => []
  }

  /** The transactions of a run, in the order the worker took them. */
  ghost function OpsOf(c: Config, s: State, es: seq<Event>): seq<StoreOp>
    requires Valid(c, s, es)
    decreases |es|
  {
    if es == [] then [] else OpsIn(s, es[0]) + OpsOf(c, Next(c, s, es[0]), es[1..])
  }

  lemma {:induction false} RunOpsConcat(t: Tables, a: seq<StoreOp>, b: seq<StoreOp>)
    ensures RunOps(t, a + b) == RunOps(RunOps(t, a), b)
  {
    if b == [] {
      assert a + b == a;
    } else {
      var n := |b| - 1;
      assert (a + b)[..|a + b| - 1] == a + b[..n];
      RunOpsConcat(t, a, b[..n]);
    }
  }

  lemma StepIsTransaction(c: Config, s: State, e: Event)
    requires Enabled(c, s, e)
    ensures Next(c, s, e).tables == RunOps(s.tables, OpsIn(s, e))
  {
    hide UiDoes, CollectorDoes, TaskDoes, Deliver, View, Stale;
    match e {
      case WorkerStep(Takes(now, ok)) =>
        var ops := OpOf(s.queue[0], now, ok);
        if ops != [] {
          assert ops[..0] == [];
          assert RunOps(s.tables, ops) == Apply(s.tables, ops[0]);
        }
      case WorkerStep(Wakes) =>
      case WorkerStep(Replies) => DeliverMoves(c, s.(worker := Idle), s.worker.reply);
      case UiStep(u) => UiMoves(s, u);
      case CollectorStep(k) => CollectorMoves(c, s, k);
      case TaskStep(t) => TaskMoves(s, t);
    }
  }

  /** Whatever the interleaving, the tables are the worker's transactions applied in order. */
  lemma {:induction false} TablesAreTheTransactions(c: Config, s: State, es: seq<Event>)
    requires Valid(c, s, es)
    ensures Run(c, s, es).tables == RunOps(s.tables, OpsOf(c, s, es))
    decreases |es|
  {
    if es != [] {
      var s' := Next(c, s, es[0]);
      StepIsTransaction(c, s, es[0]);
      TablesAreTheTransactions(c, s', es[1..]);
      RunOpsConcat(s.tables, OpsIn(s, es[0]), OpsOf(c, s', es[1..]));
    }
  }

  /** So in every interleaving each cache row is what that IP's own results determine. */
  lemma CacheRowsInEveryRun(c: Config, s: State, es: seq<Event>, ip: string)
    requires Valid(c, s, es)
    ensures RowMatches(s.tables.cache, Attempts(OpsOf(c, s, es), ip), Run(c, s, es).tables.cache, ip)
  {
    TablesAreTheTransactions(c, s, es);
    CacheRefinesLog(s.tables, OpsOf(c, s, es), ip);
  }

  // ------------------------------------------------------------- settling

  /** Worker and UI steps in which a snapshot read succeeds. */
  ghost predicate Quiet(s: State, e: Event) {
    || e.UiStep?
    || (e.WorkerStep? && (e.w.Takes? && s.queue != [] && s.queue[0].ReadSnapshot? ==> e.w.ok))
  }

  function ReplyWork(reply: Reply): nat {
    match reply
    case Viewed(Ok(_)) => 2
    case Viewed(Err(_)) => 7
    case _ => 1
  }

  function QueueWork(queue: seq<Command>): nat {
    if queue == [] then 0 else (if queue[0].ReadSnapshot? then 3 else 8) + QueueWork(queue[1..])
  }

  function UiWork(ui: UiPhase, retry: bool): nat {
    match ui
    case UiIdle => if retry then 5 else 0
    case Asking => 4
    case Waiting => 0
    case Holding(Ok(_)) => 1
    case Holding(Err(_)) => 6
  }

  function WorkerWork(worker: Worker): nat {
    match worker
    case Idle => 0
    case MustWake(reply) => 6 + ReplyWork(reply)
    case MustReply(reply) => ReplyWork(reply)
  }

  /** A bound on the steps the worker and the UI still have to make. */
  function Work(s: State): nat {
    QueueWork(s.queue) + WorkerWork(s.worker) + (if s.wake then 5 else 0) + UiWork(s.ui, s.retry)
  }

  lemma {:induction false} QueueWorkAppend(queue: seq<Command>, x: Command)
    ensures QueueWork(queue + [x]) == QueueWork(queue) + if x.ReadSnapshot? then 3 else 8
  {
    if queue == [] {
      assert queue + [x] == [x];
    } else {
      assert (queue + [x])[1..] == queue[1..] + [x];
      QueueWorkAppend(queue[1..], x);
    }
  }

  lemma TakeWork(s: State, command: Command, now: int, ok: bool)
    requires command.ReadSnapshot? ==> ok
    ensures WorkerWork(Take(s, command, now, ok).worker) < if command.ReadSnapshot? then 3 else 8
  {
    hide View, Stale, Replaced, Updated, MarkStored, Closed;
  }

  lemma QuietWorkerDecreases(c: Config, s: State, w: WorkerEvent)
    requires WorkerCan(s, w) && Quiet(s, WorkerStep(w))
    ensures Work(WorkerDoes(c, s, w)) < Work(s)
  {
    hide Take, Deliver;
    match w {
      case Takes(now, ok) =>
        TakeMoves(s.(queue := s.queue[1..]), s.queue[0], now, ok);
        TakeWork(s.(queue := s.queue[1..]), s.queue[0], now, ok);
      case Wakes =>
      case Replies => DeliverMoves(c, s.(worker := Idle), s.worker.reply);
    }
  }

  lemma QuietStepsDecrease(c: Config, s: State, e: Event)
    requires Enabled(c, s, e) && Quiet(s, e)
    ensures Work(Next(c, s, e)) < Work(s)
  {
    hide WorkerDoes;
    match e {
      case UiStep(u) => if u.Asks? { QueueWorkAppend(s.queue, ReadSnapshot); }
      case WorkerStep(w) => QuietWorkerDecreases(c, s, w);
    }
  }

  ghost predicate QuietRun(c: Config, s: State, es: seq<Event>)
    requires Valid(c, s, es)
    decreases |es|
  {
    es == [] || (Quiet(s, es[0]) && QuietRun(c, Next(c, s, es[0]), es[1..]))
  }

  lemma {:induction false} QuietRunsAreBounded(c: Config, s: State, es: seq<Event>)
    requires Valid(c, s, es) && QuietRun(c, s, es)
    ensures |es| + Work(Run(c, s, es)) <= Work(s)
    decreases |es|
  {
    if es != [] {
      QuietStepsDecrease(c, s, es[0]);
      QuietRunsAreBounded(c, Next(c, s, es[0]), es[1..]);
    }
  }

  lemma NothingLeftToDo(c: Config, s: State)
    requires forall e | Quiet(s, e) :: !Enabled(c, s, e)
    ensures s.worker.Idle? && s.queue == [] && !s.ui.Asking? && !s.ui.Holding?
    ensures s.ui.UiIdle? ==> !s.wake && !s.retry
  {
    forall w: WorkerEvent | w == Takes(0, true) || w.Wakes? || w.Replies? ensures !WorkerCan(s, w) {
      assert Quiet(s, WorkerStep(w)) && !Enabled(c, s, WorkerStep(w));
    }
    assert !WorkerCan(s, Takes(0, true)) && !WorkerCan(s, Wakes) && !WorkerCan(s, Replies);
    forall u: UiEvent ensures !UiCan(s, u) {
      assert Quiet(s, UiStep(u)) && !Enabled(c, s, UiStep(u));
    }
    assert !UiCan(s, ReceivesWake) && !UiCan(s, Retries) && !UiCan(s, Asks) && !UiCan(s, Applies);
  }

  lemma StuckIsCurrent(c: Config, s: State)
    requires Mail(s) && Fresh(s)
    requires forall e | Quiet(s, e) :: !Enabled(c, s, e)
    ensures Current(s)
  {
    hide View;
    NothingLeftToDo(c, s);
    assert MailFor(s, Ui);
  }

  /** Once writers pause and reads succeed, the panel settles: from any reachable state the worker
      and the UI make at most `Work` steps, and when they have none left the panel is current. */
  lemma PanelSettles(c: Config, s0: State, before: seq<Event>, after: seq<Event>)
    requires Init(s0) && Valid(c, s0, before)
    requires Valid(c, Run(c, s0, before), after) && QuietRun(c, Run(c, s0, before), after)
    ensures |after| <= Work(Run(c, s0, before))
    ensures var s := Run(c, Run(c, s0, before), after);
            (forall e | Quiet(s, e) :: !Enabled(c, s, e)) ==> s.loaded && s.shown == View(s.tables)
  {
    var initial := s0.tables.peers.Keys;
    InvInit(c, s0);
    InvRun(c, s0, before, initial);
    InvRun(c, Run(c, s0, before), after, initial);
    QuietRunsAreBounded(c, Run(c, s0, before), after);
    var s := Run(c, Run(c, s0, before), after);
    if forall e | Quiet(s, e) :: !Enabled(c, s, e) {
      StuckIsCurrent(c, s);
    }
  }
}
