/** What every interleaving of the peer geography pipeline keeps. */
module GeoPipelineProofs {
  import opened Ordering
  import opened Wrappers
  import opened GeoSnapshot
  import opened GeoStore
  import opened PeerAddresses
  import opened GeoPipeline

  // --------------------------------------------------------- messages

  function Sender(command: Command): Client {
    match command
    case ReplaceSnapshot(_) => Collector
    case UpdateLocations(id, _) => Enricher(id)
    case ReadSnapshot => Ui
  }

  function Receiver(reply: Reply): Client {
    match reply
    case Replied(_) => Collector
    case Acked(id) => Enricher(id)
    case Viewed(_) => Ui
  }

  function Queued(queue: seq<Command>, client: Client): nat {
    if queue == [] then 0 else (if Sender(queue[0]) == client then 1 else 0) + Queued(queue[1..], client)
  }

  function InWorker(worker: Worker, client: Client): nat {
    if !worker.Idle? && Receiver(worker.reply) == client then 1 else 0
  }

  predicate Awaits(s: State, client: Client) {
    match client
    case Ui => s.ui.Waiting?
    case Collector => s.collector.Replacing?
    case Enricher(id) => id < |s.tasks| && s.tasks[id].phase.Writing?
  }

  /** A waiting client has exactly one request or reply on its way, any other client none. */
  ghost predicate MailFor(s: State, client: Client) {
    Queued(s.queue, client) + InWorker(s.worker, client) == if Awaits(s, client) then 1 else 0
  }

  ghost predicate Mail(s: State) {
    forall client :: MailFor(s, client)
  }

  lemma {:induction false} QueuedAppend(queue: seq<Command>, x: Command, client: Client)
    ensures Queued(queue + [x], client) == Queued(queue, client) + if Sender(x) == client then 1 else 0
  {
    if queue == [] {
      assert queue + [x] == [x];
    } else {
      assert (queue + [x])[1..] == queue[1..] + [x];
      QueuedAppend(queue[1..], x, client);
    }
  }

  lemma {:induction false} QueuedMember(queue: seq<Command>, i: nat)
    requires i < |queue|
    ensures Queued(queue, Sender(queue[i])) > 0
  {
    if i > 0 {
      QueuedMember(queue[1..], i - 1);
    }
  }

  // ------------------------------------------- what each agent can change

  lemma TakeMoves(s: State, command: Command, now: int, ok: bool)
    requires s.worker.Idle?
    ensures var s' := Take(s, command, now, ok);
            && s' == s.(tables := s'.tables, worker := s'.worker, rounds := s'.rounds, tasks := s'.tasks)
            && !s'.worker.Idle? && Receiver(s'.worker.reply) == Sender(command)
            && |s'.tasks| == |s.tasks|
            && (forall i | 0 <= i < |s.tasks| ::
                  s'.tasks[i] == if Sender(command) == Enricher(i)
                                 then s.tasks[i].(writes := s.tasks[i].writes + [Closed(s.rounds)])
                                 else s.tasks[i])
            && s'.rounds == (if command.ReplaceSnapshot? && ok then MarkStored(s.rounds, Commit(s'.tables, now))
                             else s.rounds)
            && (!(command.ReplaceSnapshot? && ok) ==> s'.tables.peers == s.tables.peers)
            && (!s'.worker.MustWake? ==> s'.tables == s.tables)
            && (s'.worker.reply.Replied? && s'.worker.reply.needs.Ok? ==> command.ReplaceSnapshot? && ok)
  {
    hide View, Stale, UpsertAll;
  }

  lemma CommitMoves(s: State, ips: seq<string>, now: int)
    ensures var s' := Take(s, ReplaceSnapshot(ips), now, true);
            && s'.tables.peers.Keys == Elems(ips)
            && s'.worker.reply == Replied(Ok(Sorted(StrLt, Stale(s'.tables, now))))
            && Stale(s'.tables, now) <= Elems(ips)
  {
  }

  lemma DeliverMoves(c: Config, s: State, reply: Reply)
    ensures var s' := Deliver(c, s, reply);
            && s' == s.(collector := s'.collector, tasks := s'.tasks, ui := s'.ui)
            && |s'.tasks| == |s.tasks|
            && (forall i | 0 <= i < |s.tasks| ::
                  s'.tasks[i] == if reply == Acked(i) then s.tasks[i].(phase := Written) else s.tasks[i])
            && s'.ui == (if reply.Viewed? then Holding(reply.view) else s.ui)
            && s'.collector ==
               if !reply.Replied? then s.collector
               else if reply.needs.Ok? then Spawning(Enrichable(c.codec, reply.needs.value))
               else Sleeping
  {
  }

  lemma UiMoves(s: State, e: UiEvent)
    requires UiCan(s, e)
    ensures var s' := UiDoes(s, e);
            && s' == s.(queue := s'.queue, wake := s'.wake, ui := s'.ui, shown := s'.shown, loaded := s'.loaded,
                retry := s'.retry)
            && s'.queue == (if e.Asks? then s.queue + [ReadSnapshot] else s.queue)
            && (s'.ui.Waiting? <==> e.Asks?) && !s.ui.Waiting?
  {
  }

  lemma CollectorMoves(c: Config, s: State, e: CollectorEvent)
    requires CollectorCan(c, s, e)
    ensures var s' := CollectorDoes(c, s, e);
            && s' == s.(queue := s'.queue, collector := s'.collector, pending := s'.pending, tasks := s'.tasks,
                rounds := s'.rounds)
            && s'.tasks == (if e.Spawns? then s.tasks + [Task(s.collector.ip, |s.rounds|, LookingUp, [], None)]
                            else s.tasks)
            && s'.rounds == (if e.EndsRound? then s.rounds + [Round(s.collector.results, None)] else s.rounds)
            && (s'.collector.Replacing? ==> e.EndsRound? && FirstError(s.collector.results).None?)
            && (s'.collector.Replacing? ==>
                  s'.queue == s.queue + [ReplaceSnapshot(Sorted(StrLt, Reported(c.codec, s.collector.results)))])
            && (!s'.collector.Replacing? ==> s'.queue == s.queue)
            && (!e.Claims? ==> s'.pending == s.pending)
            && (s'.collector.Returned? <==> e.Returns?) && !s.collector.Replacing? && !s.collector.Returned?
  {
    hide Sorted, Reported;
  }

  lemma TaskMoves(s: State, e: TaskEvent)
    requires TaskCan(s, e)
    ensures var s' := TaskDoes(s, e);
            && s' == s.(queue := s'.queue, pending := s'.pending, tasks := s'.tasks)
            && s'.tasks == s.tasks[e.id := if e.LooksUp?
                                           then s.tasks[e.id].(phase := Writing, heard := Some(e.lookup))
                                           else s.tasks[e.id].(phase := Finished(Closed(s.rounds)))]
            && s'.pending == (if e.LooksUp? then s.pending else s.pending - {s.tasks[e.id].ip})
            && s'.queue == (if e.Releases? then s.queue
                            else s.queue + [UpdateLocations(e.id, BuildLocationEntry(s.tasks[e.id].ip, e.lookup))])
  {
    hide BuildLocationEntry;
  }

  // ------------------------------------------------- requests and replies

  lemma MailForWorker(c: Config, s: State, e: WorkerEvent, client: Client)
    requires MailFor(s, client) && WorkerCan(s, e)
    ensures MailFor(WorkerDoes(c, s, e), client)
  {
    hide Take, Deliver;
    match e {
      case Takes(now, ok) => TakeMoves(s.(queue := s.queue[1..]), s.queue[0], now, ok);
      case Wakes =>
      case Replies => DeliverMoves(c, s.(worker := Idle), s.worker.reply);
    }
  }

  lemma MailForOthers(c: Config, s: State, e: Event, client: Client)
    requires MailFor(s, client) && Enabled(c, s, e) && !e.WorkerStep?
    ensures MailFor(Next(c, s, e), client)
  {
    hide UiDoes, CollectorDoes, TaskDoes, Queued, BuildLocationEntry, CollectorCan;
    var s' := Next(c, s, e);
    match e {
      case UiStep(u) => UiMoves(s, u);
      case CollectorStep(k) => CollectorMoves(c, s, k);
      case TaskStep(t) => TaskMoves(s, t);
    }
    if |s'.queue| > |s.queue| {
      QueuedAppend(s.queue, s'.queue[|s.queue|], client);
    }
  }

  lemma MailStep(c: Config, s: State, e: Event)
    requires Mail(s) && Enabled(c, s, e)
    ensures Mail(Next(c, s, e))
  {
    hide Queued, InWorker, Awaits;
    forall client ensures MailFor(Next(c, s, e), client) {
      assert MailFor(s, client);
      if e.WorkerStep? { MailForWorker(c, s, e.w, client); } else { MailForOthers(c, s, e, client); }
    }
  }

  // -------------------------------------------- what the commands carry

  ghost predicate Complete(c: Config, r: Round) {
    |r.results| == c.nodes && FirstError(r.results).None?
  }

  ghost function LastReported(c: Config, rounds: seq<Round>): set<string> {
    if rounds == [] then {} else Reported(c.codec, rounds[|rounds| - 1].results)
  }

  /** The latest round has not been committed. */
  predicate LastIsOpen(rounds: seq<Round>) {
    rounds != [] && rounds[|rounds| - 1].commit.None?
  }

  /** The addresses that were due for a look-up when the round was committed. */
  function DueIn(r: Round): set<string> {
    match r.commit
    case Some(commit) => Stale(commit.tables, commit.now)
    case None => {}
  }

  ghost predicate OrderOk(c: Config, s: State, command: Command) {
    match command
    case ReplaceSnapshot(ips) => ips == Sorted(StrLt, LastReported(c, s.rounds)) && LastIsOpen(s.rounds)
    case UpdateLocations(id, entry) =>
      && id < |s.tasks| && s.tasks[id].heard.Some?
      && entry == BuildLocationEntry(s.tasks[id].ip, s.tasks[id].heard.value)
    case ReadSnapshot => true
  }

  ghost predicate ReplyOk(c: Config, s: State, reply: Reply) {
    match reply
    case Replied(Ok(needs)) =>
      && s.rounds != [] && s.rounds[|s.rounds| - 1].commit.Some?
      && Elems(needs) <= LastReported(c, s.rounds)
      && Elems(needs) == DueIn(s.rounds[|s.rounds| - 1])
    case Replied(Err(_)) => LastIsOpen(s.rounds)
    case _ => true
  }

  ghost predicate Orders(c: Config, s: State) {
    && (forall i | 0 <= i < |s.rounds| && s.rounds[i].commit.Some? :: Complete(c, s.rounds[i]))
    && (s.collector.Replacing? ==> s.rounds != [] && Complete(c, s.rounds[|s.rounds| - 1]))
    && (forall i | 0 <= i < |s.queue| :: OrderOk(c, s, s.queue[i]))
    && (!s.worker.Idle? ==> ReplyOk(c, s, s.worker.reply))
    && NewAreUnheard(s)
  }

  /** Tasks are only added, and keep their IPs and what they have heard. */
  predicate KeepsTasks(s: State, s': State) {
    && |s.tasks| <= |s'.tasks|
    && (forall i | 0 <= i < |s.tasks| ::
          s'.tasks[i].ip == s.tasks[i].ip && (s.tasks[i].heard.Some? ==> s'.tasks[i].heard == s.tasks[i].heard))
  }

  predicate NewAreUnheard(s: State) {
    forall i | 0 <= i < |s.tasks| && s.tasks[i].phase.LookingUp? :: s.tasks[i].heard.None?
  }

  /** Orders survives a step that keeps the rounds and the tasks. */
  lemma OrdersFrame(c: Config, s: State, s': State)
    requires Orders(c, s) && s'.rounds == s.rounds
    requires s'.collector.Replacing? ==> s.collector.Replacing?
    requires KeepsTasks(s, s')
    requires forall i | 0 <= i < |s'.queue| :: s'.queue[i] in s.queue || OrderOk(c, s', s'.queue[i])
    requires !s'.worker.Idle? ==> ReplyOk(c, s', s'.worker.reply)
    requires NewAreUnheard(s')
    ensures Orders(c, s')
  {
    forall i | 0 <= i < |s'.queue| ensures OrderOk(c, s', s'.queue[i]) {
      if s'.queue[i] in s.queue {
        var k :| 0 <= k < |s.queue| && s.queue[k] == s'.queue[i];
        assert OrderOk(c, s, s.queue[k]);
      }
    }
  }

  lemma ReplaceIsAwaited(s: State)
    requires Mail(s) && s.queue != [] && s.queue[0].ReplaceSnapshot?
    ensures s.collector.Replacing?
  {
    assert MailFor(s, Collector);
  }

  lemma OrderKept(c: Config, s: State, s': State, command: Command)
    requires OrderOk(c, s, command) && !command.ReplaceSnapshot?
    requires KeepsTasks(s, s')
    ensures OrderOk(c, s', command)
  {
  }

  lemma MarkingKeepsReports(c: Config, rounds: seq<Round>, commit: Commit)
    requires rounds != [] && Complete(c, rounds[|rounds| - 1])
    requires forall i | 0 <= i < |rounds| && rounds[i].commit.Some? :: Complete(c, rounds[i])
    ensures var marked := MarkStored(rounds, commit);
            && LastReported(c, marked) == LastReported(c, rounds)
            && marked != [] && marked[|marked| - 1].commit == Some(commit)
            && forall i | 0 <= i < |marked| && marked[i].commit.Some? :: Complete(c, marked[i])
  {
  }

  lemma CommitReplies(c: Config, s: State, now: int)
    requires Mail(s) && Orders(c, s) && WorkerCan(s, Takes(now, true)) && s.queue[0].ReplaceSnapshot?
    ensures var s' := WorkerDoes(c, s, Takes(now, true));
            ReplyOk(c, s', s'.worker.reply) && LastReported(c, s'.rounds) == LastReported(c, s.rounds)
  {
    hide Take, Reported, Stale, Complete, LastReported, MarkStored, Mail, Sorted;
    TakeMoves(s.(queue := s.queue[1..]), s.queue[0], now, true);
    CommitMoves(s.(queue := s.queue[1..]), s.queue[0].ips, now);
    assert OrderOk(c, s, s.queue[0]);
    ReplaceIsAwaited(s);
    MarkingKeepsReports(c, s.rounds, Commit(WorkerDoes(c, s, Takes(now, true)).tables, now));
  }

  lemma OrdersCommit(c: Config, s: State, now: int)
    requires Mail(s) && Orders(c, s) && WorkerCan(s, Takes(now, true)) && s.queue[0].ReplaceSnapshot?
    ensures Orders(c, WorkerDoes(c, s, Takes(now, true)))
  {
    hide Take, Complete, LastReported, MarkStored, Mail, OrderOk, ReplyOk;
    var s' := WorkerDoes(c, s, Takes(now, true));
    TakeMoves(s.(queue := s.queue[1..]), s.queue[0], now, true);
    CommitReplies(c, s, now);
    ReplaceIsAwaited(s);
    OneReplace(s);
    forall i | 0 <= i < |s'.queue| ensures OrderOk(c, s', s'.queue[i]) {
      OrderKept(c, s, s', s.queue[i + 1]);
    }
    RoundsOfCommit(c, s, s', Commit(s'.tables, now));
    MarkingKeepsReports(c, s.rounds, Commit(s'.tables, now));
  }

  /** Behind a queued replace there is no second one. */
  lemma OneReplace(s: State)
    requires Mail(s) && s.queue != [] && s.queue[0].ReplaceSnapshot?
    ensures forall i | 1 <= i < |s.queue| :: !s.queue[i].ReplaceSnapshot?
  {
    assert MailFor(s, Collector);
    forall i | 1 <= i < |s.queue| ensures !s.queue[i].ReplaceSnapshot? {
      QueuedMember(s.queue[1..], i - 1);
    }
  }

  lemma RoundsOfCommit(c: Config, s: State, s': State, commit: Commit)
    requires s'.rounds == MarkStored(s.rounds, commit) && s.rounds != [] && Complete(c, s.rounds[|s.rounds| - 1])
    ensures s'.rounds != [] && Complete(c, s'.rounds[|s'.rounds| - 1])
  {
  }

  lemma ReplaceFindsOpenRound(c: Config, s: State)
    requires Orders(c, s) && s.queue != [] && s.queue[0].ReplaceSnapshot?
    ensures LastIsOpen(s.rounds)
  {
    assert OrderOk(c, s, s.queue[0]);
  }

  lemma OrdersWorker(c: Config, s: State, e: WorkerEvent)
    requires Orders(c, s) && WorkerCan(s, e)
    requires !(e.Takes? && e.ok && s.queue[0].ReplaceSnapshot?)
    ensures Orders(c, WorkerDoes(c, s, e))
  {
    hide Take, Deliver, LastReported, Complete, OrderOk;
    match e {
      case Takes(now, ok) =>
        TakeMoves(s.(queue := s.queue[1..]), s.queue[0], now, ok);
        if s.queue[0].ReplaceSnapshot? { ReplaceFindsOpenRound(c, s); }
      case Wakes =>
      case Replies => DeliverMoves(c, s.(worker := Idle), s.worker.reply);
    }
    OrdersFrame(c, s, WorkerDoes(c, s, e));
  }

  /** While the collector is not waiting, no replace is under way. */
  lemma NoReplaceUnderWay(s: State)
    requires Mail(s) && !s.collector.Replacing?
    ensures forall i | 0 <= i < |s.queue| :: !s.queue[i].ReplaceSnapshot?
    ensures s.worker.Idle? || !s.worker.reply.Replied?
  {
    assert MailFor(s, Collector);
    forall i | 0 <= i < |s.queue| ensures !s.queue[i].ReplaceSnapshot? {
      QueuedMember(s.queue, i);
    }
  }

  lemma OrdersEndRound(c: Config, s: State)
    requires Mail(s) && Orders(c, s) && CollectorCan(c, s, EndsRound)
    ensures Orders(c, CollectorDoes(c, s, EndsRound))
  {
    hide CollectorDoes, LastReported, FirstError, OrderOk, Mail;
    CollectorMoves(c, s, EndsRound);
    var s' := CollectorDoes(c, s, EndsRound);
    forall i | 0 <= i < |s'.queue| ensures OrderOk(c, s', s'.queue[i]) {
      OrderAfterEndRound(c, s, i);
    }
    NoReplaceUnderWay(s);
    forall i | 0 <= i < |s'.rounds| && s'.rounds[i].commit.Some? ensures Complete(c, s'.rounds[i]) {
      assert s'.rounds[i] == s.rounds[i];
    }
  }

  lemma OrderAfterEndRound(c: Config, s: State, i: nat)
    requires Mail(s) && Orders(c, s) && CollectorCan(c, s, EndsRound) && i < |CollectorDoes(c, s, EndsRound).queue|
    ensures OrderOk(c, CollectorDoes(c, s, EndsRound), CollectorDoes(c, s, EndsRound).queue[i])
  {
    hide CollectorDoes, Reported, FirstError, Complete, ReplyOk, Mail;
    CollectorMoves(c, s, EndsRound);
    NoReplaceUnderWay(s);
    if i < |s.queue| {
      assert OrderOk(c, s, s.queue[i]);
    }
  }

  lemma OrdersOthers(c: Config, s: State, e: Event)
    requires Orders(c, s) && Enabled(c, s, e) && !e.WorkerStep? && e != CollectorStep(EndsRound)
    ensures Orders(c, Next(c, s, e))
  {
    hide UiDoes, CollectorDoes, TaskDoes, LastReported, Complete;
    match e {
      case UiStep(u) => UiMoves(s, u);
      case CollectorStep(k) => CollectorMoves(c, s, k);
      case TaskStep(t) => TaskMoves(s, t);
    }
    OrdersFrame(c, s, Next(c, s, e));
  }

  lemma OrdersStep(c: Config, s: State, e: Event)
    requires Mail(s) && Orders(c, s) && Enabled(c, s, e)
    ensures Orders(c, Next(c, s, e))
  {
    hide Orders, Mail, UiDoes, TaskDoes, WorkerDoes;
    match e {
      case WorkerStep(Takes(now, true)) =>
        if s.queue[0].ReplaceSnapshot? { OrdersCommit(c, s, now); } else { OrdersWorker(c, s, e.w); }
      case WorkerStep(w) => OrdersWorker(c, s, w);
      case CollectorStep(EndsRound) => OrdersEndRound(c, s);
      case _ => OrdersOthers(c, s, e);
    }
  }

  // ------------------------------------------------------ the peer table

  /** The addresses of the last round whose snapshot was stored, else the initial ones. */
  ghost function StoredPeers(c: Config, rounds: seq<Round>, initial: set<string>): set<string> {
    if rounds == [] then initial
    else
      var last := rounds[|rounds| - 1];
      if last.commit.Some? then Reported(c.codec, last.results)
      else StoredPeers(c, rounds[..|rounds| - 1], initial)
  }

  ghost predicate Peers(c: Config, s: State, initial: set<string>) {
    s.tables.peers.Keys == StoredPeers(c, s.rounds, initial)
  }

  lemma PeersStep(c: Config, s: State, e: Event, initial: set<string>)
    requires Mail(s) && Orders(c, s) && Peers(c, s, initial) && Enabled(c, s, e)
    ensures Peers(c, Next(c, s, e), initial)
  {
    hide Take, Deliver, UiDoes, CollectorDoes, TaskDoes, Reported, Mail;
    match e {
      case WorkerStep(Takes(now, ok)) =>
        TakeMoves(s.(queue := s.queue[1..]), s.queue[0], now, ok);
        if s.queue[0].ReplaceSnapshot? && ok {
          CommitMoves(s.(queue := s.queue[1..]), s.queue[0].ips, now);
          PeersCommit(c, s, Commit(Next(c, s, e).tables, now), initial);
        }
      case WorkerStep(Wakes) =>
      case WorkerStep(Replies) => DeliverMoves(c, s.(worker := Idle), s.worker.reply);
      case UiStep(u) => UiMoves(s, u);
      case CollectorStep(k) =>
        CollectorMoves(c, s, k);
        assert Next(c, s, e).rounds[..|s.rounds|] == s.rounds;
      case TaskStep(t) => TaskMoves(s, t);
    }
  }

  lemma PeersCommit(c: Config, s: State, commit: Commit, initial: set<string>)
    requires Mail(s) && Orders(c, s) && s.queue != [] && s.queue[0].ReplaceSnapshot?
    ensures StoredPeers(c, MarkStored(s.rounds, commit), initial) == Elems(s.queue[0].ips)
  {
    hide Reported;
    assert OrderOk(c, s, s.queue[0]) && MailFor(s, Collector);
  }

  // ----------------------------------------------------- panel freshness

  ghost predicate Current(s: State) {
    s.loaded && s.shown == View(s.tables)
  }

  predicate ViewOrFailed(result: Result<GeoViewSnapshot>, view: GeoViewSnapshot) {
    result.Err? || result.value == view
  }

  /** Unless a wake is pending or owed, the UI shows `view`, will retry, or is already
      fetching what is `view` or a failure. A stale answer is never about to be shown
      without a wake behind it. */
  ghost predicate FreshFor(s: State, view: GeoViewSnapshot) {
    s.wake || s.worker.MustWake? ||
    match s.ui
    case UiIdle => s.retry || (s.loaded && s.shown == view)
    case Asking => true
    case Waiting =>
      || Queued(s.queue, Ui) == 1
      || (s.worker.MustReply? && s.worker.reply.Viewed? && ViewOrFailed(s.worker.reply.view, view))
    case Holding(held) => ViewOrFailed(held, view)
  }

  ghost predicate Fresh(s: State) {
    FreshFor(s, View(s.tables))
  }

  lemma FreshTakes(s: State, now: int, ok: bool)
    requires Mail(s) && Fresh(s) && s.worker.Idle? && s.queue != []
    ensures Fresh(Take(s.(queue := s.queue[1..]), s.queue[0], now, ok))
  {
    var s' := Take(s.(queue := s.queue[1..]), s.queue[0], now, ok);
    TakeMoves(s.(queue := s.queue[1..]), s.queue[0], now, ok);
    if !s'.worker.MustWake? {
      TakeWithoutCommit(s.(queue := s.queue[1..]), s.queue[0], now, ok);
      assert MailFor(s, Ui);
    }
  }

  lemma TakeWithoutCommit(s: State, command: Command, now: int, ok: bool)
    requires !Take(s, command, now, ok).worker.MustWake?
    ensures Take(s, command, now, ok).tables == s.tables
    ensures command.ReadSnapshot? ==>
      Take(s, command, now, ok).worker == MustReply(Viewed(if ok then Ok(View(s.tables)) else Err("read failed")))
  {
  }

  lemma FreshReplies(c: Config, s: State, view: GeoViewSnapshot)
    requires Mail(s) && FreshFor(s, view) && s.worker.MustReply?
    ensures FreshFor(Deliver(c, s.(worker := Idle), s.worker.reply), view)
    ensures Deliver(c, s.(worker := Idle), s.worker.reply).tables == s.tables
  {
    assert MailFor(s, Ui);
  }

  lemma FreshUi(s: State, e: UiEvent, view: GeoViewSnapshot)
    requires Mail(s) && FreshFor(s, view) && UiCan(s, e)
    ensures FreshFor(UiDoes(s, e), view)
    ensures UiDoes(s, e).tables == s.tables
  {
    assert MailFor(s, Ui);
    if e.Asks? {
      QueuedAppend(s.queue, ReadSnapshot, Ui);
    }
  }

  lemma FreshRest(c: Config, s: State, e: Event, view: GeoViewSnapshot)
    requires Mail(s) && FreshFor(s, view) && Enabled(c, s, e) && (e.CollectorStep? || e.TaskStep?)
    ensures FreshFor(Next(c, s, e), view)
    ensures Next(c, s, e).tables == s.tables
  {
    hide CollectorDoes, TaskDoes, Mail, Queued, CollectorCan, BuildLocationEntry;
    var s' := Next(c, s, e);
    match e {
      case CollectorStep(k) => CollectorMoves(c, s, k);
      case TaskStep(t) => TaskMoves(s, t);
    }
    if |s'.queue| > |s.queue| {
      QueuedAppend(s.queue, s'.queue[|s.queue|], Ui);
    }
  }

  lemma FreshStep(c: Config, s: State, e: Event)
    requires Mail(s) && Fresh(s) && Enabled(c, s, e)
    ensures Fresh(Next(c, s, e))
  {
    var view := View(s.tables);
    match e {
      case WorkerStep(Takes(now, ok)) => FreshTakes(s, now, ok);
      case WorkerStep(Wakes) =>
      case WorkerStep(Replies) => FreshReplies(c, s, view);
      case UiStep(u) => FreshUi(s, u, view);
      case _ => FreshRest(c, s, e, view);
    }
  }

  // ---------------------------------------------- one lookup at a time

  predicate IsLive(s: State, i: nat) {
    i < |s.tasks| && !s.tasks[i].phase.Finished?
  }

  ghost function LiveIps(s: State): set<string> {
    set i | 0 <= i < |s.tasks| && IsLive(s, i) :: s.tasks[i].ip
  }

  ghost function ClaimedIp(s: State): set<string> {
    if s.collector.Claimed? then {s.collector.ip} else {}
  }

  /** The pending set is the IPs of unreleased tasks and of the one being spawned, each held once. */
  ghost predicate Pending(s: State) {
    && s.pending == LiveIps(s) + ClaimedIp(s)
    && LiveIps(s) !! ClaimedIp(s)
    && forall i, j | 0 <= i < j < |s.tasks| && IsLive(s, i) && IsLive(s, j) :: s.tasks[i].ip != s.tasks[j].ip
  }

  /** Steps that only move tasks between unfinished phases. */
  lemma PendingFrame(s: State, s': State)
    requires Pending(s) && s'.pending == s.pending && ClaimedIp(s') == ClaimedIp(s)
    requires |s'.tasks| == |s.tasks|
    requires forall i | 0 <= i < |s.tasks| ::
               s'.tasks[i].ip == s.tasks[i].ip && (s'.tasks[i].phase.Finished? <==> s.tasks[i].phase.Finished?)
    ensures Pending(s')
  {
    assert forall i | 0 <= i < |s.tasks| :: IsLive(s', i) == IsLive(s, i);
    assert LiveIps(s') == LiveIps(s);
  }

  lemma PendingSpawn(c: Config, s: State)
    requires Pending(s) && CollectorCan(c, s, Spawns)
    ensures Pending(CollectorDoes(c, s, Spawns))
  {
    var s' := CollectorDoes(c, s, Spawns);
    var n := |s.tasks|;
    assert forall i | 0 <= i < n :: s'.tasks[i] == s.tasks[i] && IsLive(s', i) == IsLive(s, i);
    assert IsLive(s', n) && s'.tasks[n].ip == s.collector.ip;
    assert LiveIps(s') == LiveIps(s) + {s.collector.ip};
    forall i | 0 <= i < n && IsLive(s', i) ensures s'.tasks[i].ip != s'.tasks[n].ip {
      assert s.tasks[i].ip in LiveIps(s);
    }
  }

  lemma PendingRelease(s: State, id: nat)
    requires Pending(s) && TaskCan(s, Releases(id))
    ensures Pending(TaskDoes(s, Releases(id)))
  {
    var s' := TaskDoes(s, Releases(id));
    var ip := s.tasks[id].ip;
    assert IsLive(s, id) && ip in LiveIps(s);
    assert forall i | 0 <= i < |s.tasks| ::
        s'.tasks[i].ip == s.tasks[i].ip && (IsLive(s', i) <==> IsLive(s, i) && i != id);
    forall x ensures x in LiveIps(s') <==> x in LiveIps(s) && x != ip {
      if x in LiveIps(s) && x != ip {
        var i :| 0 <= i < |s.tasks| && IsLive(s, i) && s.tasks[i].ip == x;
        assert IsLive(s', i);
      }
    }
    assert LiveIps(s') == LiveIps(s) - {ip};
  }

  lemma PendingClaim(s: State, todo: seq<string>)
    requires Pending(s) && s.collector == Spawning(todo)
    ensures Pending(Claim(s, todo))
  {
    hide LiveIps;
    var s' := Claim(s, todo);
    assert s'.tasks == s.tasks && LiveIps(s') == LiveIps(s) by { LiveIpsOf(s, s'); }
  }

  lemma LiveIpsOf(s: State, s': State)
    requires s'.tasks == s.tasks
    ensures LiveIps(s') == LiveIps(s)
  {
    assert forall i :: IsLive(s', i) == IsLive(s, i);
  }

  lemma PendingStep(c: Config, s: State, e: Event)
    requires Mail(s) && Pending(s) && Enabled(c, s, e)
    ensures Pending(Next(c, s, e))
  {
    hide Take, Deliver, UiDoes, CollectorDoes, TaskDoes, Pending;
    match e {
      case WorkerStep(w) => PendingWorker(c, s, w);
      case UiStep(u) => UiMoves(s, u); PendingFrame(s, UiDoes(s, u));
      case CollectorStep(Spawns) => PendingSpawn(c, s);
      case CollectorStep(Claims) => PendingClaims(c, s);
      case CollectorStep(k) => CollectorMoves(c, s, k); PendingCollector(c, s, k);
      case TaskStep(Releases(id)) => PendingRelease(s, id);
      case TaskStep(t) => TaskMoves(s, t); PendingFrame(s, TaskDoes(s, t));
    }
  }

  lemma PendingClaims(c: Config, s: State)
    requires Pending(s) && CollectorCan(c, s, Claims)
    ensures Pending(CollectorDoes(c, s, Claims))
  {
    hide Pending;
    PendingClaim(s, s.collector.todo);
  }

  lemma PendingCollector(c: Config, s: State, k: CollectorEvent)
    requires Pending(s) && CollectorCan(c, s, k) && !k.Spawns? && !k.Claims?
    ensures Pending(CollectorDoes(c, s, k))
  {
    hide Pending, Merged;
    PendingFrame(s, CollectorDoes(c, s, k));
  }

  lemma PendingWorker(c: Config, s: State, e: WorkerEvent)
    requires Mail(s) && Pending(s) && WorkerCan(s, e)
    ensures Pending(WorkerDoes(c, s, e))
  {
    hide Take, Deliver, Pending;
    match e {
      case Takes(now, ok) => TakeMoves(s.(queue := s.queue[1..]), s.queue[0], now, ok);
      case Wakes =>
      case Replies =>
        DeliverMoves(c, s.(worker := Idle), s.worker.reply);
        assert MailFor(s, Receiver(s.worker.reply));
    }
    PendingFrame(s, WorkerDoes(c, s, e));
  }

  // ------------------------------------------------- what is looked up

  /** The latest of the first `n` rounds was committed, some node reported the IP in it, and at that commit the IP
      had no cache row or one last refreshed more than 24 hours before. */
  ghost predicate Caused(c: Config, rounds: seq<Round>, n: nat, ip: string) {
    && 1 <= n <= |rounds|
    && ip in DueIn(rounds[n - 1]) && ip in Reported(c.codec, rounds[n - 1].results)
    && MayLookUp(c.codec, ip)
  }

  ghost function Candidates(s: State): seq<string> {
    match s.collector
    case Spawning(todo) => todo
    case Claimed(ip, rest) => [ip] + rest
    case _ => []
  }

  /** Every look-up, under way or next in line, was caused by the commit it follows. */
  ghost predicate Lookups(c: Config, s: State) {
    && (forall i | 0 <= i < |s.tasks| :: Caused(c, s.rounds, s.tasks[i].asOf, s.tasks[i].ip))
    && (forall i | 0 <= i < |Candidates(s)| :: Caused(c, s.rounds, |s.rounds|, Candidates(s)[i]))
  }

  lemma CauseStays(c: Config, s: State, e: Event, n: nat, ip: string)
    requires Orders(c, s) && Enabled(c, s, e) && Caused(c, s.rounds, n, ip)
    ensures Caused(c, Next(c, s, e).rounds, n, ip)
  {
    hide Reported, Enabled, Next, Orders, Stale, MayLookUp;
    CommitsStay(c, s, e);
    assert Next(c, s, e).rounds[n - 1] == s.rounds[n - 1];
  }

  lemma WorkerKeeps(c: Config, s: State, w: WorkerEvent)
    requires WorkerCan(s, w)
    ensures |WorkerDoes(c, s, w).tasks| == |s.tasks|
    ensures forall i | 0 <= i < |s.tasks| ::
              WorkerDoes(c, s, w).tasks[i].ip == s.tasks[i].ip && WorkerDoes(c, s, w).tasks[i].asOf == s.tasks[i].asOf
  {
    hide Take, Deliver, MarkStored;
    match w {
      case Takes(now, ok) => TakeMoves(s.(queue := s.queue[1..]), s.queue[0], now, ok);
      case Wakes =>
      case Replies => DeliverMoves(c, s.(worker := Idle), s.worker.reply);
    }
  }

  /** A commit only touches a round that was still open. */
  lemma WorkerKeepsCommits(c: Config, s: State, w: WorkerEvent)
    requires Orders(c, s) && WorkerCan(s, w)
    ensures |WorkerDoes(c, s, w).rounds| == |s.rounds|
    ensures forall i | 0 <= i < |s.rounds| && s.rounds[i].commit.Some? :: WorkerDoes(c, s, w).rounds[i] == s.rounds[i]
  {
    hide Take, Deliver, LastReported, Complete, ReplyOk, Sorted;
    match w {
      case Takes(now, ok) =>
        assert OrderOk(c, s, s.queue[0]);
        TakeMoves(s.(queue := s.queue[1..]), s.queue[0], now, ok);
      case Wakes =>
      case Replies => DeliverMoves(c, s.(worker := Idle), s.worker.reply);
    }
  }

  lemma CommitsStay(c: Config, s: State, e: Event)
    requires Orders(c, s) && Enabled(c, s, e)
    ensures |s.rounds| <= |Next(c, s, e).rounds|
    ensures forall i | 0 <= i < |s.rounds| && s.rounds[i].commit.Some? :: Next(c, s, e).rounds[i] == s.rounds[i]
  {
    hide Orders, WorkerDoes, UiDoes, CollectorDoes, TaskDoes;
    match e {
      case WorkerStep(w) => WorkerKeepsCommits(c, s, w);
      case UiStep(u) => UiMoves(s, u);
      case CollectorStep(k) => CollectorMoves(c, s, k);
      case TaskStep(t) => TaskMoves(s, t);
    }
  }

  /** Tasks are only ever added, and keep their IPs and causes. */
  lemma StepKeeps(c: Config, s: State, e: Event)
    requires Enabled(c, s, e)
    ensures |s.tasks| <= |Next(c, s, e).tasks|
    ensures forall i | 0 <= i < |s.tasks| ::
              Next(c, s, e).tasks[i].ip == s.tasks[i].ip && Next(c, s, e).tasks[i].asOf == s.tasks[i].asOf
    ensures |s.tasks| < |Next(c, s, e).tasks| ==>
              && s.collector.Claimed?
              && Next(c, s, e).tasks == s.tasks + [Task(s.collector.ip, |s.rounds|, LookingUp, [], None)]
  {
    hide WorkerDoes, UiDoes, CollectorDoes, TaskDoes;
    match e {
      case WorkerStep(w) => WorkerKeeps(c, s, w);
      case UiStep(u) => UiMoves(s, u);
      case CollectorStep(k) => CollectorMoves(c, s, k);
      case TaskStep(t) => TaskMoves(s, t);
    }
  }

  lemma {:induction false} EnrichableFilters(codec: Codec, ips: seq<string>)
    ensures forall i | 0 <= i < |Enrichable(codec, ips)| ::
              Enrichable(codec, ips)[i] in ips && MayLookUp(codec, Enrichable(codec, ips)[i])
  {
    if ips != [] {
      EnrichableFilters(codec, ips[1..]);
    }
  }

  lemma LookupsStep(c: Config, s: State, e: Event)
    requires Orders(c, s) && Lookups(c, s) && Enabled(c, s, e)
    ensures Lookups(c, Next(c, s, e))
  {
    hide Caused, Orders, Enabled, Next;
    var s' := Next(c, s, e);
    StepKeeps(c, s, e);
    forall i | 0 <= i < |s'.tasks| ensures Caused(c, s'.rounds, s'.tasks[i].asOf, s'.tasks[i].ip) {
      if i < |s.tasks| {
        CauseStays(c, s, e, s.tasks[i].asOf, s.tasks[i].ip);
      } else {
        assert s.collector.Claimed? && s'.tasks[i].ip == s.collector.ip;
        assert Candidates(s)[0] == s.collector.ip;
        CauseStays(c, s, e, |s.rounds|, s.collector.ip);
      }
    }
    forall i | 0 <= i < |Candidates(s')| ensures Caused(c, s'.rounds, |s'.rounds|, Candidates(s')[i]) {
      CandidatesMove(c, s, e, i);
      if Candidates(s')[i] in Candidates(s) && |s'.rounds| == |s.rounds| {
        var k :| 0 <= k < |Candidates(s)| && Candidates(s)[k] == Candidates(s')[i];
        CauseStays(c, s, e, |s.rounds|, Candidates(s)[k]);
      }
    }
  }

  /** A new candidate comes from the reply to the latest commit; otherwise candidates only advance, and no round
      ends meanwhile. */
  lemma CandidatesMove(c: Config, s: State, e: Event, i: nat)
    requires Orders(c, s) && Enabled(c, s, e) && i < |Candidates(Next(c, s, e))|
    ensures var s' := Next(c, s, e);
            || (Candidates(s')[i] in Candidates(s) && |s'.rounds| == |s.rounds|)
            || Caused(c, s'.rounds, |s'.rounds|, Candidates(s')[i])
  {
    hide Take, Deliver, UiDoes, TaskDoes, CollectorDoes, Reported, Complete, OrderOk, MayLookUp, DueIn;
    match e {
      case WorkerStep(Takes(now, ok)) => TakeMoves(s.(queue := s.queue[1..]), s.queue[0], now, ok);
      case WorkerStep(Wakes) =>
      case WorkerStep(Replies) =>
        DeliverMoves(c, s.(worker := Idle), s.worker.reply);
        if s.worker.reply.Replied? && s.worker.reply.needs.Ok? {
          EnrichableFilters(c.codec, s.worker.reply.needs.value);
          assert Candidates(Next(c, s, e))[i] in Elems(s.worker.reply.needs.value);
        }
      case UiStep(u) => UiMoves(s, u);
      case CollectorStep(k) => CollectorMoves(c, s, k); CandidatesAdvance(c, s, k);
      case TaskStep(t) => TaskMoves(s, t);
    }
  }

  lemma CandidatesAdvance(c: Config, s: State, k: CollectorEvent)
    requires CollectorCan(c, s, k)
    ensures forall x | x in Candidates(CollectorDoes(c, s, k)) :: x in Candidates(s)
    ensures k.EndsRound? ==> Candidates(CollectorDoes(c, s, k)) == []
  {
    hide Merged;
    var later := Candidates(CollectorDoes(c, s, k));
    var now := Candidates(s);
    assert later == now || later == [] || (now != [] && later == now[1..]);
  }

  // ----------------------------------------------- every task writes once

  ghost function ExpectedAttempts(s: State, i: nat): int
    requires i < |s.tasks|
  {
    match s.tasks[i].phase
    case LookingUp => 0
    case Writing => 1 - Queued(s.queue, Enricher(i))
    case _ => 1
  }

  ghost predicate Attempted(s: State) {
    forall i | 0 <= i < |s.tasks| :: |s.tasks[i].writes| == ExpectedAttempts(s, i)
  }

  ghost predicate Drained(s: State) {
    s.collector.Returned? ==> forall i | 0 <= i < |s.tasks| :: s.tasks[i].phase.Finished?
  }

  lemma AttemptedStep(c: Config, s: State, e: Event)
    requires Mail(s) && Attempted(s) && Enabled(c, s, e)
    ensures Attempted(Next(c, s, e))
  {
    hide Next, Enabled;
    var s' := Next(c, s, e);
    StepKeeps(c, s, e);
    forall i | 0 <= i < |s'.tasks| ensures |s'.tasks[i].writes| == ExpectedAttempts(s', i) {
      assert MailFor(s, Enricher(i));
      if i < |s.tasks| { assert |s.tasks[i].writes| == ExpectedAttempts(s, i); }
      AttemptedAt(c, s, e, i);
    }
  }

  lemma AttemptedAt(c: Config, s: State, e: Event, i: nat)
    requires Enabled(c, s, e) && MailFor(s, Enricher(i)) && i < |Next(c, s, e).tasks|
    requires i < |s.tasks| ==> |s.tasks[i].writes| == ExpectedAttempts(s, i)
    ensures |Next(c, s, e).tasks[i].writes| == ExpectedAttempts(Next(c, s, e), i)
  {
    hide UiDoes, CollectorDoes, TaskDoes, WorkerDoes;
    var s' := Next(c, s, e);
    match e {
      case WorkerStep(w) => WorkerKeeps(c, s, w); AttemptedWorker(c, s, w, i);
      case UiStep(u) => UiMoves(s, u);
      case CollectorStep(k) => CollectorMoves(c, s, k);
      case TaskStep(t) => TaskMoves(s, t);
    }
    if |s'.queue| > |s.queue| {
      QueuedAppend(s.queue, s'.queue[|s.queue|], Enricher(i));
    }
  }

  lemma AttemptedWorker(c: Config, s: State, w: WorkerEvent, i: nat)
    requires WorkerCan(s, w) && MailFor(s, Enricher(i)) && i < |s.tasks|
    requires |s.tasks[i].writes| == ExpectedAttempts(s, i)
    ensures |WorkerDoes(c, s, w).tasks| == |s.tasks| && |WorkerDoes(c, s, w).queue| <= |s.queue|
    ensures |WorkerDoes(c, s, w).tasks[i].writes| == ExpectedAttempts(WorkerDoes(c, s, w), i)
  {
    hide Take, Deliver;
    match w {
      case Takes(now, ok) => TakeMoves(s.(queue := s.queue[1..]), s.queue[0], now, ok);
      case Wakes =>
      case Replies => DeliverMoves(c, s.(worker := Idle), s.worker.reply);
    }
  }

  lemma DrainedStep(c: Config, s: State, e: Event)
    requires Mail(s) && Drained(s) && Enabled(c, s, e)
    ensures Drained(Next(c, s, e))
  {
    hide Take, Deliver, UiDoes, CollectorDoes, TaskDoes;
    match e {
      case WorkerStep(Takes(now, ok)) => TakeMoves(s.(queue := s.queue[1..]), s.queue[0], now, ok);
      case WorkerStep(Wakes) =>
      case WorkerStep(Replies) =>
        DeliverMoves(c, s.(worker := Idle), s.worker.reply);
        assert MailFor(s, Receiver(s.worker.reply));
      case UiStep(u) => UiMoves(s, u);
      case CollectorStep(k) => CollectorMoves(c, s, k);
      case TaskStep(t) => TaskMoves(s, t);
    }
  }
}
