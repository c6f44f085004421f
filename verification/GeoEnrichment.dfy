/** Nothing that is due is forgotten: every enrichable address a commit found stale is handed to a task after that
    commit, or a task still holds it then. A holder that had already written is the one case in which the address
    has to wait for a later round. */
module GeoEnrichment {
  import opened Ordering
  import opened Wrappers
  import opened GeoStore
  import opened PeerAddresses
  import opened GeoPipeline
  import opened GeoPipelineProofs
  import opened GeoPipelineTheorems
  import opened GeoProgram

  /** The task has the IP, and had not released it when round `k` was committed. */
  predicate StillHeld(t: Task, k: nat, ip: string) {
    t.ip == ip && (t.phase.Finished? ==> t.phase.closed > k)
  }

  /** Some task held the IP after the commit of round `k`. */
  ghost predicate HasTask(s: State, k: nat, ip: string) {
    exists i :: 0 <= i < |s.tasks| && StillHeld(s.tasks[i], k, ip)
  }

  /** The IP was due at the commit of round `k`, may be looked up, and the collector has been told so. */
  ghost predicate IsOwed(c: Config, s: State, k: nat, ip: string) {
    && k < |s.rounds| && ip in DueIn(s.rounds[k]) && MayLookUp(c.codec, ip)
    && !(k == |s.rounds| - 1 && s.collector.Replacing?)
  }

  ghost predicate IsServed(s: State, k: nat, ip: string) {
    ip in Candidates(s) || HasTask(s, k, ip)
  }

  ghost predicate Served(c: Config, s: State) {
    forall k: nat, ip: string | IsOwed(c, s, k, ip) :: IsServed(s, k, ip)
  }

  lemma {:induction false} EnrichableKeeps(codec: Codec, ips: seq<string>, ip: string)
    requires ip in ips && MayLookUp(codec, ip)
    ensures ip in Enrichable(codec, ips)
  {
    if ips[0] != ip {
      EnrichableKeeps(codec, ips[1..], ip);
    }
  }

  /** Steps that move tasks between phases or add some keep a held IP held. */
  lemma HeldStays(s: State, s': State, k: nat, ip: string)
    requires HasTask(s, k, ip) && |s.tasks| <= |s'.tasks|
    requires forall i | 0 <= i < |s.tasks| ::
               s'.tasks[i].ip == s.tasks[i].ip
               && (s'.tasks[i].phase.Finished? ==>
                     s'.tasks[i].phase == s.tasks[i].phase || s'.tasks[i].phase.closed > k)
    ensures HasTask(s', k, ip)
  {
    var i :| 0 <= i < |s.tasks| && StillHeld(s.tasks[i], k, ip);
    assert StillHeld(s'.tasks[i], k, ip);
  }

  lemma OwedIsCommitted(c: Config, s: State, k: nat, ip: string)
    requires IsOwed(c, s, k, ip)
    ensures k < |s.rounds| && s.rounds[k].commit.Some?
  {
  }

  lemma StepKeepsHeld(c: Config, s: State, e: Event, k: nat, ip: string)
    requires Mail(s) && Enabled(c, s, e) && k < |s.rounds| && s.rounds[k].commit.Some? && HasTask(s, k, ip)
    ensures HasTask(Next(c, s, e), k, ip)
  {
    hide HasTask, Mail, Take, Deliver, UiDoes, CollectorDoes, TaskDoes;
    match e {
      case WorkerStep(Takes(now, ok)) => TakeMoves(s.(queue := s.queue[1..]), s.queue[0], now, ok);
      case WorkerStep(Wakes) =>
      case WorkerStep(Replies) => DeliverMoves(c, s.(worker := Idle), s.worker.reply);
      case UiStep(u) => UiMoves(s, u);
      case CollectorStep(q) => CollectorMoves(c, s, q);
      case TaskStep(t) => TaskMoves(s, t);
    }
    HeldStays(s, Next(c, s, e), k, ip);
  }

  /** What is owed after a step was owed before it, or its reply is just being delivered. */
  lemma OwedBefore(c: Config, s: State, e: Event, k: nat, ip: string)
    requires Mail(s) && Orders(c, s) && Enabled(c, s, e) && IsOwed(c, Next(c, s, e), k, ip)
    ensures k < |s.rounds| && Next(c, s, e).rounds[k] == s.rounds[k]
    ensures IsOwed(c, s, k, ip) || (k == |s.rounds| - 1 && s.collector.Replacing? && e == WorkerStep(Replies))
  {
    hide Mail, Orders, Take, Deliver, UiDoes, CollectorDoes, TaskDoes, MayLookUp, Stale;
    match e {
      case WorkerStep(Takes(now, ok)) =>
        TakeMoves(s.(queue := s.queue[1..]), s.queue[0], now, ok);
        if s.queue[0].ReplaceSnapshot? { ReplaceIsAwaited(s); }
      case WorkerStep(Wakes) =>
      case WorkerStep(Replies) => DeliverMoves(c, s.(worker := Idle), s.worker.reply);
      case UiStep(u) => UiMoves(s, u);
      case CollectorStep(q) => CollectorMoves(c, s, q);
      case TaskStep(t) => TaskMoves(s, t);
    }
  }

  /** The delivered reply makes every enrichable due IP a candidate. */
  lemma DeliveryServes(c: Config, s: State, k: nat, ip: string)
    requires Mail(s) && Orders(c, s) && WorkerCan(s, Replies)
    requires k == |s.rounds| - 1 && s.collector.Replacing?
    requires IsOwed(c, WorkerDoes(c, s, Replies), k, ip) && WorkerDoes(c, s, Replies).rounds == s.rounds
    ensures ip in Candidates(WorkerDoes(c, s, Replies))
  {
    hide Mail, Reported, Deliver, MayLookUp, LastReported, Stale, OrderOk, Complete;
    DeliverMoves(c, s.(worker := Idle), s.worker.reply);
    if s.worker.reply.Replied? && s.worker.reply.needs.Ok? {
      assert ip in Elems(s.worker.reply.needs.value);
      EnrichableKeeps(c.codec, s.worker.reply.needs.value, ip);
    }
  }

  /** A candidate stays one until it has a task. */
  lemma CandidateServed(c: Config, s: State, e: Event, k: nat, ip: string)
    requires Mail(s) && Pending(s) && Enabled(c, s, e) && k < |s.rounds| && ip in Candidates(s)
    ensures IsServed(Next(c, s, e), k, ip)
  {
    hide Mail, Take, Deliver, UiDoes, TaskDoes;
    match e {
      case WorkerStep(Takes(now, ok)) => TakeMoves(s.(queue := s.queue[1..]), s.queue[0], now, ok);
      case WorkerStep(Wakes) =>
      case WorkerStep(Replies) =>
        DeliverMoves(c, s.(worker := Idle), s.worker.reply);
        NoReplaceUnderWay(s);
      case UiStep(u) => UiMoves(s, u);
      case CollectorStep(q) => ClaimServes(c, s, q, k, ip);
      case TaskStep(t) => TaskMoves(s, t);
    }
  }

  lemma ClaimServes(c: Config, s: State, q: CollectorEvent, k: nat, ip: string)
    requires Pending(s) && CollectorCan(c, s, q) && k < |s.rounds| && ip in Candidates(s)
    ensures IsServed(CollectorDoes(c, s, q), k, ip)
  {
    hide Merged;
    var s' := CollectorDoes(c, s, q);
    if q.Claims? && ip == s.collector.todo[0] && ip in s.pending {
      assert ip in LiveIps(s);
      var i :| 0 <= i < |s.tasks| && IsLive(s, i) && s.tasks[i].ip == ip;
      assert StillHeld(s'.tasks[i], k, ip);
    } else if q.Spawns? && ip == s.collector.ip {
      assert StillHeld(s'.tasks[|s.tasks|], k, ip);
    }
  }

  /** Each step of each thread keeps every due address a candidate or in a task's hands. */
  lemma ServedStep(c: Config, s: State, e: Event)
    requires Mail(s) && Orders(c, s) && Pending(s) && Served(c, s) && Enabled(c, s, e)
    ensures Served(c, Next(c, s, e))
  {
    hide Mail, Orders, Pending, IsOwed, HasTask, Candidates, Enabled, Next;
    forall k: nat, ip: string | IsOwed(c, Next(c, s, e), k, ip) ensures IsServed(Next(c, s, e), k, ip) {
      OwedBefore(c, s, e, k, ip);
      if IsOwed(c, s, k, ip) {
        if ip in Candidates(s) {
          CandidateServed(c, s, e, k, ip);
        } else {
          OwedIsCommitted(c, s, k, ip);
          StepKeepsHeld(c, s, e, k, ip);
        }
      } else {
        DeliveredNow(c, s, k, ip);
      }
    }
  }

  lemma DeliveredNow(c: Config, s: State, k: nat, ip: string)
    requires Mail(s) && Orders(c, s) && Enabled(c, s, WorkerStep(Replies))
    requires k == |s.rounds| - 1 && s.collector.Replacing? && IsOwed(c, Next(c, s, WorkerStep(Replies)), k, ip)
    ensures IsServed(Next(c, s, WorkerStep(Replies)), k, ip)
  {
    hide Mail, Orders, IsOwed, HasTask, Candidates, Deliver;
    DeliverMoves(c, s.(worker := Idle), s.worker.reply);
    DeliveryServes(c, s, k, ip);
  }

  lemma {:induction false} ServedRun(c: Config, s: State, es: seq<Event>, initial: set<string>)
    requires Inv(c, s, initial) && Served(c, s) && Valid(c, s, es)
    ensures Served(c, Run(c, s, es))
    decreases |es|
  {
    hide Mail, Orders, Peers, Fresh, Pending, Lookups, Attempted, Drained, Served, Enabled, Next;
    if es != [] {
      InvStep(c, s, es[0], initial);
      ServedStep(c, s, es[0]);
      ServedRun(c, Next(c, s, es[0]), es[1..], initial);
    }
  }

  /** In every run, an address that was stale at a commit and may be looked up is next in line or some task held it
      after that commit; once the collector waits for its next round, some task held it. */
  lemma EveryDueAddressIsServed(c: Config, s0: State, es: seq<Event>, k: nat, ip: string)
    requires Init(s0) && Valid(c, s0, es) && IsOwed(c, Run(c, s0, es), k, ip)
    ensures IsServed(Run(c, s0, es), k, ip)
    ensures Run(c, s0, es).collector.Sleeping? || Run(c, s0, es).collector.Returned? ==> HasTask(Run(c, s0, es), k, ip)
  {
    hide Inv, IsOwed, HasTask, Valid, Run;
    InvInit(c, s0);
    assert Served(c, s0) by { NothingOwed(c, s0); }
    ServedRun(c, s0, es, s0.tables.peers.Keys);
  }

  ghost predicate IsHeldNow(s: State, ip: string) {
    exists i :: 0 <= i < |s.tasks| && IsLive(s, i) && s.tasks[i].ip == ip
  }

  /** In every run, a claim passes over an address exactly when a task holds it at that moment; otherwise the next
      step of the collector spawns one for it. */
  lemma ClaimSkipsExactlyTheHeld(c: Config, s0: State, es: seq<Event>)
    requires Init(s0) && Valid(c, s0, es) && CollectorCan(c, Run(c, s0, es), Claims)
    requires Run(c, s0, es).collector.todo != []
    ensures var s := Run(c, s0, es);
            var ip, rest := s.collector.todo[0], s.collector.todo[1..];
            var t := Next(c, s, CollectorStep(Claims));
            if IsHeldNow(s, ip) then t == s.(collector := Spawning(rest))
            else
              && CollectorCan(c, t, Spawns)
              && Next(c, t, CollectorStep(Spawns)).tasks == s.tasks + [Task(ip, |s.rounds|, LookingUp, [], None)]
              && Next(c, t, CollectorStep(Spawns)).collector == Spawning(rest)
  {
    hide Valid, Run, Mail, Orders, Peers, Fresh, Lookups, Attempted, Drained;
    InvInit(c, s0);
    InvRun(c, s0, es, s0.tables.peers.Keys);
    var s := Run(c, s0, es);
    PendingIsHeld(s, s.collector.todo[0]);
  }

  lemma PendingIsHeld(s: State, ip: string)
    requires Pending(s) && s.collector.Spawning?
    ensures ip in s.pending <==> IsHeldNow(s, ip)
  {
    if IsHeldNow(s, ip) {
      var i :| 0 <= i < |s.tasks| && IsLive(s, i) && s.tasks[i].ip == ip;
      assert ip in LiveIps(s);
    }
  }

  lemma NothingOwed(c: Config, s: State)
    requires Init(s)
    ensures Served(c, s)
  {
  }

  /** The task's write was behind it when round `k` was committed, and its release was not. */
  predicate Straddles(t: Task, k: nat, ip: string) {
    StillHeld(t, k, ip) && t.writes != [] && t.writes[0] <= k
  }

  /** When the collector has returned, every enrichable address that any commit found stale was held after that
      commit by a task, which attempted its one write; and unless a task straddled the commit, that write came after
      it. */
  lemma EveryDueAddressWasLookedUp(c: Config, s0: State, es: seq<Event>, k: nat, ip: string)
    requires Init(s0) && Valid(c, s0, es) && Run(c, s0, es).collector.Returned?
    requires k < |Run(c, s0, es).rounds| && ip in DueIn(Run(c, s0, es).rounds[k]) && MayLookUp(c.codec, ip)
    ensures exists t :: t in Run(c, s0, es).tasks && StillHeld(t, k, ip) && t.phase.Finished? && |t.writes| == 1
    ensures (exists t :: t in Run(c, s0, es).tasks && Straddles(t, k, ip))
         || exists t :: t in Run(c, s0, es).tasks && StillHeld(t, k, ip) && |t.writes| == 1 && t.writes[0] > k
  {
    hide Valid, Run, MayLookUp, DueIn;
    var s := Run(c, s0, es);
    EveryDueAddressIsServed(c, s0, es, k, ip);
    ReturnDrainsTasks(c, s0, es);
    var i :| 0 <= i < |s.tasks| && StillHeld(s.tasks[i], k, ip);
    assert s.tasks[i] in s.tasks;
    assert Straddles(s.tasks[i], k, ip) || s.tasks[i].writes[0] > k;
  }

  // ------------------------------------------------ a commit that is straddled

  lemma Extend(c: Config, s: State, es: seq<Event>, e: Event)
    requires Valid(c, s, es) && Enabled(c, Run(c, s, es), e)
    ensures Valid(c, s, es + [e]) && Run(c, s, es + [e]) == Next(c, Run(c, s, es), e)
  {
    hide Valid, Run, Enabled, Next;
    OneStep(c, Run(c, s, es), e);
    JoinRuns(c, s, es, [e]);
  }

  /** Nothing is queued, the worker is idle, and the collector waits for its next round. */
  predicate Calm(s: State) {
    s.queue == [] && s.worker.Idle? && s.collector.Sleeping?
  }

  lemma OneAddress(codec: Codec, a: IpAddr)
    ensures Merged(codec, [Ok([a])]) == Ok([codec.print_(a)])
  {
    var results: seq<NodeResult> := [Ok([a])];
    var x := codec.print_(a);
    assert results[0].value[0] == a;
    assert Reported(codec, results) == {x};
    OneSorted(x);
    assert FirstError(results[1..]) == None;
  }

  lemma OneSorted(x: string)
    ensures Sorted(StrLt, {x}) == [x]
  {
    hide StrLt;
    var r := Sorted(StrLt, {x});
    assert |r| == 1 && r[0] in Elems(r);
  }

  /** The tables after a replace by the one address, which it finds due. */
  function OnePeer(t: Tables, x: string, now: int): Tables {
    Replaced(t, [x], now)
  }

  /** The state after a round in which the only node reported one address that was due, up to the reply. */
  ghost function AfterRound(c: Config, s: State, a: IpAddr, now: int): State {
    var t := OnePeer(s.tables, c.codec.print_(a), now);
    s.(tables := t, wake := true, collector := Spawning([c.codec.print_(a)]),
       rounds := s.rounds + [Round([Ok([a])], Some(Commit(t, now)))])
  }

  lemma OneDue(c: Config, s: State, a: IpAddr, now: int)
    requires IsEnrichable(a) && Lawful(c.codec) && NeedsEnrichment(s.tables, now, c.codec.print_(a))
    ensures var x := c.codec.print_(a);
            && Stale(OnePeer(s.tables, x, now), now) == {x} && Sorted(StrLt, {x}) == [x]
            && Enrichable(c.codec, [x]) == [x]
  {
    var x := c.codec.print_(a);
    OneSorted(x);
    assert Elems([x]) == {x};
    assert [x][1..] == [];
    assert c.codec.parse(x) == Some(a);
  }

  lemma RoundRun(c: Config, s: State, a: IpAddr, now: int) returns (es: seq<Event>)
    requires c.nodes == 1 && Calm(s) && IsEnrichable(a) && Lawful(c.codec)
    requires NeedsEnrichment(s.tables, now, c.codec.print_(a))
    ensures Valid(c, s, es) && Run(c, s, es) == AfterRound(c, s, a, now)
  {
    hide Merged, Stale, NeedsEnrichment, Sorted, MayLookUp, Enrichable, OnePeer;
    var x := c.codec.print_(a);
    OneAddress(c.codec, a);
    OneDue(c, s, a, now);
    var heard: NodeResult := Ok([a]);
    es := [];
    Extend(c, s, es, CollectorStep(StartsRound));
    es := es + [CollectorStep(StartsRound)];
    Extend(c, s, es, CollectorStep(HearsNode(heard)));
    es := es + [CollectorStep(HearsNode(heard))];
    assert [] + [heard] == [heard];
    Extend(c, s, es, CollectorStep(EndsRound));
    es := es + [CollectorStep(EndsRound)];
    assert Run(c, s, es) == s.(queue := [ReplaceSnapshot([x])], collector := Replacing,
                               rounds := s.rounds + [Round([heard], None)]);
    CommitOne(c, Run(c, s, es), s, a, now);
    Extend(c, s, es, WorkerStep(Takes(now, true)));
    es := es + [WorkerStep(Takes(now, true))];
    Extend(c, s, es, WorkerStep(Wakes));
    es := es + [WorkerStep(Wakes)];
    Extend(c, s, es, WorkerStep(Replies));
    es := es + [WorkerStep(Replies)];
  }

  lemma CommitOne(c: Config, s: State, before: State, a: IpAddr, now: int)
    requires IsEnrichable(a) && Lawful(c.codec) && NeedsEnrichment(before.tables, now, c.codec.print_(a))
    requires s == before.(queue := [ReplaceSnapshot([c.codec.print_(a)])], collector := Replacing,
                          rounds := before.rounds + [Round([Ok([a])], None)])
    requires before.worker.Idle? && before.queue == []
    ensures WorkerCan(s, Takes(now, true))
    ensures var x := c.codec.print_(a);
            var t := OnePeer(before.tables, x, now);
            WorkerDoes(c, s, Takes(now, true))
            == before.(tables := t, worker := MustWake(Replied(Ok([x]))), collector := Replacing,
                       rounds := before.rounds + [Round([Ok([a])], Some(Commit(t, now)))])
  {
    hide Stale, NeedsEnrichment, Sorted;
    OneDue(c, before, a, now);
    assert s.queue[1..] == [];
    var n := |before.rounds|;
    assert s.rounds[n := s.rounds[n].(commit := Some(Commit(OnePeer(before.tables, c.codec.print_(a), now), now)))]
        == before.rounds + [Round([Ok([a])], Some(Commit(OnePeer(before.tables, c.codec.print_(a), now), now)))];
  }

  /** The state after the only task's look-up failed and was written, before it releases its IP. */
  ghost function AfterFailure(s: State, now: int): State
    requires s.tasks != []
  {
    var t := s.tasks[0];
    s.(tables := Updated(s.tables, [LocationEntry(t.ip, None, None, Some("timeout"))], now), wake := true,
       tasks := [t.(phase := Written, writes := t.writes + [Closed(s.rounds)], heard := Some(Err("timeout")))])
  }

  lemma FailureRun(c: Config, s: State, now: int) returns (es: seq<Event>)
    requires Calm(s) && |s.tasks| == 1 && s.tasks[0].phase.LookingUp?
    ensures Valid(c, s, es) && Run(c, s, es) == AfterFailure(s, now)
  {
    hide Updated, Closed;
    var failed := TaskStep(LooksUp(0, Err("timeout")));
    es := [];
    Extend(c, s, es, failed);
    es := es + [failed];
    assert Run(c, s, es).queue[1..] == [];
    Extend(c, s, es, WorkerStep(Takes(now, true)));
    es := es + [WorkerStep(Takes(now, true))];
    Extend(c, s, es, WorkerStep(Wakes));
    es := es + [WorkerStep(Wakes)];
    Extend(c, s, es, WorkerStep(Replies));
    es := es + [WorkerStep(Replies)];
    assert Run(c, s, es).tasks == AfterFailure(s, now).tasks;
  }

  /** The straddled commit is reachable: a look-up fails and is written, the next round's commit finds the address
      due, the claim skips it because its task has not released it yet, and once released no task is left to look
      it up again before a later round. */
  lemma FailureBeforeCommitWaits(c: Config, s0: State, a: IpAddr) returns (es: seq<Event>)
    requires Init(s0) && s0.tables == Tables(map[], map[])
    requires c.nodes == 1 && IsEnrichable(a) && Lawful(c.codec)
    ensures Valid(c, s0, es)
    ensures var s := Run(c, s0, es);
            var x := c.codec.print_(a);
            && Calm(s) && s.pending == {}
            && |s.rounds| == 2 && x in DueIn(s.rounds[1]) && MayLookUp(c.codec, x)
            && |s.tasks| == 1 && Straddles(s.tasks[0], 1, x) && s.tasks[0].writes == [1]
  {
    hide Valid, Run, AfterRound, AfterFailure, AfterSpawning, NeedsEnrichment, Stale;
    var x, now := c.codec.print_(a), 100_000;
    assert NeedsEnrichment(s0.tables, now, x) by { NoRow(s0.tables, now, x); }
    var first := RoundRun(c, s0, a, now);
    var s1 := Run(c, s0, first);
    RoundShape(c, s0, a, now);
    var spawn := SpawnLoopIsARun(c, s1, [x]);
    JoinRuns(c, s0, first, spawn);
    var s2 := Run(c, s1, spawn);
    SpawnShape(s1, x);
    var failure := FailureRun(c, s2, now);
    JoinRuns(c, s0, first + spawn, failure);
    var s3 := Run(c, s2, failure);
    FailureShape(s2, x, now);
    var second := RoundRun(c, s3, a, now);
    JoinRuns(c, s0, first + spawn + failure, second);
    var s4 := Run(c, s3, second);
    RoundShape(c, s3, a, now);
    var skip := SpawnLoopIsARun(c, s4, [x]);
    JoinRuns(c, s0, first + spawn + failure + second, skip);
    var s5 := Run(c, s4, skip);
    SkipShape(s4, x);
    es := first + spawn + failure + second + skip;
    Extend(c, s0, es, TaskStep(Releases(0)));
    es := es + [TaskStep(Releases(0))];
    OneDue(c, s3, a, now);
  }

  lemma NoRow(t: Tables, now: int, x: string)
    requires x !in t.cache
    ensures NeedsEnrichment(t, now, x)
  {
  }

  lemma RoundShape(c: Config, s: State, a: IpAddr, now: int)
    requires Calm(s)
    ensures var t := AfterRound(c, s, a, now);
            && t.queue == [] && t.worker.Idle? && t.collector == Spawning([c.codec.print_(a)])
            && t.tasks == s.tasks && t.pending == s.pending && t.tables.cache == s.tables.cache
            && |t.rounds| == |s.rounds| + 1
            && t.rounds[|s.rounds|].commit == Some(Commit(OnePeer(s.tables, c.codec.print_(a), now), now))
  {
  }

  lemma SpawnShape(s: State, x: string)
    requires s.queue == [] && s.worker.Idle? && s.tasks == [] && s.pending == {}
    ensures var t := AfterSpawning(s, [x]);
            Calm(t) && t.tasks == [Task(x, |s.rounds|, LookingUp, [], None)] && t.pending == {x} && t.rounds == s.rounds
            && t.tables == s.tables
  {
    assert [x][1..] == [];
    assert NewIps({}, [x]) == [x];
    assert Elems([x]) == {x};
  }

  lemma SkipShape(s: State, x: string)
    requires s.queue == [] && s.worker.Idle? && s.pending == {x}
    ensures AfterSpawning(s, [x]) == s.(collector := Sleeping)
  {
    assert [x][1..] == [];
    assert NewIps({x}, [x]) == [];
    assert Elems([x]) == {x};
    assert s.tasks + NewTasks(|s.rounds|, []) == s.tasks;
  }

  lemma FailureShape(s: State, x: string, now: int)
    requires Calm(s) && s.tasks == [Task(x, 1, LookingUp, [], None)] && x !in s.tables.cache
    requires |s.rounds| == 1 && s.rounds[0].commit.Some? && now > LOCATION_CACHE_TTL_SECONDS
    ensures var t := AfterFailure(s, now);
            && Calm(t) && t.tasks == [Task(x, 1, Written, [1], Some(Err("timeout")))]
            && t.pending == s.pending && t.rounds == s.rounds
            && NeedsEnrichment(t.tables, now, x)
  {
    var e := LocationEntry(x, None, None, Some("timeout"));
    assert s.tasks[0].writes + [Closed(s.rounds)] == [1];
    assert [e][..0] == [];
    assert UpsertAll(s.tables.cache, [e], now) == UpsertLocation(s.tables.cache, e, now);
  }
}
