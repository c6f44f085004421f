/** The peer geography pipeline as a transition system: the store's worker thread,
    the poll collector, its enrichment tasks and the UI, each one step at a time
    (src/geo/store.rs, src/collect/peer_geo.rs, src/app.rs, src/main.rs).

    Every blocking call is a command in the worker's queue plus a client waiting
    for the reply; committing, waking the UI and replying are separate steps, so
    a run of events is one interleaving of all threads. */
module GeoPipeline {
  import opened Ordering
  import opened Wrappers
  import opened GeoSnapshot
  import opened GeoStore
  import opened PeerAddresses

  datatype Config = Config(codec: Codec, nodes: nat)

  datatype Command =
    | ReplaceSnapshot(ips: seq<string>)
    | UpdateLocations(id: nat, entry: LocationEntry)
    | ReadSnapshot

  datatype Client = Ui | Collector | Enricher(id: nat)

  datatype Reply =
    | Replied(needs: Result<seq<string>>)
    | Acked(id: nat)
    | Viewed(view: Result<GeoViewSnapshot>)

  /** A committed transaction still owes the wake, then the reply. */
  datatype Worker = Idle | MustWake(reply: Reply) | MustReply(reply: Reply)

  /** Asking: a wake was received or a retry is due; the read command is not sent yet. */
  datatype UiPhase = UiIdle | Asking | Waiting | Holding(view: Result<GeoViewSnapshot>)

  /** Claimed: the IP is in the pending set and its task is not spawned yet. */
  datatype CollectorPhase =
    | Sleeping
    | Polling(results: seq<NodeResult>)
    | Replacing
    | Spawning(todo: seq<string>)
    | Claimed(ip: string, rest: seq<string>)
    | Draining
    | Returned

  /** Finished keeps how many rounds were closed when the task released its IP. */
  datatype TaskPhase = LookingUp | Writing | Written | Finished(closed: nat)

  datatype IpInfo = IpInfo(country: Option<string>, loc: Option<string>)

  /** What the geolocation service answers: a location, none, or an error. */
  type Lookup = Result<Option<IpInfo>>

  /** History: `asOf` is how many rounds had ended when the task was spawned, `writes` how many were closed at
      each write it attempted, `heard` the answer to its look-up. */
  datatype Task = Task(ip: string, asOf: nat, phase: TaskPhase, writes: seq<nat>, heard: Option<Lookup>)

  /** The tables a replace left behind, and the worker's clock reading for it. */
  datatype Commit = Commit(tables: Tables, now: int)

  /** History: what every node answered in a round, and the commit of its snapshot if there was one. */
  datatype Round = Round(results: seq<NodeResult>, commit: Option<Commit>)

  datatype State = State(
    tables: Tables,
    queue: seq<Command>,
    worker: Worker,
    wake: bool,
    ui: UiPhase,
    shown: GeoViewSnapshot,
    loaded: bool,
    retry: bool,
    collector: CollectorPhase,
    pending: set<string>,
    tasks: seq<Task>,
    rounds: seq<Round>)

  datatype WorkerEvent = Takes(now: int, ok: bool) | Wakes | Replies

  datatype UiEvent = ReceivesWake | Retries | Asks | Applies

  datatype CollectorEvent =
    | StartsRound
    | HearsNode(result: NodeResult)
    | EndsRound
    | Claims
    | Spawns
    | Stops
    | Returns

  datatype TaskEvent = LooksUp(id: nat, lookup: Lookup) | Releases(id: nat)

  datatype Event =
    | WorkerStep(w: WorkerEvent)
    | UiStep(u: UiEvent)
    | CollectorStep(k: CollectorEvent)
    | TaskStep(t: TaskEvent)

  function BuildLocationEntry(ip: string, lookup: Lookup): LocationEntry {
    match lookup
    case Ok(Some(info)) => LocationEntry(ip, info.country, info.loc, None)
    case Ok(None) => LocationEntry(ip, None, None, Some("ipinfo returned no usable location data"))
    case Err(error) => LocationEntry(ip, None, None, Some(error))
  }

  function Enrichable(codec: Codec, ips: seq<string>): seq<string> {
    if ips == [] then []
    else (if MayLookUp(codec, ips[0]) then [ips[0]] else []) + Enrichable(codec, ips[1..])
  }

  function MarkStored(rounds: seq<Round>, commit: Commit): seq<Round> {
    if rounds == [] then [] else rounds[|rounds| - 1 := rounds[|rounds| - 1].(commit := Some(commit))]
  }

  /** How many rounds are past their commit: all but the latest while that one is not committed. */
  function Closed(rounds: seq<Round>): nat {
    if rounds != [] && rounds[|rounds| - 1].commit.None? then |rounds| - 1 else |rounds|
  }

  ghost predicate Init(s: State) {
    && s.queue == [] && s.worker == Idle && !s.wake
    && s.ui == Asking && !s.loaded && !s.retry && s.shown == EMPTY_SNAPSHOT
    && s.collector == Sleeping && s.pending == {} && s.tasks == [] && s.rounds == []
  }

  // ---------------------------------------------------------- the worker

  ghost predicate WorkerCan(s: State, e: WorkerEvent) {
    match e
    case Takes(_, _) => s.worker.Idle? && s.queue != []
    case Wakes => s.worker.MustWake?
    case Replies => s.worker.MustReply?
  }

  ghost function WorkerDoes(c: Config, s: State, e: WorkerEvent): State
    requires WorkerCan(s, e)
  {
    match e
    case Takes(now, ok) => Take(s.(queue := s.queue[1..]), s.queue[0], now, ok)
    case Wakes => s.(worker := MustReply(s.worker.reply), wake := true)
    case Replies => Deliver(c, s.(worker := Idle), s.worker.reply)
  }

  /** One command against the tables; `ok` is the database's verdict. */
  ghost function Take(s: State, command: Command, now: int, ok: bool): State {
    match command
    case ReplaceSnapshot(ips) =>
      if ok then
        var t := Replaced(s.tables, ips, now);
        s.(tables := t, rounds := MarkStored(s.rounds, Commit(t, now)),
           worker := MustWake(Replied(Ok(Sorted(StrLt, Stale(t, now))))))
      else s.(worker := MustReply(Replied(Err("replace failed"))))
    case UpdateLocations(id, entry) =>
      var s' := if id < |s.tasks|
                then s.(tasks := s.tasks[id := s.tasks[id].(writes := s.tasks[id].writes + [Closed(s.rounds)])])
                else s;
      if ok then s'.(tables := Updated(s.tables, [entry], now), worker := MustWake(Acked(id)))
      else s'.(worker := MustReply(Acked(id)))
    case ReadSnapshot =>
      s.(worker := MustReply(Viewed(if ok then Ok(View(s.tables)) else Err("read failed"))))
  }

  ghost function Deliver(c: Config, s: State, reply: Reply): State {
    match reply
    case Replied(Ok(needs)) => s.(collector := Spawning(Enrichable(c.codec, needs)))
    case Replied(Err(_)) => s.(collector := Sleeping)
    case Acked(id) =>
      s.(tasks := if id < |s.tasks| then s.tasks[id := s.tasks[id].(phase := Written)] else s.tasks)
    case Viewed(view) => s.(ui := Holding(view))
  }

  // -------------------------------------------------------------- the UI

  ghost predicate UiCan(s: State, e: UiEvent) {
    match e
    case ReceivesWake => s.ui.UiIdle? && s.wake
    case Retries => s.ui.UiIdle? && s.retry
    case Asks => s.ui.Asking?
    case Applies => s.ui.Holding?
  }

  ghost function UiDoes(s: State, e: UiEvent): State
    requires UiCan(s, e)
  {
    match e
    case ReceivesWake => s.(wake := false, ui := Asking)
    case Retries => s.(ui := Asking)
    case Asks => s.(queue := s.queue + [ReadSnapshot], ui := Waiting)
    case Applies =>
      match s.ui.view
      case Ok(view) => s.(ui := UiIdle, shown := view, loaded := true, retry := false)
      case Err(_) => s.(ui := UiIdle, retry := true)
  }

  // ------------------------------------------------------- the collector

  ghost predicate CollectorCan(c: Config, s: State, e: CollectorEvent) {
    match e
    case StartsRound => s.collector.Sleeping?
    case HearsNode(_) => s.collector.Polling? && |s.collector.results| < c.nodes
    case EndsRound => s.collector.Polling? && |s.collector.results| == c.nodes
    case Claims => s.collector.Spawning?
    case Spawns => s.collector.Claimed?
    case Stops => s.collector.Sleeping?
    case Returns => s.collector.Draining? && forall i | 0 <= i < |s.tasks| :: s.tasks[i].phase.Finished?
  }

  ghost function CollectorDoes(c: Config, s: State, e: CollectorEvent): State
    requires CollectorCan(c, s, e)
  {
    match e
    case StartsRound => s.(collector := Polling([]))
    case HearsNode(result) => s.(collector := Polling(s.collector.results + [result]))
    case EndsRound => EndRound(c, s, s.collector.results)
    case Claims => Claim(s, s.collector.todo)
    case Spawns =>
      s.(tasks := s.tasks + [Task(s.collector.ip, |s.rounds|, LookingUp, [], None)],
         collector := Spawning(s.collector.rest))
    case Stops => s.(collector := Draining)
    case Returns => s.(collector := Returned)
  }

  ghost function EndRound(c: Config, s: State, results: seq<NodeResult>): State {
    var rounds := s.rounds + [Round(results, None)];
    match Merged(c.codec, results)
    case Ok(ips) => s.(rounds := rounds, queue := s.queue + [ReplaceSnapshot(ips)], collector := Replacing)
    case Err(_) => s.(rounds := rounds, collector := Sleeping)
  }

  ghost function Claim(s: State, todo: seq<string>): State {
    if todo == [] then s.(collector := Sleeping)
    else if todo[0] in s.pending then s.(collector := Spawning(todo[1..]))
    else s.(pending := s.pending + {todo[0]}, collector := Claimed(todo[0], todo[1..]))
  }

  // ------------------------------------------------ the enrichment tasks

  ghost predicate TaskCan(s: State, e: TaskEvent) {
    match e
    case LooksUp(id, _) => id < |s.tasks| && s.tasks[id].phase.LookingUp?
    case Releases(id) => id < |s.tasks| && s.tasks[id].phase.Written?
  }

  ghost function TaskDoes(s: State, e: TaskEvent): State
    requires TaskCan(s, e)
  {
    match e
    case LooksUp(id, lookup) =>
      s.(tasks := s.tasks[id := s.tasks[id].(phase := Writing, heard := Some(lookup))],
         queue := s.queue + [UpdateLocations(id, BuildLocationEntry(s.tasks[id].ip, lookup))])
    case Releases(id) =>
      s.(pending := s.pending - {s.tasks[id].ip},
         tasks := s.tasks[id := s.tasks[id].(phase := Finished(Closed(s.rounds)))])
  }

  // ---------------------------------------------------------------- runs

  ghost predicate Enabled(c: Config, s: State, e: Event) {
    match e
    case WorkerStep(w) => WorkerCan(s, w)
    case UiStep(u) => UiCan(s, u)
    case CollectorStep(k) => CollectorCan(c, s, k)
    case TaskStep(t) => TaskCan(s, t)
  }

  ghost function Next(c: Config, s: State, e: Event): State
    requires Enabled(c, s, e)
  {
    match e
    case WorkerStep(w) => WorkerDoes(c, s, w)
    case UiStep(u) => UiDoes(s, u)
    case CollectorStep(k) => CollectorDoes(c, s, k)
    case TaskStep(t) => TaskDoes(s, t)
  }

  /** The events happen one after the other, each enabled when its turn comes. */
  ghost predicate Valid(c: Config, s: State, es: seq<Event>)
    decreases |es|
  {
    es == [] || (Enabled(c, s, es[0]) && Valid(c, Next(c, s, es[0]), es[1..]))
  }

  ghost function Run(c: Config, s: State, es: seq<Event>): State
    requires Valid(c, s, es)
    decreases |es|
  {
    if es == [] then s else Run(c, Next(c, s, es[0]), es[1..])
  }
}
