/** From the geolocation service's answers to the cache and the panel, over every run of the pipeline. */
module GeoAnswers {
  import opened Ordering
  import opened Wrappers
  import opened GeoSnapshot
  import opened GeoStore
  import opened GeoPipeline
  import opened GeoPipelineProofs
  import opened GeoPipelineTheorems

  /** What a task heard, and the worker's clock when it was written. */
  datatype Answer = Answer(lookup: Lookup, at: int)

  /** The answer about `ip` that an event commits, if it commits one. */
  function AnswerIn(s: State, e: Event, ip: string): seq<Answer> {
    match e
    case WorkerStep(Takes(now, true)) =>
      if s.queue != [] && s.queue[0].UpdateLocations? && s.queue[0].id < |s.tasks| then
        var task := s.tasks[s.queue[0].id];
        if task.ip == ip && task.heard.Some? then [Answer(task.heard.value, now)] else []
      else []
    case _ => []
  }

  /** The committed answers about `ip`, in the worker's order. */
  ghost function Answers(c: Config, s: State, es: seq<Event>, ip: string): seq<Answer>
    requires Valid(c, s, es)
    decreases |es|
  {
    if es == [] then [] else AnswerIn(s, es[0], ip) + Answers(c, Next(c, s, es[0]), es[1..], ip)
  }

  /** The last answer that told a location. */
  function LastTold(answers: seq<Answer>): Option<(IpInfo, int)> {
    if answers == [] then None
    else
      match Last(answers).lookup
      case Ok(Some(info)) => Some((info, Last(answers).at))
      case _ => LastTold(answers[..|answers| - 1])
  }

  predicate Stores(text: string, told: Option<string>) {
    match told
    case Some(x) => text == x
    case None => text == ""
  }

  /** The row has the country, loc and clock of the last told location; answers without one leave these as they were
      and only put down what went wrong. */
  ghost predicate RowTells(before: map<string, LocationRow>, answers: seq<Answer>, after: map<string, LocationRow>,
                           ip: string) {
    && (ip in after <==> ip in before || answers != [])
    && (ip in after ==>
          var row, was := after[ip], if ip in before then before[ip] else LocationRow("", "", 0, "");
          && (match LastTold(answers)
              case Some(told) =>
                Stores(row.country, told.0.country) && Stores(row.loc, told.0.loc) && row.refreshedAt == told.1
              case None => row.country == was.country && row.loc == was.loc && row.refreshedAt == was.refreshedAt)
          && (if answers == [] then row.lastError == was.lastError
              else match Last(answers).lookup
                case Ok(Some(_)) => row.lastError == ""
                case Ok(None) => row.lastError != ""
                case Err(error) => row.lastError == error))
  }

  // ------------------------------------------------- what a task has heard

  /** The answer that the events give to task `id`. */
  function HeardIn(es: seq<Event>, id: nat): Option<Lookup> {
    if es == [] then None
    else if es[0].TaskStep? && es[0].t.LooksUp? && es[0].t.id == id then Some(es[0].t.lookup)
    else HeardIn(es[1..], id)
  }

  function HeardBy(s: State, id: nat): Option<Lookup> {
    if id < |s.tasks| then s.tasks[id].heard else None
  }

  lemma HearingStep(c: Config, s: State, e: Event, id: nat)
    requires NewAreUnheard(s) && Enabled(c, s, e)
    ensures HeardBy(Next(c, s, e), id) == if HeardBy(s, id).Some? then HeardBy(s, id) else HeardIn([e], id)
  {
    hide Take, Deliver, UiDoes, CollectorDoes, TaskDoes;
    assert [e][1..] == [];
    match e {
      case WorkerStep(Takes(now, ok)) => TakeMoves(s.(queue := s.queue[1..]), s.queue[0], now, ok);
      case WorkerStep(Wakes) =>
      case WorkerStep(Replies) => DeliverMoves(c, s.(worker := Idle), s.worker.reply);
      case UiStep(u) => UiMoves(s, u);
      case CollectorStep(k) => CollectorMoves(c, s, k);
      case TaskStep(t) => TaskMoves(s, t);
    }
  }

  lemma {:induction false} TasksHearTheirAnswers(c: Config, s: State, es: seq<Event>, id: nat)
    requires Mail(s) && Orders(c, s) && Valid(c, s, es)
    ensures HeardBy(Run(c, s, es), id) == if HeardBy(s, id).Some? then HeardBy(s, id) else HeardIn(es, id)
    decreases |es|
  {
    hide Mail, Enabled, Next, HeardBy, OrderOk, ReplyOk, Complete;
    if es != [] {
      MailStep(c, s, es[0]);
      OrdersStep(c, s, es[0]);
      HearingStep(c, s, es[0], id);
      assert [es[0]][1..] == [];
      TasksHearTheirAnswers(c, Next(c, s, es[0]), es[1..], id);
    }
  }

  // --------------------------------------------------- answers as attempts

  function AttemptOf(ip: string, a: Answer): Attempt {
    Attempt(BuildLocationEntry(ip, a.lookup), a.at)
  }

  function AttemptsOf(ip: string, answers: seq<Answer>): seq<Attempt> {
    seq(|answers|, i requires 0 <= i < |answers| => AttemptOf(ip, answers[i]))
  }

  lemma {:induction false} AttemptsAppend(a: seq<StoreOp>, b: seq<StoreOp>, ip: string)
    ensures Attempts(a + b, ip) == Attempts(a, ip) + Attempts(b, ip)
  {
    hide Attempts;
    if b == [] {
      assert a + b == a;
      NoAttempts(ip);
    } else {
      var rest, op := b[..|b| - 1], Last(b);
      AttemptsAppend(a, rest, ip);
      AttemptsLast(a + rest, op, ip);
      AttemptsLast(rest, op, ip);
      assert rest + [op] == b && (a + rest) + [op] == a + b;
    }
  }

  lemma AttemptsLast(ops: seq<StoreOp>, op: StoreOp, ip: string)
    ensures Attempts(ops + [op], ip) == Attempts(ops, ip) + AttemptsBy(op, ip)
  {
    assert (ops + [op])[..|ops|] == ops;
  }

  lemma AttemptsOfOne(entry: LocationEntry, now: int, ok: bool, ip: string)
    ensures Attempts([StoreOp.Update([entry], now, ok)], ip)
         == if ok && entry.ip == ip then [Attempt(entry, now)] else []
  {
    assert [entry][..0] == [];
    var ops := [StoreOp.Update([entry], now, ok)];
    assert ops[..0] == [];
    assert AttemptsIn([entry], now, ip) == if entry.ip == ip then [Attempt(entry, now)] else [];
  }

  lemma AttemptsOfReplace(ips: seq<string>, now: int, ok: bool, ip: string)
    ensures Attempts([StoreOp.Replace(ips, now, ok)], ip) == []
  {
    var ops := [StoreOp.Replace(ips, now, ok)];
    assert ops[..0] == [];
  }

  lemma StepAnswers(c: Config, s: State, e: Event, ip: string)
    requires Orders(c, s) && Enabled(c, s, e)
    ensures Attempts(OpsIn(s, e), ip) == AttemptsOf(ip, AnswerIn(s, e, ip))
  {
    hide Attempts, LastReported, LastIsOpen, Complete, ReplyOk, BuildLocationEntry, Sorted;
    NoAttempts(ip);
    match e {
      case WorkerStep(Takes(now, ok)) =>
        assert OrderOk(c, s, s.queue[0]);
        match s.queue[0] {
          case ReplaceSnapshot(ips) => AttemptsOfReplace(ips, now, ok, ip);
          case UpdateLocations(id, entry) =>
            AttemptsOfOne(entry, now, ok, ip);
            EntryIp(s.tasks[id].ip, s.tasks[id].heard.value);
          case ReadSnapshot =>
        }
      case _ =>
    }
  }

  lemma NoAttempts(ip: string)
    ensures Attempts([], ip) == [] && AttemptsOf(ip, []) == []
  {
  }

  lemma EntryIp(ip: string, lookup: Lookup)
    ensures BuildLocationEntry(ip, lookup).ip == ip
  {
  }

  lemma {:induction false} AttemptsAreAnswers(c: Config, s: State, es: seq<Event>, ip: string)
    requires Mail(s) && Orders(c, s) && Valid(c, s, es)
    ensures Attempts(OpsOf(c, s, es), ip) == AttemptsOf(ip, Answers(c, s, es, ip))
    decreases |es|
  {
    hide Mail, Orders, Enabled, Next, Attempts, AnswerIn, OpsIn, AttemptOf;
    NoAttempts(ip);
    if es != [] {
      var s' := Next(c, s, es[0]);
      MailStep(c, s, es[0]);
      OrdersStep(c, s, es[0]);
      StepAnswers(c, s, es[0], ip);
      AttemptsAreAnswers(c, s', es[1..], ip);
      AttemptsAppend(OpsIn(s, es[0]), OpsOf(c, s', es[1..]), ip);
      assert AttemptsOf(ip, AnswerIn(s, es[0], ip) + Answers(c, s', es[1..], ip))
          == AttemptsOf(ip, AnswerIn(s, es[0], ip)) + AttemptsOf(ip, Answers(c, s', es[1..], ip));
    }
  }

  lemma {:induction false} LastToldIsLastSuccess(ip: string, answers: seq<Answer>)
    ensures match LastTold(answers)
            case None => LastSuccess(AttemptsOf(ip, answers)) == None
            case Some(told) =>
              && LastSuccess(AttemptsOf(ip, answers)).Some?
              && var a := LastSuccess(AttemptsOf(ip, answers)).value;
              && a.at == told.1
              && a.entry == LocationEntry(ip, told.0.country, told.0.loc, None)
  {
    var attempts := AttemptsOf(ip, answers);
    if answers != [] {
      var n := |answers| - 1;
      assert attempts[..n] == AttemptsOf(ip, answers[..n]);
      LastToldIsLastSuccess(ip, answers[..n]);
    }
  }

  lemma RowsMatchAnswers(before: map<string, LocationRow>, answers: seq<Answer>, after: map<string, LocationRow>,
                         ip: string)
    requires RowMatches(before, AttemptsOf(ip, answers), after, ip)
    ensures RowTells(before, answers, after, ip)
  {
    hide LastTold, LastSuccess;
    LastToldIsLastSuccess(ip, answers);
  }

  // -------------------------------------------------------------- theorems

  /** In every run, an IP's cache row tells what the service last answered about it: for every interleaving of
      tasks, rounds and reads. */
  lemma CacheTellsTheAnswers(c: Config, s0: State, es: seq<Event>, ip: string)
    requires Init(s0) && Valid(c, s0, es)
    ensures RowTells(s0.tables.cache, Answers(c, s0, es, ip), Run(c, s0, es).tables.cache, ip)
  {
    hide Valid, Run, RowMatches, RowTells, Answers, OpsOf, AttemptsOf, Attempts;
    InvInit(c, s0);
    CacheRowsInEveryRun(c, s0, es, ip);
    AttemptsAreAnswers(c, s0, es, ip);
    RowsMatchAnswers(s0.tables.cache, Answers(c, s0, es, ip), Run(c, s0, es).tables.cache, ip);
  }

  /** And what a task has heard is the answer its look-up was given. */
  lemma HeardIsTheAnswer(c: Config, s0: State, es: seq<Event>, id: nat)
    requires Init(s0) && Valid(c, s0, es)
    ensures HeardBy(Run(c, s0, es), id) == HeardIn(es, id)
  {
    hide Valid, Run;
    InvInit(c, s0);
    TasksHearTheirAnswers(c, s0, es, id);
  }

  /** The country text that the answers leave for an IP. */
  function CountryTold(before: map<string, LocationRow>, answers: seq<Answer>, ip: string): string {
    var told := LastTold(answers);
    if told.None? then if ip in before then before[ip].country else ""
    else if told.value.0.country.None? then ""
    else told.value.0.country.value
  }

  lemma RowCountry(before: map<string, LocationRow>, answers: seq<Answer>, after: map<string, LocationRow>, ip: string)
    requires RowTells(before, answers, after, ip)
    ensures CountryTold(before, answers, ip) == if ip in after then after[ip].country else ""
  {
    var told := LastTold(answers);
    if told.Some? {
      assert answers != [];
      assert Stores(after[ip].country, told.value.0.country);
      assert CountryTold(before, answers, ip) == after[ip].country;
    } else if ip in after {
      assert CountryTold(before, answers, ip) == after[ip].country;
    } else {
      assert ip !in before;
      assert CountryTold(before, answers, ip) == "";
    }
  }

  /** The peers of the last stored round, each with the country the service last told for it. */
  ghost function ToldCountries(c: Config, s0: State, es: seq<Event>): map<string, string>
    requires Valid(c, s0, es)
  {
    map ip | ip in StoredPeers(c, Run(c, s0, es).rounds, s0.tables.peers.Keys) ::
      CountryTold(s0.tables.cache, Answers(c, s0, es, ip), ip)
  }

  /** Whenever nothing is outstanding, the panel counts each peer of the last stored round under the country the
      service last told for it, and those without one as unknown. */
  lemma RestingPanelTellsTheAnswers(c: Config, s0: State, es: seq<Event>)
    requires Init(s0) && Valid(c, s0, es)
    requires var s := Run(c, s0, es); s.ui.UiIdle? && !s.wake && !s.retry && !s.worker.MustWake?
    ensures Tallies(Run(c, s0, es).shown, ToldCountries(c, s0, es))
  {
    hide Init, Valid, Run, View, Tallies, StoredPeers, CountryTold, Answers, RowTells;
    var s := Run(c, s0, es);
    PanelIsFresh(c, s0, es);
    PeerTableIsLastStoredRound(c, s0, es);
    ViewTallies(s.tables);
    var told := ToldCountries(c, s0, es);
    var cached := map ip | ip in s.tables.peers :: if ip in s.tables.cache then s.tables.cache[ip].country else "";
    forall ip | ip in told ensures told[ip] == cached[ip] {
      CacheTellsTheAnswers(c, s0, es, ip);
      RowCountry(s0.tables.cache, Answers(c, s0, es, ip), s.tables.cache, ip);
    }
    assert told == cached;
  }
}
