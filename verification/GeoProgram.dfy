/** The pipeline's loops and objects as the program writes them, each proved to do what uninterrupted steps of
    the transition system do (src/geo/store.rs, src/collect/peer_geo.rs, src/app.rs). */
module GeoProgram {
  import opened Ordering
  import opened Wrappers
  import opened GeoSnapshot
  import opened GeoStore
  import opened PeerAddresses
  import opened GeoPipeline
  import CountryGrid

  // ------------------------------------------------------------ the worker

  class PeerGeoWorker {
    const db: PeerGeoDb
    var wake: bool

    constructor ()
      ensures fresh(db) && db.Contents() == Tables(map[], map[]) && !wake
    {
      db := new PeerGeoDb();
      wake := false;
    }

    /** One turn of the worker loop: commit, wake only after a committed write, reply. */
    method Serve(command: Command, now: int, ok: bool, ghost s: State) returns (reply: Reply)
      requires s.tables == db.Contents() && s.wake == wake
      modifies this`wake, db
      ensures db.Contents() == Take(s, command, now, ok).tables
      ensures wake == (s.wake || Take(s, command, now, ok).worker.MustWake?)
      ensures !Take(s, command, now, ok).worker.Idle? && reply == Take(s, command, now, ok).worker.reply
    {
      hide View, Stale, Replaced, Updated;
      match command
      case ReplaceSnapshot(ips) =>
        var result := db.ReplacePeerSnapshotTx(ips, now, ok);
        if result.Ok? {
          wake := true;
          reply := Replied(result);
        } else {
          reply := Replied(Err("replace failed"));
        }
      case UpdateLocations(id, entry) =>
        var result := db.UpdateLocationCacheTx([entry], now, ok);
        if result.Ok? {
          wake := true;
        }
        reply := Acked(id);
      case ReadSnapshot =>
        var result := db.BuildGeoViewSnapshot(ok);
        reply := Viewed(if result.Ok? then result else Err("read failed"));
    }
  }

  // ---------------------------------------------------------------- the UI

  class GeoPanel {
    const peerCountries: CountryGrid.PeerCountriesWidget
    var geoSnapshotRetry: bool

    constructor (look: CountryGrid.Look)
      ensures fresh(peerCountries) && !geoSnapshotRetry
      ensures peerCountries.snapshot == EMPTY_SNAPSHOT && !peerCountries.snapshotLoaded
    {
      peerCountries := new CountryGrid.PeerCountriesWidget(look);
      geoSnapshotRetry := false;
    }

    /** What the panel holds is the UI's part of `s`. */
    ghost predicate Shows(s: State)
      reads this, peerCountries
    {
      s.shown == peerCountries.snapshot && s.loaded == peerCountries.snapshotLoaded && s.retry == geoSnapshotRetry
    }

    /** `reply` is what the store answers. */
    method RefreshGeoSnapshot(reply: Result<GeoViewSnapshot>, ghost s: State) returns (redraw: bool)
      requires Shows(s) && s.ui == Holding(reply)
      modifies this, peerCountries
      ensures redraw && Shows(UiDoes(s, Applies))
    {
      var ok := peerCountries.RefreshSnapshot(reply);
      geoSnapshotRetry := !ok;
      redraw := true;
    }

    /** Asks the store again only after a failed read. */
    method RetryGeoSnapshot(reply: Result<GeoViewSnapshot>, ghost s: State) returns (redraw: bool)
      requires Shows(s) && (s.retry ==> s.ui == Holding(reply))
      modifies this, peerCountries
      ensures redraw == s.retry
      ensures Shows(if s.retry then UiDoes(s, Applies) else s)
    {
      if !geoSnapshotRetry {
        return false;
      }
      redraw := RefreshGeoSnapshot(reply, s);
    }
  }

  // -------------------------------------------------------- the spawn loop

  /** The IPs that are not pending yet, each once, in order. */
  function NewIps(pending: set<string>, todo: seq<string>): seq<string>
    decreases |todo|
  {
    if todo == [] then []
    else if todo[0] in pending then NewIps(pending, todo[1..])
    else [todo[0]] + NewIps(pending + {todo[0]}, todo[1..])
  }

  class Enrichment {
    var pending: set<string>
    var spawned: seq<string>

    constructor ()
      ensures pending == {} && spawned == []
    {
      pending, spawned := {}, [];
    }

    method SpawnAll(codec: Codec, needsEnrichment: seq<string>)
      modifies this
      ensures pending == old(pending) + Elems(Enrichable(codec, needsEnrichment))
      ensures spawned == old(spawned) + NewIps(old(pending), Enrichable(codec, needsEnrichment))
    {
      hide MayLookUp;
      ghost var all := Enrichable(codec, needsEnrichment);
      for i := 0 to |needsEnrichment|
        invariant pending + Elems(Enrichable(codec, needsEnrichment[i..])) == old(pending) + Elems(all)
        invariant spawned + NewIps(pending, Enrichable(codec, needsEnrichment[i..]))
            == old(spawned) + NewIps(old(pending), all)
      {
        var ip := needsEnrichment[i];
        ghost var left, rest := Enrichable(codec, needsEnrichment[i..]), Enrichable(codec, needsEnrichment[i + 1..]);
        assert needsEnrichment[i..][1..] == needsEnrichment[i + 1..];
        if MayLookUp(codec, ip) {
          assert left == [ip] + rest && left[1..] == rest;
          FirstElem(ip, rest);
          if ip !in pending {
            pending := pending + {ip};
            spawned := spawned + [ip];
          }
        } else {
          assert left == [] + rest == rest;
        }
      }
    }
  }

  lemma FirstElem<T>(x: T, xs: seq<T>)
    ensures Elems([x] + xs) == {x} + Elems(xs)
  {
  }

  function NewTasks(asOf: nat, ips: seq<string>): seq<Task> {
    seq(|ips|, i requires 0 <= i < |ips| => Task(ips[i], asOf, LookingUp, [], None))
  }

  lemma {:induction false} JoinRuns(c: Config, s: State, es: seq<Event>, more: seq<Event>)
    requires Valid(c, s, es) && Valid(c, Run(c, s, es), more)
    ensures Valid(c, s, es + more) && Run(c, s, es + more) == Run(c, Run(c, s, es), more)
    decreases |es|
  {
    hide Enabled, Next;
    if es == [] {
      assert es + more == more;
    } else {
      JoinRuns(c, Next(c, s, es[0]), es[1..], more);
      assert (es + more)[1..] == es[1..] + more;
    }
  }

  lemma OneStep(c: Config, s: State, e: Event)
    requires Enabled(c, s, e)
    ensures Valid(c, s, [e]) && Run(c, s, [e]) == Next(c, s, e)
  {
    hide Enabled, Next;
    assert [e][1..] == [];
    assert Valid(c, Next(c, s, e), []);
  }

  /** The state after spawning for `todo` with nothing in between. */
  ghost function AfterSpawning(s: State, todo: seq<string>): State {
    s.(pending := s.pending + Elems(todo),
       tasks := s.tasks + NewTasks(|s.rounds|, NewIps(s.pending, todo)),
       collector := Sleeping)
  }

  lemma SkipsPending(s: State, todo: seq<string>)
    requires todo != [] && todo[0] in s.pending
    ensures AfterSpawning(s.(collector := Spawning(todo[1..])), todo[1..]) == AfterSpawning(s, todo)
  {
    hide NewTasks;
    assert todo == [todo[0]] + todo[1..];
    FirstElem(todo[0], todo[1..]);
    assert s.pending + Elems(todo) == s.pending + Elems(todo[1..]);
  }

  /** The state after one claim and the spawn it leads to. */
  ghost function OneSpawned(s: State, ip: string, rest: seq<string>): State {
    s.(pending := s.pending + {ip},
       tasks := s.tasks + [Task(ip, |s.rounds|, LookingUp, [], None)],
       collector := Spawning(rest))
  }

  lemma SpawnsNew(s: State, todo: seq<string>)
    requires todo != [] && todo[0] !in s.pending
    ensures AfterSpawning(OneSpawned(s, todo[0], todo[1..]), todo[1..]) == AfterSpawning(s, todo)
  {
    hide NewTasks;
    var ip, rest := todo[0], todo[1..];
    assert todo == [ip] + rest;
    FirstElem(ip, rest);
    var ips := NewIps(s.pending + {ip}, rest);
    var n := |s.rounds|;
    NewTasksStep(n, ip, ips);
    assert (s.tasks + [Task(ip, n, LookingUp, [], None)]) + NewTasks(n, ips) == s.tasks + NewTasks(n, [ip] + ips);
    assert (s.pending + {ip}) + Elems(rest) == s.pending + Elems(todo);
  }

  lemma ClaimThenSpawn(c: Config, s: State, todo: seq<string>)
    requires s.collector == Spawning(todo) && todo != [] && todo[0] !in s.pending
    ensures var es := [CollectorStep(Claims)] + [CollectorStep(Spawns)];
            Valid(c, s, es) && Run(c, s, es) == OneSpawned(s, todo[0], todo[1..])
  {
    hide Valid, Run;
    OneStep(c, s, CollectorStep(Claims));
    var claimed := Next(c, s, CollectorStep(Claims));
    OneStep(c, claimed, CollectorStep(Spawns));
    JoinRuns(c, s, [CollectorStep(Claims)], [CollectorStep(Spawns)]);
  }

  lemma SpawnsNothing(c: Config, s: State)
    requires s.collector == Spawning([])
    ensures Valid(c, s, [CollectorStep(Claims)]) && Run(c, s, [CollectorStep(Claims)]) == AfterSpawning(s, [])
  {
    OneStep(c, s, CollectorStep(Claims));
    assert s.tasks + NewTasks(|s.rounds|, []) == s.tasks;
    assert s.pending + Elems([]) == s.pending;
  }

  /** The spawn loop, run without interruption, is a run of claim and spawn steps. */
  lemma {:induction false} SpawnLoopIsARun(c: Config, s: State, todo: seq<string>) returns (es: seq<Event>)
    requires s.collector == Spawning(todo)
    ensures Valid(c, s, es) && Run(c, s, es) == AfterSpawning(s, todo)
    decreases |todo|
  {
    hide Valid, Run, AfterSpawning;
    if todo == [] {
      SpawnsNothing(c, s);
      es := [CollectorStep(Claims)];
    } else if todo[0] in s.pending {
      OneStep(c, s, CollectorStep(Claims));
      SkipsPending(s, todo);
      var more := SpawnLoopIsARun(c, s.(collector := Spawning(todo[1..])), todo[1..]);
      JoinRuns(c, s, [CollectorStep(Claims)], more);
      es := [CollectorStep(Claims)] + more;
    } else {
      ClaimThenSpawn(c, s, todo);
      SpawnsNew(s, todo);
      var more := SpawnLoopIsARun(c, OneSpawned(s, todo[0], todo[1..]), todo[1..]);
      es := [CollectorStep(Claims)] + [CollectorStep(Spawns)];
      JoinRuns(c, s, es, more);
      es := es + more;
    }
  }

  lemma NewTasksStep(asOf: nat, ip: string, ips: seq<string>)
    ensures NewTasks(asOf, [ip] + ips) == [Task(ip, asOf, LookingUp, [], None)] + NewTasks(asOf, ips)
  {
  }
}
