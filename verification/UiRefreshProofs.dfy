/** What every run of the dirty-bit and wake protocol keeps, and what the user therefore sees. */
module UiRefreshProofs {
  import opened Ordering
  import opened Streams
  import opened BlockCharts
  import opened UiRefresh

  // ------------------------------------------------------------- invariants

  predicate BitFor(b: Bits, w: Widget) {
    match w
    case Txs => b.chain
    case Time => b.chain
    case Node => b.nodeState
    case Details => b.nodeDetails
    case Summary => b.system
    case Disks => b.system
  }

  /** The widget's copy is what the data holds. The charts have taken every recorded sample; the summary's
      copy of the disk index, which it does not show, may be old. */
  ghost predicate Current<V>(s: State<V>, w: Widget) {
    var c := s.data.chain;
    match w
    case Txs =>
      && s.widgets.txs.curNum == c.curBlockNumber && s.widgets.txs.curTxs == c.curTxs
      && s.widgets.txs.max == c.maxTxs && s.widgets.txs.maxBlockNumber == c.maxTxsBlockNumber
      && (s.samples != [] ==> c.txns == [])
    case Time =>
      && s.widgets.time.curNum == c.curBlockNumber && s.widgets.time.curTime == c.curInterval
      && s.widgets.time.maxTime == c.maxInterval
      && (s.samples != [] ==> c.intervals == [])
    case Node => s.widgets.node == s.data.nodes
    case Details => s.widgets.details == s.data.details
    case Summary => s.widgets.summary.(index := 0) == s.data.system.(index := 0)
    case Disks => s.widgets.disks == s.data.system
  }

  /** A set bit has a token, or a UI that took one and has not yet taken the bits. */
  ghost predicate Woken<V>(s: State<V>) {
    AnyBit(s.data.dirty) ==> s.data.wake || s.ui == Received
  }

  ghost predicate CoveredFor<V>(s: State<V>, w: Widget) {
    Current(s, w) || BitFor(s.data.dirty, w) || (s.ui.Refreshing? && w in s.ui.todo)
  }

  ghost predicate Covered<V>(s: State<V>) {
    forall w: Widget :: CoveredFor(s, w)
  }

  /** The last frame shows the widgets and the status, unless a redraw or the status bit is on its way. */
  ghost predicate Framed<V>(s: State<V>) {
    && (s.screen == s.widgets || (s.ui.Refreshing? && s.ui.redraw))
    && (s.statusShown == s.data.status || s.data.dirty.status || (s.ui.Refreshing? && s.ui.redraw))
    && (s.ui.Refreshing? && s.ui.todo != [] ==> s.ui.redraw)
  }

  ghost predicate Charted<V>(s: State<V>) {
    && s.widgets.txs.points == ChartOf(s.drainedTxs) && s.widgets.txs.count == |s.drainedTxs|
    && s.widgets.time.points == ChartOf(s.drainedIntervals) && s.widgets.time.count == |s.drainedIntervals|
  }

  ghost predicate Summarised<V>(s: State<V>) {
    Summarises(s.data.chain, s.samples, s.drainedTxs, s.drainedIntervals)
  }

  ghost predicate IndexInRange<V>(s: State<V>) {
    s.data.system.index < s.data.system.disks || s.data.system.index == 0
  }

  ghost predicate Inv<V>(s: State<V>) {
    && Woken(s)
    && Covered(s)
    && Framed(s)
    && Charted(s)
    && Summarised(s)
    && IndexInRange(s)
  }

  lemma InitInv<V>(s: State<V>)
    requires Init(s)
    ensures Inv(s)
  {
    NewChainSummarises();
    EmptyChart();
  }

  lemma WokenStep<V>(s: State<V>, e: Event<V>)
    requires Woken(s) && Enabled(s, e)
    ensures Woken(Next(s, e))
  {
    hide Recorded, TxsFed, TimeFed, ClampIndex, NextIndex;
  }

  lemma FramedStep<V>(s: State<V>, e: Event<V>)
    requires Framed(s) && Enabled(s, e)
    ensures Framed(Next(s, e))
  {
    hide Recorded, TxsFed, TimeFed, ClampIndex, NextIndex;
  }

  lemma IndexStep<V>(s: State<V>, e: Event<V>)
    requires IndexInRange(s) && Enabled(s, e)
    ensures IndexInRange(Next(s, e))
  {
    hide Recorded, TxsFed, TimeFed;
  }

  /** A producer's bit covers every widget whose data it changes. */
  lemma ChangeIsCovered<V>(s: State<V>, c: Change<V>, w: Widget)
    requires CoveredFor(s, w)
    ensures CoveredFor(Next(s, Produces(c)), w)
  {
    hide Recorded, ClampIndex;
  }

  lemma BitsBecomeWork(b: Bits, w: Widget)
    ensures BitFor(b, w) <==> w in Todo(b)
  {
    var chain, nodes := if b.chain then [Txs, Time] else [], if b.nodeState then [Node] else [];
    var details, system := if b.nodeDetails then [Details] else [], if b.system then [Summary, Disks] else [];
    assert w in Todo(b) <==> w in chain || w in nodes || w in details || w in system;
  }

  lemma RefreshMakesCurrent<V>(s: State<V>)
    requires Enabled(s, RefreshesNext)
    ensures Current(RefreshNext(s), s.ui.todo[0])
  {
    hide LastPoints, Enumerate;
  }

  lemma RefreshKeepsOthers<V>(s: State<V>, w: Widget)
    requires Enabled(s, RefreshesNext) && w != s.ui.todo[0] && CoveredFor(s, w)
    ensures CoveredFor(RefreshNext(s), w)
  {
    hide LastPoints, Enumerate;
    assert w in s.ui.todo ==> w in s.ui.todo[1..];
  }

  lemma CoveredForStep<V>(s: State<V>, e: Event<V>, w: Widget)
    requires Enabled(s, e) && CoveredFor(s, w)
    ensures CoveredFor(Next(s, e), w)
  {
    hide Recorded, TxsFed, TimeFed, ClampIndex, NextIndex, Todo, Refreshed, Applied;
    match e
    case Produces(c) => ChangeIsCovered(s, c, w);
    case TakesBits => BitsBecomeWork(s.data.dirty, w);
    case RefreshesNext =>
      RefreshMakesCurrent(s);
      if w != s.ui.todo[0] {
        RefreshKeepsOthers(s, w);
      }
    case SwitchesDisk(_) =>
    case _ =>
  }

  lemma CoveredStep<V>(s: State<V>, e: Event<V>)
    requires Enabled(s, e) && Covered(s)
    ensures Covered(Next(s, e))
  {
    hide CoveredFor, Next, Enabled;
    forall w: Widget ensures CoveredFor(Next(s, e), w) {
      CoveredForStep(s, e, w);
    }
  }

  lemma ChartedStep<V>(s: State<V>, e: Event<V>)
    requires Enabled(s, e) && Charted(s)
    ensures Charted(Next(s, e))
  {
    hide Recorded, ClampIndex, NextIndex, Todo, LastPoints, Enumerate, ChartOf;
    if e.RefreshesNext? {
      ChartAppend(s.drainedTxs, s.data.chain.txns);
      ChartAppend(s.drainedIntervals, s.data.chain.intervals);
    }
  }

  lemma SummarisedStep<V>(s: State<V>, e: Event<V>)
    requires Enabled(s, e) && Summarised(s)
    ensures Summarised(Next(s, e))
  {
    hide Recorded, ClampIndex, NextIndex, Todo, TxsFed, TimeFed, Summarises;
    match e
    case Produces(c) =>
      if c.RecordBlock? {
        RecordSummarises(s.data.chain, s.samples, s.drainedTxs, s.drainedIntervals, c.sample);
      }
    case RefreshesNext => DrainSummarises(s.data.chain, s.samples, s.drainedTxs, s.drainedIntervals);
    case _ =>
  }

  lemma InvStep<V>(s: State<V>, e: Event<V>)
    requires Inv(s) && Enabled(s, e)
    ensures Inv(Next(s, e))
  {
    hide Enabled, Next, Woken, Covered, Framed, Charted, Summarised, IndexInRange;
    WokenStep(s, e);
    CoveredStep(s, e);
    FramedStep(s, e);
    ChartedStep(s, e);
    SummarisedStep(s, e);
    IndexStep(s, e);
  }

  lemma {:induction false} InvRun<V>(s: State<V>, es: seq<Event<V>>)
    requires Inv(s) && Valid(s, es)
    ensures Inv(Run(s, es))
    decreases |es|
  {
    hide Inv, Enabled, Next;
    if es != [] {
      InvStep(s, es[0]);
      InvRun(Next(s, es[0]), es[1..]);
    }
  }

  // --------------------------------------------------------------- theorems

  /** No lost update, in every reachable state: a set bit always has a wake behind it, and data a widget has
      not copied is marked by its bit or still to be refreshed. */
  lemma NoLostUpdate<V>(s: State<V>, es: seq<Event<V>>)
    requires Init(s) && Valid(s, es)
    ensures Woken(Run(s, es))
    ensures forall w: Widget :: CoveredFor(Run(s, es), w)
  {
    hide Init, Enabled, Next, CoveredFor, Woken, Framed, Charted, Summarised, IndexInRange;
    InitInv(s);
    InvRun(s, es);
  }

  ghost predicate AtRest<V>(s: State<V>) {
    s.ui == Idle && !s.data.wake
  }

  // What the producers of a run put in last; `v` where they put in nothing.

  function NodesPut<V>(es: seq<Event<V>>, v: V): V {
    if es == [] then v
    else NodesPut(es[1..], if es[0].Produces? && es[0].change.SetNodes? then es[0].change.nodes else v)
  }

  function DetailsPut<V>(es: seq<Event<V>>, v: V): V {
    if es == [] then v
    else DetailsPut(es[1..], if es[0].Produces? && es[0].change.SetDetails? then es[0].change.details else v)
  }

  function StatusPut<V>(es: seq<Event<V>>, v: V): V {
    if es == [] then v
    else StatusPut(es[1..], if es[0].Produces? && es[0].change.SetStatus? then es[0].change.status else v)
  }

  /** System figures, number of disks and alert flag. */
  function SystemPut<V>(es: seq<Event<V>>, v: (V, nat, bool)): (V, nat, bool) {
    if es == [] then v
    else
      var e := es[0];
      SystemPut(es[1..], if e.Produces? && e.change.ReplaceSystem?
                         then (e.change.stats, e.change.disks, e.change.alerts) else v)
  }

  function BlocksPut<V>(es: seq<Event<V>>): seq<Sample> {
    if es == [] then []
    else (if es[0].Produces? && es[0].change.RecordBlock? then [es[0].change.sample] else []) + BlocksPut(es[1..])
  }

  function FiguresOf<V>(system: System<V>): (V, nat, bool) {
    (system.stats, system.disks, system.alerts)
  }

  /** From `s` to `t` the events `es` happened: the data is what it was but for the last value of each kind put in. */
  ghost predicate HoldsPut<V>(s: State<V>, es: seq<Event<V>>, t: State<V>) {
    && t.data.nodes == NodesPut(es, s.data.nodes)
    && t.data.details == DetailsPut(es, s.data.details)
    && t.data.status == StatusPut(es, s.data.status)
    && FiguresOf(t.data.system) == SystemPut(es, FiguresOf(s.data.system))
    && t.samples == s.samples + BlocksPut(es)
  }

  lemma StepHolds<V>(s: State<V>, e: Event<V>)
    requires Enabled(s, e)
    ensures HoldsPut(s, [e], Next(s, e))
  {
    hide Recorded, TxsFed, TimeFed, ClampIndex, NextIndex, Todo;
    var d := s.data;
    assert [e][1..] == [] && s.samples + [] == s.samples;
    assert NodesPut([e], d.nodes) == Next(s, e).data.nodes;
    assert DetailsPut([e], d.details) == Next(s, e).data.details;
    assert StatusPut([e], d.status) == Next(s, e).data.status;
    assert SystemPut([e], FiguresOf(d.system)) == FiguresOf(Next(s, e).data.system);
    assert s.samples + BlocksPut([e]) == Next(s, e).samples;
  }

  lemma PutInTurn<V>(es: seq<Event<V>>, v: V, figures: (V, nat, bool))
    requires es != []
    ensures NodesPut(es, v) == NodesPut(es[1..], NodesPut([es[0]], v))
    ensures DetailsPut(es, v) == DetailsPut(es[1..], DetailsPut([es[0]], v))
    ensures StatusPut(es, v) == StatusPut(es[1..], StatusPut([es[0]], v))
    ensures SystemPut(es, figures) == SystemPut(es[1..], SystemPut([es[0]], figures))
    ensures BlocksPut(es) == BlocksPut([es[0]]) + BlocksPut(es[1..])
  {
    assert [es[0]][1..] == [];
  }

  lemma HoldsFurther<V>(s: State<V>, es: seq<Event<V>>, m: State<V>, t: State<V>)
    requires es != [] && HoldsPut(s, [es[0]], m) && HoldsPut(m, es[1..], t)
    ensures HoldsPut(s, es, t)
  {
    hide NodesPut, DetailsPut, StatusPut, SystemPut, BlocksPut;
    PutInTurn(es, s.data.nodes, FiguresOf(s.data.system));
    PutInTurn(es, s.data.details, FiguresOf(s.data.system));
    PutInTurn(es, s.data.status, FiguresOf(s.data.system));
  }

  /** In every run the data holds, for each producer, the last value it put in, and every block. */
  lemma {:induction false} DataHoldsWhatWasPutIn<V>(s: State<V>, es: seq<Event<V>>)
    requires Valid(s, es)
    ensures HoldsPut(s, es, Run(s, es))
    decreases |es|
  {
    hide Enabled, Next, HoldsPut;
    if es == [] {
      NothingPut(s);
    } else {
      StepHolds(s, es[0]);
      DataHoldsWhatWasPutIn(Next(s, es[0]), es[1..]);
      HoldsFurther(s, es, Next(s, es[0]), Run(s, es));
    }
  }

  lemma NothingPut<V>(s: State<V>)
    ensures HoldsPut(s, [], s)
  {
    assert s.samples + [] == s.samples;
  }

  /** Whenever the UI waits with no token in the channel, no bit is set, all widgets hold the committed data, and
      the frame on the screen shows the last value each producer put in. */
  lemma RestingScreenIsCurrent<V>(s: State<V>, es: seq<Event<V>>)
    requires Init(s) && Valid(s, es) && AtRest(Run(s, es))
    ensures var t := Run(s, es);
            && t.data.dirty == CLEAN
            && t.screen == t.widgets && t.statusShown == t.data.status
            && forall w: Widget :: Current(t, w)
    ensures var t := Run(s, es);
            && t.screen.node == NodesPut(es, s.data.nodes)
            && t.screen.details == DetailsPut(es, s.data.details)
            && t.statusShown == StatusPut(es, s.data.status)
            && FiguresOf(t.screen.summary) == FiguresOf(t.screen.disks) == SystemPut(es, FiguresOf(s.data.system))
  {
    hide Init, Enabled, Next, Charted, Summarised, IndexInRange, NodesPut, DetailsPut, StatusPut, SystemPut;
    InitInv(s);
    InvRun(s, es);
    DataHoldsWhatWasPutIn(s, es);
    var t := Run(s, es);
    assert t.data.dirty == CLEAN;
    forall w: Widget ensures Current(t, w) {
      assert CoveredFor(t, w);
    }
    assert Current(t, Node) && Current(t, Details) && Current(t, Summary) && Current(t, Disks);
  }

  /** Tab moves the selection one disk on, from the last to the first; Shift+Tab undoes it; new figures keep it
      while that disk is there, else take the last one; nothing else moves it. */
  lemma SelectionMoves<V>(s: State<V>, e: Event<V>)
    requires IndexInRange(s) && Enabled(s, e)
    ensures var was, now := s.data.system, Next(s, e).data.system;
            match e
            case SwitchesDisk(true) => now.index == if was.index + 1 < was.disks then was.index + 1 else 0
            case SwitchesDisk(false) =>
              was.disks > 0 ==> was.index == if now.index + 1 < was.disks then now.index + 1 else 0
            case Produces(ReplaceSystem(_, disks, _)) =>
              if was.index < disks then now.index == was.index
              else if disks > 0 then now.index == disks - 1
              else now.index == 0
            case _ => now.index == was.index
  {
    hide Recorded, TxsFed, TimeFed, Todo;
    if e.SwitchesDisk? && e.forward && s.data.system.disks > 1 {
      WrapAround(s.data.system.index + 1, s.data.system.disks);
    }
  }

  /** Forward and then backward, or the other way round, is back where it was. */
  lemma SwitchingBackUndoes<V>(d: Shared<V>, forward: bool)
    requires d.system.index < d.system.disks || d.system.index == 0
    ensures Selected(Selected(d, forward), !forward) == d
  {
    hide NextIndex;
    var index, disks := d.system.index, d.system.disks;
    if disks > 1 {
      OneOn(forward, index, disks);
      OneOn(!forward, NextIndex(forward, index, disks), disks);
    }
  }

  lemma OneOn(forward: bool, index: nat, disks: nat)
    requires index < disks && disks > 1
    ensures var next := NextIndex(forward, index, disks);
            next == if forward then if index + 1 < disks then index + 1 else 0
                    else if index > 0 then index - 1
                    else disks - 1
  {
    WrapAround(index + 1, disks);
  }

  lemma WrapAround(n: nat, count: nat)
    requires count > 0 ==> 0 < n <= count
    ensures count > 0 ==> n % count == if n < count then n else 0
  {
  }

  /** In every state, however updates and producers interleaved: nothing is lost between the accumulator and
      the charts, and each chart holds the last 200 points of the placeholder and the stream it was fed. */
  lemma ChartsFollowTheStream<V>(s: State<V>, es: seq<Event<V>>)
    requires Init(s) && Valid(s, es)
    ensures var t := Run(s, es);
            && t.drainedTxs + t.data.chain.txns == [0] + TxsOf(t.samples)
            && t.drainedIntervals + t.data.chain.intervals == [0] + IntervalsOf(t.samples)
            && t.widgets.txs.points == ChartOf(t.drainedTxs)
            && t.widgets.time.points == ChartOf(t.drainedIntervals)
  {
    hide Init, Enabled, Next, Woken, Covered, Framed, IndexInRange, ChartOf, Maxima, Latest, TxsOf, IntervalsOf;
    InitInv(s);
    InvRun(s, es);
  }

  lemma AllDrained(drained: seq<nat>, buffer: seq<nat>, whole: seq<nat>)
    requires drained + buffer == whole && buffer == []
    ensures drained == whole
  {
    assert drained + [] == drained;
  }

  lemma StartsEmpty<V>(s: State<V>, es: seq<Event<V>>)
    requires Init(s)
    ensures s.samples + BlocksPut(es) == BlocksPut(es)
  {
  }

  /** At rest, once a block was recorded, the screen's charts are functions of the whole block history. */
  lemma RestingChartsAreTheHistory<V>(s: State<V>, es: seq<Event<V>>)
    requires Init(s) && Valid(s, es) && AtRest(Run(s, es)) && Run(s, es).samples != []
    ensures var t := Run(s, es);
            && t.screen.txs.points == ChartOf([0] + TxsOf(t.samples))
            && t.screen.time.points == ChartOf([0] + IntervalsOf(t.samples))
            && IsMax(t.screen.txs.max, TxsOf(t.samples))
            && FirstAttains(t.screen.txs.max, t.screen.txs.maxBlockNumber, t.samples)
            && IsMax(t.screen.time.maxTime, IntervalsOf(t.samples))
            && t.screen.time.curTime == LastOr(IntervalsOf(t.samples), 0)
            && t.screen.txs.curNum == t.samples[|t.samples| - 1].number
            && t.screen.txs.curTxs == t.samples[|t.samples| - 1].txs
            && t.samples == BlocksPut(es)
  {
    hide Init, Enabled, Next, ChartOf, TxsOf, IntervalsOf, IsMax, FirstAttains, LastTime, Woken, Covered, IndexInRange;
    RestingScreenIsCurrent(s, es);
    ChartsFollowTheStream(s, es);
    InitInv(s);
    InvRun(s, es);
    DataHoldsWhatWasPutIn(s, es);
    StartsEmpty(s, es);
    var t := Run(s, es);
    assert Current(t, Txs) && Current(t, Time);
    AllDrained(t.drainedTxs, t.data.chain.txns, [0] + TxsOf(t.samples));
    AllDrained(t.drainedIntervals, t.data.chain.intervals, [0] + IntervalsOf(t.samples));
  }

  // ---------------------------------------------------------- disk alerts

  /** The alert flags of the figures that producers put in, in order. */
  function AlertsOf<V>(es: seq<Event<V>>): seq<bool> {
    if es == [] then []
    else (if es[0].Produces? && es[0].change.ReplaceSystem? then [es[0].change.alerts] else []) + AlertsOf(es[1..])
  }

  /** What the collector of system figures tells after a replacement: true warns, false gives the all-clear. */
  function DiskMessage(previous: bool, alerts: bool): seq<bool> {
    if alerts && !previous then [true]
    else if !alerts && previous then [false]
    else []
  }

  /** The disk messages of a run, each decided by the flag its replacement found. */
  ghost function DiskMessages<V>(s: State<V>, es: seq<Event<V>>): seq<bool>
    requires Valid(s, es)
    decreases |es|
  {
    if es == [] then []
    else
      var message := if es[0].Produces? && es[0].change.ReplaceSystem?
                     then DiskMessage(s.data.system.alerts, es[0].change.alerts) else [];
      message + DiskMessages(Next(s, es[0]), es[1..])
  }

  lemma AlertsStep<V>(s: State<V>, e: Event<V>)
    requires Enabled(s, e)
    ensures Next(s, e).data.system.alerts
         == if e.Produces? && e.change.ReplaceSystem? then e.change.alerts else s.data.system.alerts
  {
    hide Recorded, TxsFed, TimeFed, ClampIndex, NextIndex, Todo;
  }

  lemma {:induction false} MessagesFrom<V>(s: State<V>, es: seq<Event<V>>)
    requires Valid(s, es)
    ensures DiskMessages(s, es) == Edges(s.data.system.alerts, AlertsOf(es))
    decreases |es|
  {
    hide Edges, Enabled, Next;
    if es == [] {
      NoEdges(s.data.system.alerts);
    } else {
      AlertsStep(s, es[0]);
      MessagesFrom(Next(s, es[0]), es[1..]);
      if es[0].Produces? && es[0].change.ReplaceSystem? {
        EdgesFront(s.data.system.alerts, es[0].change.alerts, AlertsOf(es[1..]));
      } else {
        assert [] + AlertsOf(es[1..]) == AlertsOf(es[1..]);
      }
    }
  }

  /** Whatever the UI and the other producers do in between: the disk messages of a run are the edges of the alert
      flags put in, so warnings and all-clears alternate, a warning first. */
  lemma DiskMessagesAreTheEdges<V>(s: State<V>, es: seq<Event<V>>)
    requires Init(s) && Valid(s, es)
    ensures DiskMessages(s, es) == Edges(false, AlertsOf(es))
    ensures forall i | 0 <= i < |DiskMessages(s, es)| :: DiskMessages(s, es)[i] == (i % 2 == 0)
  {
    hide Edges, DiskMessages;
    MessagesFrom(s, es);
    EdgesShape(false, AlertsOf(es));
    var messages := DiskMessages(s, es);
    assert forall i | 0 <= i < |messages| :: messages[i] == true || messages[i] == false;
    Alternates(true, false, messages);
  }

  // ------------------------------------------------------------- settling

  predicate Quiet<V>(e: Event<V>) {
    e.ReceivesWake? || e.TakesBits? || e.RefreshesNext? || e.Draws?
  }

  ghost predicate QuietRun<V>(es: seq<Event<V>>) {
    forall i | 0 <= i < |es| :: Quiet(es[i])
  }

  /** An upper bound on the UI's remaining steps when nobody produces and nobody presses a key. */
  function Work<V>(s: State<V>): nat {
    (if s.data.wake then 10 else 0)
    + match s.ui
      case Idle => 0
      case Received => 9
      case Refreshing(todo, _) => |todo| + 1
  }

  lemma QuietStep<V>(s: State<V>, e: Event<V>)
    requires Enabled(s, e) && Quiet(e)
    ensures Work(Next(s, e)) < Work(s)
  {
    hide TxsFed, TimeFed;
    assert |Todo(s.data.dirty)| <= 6;
  }

  lemma {:induction false} QuietRunsEnd<V>(s: State<V>, es: seq<Event<V>>)
    requires Valid(s, es) && QuietRun(es)
    ensures |es| + Work(Run(s, es)) <= Work(s)
    decreases |es|
  {
    hide Work, Enabled, Next;
    if es != [] {
      assert Quiet(es[0]);
      QuietStep(s, es[0]);
      QuietRunsEnd(Next(s, es[0]), es[1..]);
    }
  }

  lemma {:induction false} SplitRun<V>(s: State<V>, es: seq<Event<V>>, more: seq<Event<V>>)
    requires Valid(s, es) && Valid(Run(s, es), more)
    ensures Valid(s, es + more) && Run(s, es + more) == Run(Run(s, es), more)
    decreases |es|
  {
    hide Enabled, Next;
    if es == [] {
      assert es + more == more;
    } else {
      SplitRun(Next(s, es[0]), es[1..], more);
      assert (es + more)[1..] == es[1..] + more;
    }
  }

  /** The UI never sticks: undisturbed it takes at most `Work` further steps, each enabled until it rests, and
      then the screen shows the data. */
  lemma ScreenSettles<V>(s: State<V>, es: seq<Event<V>>, quiet: seq<Event<V>>)
    requires Init(s) && Valid(s, es) && Valid(Run(s, es), quiet) && QuietRun(quiet)
    ensures |quiet| <= Work(Run(s, es))
    ensures var t := Run(Run(s, es), quiet);
            if AtRest(t)
            then t.screen == t.widgets && t.statusShown == t.data.status && forall w: Widget :: Current(t, w)
            else exists e: Event<V> :: Quiet(e) && Enabled(t, e)
  {
    hide Init, Next, Current, Work;
    QuietRunsEnd(Run(s, es), quiet);
    SplitRun(s, es, quiet);
    var t := Run(Run(s, es), quiet);
    if AtRest(t) {
      RestingScreenIsCurrent(s, es + quiet);
    } else {
      var e: Event<V> := match t.ui
        case Idle => ReceivesWake
        case Received => TakesBits
        case Refreshing(todo, _) => if todo == [] then Draws else RefreshesNext;
      assert Quiet(e) && Enabled(t, e);
    }
  }

  // ------------------------------------------- the program's methods as runs

  function Refreshes<V>(n: nat): seq<Event<V>> {
    seq(n, _ => RefreshesNext)
  }

  lemma {:induction false} RefreshRun<V>(s: State<V>)
    requires s.ui.Refreshing?
    ensures Valid(s, Refreshes(|s.ui.todo|))
    ensures var t := Run(s, Refreshes(|s.ui.todo|));
            && (t.data, t.widgets) == AllRefreshed(s.data, s.widgets, s.ui.todo)
            && t.ui == s.ui.(todo := [])
            && t.screen == s.screen
    decreases |s.ui.todo|
  {
    hide Refreshed;
    var es := Refreshes<V>(|s.ui.todo|);
    if s.ui.todo != [] {
      assert es[0] == RefreshesNext && es[1..] == Refreshes<V>(|s.ui.todo| - 1);
      RefreshRun(RefreshNext(s));
    }
  }

  /** What `App.RefreshDirtyWidgets` and the redraw after it do at once is the interleaved system's run with
      no other event in between. */
  lemma LoopArmIsARun<V>(s: State<V>)
    requires s.ui == Received
    ensures var taken := s.data.dirty;
            var es := [TakesBits] + Refreshes(|Todo(taken)|) + [Draws];
            && Valid(s, es)
            && (Run(s, es).data, Run(s, es).widgets) == AllRefreshed(s.data.(dirty := CLEAN), s.widgets, Todo(taken))
            && Run(s, es).ui == Idle
            && Run(s, es).screen == if AnyBit(taken) then Run(s, es).widgets else s.screen
  {
    hide AllRefreshed, RefreshNext, Todo;
    var taken := s.data.dirty;
    var first, rest := [TakesBits], Refreshes<V>(|Todo(taken)|);
    assert first[0] == TakesBits && first[1..] == [];
    var t := Next(s, TakesBits);
    assert Run(s, first) == t by {
      assert Run(t, first[1..]) == t;
    }
    RefreshRun(t);
    SplitRun(s, first, rest);
    var u := Run(s, first + rest);
    assert [Event<V>.Draws][1..] == [];
    assert Run(u, [Draws]) == Next(u, Draws);
    SplitRun(s, first + rest, [Draws]);
  }
}
