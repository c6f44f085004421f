/** The dirty bits and the wake token by which producers and the UI loop share data
    (src/collect/data.rs, src/app.rs, the dirty-refresh and disk arms of src/main.rs). `V` stands for the
    node states, node details, the status message and system figures, which this protocol only copies. */
module UiRefresh {
  import opened Ordering
  import opened BlockCharts

  datatype Bits = Bits(chain: bool, nodeState: bool, nodeDetails: bool, status: bool, system: bool)

  const CLEAN := Bits(false, false, false, false, false)

  predicate AnyBit(b: Bits) {
    b.chain || b.nodeState || b.nodeDetails || b.status || b.system
  }

  datatype System<V> = System(stats: V, disks: nat, alerts: bool, index: nat)

  /** What the data lock guards, and the token in the capacity-1 wake channel. */
  datatype Shared<V> = Shared(
    chain: Chain,
    nodes: V,
    details: V,
    status: V,
    system: System<V>,
    dirty: Bits,
    wake: bool)

  datatype Widgets<V> = Widgets(
    txs: TxsView,
    time: TimeView,
    node: V,
    details: V,
    summary: System<V>,
    disks: System<V>)

  datatype Widget = Txs | Time | Node | Details | Summary | Disks

  // -------------------------------------------------------------- producers

  datatype Change<V> =
    | RecordBlock(sample: Sample)
    | SetNodes(nodes: V)
    | SetDetails(details: V)
    | SetStatus(status: V)
    | ReplaceSystem(stats: V, disks: nat, alerts: bool)

  function ClampIndex(index: nat, disks: nat): nat {
    if disks == 0 then 0 else Min(index, disks - 1)
  }

  function Applied<V>(d: Shared<V>, c: Change<V>): Shared<V> {
    match c
    case RecordBlock(s) => d.(chain := Recorded(d.chain, s))
    case SetNodes(v) => d.(nodes := v)
    case SetDetails(v) => d.(details := v)
    case SetStatus(v) => d.(status := v)
    case ReplaceSystem(v, disks, alerts) =>
      d.(system := System(v, disks, alerts, ClampIndex(d.system.index, disks)))
  }

  function BitsOf<V>(c: Change<V>): Bits {
    Bits(c.RecordBlock?, c.SetNodes?, c.SetDetails?, c.SetStatus?, c.ReplaceSystem?)
  }

  function Union(a: Bits, b: Bits): Bits {
    Bits(a.chain || b.chain, a.nodeState || b.nodeState, a.nodeDetails || b.nodeDetails,
         a.status || b.status, a.system || b.system)
  }

  /** Mutate, mark dirty and `try_send`, all under one lock: a full channel keeps its token. */
  function Produced<V>(d: Shared<V>, c: Change<V>): Shared<V> {
    Applied(d, c).(dirty := Union(d.dirty, BitsOf(c)), wake := true)
  }

  // --------------------------------------------------------------- consumer

  function Todo(b: Bits): seq<Widget> {
    (if b.chain then [Txs, Time] else [])
    + (if b.nodeState then [Node] else [])
    + (if b.nodeDetails then [Details] else [])
    + (if b.system then [Summary, Disks] else [])
  }

  /** One widget's `update`, under one lock acquisition. */
  function Refreshed<V>(d: Shared<V>, w: Widgets<V>, target: Widget): (Shared<V>, Widgets<V>) {
    match target
    case Txs => (d.(chain := d.chain.(txns := [])), w.(txs := TxsFed(w.txs, d.chain)))
    case Time => (d.(chain := d.chain.(intervals := [])), w.(time := TimeFed(w.time, d.chain)))
    case Node => (d, w.(node := d.nodes))
    case Details => (d, w.(details := d.details))
    case Summary => (d, w.(summary := d.system))
    case Disks => (d, w.(disks := d.system))
  }

  function AllRefreshed<V>(d: Shared<V>, w: Widgets<V>, todo: seq<Widget>): (Shared<V>, Widgets<V>)
    decreases |todo|
  {
    if todo == [] then (d, w)
    else
      var next := Refreshed(d, w, todo[0]);
      AllRefreshed(next.0, next.1, todo[1..])
  }

  function NextIndex(forward: bool, index: nat, disks: nat): nat
    requires disks > 1
  {
    if forward then (index + 1) % disks
    else if index == 0 then disks - 1
    else index - 1
  }

  /** The disk selection after Tab or Shift+Tab; no bit is set for it. */
  function Selected<V>(d: Shared<V>, forward: bool): Shared<V> {
    if d.system.disks <= 1 then d
    else
      var next := NextIndex(forward, d.system.index, d.system.disks);
      d.(system := d.system.(index := ClampIndex(next, d.system.disks)))
  }

  // --------------------------------------------------------- the program's objects

  class Data<V> {
    const chain: ChainStats
    var nodes: V
    var details: V
    var status: V
    var system: System<V>
    var dirty: Bits
    var wake: bool

    function Value(): Shared<V>
      reads this, chain
    {
      Shared(chain.Contents(), nodes, details, status, system, dirty, wake)
    }

    constructor (nodes: V, details: V, status: V, stats: V)
      ensures fresh(chain)
      ensures Value() == Shared(NEW_CHAIN, nodes, details, status, System(stats, 0, false, 0), CLEAN, false)
    {
      chain := new ChainStats();
      this.nodes, this.details, this.status := nodes, details, status;
      system := System(stats, 0, false, 0);
      dirty, wake := CLEAN, false;
    }

    method NotifyUiIfNeeded()
      modifies this`wake
      ensures wake == (old(wake) || AnyBit(dirty))
    {
      if AnyBit(dirty) {
        wake := true;
      }
    }

    method RecordBlockSample(number: nat, time: nat, txs: nat)
      modifies this, chain
      ensures Value() == Produced(old(Value()), RecordBlock(Sample(number, time, txs)))
    {
      hide Recorded;
      chain.RecordBlockSample(number, time, txs);
      dirty := dirty.(chain := true);
      NotifyUiIfNeeded();
    }

    method UpdateConsensusState(nodes: V)
      modifies this
      ensures Value() == Produced(old(Value()), SetNodes(nodes))
    {
      this.nodes := nodes;
      dirty := dirty.(nodeState := true);
      NotifyUiIfNeeded();
    }

    method UpdateNodeDetails(details: V)
      modifies this
      ensures Value() == Produced(old(Value()), SetDetails(details))
    {
      this.details := details;
      dirty := dirty.(nodeDetails := true);
      NotifyUiIfNeeded();
    }

    /** `changed` is false for a message that is already there and has not expired. */
    method SetStatusMessage(status: V, changed: bool)
      modifies this
      ensures Value() == if changed then Produced(old(Value()), SetStatus(status)) else old(Value())
    {
      if changed {
        this.status := status;
        dirty := dirty.(status := true);
        NotifyUiIfNeeded();
      }
    }

    /** Returns whether disks were over the threshold before, under the same lock. */
    method ReplaceSystemStats(stats: V, disks: nat, alerts: bool) returns (previousAlert: bool)
      modifies this
      ensures previousAlert == old(system).alerts
      ensures Value() == Produced(old(Value()), ReplaceSystem(stats, disks, alerts))
    {
      previousAlert := system.alerts;
      system := System(stats, disks, alerts, ClampIndex(system.index, disks));
      dirty := dirty.(system := true);
      NotifyUiIfNeeded();
    }

    method TakeUiDirty() returns (taken: Bits)
      modifies this
      ensures taken == old(dirty) && Value() == old(Value()).(dirty := CLEAN)
    {
      taken := dirty;
      dirty := CLEAN;
    }

    method UpdateDiskIndex(index: nat)
      modifies this
      ensures Value() == old(Value()).(system := old(system).(index := ClampIndex(index, old(system).disks)))
    {
      system := system.(index := ClampIndex(index, system.disks));
    }
  }

  class App<V> {
    const data: Data<V>
    const txs: TxsWidget
    const time: TimeWidget
    var node: V
    var details: V
    var summary: System<V>
    var disks: System<V>

    function Shown(): Widgets<V>
      reads this, txs, txs.chart, time, time.chart
    {
      Widgets(txs.View(), time.View(), node, details, summary, disks)
    }

    constructor (data: Data<V>, node: V, details: V, system: System<V>)
      ensures this.data == data && fresh(txs) && fresh(txs.chart) && fresh(time) && fresh(time.chart)
      ensures txs.chart != time.chart
      ensures Shown() == Widgets(NEW_TXS_VIEW, NEW_TIME_VIEW, node, details, system, system)
    {
      this.data := data;
      txs := new TxsWidget();
      time := new TimeWidget();
      this.node, this.details, summary, disks := node, details, system, system;
    }

    method RefreshChainWidgets()
      requires txs.chart != time.chart
      modifies data.chain, txs, txs.chart, time, time.chart
      ensures (data.Value(), Shown()) == AllRefreshed(old(data.Value()), old(Shown()), [Txs, Time])
    {
      hide LastPoints, Enumerate;
      ghost var d, w := data.Value(), Shown();
      txs.Update(data.chain);
      assert (data.Value(), Shown()) == Refreshed(d, w, Txs);
      time.Update(data.chain);
      InTurn(d, w, Txs, [Time]);
    }

    method RefreshSystemWidgets()
      modifies this`summary, this`disks
      ensures Shown() == AllRefreshed(data.Value(), old(Shown()), [Summary, Disks]).1
      ensures data.Value() == AllRefreshed(data.Value(), old(Shown()), [Summary, Disks]).0
    {
      hide TxsFed, TimeFed;
      ghost var d, w := data.Value(), Shown();
      summary := data.system;
      disks := data.system;
      OneRefreshed(d, w.(summary := d.system), Disks);
      InTurn(d, w, Summary, [Disks]);
      assert [Summary] + [Disks] == [Summary, Disks];
    }

    /** With no producer in between, the loop arm's work is the taken bits' widgets refreshed in order. */
    method RefreshDirtyWidgets() returns (redraw: bool)
      requires txs.chart != time.chart
      modifies this, data, data.chain, txs, txs.chart, time, time.chart
      ensures redraw == AnyBit(old(data.dirty))
      ensures (data.Value(), Shown())
           == AllRefreshed(old(data.Value()).(dirty := CLEAN), old(Shown()), Todo(old(data.dirty)))
    {
      hide TxsFed, TimeFed, AllRefreshed;
      ghost var w := Shown();
      var dirty := data.TakeUiDirty();
      ghost var d := data.Value();
      redraw := dirty.status;
      ghost var done: seq<Widget> := [];
      NothingRefreshed(d, w);
      if dirty.chain {
        RefreshChainWidgets();
        done := [Txs, Time];
        redraw := true;
      }
      ghost var now := (data.Value(), Shown());
      assert now == AllRefreshed(d, w, done);
      if dirty.nodeState {
        node := data.nodes;
        OneRefreshed(now.0, now.1, Node);
        RefreshedFurther(d, w, done, [Node]);
        done := done + [Node];
        redraw := true;
      }
      now := (data.Value(), Shown());
      assert now == AllRefreshed(d, w, done);
      if dirty.nodeDetails {
        details := data.details;
        OneRefreshed(now.0, now.1, Details);
        RefreshedFurther(d, w, done, [Details]);
        done := done + [Details];
        redraw := true;
      }
      now := (data.Value(), Shown());
      assert now == AllRefreshed(d, w, done);
      if dirty.system {
        RefreshSystemWidgets();
        RefreshedFurther(d, w, done, [Summary, Disks]);
        done := done + [Summary, Disks];
        redraw := true;
      }
      assert (data.Value(), Shown()) == AllRefreshed(d, w, done);
      assert done == Todo(dirty);
    }

    method SwitchDiskSelection(forward: bool) returns (redraw: bool)
      modifies this, data
      ensures data.Value() == Selected(old(data.Value()), forward)
      ensures redraw == (data.Value() != old(data.Value()))
      ensures Shown() == if redraw then old(Shown()).(disks := data.system) else old(Shown())
    {
      redraw := false;
      var count := data.system.disks;
      if count > 1 {
        var next := NextIndex(forward, data.system.index, count);
        if next != data.system.index {
          data.UpdateDiskIndex(next);
          redraw := true;
        }
      }
      if redraw {
        disks := data.system;
      }
    }
  }

  lemma NothingRefreshed<V>(d: Shared<V>, w: Widgets<V>)
    ensures AllRefreshed(d, w, []) == (d, w)
  {
  }

  lemma OneRefreshed<V>(d: Shared<V>, w: Widgets<V>, target: Widget)
    ensures AllRefreshed(d, w, [target]) == Refreshed(d, w, target)
  {
    hide TxsFed, TimeFed;
    var next := Refreshed(d, w, target);
    assert AllRefreshed(next.0, next.1, [target][1..]) == next;
  }

  lemma InTurn<V>(d: Shared<V>, w: Widgets<V>, target: Widget, rest: seq<Widget>)
    ensures AllRefreshed(d, w, [target] + rest)
         == AllRefreshed(Refreshed(d, w, target).0, Refreshed(d, w, target).1, rest)
  {
    assert ([target] + rest)[1..] == rest;
  }

  lemma {:induction false} RefreshedFurther<V>(d: Shared<V>, w: Widgets<V>, first: seq<Widget>, more: seq<Widget>)
    ensures AllRefreshed(d, w, first + more)
         == AllRefreshed(AllRefreshed(d, w, first).0, AllRefreshed(d, w, first).1, more)
    decreases |first|
  {
    hide TxsFed, TimeFed, Refreshed;
    if first == [] {
      assert [] + more == more;
    } else {
      var next := Refreshed(d, w, first[0]);
      RefreshedFurther(next.0, next.1, first[1..], more);
      assert (first + more)[1..] == first[1..] + more;
    }
  }

  // ------------------------------------------------------- the interleaved system

  datatype Ui = Idle | Received | Refreshing(todo: seq<Widget>, redraw: bool)

  /** The last three components only record what happened. */
  datatype State<V> = State(
    data: Shared<V>,
    ui: Ui,
    widgets: Widgets<V>,
    screen: Widgets<V>,
    statusShown: V,
    samples: seq<Sample>,
    drainedTxs: seq<nat>,
    drainedIntervals: seq<nat>)

  datatype Event<V> =
    | Produces(change: Change<V>)
    | ReceivesWake
    | TakesBits
    | RefreshesNext
    | Draws
    | SwitchesDisk(forward: bool)
    | Redraws

  ghost predicate Enabled<V>(s: State<V>, e: Event<V>) {
    match e
    case Produces(_) => true
    case ReceivesWake => s.ui == Idle && s.data.wake
    case TakesBits => s.ui == Received
    case RefreshesNext => s.ui.Refreshing? && s.ui.todo != []
    case Draws => s.ui.Refreshing? && s.ui.todo == []
    case SwitchesDisk(_) => s.ui == Idle
    case Redraws => s.ui == Idle
  }

  function RefreshNext<V>(s: State<V>): State<V>
    requires s.ui.Refreshing? && s.ui.todo != []
  {
    var target := s.ui.todo[0];
    var next := Refreshed(s.data, s.widgets, target);
    s.(data := next.0, widgets := next.1, ui := s.ui.(todo := s.ui.todo[1..]),
       drainedTxs := if target == Txs then s.drainedTxs + s.data.chain.txns else s.drainedTxs,
       drainedIntervals := if target == Time then s.drainedIntervals + s.data.chain.intervals else s.drainedIntervals)
  }

  /** A frame shows the widgets' copies, and the status message as it is in the data. */
  function Drawn<V>(s: State<V>): State<V> {
    s.(screen := s.widgets, statusShown := s.data.status)
  }

  ghost function Next<V>(s: State<V>, e: Event<V>): State<V>
    requires Enabled(s, e)
  {
    match e
    case Produces(c) =>
      s.(data := Produced(s.data, c), samples := if c.RecordBlock? then s.samples + [c.sample] else s.samples)
    case ReceivesWake => s.(data := s.data.(wake := false), ui := Received)
    case TakesBits =>
      s.(data := s.data.(dirty := CLEAN), ui := Refreshing(Todo(s.data.dirty), AnyBit(s.data.dirty)))
    case RefreshesNext => RefreshNext(s)
    case Draws => if s.ui.redraw then Drawn(s).(ui := Idle) else s.(ui := Idle)
    case SwitchesDisk(forward) =>
      var d := Selected(s.data, forward);
      if d == s.data then s else s.(data := d, ui := Refreshing([Disks], true))
    case Redraws => Drawn(s)
  }

  /** The waker has been installed on clean data, and the start-up update and first frame are ahead:
      `todo` holds whichever widgets that update is due for. Producers may already be running. */
  ghost predicate Init<V>(s: State<V>) {
    && s.data.chain == NEW_CHAIN
    && s.data.system.disks == s.data.system.index == 0 && !s.data.system.alerts
    && s.data.dirty == CLEAN && !s.data.wake
    && s.ui.Refreshing? && s.ui.redraw
    && s.widgets == Widgets(NEW_TXS_VIEW, NEW_TIME_VIEW, s.data.nodes, s.data.details, s.data.system, s.data.system)
    && s.samples == [] && s.drainedTxs == [] && s.drainedIntervals == []
  }

  ghost predicate Valid<V>(s: State<V>, es: seq<Event<V>>)
    decreases |es|
  {
    es == [] || (Enabled(s, es[0]) && Valid(Next(s, es[0]), es[1..]))
  }

  ghost function Run<V>(s: State<V>, es: seq<Event<V>>): State<V>
    requires Valid(s, es)
    decreases |es|
  {
    if es == [] then s else Run(Next(s, es[0]), es[1..])
  }
}
