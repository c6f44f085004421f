/** The country panel: its owned snapshot and the packing of rows into columns (src/widgets/countries.rs).
    Styles are left out; how wide a flag is drawn is a parameter of the widget. */
module CountryGrid {
  import opened Ordering
  import opened Wrappers
  import opened GeoSnapshot

  const CONTENT_ROW_COUNT: nat := 4
  const SUMMARY_ROW_INDEX: nat := 3
  const COUNTRY_COLUMN_GAP: nat := 2
  const MAX_COUNTRY_COLUMNS: nat := 5
  const U16_MAX: nat := 65535

  datatype Rect = Rect(x: nat, y: nat, width: nat, height: nat)

  /** Terminal coordinates are 16 bits wide. */
  predicate OnScreen(r: Rect) {
    r.x + r.width <= U16_MAX && r.y + r.height <= U16_MAX
  }

  predicate Inside(a: Rect, b: Rect) {
    b.x <= a.x && a.x + a.width <= b.x + b.width && b.y <= a.y && a.y + a.height <= b.y + b.height
  }

  predicate Disjoint(a: Rect, b: Rect) {
    a.x + a.width <= b.x || b.x + b.width <= a.x || a.y + a.height <= b.y || b.y + b.height <= a.y
  }

  function AsU16(n: nat): nat {
    n % 65536
  }

  function Right(r: Rect): nat {
    Min(r.x + r.width, U16_MAX)
  }

  datatype Mode = FlagAndCode | CodeAndCount | SummaryOnly

  datatype Look = Look(showFlags: bool, flagWidth: string -> nat, unknownFlagWidth: nat)

  datatype Entry = Entry(flagWidth: nat, code: string, count: nat)

  function Digits(n: nat): nat {
    if n < 10 then 1 else Digits(n / 10) + 1
  }

  /** `code [count]`, with the flag and a blank before it in the full form. */
  function RowWidth(e: Entry, mode: Mode): nat {
    match mode
    case FlagAndCode => e.flagWidth + 1 + |e.code| + 2 + Digits(e.count) + 1
    case CodeAndCount => |e.code| + 2 + Digits(e.count) + 1
    case SummaryOnly => 0
  }

  function KnownEntry(look: Look, c: CountryCount): Entry {
    Entry(look.flagWidth(c.code), c.code, c.peers)
  }

  function UnknownEntry(look: Look, unknown: nat): Entry {
    Entry(look.unknownFlagWidth, "--", unknown)
  }

  /** The known countries, then the unknown row if there is one. */
  function Entries(look: Look, s: GeoViewSnapshot): seq<Entry> {
    seq(|s.countryCounts|, i requires 0 <= i < |s.countryCounts| => KnownEntry(look, s.countryCounts[i]))
    + if s.unknownCount > 0 then [UnknownEntry(look, s.unknownCount)] else []
  }

  function Widest(es: seq<Entry>, mode: Mode): nat {
    if es == [] then 0
    else Max(Widest(es[..|es| - 1], mode), RowWidth(es[|es| - 1], mode))
  }

  function RowMode(look: Look, es: seq<Entry>, width: nat): Mode {
    if look.showFlags && Widest(es, FlagAndCode) > 0 && width >= Widest(es, FlagAndCode) then FlagAndCode
    else if Widest(es, CodeAndCount) > 0 && width >= Widest(es, CodeAndCount) then CodeAndCount
    else SummaryOnly
  }

  function ColumnCount(areaWidth: nat, columnWidth: nat): nat {
    if columnWidth == 0 then 1
    else
      var fit := (areaWidth + COUNTRY_COLUMN_GAP) / (columnWidth + COUNTRY_COLUMN_GAP);
      if fit < 1 then 1 else Min(fit, MAX_COUNTRY_COLUMNS)
  }

  datatype Cell = Cell(at: Rect, entry: Entry)

  datatype SummaryRow = SummaryRow(at: Rect, known: nat, hidden: nat, total: nat)

  datatype Painted =
    | Nothing
    | Unavailable
    | NoPeers(summary: Option<SummaryRow>)
    | Grid(cells: seq<Cell>, summary: Option<SummaryRow>)

  // ------------------------------------------------------------ the layout

  datatype Layout = Layout(mode: Mode, columnWidth: nat, columns: nat, shown: nat, unknown: nat)

  function DataRows(area: Rect): nat {
    Min(area.height, SUMMARY_ROW_INDEX)
  }

  function LayoutOf(look: Look, s: GeoViewSnapshot, area: Rect): Layout {
    var es := Entries(look, s);
    var mode := RowMode(look, es, area.width);
    var width := Widest(es, mode);
    var columns := ColumnCount(area.width, width);
    var unknown := if s.unknownCount > 0 then 1 else 0;
    var room := DataRows(area) * columns;
    var limit := if room > unknown then room - unknown else 0;
    Layout(mode, width, columns, if mode == SummaryOnly then 0 else Min(|s.countryCounts|, limit),
           if mode == SummaryOnly then 0 else unknown)
  }

  function Slot(area: Rect, l: Layout, index: nat): Rect
    requires l.columns > 0
  {
    Rect(area.x + (index % l.columns) * (l.columnWidth + COUNTRY_COLUMN_GAP),
         area.y + index / l.columns, l.columnWidth, 1)
  }

  function CellAt(look: Look, s: GeoViewSnapshot, area: Rect, l: Layout, index: nat): Cell
    requires l.columns > 0 && l.shown <= |s.countryCounts|
  {
    Cell(Slot(area, l, index),
         if index < l.shown then KnownEntry(look, s.countryCounts[index]) else UnknownEntry(look, s.unknownCount))
  }

  /** Every planned row, at its full column width, whether or not it could be painted. */
  function Cells(look: Look, s: GeoViewSnapshot, area: Rect, l: Layout): seq<Cell>
    requires l.columns > 0 && l.shown <= |s.countryCounts|
  {
    seq(l.shown + l.unknown, i requires 0 <= i < l.shown + l.unknown => CellAt(look, s, area, l, i))
  }

  function SummaryAt(area: Rect, known: nat, hidden: nat, total: nat): Option<SummaryRow> {
    if area.height > SUMMARY_ROW_INDEX
    then Some(SummaryRow(Rect(area.x, area.y + SUMMARY_ROW_INDEX, area.width, 1), known, hidden, total))
    else None
  }

  function Planned(look: Look, s: GeoViewSnapshot, loaded: bool, area: Rect): Painted {
    if area.width == 0 || area.height == 0 then Nothing
    else if !loaded then Unavailable
    else if s.totalPeers == 0 then NoPeers(SummaryAt(area, 0, 0, 0))
    else
      var l := LayoutOf(look, s, area);
      Grid(Cells(look, s, area, l),
           SummaryAt(area, |s.countryCounts|, |s.countryCounts| - l.shown, s.totalPeers))
  }

  // ----------------------------------------------------------- arithmetic

  lemma ColumnsTake(columns: nat, pitch: nat, room: nat)
    requires pitch > 0 && columns <= room / pitch
    ensures columns * pitch <= room
  {
    assert room == (room / pitch) * pitch + room % pitch;
    assert columns * pitch <= (room / pitch) * pitch;
  }

  lemma ColumnStart(column: nat, columns: nat, pitch: nat)
    requires column < columns
    ensures column * pitch + pitch <= columns * pitch
  {
    assert columns * pitch == (column + 1) * pitch + (columns - column - 1) * pitch;
    assert (column + 1) * pitch == column * pitch + pitch;
  }

  /** The last column ends where the area does or before. */
  lemma ColumnsFit(areaWidth: nat, columnWidth: nat, column: nat)
    requires 0 < columnWidth <= areaWidth && column < ColumnCount(areaWidth, columnWidth)
    ensures column * (columnWidth + COUNTRY_COLUMN_GAP) + columnWidth <= areaWidth
  {
    var pitch, room := columnWidth + COUNTRY_COLUMN_GAP, areaWidth + COUNTRY_COLUMN_GAP;
    assert room / pitch >= 1 by { assert room >= pitch; }
    var columns := ColumnCount(areaWidth, columnWidth);
    ColumnsTake(columns, pitch, room);
    ColumnStart(column, columns, pitch);
  }

  /** Fewer than five columns are used only when one more would not fit. */
  lemma ColumnsAreMaximal(areaWidth: nat, columnWidth: nat)
    requires columnWidth > 0 && ColumnCount(areaWidth, columnWidth) < MAX_COUNTRY_COLUMNS
    ensures var n := ColumnCount(areaWidth, columnWidth);
            n * (columnWidth + COUNTRY_COLUMN_GAP) + columnWidth > areaWidth
  {
    var pitch, room := columnWidth + COUNTRY_COLUMN_GAP, areaWidth + COUNTRY_COLUMN_GAP;
    var n := ColumnCount(areaWidth, columnWidth);
    assert room < (room / pitch + 1) * pitch;
    assert (room / pitch + 1) * pitch <= (n + 1) * pitch;
    assert (n + 1) * pitch == n * pitch + pitch;
  }

  lemma RowOf(index: nat, columns: nat, rows: nat)
    requires columns > 0 && index < rows * columns
    ensures index / columns < rows
  {
    var row := index / columns;
    assert index == row * columns + index % columns;
    assert row >= rows ==> row * columns >= rows * columns;
  }

  // --------------------------------------------------------------- widths

  lemma {:induction false} WidestBounds(es: seq<Entry>, mode: Mode, e: Entry)
    requires e in es
    ensures RowWidth(e, mode) <= Widest(es, mode)
  {
    var n := |es| - 1;
    if es[n] != e {
      WidestBounds(es[..n], mode, e);
    }
  }

  lemma {:induction false} WidestAttained(es: seq<Entry>, mode: Mode)
    ensures Widest(es, mode) > 0 ==> exists e :: e in es && RowWidth(e, mode) == Widest(es, mode)
  {
    if es != [] {
      var n := |es| - 1;
      WidestAttained(es[..n], mode);
      assert es[n] in es;
    }
  }

  /** The chosen form is the richest in which every row fits the panel, and no rows at all are drawn only if
      there are none or some row does not fit even without its flag. */
  lemma ModeIsTheRichestThatFits(look: Look, es: seq<Entry>, width: nat)
    requires es != []
    ensures RowMode(look, es, width) == FlagAndCode
       <==> look.showFlags && forall e | e in es :: RowWidth(e, FlagAndCode) <= width
    ensures RowMode(look, es, width) == SummaryOnly <==> exists e :: e in es && RowWidth(e, CodeAndCount) > width
  {
    hide Widest;
    Fits(es, FlagAndCode, width);
    Fits(es, CodeAndCount, width);
    if RowMode(look, es, width) == FlagAndCode {
      forall e | e in es ensures RowWidth(e, CodeAndCount) <= width {
        assert RowWidth(e, FlagAndCode) <= width;
      }
    }
  }

  lemma Fits(es: seq<Entry>, mode: Mode, width: nat)
    requires es != [] && mode != SummaryOnly
    ensures Widest(es, mode) > 0
    ensures width >= Widest(es, mode) <==> forall e | e in es :: RowWidth(e, mode) <= width
  {
    hide Widest;
    WidestAttained(es, mode);
    WidestBounds(es, mode, es[0]);
    forall e | e in es ensures RowWidth(e, mode) <= Widest(es, mode) {
      WidestBounds(es, mode, e);
    }
  }

  // ------------------------------------------------------- layout properties

  ghost predicate Usable(area: Rect) {
    area.width > 0 && area.height > 0
  }

  lemma LayoutBasics(look: Look, s: GeoViewSnapshot, area: Rect)
    requires Usable(area)
    ensures var l := LayoutOf(look, s, area);
            && 1 <= l.columns <= MAX_COUNTRY_COLUMNS
            && l.shown <= |s.countryCounts| && l.columnWidth == Widest(Entries(look, s), l.mode)
            && (l.mode != SummaryOnly ==>
                  0 < l.columnWidth <= area.width && l.columns == ColumnCount(area.width, l.columnWidth))
            && (l.mode != SummaryOnly ==> l.shown + l.unknown <= DataRows(area) * l.columns)
            && (l.mode == SummaryOnly ==> l.shown + l.unknown == 0)
  {
    hide Widest, Entries;
    var l := LayoutOf(look, s, area);
    assert DataRows(area) * l.columns >= l.columns;
  }

  lemma EntryIsListed(look: Look, s: GeoViewSnapshot, area: Rect, l: Layout, index: nat)
    requires l.columns > 0 && l.shown <= |s.countryCounts| && index < l.shown + l.unknown
    requires l.unknown > 0 ==> l.unknown == 1 && s.unknownCount > 0
    ensures CellAt(look, s, area, l, index).entry in Entries(look, s)
  {
    hide Slot, KnownEntry, UnknownEntry;
    var es, entry := Entries(look, s), CellAt(look, s, area, l, index).entry;
    assert index < l.shown ==> es[index] == entry;
    assert index >= l.shown ==> es[|s.countryCounts|] == entry;
  }

  lemma SlotFits(area: Rect, l: Layout, index: nat)
    requires 0 < l.columnWidth <= area.width && l.columns == ColumnCount(area.width, l.columnWidth)
    requires index < DataRows(area) * l.columns
    ensures l.columns > 0 && Inside(Slot(area, l, index), area) && Slot(area, l, index).y < area.y + SUMMARY_ROW_INDEX
  {
    hide ColumnCount, DataRows, Slot, Inside;
    RowIsNear(area, index, l.columns);
    ColumnsFit(area.width, l.columnWidth, index % l.columns);
    SlotInside(area, l, index);
  }

  lemma SlotInside(area: Rect, l: Layout, index: nat)
    requires l.columns > 0 && index / l.columns < area.height
    requires (index % l.columns) * (l.columnWidth + COUNTRY_COLUMN_GAP) + l.columnWidth <= area.width
    ensures Inside(Slot(area, l, index), area) && Slot(area, l, index).y == area.y + index / l.columns
  {
  }

  /** Every planned row lies inside the panel, above the summary row, and is wide enough for its text. */
  lemma RowsFit(look: Look, s: GeoViewSnapshot, area: Rect, index: nat)
    requires Usable(area) && index < LayoutOf(look, s, area).shown + LayoutOf(look, s, area).unknown
    ensures var l := LayoutOf(look, s, area);
            && l.columns > 0 && l.shown <= |s.countryCounts|
            && var cell := CellAt(look, s, area, l, index);
            && Inside(cell.at, area)
            && cell.at.y < area.y + SUMMARY_ROW_INDEX
            && RowWidth(cell.entry, l.mode) <= cell.at.width == l.columnWidth
  {
    hide LayoutOf, Entries, Widest, RowWidth, ColumnCount, Inside, DataRows, KnownEntry, UnknownEntry;
    LayoutBasics(look, s, area);
    UnknownHasARow(look, s, area);
    var l := LayoutOf(look, s, area);
    SlotFits(area, l, index);
    EntryIsListed(look, s, area, l, index);
    WidestBounds(Entries(look, s), l.mode, CellAt(look, s, area, l, index).entry);
  }

  /** No two planned rows share a character cell. */
  lemma RowsAreDisjoint(look: Look, s: GeoViewSnapshot, area: Rect, i: nat, j: nat)
    requires Usable(area) && i < j < LayoutOf(look, s, area).shown + LayoutOf(look, s, area).unknown
    ensures var l := LayoutOf(look, s, area);
            l.columns > 0 && Disjoint(Slot(area, l, i), Slot(area, l, j))
  {
    hide LayoutOf;
    LayoutBasics(look, s, area);
    var l := LayoutOf(look, s, area);
    SlotsAreDisjoint(area, l, i, j);
  }

  lemma SlotsAreDisjoint(area: Rect, l: Layout, i: nat, j: nat)
    requires l.columns > 0 && i < j
    ensures Disjoint(Slot(area, l, i), Slot(area, l, j))
  {
    var pitch := l.columnWidth + COUNTRY_COLUMN_GAP;
    var a, b := i % l.columns, j % l.columns;
    assert i == (i / l.columns) * l.columns + a && j == (j / l.columns) * l.columns + b;
    if i / l.columns == j / l.columns {
      ColumnStart(a, b, pitch);
    } else if i / l.columns > j / l.columns {
      ColumnStart(j / l.columns, i / l.columns, l.columns);
    }
  }

  /** The painted rows tell the first `shown` known countries with their peers, then the unknown peers if any. */
  ghost predicate TellsFirst(look: Look, s: GeoViewSnapshot, cells: seq<Cell>, shown: nat)
    requires shown <= |s.countryCounts|
  {
    && |cells| == shown + (if s.unknownCount > 0 then 1 else 0)
    && (forall i | 0 <= i < shown ::
          var c := s.countryCounts[i];
          cells[i].entry == Entry(look.flagWidth(c.code), c.code, c.peers))
    && (s.unknownCount > 0 ==> cells[shown].entry == Entry(look.unknownFlagWidth, "--", s.unknownCount))
  }

  lemma CellsTellFirst(look: Look, s: GeoViewSnapshot, area: Rect)
    requires Usable(area) && LayoutOf(look, s, area).mode != SummaryOnly
    ensures var l := LayoutOf(look, s, area);
            l.columns > 0 && l.shown <= |s.countryCounts| && TellsFirst(look, s, Cells(look, s, area, l), l.shown)
  {
    hide LayoutOf, Slot;
    LayoutBasics(look, s, area);
    UnknownHasARow(look, s, area);
  }

  /** When rows are drawn at all, the unknown row is drawn whenever there are unknown peers, and every known
      country is either drawn or counted as hidden; none of the hidden comes before a drawn one. */
  lemma EveryCountryIsAccountedFor(look: Look, m: CountryMap, area: Rect)
    requires Usable(area)
    ensures var s := GroupView(m);
            var l := LayoutOf(look, s, area);
            && l.columns > 0 && l.shown <= |s.countryCounts|
            && (l.mode != SummaryOnly ==> TellsFirst(look, s, Cells(look, s, area, l), l.shown))
            && (forall i, j | 0 <= i < l.shown <= j < |s.countryCounts| ::
                CountLt(s.countryCounts[i], s.countryCounts[j]))
  {
    hide LayoutOf, GroupView, CountLt, Slot, TellsFirst, Cells;
    LayoutBasics(look, GroupView(m), area);
    if LayoutOf(look, GroupView(m), area).mode != SummaryOnly {
      CellsTellFirst(look, GroupView(m), area);
    }
    GroupsAreExact(m);
  }

  // ------------------------------------------------------- nothing is wasted

  lemma NotAbove(p: nat, q: nat, r: nat, t: nat, divisor: nat)
    requires p * divisor + r == q * divisor + t && t < divisor
    ensures p <= q
  {
    if q < p {
      ColumnStart(q, p, divisor);
    }
  }

  lemma QuotientIsUnique(n: nat, quotient: nat, rest: nat, divisor: nat)
    requires n == quotient * divisor + rest && rest < divisor
    ensures n / divisor == quotient && n % divisor == rest
  {
    assert n == (n / divisor) * divisor + n % divisor;
    NotAbove(quotient, n / divisor, rest, n % divisor, divisor);
    NotAbove(n / divisor, quotient, n % divisor, rest, divisor);
  }

  lemma SlotIndex(row: nat, column: nat, columns: nat, rows: nat)
    requires row < rows && column < columns
    ensures row * columns + column < rows * columns
    ensures (row * columns + column) / columns == row && (row * columns + column) % columns == column
  {
    ColumnStart(row, rows, columns);
    QuotientIsUnique(row * columns + column, row, column, columns);
  }

  /** The slot of a column and a row is where they meet. */
  lemma SlotAt(area: Rect, l: Layout, row: nat, column: nat)
    requires column < l.columns && row < Min(area.height, 3)
    ensures row * l.columns + column < Min(area.height, 3) * l.columns
    ensures Slot(area, l, row * l.columns + column)
         == Rect(area.x + column * (l.columnWidth + 2), area.y + row, l.columnWidth, 1)
  {
    SlotIndex(row, column, l.columns, Min(area.height, 3));
  }

  /** Columns start a row's width and two blanks apart, at most five of them, and no more than the area holds. */
  lemma ColumnIsUsed(areaWidth: nat, columnWidth: nat, column: nat)
    requires columnWidth > 0 && column < 5 && column * (columnWidth + 2) + columnWidth <= areaWidth
    ensures column < ColumnCount(areaWidth, columnWidth)
  {
    var n, pitch := ColumnCount(areaWidth, columnWidth), columnWidth + 2;
    assert n <= column ==> n * pitch <= column * pitch;
    if n < 5 {
      ColumnsAreMaximal(areaWidth, columnWidth);
    }
  }

  lemma FullWhenHidden(look: Look, s: GeoViewSnapshot, area: Rect)
    requires Usable(area) && LayoutOf(look, s, area).mode != SummaryOnly
    requires LayoutOf(look, s, area).shown < |s.countryCounts|
    ensures var l := LayoutOf(look, s, area);
            l.shown + l.unknown == Min(area.height, 3) * l.columns
  {
    hide Widest, Entries, RowMode, ColumnCount;
    var l := LayoutOf(look, s, area);
    PositiveColumns(area.width, l.columnWidth);
    assert DataRows(area) * l.columns >= l.columns;
  }

  /** The number of known countries among the painted rows: all but the unknown row, which is painted last. */
  function KnownPainted(s: GeoViewSnapshot, cells: seq<Cell>): int {
    |cells| - if s.unknownCount > 0 && cells != [] then 1 else 0
  }

  lemma FullGridHasNoPlace(look: Look, s: GeoViewSnapshot, area: Rect, column: nat, row: nat)
    requires Usable(area) && LayoutOf(look, s, area).mode != SummaryOnly
    requires LayoutOf(look, s, area).shown < |s.countryCounts| && row < Min(area.height, 3)
    requires var width := LayoutOf(look, s, area).columnWidth;
             column < 5 && column * (width + 2) + width <= area.width
    ensures var l := LayoutOf(look, s, area);
            && l.columns > 0 && l.shown <= |s.countryCounts|
            && var cells := Cells(look, s, area, l);
            exists i :: 0 <= i < |cells|
                        && cells[i].at == Rect(area.x + column * (l.columnWidth + 2), area.y + row, l.columnWidth, 1)
  {
    hide LayoutOf, Slot, Entries, RowMode, ColumnCount, Widest, KnownEntry, UnknownEntry;
    var l := LayoutOf(look, s, area);
    LayoutBasics(look, s, area);
    FullWhenHidden(look, s, area);
    ColumnIsUsed(area.width, l.columnWidth, column);
    SlotAt(area, l, row, column);
    var index := row * l.columns + column;
    assert Cells(look, s, area, l)[index] == CellAt(look, s, area, l, index);
  }

  /** What the painted rows tell of the layout. */
  lemma PaintedTell(look: Look, s: GeoViewSnapshot, area: Rect)
    requires Usable(area) && s.totalPeers > 0 && Planned(look, s, true, area).cells != []
    ensures var l := LayoutOf(look, s, area);
            && l.columns > 0 && l.shown <= |s.countryCounts| && l.mode != SummaryOnly
            && Planned(look, s, true, area).cells == Cells(look, s, area, l)
            && Planned(look, s, true, area).cells[0].at.width == l.columnWidth
            && KnownPainted(s, Cells(look, s, area, l)) == l.shown
  {
    hide LayoutOf, Entries, RowMode, ColumnCount, Widest, KnownEntry, UnknownEntry;
    LayoutBasics(look, s, area);
    UnknownHasARow(look, s, area);
  }

  /** Where a row of the width could stand in one of the five columns. */
  function Place(area: Rect, width: nat, column: nat, y: nat): Rect {
    Rect(area.x + column * (width + 2), y, width, 1)
  }

  /** While a known country is hidden though rows are drawn, no place is left: wherever a row of that width could
      stand inside the area and above the summary, a painted row is in the way. */
  lemma HiddenOnlyWhenFull(look: Look, s: GeoViewSnapshot, area: Rect, cells: seq<Cell>, column: nat, y: nat)
    requires Usable(area) && s.totalPeers > 0 && cells == Planned(look, s, true, area).cells
    requires cells != [] && KnownPainted(s, cells) < |s.countryCounts|
    requires column < 5 && Inside(Place(area, cells[0].at.width, column, y), area) && y < area.y + 3
    ensures exists i :: 0 <= i < |cells| && !Disjoint(cells[i].at, Place(area, cells[0].at.width, column, y))
  {
    hide LayoutOf, Cells;
    PaintedTell(look, s, area);
    LayoutBasics(look, s, area);
    FullGridHasNoPlace(look, s, area, column, y - area.y);
    var place := Place(area, cells[0].at.width, column, y);
    var i :| 0 <= i < |cells| && cells[i].at == place;
    assert !Disjoint(place, place);
  }

  lemma NextIndex(index: nat, columns: nat)
    requires columns > 0 && index > 0
    ensures var row, column := (index - 1) / columns, (index - 1) % columns;
            if column + 1 < columns then index / columns == row && index % columns == column + 1
            else index / columns == row + 1 && index % columns == 0
  {
    var row, column := (index - 1) / columns, (index - 1) % columns;
    assert index - 1 == row * columns + column;
    if column + 1 < columns {
      QuotientIsUnique(index, row, column + 1, columns);
    } else {
      assert (row + 1) * columns == row * columns + columns;
      QuotientIsUnique(index, row + 1, 0, columns);
    }
  }

  lemma NextSlot(area: Rect, l: Layout, i: nat)
    requires l.columns > 0 && i > 0
    ensures var before := Slot(area, l, i - 1);
            Slot(area, l, i) == if (i - 1) % l.columns + 1 < l.columns
                                then Rect(before.x + l.columnWidth + 2, before.y, l.columnWidth, 1)
                                else Rect(area.x, before.y + 1, l.columnWidth, 1)
  {
    NextIndex(i, l.columns);
    var column, pitch := (i - 1) % l.columns, l.columnWidth + 2;
    assert (column + 1) * pitch == column * pitch + pitch;
  }

  /** Rows stand side by side, a gap of two between them, while there is room for one more and fewer than five stand
      there; then the next line is begun. */
  lemma CellsFollowEachOther(look: Look, s: GeoViewSnapshot, area: Rect, cells: seq<Cell>, i: nat)
    requires Usable(area) && s.totalPeers > 0 && cells == Planned(look, s, true, area).cells && i < |cells|
    ensures var width := cells[0].at.width;
            cells[i].at == if i == 0 then Rect(area.x, area.y, width, 1)
                           else
                             var before := cells[i - 1].at;
                             if before.x + 2 * width + 2 <= area.x + area.width && before.x < area.x + 4 * (width + 2)
                             then Rect(before.x + width + 2, before.y, width, 1)
                             else Rect(area.x, before.y + 1, width, 1)
  {
    hide LayoutOf, ColumnCount, Cells, Slot, Planned;
    PaintedTell(look, s, area);
    LayoutBasics(look, s, area);
    var l := LayoutOf(look, s, area);
    CellStandsAt(look, s, area, l, 0);
    CellStandsAt(look, s, area, l, i);
    FirstSlot(area, l);
    if i > 0 {
      CellStandsAt(look, s, area, l, i - 1);
      NextSlot(area, l, i);
      LastColumn(area.width, l.columnWidth, (i - 1) % l.columns);
      SlotColumn(area, l, i - 1);
    }
  }

  lemma CellStandsAt(look: Look, s: GeoViewSnapshot, area: Rect, l: Layout, i: nat)
    requires l.columns > 0 && l.shown <= |s.countryCounts| && i < |Cells(look, s, area, l)|
    ensures Cells(look, s, area, l)[i].at == Slot(area, l, i)
  {
    hide Slot;
  }

  lemma FirstSlot(area: Rect, l: Layout)
    requires l.columns > 0
    ensures Slot(area, l, 0) == Rect(area.x, area.y, l.columnWidth, 1)
  {
    QuotientIsUnique(0, 0, 0, l.columns);
  }

  lemma SlotColumn(area: Rect, l: Layout, i: nat)
    requires l.columns > 0
    ensures Slot(area, l, i).x == area.x + (i % l.columns) * (l.columnWidth + 2)
  {
  }

  /** A column is the last one when no further one fits or it is the fifth. */
  lemma LastColumn(areaWidth: nat, columnWidth: nat, column: nat)
    requires 0 < columnWidth <= areaWidth && column < ColumnCount(areaWidth, columnWidth)
    ensures column + 1 < ColumnCount(areaWidth, columnWidth)
       <==> column * (columnWidth + 2) + 2 * columnWidth + 2 <= areaWidth
            && column * (columnWidth + 2) < 4 * (columnWidth + 2)
  {
    var n, pitch := ColumnCount(areaWidth, columnWidth), columnWidth + 2;
    assert (column + 1) * pitch == column * pitch + pitch;
    assert column >= 4 ==> column * pitch >= 4 * pitch;
    assert column <= 3 ==> column * pitch <= 3 * pitch;
    if column + 1 < n {
      ColumnsFit(areaWidth, columnWidth, column + 1);
    } else if column < 4 && (column + 1) * pitch + columnWidth <= areaWidth {
      ColumnIsUsed(areaWidth, columnWidth, column + 1);
    }
  }

  /** The width of the widest row, with the flags if they are shown and all rows fit with them. */
  ghost predicate IsWidest(width: nat, look: Look, es: seq<Entry>, areaWidth: nat) {
    var mode := if look.showFlags && forall e | e in es :: RowWidth(e, FlagAndCode) <= areaWidth then FlagAndCode
                else CodeAndCount;
    && (forall e | e in es :: RowWidth(e, mode) <= width)
    && (exists e :: e in es && RowWidth(e, mode) == width)
  }

  lemma WidthIsWidest(look: Look, es: seq<Entry>, areaWidth: nat)
    ensures RowMode(look, es, areaWidth) != SummaryOnly ==>
              IsWidest(Widest(es, RowMode(look, es, areaWidth)), look, es, areaWidth)
  {
    hide Widest, RowWidth, RowMode;
    var mode := RowMode(look, es, areaWidth);
    NoEntriesNoRows(look, areaWidth);
    if mode != SummaryOnly {
      ModeIsTheRichestThatFits(look, es, areaWidth);
      Fits(es, mode, areaWidth);
      WidestAttained(es, mode);
      forall e | e in es ensures RowWidth(e, mode) <= Widest(es, mode) {
        WidestBounds(es, mode, e);
      }
    }
  }

  /** What the frame adds up to: rows are drawn unless none are due or one does not fit without its flag; they tell
      the first known countries and the unknown peers; all are as wide as the widest; and the summary, on the fourth
      line if there is one, tells the known countries, those not painted, and the peers. */
  lemma FrameAddsUp(look: Look, s: GeoViewSnapshot, area: Rect)
    requires Usable(area) && s.totalPeers > 0
    ensures var p := Planned(look, s, true, area);
            && p.Grid?
            && (p.cells == [] <==> Entries(look, s) == []
                                   || exists e :: e in Entries(look, s) && RowWidth(e, CodeAndCount) > area.width)
            && (p.cells != [] ==> 0 <= KnownPainted(s, p.cells) <= |s.countryCounts|
                                  && TellsFirst(look, s, p.cells, KnownPainted(s, p.cells)))
            && (forall i | 0 <= i < |p.cells| :: p.cells[i].at.width == p.cells[0].at.width)
            && (p.cells != [] ==> IsWidest(p.cells[0].at.width, look, Entries(look, s), area.width))
            && p.summary == if area.height <= 3 then None
                            else Some(SummaryRow(Rect(area.x, area.y + 3, area.width, 1), |s.countryCounts|,
                                                 |s.countryCounts| - KnownPainted(s, p.cells), s.totalPeers))
  {
    hide Widest, Entries, RowMode, ColumnCount, RowWidth, TellsFirst, IsWidest;
    var l, es := LayoutOf(look, s, area), Entries(look, s);
    LayoutBasics(look, s, area);
    UnknownHasARow(look, s, area);
    if l.mode != SummaryOnly {
      CellsTellFirst(look, s, area);
    }
    WidthIsWidest(look, es, area.width);
    EntriesCount(look, s);
    NoEntriesNoRows(look, area.width);
    if es != [] {
      ModeIsTheRichestThatFits(look, es, area.width);
    }
    if l.mode != SummaryOnly && l.unknown == 0 {
      SomeRowFits(look, s, area);
    }
  }

  /** Without a line to paint on nothing is painted; before the first good read the panel says so; without peers it
      says so above a summary of zeros. */
  lemma EmptyFrames(look: Look, s: GeoViewSnapshot, loaded: bool, area: Rect)
    ensures var p := Planned(look, s, loaded, area);
            && (p == Nothing <==> area.width == 0 || area.height == 0)
            && (p == Unavailable <==> area.width > 0 && area.height > 0 && !loaded)
            && (p.NoPeers? <==> area.width > 0 && area.height > 0 && loaded && s.totalPeers == 0)
            && (p.NoPeers? ==> p.summary == if area.height <= 3 then None
                                            else Some(SummaryRow(Rect(area.x, area.y + 3, area.width, 1), 0, 0, 0)))
  {
    hide LayoutOf, Cells;
    if Usable(area) {
      LayoutBasics(look, s, area);
    }
  }

  lemma EntriesCount(look: Look, s: GeoViewSnapshot)
    ensures Entries(look, s) == [] <==> s.countryCounts == [] && s.unknownCount == 0
  {
  }

  lemma NoEntriesNoRows(look: Look, width: nat)
    ensures RowMode(look, [], width) == SummaryOnly
  {
  }

  lemma SomeRowFits(look: Look, s: GeoViewSnapshot, area: Rect)
    requires Usable(area) && LayoutOf(look, s, area).mode != SummaryOnly && s.unknownCount == 0
    ensures s.countryCounts != [] ==> LayoutOf(look, s, area).shown > 0
  {
    hide Widest, Entries, RowMode, ColumnCount;
    var l := LayoutOf(look, s, area);
    PositiveColumns(area.width, l.columnWidth);
    assert DataRows(area) * l.columns >= l.columns;
  }

  const DECIMALS := "0123456789"

  function Decimal(n: nat): (text: string)
    ensures |text| == Digits(n)
  {
    if n < 10 then [DECIMALS[n]] else Decimal(n / 10) + [DECIMALS[n % 10]]
  }

  /** A row is as wide as its text, and in the full form as its flag and a blank more. */
  lemma RowWidthIsTheText(e: Entry)
    ensures RowWidth(e, CodeAndCount) == |e.code + " [" + Decimal(e.count) + "]"|
    ensures RowWidth(e, FlagAndCode) == e.flagWidth + |" " + e.code + " [" + Decimal(e.count) + "]"|
  {
  }

  lemma UnknownHasARow(look: Look, s: GeoViewSnapshot, area: Rect)
    ensures var l := LayoutOf(look, s, area);
            l.unknown == if l.mode != SummaryOnly && s.unknownCount > 0 then 1 else 0
  {
  }

  // ------------------------------------------------------------- the widget

  class PeerCountriesWidget {
    const look: Look
    var snapshot: GeoViewSnapshot
    var snapshotLoaded: bool

    constructor (look: Look)
      ensures this.look == look && snapshot == EMPTY_SNAPSHOT && !snapshotLoaded
    {
      this.look, snapshot, snapshotLoaded := look, EMPTY_SNAPSHOT, false;
    }

    /** A failed read leaves the last good snapshot in place. */
    method RefreshSnapshot(reply: Result<GeoViewSnapshot>) returns (ok: bool)
      modifies this
      ensures ok == reply.Ok?
      ensures snapshot == (if reply.Ok? then reply.value else old(snapshot))
      ensures snapshotLoaded == (old(snapshotLoaded) || reply.Ok?)
    {
      match reply
      case Ok(latest) =>
        snapshot, snapshotLoaded, ok := latest, true, true;
      case Err(_) =>
        ok := false;
    }

    method CountryWidths() returns (full: nat, codeOnly: nat)
      ensures full == Widest(Entries(look, snapshot), FlagAndCode)
      ensures codeOnly == Widest(Entries(look, snapshot), CodeAndCount)
    {
      hide RowWidth;
      full, codeOnly := 0, 0;
      var known := |snapshot.countryCounts|;
      ghost var es := Entries(look, snapshot);
      for i := 0 to known
        invariant full == Widest(es[..i], FlagAndCode) && codeOnly == Widest(es[..i], CodeAndCount)
      {
        assert es[..i + 1][..i] == es[..i];
        var e := KnownEntry(look, snapshot.countryCounts[i]);
        full := Max(full, RowWidth(e, FlagAndCode));
        codeOnly := Max(codeOnly, RowWidth(e, CodeAndCount));
      }
      if snapshot.unknownCount > 0 {
        var e := UnknownEntry(look, snapshot.unknownCount);
        full := Max(full, RowWidth(e, FlagAndCode));
        codeOnly := Max(codeOnly, RowWidth(e, CodeAndCount));
        assert es[..known] == es[..|es| - 1];
      } else {
        assert es[..known] == es;
      }
    }

    /** `render_country_row`: a row too wide for its rectangle is skipped. */
    static function PaintRow(cells: seq<Cell>, at: Rect, entry: Entry, mode: Mode): seq<Cell> {
      if at.width == 0 || at.height == 0 || mode == SummaryOnly || RowWidth(entry, mode) > at.width then cells
      else cells + [Cell(at, entry)]
    }

    /** Where the code puts row `index`, in 16-bit arithmetic. */
    method RowRect(area: Rect, columnWidth: nat, columns: nat, index: nat) returns (at: Rect)
      requires OnScreen(area) && 0 < columnWidth <= area.width && columns == ColumnCount(area.width, columnWidth)
      requires index < DataRows(area) * columns
      ensures columns > 0
      ensures at == Rect(area.x + (index % columns) * (columnWidth + COUNTRY_COLUMN_GAP),
                         area.y + index / columns, columnWidth, 1)
    {
      hide ColumnCount, DataRows, AsU16;
      assert columns > 0 by { PositiveColumns(area.width, columnWidth); }
      var row, column := index / columns, index % columns;
      ColumnsFit(area.width, columnWidth, column);
      RowIsNear(area, index, columns);
      var offset := column * (columnWidth + COUNTRY_COLUMN_GAP);
      Untruncated(offset);
      Untruncated(row);
      Untruncated(columnWidth);
      var x := area.x + AsU16(offset);
      at := Rect(x, area.y + AsU16(row), Min(Right(area) - x, AsU16(columnWidth)), 1);
    }

    /** How many rows are drawn, in how many columns of what width. */
    method Arrange(area: Rect) returns (l: Layout)
      ensures l == LayoutOf(look, snapshot, area)
    {
      hide Widest, Entries, ColumnCount;
      var contentRows := Min(area.height, CONTENT_ROW_COUNT);
      var dataRows := if contentRows > SUMMARY_ROW_INDEX then SUMMARY_ROW_INDEX else contentRows;
      var full, codeOnly := CountryWidths();
      var rowMode, columnWidth := SummaryOnly, 0;
      if look.showFlags && full > 0 && area.width >= full {
        rowMode, columnWidth := FlagAndCode, full;
      } else if codeOnly > 0 && area.width >= codeOnly {
        rowMode, columnWidth := CodeAndCount, codeOnly;
      }
      NoWidthInSummary(Entries(look, snapshot));
      var columns := ColumnCount(area.width, columnWidth);
      var capacity := dataRows * columns;
      var unknownPresent := if snapshot.unknownCount > 0 then 1 else 0;
      var limit := if capacity > unknownPresent then capacity - unknownPresent else 0;
      var shown := if rowMode == SummaryOnly then 0 else Min(|snapshot.countryCounts|, limit);
      l := Layout(rowMode, columnWidth, columns, shown, if rowMode == SummaryOnly then 0 else unknownPresent);
    }

    /** Despite the narrowing casts and the skipping of rows that do not fit, exactly the planned rows are
        painted. */
    method RenderContent(area: Rect) returns (p: Painted)
      requires OnScreen(area)
      ensures p == Planned(look, snapshot, snapshotLoaded, area)
    {
      hide LayoutOf, Cells, CellAt, Slot, RowWidth, DataRows, ColumnCount;
      if area.width == 0 || area.height == 0 {
        return Nothing;
      }
      if !snapshotLoaded {
        return Unavailable;
      }
      if snapshot.totalPeers == 0 {
        return NoPeers(SummaryAt(area, 0, 0, 0));
      }
      var l := Arrange(area);
      var cells := PaintRows(area, l);
      LayoutBasics(look, snapshot, area);
      var known := |snapshot.countryCounts|;
      p := Grid(cells, SummaryAt(area, known, known - l.shown, snapshot.totalPeers));
    }

    method PaintRows(area: Rect, l: Layout) returns (cells: seq<Cell>)
      requires OnScreen(area) && Usable(area) && l == LayoutOf(look, snapshot, area)
      ensures l.columns > 0 && l.shown <= |snapshot.countryCounts| && cells == Cells(look, snapshot, area, l)
    {
      hide LayoutOf, RowWidth, ColumnCount, DataRows, Widest, Entries, Inside, KnownEntry;
      LayoutBasics(look, snapshot, area);
      cells := PaintKnown(area, l);
      if snapshot.unknownCount > 0 && l.mode != SummaryOnly {
        UnknownHasARow(look, snapshot, area);
        var at := RowRect(area, l.columnWidth, l.columns, l.shown);
        RowsFit(look, snapshot, area, l.shown);
        cells := PaintRow(cells, at, UnknownEntry(look, snapshot.unknownCount), l.mode);
      } else {
        UnknownHasARow(look, snapshot, area);
      }
    }

    method PaintKnown(area: Rect, l: Layout) returns (cells: seq<Cell>)
      requires OnScreen(area) && Usable(area) && l == LayoutOf(look, snapshot, area)
      requires l.columns > 0 && l.shown <= |snapshot.countryCounts|
      ensures cells == Cells(look, snapshot, area, l)[..l.shown]
    {
      hide LayoutOf, RowWidth, ColumnCount, DataRows;
      LayoutBasics(look, snapshot, area);
      cells := [];
      for index := 0 to l.shown
        invariant cells == Cells(look, snapshot, area, l)[..index]
      {
        var at := RowRect(area, l.columnWidth, l.columns, index);
        RowsFit(look, snapshot, area, index);
        cells := PaintRow(cells, at, KnownEntry(look, snapshot.countryCounts[index]), l.mode);
      }
    }
  }

  lemma RowIsNear(area: Rect, index: nat, columns: nat)
    requires columns > 0 && index < DataRows(area) * columns
    ensures index / columns < area.height && index / columns < SUMMARY_ROW_INDEX
  {
    RowOf(index, columns, DataRows(area));
  }

  lemma Untruncated(n: nat)
    requires n <= U16_MAX
    ensures AsU16(n) == n
  {
  }

  lemma PositiveColumns(areaWidth: nat, columnWidth: nat)
    ensures ColumnCount(areaWidth, columnWidth) > 0
  {
  }

  lemma {:induction false} NoWidthInSummary(es: seq<Entry>)
    ensures Widest(es, SummaryOnly) == 0
  {
    if es != [] {
      NoWidthInSummary(es[..|es| - 1]);
    }
  }
}
