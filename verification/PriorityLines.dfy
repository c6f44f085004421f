/** Choosing which lines of a panel to keep when there are more than fit (src/widgets/helpers.rs). */
module PriorityLines {
  import opened Ordering

  /** A line with its priority; smaller is more important. */
  type PriorityLine<L> = (nat, L)

  /** A line's position and priority. */
  type Rank = (nat, nat)

  predicate RankLt(a: Rank, b: Rank) {
    a.1 < b.1 || (a.1 == b.1 && a.0 < b.0)
  }

  function Ranks<L>(specs: seq<PriorityLine<L>>): seq<Rank> {
    seq(|specs|, i requires 0 <= i < |specs| => (i, specs[i].0))
  }

  function Positions(ranks: seq<Rank>): set<nat> {
    set r | r in ranks :: r.0
  }

  /** The positions of the first `rows` ranks in sorted order. */
  function Kept<L>(specs: seq<PriorityLine<L>>, rows: nat): set<nat> {
    Positions(StableSort(RankLt, Ranks(specs))[..Min(|specs|, rows)])
  }

  /** The lines at the kept positions, in their original order. */
  function LinesAt<L>(specs: seq<PriorityLine<L>>, keep: set<nat>): seq<L> {
    if specs == [] then []
    else
      var last := |specs| - 1;
      LinesAt(specs[..last], keep) + if last in keep then [specs[last].1] else []
  }

  method SelectPrioritizedLines<L>(specs: seq<PriorityLine<L>>, maxRows: nat) returns (lines: seq<L>)
    ensures lines == LinesAt(specs, Kept(specs, maxRows))
  {
    hide StableSort, RankLt;
    if maxRows == 0 {
      NothingKept(specs);
      return [];
    }
    if |specs| <= maxRows {
      AllKept(specs, maxRows);
      lines := [];
      for i := 0 to |specs|
        invariant lines == LinesAt(specs[..i], Kept(specs, maxRows))
      {
        assert specs[..i + 1][..i] == specs[..i];
        lines := lines + [specs[i].1];
      }
      assert specs[..|specs|] == specs;
      return;
    }
    var ranked := StableSort(RankLt, Ranks(specs));
    var keep := Positions(ranked[..maxRows]);
    lines := [];
    for i := 0 to |specs|
      invariant lines == LinesAt(specs[..i], keep)
    {
      assert specs[..i + 1][..i] == specs[..i];
      if i in keep {
        lines := lines + [specs[i].1];
      }
    }
    assert specs[..|specs|] == specs;
  }

  lemma {:induction false} NothingAt<L>(specs: seq<PriorityLine<L>>)
    ensures LinesAt(specs, {}) == []
  {
    if specs != [] {
      NothingAt(specs[..|specs| - 1]);
    }
  }

  lemma NothingKept<L>(specs: seq<PriorityLine<L>>)
    ensures LinesAt(specs, Kept(specs, 0)) == []
  {
    assert Kept(specs, 0) == {};
    NothingAt(specs);
  }

  lemma AllKept<L>(specs: seq<PriorityLine<L>>, rows: nat)
    requires |specs| <= rows
    ensures forall i: nat | i < |specs| :: i in Kept(specs, rows)
  {
    var ranks := Ranks(specs);
    var sorted := StableSort(RankLt, ranks);
    SortKeepsElems(RankLt, ranks);
    assert sorted[..|specs|] == sorted;
    forall i: nat | i < |specs| ensures i in Kept(specs, rows) {
      assert ranks[i] in Elems(ranks);
      assert ranks[i] in sorted;
    }
  }

  // ------------------------------------------------------------- properties

  lemma RankIsStrictTotal()
    ensures StrictTotal(RankLt)
  {
  }

  function RankAt<L>(specs: seq<PriorityLine<L>>, i: nat): Rank
    requires i < |specs|
  {
    (i, specs[i].0)
  }

  ghost function RanksAt<L>(specs: seq<PriorityLine<L>>, keep: set<nat>): set<Rank> {
    set i: nat | i < |specs| && i in keep :: RankAt(specs, i)
  }

  lemma RanksAscend<L>(specs: seq<PriorityLine<L>>)
    ensures Ascending(RankLt, StableSort(RankLt, Ranks(specs)))
    ensures Elems(StableSort(RankLt, Ranks(specs))) == Elems(Ranks(specs))
  {
    var ranks := Ranks(specs);
    RankIsStrictTotal();
    SortKeepsElems(RankLt, ranks);
    assert forall i, j | 0 <= i < j < |ranks| :: ranks[i] != ranks[j];
    DistinctSortAscends(RankLt, ranks);
  }

  lemma KeptRanks<L>(specs: seq<PriorityLine<L>>, some: seq<Rank>)
    requires Elems(some) <= Elems(Ranks(specs))
    ensures RanksAt(specs, Positions(some)) == Elems(some)
    ensures forall i | i in Positions(some) :: i < |specs|
  {
    var ranks := Ranks(specs);
    forall r: Rank | r in some ensures r.0 < |specs| && r == RankAt(specs, r.0) {
      assert r in Elems(some);
      assert r in Elems(ranks);
      var i :| 0 <= i < |ranks| && ranks[i] == r;
    }
    forall r: Rank | r in RanksAt(specs, Positions(some)) ensures r in some {
      var i: nat :| i < |specs| && i in Positions(some) && r == RankAt(specs, i);
      var q :| q in some && q.0 == i;
    }
    forall r: Rank | r in some ensures r in RanksAt(specs, Positions(some)) {
      assert r.0 in Positions(some);
    }
  }

  /** The kept lines are the `rows` best by (priority, position): no dropped line ranks before a kept one. */
  lemma KeptAreTheBest<L>(specs: seq<PriorityLine<L>>, rows: nat)
    ensures IsFirst(RankLt, RanksAt(specs, Kept(specs, rows)), Elems(Ranks(specs)), rows)
    ensures forall i | i in Kept(specs, rows) :: i < |specs|
    ensures |Kept(specs, rows)| == Min(|specs|, rows)
  {
    hide StableSort, RankLt, RanksAt, Positions;
    var sorted := StableSort(RankLt, Ranks(specs));
    var best := sorted[..Min(|specs|, rows)];
    RanksAscend(specs);
    assert Elems(best) <= Elems(sorted);
    KeptRanks(specs, best);
    PrefixIsFirst(RankLt, sorted, rows) by { RankIsStrictTotal(); }
    PositionsCount(best) by {
      AscendingHere(sorted, Min(|specs|, rows));
      SortedPositionsDiffer(specs);
    }
  }

  /** No line is dropped for a less important one, nor for an equally important later one. */
  lemma KeptBeforeDropped<L>(specs: seq<PriorityLine<L>>, rows: nat, kept: nat, dropped: nat)
    requires kept in Kept(specs, rows) && dropped < |specs| && dropped !in Kept(specs, rows)
    ensures kept < |specs|
    ensures specs[kept].0 < specs[dropped].0 || (specs[kept].0 == specs[dropped].0 && kept < dropped)
  {
    hide Kept;
    KeptAreTheBest(specs, rows);
    var ranks := Ranks(specs);
    assert RankAt(specs, kept) in RanksAt(specs, Kept(specs, rows));
    assert ranks[dropped] == RankAt(specs, dropped);
    assert RankAt(specs, dropped) in Elems(ranks);
  }

  lemma AscendingHere(sorted: seq<Rank>, n: nat)
    requires n <= |sorted|
    ensures forall i | 0 <= i < n :: sorted[..n][i] == sorted[i]
  {
  }

  lemma SortedPositionsDiffer<L>(specs: seq<PriorityLine<L>>)
    ensures var sorted := StableSort(RankLt, Ranks(specs));
            forall i, j | 0 <= i < j < |sorted| :: sorted[i].0 != sorted[j].0
  {
    var ranks, sorted := Ranks(specs), StableSort(RankLt, Ranks(specs));
    RanksAscend(specs);
    forall i, j | 0 <= i < j < |sorted| ensures sorted[i].0 != sorted[j].0 {
      assert RankLt(sorted[i], sorted[j]);
      assert sorted[i] in Elems(ranks) && sorted[j] in Elems(ranks);
    }
  }

  lemma {:induction false} PositionsCount(some: seq<Rank>)
    requires forall i, j | 0 <= i < j < |some| :: some[i].0 != some[j].0
    ensures |Positions(some)| == |some|
  {
    if some != [] {
      var last := |some| - 1;
      PositionsCount(some[..last]);
      assert some == some[..last] + [some[last]];
      assert some[last].0 !in Positions(some[..last]);
      assert Positions(some) == Positions(some[..last]) + {some[last].0};
    }
  }

  /** Any set of positions with those ranks is the one kept. */
  lemma BestAreUnique<L>(specs: seq<PriorityLine<L>>, rows: nat, keep: set<nat>)
    requires forall i | i in keep :: i < |specs|
    requires IsFirst(RankLt, RanksAt(specs, keep), Elems(Ranks(specs)), rows)
    ensures keep == Kept(specs, rows)
  {
    hide RankLt, Kept, IsFirst;
    var kept := Kept(specs, rows);
    KeptAreTheBest(specs, rows);
    var a, b := RanksAt(specs, keep), RanksAt(specs, kept);
    FirstNested(RankLt, a, b, Elems(Ranks(specs)), rows, rows) by { RankIsStrictTotal(); }
    SameRanks(specs, keep, kept);
    SameRanks(specs, kept, keep);
  }

  lemma SameRanks<L>(specs: seq<PriorityLine<L>>, a: set<nat>, b: set<nat>)
    requires forall i | i in a :: i < |specs|
    requires RanksAt(specs, a) <= RanksAt(specs, b)
    ensures a <= b
  {
    forall i | i in a ensures i in b {
      assert RankAt(specs, i) in RanksAt(specs, a);
    }
  }

  /** A taller panel keeps all a shorter one kept. */
  lemma TallerKeepsMore<L>(specs: seq<PriorityLine<L>>, rows: nat, more: nat)
    requires rows <= more
    ensures Kept(specs, rows) <= Kept(specs, more)
  {
    hide RankLt, Kept, IsFirst;
    KeptAreTheBest(specs, rows);
    KeptAreTheBest(specs, more);
    var a, b := RanksAt(specs, Kept(specs, rows)), RanksAt(specs, Kept(specs, more));
    FirstNested(RankLt, a, b, Elems(Ranks(specs)), rows, more) by { RankIsStrictTotal(); }
    SameRanks(specs, Kept(specs, rows), Kept(specs, more));
  }

  /** `at` lists, in increasing order, where each of `lines` stood. */
  ghost predicate PickedAt<L>(lines: seq<L>, specs: seq<PriorityLine<L>>, at: seq<nat>) {
    && |at| == |lines|
    && (forall k | 0 <= k < |at| :: at[k] < |specs| && specs[at[k]].1 == lines[k])
    && (forall j, k | 0 <= j < k < |at| :: at[j] < at[k])
  }

  lemma PickedFurther<L>(lines: seq<L>, specs: seq<PriorityLine<L>>, at: seq<nat>,
                         spec: PriorityLine<L>)
    requires PickedAt(lines, specs, at)
    ensures PickedAt(lines, specs + [spec], at)
    ensures PickedAt(lines + [spec.1], specs + [spec], at + [|specs|])
  {
    var all, longer := specs + [spec], at + [|specs|];
    assert all[|specs|] == spec;
    assert forall k | 0 <= k < |at| :: longer[k] == at[k] && all[at[k]] == specs[at[k]];
  }

  lemma {:induction false} LinesKeepTheirOrder<L>(specs: seq<PriorityLine<L>>, keep: set<nat>) returns (at: seq<nat>)
    ensures PickedAt(LinesAt(specs, keep), specs, at)
    ensures forall i: nat :: i in Elems(at) <==> i in keep && i < |specs|
    decreases |specs|
  {
    hide PickedAt;
    if specs == [] {
      at := [];
      assert PickedAt(LinesAt(specs, keep), specs, at) by { NothingPicked(specs); }
    } else {
      var last := |specs| - 1;
      var before := LinesKeepTheirOrder(specs[..last], keep);
      assert specs[..last] + [specs[last]] == specs;
      PickedFurther(LinesAt(specs[..last], keep), specs[..last], before, specs[last]);
      AddElem(before, last);
      at := if last in keep then before + [last] else before;
      assert LinesAt(specs[..last], keep) + [] == LinesAt(specs[..last], keep);
    }
  }

  lemma NothingPicked<L>(specs: seq<PriorityLine<L>>)
    ensures PickedAt([], specs, [])
  {
  }

  lemma PickedCount<L>(lines: seq<L>, specs: seq<PriorityLine<L>>, at: seq<nat>)
    requires PickedAt(lines, specs, at)
    ensures |lines| == |Elems(at)|
  {
    DistinctSize(at);
  }

  /** The chosen lines are min(n, rows) of the lines in their original order. */
  lemma SelectionIsASubsequence<L>(specs: seq<PriorityLine<L>>, rows: nat)
    ensures |LinesAt(specs, Kept(specs, rows))| == Min(|specs|, rows)
    ensures exists at: seq<nat> ::
              PickedAt(LinesAt(specs, Kept(specs, rows)), specs, at) && Elems(at) == Kept(specs, rows)
  {
    hide Kept, LinesAt, IsFirst, RankLt;
    KeptAreTheBest(specs, rows);
    var at := LinesKeepTheirOrder(specs, Kept(specs, rows));
    assert Elems(at) == Kept(specs, rows);
    PickedCount(LinesAt(specs, Kept(specs, rows)), specs, at);
  }
}
