/** The changes in a stream of readings, as the program reports them: connection states, rankings, disk alerts. */
module Streams {
  import opened Ordering

  /** Each element equal to its predecessor is dropped. */
  function Compressed<T(==)>(xs: seq<T>): seq<T> {
    if |xs| <= 1 then xs
    else
      var shorter := Compressed(xs[..|xs| - 1]);
      if Last(xs) == xs[|xs| - 2] then shorter else shorter + [Last(xs)]
  }

  function WithoutLeading<T(==)>(quiet: T, xs: seq<T>): seq<T> {
    if xs != [] && xs[0] == quiet then WithoutLeading(quiet, xs[1..]) else xs
  }

  /** Leading `quiet` readings dropped, repeats collapsed. */
  function Edges<T(==)>(quiet: T, xs: seq<T>): seq<T> {
    Compressed(WithoutLeading(quiet, xs))
  }

  lemma {:induction false} CompressedShape<T>(xs: seq<T>)
    ensures xs == [] <==> Compressed(xs) == []
    ensures xs != [] ==> Compressed(xs)[0] == xs[0] && Last(Compressed(xs)) == Last(xs)
    ensures forall i | 0 < i < |Compressed(xs)| :: Compressed(xs)[i - 1] != Compressed(xs)[i]
  {
    if |xs| > 1 {
      CompressedShape(xs[..|xs| - 1]);
    }
  }

  lemma CompressedStep<T>(xs: seq<T>, x: T)
    ensures Compressed(xs + [x]) == if xs != [] && Last(xs) == x then Compressed(xs) else Compressed(xs) + [x]
  {
    var all := xs + [x];
    assert all[..|xs|] == xs && Last(all) == x;
    if xs != [] {
      assert all[|all| - 2] == Last(xs);
    }
  }

  lemma {:induction false} LeadingShape<T>(quiet: T, xs: seq<T>)
    ensures var rest := WithoutLeading(quiet, xs);
            if rest == [] then LastOr(xs, quiet) == quiet
            else xs != [] && Last(rest) == Last(xs) && rest[0] != quiet
  {
    if xs != [] && xs[0] == quiet {
      LeadingShape(quiet, xs[1..]);
    }
  }

  lemma {:induction false} LeadingStep<T>(quiet: T, xs: seq<T>, x: T)
    ensures var rest := WithoutLeading(quiet, xs);
            WithoutLeading(quiet, xs + [x]) == if rest == [] && x == quiet then [] else rest + [x]
    decreases |xs|
  {
    var all := xs + [x];
    if xs == [] {
      assert all[1..] == [];
    } else if xs[0] == quiet {
      LeadingStep(quiet, xs[1..], x);
      assert all[1..] == xs[1..] + [x];
    }
  }

  lemma NoEdges<T>(quiet: T)
    ensures Edges(quiet, []) == []
  {
  }

  /** A reading is an edge exactly when it differs from the one before it, or from `quiet` if it is the first. */
  lemma EdgeStep<T>(quiet: T, xs: seq<T>, x: T)
    ensures Edges(quiet, xs + [x]) == Edges(quiet, xs) + if x != LastOr(xs, quiet) then [x] else []
  {
    hide Compressed, WithoutLeading;
    var rest := WithoutLeading(quiet, xs);
    LeadingShape(quiet, xs);
    LeadingStep(quiet, xs, x);
    CompressedShape(rest);
    CompressedStep(rest, x);
    assert Compressed(rest) + [] == Compressed(rest);
  }

  /** Read from the front, the first reading is the level the rest is compared with. */
  lemma {:induction false} EdgesFront<T>(quiet: T, x: T, xs: seq<T>)
    ensures Edges(quiet, [x] + xs) == (if x != quiet then [x] else []) + Edges(x, xs)
  {
    hide Edges;
    if xs == [] {
      NoEdges(quiet);
      NoEdges(x);
      EdgeStep(quiet, [], x);
      assert [] + [x] == [x] == [x] + xs;
    } else {
      var rest, z := xs[..|xs| - 1], Last(xs);
      EdgesFront(quiet, x, rest);
      EdgeStep(quiet, [x] + rest, z);
      EdgeStep(x, rest, z);
      assert rest + [z] == xs && ([x] + rest) + [z] == [x] + xs;
    }
  }

  /** Neighbouring edges differ, the first is not `quiet`, and the last one is the present reading. */
  lemma EdgesShape<T>(quiet: T, xs: seq<T>)
    ensures var edges := Edges(quiet, xs);
            && (edges != [] ==> edges[0] != quiet)
            && (forall i | 0 < i < |edges| :: edges[i - 1] != edges[i])
            && LastOr(edges, quiet) == LastOr(xs, quiet)
  {
    hide Compressed, WithoutLeading;
    LeadingShape(quiet, xs);
    CompressedShape(WithoutLeading(quiet, xs));
  }

  /** With two possible values, neighbours that differ alternate. */
  lemma {:induction false} Alternates<T>(first: T, second: T, xs: seq<T>)
    requires forall i | 0 <= i < |xs| :: xs[i] == first || xs[i] == second
    requires xs != [] ==> xs[0] == first && first != second
    requires forall i | 0 < i < |xs| :: xs[i - 1] != xs[i]
    ensures forall i | 0 <= i < |xs| :: xs[i] == if i % 2 == 0 then first else second
  {
    var n := |xs| - 1;
    if n > 0 {
      Alternates(first, second, xs[..n]);
      assert xs[n - 1] == xs[..n][n - 1];
      assert xs[n - 1] != xs[n];
      forall i | 0 <= i < |xs| ensures xs[i] == if i % 2 == 0 then first else second {
        assert i < n ==> xs[i] == xs[..n][i];
      }
    }
  }
}
