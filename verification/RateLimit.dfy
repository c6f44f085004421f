/** The spacing rule of the notification rate limiter (src/notify.rs) and of the peer poll clock
    (src/collect/peer_geo.rs), as a function of the times at which something was asked for. */
module RateLimit {
  import opened Ordering

  /** Durations and clock readings are in nanoseconds. */
  const PEER_POLL_INTERVAL: nat := 60_000_000_000

  predicate Accepts(limit: nat, admitted: seq<nat>, now: nat) {
    limit == 0 || admitted == [] || now >= Last(admitted) + limit
  }

  /** The times admitted when each one asked for is taken as soon as the rule allows it. */
  function Admitted(limit: nat, times: seq<nat>): seq<nat> {
    if times == [] then []
    else
      var earlier := Admitted(limit, times[..|times| - 1]);
      if Accepts(limit, earlier, Last(times)) then earlier + [Last(times)] else earlier
  }

  /** Neighbours are at least `limit` apart. */
  ghost predicate Spaced(limit: nat, times: seq<nat>) {
    forall i | 0 < i < |times| :: times[i - 1] + limit <= times[i]
  }

  lemma {:induction false} AdmittedAreSpaced(limit: nat, times: seq<nat>)
    requires limit > 0
    ensures Spaced(limit, Admitted(limit, times))
  {
    if times != [] {
      AdmittedAreSpaced(limit, times[..|times| - 1]);
    }
  }

  lemma {:induction false} NoLimitAdmitsAll(times: seq<nat>)
    ensures Admitted(0, times) == times
  {
    if times != [] {
      NoLimitAdmitsAll(times[..|times| - 1]);
      assert times == times[..|times| - 1] + [Last(times)];
    }
  }

  lemma {:induction false} AdmittedShape(limit: nat, times: seq<nat>)
    ensures |Admitted(limit, times)| <= |times|
    ensures |Admitted(limit, times)| == |times| ==> Admitted(limit, times) == times
  {
    if times != [] {
      AdmittedShape(limit, times[..|times| - 1]);
      assert times == times[..|times| - 1] + [Last(times)];
    }
  }

  /** Nothing is turned away exactly when the times asked for are already the limit apart. */
  lemma AllAdmittedIfSpaced(limit: nat, times: seq<nat>)
    requires limit > 0
    ensures Admitted(limit, times) == times <==> Spaced(limit, times)
  {
    AdmittedAreSpaced(limit, times);
    if Spaced(limit, times) {
      SpacedIsAdmitted(limit, times);
    }
  }

  lemma {:induction false} SpacedIsAdmitted(limit: nat, times: seq<nat>)
    requires Spaced(limit, times)
    ensures Admitted(limit, times) == times
  {
    if times != [] {
      var rest := times[..|times| - 1];
      SpacedIsAdmitted(limit, rest);
      assert times == rest + [Last(times)];
    }
  }

  lemma {:induction false} SpacedSpread(limit: nat, times: seq<nat>, i: nat, j: nat)
    requires Spaced(limit, times) && i <= j < |times|
    ensures times[i] + limit * (j - i) <= times[j]
    decreases j
  {
    if i < j {
      SpacedSpread(limit, times, i, j - 1);
      assert times[j - 1] + limit <= times[j];
      assert limit * (j - i) == limit * (j - 1 - i) + limit;
    }
  }

  lemma Quotient(limit: nat, k: nat, width: nat)
    requires limit > 0 && limit * k <= width
    ensures k <= width / limit
  {
    var q := width / limit;
    assert width < limit * (q + 1);
    assert k >= q + 1 ==> limit * k >= limit * (q + 1);
  }

  /** Any stretch of admitted times that fits in a window of length `width` has at most
      `width / limit + 1` of them, however the clock readings came. */
  lemma WindowBound(limit: nat, times: seq<nat>, from: nat, till: nat, start: nat, width: nat)
    requires limit > 0
    requires from < till <= |Admitted(limit, times)|
    requires forall i | from <= i < till :: start <= Admitted(limit, times)[i] <= start + width
    ensures till - from <= width / limit + 1
  {
    var g := Admitted(limit, times);
    AdmittedAreSpaced(limit, times);
    SpacedSpread(limit, g, from, till - 1);
    assert limit * (till - 1 - from) <= width;
    Quotient(limit, till - 1 - from, width);
  }

  ghost predicate Subsequence(picked: seq<nat>, times: seq<nat>)
    decreases |times|
  {
    if times == [] then picked == []
    else
      var rest := times[..|times| - 1];
      Subsequence(picked, rest)
      || (picked != [] && Last(picked) == Last(times) && Subsequence(picked[..|picked| - 1], rest))
  }

  ghost predicate NeverBackwards(times: seq<nat>) {
    forall i | 0 < i < |times| :: times[i - 1] <= times[i]
  }

  lemma {:induction false} AdmittedComeFromTimes(limit: nat, times: seq<nat>)
    ensures Subsequence(Admitted(limit, times), times)
  {
    if times != [] {
      var rest := times[..|times| - 1];
      AdmittedComeFromTimes(limit, rest);
      var g := Admitted(limit, rest);
      assert (g + [Last(times)])[..|g|] == g;
    }
  }

  lemma {:induction false} PickedAreNotLater(picked: seq<nat>, times: seq<nat>)
    requires Subsequence(picked, times) && NeverBackwards(times) && picked != []
    ensures times != [] && Last(picked) <= Last(times)
    decreases |times|
  {
    var rest := times[..|times| - 1];
    if Subsequence(picked, rest) {
      PickedAreNotLater(picked, rest);
      assert rest[|rest| - 1] == times[|times| - 2];
    }
  }

  /** Greedy stays ahead: no spaced selection is longer, and one as long ends no earlier. */
  lemma {:induction false} GreedyStaysAhead(limit: nat, times: seq<nat>, picked: seq<nat>)
    requires limit > 0 && NeverBackwards(times)
    requires Subsequence(picked, times) && Spaced(limit, picked)
    ensures |picked| <= |Admitted(limit, times)|
    ensures |picked| == |Admitted(limit, times)| > 0 ==> Last(Admitted(limit, times)) <= Last(picked)
    decreases |times|
  {
    if times != [] {
      var rest, now := times[..|times| - 1], Last(times);
      var g := Admitted(limit, rest);
      AdmittedComeFromTimes(limit, rest);
      if g != [] {
        PickedAreNotLater(g, rest);
        assert Last(rest) == times[|times| - 2] <= now;
      }
      if Subsequence(picked, rest) {
        GreedyStaysAhead(limit, rest, picked);
      } else {
        var p := picked[..|picked| - 1];
        assert Spaced(limit, p);
        GreedyStaysAhead(limit, rest, p);
        if p != [] {
          assert picked[|p| - 1] + limit <= picked[|p|];
          assert Last(p) + limit <= now;
        }
      }
    }
  }

  /** For a clock that never runs backwards the rule admits as many as any selection with that spacing can. */
  lemma AdmittedIsOptimal(limit: nat, times: seq<nat>, picked: seq<nat>)
    requires limit > 0 && NeverBackwards(times)
    requires Subsequence(picked, times) && Spaced(limit, picked)
    ensures |picked| <= |Admitted(limit, times)|
  {
    GreedyStaysAhead(limit, times, picked);
  }

  // ------------------------------------------------------------ the poll clock

  /** `next_poll` after the given polls, starting from zero. */
  function NextPoll(times: seq<nat>): nat {
    if times == [] then 0
    else
      var next := NextPoll(times[..|times| - 1]);
      if Last(times) < next then next else Last(times) + PEER_POLL_INTERVAL
  }

  /** After the given earlier polls, one more is due exactly when the one-minute rule admits it, and the clock it
      leaves is again that of the whole history. */
  method PollDue(elapsed: nat, nextPoll: nat, ghost times: seq<nat>) returns (due: bool, next: nat)
    requires nextPoll == NextPoll(times)
    ensures due <==> Accepts(PEER_POLL_INTERVAL, Admitted(PEER_POLL_INTERVAL, times), elapsed)
    ensures next == NextPoll(times + [elapsed])
  {
    PollsAreAMinuteApart(times);
    assert (times + [elapsed])[..|times|] == times;
    if elapsed < nextPoll {
      return false, nextPoll;
    }
    return true, elapsed + PEER_POLL_INTERVAL;
  }

  /** The poll clock is the limiter with a one-minute limit: a poll is due exactly when it is admitted, so
      rounds start at least a minute apart. */
  lemma {:induction false} PollsAreAMinuteApart(times: seq<nat>)
    ensures NextPoll(times) == if Admitted(PEER_POLL_INTERVAL, times) == [] then 0
                               else Last(Admitted(PEER_POLL_INTERVAL, times)) + PEER_POLL_INTERVAL
    ensures forall now: nat ::
              now >= NextPoll(times) <==> Accepts(PEER_POLL_INTERVAL, Admitted(PEER_POLL_INTERVAL, times), now)
    ensures Spaced(60 * 1_000_000_000, Admitted(PEER_POLL_INTERVAL, times))
  {
    AdmittedAreSpaced(PEER_POLL_INTERVAL, times);
    if times != [] {
      PollsAreAMinuteApart(times[..|times| - 1]);
    }
  }
}
