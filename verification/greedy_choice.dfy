/**
 * Greedy choice over the indices 0, 1, 2, ...: index `i` is taken when the test accepts it together
 * with the indices taken before it.
 */
module GreedyChoice {

  type Test = (seq<nat>, nat) -> bool

  predicate InRange(picks: seq<nat>, n: nat) { forall k | 0 <= k < |picks| :: picks[k] < n }

  predicate Increasing(picks: seq<nat>) { forall k, l | 0 <= k < l < |picks| :: picks[k] < picks[l] }

  /** The loop: one decision for each index below `n`. */
  function GreedyPicks(t: Test, n: nat): (picks: seq<nat>)
    ensures InRange(picks, n) && |picks| <= n
  {
    if n == 0 then []
    else
      var before := GreedyPicks(t, n - 1);
      if t(before, n - 1) then before + [n - 1] else before
  }

  /** The leading elements that are below `i`. */
  function Below(picks: seq<nat>, i: nat): (below: seq<nat>)
    ensures InRange(below, i)
    ensures below <= picks
  {
    if picks == [] || picks[0] >= i then [] else [picks[0]] + Below(picks[1..], i)
  }

  /** Index `i` is decided against the indices taken before it. */
  predicate Decided(t: Test, picks: seq<nat>, i: nat) { i in picks <==> t(Below(picks, i), i) }

  /** The specification without the loop: an increasing sequence in which every index is decided. */
  predicate Greedy(t: Test, n: nat, picks: seq<nat>) {
    && Increasing(picks)
    && InRange(picks, n)
    && forall i: nat | i < n :: Decided(t, picks, i)
  }

  lemma {:induction false} BelowOfAppend(picks: seq<nat>, x: nat, i: nat)
    requires i <= x
    ensures Below(picks + [x], i) == Below(picks, i)
  {
    if picks != [] {
      assert (picks + [x])[1..] == picks[1..] + [x];
      BelowOfAppend(picks[1..], x, i);
    }
  }

  lemma {:induction false} BelowOfAll(picks: seq<nat>, i: nat)
    requires InRange(picks, i)
    ensures Below(picks, i) == picks
  {
    if picks != [] {
      BelowOfAll(picks[1..], i);
    }
  }

  lemma DecidedAfterAppend(t: Test, before: seq<nat>, x: nat, i: nat)
    requires i < x && Decided(t, before, i)
    ensures Decided(t, before + [x], i)
  {
    BelowOfAppend(before, x, i);
  }

  lemma {:induction false} PickDecided(t: Test, n: nat, i: nat)
    requires i < n
    ensures Decided(t, GreedyPicks(t, n), i)
  {
    var before := GreedyPicks(t, n - 1);
    if i < n - 1 {
      PickDecided(t, n - 1, i);
      DecidedAfterAppend(t, before, n - 1, i);
    } else {
      BelowOfAll(before, i);
      BelowOfAppend(before, i, i);
    }
  }

  lemma {:induction false} PicksIncrease(t: Test, n: nat)
    ensures Increasing(GreedyPicks(t, n))
  {
    if n > 0 {
      PicksIncrease(t, n - 1);
    }
  }

  /** Taking as many indices as there are means taking every one. */
  lemma {:induction false} AllPicked(t: Test, n: nat)
    requires |GreedyPicks(t, n)| == n
    ensures forall k | 0 <= k < n :: GreedyPicks(t, n)[k] == k
  {
    if n > 0 {
      AllPicked(t, n - 1);
    }
  }

  lemma PicksAreGreedy(t: Test, n: nat)
    ensures Greedy(t, n, GreedyPicks(t, n))
  {
    PicksIncrease(t, n);
    forall i: nat | i < n ensures Decided(t, GreedyPicks(t, n), i) {
      PickDecided(t, n, i);
    }
  }

  lemma {:induction false} BelowContents(picks: seq<nat>, i: nat, x: nat)
    requires Increasing(picks)
    ensures x in Below(picks, i) <==> x in picks && x < i
  {
    if picks != [] {
      if picks[0] < i {
        BelowContents(picks[1..], i, x);
      } else if x in picks {
        var k :| 0 <= k < |picks| && picks[k] == x;
        assert picks[0] <= x;
      }
    }
  }

  lemma {:induction false} BelowNext(picks: seq<nat>, i: nat)
    requires Increasing(picks)
    ensures Below(picks, i + 1) == if i in picks then Below(picks, i) + [i] else Below(picks, i)
  {
    if picks != [] {
      BelowNext(picks[1..], i);
      if picks[0] == i {
        assert forall k | 0 < k < |picks| :: picks[k] > i;
        assert Below(picks[1..], i + 1) == [];
      } else if picks[0] > i {
        assert i !in picks;
      } else {
        assert i in picks <==> i in picks[1..];
      }
    }
  }

  lemma {:induction false} GreedyPrefix(t: Test, n: nat, picks: seq<nat>, m: nat)
    requires Greedy(t, n, picks) && m <= n
    ensures Below(picks, m) == GreedyPicks(t, m)
  {
    if m > 0 {
      GreedyPrefix(t, n, picks, m - 1);
      BelowNext(picks, m - 1);
      assert Decided(t, picks, m - 1);
    } else {
      assert Below(picks, 0) == [];
    }
  }

  /** The loop computes the only sequence that meets the specification. */
  lemma GreedyIsExact(t: Test, n: nat, picks: seq<nat>)
    ensures Greedy(t, n, picks) <==> picks == GreedyPicks(t, n)
  {
    PicksAreGreedy(t, n);
    if Greedy(t, n, picks) {
      GreedyPrefix(t, n, picks, n);
      BelowOfAll(picks, n);
    }
  }
}
