/** The totals the quiz derives from a session's history of estimates. */
module Totals {
  import opened Deck

  /** `totalEstimated`: the sum of the estimates submitted so far. */
  function TotalEstimated(estimates: seq<int>): int
  {
    Sum(estimates)
  }

  /** The number of stories a slice `[0, count)` keeps: a slice past the end stops at the end. */
  function SliceEnd(count: nat): (k: nat)
    ensures k <= |Stories|
    ensures k == count || (count > |Stories| && k == |Stories|)
  {
    if count <= |Stories| then count else |Stories|
  }

  /** `totalActual`: the points of the first `count` stories, added up. */
  function TotalActual(count: nat): int
  {
    Sum(Points(Stories[..SliceEnd(count)]))
  }

  /** `finalTotalActual`: the points of the whole deck, added up. */
  function FinalTotalActual(): int
  {
    Sum(Points(Stories))
  }

  /** `difference`: how far the estimated total is from the deck's total, in either direction. */
  function Difference(estimates: seq<int>): (d: int)
    ensures d >= 0
    ensures TotalEstimated(estimates) == FinalTotalActual() + d
         || TotalEstimated(estimates) == FinalTotalActual() - d
  {
    var delta := TotalEstimated(estimates) - FinalTotalActual();
    if delta < 0 then -delta else delta
  }

  /** Appending one value adds it to the sum. */
  lemma SumAppend(s: seq<int>, x: int)
    ensures Sum(s + [x]) == Sum(s) + x
  {
    assert (s + [x])[..|s|] == s;
  }

  /** The deck is worth 69 points, and the running total over all ten stories is that same figure. */
  lemma DeckTotal()
    ensures FinalTotalActual() == 69
    ensures TotalActual(|Stories|) == FinalTotalActual()
  {
    assert Stories[..|Stories|] == Stories;
    var p := Points(Stories);
    assert p == [3, 2, 5, 8, 13, 8, 5, 3, 2, 20];
    assert Sum(p[..0]) == 0;
    for k := 0 to 10
      invariant Sum(p[..k]) == [0, 3, 5, 10, 18, 31, 39, 44, 47, 49, 69][k]
    {
      SumAppend(p[..k], p[k]);
      assert p[..k + 1] == p[..k] + [p[k]];
    }
    assert p[..10] == p;
  }

  /** Going one story further adds exactly that story's points to the running total. */
  lemma TotalActualStep(n: nat)
    requires n < |Stories|
    ensures TotalActual(n + 1) == TotalActual(n) + Stories[n].actualPoints
  {
    assert Stories[..n + 1][..n] == Stories[..n];
  }

  /** The running total never decreases as more stories are counted. */
  lemma {:induction false} TotalActualMonotone(n: nat, m: nat)
    requires n <= m
    ensures TotalActual(n) <= TotalActual(m)
    decreases m
  {
    var k := SliceEnd(m);
    if SliceEnd(n) < k {
      TotalActualMonotone(n, k - 1);
      TotalActualStep(k - 1);
      StoryPointsPositive(k - 1);
      assert TotalActual(m) == TotalActual(k);
    }
  }

  /** The running total never exceeds the deck's total. */
  lemma TotalActualBounded(n: nat)
    ensures TotalActual(n) <= FinalTotalActual()
  {
    TotalActualMonotone(n, n + |Stories|);
    assert Stories[..|Stories|] == Stories;
  }

  /** When each of the first n estimates equals its story's points, the two running totals agree. */
  lemma RunningTotalsAgree(estimates: seq<int>)
    requires |estimates| <= |Stories|
    requires forall i :: 0 <= i < |estimates| ==> estimates[i] == Stories[i].actualPoints
    ensures TotalEstimated(estimates) == TotalActual(|estimates|)
  {
    assert estimates == Points(Stories[..|estimates|]);
  }

  /** A game in which every estimate was exact totals 69 and has no difference. */
  lemma PerfectGame(estimates: seq<int>)
    requires |estimates| == |Stories|
    requires forall i :: 0 <= i < |estimates| ==> estimates[i] == Stories[i].actualPoints
    ensures TotalEstimated(estimates) == 69
    ensures Difference(estimates) == 0
  {
    RunningTotalsAgree(estimates);
    DeckTotal();
  }

  /** A full game of estimates on the scale totals between 10 and 200, so it is off by at most 131. */
  lemma DifferenceBound(estimates: seq<int>)
    requires |estimates| == |Stories|
    requires forall i :: 0 <= i < |estimates| ==> estimates[i] in Scale
    ensures 10 <= TotalEstimated(estimates) <= 200
    ensures Difference(estimates) <= 131
  {
    SumWithinScale(estimates);
    DeckTotal();
  }
}
