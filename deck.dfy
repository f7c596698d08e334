/** The fixed deck of the story-point quiz and the estimation scale. */
module Deck {

  /** One story of the deck. Its prompt text and its four-part reasoning are
      presentation only and are not part of this model. */
  datatype Story = Story(id: nat, actualPoints: int)

  /** The values the estimate selector offers, in the order it offers them. */
  const Scale: seq<int> := [1, 2, 3, 5, 8, 13, 20]

  /** The ten stories, in play order. */
  const Stories: seq<Story> := [
    Story(1, 3), Story(2, 2), Story(3, 5), Story(4, 8), Story(5, 13),
    Story(6, 8), Story(7, 5), Story(8, 3), Story(9, 2), Story(10, 20)
  ]

  /** Every story is numbered by its 1-based position and is worth a value on the scale. */
  ghost predicate WellFormed(deck: seq<Story>)
  {
    forall i :: 0 <= i < |deck| ==> deck[i].id == i + 1 && deck[i].actualPoints in Scale
  }

  lemma DeckWellFormed()
    ensures |Stories| == 10
    ensures WellFormed(Stories)
  {
  }

  /** Every story is worth at least one point. */
  lemma StoryPointsPositive(i: nat)
    requires i < |Stories|
    ensures Stories[i].actualPoints >= 1
  {
    DeckWellFormed();
    assert Stories[i].actualPoints in Scale;
  }

  /** The points of each story, in deck order. */
  function Points(deck: seq<Story>): (p: seq<int>)
    ensures |p| == |deck|
    ensures forall i :: 0 <= i < |deck| ==> p[i] == deck[i].actualPoints
  {
    if deck == [] then [] else Points(deck[..|deck| - 1]) + [deck[|deck| - 1].actualPoints]
  }

  /** Left-to-right sum starting at 0, as an array reduce with `(sum, x) => sum + x` computes it. */
  function Sum(s: seq<int>): int
  {
    if s == [] then 0 else Sum(s[..|s| - 1]) + s[|s| - 1]
  }

  /** Each value on the scale lies between 1 and 20, so a sum of n of them lies between n and 20 n. */
  lemma {:induction false} SumWithinScale(s: seq<int>)
    requires forall i :: 0 <= i < |s| ==> s[i] in Scale
    ensures |s| <= Sum(s) <= 20 * |s|
  {
    if s != [] {
      SumWithinScale(s[..|s| - 1]);
    }
  }
}
