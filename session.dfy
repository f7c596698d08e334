/** The quiz's game state and the handlers that change it. */
module Game {
  import opened Deck
  import opened Totals

  datatype Option<T> = None | Some(value: T)

  /** What the quiz shows: the estimate selector, the revealed answer, or the final summary. */
  datatype Phase = Estimating | Revealed | Completed

  /** The prompt shown when Submit is pressed with nothing selected. */
  const SelectPrompt: string := "Please select an estimate!"

  /** The component's state hooks. The selector's value is an optional scale value:
      the empty string stands for None, and its integer parse for Some. */
  class Session {
    var currentStoryIndex: nat
    var selectedEstimate: Option<int>
    var hasSubmitted: bool
    var userEstimates: seq<int>
    var gameCompleted: bool
    var showFeedback: bool
    var isCorrect: bool
    var message: string

    /** The states the handlers can reach from the initial one. */
    ghost predicate Valid()
      reads this
    {
      && currentStoryIndex < |Stories|
      // one estimate per story played, the current one included once it is submitted
      && |userEstimates| == currentStoryIndex + (if hasSubmitted then 1 else 0)
      && (forall i :: 0 <= i < |userEstimates| ==> userEstimates[i] in Scale)
      && (selectedEstimate.Some? ==> selectedEstimate.value in Scale)
      // once submitted, the selection is the last estimate and isCorrect judges it
      && (hasSubmitted ==>
            && selectedEstimate == Some(userEstimates[currentStoryIndex])
            && isCorrect == (userEstimates[currentStoryIndex] == Stories[currentStoryIndex].actualPoints))
      && (gameCompleted ==> hasSubmitted && currentStoryIndex == |Stories| - 1)
      // the verdict overlay is only ever up after a submit
      && (showFeedback ==> hasSubmitted)
    }

    /** Which of the three views the page renders. */
    function CurrentPhase(): Phase
      reads this
    {
      if gameCompleted then Completed else if hasSubmitted then Revealed else Estimating
    }

    /** The initial values of the state hooks, other than isCorrect. */
    ghost predicate AtStart()
      reads this
    {
      && currentStoryIndex == 0
      && selectedEstimate == None
      && !hasSubmitted
      && userEstimates == []
      && !gameCompleted
      && !showFeedback
      && message == ""
    }

    constructor ()
      ensures Valid() && AtStart() && !isCorrect
      ensures CurrentPhase() == Estimating
    {
      currentStoryIndex := 0;
      selectedEstimate := None;
      hasSubmitted := false;
      userEstimates := [];
      gameCompleted := false;
      showFeedback := false;
      isCorrect := false;
      message := "";
    }

    /** The story on screen. */
    function CurrentStory(): (s: Story)
      reads this
      requires Valid()
      ensures s.id == currentStoryIndex + 1
      ensures s.actualPoints in Scale
    {
      DeckWellFormed();
      Stories[currentStoryIndex]
    }

    /** The selector's change handler; it is on screen only while estimating. */
    method SelectEstimate(v: int)
      requires Valid() && CurrentPhase() == Estimating
      requires v in Scale
      modifies this
      ensures Valid() && CurrentPhase() == Estimating
      ensures selectedEstimate == Some(v)
      ensures currentStoryIndex == old(currentStoryIndex) && userEstimates == old(userEstimates)
      ensures hasSubmitted == old(hasSubmitted) && gameCompleted == old(gameCompleted)
      ensures showFeedback == old(showFeedback) && isCorrect == old(isCorrect) && message == old(message)
    {
      selectedEstimate := Some(v);
    }

    /** The Submit button's handler; the button is on screen only while estimating. */
    method SubmitEstimate()
      requires Valid() && CurrentPhase() == Estimating
      modifies this
      ensures Valid()
      // nothing selected: only the prompt is set
      ensures old(selectedEstimate) == None ==>
        && message == SelectPrompt
        && CurrentPhase() == Estimating
        && currentStoryIndex == old(currentStoryIndex) && selectedEstimate == None
        && userEstimates == old(userEstimates) && !hasSubmitted && gameCompleted == old(gameCompleted)
        && showFeedback == old(showFeedback) && isCorrect == old(isCorrect)
      // a selection: it is recorded once, judged against the current story, and revealed
      ensures old(selectedEstimate).Some? ==>
        && userEstimates == old(userEstimates) + [old(selectedEstimate).value]
        && TotalEstimated(userEstimates) == TotalEstimated(old(userEstimates)) + old(selectedEstimate).value
        && isCorrect == (old(selectedEstimate).value == Stories[old(currentStoryIndex)].actualPoints)
        && hasSubmitted && showFeedback
        && CurrentPhase() == Revealed
        && currentStoryIndex == old(currentStoryIndex) && selectedEstimate == old(selectedEstimate)
        && gameCompleted == old(gameCompleted) && message == old(message)
    {
      if selectedEstimate == None {
        message := SelectPrompt;
        return;
      }
      var estimate := selectedEstimate.value;
      var currentStory := Stories[currentStoryIndex];
      var correct := estimate == currentStory.actualPoints;
      isCorrect := correct;
      hasSubmitted := true;
      showFeedback := true;
      userEstimates := userEstimates + [estimate];
      SumAppend(old(userEstimates), estimate);
    }

    /** The Next Story / Finish Game button's handler; it is on screen only once the answer is revealed. */
    method NextStory()
      requires Valid() && CurrentPhase() == Revealed
      modifies this
      ensures Valid()
      ensures old(currentStoryIndex) < |Stories| - 1 ==>
        && currentStoryIndex == old(currentStoryIndex) + 1
        && selectedEstimate == None && !hasSubmitted && !showFeedback
        && !gameCompleted && CurrentPhase() == Estimating
        && isCorrect == old(isCorrect)
      ensures old(currentStoryIndex) == |Stories| - 1 ==>
        && gameCompleted && CurrentPhase() == Completed
        && currentStoryIndex == old(currentStoryIndex)
        && selectedEstimate == old(selectedEstimate) && hasSubmitted
        && showFeedback == old(showFeedback) && isCorrect == old(isCorrect)
      ensures userEstimates == old(userEstimates) && message == old(message)
    {
      if currentStoryIndex < |Stories| - 1 {
        currentStoryIndex := currentStoryIndex + 1;
        selectedEstimate := None;
        hasSubmitted := false;
        showFeedback := false;
      } else {
        gameCompleted := true;
      }
    }

    /** The Start New Game button's handler. It leaves isCorrect as it was. */
    method ResetGame()
      modifies this
      ensures Valid() && AtStart() && CurrentPhase() == Estimating
      ensures isCorrect == old(isCorrect)
    {
      currentStoryIndex := 0;
      selectedEstimate := None;
      hasSubmitted := false;
      userEstimates := [];
      gameCompleted := false;
      showFeedback := false;
      message := "";
    }

    /** The effect of the timer a failed submit starts: the prompt disappears. */
    method ClearMessage()
      requires Valid()
      modifies this
      ensures Valid() && message == ""
      ensures currentStoryIndex == old(currentStoryIndex) && selectedEstimate == old(selectedEstimate)
      ensures hasSubmitted == old(hasSubmitted) && userEstimates == old(userEstimates)
      ensures gameCompleted == old(gameCompleted) && showFeedback == old(showFeedback) && isCorrect == old(isCorrect)
    {
      message := "";
    }

    /** The effect of the timer a successful submit starts: the verdict overlay disappears. */
    method HideFeedback()
      requires Valid()
      modifies this
      ensures Valid() && !showFeedback
      ensures currentStoryIndex == old(currentStoryIndex) && selectedEstimate == old(selectedEstimate)
      ensures hasSubmitted == old(hasSubmitted) && userEstimates == old(userEstimates)
      ensures gameCompleted == old(gameCompleted) && isCorrect == old(isCorrect) && message == old(message)
    {
      showFeedback := false;
    }
  }

  /** In every reachable state the history fits the deck and its running totals stay in range. */
  lemma ProgressBounds(s: Session)
    requires s.Valid()
    ensures |s.userEstimates| <= |Stories|
    ensures |s.userEstimates| <= TotalEstimated(s.userEstimates) <= 20 * |s.userEstimates|
    ensures TotalActual(|s.userEstimates|) <= 69
  {
    SumWithinScale(s.userEstimates);
    TotalActualBounded(|s.userEstimates|);
    DeckTotal();
  }

  /** Whenever the verdict overlay is up, isCorrect judges the estimate just submitted for the story on screen. */
  lemma FeedbackShowsCurrentVerdict(s: Session)
    requires s.Valid() && s.showFeedback
    ensures |s.userEstimates| == s.currentStoryIndex + 1
    ensures s.isCorrect == (s.userEstimates[s.currentStoryIndex] == Stories[s.currentStoryIndex].actualPoints)
  {
  }

  /** On the summary screen one estimate was recorded per story and the running actual total is the deck's. */
  lemma CompletedSummary(s: Session)
    requires s.Valid() && s.CurrentPhase() == Completed
    ensures |s.userEstimates| == |Stories|
    ensures TotalActual(|s.userEstimates|) == FinalTotalActual() == 69
  {
    DeckTotal();
  }

  /** A player who picks every story's own points ends on the summary with a total of 69 and no difference. */
  method PerfectPlaythrough() returns (s: Session)
    ensures fresh(s) && s.Valid() && s.CurrentPhase() == Completed
    ensures TotalEstimated(s.userEstimates) == 69 && Difference(s.userEstimates) == 0
  {
    DeckWellFormed();
    s := new Session();
    while !s.gameCompleted
      invariant s.Valid() && (s.CurrentPhase() == Estimating || s.CurrentPhase() == Completed)
      invariant forall i :: 0 <= i < |s.userEstimates| ==> s.userEstimates[i] == Stories[i].actualPoints
      invariant s.gameCompleted ==> |s.userEstimates| == |Stories|
      decreases |Stories| - |s.userEstimates|
    {
      s.SelectEstimate(Stories[s.currentStoryIndex].actualPoints);
      s.SubmitEstimate();
      assert s.isCorrect;
      s.NextStory();
    }
    PerfectGame(s.userEstimates);
  }

  /** A first-story estimate of 3 is correct and Next moves to the second story. */
  method CorrectFirstEstimate()
  {
    var s := new Session();
    s.SelectEstimate(3);
    s.SubmitEstimate();
    assert s.isCorrect && s.userEstimates == [3];
    s.NextStory();
    assert s.currentStoryIndex == 1 && s.CurrentPhase() == Estimating;
  }

  /** A first-story estimate of 1 is wrong, and it is still recorded. */
  method WrongFirstEstimate()
  {
    var s := new Session();
    s.SubmitEstimate();
    assert s.message == SelectPrompt && s.userEstimates == [];
    s.SelectEstimate(1);
    s.SubmitEstimate();
    assert !s.isCorrect && s.userEstimates == [1];
  }

  /** Starting a new game after the summary returns to the first story with no history. */
  method ResetAfterCompletion()
  {
    var s := PerfectPlaythrough();
    s.ResetGame();
    assert s.currentStoryIndex == 0 && s.userEstimates == [] && s.CurrentPhase() == Estimating;
  }
}
