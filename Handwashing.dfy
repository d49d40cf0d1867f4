/**
  The handwashing quiz (src/components/HandwashingGame.jsx): the twelve steps of
  hand washing in order; each round offers four boxes, one holding the current
  step and three holding other steps, and a correct pick moves on one second later.
 */
module Handwashing {
  const Steps: seq<string> := [
    "Wet hands with water",
    "Apply enough soap to cover all hand surfaces",
    "Rub hands palm to palm",
    "Right palm over left dorsum with interlaced fingers and vice versa",
    "Palm to palm with fingers interlaced",
    "Backs of fingers to opposing palms with fingers interlocked",
    "Rotational rubbing of left thumb clasped in right palm and vice versa",
    "Rotational rubbing, backwards and forwards with clasped fingers of right hand in left palm and vice versa",
    "Rinse hands with water",
    "Dry hands thoroughly with a single use towel",
    "Use towel to turn off faucet",
    "Your hands are now safe"
  ]
  const LastStep: nat := 11
  const ChoiceCount: nat := 4

  predicate Distinct<T(==)>(s: seq<T>) {
    forall i, j :: 0 <= i < j < |s| ==> s[i] != s[j]
  }

  lemma StepsDistinct()
    ensures |Steps| == LastStep + 1 && Distinct(Steps)
  {
    assert Steps[2][1] == 'u' && Steps[8][1] == 'i';
    assert Steps[1][0] == "Apply enough soap to cover all hand surfaces"[0];
    assert Steps[9][0] == "Dry hands thoroughly with a single use towel"[0];
  }

  /** `steps.filter((_, index) => index !== stepIndex)`. */
  function OtherSteps(stepIndex: nat): (others: seq<string>)
    requires stepIndex < |Steps|
    ensures |others| == |Steps| - 1
    ensures forall k :: 0 <= k < |others| ==> others[k] == if k < stepIndex then Steps[k] else Steps[k + 1]
  {
    Steps[..stepIndex] + Steps[stepIndex + 1..]
  }

  /** The other steps are distinct and never contain the current step's text. */
  lemma OtherStepsFacts(stepIndex: nat)
    requires stepIndex < |Steps|
    ensures Distinct(OtherSteps(stepIndex)) && Steps[stepIndex] !in OtherSteps(stepIndex)
    ensures forall x :: x in OtherSteps(stepIndex) <==> x in Steps && x != Steps[stepIndex]
  {
    StepsDistinct();
    var others := OtherSteps(stepIndex);
    forall x | x in Steps && x != Steps[stepIndex]
      ensures x in others
    {
      var k :| 0 <= k < |Steps| && Steps[k] == x;
      if k < stepIndex {
        assert others[k] == x;
      } else {
        assert others[k - 1] == x;
      }
    }
  }

  lemma {:induction false} CountsOfDistinct<T>(s: seq<T>)
    requires Distinct(s)
    ensures forall x :: multiset(s)[x] <= 1
  {
    if s != [] {
      assert s == [s[0]] + s[1..];
      assert Distinct(s[1..]) by {
        forall i, j | 0 <= i < j < |s[1..]|
          ensures s[1..][i] != s[1..][j]
        {
          assert s[1..][i] == s[i + 1] && s[1..][j] == s[j + 1];
        }
      }
      CountsOfDistinct(s[1..]);
      assert s[0] !in s[1..];
    }
  }

  lemma {:induction false} DistinctOfCounts<T>(s: seq<T>)
    requires forall x :: multiset(s)[x] <= 1
    ensures Distinct(s)
  {
    if s != [] {
      assert s == [s[0]] + s[1..];
      assert multiset(s) == multiset{s[0]} + multiset(s[1..]);
      forall x
        ensures multiset(s[1..])[x] <= 1
      {
        assert multiset(s[1..])[x] <= multiset(s)[x];
      }
      DistinctOfCounts(s[1..]);
      assert multiset(s)[s[0]] == 1 + multiset(s[1..])[s[0]];
      assert s[0] !in multiset(s[1..]);
      forall j | 0 < j < |s|
        ensures s[0] != s[j]
      {
        assert s[j] == s[1..][j - 1];
      }
    }
  }

  /**
    The shuffles of `generateChoices`, whose randomness the model takes as
    parameters: `shuffledOthers` is an ordering of the other steps, and
    `shuffled` an ordering of the current step followed by its first three.
   */
  predicate IsShuffle(stepIndex: nat, shuffledOthers: seq<string>, shuffled: seq<string>)
    requires stepIndex < |Steps|
  {
    && |shuffledOthers| == |Steps| - 1
    && multiset(shuffledOthers) == multiset(OtherSteps(stepIndex))
    && multiset(shuffled) == multiset([Steps[stepIndex]] + shuffledOthers[..3])
  }

  /** Every step has shuffles: leaving both orders unchanged is one. */
  lemma ShufflesExist(stepIndex: nat)
    requires stepIndex < |Steps|
    ensures IsShuffle(stepIndex, OtherSteps(stepIndex), [Steps[stepIndex]] + OtherSteps(stepIndex)[..3])
  {
  }

  /** Shuffling a correct answer in with three of a shuffle of distinct wrong answers leaves four distinct answers. */
  lemma PickFacts<T>(correct: T, others: seq<T>, shuffledOthers: seq<T>, shuffled: seq<T>)
    requires Distinct(others) && correct !in others && |shuffledOthers| >= 3
    requires multiset(shuffledOthers) == multiset(others)
    requires multiset(shuffled) == multiset([correct] + shuffledOthers[..3])
    ensures |shuffled| == ChoiceCount && Distinct(shuffled) && correct in shuffled
    ensures forall x :: x in shuffled ==> x == correct || x in others
  {
    var wrong := shuffledOthers[..3];
    CountsOfDistinct(others);
    assert shuffledOthers == wrong + shuffledOthers[3..];
    assert multiset(shuffledOthers) == multiset(wrong) + multiset(shuffledOthers[3..]);
    assert multiset(shuffled) == multiset{correct} + multiset(wrong);
    forall x
      ensures multiset(shuffled)[x] <= 1
    {
      assert multiset(wrong)[x] <= multiset(others)[x];
      if x == correct {
        assert multiset(others)[x] == 0;
      }
    }
    DistinctOfCounts(shuffled);
    assert correct in multiset(shuffled);
    forall x | x in shuffled
      ensures x == correct || x in others
    {
      assert x in multiset(shuffled);
      if x != correct {
        assert x in multiset(wrong);
        assert x in multiset(others);
      }
    }
  }

  lemma ShuffleFacts(stepIndex: nat, shuffledOthers: seq<string>, shuffled: seq<string>)
    requires stepIndex < |Steps| && IsShuffle(stepIndex, shuffledOthers, shuffled)
    ensures |shuffled| == ChoiceCount && Distinct(shuffled) && Steps[stepIndex] in shuffled
    ensures forall x :: x in shuffled ==> x == Steps[stepIndex] || x in OtherSteps(stepIndex)
  {
    OtherStepsFacts(stepIndex);
    PickFacts(Steps[stepIndex], OtherSteps(stepIndex), shuffledOthers, shuffled);
  }

  /** `shuffled.map(...)`: each answer with its position and whether it is `correct`. */
  function Label(answers: seq<string>, correct: string): (choices: seq<Choice>)
    ensures |choices| == |answers|
    ensures forall k :: 0 <= k < |choices| ==>
              choices[k] == Choice(answers[k], answers[k] == correct, k)
  {
    seq(|answers|, k requires 0 <= k < |answers| => Choice(answers[k], answers[k] == correct, k))
  }

  /** Labelling distinct answers that include the correct one marks exactly one of them. */
  lemma LabelFacts(answers: seq<string>, correct: string)
    requires Distinct(answers) && correct in answers
    ensures exists k :: 0 <= k < |answers| && Label(answers, correct)[k].isCorrect
    ensures forall k, l ::
              (0 <= k < |answers| && 0 <= l < |answers| &&
               Label(answers, correct)[k].isCorrect && Label(answers, correct)[l].isCorrect) ==> k == l
  {
    var k :| 0 <= k < |answers| && answers[k] == correct;
    assert Label(answers, correct)[k].isCorrect;
  }

  datatype Choice = Choice(text: string, isCorrect: bool, index: nat)

  /** The four boxes of a round for step `stepIndex`, as the quiz promises them. */
  predicate WellFormedChoices(choices: seq<Choice>, stepIndex: nat)
    requires stepIndex < |Steps|
  {
    && |choices| == ChoiceCount
    && (forall k :: 0 <= k < |choices| ==>
          choices[k].index == k && (choices[k].isCorrect <==> choices[k].text == Steps[stepIndex]))
    && (exists k :: 0 <= k < |choices| && choices[k].isCorrect)
    && (forall k, l :: 0 <= k < |choices| && 0 <= l < |choices| && choices[k].isCorrect && choices[l].isCorrect ==> k == l)
    && (forall k :: 0 <= k < |choices| && !choices[k].isCorrect ==> choices[k].text in OtherSteps(stepIndex))
    && (forall k, l :: 0 <= k < l < |choices| ==> choices[k].text != choices[l].text)
  }

  /** `generateChoices`: the shuffled answers, each marked with its position and whether it is the current step. */
  function GenerateChoices(stepIndex: nat, shuffledOthers: seq<string>, shuffled: seq<string>): (choices: seq<Choice>)
    requires stepIndex < |Steps| && IsShuffle(stepIndex, shuffledOthers, shuffled)
    ensures WellFormedChoices(choices, stepIndex)
  {
    ShuffleFacts(stepIndex, shuffledOthers, shuffled);
    LabelFacts(shuffled, Steps[stepIndex]);
    Label(shuffled, Steps[stepIndex])
  }

  /** The width of the progress bar, in percent: the share of steps reached, counting the current one. */
  function ProgressWidth(currentStep: nat): (width: real)
    requires currentStep < |Steps|
    ensures 0.0 < width <= 100.0
    ensures width == 100.0 <==> currentStep == LastStep
  {
    (currentStep + 1) as real / |Steps| as real * 100.0
  }

  lemma ProgressWidthGrows(a: nat, b: nat)
    requires a < b < |Steps|
    ensures ProgressWidth(a) < ProgressWidth(b)
  {
  }

  class HandwashingGame {
    var currentStep: nat
    var selectedBoxes: seq<nat>
    var choices: seq<Choice>
    var gameComplete: bool
    /** The steps captured by the advance timers started and not yet fired, oldest first. */
    var pendingAdvances: seq<nat>

    ghost predicate Valid()
      reads this
    {
      && currentStep <= LastStep
      && Distinct(selectedBoxes)
      && (forall k :: 0 <= k < |pendingAdvances| ==> pendingAdvances[k] <= LastStep)
    }

    /** The first render: step 0 and no choices yet, until the step effect runs. */
    constructor ()
      ensures Valid()
      ensures currentStep == 0 && selectedBoxes == [] && choices == [] && !gameComplete && pendingAdvances == []
    {
      currentStep := 0;
      selectedBoxes := [];
      choices := [];
      gameComplete := false;
      pendingAdvances := [];
    }

    /** The effect on `currentStep`: a fresh round of choices and no selected boxes. */
    method StepChangeEffect(shuffledOthers: seq<string>, shuffled: seq<string>)
      requires Valid() && IsShuffle(currentStep, shuffledOthers, shuffled)
      modifies this`choices, this`selectedBoxes
      ensures Valid()
      ensures choices == GenerateChoices(currentStep, shuffledOthers, shuffled) && selectedBoxes == []
    {
      choices := GenerateChoices(currentStep, shuffledOthers, shuffled);
      selectedBoxes := [];
    }

    /**
      `handleBoxClick` on box `boxIndex`, whose correctness is read from the
      current choices (a missing choice counts as wrong). A box already selected
      is ignored; otherwise it is selected, and a correct one starts the advance
      timer for the current step.
     */
    method HandleBoxClick(boxIndex: nat)
      requires Valid()
      modifies this`selectedBoxes, this`pendingAdvances
      ensures Valid()
      ensures boxIndex in old(selectedBoxes) ==>
                selectedBoxes == old(selectedBoxes) && pendingAdvances == old(pendingAdvances)
      ensures boxIndex !in old(selectedBoxes) ==>
                && selectedBoxes == old(selectedBoxes) + [boxIndex]
                && pendingAdvances == if boxIndex < |choices| && choices[boxIndex].isCorrect
                                      then old(pendingAdvances) + [currentStep] else old(pendingAdvances)
    {
      if boxIndex in selectedBoxes {
        return;
      }
      selectedBoxes := selectedBoxes + [boxIndex];
      if boxIndex < |choices| && choices[boxIndex].isCorrect {
        pendingAdvances := pendingAdvances + [currentStep];
      }
    }

    /**
      The oldest advance timer fires: with the step it captured below the last
      one the game moves to the next step, on the last step the game is complete.
     */
    method AdvanceTimerFires()
      requires Valid()
      modifies this`currentStep, this`gameComplete, this`pendingAdvances
      ensures Valid()
      ensures old(pendingAdvances) == [] ==> currentStep == old(currentStep) && gameComplete == old(gameComplete)
      ensures old(pendingAdvances) != [] ==>
                var captured := old(pendingAdvances)[0];
                && pendingAdvances == old(pendingAdvances)[1..]
                && (captured < LastStep ==> currentStep == captured + 1 && gameComplete == old(gameComplete))
                && (captured >= LastStep ==> currentStep == old(currentStep) && gameComplete)
    {
      if pendingAdvances == [] {
        return;
      }
      var captured := pendingAdvances[0];
      pendingAdvances := pendingAdvances[1..];
      if captured < |Steps| - 1 {
        currentStep := captured + 1;
      } else {
        gameComplete := true;
      }
    }

    /** `resetGame` ("Play Again"): back to the first step, nothing selected, not complete. */
    method ResetGame()
      requires Valid()
      modifies this`currentStep, this`selectedBoxes, this`gameComplete
      ensures Valid()
      ensures currentStep == 0 && selectedBoxes == [] && !gameComplete
    {
      currentStep := 0;
      selectedBoxes := [];
      gameComplete := false;
    }
  }

  /**
    One round played right: with the choices of the current step on screen,
    clicking the correct box and letting its timer fire moves to the next step,
    or completes the game on the last step.
   */
  method PlayRound(game: HandwashingGame)
    requires game.Valid() && game.pendingAdvances == [] && game.selectedBoxes == []
    requires WellFormedChoices(game.choices, game.currentStep)
    modifies game
    ensures game.Valid() && game.pendingAdvances == []
    ensures old(game.currentStep) < LastStep ==> game.currentStep == old(game.currentStep) + 1
    ensures old(game.currentStep) == LastStep ==> game.gameComplete
  {
    var k :| 0 <= k < |game.choices| && game.choices[k].isCorrect;
    game.HandleBoxClick(k);
    game.AdvanceTimerFires();
  }
}
