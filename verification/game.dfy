/** A quiz session in one mode: the current problem, its four answer options, the score
    and the counters, changed in place by answer submissions. */
module Game {
  import opened Common
  import opened Geometry
  import opened Modes
  import opened Builtins
  import opened AnswerOptions

  /** pygame's key codes for the keys the session reacts to. */
  const KeyEscape: int := 27
  const Key1: int := 49
  const Key4: int := 52

  /** How long wrong-answer feedback shows, in milliseconds of the abstract clock. */
  const FeedbackDuration: int := 500

  const AnswerBoxWidth: int := 150
  const AnswerBoxHeight: int := 80
  const AnswerSpacing: int := 30
  const AnswerRowY: int := 400
  /** Left edge of the first answer box: the row of four boxes is centred in the window. */
  const AnswerRowX: int := (WindowWidth - (AnswerBoxWidth * 4 + AnswerSpacing * 3)) / 2

  /** The "Back to Menu" button in the bottom-left corner. */
  const MenuButton: Rect := Rect(20, WindowHeight - 60, 200, 40)

  /** The clickable box of answer option `i`. */
  function AnswerBox(i: int): (box: Rect) {
    Rect(AnswerRowX + (AnswerBoxWidth + AnswerSpacing) * i, AnswerRowY, AnswerBoxWidth, AnswerBoxHeight)
  }

  /** The answer boxes are laid out side by side: each lies in the window, no two share a
      point, and none shares a point with the menu button. */
  lemma AnswerBoxesLayout(i: int, j: int, px: int, py: int)
    requires 0 <= i < 4 && 0 <= j < 4
    ensures AnswerBox(i).InWindow()
    ensures AnswerBox(i).Contains(px, py) && AnswerBox(j).Contains(px, py) ==> i == j
    ensures !(AnswerBox(i).Contains(px, py) && MenuButton.Contains(px, py))
  {
  }

  /** What a key press asks for. */
  datatype KeyCommand = SelectAnswer(index: int) | BackToMenu | NoCommand

  /** Keys 1 to 4 select answers 0 to 3, Escape returns to the menu, any other key does
      nothing. */
  function KeyCommandOf(key: int): (r: KeyCommand)
    ensures r.SelectAnswer? <==> Key1 <= key <= Key4
    ensures r.SelectAnswer? ==> 0 <= r.index < 4 && Key1 + r.index == key
    ensures r == BackToMenu <==> key == KeyEscape
  {
    if Key1 <= key <= Key4 then SelectAnswer(key - Key1)
    else if key == KeyEscape then BackToMenu
    else NoCommand
  }

  /** The index of the first rectangle of `boxes` containing the point, if any. */
  method FirstHit(boxes: seq<Rect>, px: int, py: int) returns (hit: Option<nat>)
    ensures hit.Some? ==> hit.value < |boxes| && boxes[hit.value].Contains(px, py)
    ensures hit.Some? ==> forall k :: 0 <= k < hit.value ==> !boxes[k].Contains(px, py)
    ensures hit.None? <==> forall k :: 0 <= k < |boxes| ==> !boxes[k].Contains(px, py)
  {
    var i := 0;
    while i < |boxes|
      invariant 0 <= i <= |boxes|
      invariant forall k :: 0 <= k < i ==> !boxes[k].Contains(px, py)
    {
      if boxes[i].Contains(px, py) {
        return Some(i);
      }
      i := i + 1;
    }
    return None;
  }

  class MathGame {
    const mode: Mode
    var score: int
    var highScore: int
    var problemsSolved: int
    /** The option last picked wrongly while its feedback shows; None otherwise. */
    var wrongAnswerIndex: Option<int>
    var wrongAnswerTime: int
    var answerBoxes: seq<Rect>
    /** Wrong picks on the current problem. */
    var attempts: int
    const menuButton: Rect
    var num1: int
    var num2: int
    var operator: Operator
    var correctAnswer: int
    var answers: seq<int>
    var correctAnswerIndex: int

    /** The session invariant: the problem satisfies its mode's range invariant, the options
        have the generator's shape, the boxes and menu button are where the layout puts
        them, and score and problems solved move together. */
    ghost predicate Valid()
      reads this
    {
      && ProblemValid(mode, num1, num2, operator, correctAnswer)
      && OptionsValid(mode, correctAnswer, answers, correctAnswerIndex)
      && |answerBoxes| == 4
      && (forall i :: 0 <= i < 4 ==> answerBoxes[i] == AnswerBox(i))
      && menuButton == MenuButton
      && 0 <= score == problemsSolved
      && 0 <= attempts
    }

    /** No wrong-answer feedback is pending, so the next submission is processed. */
    predicate Ready()
      reads this
    {
      wrongAnswerIndex.None?
    }

    /** A new session in mode `m`; `loadedHighScore` is the best score stored for the mode. */
    constructor (m: Mode, loadedHighScore: int)
      ensures Valid() && Ready()
      ensures mode == m && score == 0 && problemsSolved == 0 && attempts == 0
      ensures highScore == loadedHighScore && wrongAnswerTime == 0
    {
      mode := m;
      score := 0;
      highScore := loadedHighScore;
      problemsSolved := 0;
      wrongAnswerIndex := None;
      wrongAnswerTime := 0;
      answerBoxes := [];
      attempts := 0;
      menuButton := MenuButton;
      new;
      CreateAnswerBoxes();
      GenerateNewProblem();
    }

    /** Lays out the four answer boxes in a row. */
    method CreateAnswerBoxes()
      modifies this`answerBoxes
      ensures |answerBoxes| == 4 && forall i :: 0 <= i < 4 ==> answerBoxes[i] == AnswerBox(i)
    {
      var boxWidth, boxHeight, spacing := 150, 80, 30;
      var totalWidth := boxWidth * 4 + spacing * 3;
      var startX := (WindowWidth - totalWidth) / 2;
      var y := 400;
      answerBoxes := [];
      for i := 0 to 4
        invariant |answerBoxes| == i
        invariant forall k :: 0 <= k < i ==> answerBoxes[k] == AnswerBox(k)
      {
        var x := startX + (boxWidth + spacing) * i;
        answerBoxes := answerBoxes + [Rect(x, y, boxWidth, boxHeight)];
      }
    }

    /** Draws a fresh problem for the mode, resets the attempt counter and draws its
        options. */
    method GenerateNewProblem()
      modifies this`num1, this`num2, this`correctAnswer, this`operator, this`attempts,
        this`answers, this`correctAnswerIndex, this`wrongAnswerIndex
      ensures ProblemValid(mode, num1, num2, operator, correctAnswer)
      ensures OptionsValid(mode, correctAnswer, answers, correctAnswerIndex)
      ensures attempts == 0 && Ready()
    {
      var maxNum := MaxNum(mode.tier);
      if mode.op == Addition {
        num1 := RandInt(0, maxNum);
        num2 := RandInt(0, maxNum - num1);
        correctAnswer := num1 + num2;
        operator := Addition;
      } else {
        num1 := RandInt(0, maxNum);
        num2 := RandInt(0, num1);
        correctAnswer := num1 - num2;
        operator := Subtraction;
      }
      attempts := 0;
      GenerateAnswerOptions();
    }

    /** Draws three wrong answers for the current problem, shuffles them with the correct
        one, records the first position of the correct one and clears the feedback marker. */
    method GenerateAnswerOptions()
      requires ProblemValid(mode, num1, num2, operator, correctAnswer)
      modifies this`answers, this`correctAnswerIndex, this`wrongAnswerIndex
      ensures OptionsValid(mode, correctAnswer, answers, correctAnswerIndex)
      ensures Ready()
    {
      var wrong := DrawWrongAnswers(mode, correctAnswer);
      var listed := ListOfSet(wrong);
      answers := listed + [correctAnswer];
      answers := Shuffle(answers);
      assert correctAnswer in multiset(answers);
      var found := IndexOf(answers, correctAnswer);
      correctAnswerIndex := found.value;
      OptionsFromDraw(mode, correctAnswer, wrong, answers, correctAnswerIndex);
      wrongAnswerIndex := None;
    }

    /** The submission came while the feedback for an earlier wrong pick still shows. */
    twostate predicate FeedbackShowing(now: int)
      reads this
    {
      old(wrongAnswerIndex).Some? && now - old(wrongAnswerTime) < FeedbackDuration
    }

    /** Nothing observable changed. */
    twostate predicate Ignored()
      reads this
    {
      && score == old(score) && problemsSolved == old(problemsSolved)
      && highScore == old(highScore) && attempts == old(attempts)
      && num1 == old(num1) && num2 == old(num2) && operator == old(operator)
      && correctAnswer == old(correctAnswer) && answers == old(answers)
      && correctAnswerIndex == old(correctAnswerIndex)
      && wrongAnswerIndex == old(wrongAnswerIndex) && wrongAnswerTime == old(wrongAnswerTime)
    }

    /** A correct pick: score and problems solved go up by one, the high score is raised to
        the score when the score passes it and never goes down, and a new problem starts
        with no attempts and no feedback pending. */
    twostate predicate CorrectPick()
      reads this
    {
      && score == old(score) + 1
      && problemsSolved == old(problemsSolved) + 1
      && highScore >= old(highScore) && highScore >= score
      && (highScore == old(highScore) || highScore == score)
      && attempts == 0
      && wrongAnswerIndex.None? && wrongAnswerTime == old(wrongAnswerTime)
    }

    /** A wrong pick at time `now`: one more attempt; the problem, score, problems solved and
        high score stay; the time is noted; only the options are redrawn, which leaves no
        feedback pending. */
    twostate predicate WrongPick(now: int)
      reads this
    {
      && score == old(score) && problemsSolved == old(problemsSolved)
      && highScore == old(highScore)
      && num1 == old(num1) && num2 == old(num2) && operator == old(operator)
      && correctAnswer == old(correctAnswer)
      && attempts == old(attempts) + 1
      && wrongAnswerIndex.None? && wrongAnswerTime == now
    }

    /** The effect of submitting option `answerIndex` at time `now`: ignored while feedback
        shows, otherwise judged against the recorded correct position. */
    twostate predicate Checked(answerIndex: int, now: int)
      reads this
    {
      if FeedbackShowing(now) then Ignored()
      else if answerIndex == old(correctAnswerIndex) then CorrectPick()
      else WrongPick(now)
    }

    /** Handles the submission of option `answerIndex` at time `now`. The feedback guard
        only returns early when a wrong pick is still pending; since every path through
        this method leaves none pending, and a new session starts with none, the guard
        never fires and every submission is judged. */
    method CheckAnswer(answerIndex: int, now: int)
      requires Valid()
      modifies this
      ensures Valid()
      ensures Checked(answerIndex, now)
      ensures old(Ready()) ==> Ready()
      ensures old(Ready()) ==> if answerIndex == old(correctAnswerIndex) then CorrectPick() else WrongPick(now)
      ensures highScore >= old(highScore)
    {
      if wrongAnswerIndex.Some? {
        if now - wrongAnswerTime < FeedbackDuration {
          return;
        } else {
          wrongAnswerIndex := None;
        }
      }
      Judge(answerIndex, now);
    }

    /** Judges a submission once no feedback blocks it: a correct pick scores and starts a
        new problem, a wrong pick counts an attempt and redraws the options. */
    method Judge(answerIndex: int, now: int)
      requires Valid()
      modifies this
      ensures Valid()
      ensures if answerIndex == old(correctAnswerIndex) then CorrectPick() else WrongPick(now)
    {
      if answerIndex == correctAnswerIndex {
        score := score + 1;
        if score > highScore {
          highScore := score;
        }
        problemsSolved := problemsSolved + 1;
        GenerateNewProblem();
      } else {
        attempts := attempts + 1;
        wrongAnswerIndex := Some(answerIndex);
        wrongAnswerTime := now;
        GenerateAnswerOptions();
      }
    }

    /** A click at (px, py): on the menu button it asks to return to the menu and changes
        nothing; on answer box i it submits option i; elsewhere it changes nothing. */
    method HandleClick(px: int, py: int, now: int) returns (toMenu: bool)
      requires Valid()
      modifies this
      ensures Valid()
      ensures toMenu <==> MenuButton.Contains(px, py)
      ensures toMenu ==> unchanged(this)
      ensures forall i :: 0 <= i < 4 && AnswerBox(i).Contains(px, py) ==> Checked(i, now)
      ensures (forall i :: 0 <= i < 4 ==> !AnswerBox(i).Contains(px, py)) ==> unchanged(this)
      ensures old(Ready()) ==> Ready()
    {
      if menuButton.Contains(px, py) {
        return true;
      }
      var hit := FirstHit(answerBoxes, px, py);
      if hit.Some? {
        var i := hit.value;
        forall j | 0 <= j < 4
          ensures AnswerBox(j).Contains(px, py) ==> j == i
        {
          AnswerBoxesLayout(i, j, px, py);
        }
        CheckAnswer(i, now);
      }
      return false;
    }

    /** A key press: keys 1 to 4 submit options 0 to 3, Escape asks to return to the menu,
        and neither Escape nor any other key changes the session. */
    method HandleKey(key: int, now: int) returns (toMenu: bool)
      requires Valid()
      modifies this
      ensures Valid()
      ensures toMenu <==> key == KeyEscape
      ensures KeyCommandOf(key).SelectAnswer? ==> Checked(KeyCommandOf(key).index, now)
      ensures !KeyCommandOf(key).SelectAnswer? ==> unchanged(this)
      ensures old(Ready()) ==> Ready()
    {
      match KeyCommandOf(key)
      case SelectAnswer(i) =>
        CheckAnswer(i, now);
        toMenu := false;
      case BackToMenu =>
        toMenu := true;
      case NoCommand =>
        toMenu := false;
    }
  }
}
