# Basic math quiz: a Dafny model of the game logic

This project models the game logic of `basic_math.py`. That file is a pygame arithmetic quiz. A player picks one of four practice modes on a menu: basic or advanced, crossed with addition or subtraction. The game then shows a problem whose operands are drawn at random within the mode's range. The player answers by clicking one of four answer boxes or pressing keys 1 to 4.

- A correct pick raises the score and the count of problems solved, lifts the high score when the score passes it, and starts a new problem.
- A wrong pick counts an attempt, redraws the three wrong answers ("distractors") and reshuffles all four options.
- Distractors are drawn by rejection sampling close to the correct answer. In subtraction modes the sign-flipped answer is added to them first.

The model consists of these modules:

- `Geometry` (geometry.dfy): integer rectangles and pygame's `collidepoint` rule.
- `Modes` (modes.dfy): the mode as a pair of a tier and an operator, the numeric ranges of each tier, and the range invariant of a problem.
- `Menu` (menu.dfy): the mode-selection buttons and their hit test, written as pure functions.
- `Builtins` (builtins.dfy): the parts of Python's library that the game uses. These are `random.randint`, `random.shuffle` (CPython's Fisher-Yates pass), `list(set)` and `list.index`. Random choices are nondeterministic, so the model admits every outcome the library can produce.
- `AnswerOptions` (answer_options.dfy): the rejection-sampling loop, the shape of the generated options, and lemmas about that shape.
- `Game` (game.dfy): `MathGame` as a class whose methods update its fields in place, plus key decoding and the answer-box layout.

Behaviour of the code that the model reproduces:

- The feedback guard at basic_math.py:235-237 never fires. The wrong branch of `check_answer` sets `wrong_answer_index` at basic_math.py:250, and the call to `generate_answer_options` clears it again at basic_math.py:217. `MathGame.CheckAnswer` keeps the guard. The constructor and every method establish or preserve `Ready()`, so every submission is judged.
- A subtraction problem whose answer is 0 shows 0 twice, and only the first 0 counts as correct (`ZeroShownTwice`). In every other case the four options are pairwise distinct (`OptionsDistinct`).
- basic_math.py:199-201 adds `-correct_answer` to the wrong answers without checking that it differs from the answer.
- The sign-flipped answer is not within 3 of the correct answer once that answer exceeds 1. Only the other wrong answers satisfy that bound (`PositionsAreDistractors`).

## Model

| member | source | states |
|---|---|---|
| `Modes.ProblemAnswerInRange` | basic_math.py:169-182 | a valid problem's answer lies in [0, MaxNum]; its sign-flip lies in [MinResult, MaxResult]; answer + 3 stays at most MaxResult |
| `Menu.NewModeSelection` | basic_math.py:36-57 | the four mode buttons are 200 by 100, lie inside the 800 by 600 window and are pairwise disjoint |
| `Menu.ModeSelection.HandleClick` | basic_math.py:118-127 | a returned mode's button contains the click; None exactly when no button contains it |
| `Menu.HandleClickSelectsContainingButton` | basic_math.py:118-127 | with disjoint buttons, a click returns mode m if and only if it lands on m's button, so at most one mode is returned |
| `Builtins.RandInt` | basic_math.py:171-180 | `random.randint(lo, hi)` returns some value of the closed range |
| `Builtins.ListOfSet` | basic_math.py:214 | `list(wrong_answers)` lists each element of the set exactly once (equal multisets) |
| `Builtins.Shuffle` | basic_math.py:215 | `random.shuffle` returns a permutation of its input |
| `Builtins.IndexOf` | basic_math.py:216 | `list.index` gives the first position holding the value; None (Python's ValueError) exactly when the value is absent |
| `AnswerOptions.CandidateAvailable` | basic_math.py:193-212 | with fewer than three wrong answers collected, an acceptable draw not yet collected always exists, so the sampling loops terminate |
| `AnswerOptions.DrawWrongAnswers` | basic_math.py:188-212 | the loops end with exactly three wrong answers, each an accepted draw or the in-range sign-flip; in subtraction modes the sign-flip is always among them |
| `AnswerOptions.OptionsFromDraw` | basic_math.py:214-216 | shuffling the three wrong answers with the correct one and taking its first position gives options of the promised shape (`OptionsValid`) |
| `AnswerOptions.PositionsAreDistractors` | basic_math.py:192-212 | every non-correct position holds a value in the mode's option range (non-negative for addition); apart from the sign-flip it is within 3 of the answer and differs from it |
| `AnswerOptions.OptionsDistinct` | basic_math.py:187-216 | unless the problem is a subtraction with answer 0, the four options are pairwise different |
| `AnswerOptions.ZeroShownTwice` | basic_math.py:198-216 | a subtraction with answer 0 shows 0 at exactly two positions; the correct index is the earlier one |
| `AnswerOptions.OppositeShown` | basic_math.py:198-201 | in subtraction modes the sign-flipped answer is shown at a position other than the correct one |
| `Game.AnswerBoxesLayout` | basic_math.py:219-230 | each answer box lies in the window; no two boxes share a point; no box shares a point with the menu button |
| `Game.KeyCommandOf` | basic_math.py:266-271 | keys 1 to 4 map to answers 0 to 3 and only they select an answer; Escape, and only Escape, returns to the menu |
| `Game.FirstHit` | basic_math.py:259-263 | gives the first box containing the point, or None exactly when no box contains it |
| `Game.MathGame.constructor` | basic_math.py:131-143 | a new session holds a valid problem and valid options; score, problems solved and attempts are 0; the high score is the loaded one; no feedback is pending |
| `Game.MathGame.CreateAnswerBoxes` | basic_math.py:219-230 | builds the four answer boxes of the layout, in order |
| `Game.MathGame.GenerateNewProblem` | basic_math.py:168-185 | the new problem satisfies its mode's range invariant: sum at most MaxNum for addition, 0 <= num2 <= num1 <= MaxNum for subtraction; attempts reset to 0; new options are drawn |
| `Game.MathGame.GenerateAnswerOptions` | basic_math.py:187-217 | the options satisfy `OptionsValid` for the current answer; the feedback marker is cleared |
| `Game.MathGame.CheckAnswer` | basic_math.py:232-252 | preserves the session invariant; while feedback shows nothing changes; when ready, every submission is judged as a correct or a wrong pick and leaves the session ready; the high score never decreases |
| `Game.MathGame.Judge` | basic_math.py:241-252 | correct pick: score and problems solved +1, high score raised to the score when passed and never lowered, new problem with no attempts. Wrong pick: attempts +1; score, problems solved, high score and problem unchanged; only the options redrawn |
| `Game.MathGame.HandleClick` | basic_math.py:254-264 | a click on the menu button returns to the menu with no change; a click on box i submits answer i; any other click changes nothing |
| `Game.MathGame.HandleKey` | basic_math.py:266-272 | keys 1 to 4 submit answers 0 to 3; Escape returns to the menu; no other key changes the session |

## Left out

- Rendering: the `draw` methods, fonts, colours, `pygame.init` and the display set-up. These only produce pixels.
- The `main` event loop, the quit event and `clock.tick`. These are the I/O plumbing that routes events to the handlers modelled above.
- `load_high_score` and `save_high_score` (file and JSON I/O). The loaded high score is a constructor parameter of any integer value. The save on a new high score is dropped.
- `time.time()`: the current time is an integer parameter `now` in milliseconds. The 0.5 s `feedback_duration` becomes 500.
- Randomness: `random.randint` and `random.shuffle` are modelled as nondeterministic choices, so the probability distribution of problems and options is not modelled.
- `AnswerOptions.DrawWrongAnswers`: each loop iteration keeps one accepted, not-yet-collected draw. Draws that the source rejects, or that are already in the set, leave the state unchanged and are not modelled. The model therefore covers the outcomes of runs that terminate, not how many draws a run takes.
- Python's set iteration order: `list(wrong_answers)` may list the set in any order. The order is then shuffled anyway.
- pygame internals: key codes are integers (pygame's values for 1, 4 and Escape). `Rect.collidepoint` is restated as the half-open integer test.
- The mode strings are replaced by the `Mode` datatype. The string keys of the high-score file are therefore not modelled.
