/** The four answer options of a problem: the correct answer and three wrong answers
    ("distractors") drawn near it by rejection sampling, shuffled together. */
module AnswerOptions {
  import opened Common
  import opened Modes
  import opened Builtins

  /** A draw `c + randint(-3, 3)` that the rejection test keeps as a wrong answer: it differs
      from `c` and lies in the mode's option range, which is [0, MaxResult] for addition and
      [MinResult, MaxResult] for subtraction; in subtraction it also differs from `-c`. */
  predicate Acceptable(m: Mode, c: int, w: int) {
    && c - 3 <= w <= c + 3
    && w != c
    && (match m.op
        case Addition => 0 <= w <= MaxResult(m.tier)
        case Subtraction => w != -c && MinResult(m.tier) <= w <= MaxResult(m.tier))
  }

  /** The sign-flipped answer that subtraction modes put among the wrong answers first,
      when it lies in the option range. */
  predicate IsSeed(m: Mode, c: int, w: int) {
    m.op == Subtraction && w == -c && MinResult(m.tier) <= w <= MaxResult(m.tier)
  }

  /** A value the option generator may show as a wrong answer. */
  predicate IsDistractor(m: Mode, c: int, w: int) {
    Acceptable(m, c, w) || IsSeed(m, c, w)
  }

  /** The options with the correct answer's position taken out: the three wrong answers
      in the order they are shown. */
  function WrongOptions(answers: seq<int>, idx: int): (wrong: seq<int>)
    requires 0 <= idx < |answers|
  {
    answers[..idx] + answers[idx + 1..]
  }

  /** The shape of the options left behind by the generator: four values; `idx` is the first
      position holding the correct answer `c`; the other three positions hold three
      different distractors; in subtraction modes the sign-flipped answer is one of them. */
  ghost predicate OptionsValid(m: Mode, c: int, answers: seq<int>, idx: int) {
    && |answers| == 4
    && 0 <= idx < 4
    && answers[idx] == c
    && (forall k :: 0 <= k < idx ==> answers[k] != c)
    && (forall k :: 0 <= k < 3 ==> IsDistractor(m, c, WrongOptions(answers, idx)[k]))
    && (forall i, j :: 0 <= i < j < 3 ==> WrongOptions(answers, idx)[i] != WrongOptions(answers, idx)[j])
    && (m.op == Subtraction ==> -c in WrongOptions(answers, idx))
  }

  lemma {:induction false} SubsetCardinality(a: set<int>, b: set<int>)
    requires a <= b
    ensures |a| <= |b|
  {
    if a != {} {
      assert (forall y :: y !in a) ==> a == {};
      var x :| x in a;
      SubsetCardinality(a - {x}, b - {x});
    }
  }

  /** The rejection loop always has a draw left to keep: whatever fewer than three wrong
      answers are collected, one of c+1, c+2, c+3 is acceptable and not yet among them.
      This is why the sampling loop terminates. */
  lemma CandidateAvailable(m: Mode, c: int, wrong: set<int>)
    requires 0 <= c <= MaxNum(m.tier)
    requires |wrong| < 3
    ensures exists w :: Acceptable(m, c, w) && w !in wrong
  {
    var above := {c + 1, c + 2, c + 3};
    assert Acceptable(m, c, c + 1) && Acceptable(m, c, c + 2) && Acceptable(m, c, c + 3);
    if !(above <= wrong) {
      var w :| w in above && w !in wrong;
    } else {
      SubsetCardinality(above, wrong);
      assert false;
    }
  }

  /** The set-building part of the generator: in subtraction modes the sign-flipped answer
      goes in first when it is in range, then accepted draws are added until the set holds
      three values. Each iteration keeps one accepted draw not yet in the set; draws that
      the test rejects, or that are already present, leave the set as it was. */
  method DrawWrongAnswers(m: Mode, c: int) returns (wrong: set<int>)
    requires 0 <= c <= MaxNum(m.tier)
    ensures |wrong| == 3
    ensures forall w :: w in wrong ==> IsDistractor(m, c, w)
    ensures m.op == Subtraction ==> -c in wrong
  {
    wrong := {};
    if m.op == Subtraction {
      var opposite := -c;
      if MinResult(m.tier) <= opposite <= MaxResult(m.tier) {
        wrong := wrong + {opposite};
      }
    }
    while |wrong| < 3
      invariant |wrong| <= 3
      invariant forall w :: w in wrong ==> IsDistractor(m, c, w)
      invariant m.op == Subtraction ==> -c in wrong
      decreases 3 - |wrong|
    {
      CandidateAvailable(m, c, wrong);
      var w :| c - 3 <= w <= c + 3 && Acceptable(m, c, w) && w !in wrong;
      wrong := wrong + {w};
    }
  }

  lemma CountTwo(s: seq<int>, i: int, j: int)
    requires 0 <= i < j < |s|
    ensures s[i] == s[j] ==> multiset(s)[s[i]] >= 2
  {
    assert s == s[..i] + [s[i]] + s[i + 1..j] + [s[j]] + s[j + 1..];
  }

  lemma CountsAtMostOne(s: seq<int>)
    requires forall v :: multiset(s)[v] <= 1
    ensures forall i, j :: 0 <= i < j < |s| ==> s[i] != s[j]
  {
    forall i, j | 0 <= i < j < |s|
      ensures s[i] != s[j]
    {
      CountTwo(s, i, j);
    }
  }

  /** Shuffling the three wrong answers together with the correct one and taking the first
      position of the correct one yields options of the promised shape. */
  lemma OptionsFromDraw(m: Mode, c: int, wrong: set<int>, answers: seq<int>, idx: int)
    requires |wrong| == 3
    requires forall w :: w in wrong ==> IsDistractor(m, c, w)
    requires m.op == Subtraction ==> -c in wrong
    requires multiset(answers) == multiset(wrong) + multiset{c}
    requires 0 <= idx < |answers| && answers[idx] == c
    requires forall k :: 0 <= k < idx ==> answers[k] != c
    ensures OptionsValid(m, c, answers, idx)
  {
    var others := WrongOptions(answers, idx);
    assert answers == answers[..idx] + [c] + answers[idx + 1..];
    assert multiset(answers) == multiset(others) + multiset{c};
    forall v
      ensures multiset(others)[v] == multiset(wrong)[v]
    {
      assert multiset(answers)[v] == multiset(others)[v] + multiset{c}[v];
      assert multiset(answers)[v] == multiset(wrong)[v] + multiset{c}[v];
    }
    assert multiset(others) == multiset(wrong);
    assert |answers| == |multiset(answers)| == |multiset(wrong)| + 1 == 4;
    forall k | 0 <= k < |others|
      ensures IsDistractor(m, c, others[k])
    {
      assert others[k] in multiset(others);
    }
    CountsAtMostOne(others);
    if m.op == Subtraction {
      assert -c in multiset(others);
    }
  }

  /** Every position other than the correct one shows a distractor: a value in the mode's
      option range, within 3 of the correct answer and different from it, except that in
      subtraction modes it may be the sign-flipped answer. */
  lemma PositionsAreDistractors(m: Mode, c: int, answers: seq<int>, idx: int)
    requires OptionsValid(m, c, answers, idx)
    ensures forall k :: 0 <= k < 4 && k != idx ==> IsDistractor(m, c, answers[k])
    ensures forall k :: 0 <= k < 4 && k != idx ==>
      MinResult(m.tier) <= answers[k] <= MaxResult(m.tier) && (m.op == Addition ==> 0 <= answers[k])
    ensures forall k :: 0 <= k < 4 && k != idx && !IsSeed(m, c, answers[k]) ==>
      c - 3 <= answers[k] <= c + 3 && answers[k] != c
  {
    var others := WrongOptions(answers, idx);
    forall k | 0 <= k < 4 && k != idx
      ensures IsDistractor(m, c, answers[k])
    {
      if k < idx {
        assert answers[k] == others[k];
      } else {
        assert answers[k] == others[k - 1];
      }
    }
  }

  /** Unless the problem is a subtraction with answer 0, the four options are pairwise
      different, so exactly one of them is the correct answer. */
  lemma OptionsDistinct(m: Mode, c: int, answers: seq<int>, idx: int)
    requires OptionsValid(m, c, answers, idx)
    requires m.op == Addition || c != 0
    ensures forall i, j :: 0 <= i < j < |answers| ==> answers[i] != answers[j]
  {
    var others := WrongOptions(answers, idx);
    PositionsAreDistractors(m, c, answers, idx);
    assert !IsDistractor(m, c, c);
    forall i, j | 0 <= i < j < 4
      ensures answers[i] != answers[j]
    {
      if i != idx && j != idx {
        var oi := if i < idx then i else i - 1;
        var oj := if j < idx then j else j - 1;
        assert answers[i] == others[oi] && answers[j] == others[oj];
      }
    }
  }

  /** A subtraction with answer 0 shows 0 at exactly two positions: the sign-flipped answer
      -0 is a wrong answer equal to the correct one. Only the first 0 counts as correct;
      the later one is judged wrong. */
  lemma ZeroShownTwice(m: Mode, c: int, answers: seq<int>, idx: int)
    requires OptionsValid(m, c, answers, idx)
    requires m.op == Subtraction && c == 0
    ensures exists j ::
      && idx < j < 4
      && answers[j] == 0
      && (forall k :: 0 <= k < 4 && k != idx && k != j ==> answers[k] != 0)
  {
    var others := WrongOptions(answers, idx);
    var o :| 0 <= o < 3 && others[o] == 0;
    var j := if o < idx then o else o + 1;
    assert answers[j] == 0;
    forall k | 0 <= k < 4 && k != idx && k != j
      ensures answers[k] != 0
    {
      var ok := if k < idx then k else k - 1;
      assert answers[k] == others[ok];
    }
  }

  /** In subtraction modes the sign-flipped answer is always shown at a position other
      than the correct one. */
  lemma OppositeShown(m: Mode, c: int, answers: seq<int>, idx: int)
    requires OptionsValid(m, c, answers, idx)
    requires m.op == Subtraction
    ensures exists k :: 0 <= k < 4 && k != idx && answers[k] == -c
  {
    var others := WrongOptions(answers, idx);
    var o :| 0 <= o < 3 && others[o] == -c;
    var k := if o < idx then o else o + 1;
    assert answers[k] == -c;
  }
}
