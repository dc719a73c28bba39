/** The multiplication drill of `SimpleMathGame`: the problem generator, the
    keypad input buffer and the answer/feedback state machine. */
module MathGame {
  import opened Decimal

  /** The difficulty prop, `1 | 2 | 3 | 4`. */
  type Level = l: int | 1 <= l <= 4 witness 1

  datatype Problem = Problem(a: int, b: int, ans: int, level: Level)

  /** `null | 'correct' | 'incorrect'`. */
  datatype Feedback = NoFeedback | Correct | Incorrect

  /** A value returned by `Math.random()`. */
  predicate IsRandom(r: real) {
    0.0 <= r < 1.0
  }

  /** Inclusive operand ranges per level, as the comments beside the draws state them. */
  function LowA(level: Level): int { if level <= 2 then 1 else 10 }
  function HighA(level: Level): int { if level <= 2 then 9 else 99 }
  function LowB(level: Level): int { if level <= 2 then 1 else if level == 3 then 2 else 10 }
  function HighB(level: Level): int { if level <= 3 then 9 else 99 }

  /** A problem as the level promises it: operands in range, exact product, its level. */
  predicate WellFormed(p: Problem, level: Level) {
    p.level == level && p.ans == p.a * p.b &&
    LowA(level) <= p.a <= HighA(level) && LowB(level) <= p.b <= HighB(level)
  }

  /** `Math.floor(r * span) + low`. */
  function Draw(r: real, span: int, low: int): (x: int)
    requires IsRandom(r) && span >= 1
    ensures low <= x < low + span
  {
    assert r * span as real < span as real;
    (r * span as real).Floor + low
  }

  /** `generateProblem(level)`, given the two values `Math.random()` returns. */
  function GenerateProblem(level: Level, ra: real, rb: real): (p: Problem)
    requires IsRandom(ra) && IsRandom(rb)
    ensures WellFormed(p, level)
  {
    if level == 1 then
      var a := Draw(ra, 9, 1); var b := Draw(rb, 9, 1);
      Problem(a, b, a * b, 1)
    else if level == 2 then
      var a := Draw(ra, 9, 1); var b := Draw(rb, 9, 1);
      Problem(a, b, a * b, 2)
    else if level == 3 then
      var a := Draw(ra, 90, 10); var b := Draw(rb, 8, 2);
      Problem(a, b, a * b, 3)
    else
      var a := Draw(ra, 90, 10); var b := Draw(rb, 90, 10);
      Problem(a, b, a * b, 4)
  }

  lemma DrawHits(span: int, low: int, x: int)
    requires span >= 1 && low <= x < low + span
    ensures IsRandom((x - low) as real / span as real)
    ensures Draw((x - low) as real / span as real, span, low) == x
  {
    var r := (x - low) as real / span as real;
    assert r * span as real == (x - low) as real;
  }

  /** Every operand pair the level allows is produced by some pair of draws. */
  lemma GenerateProblemCovers(level: Level, a: int, b: int)
    requires LowA(level) <= a <= HighA(level) && LowB(level) <= b <= HighB(level)
    ensures exists ra, rb ::
              IsRandom(ra) && IsRandom(rb) && GenerateProblem(level, ra, rb) == Problem(a, b, a * b, level)
  {
    var spanA := HighA(level) - LowA(level) + 1;
    var spanB := HighB(level) - LowB(level) + 1;
    DrawHits(spanA, LowA(level), a);
    DrawHits(spanB, LowB(level), b);
    var ra := (a - LowA(level)) as real / spanA as real;
    var rb := (b - LowB(level)) as real / spanB as real;
    assert GenerateProblem(level, ra, rb) == Problem(a, b, a * b, level);
  }

  /** Every level-4 answer has at least three digits. */
  lemma Level4AnswerAtLeast100(p: Problem)
    requires WellFormed(p, 4)
    ensures p.ans >= 100
  {
    MulBounds(p.a, p.b, 10, 99, 10, 99);
  }

  lemma MulBounds(a: int, b: int, loA: int, hiA: int, loB: int, hiB: int)
    requires 0 <= loA <= a <= hiA && 0 <= loB <= b <= hiB
    ensures loA * loB <= a * b <= hiA * hiB
  {
    assert a * b <= hiA * b by { assert (hiA - a) * b >= 0; }
    assert hiA * b <= hiA * hiB by { assert hiA * (hiB - b) >= 0; }
    assert loA * loB <= a * loB by { assert (a - loA) * loB >= 0; }
    assert a * loB <= a * b by { assert a * (b - loB) >= 0; }
  }

  /** Level 1 and 2 answers fit in two digits; level 3 answers range over 20..891. */
  lemma AnswerRanges(p: Problem, level: Level)
    requires WellFormed(p, level)
    ensures level <= 2 ==> 1 <= p.ans <= 81
    ensures level == 3 ==> 20 <= p.ans <= 891
    ensures level == 4 ==> 100 <= p.ans <= 9801
  {
    MulBounds(p.a, p.b, LowA(level), HighA(level), LowB(level), HighB(level));
  }

  // ---------------------------------------------------------------------------
  // The component's state and its handlers, as values

  datatype GameState = GameState(level: Level, score: nat, problem: Problem,
                                 userAnswer: string, feedback: Feedback)

  /** What every state the component reaches satisfies. */
  predicate Inv(s: GameState) {
    WellFormed(s.problem, s.level) && AllDigits(s.userAnswer) && |s.userAnswer| <= 2
  }

  /** The state after mounting with the given level. */
  function Initial(level: Level, ra: real, rb: real): (s: GameState)
    requires IsRandom(ra) && IsRandom(rb)
    ensures s.level == level && s.problem == GenerateProblem(level, ra, rb)
    ensures Inv(s) && s.score == 0 && s.userAnswer == "" && s.feedback == NoFeedback
  {
    GameState(level, 0, GenerateProblem(level, ra, rb), "", NoFeedback)
  }

  /** A keypad tap: the digit is appended unless two are already there. */
  function Typed(input: string, digit: int): (r: string)
    requires 0 <= digit <= 9
    ensures |input| >= 2 ==> r == input
    ensures |input| < 2 ==> r == input + [DigitChar(digit)]
    ensures AllDigits(input) && |input| <= 2 ==> AllDigits(r) && |r| <= 2
  {
    if |input| >= 2 then input else input + [DigitChar(digit)]
  }

  /** `parseInt(userAnswer) === problem.ans`: an empty input (NaN) is never
      correct, and a digit string is correct iff its value is the answer. */
  predicate IsCorrect(s: GameState)
    ensures IsCorrect(s) ==> s.userAnswer != ""
    ensures AllDigits(s.userAnswer) ==>
              (IsCorrect(s) <==> s.userAnswer != "" && DecimalValue(s.userAnswer) == s.problem.ans)
  {
    ParseInt(s.userAnswer) == Some(s.problem.ans)
  }

  /** The state after `checkAnswer`. */
  function Checked(s: GameState): (t: GameState)
    ensures t.problem == s.problem && t.userAnswer == s.userAnswer && t.level == s.level
    ensures t.feedback == Correct <==> IsCorrect(s)
    ensures t.feedback == Incorrect <==> !IsCorrect(s)
    ensures t.score == if IsCorrect(s) then s.score + 1 else s.score
    ensures AllDigits(s.userAnswer) ==>
              (t.feedback == Correct <==> s.userAnswer != "" && DecimalValue(s.userAnswer) == s.problem.ans)
  {
    if IsCorrect(s) then s.(feedback := Correct, score := s.score + 1)
    else s.(feedback := Incorrect)
  }

  /** The state after `nextProblem`, given the new problem it draws. */
  function Advanced(s: GameState, p: Problem): (t: GameState)
    ensures t.score == s.score && t.level == s.level
    ensures t.problem == p && t.userAnswer == "" && t.feedback == NoFeedback
  {
    s.(problem := p, userAnswer := "", feedback := NoFeedback)
  }

  /** The submit button is rendered only while there is no feedback and some
      input; whatever it submits from a well-formed state parses to a number. */
  predicate CanSubmit(s: GameState)
    ensures CanSubmit(s) && Inv(s) ==> ParseInt(s.userAnswer) == Some(DecimalValue(s.userAnswer))
  {
    s.feedback == NoFeedback && s.userAnswer != ""
  }

  /** A tap on one of the rendered controls. */
  datatype Event =
    | TapDigit(d: int)
    | TapClear
    | TapSubmit
    | TapNext(ra: real, rb: real)
    | TapRetry

  predicate ValidEvent(e: Event) {
    match e
    case TapDigit(d) => 0 <= d <= 9
    case TapNext(ra, rb) => IsRandom(ra) && IsRandom(rb)
    case _ => true
  }

  predicate ValidEvents(es: seq<Event>) {
    forall i :: 0 <= i < |es| ==> ValidEvent(es[i])
  }

  predicate NoNext(es: seq<Event>) {
    forall i :: 0 <= i < |es| ==> !es[i].TapNext?
  }

  /** One tap. A tap on a control that is not rendered in state `s` (submit
      outside `CanSubmit`, next outside `correct`, retry outside `incorrect`)
      cannot happen and leaves the state as it is. */
  function Step(s: GameState, e: Event): (t: GameState)
    requires ValidEvent(e)
    ensures Inv(s) ==> Inv(t)
    ensures t.level == s.level
  {
    match e
    case TapDigit(d) => s.(userAnswer := Typed(s.userAnswer, d))
    case TapClear => s.(userAnswer := "")
    case TapSubmit => if CanSubmit(s) then Checked(s) else s
    case TapNext(ra, rb) =>
      if s.feedback == Correct then Advanced(s, GenerateProblem(s.level, ra, rb)) else s
    case TapRetry => if s.feedback == Incorrect then s.(feedback := NoFeedback) else s
  }

  function Run(s: GameState, es: seq<Event>): (t: GameState)
    requires ValidEvents(es)
    ensures Inv(s) ==> Inv(t)
    ensures t.level == s.level
    decreases |es|
  {
    if es == [] then s else Run(Step(s, es[0]), es[1..])
  }

  /** Points a state can still earn on its current problem. */
  function Pending(s: GameState): nat {
    if s.feedback == Correct then 0 else 1
  }

  /** Without a tap on "next", the problem stays, and score plus pending point
      never grows: each problem adds at most one to the score, and none once
      it has been marked correct. */
  lemma {:induction false} AtMostOnePointPerProblem(s: GameState, es: seq<Event>)
    requires ValidEvents(es) && NoNext(es)
    ensures Run(s, es).problem == s.problem
    ensures Run(s, es).score + Pending(Run(s, es)) <= s.score + Pending(s)
    ensures Run(s, es).score <= s.score + Pending(s)
    ensures s.feedback == Correct ==> Run(s, es).feedback == Correct && Run(s, es).score == s.score
    decreases |es|
  {
    if es != [] {
      assert !es[0].TapNext?;
      assert ValidEvents(es[1..]) && NoNext(es[1..]) by {
        forall i | 0 <= i < |es[1..]| ensures ValidEvent(es[1..][i]) && !es[1..][i].TapNext? {
          assert es[1..][i] == es[i + 1];
        }
      }
      AtMostOnePointPerProblem(Step(s, es[0]), es[1..]);
    }
  }

  /** A level-1 problem 4 x 7: "28" is marked correct, "27" and an empty input are not. */
  lemma FourTimesSeven(s: GameState)
    requires s.problem == Problem(4, 7, 28, 1)
    ensures Checked(s.(userAnswer := "28")).feedback == Correct
    ensures Checked(s.(userAnswer := "27")).feedback == Incorrect
    ensures Checked(s.(userAnswer := "")).feedback == Incorrect
  {
    assert AllDigits("28") && AllDigits("27");
    assert "28"[..1] == "2" && "27"[..1] == "2";
  }

  /** Retry clears the feedback and keeps both the problem and the typed input. */
  lemma RetryKeepsProblemAndInput(s: GameState)
    requires s.feedback == Incorrect
    ensures Step(s, TapRetry) == s.(feedback := NoFeedback)
    ensures Step(s, TapRetry).problem == s.problem && Step(s, TapRetry).userAnswer == s.userAnswer
  {
  }

  /** Two digits cannot spell an answer of 100 or more. */
  lemma LargeAnswerNeverCorrect(s: GameState)
    requires Inv(s) && s.problem.ans >= 100
    ensures !IsCorrect(s)
  {
    if s.userAnswer != [] {
      TwoDigitsBound(s.userAnswer);
    }
  }

  /** Without "next", a problem whose answer is 100 or more is never marked
      correct and the score never moves; every level-4 problem is one. */
  lemma {:induction false} LargeAnswerUnanswerable(s: GameState, es: seq<Event>)
    requires Inv(s) && s.problem.ans >= 100 && s.feedback != Correct
    requires ValidEvents(es) && NoNext(es)
    ensures Run(s, es).feedback != Correct && Run(s, es).score == s.score
    decreases |es|
  {
    if es != [] {
      assert ValidEvents(es[1..]) && NoNext(es[1..]) by {
        forall i | 0 <= i < |es[1..]| ensures ValidEvent(es[1..][i]) && !es[1..][i].TapNext? {
          assert es[1..][i] == es[i + 1];
        }
      }
      LargeAnswerNeverCorrect(s);
      LargeAnswerUnanswerable(Step(s, es[0]), es[1..]);
    }
  }

  /** A level-4 game never scores, whatever is tapped: "next" only draws a new
      problem after a correct answer, and none ever comes. */
  lemma {:induction false} Level4Unanswerable(s: GameState, es: seq<Event>)
    requires Inv(s) && s.level == 4 && s.feedback != Correct
    requires ValidEvents(es)
    ensures Run(s, es).feedback != Correct && Run(s, es).score == s.score
    decreases |es|
  {
    if es != [] {
      assert ValidEvents(es[1..]) by {
        forall i | 0 <= i < |es[1..]| ensures ValidEvent(es[1..][i]) {
          assert es[1..][i] == es[i + 1];
        }
      }
      Level4AnswerAtLeast100(s.problem);
      LargeAnswerNeverCorrect(s);
      Level4Unanswerable(Step(s, es[0]), es[1..]);
    }
  }

  /** The taps that type the digits of `s`. */
  function DigitTaps(s: string): (es: seq<Event>)
    requires AllDigits(s)
    ensures |es| == |s| && ValidEvents(es) && NoNext(es)
    ensures forall i :: 0 <= i < |s| ==> es[i] == TapDigit(DigitValue(s[i]))
  {
    seq(|s|, i requires 0 <= i < |s| => TapDigit(DigitValue(s[i])))
  }

  lemma NoNextAppend(xs: seq<Event>, ys: seq<Event>)
    requires NoNext(xs) && NoNext(ys)
    ensures NoNext(xs + ys)
  {
    forall i | 0 <= i < |xs + ys| ensures !(xs + ys)[i].TapNext? {
      if i < |xs| { assert (xs + ys)[i] == xs[i]; } else { assert (xs + ys)[i] == ys[i - |xs|]; }
    }
  }

  lemma {:induction false} RunAppend(s: GameState, xs: seq<Event>, ys: seq<Event>)
    requires ValidEvents(xs) && ValidEvents(ys)
    ensures ValidEvents(xs + ys)
    ensures Run(s, xs + ys) == Run(Run(s, xs), ys)
    decreases |xs|
  {
    if xs != [] {
      assert ValidEvents(xs[1..]);
      assert (xs + ys)[0] == xs[0] && (xs + ys)[1..] == xs[1..] + ys;
      RunAppend(Step(s, xs[0]), xs[1..], ys);
    } else {
      assert xs + ys == ys;
    }
  }

  /** Tapping digits while there is room appends them to the input. */
  lemma {:induction false} TypeDigits(s: GameState, ds: string)
    requires AllDigits(ds) && |s.userAnswer| + |ds| <= 2
    ensures Run(s, DigitTaps(ds)) == s.(userAnswer := s.userAnswer + ds)
    decreases |ds|
  {
    if ds != [] {
      var es := DigitTaps(ds);
      var s1 := Step(s, es[0]);
      assert s1 == s.(userAnswer := s.userAnswer + [ds[0]]);
      assert es[1..] == DigitTaps(ds[1..]);
      TypeDigits(s1, ds[1..]);
      assert s1.userAnswer + ds[1..] == s.userAnswer + ds;
    }
  }

  /** Typing one or two digits into an empty, unjudged input and submitting judges those digits. */
  lemma DigitsThenSubmit(s: GameState, ds: string)
    requires AllDigits(ds) && 1 <= |ds| <= 2 && s.userAnswer == "" && s.feedback == NoFeedback
    ensures var es := DigitTaps(ds) + [TapSubmit];
      ValidEvents(es) && NoNext(es) && Run(s, es) == Checked(s.(userAnswer := ds))
  {
    var taps := DigitTaps(ds);
    var es := taps + [TapSubmit];
    TypeDigits(s, ds);
    RunAppend(s, taps, [TapSubmit]);
    var typed := s.(userAnswer := ds);
    assert s.userAnswer + ds == ds;
    assert Run(s, taps) == typed;
    assert Run(s, es) == Run(typed, [TapSubmit]);
    SubmitOnce(typed);
    NoNextAppend(taps, [TapSubmit]);
  }

  lemma SubmitOnce(s: GameState)
    requires CanSubmit(s)
    ensures Run(s, [TapSubmit]) == Checked(s)
  {
    assert [TapSubmit][1..] == [];
  }

  /** A problem whose answer is below 100 is answered by typing its digits and submitting. */
  lemma SmallAnswerAnswerable(s: GameState)
    requires 0 <= s.problem.ans < 100 && s.userAnswer == "" && s.feedback == NoFeedback
    ensures var es := DigitTaps(ToDecimal(s.problem.ans)) + [TapSubmit];
      ValidEvents(es) && NoNext(es) && Run(s, es).feedback == Correct && Run(s, es).score == s.score + 1
  {
    var digits := ToDecimal(s.problem.ans);
    DecimalLength(s.problem.ans, 2);
    DecimalRoundTrip(s.problem.ans);
    DigitsThenSubmit(s, digits);
    assert IsCorrect(s.(userAnswer := digits));
  }

  // ---------------------------------------------------------------------------
  // The component itself

  class Game {
    const level: Level
    var score: nat
    var problem: Problem
    var userAnswer: string
    var feedback: Feedback

    function State(): GameState
      reads this
    {
      GameState(level, score, problem, userAnswer, feedback)
    }

    /** Mounting: score 0, a fresh problem, empty input, no feedback. */
    constructor (level: Level, ra: real, rb: real)
      requires IsRandom(ra) && IsRandom(rb)
      ensures State() == Initial(level, ra, rb)
      ensures Inv(State())
    {
      this.level := level;
      score := 0;
      problem := GenerateProblem(level, ra, rb);
      userAnswer := "";
      feedback := NoFeedback;
    }

    /** A keypad digit button. */
    method PressDigit(digit: int)
      requires 0 <= digit <= 9
      modifies this
      ensures State() == Step(old(State()), TapDigit(digit))
      ensures userAnswer == Typed(old(userAnswer), digit)
      ensures score == old(score) && problem == old(problem) && feedback == old(feedback)
    {
      if |userAnswer| < 2 {
        userAnswer := userAnswer + [DigitChar(digit)];
      }
    }

    /** The clear button. */
    method ClearInput()
      modifies this
      ensures State() == Step(old(State()), TapClear)
      ensures userAnswer == ""
      ensures score == old(score) && problem == old(problem) && feedback == old(feedback)
    {
      userAnswer := "";
    }

    /** `checkAnswer`; `fired` tells whether `onCorrectAnswer` was called. */
    method CheckAnswer() returns (fired: bool)
      modifies this
      ensures State() == Checked(old(State()))
      ensures fired <==> feedback == Correct
      ensures fired ==> score == old(score) + 1
      ensures !fired ==> score == old(score) && feedback == Incorrect
      ensures problem == old(problem) && userAnswer == old(userAnswer)
    {
      var num := ParseInt(userAnswer);
      if num == Some(problem.ans) {
        feedback := Correct;
        score := score + 1;
        fired := true;
      } else {
        feedback := Incorrect;
        fired := false;
      }
    }

    /** `nextProblem`, given the two values `Math.random()` returns. */
    method NextProblem(ra: real, rb: real)
      requires IsRandom(ra) && IsRandom(rb)
      modifies this
      ensures State() == Advanced(old(State()), GenerateProblem(level, ra, rb))
      ensures WellFormed(problem, level)
      ensures userAnswer == "" && feedback == NoFeedback && score == old(score)
    {
      problem := GenerateProblem(level, ra, rb);
      userAnswer := "";
      feedback := NoFeedback;
    }

    /** The retry button: clears the feedback only. */
    method Retry()
      modifies this
      ensures State() == old(State()).(feedback := NoFeedback)
      ensures score == old(score) && problem == old(problem) && userAnswer == old(userAnswer)
    {
      feedback := NoFeedback;
    }
  }
}
