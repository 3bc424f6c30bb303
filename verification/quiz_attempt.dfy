/** The quiz-taking page (src/pages/QuizAttempt.tsx): the current question,
    the answer chosen for each question (`null` until one is picked), the
    results switch and the countdown, the handlers that change them, the
    once-a-second timer that auto-submits when time runs out, and the
    scoring shown on the results screen. */
module QuizAttemptPage {
  import opened Types
  import opened Seqs
  import Percent
  import GameHUD

  /** The page state: `currentQuestion`, `answers`, `showResults` and
      `timeLeft` (seconds; `None` for `null`). */
  datatype Attempt = Attempt(current: nat, answers: seq<Option<int>>, showResults: bool, timeLeft: Option<int>)

  /** `mockQuizzes.find(q => q.id === quizId)`; `None` is the "Quiz Not
      Found" screen. */
  function FindQuiz(quizzes: seq<Quiz>, quizId: string): (r: Option<Quiz>)
    ensures r.None? <==> forall q :: q in quizzes ==> q.id != quizId
    ensures r.Some? ==> r.value in quizzes && r.value.id == quizId
  {
    Find(quizzes, (q: Quiz) => q.id == quizId)
  }

  /** `new Array(n).fill(null)`. */
  function Unanswered(n: nat): (s: seq<Option<int>>)
    ensures |s| == n && forall i :: 0 <= i < n ==> s[i].None?
  {
    seq(n, i => None)
  }

  /** The countdown a quiz starts with: `timeLimit * 60` seconds when the
      limit is set and not zero (a zero limit is falsy and starts no timer). */
  function TimerStart(q: Quiz): (r: Option<int>)
    ensures r.Some? <==> q.timeLimit.Some? && q.timeLimit.value > 0
    ensures r.Some? ==> r.value == 60 * q.timeLimit.value && r.value >= 60
  {
    if q.timeLimit.Some? && q.timeLimit.value != 0 then Some(q.timeLimit.value * 60) else None
  }

  /** The state once the quiz is loaded and the mount effects have run. */
  function Start(q: Quiz): (a: Attempt)
    ensures a.current == 0 && !a.showResults && a.timeLeft == TimerStart(q)
    ensures |a.answers| == |q.questions| && forall i :: 0 <= i < |a.answers| ==> a.answers[i].None?
  {
    Attempt(0, Unanswered(|q.questions|), false, TimerStart(q))
  }

  /** What every reachable state of a quiz of `n` questions satisfies: one
      answer slot per question and the current question within [0, n-1]. */
  ghost predicate Inv(a: Attempt, n: nat) {
    |a.answers| == n && a.current < n
  }

  lemma StartInv(q: Quiz)
    requires |q.questions| > 0
    ensures Inv(Start(q), |q.questions|)
  {
  }

  /** `handleAnswerSelect`: the chosen option replaces the current
      question's answer and nothing else. */
  function SelectAnswer(a: Attempt, value: int): (r: Attempt)
    requires a.current < |a.answers|
    ensures |r.answers| == |a.answers| && r.answers[a.current] == Some(value)
    ensures forall i :: 0 <= i < |a.answers| && i != a.current ==> r.answers[i] == a.answers[i]
    ensures r.current == a.current && r.showResults == a.showResults && r.timeLeft == a.timeLeft
  {
    a.(answers := a.answers[a.current := Some(value)])
  }

  /** `handleNext`: one question on, unless already on the last. */
  function Next(a: Attempt, n: nat): (r: Attempt)
    ensures a.current + 1 < n ==> r.current == a.current + 1
    ensures a.current + 1 >= n ==> r.current == a.current
    ensures r.answers == a.answers && r.showResults == a.showResults && r.timeLeft == a.timeLeft
  {
    if a.current + 1 < n then a.(current := a.current + 1) else a
  }

  /** `handlePrevious`: one question back, unless already on the first. */
  function Previous(a: Attempt): (r: Attempt)
    ensures a.current > 0 ==> r.current == a.current - 1
    ensures a.current == 0 ==> r.current == 0
    ensures r.answers == a.answers && r.showResults == a.showResults && r.timeLeft == a.timeLeft
  {
    if a.current > 0 then a.(current := a.current - 1) else a
  }

  /** A quick-navigation button: straight to question `index`. */
  function JumpTo(a: Attempt, index: nat): (r: Attempt)
    ensures r.current == index && r.answers == a.answers
    ensures r.showResults == a.showResults && r.timeLeft == a.timeLeft
  {
    a.(current := index)
  }

  /** `handleSubmit`. */
  function Submit(a: Attempt): (r: Attempt)
    ensures r.showResults && r.current == a.current && r.answers == a.answers && r.timeLeft == a.timeLeft
  {
    a.(showResults := true)
  }

  /** One run of the timer effect: nothing without a countdown or once the
      results are shown; an auto-submit once the countdown has reached
      zero; otherwise, a second later, one second less. */
  function Tick(a: Attempt): (r: Attempt)
    ensures a.timeLeft.None? || a.showResults ==> r == a
    ensures a.timeLeft.Some? && !a.showResults && a.timeLeft.value <= 0 ==> r == Submit(a)
    ensures a.timeLeft.Some? && !a.showResults && a.timeLeft.value > 0 ==>
              r == a.(timeLeft := Some(a.timeLeft.value - 1))
  {
    if a.timeLeft.None? || a.showResults then a
    else if a.timeLeft.value <= 0 then Submit(a)
    else a.(timeLeft := Some(a.timeLeft.value - 1))
  }

  /** `handleRetake`: back to the first question with every answer cleared
      and the results hidden; a timed quiz gets its full countdown again. */
  function Retake(a: Attempt, q: Quiz): (r: Attempt)
    ensures r.current == 0 && !r.showResults && r.answers == Unanswered(|q.questions|)
    ensures TimerStart(q).Some? ==> r.timeLeft == TimerStart(q)
    ensures TimerStart(q).None? ==> r.timeLeft == a.timeLeft
  {
    Attempt(0, Unanswered(|q.questions|), false,
            if TimerStart(q).Some? then TimerStart(q) else a.timeLeft)
  }

  /** The user's and the timer's actions on the page. The submit button
      takes the place of the next button on the last question. */
  datatype Event = Select(value: int) | NextQuestion | PreviousQuestion | Jump(index: nat) | SubmitQuiz | TimerTick | RetakeQuiz

  /** An event as the page lets it happen: the answer options, the
      navigation buttons and the submit button are only on the question
      screen, and the retake button only on the results screen. */
  function Step(a: Attempt, q: Quiz, e: Event): (r: Attempt)
    requires Inv(a, |q.questions|)
    ensures a.showResults && !e.RetakeQuiz? ==> r == a
    ensures !a.showResults && e.RetakeQuiz? ==> r == a
    ensures r.answers != a.answers ==> e.Select? || e.RetakeQuiz?
  {
    match e
    case Select(v) => if a.showResults then a else SelectAnswer(a, v)
    case NextQuestion => if a.showResults || NextDisabled(a) then a else Next(a, |q.questions|)
    case PreviousQuestion => if a.showResults || a.current == 0 then a else Previous(a)
    case Jump(i) => if a.showResults || i >= |q.questions| then a else JumpTo(a, i)
    case SubmitQuiz =>
      if a.showResults || a.current != |q.questions| - 1 || SubmitDisabled(a) then a else Submit(a)
    case TimerTick => Tick(a)
    case RetakeQuiz => if a.showResults then Retake(a, q) else a
  }

  /** Every event keeps one answer slot per question and the current
      question in range. */
  lemma StepPreservesInv(a: Attempt, q: Quiz, e: Event)
    requires Inv(a, |q.questions|)
    ensures Inv(Step(a, q, e), |q.questions|)
  {
  }

  /** The submit button only submits a quiz whose every question has an
      answer; only the timer submits one with questions left open. */
  lemma ButtonSubmitHasAllAnswers(a: Attempt, q: Quiz)
    requires Inv(a, |q.questions|) && !a.showResults
    requires Step(a, q, SubmitQuiz).showResults
    ensures forall i :: 0 <= i < |q.questions| ==> a.answers[i].Some?
  {
  }

  function Run(a: Attempt, q: Quiz, es: seq<Event>): (r: Attempt)
    requires Inv(a, |q.questions|)
    ensures Inv(r, |q.questions|)
    decreases |es|
  {
    if es == [] then a
    else
      StepPreservesInv(a, q, es[0]);
      Run(Step(a, q, es[0]), q, es[1..])
  }

  /** An answer once given stays given: choosing another option replaces
      it, and only a retake clears it. */
  lemma {:induction false} AnswersStayGiven(a: Attempt, q: Quiz, es: seq<Event>, i: nat)
    requires Inv(a, |q.questions|) && i < |a.answers| && a.answers[i].Some?
    requires forall k :: 0 <= k < |es| ==> !es[k].RetakeQuiz?
    ensures Run(a, q, es).answers[i].Some?
    decreases |es|
  {
    if es != [] {
      StepPreservesInv(a, q, es[0]);
      AnswersStayGiven(Step(a, q, es[0]), q, es[1..], i);
    }
  }

  // ----------------------------------------------------------- buttons

  /** The submit button is disabled while some question has no answer,
      which is `answers.includes(null)`. */
  function SubmitDisabled(a: Attempt): (r: bool)
    ensures r <==> None in a.answers
  {
    exists i :: 0 <= i < |a.answers| && a.answers[i].None?
  }

  /** `answers[currentQuestion] === null`: the next button is disabled. */
  predicate NextDisabled(a: Attempt)
    requires a.current < |a.answers|
  {
    a.answers[a.current].None?
  }

  /** Answering the current question enables the next button, and while it
      is disabled so is the submit button. */
  lemma AnsweringEnablesNext(a: Attempt, value: int)
    requires a.current < |a.answers|
    ensures !NextDisabled(SelectAnswer(a, value))
    ensures NextDisabled(a) ==> SubmitDisabled(a)
  {
  }

  /** Submitting by button needs every question answered, and answering
      the last open question enables it. */
  lemma SubmitEnabledIffAllAnswered(a: Attempt)
    ensures !SubmitDisabled(a) <==> forall i :: 0 <= i < |a.answers| ==> a.answers[i].Some?
  {
  }

  /** The question screen's progress bar, `(currentQuestion + 1) / n * 100`. */
  function Progress(a: Attempt, n: nat): (p: real)
    requires Inv(a, n)
    ensures p * n as real == 100.0 * (a.current + 1) as real
    ensures 0.0 < p <= 100.0
    ensures p == 100.0 <==> a.current == n - 1
  {
    var share := (a.current + 1) as real / n as real;
    assert share * n as real == (a.current + 1) as real;
    share * 100.0
  }

  /** The countdown shown on the question screen and whether it is drawn in
      the warning colour (under a minute left). */
  function TimerLabel(a: Attempt): (r: Option<(string, bool)>)
    ensures r.Some? <==> a.timeLeft.Some?
    ensures r.Some? && a.timeLeft.value >= 0 ==>
              GameHUD.ParseClock(r.value.0) == Some(a.timeLeft.value as nat)
    ensures r.Some? ==> (r.value.1 <==> a.timeLeft.value < 60)
  {
    match a.timeLeft
    case None => None
    case Some(t) => Some((GameHUD.FormatTime(if t >= 0 then t as nat else 0), t < 60))
  }

  // ----------------------------------------------------------- the timer

  /** The timer left alone for `k` runs of its effect. */
  function Ticks(a: Attempt, k: nat): Attempt
    decreases k
  {
    if k == 0 then a else Ticks(Tick(a), k - 1)
  }

  /** A running countdown of `t` seconds, left alone, counts down one second
      a run for `t` runs without submitting, and is auto-submitted on the
      next run; the answers given so far are what gets scored. */
  lemma {:induction false} CountdownAutoSubmits(a: Attempt, k: nat)
    requires a.timeLeft.Some? && a.timeLeft.value >= 0 && !a.showResults
    requires k <= a.timeLeft.value
    ensures Ticks(a, k) == a.(timeLeft := Some(a.timeLeft.value - k))
    ensures Ticks(a, a.timeLeft.value + 1) == Submit(a.(timeLeft := Some(0)))
    decreases a.timeLeft.value
  {
    if a.timeLeft.value > 0 {
      var b := Tick(a);
      assert b == a.(timeLeft := Some(a.timeLeft.value - 1));
      if k > 0 {
        CountdownAutoSubmits(b, k - 1);
      } else {
        CountdownAutoSubmits(b, 0);
      }
      assert Ticks(a, a.timeLeft.value + 1) == Ticks(b, b.timeLeft.value + 1);
    }
  }

  /** A quiz with a time limit is auto-submitted `60 * limit + 1` timer runs
      after it starts, with no answers given if the user does nothing. */
  lemma TimedQuizEnds(q: Quiz)
    requires TimerStart(q).Some?
    ensures Ticks(Start(q), TimerStart(q).value + 1).showResults
    ensures Ticks(Start(q), TimerStart(q).value + 1).answers == Unanswered(|q.questions|)
  {
    CountdownAutoSubmits(Start(q), 0);
  }

  /** Without a time limit the timer never submits. */
  lemma UntimedNeverSubmits(q: Quiz, k: nat)
    requires TimerStart(q).None?
    ensures Ticks(Start(q), k) == Start(q)
  {
    if k > 0 {
      UntimedNeverSubmits(q, k - 1);
    }
  }

  // --------------------------------------------------------- scoring

  /** Whether question `i` was answered with its correct option; an
      unanswered question never is. */
  predicate CorrectAt(questions: seq<QuizQuestion>, answers: seq<Option<int>>, i: nat)
    requires i < |questions|
  {
    i < |answers| && answers[i] == Some(questions[i].correctAnswer)
  }

  /** The number of questions answered correctly, counted from the end. */
  function CountCorrect(questions: seq<QuizQuestion>, answers: seq<Option<int>>, upTo: nat): (n: nat)
    requires upTo <= |questions|
    ensures n <= upTo
    decreases upTo
  {
    if upTo == 0 then 0
    else CountCorrect(questions, answers, upTo - 1) + (if CorrectAt(questions, answers, upTo - 1) then 1 else 0)
  }

  /** The correct answers as a set of question indices. */
  function CorrectSet(questions: seq<QuizQuestion>, answers: seq<Option<int>>, upTo: nat): set<nat>
    requires upTo <= |questions|
  {
    set i: nat | i < upTo && CorrectAt(questions, answers, i)
  }

  /** The count is the number of correctly answered questions. */
  lemma {:induction false} CountIsCardinality(questions: seq<QuizQuestion>, answers: seq<Option<int>>, upTo: nat)
    requires upTo <= |questions|
    ensures CountCorrect(questions, answers, upTo) == |CorrectSet(questions, answers, upTo)|
    decreases upTo
  {
    if upTo > 0 {
      CountIsCardinality(questions, answers, upTo - 1);
      var prev := CorrectSet(questions, answers, upTo - 1);
      if CorrectAt(questions, answers, upTo - 1) {
        assert CorrectSet(questions, answers, upTo) == prev + {upTo - 1};
      } else {
        assert CorrectSet(questions, answers, upTo) == prev;
      }
    }
  }

  /** A question left unanswered never counts, so a quiz submitted with no
      answers scores zero. */
  lemma {:induction false} UnansweredScoresZero(questions: seq<QuizQuestion>, n: nat, upTo: nat)
    requires upTo <= |questions|
    ensures CountCorrect(questions, Unanswered(n), upTo) == 0
    decreases upTo
  {
    if upTo > 0 {
      UnansweredScoresZero(questions, n, upTo - 1);
    }
  }

  /** Answering every question correctly counts every question. */
  lemma {:induction false} AllCorrectCountsAll(questions: seq<QuizQuestion>, answers: seq<Option<int>>, upTo: nat)
    requires upTo <= |questions| <= |answers|
    requires forall i :: 0 <= i < |questions| ==> answers[i] == Some(questions[i].correctAnswer)
    ensures CountCorrect(questions, answers, upTo) == upTo
    decreases upTo
  {
    if upTo > 0 {
      AllCorrectCountsAll(questions, answers, upTo - 1);
    }
  }

  /** The results screen's figures: the correct count, the number of
      questions and the rounded percentage. A quiz without questions has no
      percentage (`NaN` in the page) and is never passed. */
  datatype Score = Score(correct: nat, total: nat, percentage: Option<nat>)

  /** `percentage >= quiz.passingScore`. */
  predicate Passed(s: Score, passingScore: nat) {
    s.percentage.Some? && s.percentage.value >= passingScore
  }

  /** `calculateScore`: counts, question by question, the answers equal to
      the correct option. */
  method CalculateScore(questions: seq<QuizQuestion>, answers: seq<Option<int>>) returns (s: Score)
    ensures s.correct == |CorrectSet(questions, answers, |questions|)| && s.total == |questions|
    ensures s.correct <= s.total
    ensures s.total == 0 ==> s.percentage.None?
    ensures s.total > 0 ==> s.percentage == Some(Percent.RoundedPercent(s.correct, s.total)) && s.percentage.value <= 100
  {
    var correct := 0;
    var index := 0;
    while index < |questions|
      invariant 0 <= index <= |questions|
      invariant correct == CountCorrect(questions, answers, index)
    {
      if index < |answers| && answers[index] == Some(questions[index].correctAnswer) {
        correct := correct + 1;
      }
      index := index + 1;
    }
    CountIsCardinality(questions, answers, |questions|);
    if |questions| == 0 {
      s := Score(correct, 0, None);
    } else {
      Percent.PercentAtMost100(correct, |questions|);
      s := Score(correct, |questions|, Some(Percent.RoundedPercent(correct, |questions|)));
    }
  }

  /** The score of a set of answers, as `CalculateScore` computes it: the
      number of correctly answered questions out of all of them, and a
      percentage exactly when there are questions. */
  function ScoreOf(questions: seq<QuizQuestion>, answers: seq<Option<int>>): (r: Score)
    ensures r.correct == |CorrectSet(questions, answers, |questions|)| && r.total == |questions|
    ensures r.correct <= r.total
    ensures r.percentage.Some? <==> |questions| > 0
    ensures r.percentage.Some? ==> r.percentage.value == Percent.RoundedPercent(r.correct, r.total)
    ensures r.percentage.Some? ==> r.percentage.value <= 100
  {
    var c := CountCorrect(questions, answers, |questions|);
    CountIsCardinality(questions, answers, |questions|);
    if |questions| == 0 then Score(c, 0, None)
    else
      Percent.PercentAtMost100(c, |questions|);
      Score(c, |questions|, Some(Percent.RoundedPercent(c, |questions|)))
  }

  /** A quiz is passed exactly when the correct share, rounded to a whole
      percent, reaches the mark: when 200 * correct + total >= 2 * mark * total. */
  lemma PassedIffEnoughCorrect(questions: seq<QuizQuestion>, answers: seq<Option<int>>, passingScore: nat)
    ensures Passed(ScoreOf(questions, answers), passingScore) <==>
              |questions| > 0 &&
              200 * CountCorrect(questions, answers, |questions|) + |questions| >= 2 * passingScore * |questions|
  {
    if |questions| > 0 {
      Percent.PercentReaches(CountCorrect(questions, answers, |questions|), |questions|, passingScore);
    }
  }


  /** A perfect quiz scores 100% and passes any pass mark up to 100. */
  lemma PerfectPasses(questions: seq<QuizQuestion>, answers: seq<Option<int>>, passingScore: nat)
    requires 0 < |questions| <= |answers| && passingScore <= 100
    requires forall i :: 0 <= i < |questions| ==> answers[i] == Some(questions[i].correctAnswer)
    ensures ScoreOf(questions, answers).percentage == Some(100)
    ensures Passed(ScoreOf(questions, answers), passingScore)
  {
    AllCorrectCountsAll(questions, answers, |questions|);
    Percent.PercentOfExact(|questions|, |questions|, 100);
  }

  /** More correct answers never turn a pass into a fail. */
  lemma PassMonotone(c1: nat, c2: nat, total: nat, passingScore: nat)
    requires 0 < total && c1 <= c2
    requires Passed(Score(c1, total, Some(Percent.RoundedPercent(c1, total))), passingScore)
    ensures Passed(Score(c2, total, Some(Percent.RoundedPercent(c2, total))), passingScore)
  {
    Percent.PercentMonotone(c1, c2, total);
  }

  // ----------------------------------------------------------- the page

  /** The page's state fields for one quiz. */
  class QuizSession {
    const quiz: Quiz
    var currentQuestion: nat
    var answers: seq<Option<int>>
    var showResults: bool
    var timeLeft: Option<int>

    function State(): Attempt
      reads this
    {
      Attempt(currentQuestion, answers, showResults, timeLeft)
    }

    ghost predicate Valid()
      reads this
    {
      Inv(State(), |quiz.questions|)
    }

    constructor (q: Quiz)
      requires |q.questions| > 0
      ensures quiz == q && Valid() && State() == Start(q)
    {
      quiz := q;
      currentQuestion := 0;
      answers := Unanswered(|q.questions|);
      showResults := false;
      timeLeft := TimerStart(q);
    }

    method HandleAnswerSelect(value: int)
      requires Valid()
      modifies this
      ensures Valid() && State() == SelectAnswer(old(State()), value)
    {
      var newAnswers := answers;
      newAnswers := newAnswers[currentQuestion := Some(value)];
      answers := newAnswers;
    }

    method HandleNext()
      requires Valid()
      modifies this
      ensures Valid() && State() == Next(old(State()), |quiz.questions|)
    {
      if currentQuestion < |quiz.questions| - 1 {
        currentQuestion := currentQuestion + 1;
      }
    }

    method HandlePrevious()
      requires Valid()
      modifies this
      ensures Valid() && State() == Previous(old(State()))
    {
      if currentQuestion > 0 {
        currentQuestion := currentQuestion - 1;
      }
    }

    method HandleJump(index: nat)
      requires Valid() && index < |quiz.questions|
      modifies this
      ensures Valid() && State() == JumpTo(old(State()), index)
    {
      currentQuestion := index;
    }

    method HandleSubmit()
      requires Valid()
      modifies this
      ensures Valid() && State() == Submit(old(State()))
    {
      showResults := true;
    }

    /** One run of the timer effect. */
    method TimerEffect()
      requires Valid()
      modifies this
      ensures Valid() && State() == Tick(old(State()))
    {
      if timeLeft.None? || showResults {
        return;
      }
      if timeLeft.value <= 0 {
        HandleSubmit();
        return;
      }
      timeLeft := Some(timeLeft.value - 1);
    }

    method HandleRetake()
      requires Valid()
      modifies this
      ensures Valid() && State() == Retake(old(State()), quiz)
    {
      currentQuestion := 0;
      answers := Unanswered(|quiz.questions|);
      showResults := false;
      if quiz.timeLimit.Some? && quiz.timeLimit.value != 0 {
        timeLeft := Some(quiz.timeLimit.value * 60);
      }
    }

    /** `calculateScore` on the current answers, with `passed`. */
    method Results() returns (s: Score, passed: bool)
      requires Valid()
      ensures s == ScoreOf(quiz.questions, answers)
      ensures passed <==> s.percentage.value >= quiz.passingScore
    {
      s := CalculateScore(quiz.questions, answers);
      CountIsCardinality(quiz.questions, answers, |quiz.questions|);
      passed := Passed(s, quiz.passingScore);
    }
  }
}
