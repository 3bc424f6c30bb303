/** The list of quizzes (src/pages/QuizzesPage.tsx): for each quiz, the
    signed-in user's best score, the "Passed" badge, the best-score panel and
    the label of the button that opens the quiz. */
module QuizzesPage {
  import opened Types
  import opened Seqs

  /** The attempts counted for one quiz card. */
  predicate Matching(a: QuizAttempt, quizId: string, userId: string) {
    a.quizId == quizId && a.userId == userId
  }

  function MatchingPercentages(attempts: seq<QuizAttempt>, quizId: string, userId: string): (r: seq<nat>)
    ensures forall p :: p in r <==> exists a :: a in attempts && Matching(a, quizId, userId) && a.percentage == p
  {
    if attempts == [] then []
    else
      var rest := MatchingPercentages(attempts[1..], quizId, userId);
      assert forall a :: a in attempts[1..] ==> a in attempts;
      assert forall a :: a in attempts ==> a == attempts[0] || a in attempts[1..];
      (if Matching(attempts[0], quizId, userId) then [attempts[0].percentage] else []) + rest
  }

  /** `getUserBestScore(quizId)`: null without a user or without a matching
      attempt, otherwise `Math.max` of the matching attempts' percentages. */
  function BestScore(user: Option<User>, attempts: seq<QuizAttempt>, quizId: string): (r: Option<nat>)
    ensures r.None? <==>
      user.None? || forall a :: a in attempts ==> !Matching(a, quizId, user.value.id)
    ensures r.Some? ==>
      && (exists a :: a in attempts && Matching(a, quizId, user.value.id) && a.percentage == r.value)
      && (forall a :: a in attempts && Matching(a, quizId, user.value.id) ==> a.percentage <= r.value)
  {
    if user.None? then None
    else
      var ps := MatchingPercentages(attempts, quizId, user.value.id);
      if ps == [] then
        assert forall a :: a in attempts && Matching(a, quizId, user.value.id) ==> a.percentage in ps;
        None
      else
        var m := MaxOf(ps);
        assert forall a :: a in attempts && Matching(a, quizId, user.value.id) ==> a.percentage in ps;
        Some(m)
  }

  /** What a quiz card shows. */
  datatype Card = Card(bestScore: Option<nat>, hasPassed: bool, showBestPanel: bool, buttonLabel: string)

  const StartLabel := "Start Quiz"
  const RetakeLabel := "Retake Quiz"

  /** The card of one quiz for the signed-in user (or nobody). */
  function QuizCard(user: Option<User>, attempts: seq<QuizAttempt>, quiz: Quiz): (c: Card)
    ensures c.bestScore == BestScore(user, attempts, quiz.id)
    ensures c.hasPassed <==> c.bestScore.Some? && c.bestScore.value >= quiz.passingScore
    ensures c.showBestPanel <==> c.bestScore.Some?
    ensures c.buttonLabel == RetakeLabel <==> c.bestScore.Some?
    ensures c.buttonLabel in {StartLabel, RetakeLabel}
  {
    var best := BestScore(user, attempts, quiz.id);
    Card(
      best,
      best.Some? && best.value >= quiz.passingScore,
      best.Some?,
      if best.Some? then RetakeLabel else StartLabel)
  }

  /** The badge says "Passed" exactly when some attempt of this user on this
      quiz reached the pass mark. */
  lemma PassedIffSomeAttemptPassed(user: User, attempts: seq<QuizAttempt>, quiz: Quiz)
    ensures QuizCard(Some(user), attempts, quiz).hasPassed <==>
      exists a :: a in attempts && Matching(a, quiz.id, user.id) && a.percentage >= quiz.passingScore
  {
  }

  /** A new attempt on the quiz never lowers the best score. */
  lemma BestScoreNeverDrops(user: User, attempts: seq<QuizAttempt>, extra: QuizAttempt, quizId: string)
    requires BestScore(Some(user), attempts, quizId).Some?
    ensures BestScore(Some(user), attempts + [extra], quizId).Some?
    ensures BestScore(Some(user), attempts, quizId).value <= BestScore(Some(user), attempts + [extra], quizId).value
  {
    var best0 := BestScore(Some(user), attempts, quizId).value;
    var a :| a in attempts && Matching(a, quizId, user.id) && a.percentage == best0;
    assert a in attempts + [extra];
  }
}
