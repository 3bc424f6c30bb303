/** The staff member's dashboard (src/pages/StaffDashboard.tsx): the
    signed-in user's own quiz and hazard attempts, their rounded averages
    and counts, the welcome line and the recent-activity list. */
module StaffDashboard {
  import opened Types
  import opened Seqs
  import opened Percent
  import opened Text

  /** The user's own quiz attempts, `mockQuizAttempts.filter(a => a.userId === user.id)`. */
  function OwnQuizAttempts(all: seq<QuizAttempt>, userId: string): (r: seq<QuizAttempt>)
    ensures forall a :: a in r <==> a in all && a.userId == userId
  {
    Filter(all, (a: QuizAttempt) => a.userId == userId)
  }

  /** The user's own hazard attempts. */
  function OwnHazardAttempts(all: seq<HazardAttempt>, userId: string): (r: seq<HazardAttempt>)
    ensures forall a :: a in r <==> a in all && a.userId == userId
  {
    Filter(all, (a: HazardAttempt) => a.userId == userId)
  }

  /** The own-attempt lists keep the order of the full lists. */
  lemma OwnAttemptsKeepOrder(quizzes: seq<QuizAttempt>, hazards: seq<HazardAttempt>, userId: string)
    ensures IsSubsequence(OwnQuizAttempts(quizzes, userId), quizzes)
    ensures IsSubsequence(OwnHazardAttempts(hazards, userId), hazards)
  {
    FilterIsSubsequence(quizzes, (a: QuizAttempt) => a.userId == userId);
    FilterIsSubsequence(hazards, (a: HazardAttempt) => a.userId == userId);
  }

  function Percentages(attempts: seq<QuizAttempt>): (r: seq<nat>)
    ensures |r| == |attempts|
    ensures forall i :: 0 <= i < |attempts| ==> r[i] == attempts[i].percentage
  {
    seq(|attempts|, i requires 0 <= i < |attempts| => attempts[i].percentage)
  }

  function AccuracyScores(attempts: seq<HazardAttempt>): (r: seq<nat>)
    ensures |r| == |attempts|
    ensures forall i :: 0 <= i < |attempts| ==> r[i] == attempts[i].accuracyScore
  {
    seq(|attempts|, i requires 0 <= i < |attempts| => attempts[i].accuracyScore)
  }

  /** `length > 0 ? Math.round(sum / length) : 0`. */
  function Average(values: seq<nat>): (r: nat)
    ensures values == [] ==> r == 0
    ensures values != [] ==> 2 * |values| * r <= 2 * Sum(values) + |values| < 2 * |values| * (r + 1)
  {
    if values == [] then 0 else RoundRatio(Sum(values), |values|)
  }

  /** A non-empty average lies between the smallest and the largest value. */
  lemma AverageWithinRange(values: seq<nat>)
    requires values != []
    ensures MinOf(values) <= Average(values) <= MaxOf(values)
  {
    SumBetween(values, MinOf(values), MaxOf(values));
    RoundRatioBetween(Sum(values), |values|, MinOf(values), MaxOf(values));
  }

  /** Averages of percentages are percentages. */
  lemma AverageAtMost100(values: seq<nat>)
    requires forall i :: 0 <= i < |values| ==> values[i] <= 100
    ensures Average(values) <= 100
  {
    if values != [] {
      AverageWithinRange(values);
    }
  }

  /** When every value is the same, the average is that value. */
  lemma AverageOfEqualValues(values: seq<nat>, v: nat)
    requires values != []
    requires forall i :: 0 <= i < |values| ==> values[i] == v
    ensures Average(values) == v
  {
    SumBetween(values, v, v);
    RoundRatioBetween(Sum(values), |values|, v, v);
  }

  /** What the dashboard shows. */
  datatype View = View(
    welcomeName: string,
    quizAttempts: seq<QuizAttempt>,
    hazardAttempts: seq<HazardAttempt>,
    avgQuizScore: nat,
    avgHazardAccuracy: nat,
    completedScenes: nat,
    completedQuizzes: nat,
    recent: seq<QuizAttempt>,
    showEmptyMessage: bool)

  /** The page for the signed-in user, or nothing without one. */
  function Dashboard(user: Option<User>, quizzes: seq<QuizAttempt>, hazards: seq<HazardAttempt>): (r: Option<View>)
    ensures r.None? <==> user.None?
    ensures r.Some? ==>
      && r.value.quizAttempts == OwnQuizAttempts(quizzes, user.value.id)
      && r.value.hazardAttempts == OwnHazardAttempts(hazards, user.value.id)
      && r.value.completedQuizzes == |r.value.quizAttempts|
      && r.value.completedScenes == |r.value.hazardAttempts|
      && r.value.welcomeName == FirstWord(user.value.name)
      && r.value.avgQuizScore == Average(Percentages(r.value.quizAttempts))
      && r.value.avgHazardAccuracy == Average(AccuracyScores(r.value.hazardAttempts))
  {
    if user.None? then None
    else
      var u := user.value;
      var ownQuizzes := OwnQuizAttempts(quizzes, u.id);
      var ownHazards := OwnHazardAttempts(hazards, u.id);
      Some(View(
        FirstWord(u.name),
        ownQuizzes,
        ownHazards,
        Average(Percentages(ownQuizzes)),
        Average(AccuracyScores(ownHazards)),
        |ownHazards|,
        |ownQuizzes|,
        ownQuizzes[..if |ownQuizzes| < 3 then |ownQuizzes| else 3],
        |ownQuizzes| == 0 && |ownHazards| == 0))
  }

  /** Both averages are 0 without attempts and otherwise lie between the
      user's worst and best result. */
  lemma AveragesWithinResults(user: User, quizzes: seq<QuizAttempt>, hazards: seq<HazardAttempt>)
    ensures var v := Dashboard(Some(user), quizzes, hazards).value;
      && (v.quizAttempts == [] ==> v.avgQuizScore == 0)
      && (v.quizAttempts != [] ==>
            MinOf(Percentages(v.quizAttempts)) <= v.avgQuizScore <= MaxOf(Percentages(v.quizAttempts)))
      && (v.hazardAttempts == [] ==> v.avgHazardAccuracy == 0)
      && (v.hazardAttempts != [] ==>
            MinOf(AccuracyScores(v.hazardAttempts)) <= v.avgHazardAccuracy <= MaxOf(AccuracyScores(v.hazardAttempts)))
  {
    var v := Dashboard(Some(user), quizzes, hazards).value;
    if v.quizAttempts != [] {
      AverageWithinRange(Percentages(v.quizAttempts));
    }
    if v.hazardAttempts != [] {
      AverageWithinRange(AccuracyScores(v.hazardAttempts));
    }
  }

  /** Recent activity lists the user's first (at most three) quiz attempts in
      order, and the empty message shows exactly when the user has no
      attempt of either kind. */
  lemma RecentActivity(user: User, quizzes: seq<QuizAttempt>, hazards: seq<HazardAttempt>)
    ensures var v := Dashboard(Some(user), quizzes, hazards).value;
      && |v.recent| <= 3
      && v.recent <= v.quizAttempts
      && (|v.quizAttempts| >= 3 ==> |v.recent| == 3)
      && (|v.quizAttempts| < 3 ==> v.recent == v.quizAttempts)
      && (v.showEmptyMessage <==> (forall a :: a in quizzes ==> a.userId != user.id) &&
                                  (forall a :: a in hazards ==> a.userId != user.id))
  {
    var v := Dashboard(Some(user), quizzes, hazards).value;
    if !v.showEmptyMessage {
      if v.quizAttempts != [] {
        assert v.quizAttempts[0] in v.quizAttempts;
      } else {
        assert v.hazardAttempts[0] in v.hazardAttempts;
      }
    }
  }
}
