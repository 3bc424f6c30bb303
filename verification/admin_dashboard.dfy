/** The administrator's overview (src/pages/AdminDashboard.tsx): the
    per-user chart data, the passed/failed split of all quiz attempts with
    its pass rate, and the colour bands and trend arrows of the staff
    performance table. */
module AdminDashboard {
  import opened Types
  import opened Seqs
  import opened Percent
  import opened Text

  /** One bar group of the performance chart. */
  datatype ChartRow = ChartRow(name: string, quizScore: nat, hazardAccuracy: nat)

  /** `performanceData`: one row per performance record, named by the first
      word of the user's name. */
  function PerformanceData(perf: seq<UserPerformance>): (r: seq<ChartRow>)
    ensures |r| == |perf|
    ensures forall i :: 0 <= i < |perf| ==>
      && r[i].name == FirstWord(perf[i].userName)
      && r[i].quizScore == perf[i].averageQuizScore && r[i].hazardAccuracy == perf[i].averageHazardAccuracy
  {
    seq(|perf|, i requires 0 <= i < |perf| =>
      ChartRow(FirstWord(perf[i].userName), perf[i].averageQuizScore, perf[i].averageHazardAccuracy))
  }

  /** Each chart label is the user's name up to its first space: a prefix of
      the name that holds no space and is followed by a space unless it is
      the whole name. */
  lemma ChartNamesAreFirstWords(perf: seq<UserPerformance>)
    ensures forall i :: 0 <= i < |perf| ==>
      && PerformanceData(perf)[i].name <= perf[i].userName
      && ' ' !in PerformanceData(perf)[i].name
      && (|PerformanceData(perf)[i].name| < |perf[i].userName| ==>
            perf[i].userName[|PerformanceData(perf)[i].name|] == ' ')
      && (' ' !in perf[i].userName ==> PerformanceData(perf)[i].name == perf[i].userName)
  {
  }

  predicate IsPassed(a: QuizAttempt) {
    a.passed
  }

  /** The "Passed" slice of the results pie, `filter(a => a.passed).length`:
      the number of attempts that passed; empty exactly when no attempt
      passed, the whole pie exactly when all did. */
  function PassedCount(attempts: seq<QuizAttempt>): (r: nat)
    ensures r == |set i: nat | i < |attempts| && attempts[i].passed|
    ensures r == 0 <==> forall a :: a in attempts ==> !a.passed
    ensures r == |attempts| <==> forall a :: a in attempts ==> a.passed
  {
    assert Positions(attempts, IsPassed) == set i: nat | i < |attempts| && attempts[i].passed;
    Count(attempts, IsPassed)
  }

  /** The "Failed" slice, `filter(a => !a.passed).length`: the number of
      attempts that failed; empty exactly when every attempt passed, the
      whole pie exactly when none did. */
  function FailedCount(attempts: seq<QuizAttempt>): (r: nat)
    ensures r == |set i: nat | i < |attempts| && !attempts[i].passed|
    ensures r == 0 <==> forall a :: a in attempts ==> a.passed
    ensures r == |attempts| <==> forall a :: a in attempts ==> !a.passed
  {
    var failed := (a: QuizAttempt) => !IsPassed(a);
    assert Positions(attempts, failed) == set i: nat | i < |attempts| && !attempts[i].passed;
    Count(attempts, failed)
  }

  /** Every attempt falls in exactly one slice. */
  lemma SlicesCoverAttempts(attempts: seq<QuizAttempt>)
    ensures PassedCount(attempts) + FailedCount(attempts) == |attempts|
  {
    CountSplits(attempts, IsPassed, (a: QuizAttempt) => !IsPassed(a));
  }

  /** The pass rate in the middle of the pie, `Math.round(passed / (passed +
      failed) * 100)`; with no attempt at all the page divides 0 by 0 and
      shows NaN, modelled as None. */
  function PassRate(attempts: seq<QuizAttempt>): (r: Option<nat>)
    ensures r.None? <==> attempts == []
    ensures r.Some? ==> 2 * |attempts| * r.value <= 200 * PassedCount(attempts) + |attempts|
                                                 < 2 * |attempts| * (r.value + 1)
  {
    SlicesCoverAttempts(attempts);
    var passed, failed := PassedCount(attempts), FailedCount(attempts);
    if passed + failed == 0 then None else Some(RoundedPercent(passed, passed + failed))
  }

  /** The pass rate is a percentage; it is 100 when every attempt passed and
      0 when none did. */
  lemma PassRateBounds(attempts: seq<QuizAttempt>)
    requires attempts != []
    ensures PassRate(attempts).value <= 100
    ensures (forall a :: a in attempts ==> a.passed) ==> PassRate(attempts).value == 100
    ensures (forall a :: a in attempts ==> !a.passed) ==> PassRate(attempts).value == 0
  {
    SlicesCoverAttempts(attempts);
    var passed, total := PassedCount(attempts), |attempts|;
    assert PassRate(attempts) == Some(RoundedPercent(passed, total));
    RateOfCounts(passed, total);
  }

  /** The rounded share of `passed` in `total` attempts. */
  lemma RateOfCounts(passed: nat, total: nat)
    requires 0 < total && passed <= total
    ensures RoundedPercent(passed, total) <= 100
    ensures passed == total ==> RoundedPercent(passed, total) == 100
    ensures passed == 0 ==> RoundedPercent(passed, total) == 0
  {
    PercentAtMost100(passed, total);
    if passed == total {
      PercentOfExact(passed, total, 100);
    }
    if passed == 0 {
      PercentOfExact(passed, total, 0);
    }
  }

  /** The colour of a score in the performance table. */
  datatype Band = Success | Warning | Destructive

  function ScoreBand(score: nat): (b: Band)
    ensures b == Success <==> score >= 80
    ensures b == Warning <==> 60 <= score < 80
    ensures b == Destructive <==> score < 60
  {
    if score >= 80 then Success else if score >= 60 then Warning else Destructive
  }

  /** A better score never gets a worse band. */
  function BandRank(b: Band): nat {
    match b
    case Destructive => 0
    case Warning => 1
    case Success => 2
  }

  lemma BandMonotone(s1: nat, s2: nat)
    requires s1 <= s2
    ensures BandRank(ScoreBand(s1)) <= BandRank(ScoreBand(s2))
  {
  }

  /** The arrow on a trend badge, and the badge's colour. */
  datatype Arrow = Up | Down | NoArrow

  function TrendArrow(t: Trend): (a: Arrow)
    ensures a == Up <==> t == Improving
    ensures a == Down <==> t == Declining
  {
    match t
    case Improving => Up
    case Declining => Down
    case Stable => NoArrow
  }

  datatype BadgeColor = SuccessBadge | MutedBadge | DestructiveBadge

  function TrendColor(t: Trend): (c: BadgeColor)
    ensures c == SuccessBadge <==> t == Improving
    ensures c == MutedBadge <==> t == Stable
  {
    if t == Improving then SuccessBadge else if t == Stable then MutedBadge else DestructiveBadge
  }

  /** The badge's arrow and colour agree: green goes up, red goes down and
      grey has no arrow. */
  lemma TrendBadgeConsistent(t: Trend)
    ensures TrendArrow(t) == Up <==> TrendColor(t) == SuccessBadge
    ensures TrendArrow(t) == Down <==> TrendColor(t) == DestructiveBadge
    ensures TrendArrow(t) == NoArrow <==> TrendColor(t) == MutedBadge
  {
  }
}
