/** The grading shown when a hazard hunt ends (src/components/scene/GameResults.tsx):
    accuracy, time bonus, total score, letter grade, stars and the per-hazard
    breakdown, all pure functions of the component's inputs. */
module GameResults {
  import opened Types
  import opened Percent

  /** `Math.round(identifiedHazards.length / hazards.length * 100)`. */
  function Accuracy(identifiedCount: nat, hazardCount: nat): (r: nat)
    requires hazardCount > 0
    ensures 2 * hazardCount * r <= 200 * identifiedCount + hazardCount < 2 * hazardCount * (r + 1)
    ensures identifiedCount <= hazardCount ==> r <= 100
    ensures identifiedCount <= hazardCount < 200 ==> (r == 100 <==> identifiedCount == hazardCount)
  {
    var r := RoundedPercent(identifiedCount, hazardCount);
    assert identifiedCount <= hazardCount ==> r <= 100 by {
      if identifiedCount <= hazardCount { PercentAtMost100(identifiedCount, hazardCount); }
    }
    assert identifiedCount <= hazardCount < 200 ==> (r == 100 <==> identifiedCount == hazardCount) by {
      if identifiedCount <= hazardCount < 200 { PercentIs100Iff(identifiedCount, hazardCount); }
    }
    r
  }

  /** `Math.round(timeRemaining / totalTime * 100)`: the share of the time
      budget left, in whole percent. */
  function TimeBonus(timeRemaining: nat, totalTime: nat): (r: nat)
    requires totalTime > 0
    ensures timeRemaining <= totalTime ==> r <= 100
    ensures 2 * totalTime * r <= 200 * timeRemaining + totalTime < 2 * totalTime * (r + 1)
  {
    var r := RoundedPercent(timeRemaining, totalTime);
    assert timeRemaining <= totalTime ==> r <= 100 by {
      if timeRemaining <= totalTime { PercentAtMost100(timeRemaining, totalTime); }
    }
    r
  }

  /** `score + Math.round(timeBonus * 2)`; the bonus is already whole, so the
      rounding is exact. */
  function TotalScore(score: int, timeBonus: nat): (r: int)
    ensures r >= score
    ensures r - score == 2 * timeBonus
  {
    score + 2 * timeBonus
  }

  datatype Grade = S | A | B | C | D

  /** Position of a grade in the order D < C < B < A < S. */
  function Rank(g: Grade): nat {
    match g
    case D => 0
    case C => 1
    case B => 2
    case A => 3
    case S => 4
  }

  /** `getGrade`: S needs full accuracy and at least half the time left;
      otherwise the accuracy cut-offs are 90, 75 and 60. */
  function GradeFor(accuracy: int, timeBonus: int): (g: Grade)
    ensures g == S <==> accuracy >= 100 && timeBonus >= 50
    ensures accuracy >= 100 && timeBonus < 50 ==> g == A
    ensures g == D <==> accuracy < 60
    ensures Rank(g) >= 3 <==> accuracy >= 90
    ensures Rank(g) >= 2 <==> accuracy >= 75
  {
    if accuracy >= 100 && timeBonus >= 50 then S
    else if accuracy >= 90 then A
    else if accuracy >= 75 then B
    else if accuracy >= 60 then C
    else D
  }

  /** For a fixed time bonus, a higher accuracy never gives a lower grade. */
  lemma GradeMonotoneInAccuracy(a1: int, a2: int, timeBonus: int)
    requires a1 <= a2
    ensures Rank(GradeFor(a1, timeBonus)) <= Rank(GradeFor(a2, timeBonus))
  {
  }

  /** For a fixed accuracy, a higher time bonus never gives a lower grade. */
  lemma GradeMonotoneInTimeBonus(accuracy: int, t1: int, t2: int)
    requires t1 <= t2
    ensures Rank(GradeFor(accuracy, t1)) <= Rank(GradeFor(accuracy, t2))
  {
  }

  /** `stars`: 3 at full accuracy, 2 from 75, 1 from 50, else 0. */
  function Stars(accuracy: int): (r: nat)
    ensures r <= 3
    ensures r == 3 <==> accuracy >= 100
    ensures r >= 2 <==> accuracy >= 75
    ensures r >= 1 <==> accuracy >= 50
  {
    if accuracy >= 100 then 3 else if accuracy >= 75 then 2 else if accuracy >= 50 then 1 else 0
  }

  /** Stars never decrease as accuracy rises. */
  lemma StarsMonotone(a1: int, a2: int)
    requires a1 <= a2
    ensures Stars(a1) <= Stars(a2)
  {
  }

  /** One line of the hazard breakdown: the hazard and whether it was found. */
  datatype BreakdownRow = BreakdownRow(hazard: Hazard, found: bool)

  /** The hazard breakdown: one row per hazard, in scene order, marked found
      exactly when its id is among the identified ids. */
  function Breakdown(hazards: seq<Hazard>, identified: seq<string>): (rows: seq<BreakdownRow>)
    ensures |rows| == |hazards|
    ensures forall i :: 0 <= i < |rows| ==>
              rows[i].hazard == hazards[i] && (rows[i].found <==> hazards[i].id in identified)
  {
    if hazards == [] then []
    else [BreakdownRow(hazards[0], hazards[0].id in identified)] + Breakdown(hazards[1..], identified)
  }

  /** What the results screen shows. */
  datatype Results = Results(
    accuracy: nat,
    timeBonus: nat,
    totalScore: int,
    grade: Grade,
    stars: nat,
    breakdown: seq<BreakdownRow>)

  /** The whole results screen from the component's inputs. */
  function ResultsFor(hazards: seq<Hazard>, identified: seq<string>, timeRemaining: nat,
                      totalTime: nat, score: int): (r: Results)
    requires |hazards| > 0 && totalTime > 0
    ensures r.accuracy == Accuracy(|identified|, |hazards|)
    ensures r.timeBonus == TimeBonus(timeRemaining, totalTime)
    ensures r.totalScore == score + 2 * r.timeBonus
    ensures r.grade == GradeFor(r.accuracy, r.timeBonus) && r.stars == Stars(r.accuracy)
    ensures r.breakdown == Breakdown(hazards, identified)
    ensures |identified| <= |hazards| ==> r.accuracy <= 100 && r.stars <= 3
    ensures r.grade == S ==> r.stars == 3
  {
    var accuracy := Accuracy(|identified|, |hazards|);
    var bonus := TimeBonus(timeRemaining, totalTime);
    Results(accuracy, bonus, TotalScore(score, bonus), GradeFor(accuracy, bonus),
            Stars(accuracy), Breakdown(hazards, identified))
  }

  /** A scene of four hazards, all found, with 60% of the time left: grade S,
      three stars and a bonus of 120 points. */
  lemma AllFoundWithSixtyPercentLeft(hazards: seq<Hazard>, identified: seq<string>,
                                     timeRemaining: nat, totalTime: nat, score: int)
    requires |hazards| == 4 && |identified| == 4
    requires totalTime > 0 && 5 * timeRemaining == 3 * totalTime
    ensures ResultsFor(hazards, identified, timeRemaining, totalTime, score).timeBonus == 60
    ensures ResultsFor(hazards, identified, timeRemaining, totalTime, score).accuracy == 100
    ensures ResultsFor(hazards, identified, timeRemaining, totalTime, score).grade == S
    ensures ResultsFor(hazards, identified, timeRemaining, totalTime, score).stars == 3
    ensures ResultsFor(hazards, identified, timeRemaining, totalTime, score).totalScore == score + 120
  {
    PercentOfExact(timeRemaining, totalTime, 60);
    PercentOfExact(4, 4, 100);
  }
}
