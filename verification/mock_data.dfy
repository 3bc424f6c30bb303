/** The application's built-in catalog (src/data/mockData.ts): the users,
    the three training scenes with their hazards, the two quizzes, the
    stored quiz and hazard attempts, the dashboard statistics and the
    per-user performance records, together with the facts the pages rely
    on when they compute with them. */
module MockData {
  import opened Types
  import opened Seqs
  import opened Percent
  import RealisticHazards
  import QuizAttemptPage
  import StaffDashboard
  import QuizzesPage
  import AdminDashboard
  import Text
  import SceneViewer

  // ------------------------------------------------------------- users

  const Users: seq<User> := [
    User("1", "John Martinez", "john.martinez@warehouse.com", Staff, Active, Some("Receiving")),
    User("2", "Sarah Chen", "sarah.chen@warehouse.com", Staff, Active, Some("Shipping")),
    User("3", "Mike Johnson", "mike.johnson@warehouse.com", Admin, Active, Some("Safety")),
    User("4", "Emily Rodriguez", "emily.rodriguez@warehouse.com", Staff, Active, Some("Inventory")),
    User("5", "David Kim", "david.kim@warehouse.com", Staff, Inactive, Some("Receiving"))
  ]

  // ----------------------------------------------------------- hazards

  const StorageHazards: seq<Hazard> := [
    Hazard("h1", -6.0, 0.02, 3.0, "spill", "Oil spill on floor - slip hazard", High, Some(1.5)),
    Hazard("h2", 4.0, 2.5, -8.0, "stacking", "Unstable pallet stacking - falling hazard", Critical, Some(1.0)),
    Hazard("h3", -10.0, 1.5, 0.0, "exit", "Blocked emergency exit with boxes", Critical, Some(1.0)),
    Hazard("h4", 8.0, 0.3, 5.0, "equipment", "Damaged forklift with flat tire", Medium, Some(1.2))
  ]

  const LoadingHazards: seq<Hazard> := [
    Hazard("h5", -5.0, 0.02, 6.0, "spill", "Water puddle from leaking dock door", Medium, Some(2.0)),
    Hazard("h6", 6.0, 0.0, -4.0, "electrical", "Exposed electrical wiring", Critical, Some(0.5)),
    Hazard("h7", 0.0, 3.0, 8.0, "lighting", "Broken overhead light - dim work area", Low, Some(1.0)),
    Hazard("h8", -8.0, 1.0, -6.0, "ppe", "Missing safety signage at dock edge", Medium, Some(1.0))
  ]

  const ChemicalHazards: seq<Hazard> := [
    Hazard("h9", -4.0, 0.02, -5.0, "chemical", "Leaking chemical drum - green liquid", Critical, Some(1.8)),
    Hazard("h10", 5.0, 1.2, -3.0, "fire", "Fire extinguisher blocked by barrels", High, Some(1.0)),
    Hazard("h11", 0.0, 0.0, 4.0, "ppe", "Safety shower obstructed", High, Some(1.0)),
    Hazard("h12", -7.0, 1.5, 2.0, "stacking", "Improperly stacked chemical containers", Critical, Some(1.0)),
    Hazard("h13", 8.0, 0.5, 0.0, "electrical", "Damaged electrical panel cover", High, Some(0.8)),
    Hazard("h14", 3.0, 2.8, -7.0, "lighting", "Flickering emergency light", Medium, Some(0.6))
  ]

  /** Every hazard of the catalog, scene by scene. */
  function AllHazards(): seq<Hazard> {
    StorageHazards + LoadingHazards + ChemicalHazards
  }

  const Scenes: seq<Scene> := [
    Scene("scene1", "Main Storage Area", "Identify hazards in the primary warehouse storage zone",
          StorageHazards, 10, Beginner),
    Scene("scene2", "Loading Dock", "Safety assessment of the shipping and receiving area",
          LoadingHazards, 15, Intermediate),
    Scene("scene3", "Chemical Storage", "Hazardous materials handling zone inspection",
          ChemicalHazards, 20, Advanced)
  ]

  // ----------------------------------------------------------- quizzes

  const Quiz1Questions: seq<QuizQuestion> := [
    QuizQuestion("q1", "What should you do first when you discover a chemical spill?",
      ["Clean it up immediately", "Alert nearby workers and evacuate the area",
       "Continue working and report it later", "Take a photo for documentation"],
      1, Some("Safety first! Alert others and evacuate before any cleanup attempts."), "Emergency Response"),
    QuizQuestion("q2", "What is the maximum height for manual lifting without assistance?",
      ["Above shoulder height", "Above head height", "Waist to shoulder", "Any height"],
      2, Some("Manual lifting should be done between waist and shoulder height to prevent injuries."), "Manual Handling"),
    QuizQuestion("q3", "How often should fire extinguishers be inspected?",
      ["Monthly", "Quarterly", "Annually", "Only when used"],
      0, Some("Monthly visual inspections ensure fire extinguishers are ready for use."), "Fire Safety"),
    QuizQuestion("q4", "What is the primary purpose of PPE?",
      ["To look professional", "To protect against workplace hazards",
       "To identify employees", "For comfort while working"],
      1, Some("PPE is designed to protect workers from workplace hazards and reduce injury risk."), "PPE"),
    QuizQuestion("q5", "When operating a forklift, you should:",
      ["Drive as fast as possible to save time", "Always honk when turning corners",
       "Text while driving if needed", "Carry passengers on the forks"],
      1, Some("Honking at corners alerts pedestrians and other operators of your presence."), "Equipment Safety")
  ]

  const Quiz2Questions: seq<QuizQuestion> := [
    QuizQuestion("q6", "Which hazard classification requires immediate evacuation?",
      ["Low risk", "Medium risk", "High risk", "Critical/Imminent danger"],
      3, Some("Critical hazards with imminent danger require immediate evacuation."), "Risk Assessment"),
    QuizQuestion("q7", "What color are warning signs typically?",
      ["Red and white", "Yellow and black", "Blue and white", "Green and white"],
      1, Some("Yellow and black is the standard color combination for warning signs."), "Safety Signage")
  ]

  const Quiz1: Quiz := Quiz("quiz1", "Warehouse Safety Fundamentals",
    "Basic safety protocols and emergency procedures", Quiz1Questions, Some(15), 70)

  const Quiz2: Quiz := Quiz("quiz2", "Hazard Identification",
    "Advanced hazard recognition and risk assessment", Quiz2Questions, Some(20), 80)

  const Quizzes: seq<Quiz> := [Quiz1, Quiz2]

  // ---------------------------------------------------------- attempts

  const QuizAttempts: seq<QuizAttempt> := [
    QuizAttempt("qa1", "1", "quiz1", [1, 2, 0, 1, 1], 5, 100, true, 480),
    QuizAttempt("qa2", "2", "quiz1", [1, 0, 0, 1, 0], 3, 60, false, 600),
    QuizAttempt("qa3", "4", "quiz1", [1, 2, 0, 1, 1], 5, 100, true, 420)
  ]

  const HazardAttempts: seq<HazardAttempt> := [
    HazardAttempt("ha1", "scene1", "1", ["h1", "h2", "h3"], 3, 4, 75),
    HazardAttempt("ha2", "scene1", "2", ["h1", "h2", "h3", "h4"], 4, 4, 100)
  ]

  const Stats: DashboardStats := DashboardStats(5, 4, 86.7, 87.5, 12, 3)

  const Performance: seq<UserPerformance> := [
    UserPerformance("1", "John Martinez", 3, 92, 2, 85, Improving),
    UserPerformance("2", "Sarah Chen", 2, 75, 3, 90, Stable),
    UserPerformance("4", "Emily Rodriguez", 4, 88, 2, 82, Improving)
  ]

  // ------------------------------------------------------- the hazards

  /** The fourteen hazard ids h1 to h14 are all different, across scenes. */
  lemma HazardIdsUnique()
    ensures |AllHazards()| == 14
    ensures forall i, j :: 0 <= i < j < |AllHazards()| ==> AllHazards()[i].id != AllHazards()[j].id
  {
  }

  /** Every hazard's type is one the renderer draws with its own prop, and
      the prop is the one that type names. */
  lemma HazardKindsKnown()
    ensures forall h :: h in AllHazards() ==> RealisticHazards.KnownKind(h.kind)
    ensures forall h :: h in AllHazards() ==>
      RealisticHazards.KindName(RealisticHazards.VignetteFor(h.kind)) == h.kind
  {
    forall h | h in AllHazards()
      ensures RealisticHazards.KnownKind(h.kind)
      ensures RealisticHazards.KindName(RealisticHazards.VignetteFor(h.kind)) == h.kind
    {
      assert h in StorageHazards || h in LoadingHazards || h in ChemicalHazards;
      KnownKindDrawn(h.kind);
    }
  }

  /** A recognised type is drawn with the prop of that name. */
  lemma KnownKindDrawn(kind: string)
    requires kind in {"spill", "stacking", "exit", "equipment", "lighting", "ppe", "fire", "electrical", "chemical"}
    ensures RealisticHazards.KnownKind(kind)
    ensures RealisticHazards.KindName(RealisticHazards.VignetteFor(kind)) == kind
  {
  }

  /** Every scene has hazards and a positive duration, so the accuracy and
      time-bonus divisions never divide by zero. */
  lemma ScenesNonEmpty()
    ensures |Scenes| == 3
    ensures forall s :: s in Scenes ==> |s.hazards| > 0 && s.duration > 0
  {
  }

  // ------------------------------------------------------- the quizzes

  /** Every question's correct answer indexes one of its options. */
  lemma CorrectAnswersInRange()
    ensures forall q :: q in Quizzes ==> |q.questions| > 0
    ensures forall q, k :: q in Quizzes && 0 <= k < |q.questions| ==>
      0 <= q.questions[k].correctAnswer < |q.questions[k].options|
  {
  }

  /** quiz1's key is 1, 2, 0, 1, 1 and its pass mark is 70%. */
  lemma Quiz1Key()
    ensures |Quiz1.questions| == 5 && Quiz1.passingScore == 70
    ensures forall k :: 0 <= k < 5 ==> Quiz1.questions[k].correctAnswer == [1, 2, 0, 1, 1][k]
  {
  }

  /** A stored answer list as the quiz page holds it. */
  function AsAnswers(answers: seq<int>): (r: seq<Option<int>>)
    ensures |r| == |answers|
    ensures forall i :: 0 <= i < |answers| ==> r[i] == Some(answers[i])
  {
    seq(|answers|, i requires 0 <= i < |answers| => Some(answers[i]))
  }

  /** A stored attempt is what the quiz page would have recorded: its score
      is the number of correct answers, its percentage the rounded share of
      the questions, and it passed exactly when that share reaches the pass
      mark. */
  predicate Consistent(a: QuizAttempt, q: Quiz) {
    var s := QuizAttemptPage.ScoreOf(q.questions, AsAnswers(a.answers));
    && a.quizId == q.id
    && s.correct == a.score
    && s.percentage == Some(a.percentage)
    && (a.passed <==> QuizAttemptPage.Passed(s, q.passingScore))
  }

  lemma FirstAttemptConsistent()
    ensures Consistent(QuizAttempts[0], Quiz1)
    ensures QuizAttempts[0].percentage == 100
  {
    var answers := AsAnswers(QuizAttempts[0].answers);
    QuizAttemptPage.AllCorrectCountsAll(Quiz1Questions, answers, 5);
    PercentOfExact(5, 5, 100);
  }

  lemma SecondAttemptConsistent()
    ensures Consistent(QuizAttempts[1], Quiz1)
    ensures QuizAttempts[1].percentage == 60
  {
    var answers := AsAnswers(QuizAttempts[1].answers);
    assert QuizAttemptPage.CountCorrect(Quiz1Questions, answers, 5) == 3 by {
      assert answers == [Some(1), Some(0), Some(0), Some(1), Some(0)];
    }
    PercentOfExact(3, 5, 60);
  }

  lemma ThirdAttemptConsistent()
    ensures Consistent(QuizAttempts[2], Quiz1)
    ensures QuizAttempts[2].percentage == 100
  {
    var answers := AsAnswers(QuizAttempts[2].answers);
    QuizAttemptPage.AllCorrectCountsAll(Quiz1Questions, answers, 5);
    PercentOfExact(5, 5, 100);
  }

  // ------------------------------------------------ the hazard attempts

  /** A stored hazard attempt of scene1 names only scene1 hazards, each
      once; its count is the number of names, its total the scene's size
      and its score the rounded share. */
  predicate HazardAttemptConsistent(a: HazardAttempt) {
    && a.sceneId == Scenes[0].id
    && (forall id :: id in a.identifiedHazards ==> id in SceneViewer.HazardIds(Scenes[0].hazards))
    && SceneViewer.NoDuplicates(a.identifiedHazards)
    && a.correctCount == |a.identifiedHazards|
    && a.totalHazards == |Scenes[0].hazards|
    && a.accuracyScore == RoundedPercent(a.correctCount, a.totalHazards)
  }

  lemma HazardAttemptsConsistent()
    ensures HazardAttemptConsistent(HazardAttempts[0]) && HazardAttempts[0].accuracyScore == 75
    ensures HazardAttemptConsistent(HazardAttempts[1]) && HazardAttempts[1].accuracyScore == 100
  {
    var hs := Scenes[0].hazards;
    assert hs[0] in hs && hs[1] in hs && hs[2] in hs && hs[3] in hs;
    assert ["h1", "h2", "h3", "h4"] == [hs[0].id, hs[1].id, hs[2].id, hs[3].id];
    PercentOfExact(3, 4, 75);
    PercentOfExact(4, 4, 100);
  }

  // -------------------------------------------------------- statistics

  /** The user counts of the dashboard statistics are those of the user
      list: five users, four of them active. */
  lemma StatsCountUsers()
    ensures Stats.totalUsers == |Users|
    ensures Stats.activeUsers == Count(Users, (u: User) => u.status == Active)
  {
    var active := (u: User) => u.status == Active;
    assert |Filter(Users[4..], active)| == 0 by {
      assert Users[4..][1..] == [];
    }
    assert |Filter(Users[3..], active)| == 1 by {
      assert Users[3..][1..] == Users[4..];
    }
    assert |Filter(Users[2..], active)| == 2 by {
      assert Users[2..][1..] == Users[3..];
    }
    assert |Filter(Users[1..], active)| == 3 by {
      assert Users[1..][1..] == Users[2..];
    }
  }

  /** The mean of the two hazard accuracies, (75 + 100) / 2, is exactly the
      stated 87.5; the mean quiz percentage, (100 + 60 + 100) / 3, is the
      stated 86.7 to one decimal place. */
  lemma StatsAverages()
    ensures Stats.averageHazardAccuracy * 2.0 ==
      (HazardAttempts[0].accuracyScore + HazardAttempts[1].accuracyScore) as real
    ensures var mean := (QuizAttempts[0].percentage + QuizAttempts[1].percentage + QuizAttempts[2].percentage) as real / 3.0;
      -0.05 < Stats.averageQuizScore - mean < 0.05
  {
  }

  // ---------------------------------------------- the pages on the data

  /** The administrator's pie shows 2 passed and 1 failed attempt, a 67%
      pass rate. */
  lemma AdminPieOnCatalog()
    ensures AdminDashboard.PassedCount(QuizAttempts) == 2
    ensures AdminDashboard.FailedCount(QuizAttempts) == 1
    ensures AdminDashboard.PassRate(QuizAttempts) == Some(67)
  {
    assert Filter(QuizAttempts, AdminDashboard.IsPassed) == [QuizAttempts[0], QuizAttempts[2]];
    assert Filter(QuizAttempts, (a: QuizAttempt) => !AdminDashboard.IsPassed(a)) == [QuizAttempts[1]];
  }

  /** John Martinez's dashboard: one quiz attempt at 100% and one scene at
      75%. */
  lemma JohnsDashboard()
    ensures var v := StaffDashboard.Dashboard(Some(Users[0]), QuizAttempts, HazardAttempts).value;
      && v.completedQuizzes == 1 && v.completedScenes == 1
      && v.avgQuizScore == 100 && v.avgHazardAccuracy == 75
      && !v.showEmptyMessage
  {
    var own := StaffDashboard.OwnQuizAttempts(QuizAttempts, "1");
    assert own == [QuizAttempts[0]];
    var ownHazards := StaffDashboard.OwnHazardAttempts(HazardAttempts, "1");
    assert ownHazards == [HazardAttempts[0]];
    StaffDashboard.AverageOfEqualValues(StaffDashboard.Percentages(own), 100);
    StaffDashboard.AverageOfEqualValues(StaffDashboard.AccuracyScores(ownHazards), 75);
  }

  /** The welcome line greets John Martinez by his first name. */
  lemma JohnsWelcome()
    ensures StaffDashboard.Dashboard(Some(Users[0]), QuizAttempts, HazardAttempts).value.welcomeName == "John"
  {
    assert Text.FirstWord(Users[0].name) == "John" by {
      assert Users[0].name == "John" + [' '] + "Martinez";
      Text.FirstWordBeforeSpace("John", "Martinez");
    }
  }

  /** On the quiz list, Sarah Chen's best on quiz1 is 60%, below its pass
      mark, so the card offers a retake without the "Passed" badge. */
  lemma SarahsQuiz1Card()
    ensures QuizzesPage.QuizCard(Some(Users[1]), QuizAttempts, Quiz1) ==
      QuizzesPage.Card(Some(60), false, true, QuizzesPage.RetakeLabel)
  {
    assert QuizzesPage.Matching(QuizAttempts[1], "quiz1", "2");
  }

  /** Sarah Chen has not tried quiz2: no best score, and the card offers to
      start it. */
  lemma SarahsQuiz2Card()
    ensures QuizzesPage.QuizCard(Some(Users[1]), QuizAttempts, Quiz2) ==
      QuizzesPage.Card(None, false, false, QuizzesPage.StartLabel)
  {
  }

  /** The performance records are fixed figures, not derived from the
      stored attempts: John Martinez is listed with three quiz attempts
      while one is stored. */
  lemma PerformanceNotDerivedFromAttempts()
    ensures Performance[0].userId == Users[0].id
    ensures Performance[0].quizAttempts == 3
    ensures |StaffDashboard.OwnQuizAttempts(QuizAttempts, Users[0].id)| == 1
  {
    assert StaffDashboard.OwnQuizAttempts(QuizAttempts, "1") == [QuizAttempts[0]];
  }
}
