/** Record types of the training application (src/types/index.ts), plus the
    optional-value wrapper that TypeScript expresses with `?` and `null`.
    Dates (`createdAt`, `lastLogin`, `timestamp`, `lastActivity`) and
    purely cosmetic fields (`avatar`, `imageUrl`) are not modelled. */
module Types {

  datatype Option<T> = None | Some(value: T)

  /** A point or offset in the 3D scene (metres; y is up). */
  datatype Vec3 = Vec3(x: real, y: real, z: real)

  datatype Role = Staff | Admin

  datatype Status = Active | Inactive

  datatype Severity = Low | Medium | High | Critical

  datatype Difficulty = Beginner | Intermediate | Advanced

  datatype Trend = Improving | Stable | Declining

  /** The string a role or status is compared against in the admin filters. */
  function RoleName(r: Role): (name: string)
    ensures name == "staff" <==> r == Staff
    ensures name == "admin" <==> r == Admin
    ensures name != "all"
  {
    match r
    case Staff => "staff"
    case Admin => "admin"
  }

  function StatusName(s: Status): (name: string)
    ensures name == "active" <==> s == Active
    ensures name == "inactive" <==> s == Inactive
    ensures name != "all"
  {
    match s
    case Active => "active"
    case Inactive => "inactive"
  }

  datatype User = User(
    id: string,
    name: string,
    email: string,
    role: Role,
    status: Status,
    department: Option<string>)

  /** A hazard placed in a scene. The interface declares only x and y; the
      catalog and the 3D renderer also use `z` and an optional `size`. The
      `type` field is free text: the renderer falls back on unknown values. */
  datatype Hazard = Hazard(
    id: string,
    x: real,
    y: real,
    z: real,
    kind: string,
    description: string,
    severity: Severity,
    size: Option<real>)

  /** A training scene; `duration` is in minutes. */
  datatype Scene = Scene(
    id: string,
    name: string,
    description: string,
    hazards: seq<Hazard>,
    duration: nat,
    difficulty: Difficulty)

  datatype HazardAttempt = HazardAttempt(
    id: string,
    sceneId: string,
    userId: string,
    identifiedHazards: seq<string>,
    correctCount: nat,
    totalHazards: nat,
    accuracyScore: nat)

  datatype QuizQuestion = QuizQuestion(
    id: string,
    question: string,
    options: seq<string>,
    correctAnswer: int,
    explanation: Option<string>,
    category: string)

  /** A quiz; `timeLimit` is in minutes, `None` for an untimed quiz. */
  datatype Quiz = Quiz(
    id: string,
    title: string,
    description: string,
    questions: seq<QuizQuestion>,
    timeLimit: Option<nat>,
    passingScore: nat)

  /** A stored quiz attempt; `timeSpent` is in seconds. */
  datatype QuizAttempt = QuizAttempt(
    id: string,
    userId: string,
    quizId: string,
    answers: seq<int>,
    score: nat,
    percentage: nat,
    passed: bool,
    timeSpent: nat)

  datatype DashboardStats = DashboardStats(
    totalUsers: nat,
    activeUsers: nat,
    averageQuizScore: real,
    averageHazardAccuracy: real,
    completedTrainings: nat,
    pendingAssessments: nat)

  datatype UserPerformance = UserPerformance(
    userId: string,
    userName: string,
    quizAttempts: nat,
    averageQuizScore: nat,
    hazardAttempts: nat,
    averageHazardAccuracy: nat,
    trend: Trend)
}
