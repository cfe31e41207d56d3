/** The record shapes and constant tables of the progress ledger
    (src/types/user.ts). Strings that the source uses as identifiers with a
    closed set of values (scenario keys, badge ids) become datatypes; the
    places where the source receives an arbitrary string keep `string`. */
module UserTypes {

  datatype Option<T> = None | Some(value: T)

  /** Milliseconds since the epoch; the source stores ISO-8601 strings,
      which order the same way. */
  type Timestamp = int

  /** The closed set `'healthy' | 'hypertensive' | 'arrhythmic'`. */
  datatype ScenarioKey = Healthy | Hypertensive | Arrhythmic

  /** The keys in the order the ledger lists its scenarios. */
  const ScenarioKeys: seq<ScenarioKey> := [Healthy, Hypertensive, Arrhythmic]

  function KeyName(k: ScenarioKey): string
  {
    match k
    case Healthy => "healthy"
    case Hypertensive => "hypertensive"
    case Arrhythmic => "arrhythmic"
  }

  /** The inverse of KeyName on the strings the source switches over. */
  function ParseKey(s: string): (r: Option<ScenarioKey>)
    ensures r.Some? ==> KeyName(r.value) == s
    ensures forall k :: KeyName(k) == s ==> r == Some(k)
  {
    if s == "healthy" then Some(Healthy)
    else if s == "hypertensive" then Some(Hypertensive)
    else if s == "arrhythmic" then Some(Arrhythmic)
    else None
  }

  /** Position of a key in ScenarioKeys. */
  function KeyIndex(k: ScenarioKey): (i: nat)
    ensures i < |ScenarioKeys| && ScenarioKeys[i] == k
  {
    match k
    case Healthy => 0
    case Hypertensive => 1
    case Arrhythmic => 2
  }

  datatype UnlockRequirement = UnlockRequirement(requiredCorrect: nat, requiredLevel: nat)

  /** SCENARIO_UNLOCK_REQUIREMENTS, total over the three keys. */
  function UnlockRequirementOf(k: ScenarioKey): UnlockRequirement
  {
    match k
    case Healthy => UnlockRequirement(0, 0)
    case Hypertensive => UnlockRequirement(5, 1)
    case Arrhythmic => UnlockRequirement(10, 2)
  }

  /** The "±5 mmHg" tolerance of a correct reading. */
  const AccuracyTolerance: nat := 5

  lemma ToleranceIsFive()
    ensures AccuracyTolerance == 5
  {
  }

  /** The unlock thresholds are 0, 5 and 10 and grow along the scenario order. */
  lemma UnlockThresholdsOrdered()
    ensures UnlockRequirementOf(Healthy).requiredCorrect == 0
    ensures UnlockRequirementOf(Hypertensive).requiredCorrect == 5
    ensures UnlockRequirementOf(Arrhythmic).requiredCorrect == 10
    ensures forall i, j :: 0 <= i <= j < |ScenarioKeys| ==>
      UnlockRequirementOf(ScenarioKeys[i]).requiredCorrect <= UnlockRequirementOf(ScenarioKeys[j]).requiredCorrect
  {
  }

  /** The healthy scenario's gate is open for every correct-answer count. */
  lemma HealthyAlwaysUnlockable(totalCorrect: nat)
    ensures totalCorrect >= UnlockRequirementOf(Healthy).requiredCorrect
  {
  }

  datatype User = User(
    id: string,
    email: string,
    name: string,
    password: string,
    createdAt: Timestamp,
    lastLogin: Timestamp)

  datatype ScenarioProgress = ScenarioProgress(
    scenarioKey: ScenarioKey,
    scenarioName: string,
    attempts: nat,
    correctAttempts: nat,
    averageAccuracy: int,
    bestAccuracy: int,
    unlocked: bool,
    completed: bool,
    completedAt: Option<Timestamp>)

  /** The ids of the five catalog badges. */
  datatype BadgeId = FirstSuccess | AccuracyAce | HypertensionHero | StreakMaster | PrecisionExpert

  /** A catalog entry: a badge without its award time. */
  datatype BadgeTemplate = BadgeTemplate(
    id: BadgeId,
    name: string,
    description: string,
    icon: string,
    criteria: string)

  datatype Badge = Badge(
    id: BadgeId,
    name: string,
    description: string,
    icon: string,
    earnedAt: Timestamp,
    criteria: string)

  datatype AttemptRecord = AttemptRecord(
    id: string,
    scenarioKey: ScenarioKey,
    timestamp: Timestamp,
    trueSystolic: int,
    trueDiastolic: int,
    userSystolic: int,
    userDiastolic: int,
    systolicError: nat,
    diastolicError: nat,
    averageError: real,
    accuracy: nat,
    isCorrect: bool)

  datatype UserProgress = UserProgress(
    user: User,
    scenarios: seq<ScenarioProgress>,
    badges: seq<Badge>,
    attempts: seq<AttemptRecord>,
    totalAttempts: nat,
    totalCorrect: nat,
    overallAccuracy: int,
    currentStreak: nat,
    bestStreak: nat,
    level: nat,
    experience: nat)
}
