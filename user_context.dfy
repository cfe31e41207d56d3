/** The progress ledger and identity store of src/contexts/UserContext.tsx.

    The pure parts (scoring, unlock gating, the badge catalog, the default
    scenario list) are functions. `AfterAttempt` is the specification of one
    `recordAttempt` call on a user's progress; the class `UserStore` holds the
    users map that stands for browser storage and the current-user pointer,
    and its methods are proved against those functions. */
module UserContext {
  import opened UserTypes
  import opened Arith

  // ---------------------------------------------------------------------
  // Default scenario progress

  /** The scenario list holds one entry per key, in key order. */
  predicate ScenariosWellFormed(scs: seq<ScenarioProgress>)
  {
    |scs| == |ScenarioKeys| &&
    forall i :: 0 <= i < |scs| ==> scs[i].scenarioKey == ScenarioKeys[i]
  }

  function FreshScenario(key: ScenarioKey, name: string, unlocked: bool): ScenarioProgress
  {
    ScenarioProgress(key, name, 0, 0, 0, 0, unlocked, false, None)
  }

  function CreateDefaultScenarioProgress(): (r: seq<ScenarioProgress>)
    ensures ScenariosWellFormed(r)
    ensures forall i :: 0 <= i < |r| ==>
      r[i].attempts == 0 && r[i].correctAttempts == 0 &&
      r[i].averageAccuracy == 0 && r[i].bestAccuracy == 0 &&
      !r[i].completed && r[i].completedAt == None &&
      (r[i].unlocked <==> r[i].scenarioKey == Healthy)
  {
    [ FreshScenario(Healthy, "Healthy Adult", true),
      FreshScenario(Hypertensive, "Hypertensive", false),
      FreshScenario(Arrhythmic, "Arrhythmic", false) ]
  }

  /** The progress a new account starts with. */
  function DefaultProgress(u: User): (r: UserProgress)
    ensures r.user == u && r.attempts == [] && r.badges == []
    ensures r.totalAttempts == 0 && r.totalCorrect == 0 && r.currentStreak == 0 && r.bestStreak == 0
    ensures Consistent(r)
  {
    UserProgress(u, CreateDefaultScenarioProgress(), [], [], 0, 0, 0, 0, 0, 0, 0)
  }

  // ---------------------------------------------------------------------
  // Badge catalog

  const AvailableBadges: seq<BadgeTemplate> := [
    BadgeTemplate(FirstSuccess, "First Success",
      "Complete your first measurement successfully", "target", "Complete 1 correct measurement"),
    BadgeTemplate(AccuracyAce, "Accuracy Ace",
      "Unlock the next scenario level", "trophy", "Complete 5 correct measurements"),
    BadgeTemplate(HypertensionHero, "Hypertension Hero",
      "Master the hypertensive scenario", "muscle", "Unlock arrhythmic scenario"),
    BadgeTemplate(StreakMaster, "Streak Master",
      "Achieve a 5-measurement winning streak", "fire", "Get 5 correct measurements in a row"),
    BadgeTemplate(PrecisionExpert, "Precision Expert",
      "Achieve 95%+ accuracy over 10 attempts", "star", "Maintain 95%+ accuracy over 10 attempts")
  ]

  /** Where a badge id sits in the catalog; every id sits exactly once. */
  function CatalogIndex(id: BadgeId): (i: nat)
    ensures i < |AvailableBadges| && AvailableBadges[i].id == id
    ensures forall j :: 0 <= j < |AvailableBadges| && AvailableBadges[j].id == id ==> j == i
  {
    match id
    case FirstSuccess => 0
    case AccuracyAce => 1
    case HypertensionHero => 2
    case StreakMaster => 3
    case PrecisionExpert => 4
  }

  function Stamp(t: BadgeTemplate, now: Timestamp): Badge
  {
    Badge(t.id, t.name, t.description, t.icon, now, t.criteria)
  }

  predicate Held(badges: seq<Badge>, id: BadgeId)
  {
    exists i :: 0 <= i < |badges| && badges[i].id == id
  }

  predicate UniqueIds(badges: seq<Badge>)
  {
    forall i, j :: 0 <= i < j < |badges| ==> badges[i].id != badges[j].id
  }

  /** The award predicate of each catalog badge (the `switch` of checkForNewBadges). */
  predicate Qualifies(id: BadgeId, p: UserProgress)
  {
    match id
    case FirstSuccess => p.totalCorrect >= 1
    case AccuracyAce => p.totalCorrect >= 5
    case HypertensionHero => p.totalCorrect >= 10
    case StreakMaster => p.currentStreak >= 5
    case PrecisionExpert => p.totalAttempts >= 10 && p.overallAccuracy >= 95
  }

  /** The badges the first n catalog entries award to p, in catalog order. */
  function Awardable(p: UserProgress, now: Timestamp, n: nat): seq<Badge>
    requires n <= |AvailableBadges|
  {
    if n == 0 then []
    else
      var t := AvailableBadges[n - 1];
      Awardable(p, now, n - 1) + (if !Held(p.badges, t.id) && Qualifies(t.id, p) then [Stamp(t, now)] else [])
  }

  /** checkForNewBadges: walks the catalog once, pushing each badge that is
      not yet held and whose predicate holds. */
  method CheckForNewBadges(p: UserProgress, now: Timestamp) returns (newBadges: seq<Badge>)
    ensures newBadges == Awardable(p, now, |AvailableBadges|)
  {
    newBadges := [];
    for i := 0 to |AvailableBadges|
      invariant newBadges == Awardable(p, now, i)
    {
      var t := AvailableBadges[i];
      var alreadyEarned := exists j :: 0 <= j < |p.badges| && p.badges[j].id == t.id;
      if !alreadyEarned {
        var shouldEarn := Qualifies(t.id, p);
        if shouldEarn {
          newBadges := newBadges + [Stamp(t, now)];
        }
      }
    }
  }

  lemma HeldConcat(a: seq<Badge>, b: seq<Badge>, id: BadgeId)
    ensures Held(a + b, id) <==> Held(a, id) || Held(b, id)
  {
    if Held(a, id) {
      var i :| 0 <= i < |a| && a[i].id == id;
      assert (a + b)[i].id == id;
    }
    if Held(b, id) {
      var i :| 0 <= i < |b| && b[i].id == id;
      assert (a + b)[|a| + i].id == id;
    }
    if Held(a + b, id) {
      var i :| 0 <= i < |a + b| && (a + b)[i].id == id;
      if i < |a| { assert a[i].id == id; } else { assert b[i - |a|].id == id; }
    }
  }

  lemma {:induction false} AwardableExact(p: UserProgress, now: Timestamp, n: nat)
    requires n <= |AvailableBadges|
    ensures forall k :: 0 <= k < |Awardable(p, now, n)| ==>
      var b := Awardable(p, now, n)[k];
      CatalogIndex(b.id) < n && b == Stamp(AvailableBadges[CatalogIndex(b.id)], now) &&
      !Held(p.badges, b.id) && Qualifies(b.id, p)
    ensures forall id :: Held(Awardable(p, now, n), id) <==>
      CatalogIndex(id) < n && !Held(p.badges, id) && Qualifies(id, p)
    ensures UniqueIds(Awardable(p, now, n))
  {
    if n > 0 {
      AwardableExact(p, now, n - 1);
      var prev := Awardable(p, now, n - 1);
      var t := AvailableBadges[n - 1];
      var extra := if !Held(p.badges, t.id) && Qualifies(t.id, p) then [Stamp(t, now)] else [];
      assert Awardable(p, now, n) == prev + extra;
      forall id ensures Held(prev + extra, id) <==> CatalogIndex(id) < n && !Held(p.badges, id) && Qualifies(id, p) {
        HeldConcat(prev, extra, id);
        if Held(extra, id) { assert extra[0].id == id; }
        if CatalogIndex(id) == n - 1 && !Held(p.badges, id) && Qualifies(id, p) {
          assert extra[0].id == id;
        }
      }
    }
  }

  /** The badges one evaluation adds are exactly the catalog badges not yet
      held whose predicate holds; they carry the award time and distinct ids. */
  lemma NewBadgesExact(p: UserProgress, now: Timestamp)
    ensures var nb := Awardable(p, now, |AvailableBadges|);
      UniqueIds(nb) &&
      (forall k :: 0 <= k < |nb| ==> nb[k].earnedAt == now && nb[k] == Stamp(AvailableBadges[CatalogIndex(nb[k].id)], now)) &&
      (forall id :: Held(nb, id) <==> !Held(p.badges, id) && Qualifies(id, p))
  {
    AwardableExact(p, now, |AvailableBadges|);
  }

  /** Appending the new badges keeps ids unique and removes nothing. */
  lemma BadgeListGrows(p: UserProgress, now: Timestamp)
    requires UniqueIds(p.badges)
    ensures var held := p.badges + Awardable(p, now, |AvailableBadges|);
      UniqueIds(held) && held[..|p.badges|] == p.badges &&
      (forall id :: Held(held, id) <==> Held(p.badges, id) || Qualifies(id, p))
  {
    var nb := Awardable(p, now, |AvailableBadges|);
    NewBadgesExact(p, now);
    var held := p.badges + nb;
    forall i, j | 0 <= i < j < |held| ensures held[i].id != held[j].id {
      if j >= |p.badges| && i < |p.badges| {
        assert Held(nb, held[j].id) by { assert nb[j - |p.badges|] == held[j]; }
        assert Held(p.badges, held[i].id);
      } else if i >= |p.badges| {
        assert nb[i - |p.badges|] == held[i] && nb[j - |p.badges|] == held[j];
      }
    }
    assert held[..|p.badges|] == p.badges;
    forall id ensures Held(held, id) <==> Held(p.badges, id) || Qualifies(id, p) {
      HeldConcat(p.badges, nb, id);
    }
  }

  // ---------------------------------------------------------------------
  // Unlock gating

  function UnlockEntry(s: ScenarioProgress, totalCorrect: nat): ScenarioProgress
  {
    if !s.unlocked && totalCorrect >= UnlockRequirementOf(s.scenarioKey).requiredCorrect
    then s.(unlocked := true)
    else s
  }

  /** updateScenarioUnlocks: an entry becomes unlocked once the total of
      correct attempts reaches its threshold, and no entry is ever locked. */
  function UpdateScenarioUnlocks(p: UserProgress): (r: UserProgress)
    ensures r == p.(scenarios := r.scenarios)
    ensures |r.scenarios| == |p.scenarios|
    ensures forall i :: 0 <= i < |p.scenarios| ==>
      r.scenarios[i] == p.scenarios[i].(unlocked := r.scenarios[i].unlocked) &&
      (r.scenarios[i].unlocked <==>
        p.scenarios[i].unlocked || p.totalCorrect >= UnlockRequirementOf(p.scenarios[i].scenarioKey).requiredCorrect)
  {
    p.(scenarios := seq(|p.scenarios|, i requires 0 <= i < |p.scenarios| => UnlockEntry(p.scenarios[i], p.totalCorrect)))
  }

  // ---------------------------------------------------------------------
  // Scoring

  /** calculateAccuracy: a linear fall-off of the mean error over 50 mmHg,
      rounded and clamped at 0. For whole-number errors this is
      100 minus the summed error, never below 0. */
  function CalculateAccuracy(systolicError: nat, diastolicError: nat): (r: nat)
    ensures r == if systolicError + diastolicError >= 100 then 0 else 100 - (systolicError + diastolicError)
  {
    var maxError := 50.0;
    var avgError := (systolicError + diastolicError) as real / 2.0;
    var x := RoundHalfUp(100.0 - (avgError / maxError) * 100.0);
    assert 100.0 - (avgError / maxError) * 100.0 == (100 - (systolicError + diastolicError)) as real;
    if x < 0 then 0 else x
  }

  /** The attempt record recordAttempt builds from one reading. */
  function MakeAttempt(key: ScenarioKey, trueSystolic: int, trueDiastolic: int,
                       userSystolic: int, userDiastolic: int,
                       id: string, now: Timestamp): (r: AttemptRecord)
    ensures r.scenarioKey == key && r.timestamp == now && r.id == id
    ensures r.trueSystolic == trueSystolic && r.trueDiastolic == trueDiastolic
    ensures r.userSystolic == userSystolic && r.userDiastolic == userDiastolic
    ensures r.systolicError == Abs(trueSystolic - userSystolic)
    ensures r.diastolicError == Abs(trueDiastolic - userDiastolic)
    ensures r.accuracy == CalculateAccuracy(r.systolicError, r.diastolicError)
    ensures r.systolicError == 0 <==> trueSystolic == userSystolic
    ensures r.diastolicError == 0 <==> trueDiastolic == userDiastolic
    ensures r.averageError * 2.0 == (r.systolicError + r.diastolicError) as real
    ensures r.accuracy <= 100
    ensures r.accuracy == 100 <==> trueSystolic == userSystolic && trueDiastolic == userDiastolic
    ensures r.isCorrect <==>
      -(AccuracyTolerance as int) <= trueSystolic - userSystolic <= AccuracyTolerance &&
      -(AccuracyTolerance as int) <= trueDiastolic - userDiastolic <= AccuracyTolerance
  {
    var systolicError := Abs(trueSystolic - userSystolic);
    var diastolicError := Abs(trueDiastolic - userDiastolic);
    var averageError := (systolicError + diastolicError) as real / 2.0;
    var accuracy := CalculateAccuracy(systolicError, diastolicError);
    var isCorrect := systolicError <= AccuracyTolerance && diastolicError <= AccuracyTolerance;
    AttemptRecord(id, key, now, trueSystolic, trueDiastolic, userSystolic, userDiastolic,
                  systolicError, diastolicError, averageError, accuracy, isCorrect)
  }

  /** Two worked readings: an exact entry, and a 20/10 mmHg miss. */
  lemma ScoreExamples(key: ScenarioKey, id: string, now: Timestamp)
    ensures var r := MakeAttempt(key, 120, 80, 120, 80, id, now);
      r.systolicError == 0 && r.diastolicError == 0 && r.accuracy == 100 && r.isCorrect
    ensures var r := MakeAttempt(key, 140, 90, 120, 80, id, now);
      r.systolicError == 20 && r.diastolicError == 10 && r.averageError == 15.0 &&
      r.accuracy == 70 && !r.isCorrect
  {
  }

  /** A record in the log is exactly what MakeAttempt built. */
  predicate Scored(r: AttemptRecord)
  {
    r == MakeAttempt(r.scenarioKey, r.trueSystolic, r.trueDiastolic,
                     r.userSystolic, r.userDiastolic, r.id, r.timestamp)
  }

  // ---------------------------------------------------------------------
  // Statistics over the attempt log

  function AccuraciesFor(log: seq<AttemptRecord>, key: ScenarioKey): seq<int>
  {
    if log == [] then []
    else
      var last := log[|log| - 1];
      AccuraciesFor(log[..|log| - 1], key) + (if last.scenarioKey == key then [last.accuracy] else [])
  }

  function CorrectFor(log: seq<AttemptRecord>, key: ScenarioKey): nat
  {
    if log == [] then 0
    else
      var last := log[|log| - 1];
      CorrectFor(log[..|log| - 1], key) + (if last.scenarioKey == key && last.isCorrect then 1 else 0)
  }

  function BestAccuracyFor(log: seq<AttemptRecord>, key: ScenarioKey): int
  {
    if log == [] then 0
    else
      var last := log[|log| - 1];
      var best := BestAccuracyFor(log[..|log| - 1], key);
      if last.scenarioKey == key then Max(best, last.accuracy) else best
  }

  function CorrectCount(log: seq<AttemptRecord>): nat
  {
    if log == [] then 0
    else CorrectCount(log[..|log| - 1]) + (if log[|log| - 1].isCorrect then 1 else 0)
  }

  /** The run of correct attempts at the end of the log. */
  function TrailingCorrect(log: seq<AttemptRecord>): nat
  {
    if log == [] then 0
    else if log[|log| - 1].isCorrect then TrailingCorrect(log[..|log| - 1]) + 1
    else 0
  }

  /** The longest run of correct attempts ending anywhere in the log. */
  function BestRun(log: seq<AttemptRecord>): (r: nat)
    ensures TrailingCorrect(log) <= r
  {
    if log == [] then 0 else Max(BestRun(log[..|log| - 1]), TrailingCorrect(log))
  }

  /** BestRun is the longest run of correct attempts: no prefix of the log
      ends in a longer run, and some prefix ends in one exactly that long. */
  lemma {:induction false} BestRunIsLongest(log: seq<AttemptRecord>)
    ensures forall k :: 0 <= k <= |log| ==> TrailingCorrect(log[..k]) <= BestRun(log)
    ensures exists k :: 0 <= k <= |log| && TrailingCorrect(log[..k]) == BestRun(log)
  {
    if log == [] {
      assert log[..0] == [];
    } else {
      var pre := log[..|log| - 1];
      BestRunIsLongest(pre);
      forall k | 0 <= k <= |log| ensures TrailingCorrect(log[..k]) <= BestRun(log) {
        if k == |log| { assert log[..k] == log; } else { assert log[..k] == pre[..k]; }
      }
      if BestRun(log) == TrailingCorrect(log) {
        assert log[..|log|] == log;
      } else {
        var k :| 0 <= k <= |pre| && TrailingCorrect(pre[..k]) == BestRun(pre);
        assert log[..k] == pre[..k];
      }
    }
  }

  /** The rounded mean the ledger stores, 0 for no attempts. */
  function MeanAccuracy(accs: seq<int>): int
  {
    if |accs| > 0 then RoundDiv(Sum(accs), |accs|) else 0
  }

  lemma {:induction false} AccuraciesBounded(log: seq<AttemptRecord>, key: ScenarioKey)
    requires forall j :: 0 <= j < |log| ==> log[j].accuracy <= 100
    ensures forall k :: 0 <= k < |AccuraciesFor(log, key)| ==> 0 <= AccuraciesFor(log, key)[k] <= 100
  {
    if log != [] {
      var pre := log[..|log| - 1];
      AccuraciesBounded(pre, key);
    }
  }

  /** The scenario average always lies in [0, 100]. */
  lemma MeanAccuracyInRange(log: seq<AttemptRecord>, key: ScenarioKey)
    requires forall j :: 0 <= j < |log| ==> log[j].accuracy <= 100
    ensures 0 <= MeanAccuracy(AccuraciesFor(log, key)) <= 100
  {
    var accs := AccuraciesFor(log, key);
    if |accs| > 0 {
      AccuraciesBounded(log, key);
      MeanWithin(accs, 0, 100);
    }
  }

  // ---------------------------------------------------------------------
  // One recorded attempt

  /** The `scenarios.map` step of recordAttempt for one entry of the
      attempt's key; `log` already holds the new record. */
  function UpdateScenarioEntry(s: ScenarioProgress, log: seq<AttemptRecord>,
                               accuracy: nat, isCorrect: bool, now: Timestamp): (r: ScenarioProgress)
    ensures r.scenarioKey == s.scenarioKey && r.scenarioName == s.scenarioName && r.unlocked == s.unlocked
    ensures r.attempts == s.attempts + 1
    ensures r.correctAttempts == s.correctAttempts + (if isCorrect then 1 else 0)
    ensures r.bestAccuracy >= s.bestAccuracy && r.bestAccuracy >= accuracy
    ensures r.bestAccuracy == s.bestAccuracy || r.bestAccuracy == accuracy
    ensures r.averageAccuracy == MeanAccuracy(AccuraciesFor(log, s.scenarioKey))
    ensures r.completed <==> s.completed || r.correctAttempts >= 5
    ensures s.completed ==> r.completedAt == s.completedAt
    ensures !s.completed && r.completed ==> r.completedAt == Some(now)
  {
    var newAttempts := s.attempts + 1;
    var newCorrect := s.correctAttempts + (if isCorrect then 1 else 0);
    var avgAccuracy := MeanAccuracy(AccuraciesFor(log, s.scenarioKey));
    var updated := s.(attempts := newAttempts, correctAttempts := newCorrect,
                      averageAccuracy := avgAccuracy, bestAccuracy := Max(s.bestAccuracy, accuracy));
    if newCorrect >= 5 && !updated.completed
    then updated.(completed := true, completedAt := Some(now))
    else updated
  }

  function UpdateScenarios(scs: seq<ScenarioProgress>, key: ScenarioKey, log: seq<AttemptRecord>,
                           accuracy: nat, isCorrect: bool, now: Timestamp): (r: seq<ScenarioProgress>)
    ensures |r| == |scs|
    ensures forall i :: 0 <= i < |scs| && scs[i].scenarioKey != key ==> r[i] == scs[i]
    ensures forall i :: 0 <= i < |scs| && scs[i].scenarioKey == key ==>
      r[i].scenarioKey == key && r[i].attempts == scs[i].attempts + 1
  {
    seq(|scs|, i requires 0 <= i < |scs| =>
      if scs[i].scenarioKey == key then UpdateScenarioEntry(scs[i], log, accuracy, isCorrect, now) else scs[i])
  }

  /** The progress after the counters and scenario statistics of
      recordAttempt; `now` is the record's time. */
  function Counted(p: UserProgress, rec: AttemptRecord): UserProgress
  {
    var log := p.attempts + [rec];
    var totalAttempts := p.totalAttempts + 1;
    var totalCorrect := p.totalCorrect + (if rec.isCorrect then 1 else 0);
    var currentStreak := if rec.isCorrect then p.currentStreak + 1 else 0;
    var bestStreak := if rec.isCorrect then Max(p.bestStreak, currentStreak) else p.bestStreak;
    var experience := p.experience + (if rec.isCorrect then 50 else 10);
    p.(
      attempts := log,
      totalAttempts := totalAttempts,
      totalCorrect := totalCorrect,
      currentStreak := currentStreak,
      bestStreak := bestStreak,
      overallAccuracy := RoundDiv(100 * totalCorrect, totalAttempts),
      experience := experience,
      level := experience / 100,
      scenarios := UpdateScenarios(p.scenarios, rec.scenarioKey, log, rec.accuracy, rec.isCorrect, rec.timestamp))
  }

  /** The progress after the unlock gating too, before the badge evaluation. */
  function Staged(p: UserProgress, rec: AttemptRecord): UserProgress
  {
    UpdateScenarioUnlocks(Counted(p, rec))
  }

  /** The badges one recorded attempt awards. */
  function NewBadges(p: UserProgress, rec: AttemptRecord): seq<Badge>
  {
    Awardable(Staged(p, rec), rec.timestamp, |AvailableBadges|)
  }

  /** The whole new progress after one recorded attempt. */
  function AfterAttempt(p: UserProgress, rec: AttemptRecord): (r: UserProgress)
    ensures r.user == p.user && r.attempts == p.attempts + [rec]
    ensures r.totalAttempts == p.totalAttempts + 1
    ensures r.currentStreak == (if rec.isCorrect then p.currentStreak + 1 else 0)
    ensures rec.isCorrect ==> r.bestStreak == Max(p.bestStreak, r.currentStreak)
    ensures !rec.isCorrect ==> r.bestStreak == p.bestStreak
    ensures |r.badges| >= |p.badges| && r.badges[..|p.badges|] == p.badges
    ensures |r.scenarios| == |p.scenarios|
  {
    var s := Staged(p, rec);
    s.(badges := s.badges + NewBadges(p, rec))
  }

  /** The log gains exactly the new record; the totals count it. */
  lemma AttemptAppended(p: UserProgress, rec: AttemptRecord)
    ensures var q := AfterAttempt(p, rec);
      q.attempts == p.attempts + [rec] && q.user == p.user &&
      q.totalAttempts == p.totalAttempts + 1 &&
      q.totalCorrect == p.totalCorrect + (if rec.isCorrect then 1 else 0)
  {
  }

  /** A correct attempt extends the streak, an incorrect one resets it; the
      best streak never falls and stays at least the current one. */
  lemma StreakUpdated(p: UserProgress, rec: AttemptRecord)
    ensures var q := AfterAttempt(p, rec);
      (rec.isCorrect ==> q.currentStreak == p.currentStreak + 1 && q.bestStreak == Max(p.bestStreak, q.currentStreak)) &&
      (!rec.isCorrect ==> q.currentStreak == 0 && q.bestStreak == p.bestStreak) &&
      q.bestStreak >= p.bestStreak &&
      (p.currentStreak <= p.bestStreak ==> q.currentStreak <= q.bestStreak)
  {
  }

  /** overallAccuracy is the rounded percentage of correct attempts, in
      [0, 100]; experience grows by 50 or 10 and the level is its hundreds. */
  lemma TotalsUpdated(p: UserProgress, rec: AttemptRecord)
    requires p.totalCorrect <= p.totalAttempts
    ensures var q := AfterAttempt(p, rec);
      0 <= q.overallAccuracy <= 100 &&
      2 * q.totalAttempts * q.overallAccuracy - q.totalAttempts <= 200 * q.totalCorrect
        < 2 * q.totalAttempts * q.overallAccuracy + q.totalAttempts &&
      q.experience == p.experience + (if rec.isCorrect then 50 else 10) &&
      q.level == q.experience / 100
  {
    var q := AfterAttempt(p, rec);
    RoundDivWithin(100 * q.totalCorrect, q.totalAttempts, 0, 100);
  }

  /** Only the entry of the attempt's key changes its statistics; every
      entry may only gain its unlock. */
  lemma ScenarioEntryUpdated(p: UserProgress, rec: AttemptRecord, i: nat)
    requires i < |p.scenarios|
    ensures var q := AfterAttempt(p, rec);
      var s, t := p.scenarios[i], q.scenarios[i];
      var log := p.attempts + [rec];
      |q.scenarios| == |p.scenarios| &&
      t.scenarioKey == s.scenarioKey &&
      (t.unlocked <==> s.unlocked || q.totalCorrect >= UnlockRequirementOf(s.scenarioKey).requiredCorrect) &&
      (s.scenarioKey != rec.scenarioKey ==> t == s.(unlocked := t.unlocked)) &&
      (s.scenarioKey == rec.scenarioKey ==>
        t.attempts == s.attempts + 1 &&
        t.correctAttempts == s.correctAttempts + (if rec.isCorrect then 1 else 0) &&
        t.averageAccuracy == MeanAccuracy(AccuraciesFor(log, s.scenarioKey)) &&
        t.bestAccuracy == Max(s.bestAccuracy, rec.accuracy) &&
        (t.completed <==> s.completed || t.correctAttempts >= 5) &&
        t.completedAt == (if !s.completed && t.correctAttempts >= 5 then Some(rec.timestamp) else s.completedAt) &&
        (s.attempts == |AccuraciesFor(p.attempts, s.scenarioKey)| ==> t.attempts == |AccuraciesFor(log, s.scenarioKey)|))
  {
    var log := p.attempts + [rec];
    assert log[..|log| - 1] == p.attempts;
  }

  /** The averaged accuracy includes the new attempt's own accuracy. */
  lemma AverageIncludesNewAttempt(p: UserProgress, rec: AttemptRecord)
    ensures AccuraciesFor(p.attempts + [rec], rec.scenarioKey) == AccuraciesFor(p.attempts, rec.scenarioKey) + [rec.accuracy]
  {
    var log := p.attempts + [rec];
    assert log[..|log| - 1] == p.attempts;
  }

  /** The badges held after an attempt are the old ones followed by exactly
      the newly qualifying catalog badges, judged on the updated totals. */
  lemma BadgesAwarded(p: UserProgress, rec: AttemptRecord)
    requires UniqueIds(p.badges)
    ensures var q, nb := AfterAttempt(p, rec), NewBadges(p, rec);
      q.badges == p.badges + nb && UniqueIds(q.badges) &&
      (forall id :: Held(nb, id) <==> !Held(p.badges, id) && Qualifies(id, q)) &&
      (forall k :: 0 <= k < |nb| ==> nb[k].earnedAt == rec.timestamp)
  {
    var s := Staged(p, rec);
    NewBadgesExact(s, rec.timestamp);
    BadgeListGrows(s, rec.timestamp);
    var q := AfterAttempt(p, rec);
    forall id ensures Qualifies(id, q) == Qualifies(id, s) { }
  }

  // ---------------------------------------------------------------------
  // The ledger invariant

  /** An entry's statistics agree with the log and the totals. */
  predicate EntryConsistent(s: ScenarioProgress, log: seq<AttemptRecord>, totalCorrect: nat)
  {
    s.attempts == |AccuraciesFor(log, s.scenarioKey)| &&
    s.correctAttempts == CorrectFor(log, s.scenarioKey) &&
    s.averageAccuracy == MeanAccuracy(AccuraciesFor(log, s.scenarioKey)) &&
    s.bestAccuracy == BestAccuracyFor(log, s.scenarioKey) &&
    (s.unlocked <==> totalCorrect >= UnlockRequirementOf(s.scenarioKey).requiredCorrect) &&
    (s.completed <==> s.correctAttempts >= 5) &&
    (s.completedAt.Some? <==> s.completed)
  }

  /** Held badges track the totals: a badge for a number of correct
      attempts is held exactly when that number is reached, the streak badge
      exactly when the best streak reached 5. */
  predicate BadgesTrack(p: UserProgress)
  {
    (Held(p.badges, FirstSuccess) <==> p.totalCorrect >= 1) &&
    (Held(p.badges, AccuracyAce) <==> p.totalCorrect >= 5) &&
    (Held(p.badges, HypertensionHero) <==> p.totalCorrect >= 10) &&
    (Held(p.badges, StreakMaster) <==> p.bestStreak >= 5) &&
    (Held(p.badges, PrecisionExpert) ==> p.totalAttempts >= 10)
  }

  /** Everything the ledger derives agrees with its append-only log. */
  predicate Consistent(p: UserProgress)
  {
    ScenariosWellFormed(p.scenarios) &&
    (forall j :: 0 <= j < |p.attempts| ==> Scored(p.attempts[j])) &&
    p.totalAttempts == |p.attempts| &&
    p.totalCorrect == CorrectCount(p.attempts) &&
    p.currentStreak == TrailingCorrect(p.attempts) &&
    p.bestStreak == BestRun(p.attempts) &&
    p.currentStreak <= p.bestStreak &&
    p.experience == 10 * p.totalAttempts + 40 * p.totalCorrect &&
    p.level == p.experience / 100 &&
    p.overallAccuracy == (if p.totalAttempts == 0 then 0 else RoundDiv(100 * p.totalCorrect, p.totalAttempts)) &&
    (forall i :: 0 <= i < |p.scenarios| ==> EntryConsistent(p.scenarios[i], p.attempts, p.totalCorrect)) &&
    UniqueIds(p.badges) &&
    BadgesTrack(p)
  }

  lemma DefaultConsistent(u: User)
    ensures Consistent(DefaultProgress(u))
  {
  }

  /** How the per-key statistics extend when one record is appended. */
  lemma StatisticsAppend(log: seq<AttemptRecord>, rec: AttemptRecord, key: ScenarioKey)
    ensures AccuraciesFor(log + [rec], key) ==
      AccuraciesFor(log, key) + (if rec.scenarioKey == key then [rec.accuracy] else [])
    ensures CorrectFor(log + [rec], key) ==
      CorrectFor(log, key) + (if rec.scenarioKey == key && rec.isCorrect then 1 else 0)
    ensures BestAccuracyFor(log + [rec], key) ==
      (if rec.scenarioKey == key then Max(BestAccuracyFor(log, key), rec.accuracy) else BestAccuracyFor(log, key))
    ensures CorrectCount(log + [rec]) == CorrectCount(log) + (if rec.isCorrect then 1 else 0)
    ensures TrailingCorrect(log + [rec]) == (if rec.isCorrect then TrailingCorrect(log) + 1 else 0)
    ensures BestRun(log + [rec]) == Max(BestRun(log), TrailingCorrect(log + [rec]))
  {
    var l := log + [rec];
    assert l[..|l| - 1] == log;
  }

  /** One entry's update, stated on the entry alone, keeps it consistent. */
  lemma EntryStep(s: ScenarioProgress, t: ScenarioProgress, log: seq<AttemptRecord>, rec: AttemptRecord,
                  tc: nat, tc': nat)
    requires EntryConsistent(s, log, tc) && tc <= tc'
    requires t.scenarioKey == s.scenarioKey
    requires t.unlocked <==> s.unlocked || tc' >= UnlockRequirementOf(s.scenarioKey).requiredCorrect
    requires s.scenarioKey != rec.scenarioKey ==> t == s.(unlocked := t.unlocked)
    requires s.scenarioKey == rec.scenarioKey ==>
      t.attempts == s.attempts + 1 &&
      t.correctAttempts == s.correctAttempts + (if rec.isCorrect then 1 else 0) &&
      t.averageAccuracy == MeanAccuracy(AccuraciesFor(log + [rec], s.scenarioKey)) &&
      t.bestAccuracy == Max(s.bestAccuracy, rec.accuracy) &&
      (t.completed <==> s.completed || t.correctAttempts >= 5) &&
      t.completedAt == (if !s.completed && t.correctAttempts >= 5 then Some(rec.timestamp) else s.completedAt)
    ensures EntryConsistent(t, log + [rec], tc')
  {
    StatisticsAppend(log, rec, s.scenarioKey);
    if s.scenarioKey != rec.scenarioKey {
      assert AccuraciesFor(log, s.scenarioKey) + [] == AccuraciesFor(log, s.scenarioKey);
    }
  }

  lemma EntryStaysConsistent(p: UserProgress, rec: AttemptRecord, i: nat)
    requires Consistent(p) && i < |p.scenarios|
    ensures EntryConsistent(AfterAttempt(p, rec).scenarios[i], p.attempts + [rec], AfterAttempt(p, rec).totalCorrect)
  {
    ScenarioEntryUpdated(p, rec, i);
    assert EntryConsistent(p.scenarios[i], p.attempts, p.totalCorrect);
    var q := AfterAttempt(p, rec);
    EntryStep(p.scenarios[i], q.scenarios[i], p.attempts, rec, p.totalCorrect, q.totalCorrect);
  }

  lemma BadgesKeepTracking(p: UserProgress, rec: AttemptRecord)
    requires Consistent(p)
    ensures BadgesTrack(AfterAttempt(p, rec)) && UniqueIds(AfterAttempt(p, rec).badges)
  {
    var q := AfterAttempt(p, rec);
    BadgesAwarded(p, rec);
    forall id ensures Held(q.badges, id) <==> Held(p.badges, id) || Qualifies(id, q) {
      HeldConcat(p.badges, NewBadges(p, rec), id);
    }
  }

  /** recordAttempt keeps the ledger consistent with its log. */
  lemma AfterAttemptConsistent(p: UserProgress, rec: AttemptRecord)
    requires Consistent(p) && Scored(rec)
    ensures Consistent(AfterAttempt(p, rec))
  {
    var q := AfterAttempt(p, rec);
    var log := p.attempts + [rec];
    assert log[..|log| - 1] == p.attempts;
    StatisticsAppend(p.attempts, rec, rec.scenarioKey);
    forall j | 0 <= j < |log| ensures Scored(log[j]) {
      if j < |p.attempts| { assert log[j] == p.attempts[j]; }
    }
    forall i | 0 <= i < |q.scenarios| ensures EntryConsistent(q.scenarios[i], q.attempts, q.totalCorrect) {
      EntryStaysConsistent(p, rec, i);
    }
    BadgesKeepTracking(p, rec);
  }

  /** With a consistent ledger at four correct attempts, the fifth correct
      one unlocks the hypertensive scenario and awards "accuracy_ace". */
  lemma FifthCorrectUnlocksHypertensive(p: UserProgress, rec: AttemptRecord)
    requires Consistent(p) && p.totalCorrect == 4 && rec.isCorrect
    ensures !p.scenarios[KeyIndex(Hypertensive)].unlocked
    ensures AfterAttempt(p, rec).scenarios[KeyIndex(Hypertensive)].unlocked
    ensures Held(NewBadges(p, rec), AccuracyAce)
  {
    assert EntryConsistent(p.scenarios[1], p.attempts, p.totalCorrect);
    ScenarioEntryUpdated(p, rec, 1);
    BadgesAwarded(p, rec);
  }

  /** Likewise the tenth correct attempt unlocks the arrhythmic scenario. */
  lemma TenthCorrectUnlocksArrhythmic(p: UserProgress, rec: AttemptRecord)
    requires Consistent(p) && p.totalCorrect == 9 && rec.isCorrect
    ensures !p.scenarios[KeyIndex(Arrhythmic)].unlocked
    ensures AfterAttempt(p, rec).scenarios[KeyIndex(Arrhythmic)].unlocked
    ensures Held(NewBadges(p, rec), HypertensionHero)
  {
    assert EntryConsistent(p.scenarios[2], p.attempts, p.totalCorrect);
    ScenarioEntryUpdated(p, rec, 2);
    BadgesAwarded(p, rec);
  }

  /** The fifth correct attempt in a scenario completes it, once. */
  lemma FifthScenarioCorrectCompletes(p: UserProgress, rec: AttemptRecord)
    requires Consistent(p) && rec.isCorrect
    requires p.scenarios[KeyIndex(rec.scenarioKey)].correctAttempts == 4
    ensures !p.scenarios[KeyIndex(rec.scenarioKey)].completed
    ensures var t := AfterAttempt(p, rec).scenarios[KeyIndex(rec.scenarioKey)];
      t.completed && t.completedAt == Some(rec.timestamp)
  {
    var i := KeyIndex(rec.scenarioKey);
    assert EntryConsistent(p.scenarios[i], p.attempts, p.totalCorrect);
    ScenarioEntryUpdated(p, rec, i);
  }

  /** A sequence of submissions applied in order. */
  function Replay(p: UserProgress, recs: seq<AttemptRecord>): (r: UserProgress)
    ensures |r.scenarios| == |p.scenarios|
    decreases |recs|
  {
    if recs == [] then p else Replay(AfterAttempt(p, recs[0]), recs[1..])
  }

  lemma {:induction false} ReplayConsistent(p: UserProgress, recs: seq<AttemptRecord>)
    requires Consistent(p)
    requires forall j :: 0 <= j < |recs| ==> Scored(recs[j])
    ensures Consistent(Replay(p, recs))
    ensures Replay(p, recs).totalCorrect == p.totalCorrect + CorrectCount(recs)
    decreases |recs|
  {
    if recs != [] {
      AfterAttemptConsistent(p, recs[0]);
      ReplayConsistent(AfterAttempt(p, recs[0]), recs[1..]);
      CorrectCountCons(recs);
    }
  }

  lemma {:induction false} CorrectCountCons(recs: seq<AttemptRecord>)
    requires recs != []
    ensures CorrectCount(recs) == (if recs[0].isCorrect then 1 else 0) + CorrectCount(recs[1..])
    decreases |recs|
  {
    if |recs| > 1 {
      var pre := recs[..|recs| - 1];
      CorrectCountCons(pre);
      assert pre[1..] == recs[1..][..|recs[1..]| - 1];
      assert pre[0] == recs[0];
    } else {
      assert recs[1..] == [];
      assert recs[..0] == [];
    }
  }

  lemma {:induction false} AllCorrectCount(recs: seq<AttemptRecord>)
    requires forall j :: 0 <= j < |recs| ==> recs[j].isCorrect
    ensures CorrectCount(recs) == |recs|
  {
    if recs != [] { AllCorrectCount(recs[..|recs| - 1]); }
  }

  /** A fresh user who submits five correct readings unlocks the
      hypertensive scenario and earns "accuracy_ace" on the fifth. */
  lemma FreshUserFiveCorrect(u: User, recs: seq<AttemptRecord>)
    requires |recs| == 5
    requires forall j :: 0 <= j < 5 ==> Scored(recs[j]) && recs[j].isCorrect
    ensures var p4 := Replay(DefaultProgress(u), recs[..4]);
      !p4.scenarios[KeyIndex(Hypertensive)].unlocked &&
      AfterAttempt(p4, recs[4]).scenarios[KeyIndex(Hypertensive)].unlocked &&
      Held(NewBadges(p4, recs[4]), AccuracyAce)
  {
    var first := recs[..4];
    DefaultConsistent(u);
    ReplayConsistent(DefaultProgress(u), first);
    AllCorrectCount(first);
    FifthCorrectUnlocksHypertensive(Replay(DefaultProgress(u), first), recs[4]);
  }

  /** The update part of recordAttempt: copies the progress and changes its
      fields one step at a time, then evaluates and appends the badges. */
  method ApplyAttempt(progress: UserProgress, rec: AttemptRecord)
    returns (updated: UserProgress, newBadges: seq<Badge>)
    ensures updated == AfterAttempt(progress, rec)
    ensures newBadges == NewBadges(progress, rec)
  {
    var isCorrect, now := rec.isCorrect, rec.timestamp;
    updated := progress;
    updated := updated.(attempts := updated.attempts + [rec]);
    updated := updated.(totalAttempts := updated.totalAttempts + 1);
    if isCorrect {
      updated := updated.(totalCorrect := updated.totalCorrect + 1);
      updated := updated.(currentStreak := updated.currentStreak + 1);
      updated := updated.(bestStreak := Max(updated.bestStreak, updated.currentStreak));
    } else {
      updated := updated.(currentStreak := 0);
    }
    updated := updated.(overallAccuracy := RoundDiv(100 * updated.totalCorrect, updated.totalAttempts));
    updated := updated.(experience := updated.experience + if isCorrect then 50 else 10);
    updated := updated.(level := updated.experience / 100);
    updated := updated.(scenarios := UpdateScenarios(updated.scenarios, rec.scenarioKey, updated.attempts,
                                                     rec.accuracy, isCorrect, now));
    assert updated == Counted(progress, rec);
    updated := UpdateScenarioUnlocks(updated);
    newBadges := CheckForNewBadges(updated, now);
    updated := updated.(badges := updated.badges + newBadges);
  }

  // ---------------------------------------------------------------------
  // Scenario lookup

  /** `scenarios.find(...)` by position: the first entry with the key. */
  function FindScenarioIndex(scs: seq<ScenarioProgress>, key: ScenarioKey): (r: Option<nat>)
    ensures r.Some? ==> (r.value < |scs| && scs[r.value].scenarioKey == key &&
                         forall j :: 0 <= j < r.value ==> scs[j].scenarioKey != key)
    ensures r.None? ==> forall i :: 0 <= i < |scs| ==> scs[i].scenarioKey != key
  {
    if scs == [] then None
    else if scs[0].scenarioKey == key then Some(0)
    else
      match FindScenarioIndex(scs[1..], key)
      case None => None
      case Some(i) => Some(i + 1)
  }

  /** `scenarios.find(s => s.scenarioKey === key)`. */
  function FindScenario(scs: seq<ScenarioProgress>, key: ScenarioKey): Option<ScenarioProgress>
  {
    match FindScenarioIndex(scs, key)
    case None => None
    case Some(i) => Some(scs[i])
  }

  /** In a well-formed scenario list the lookup finds the key's own entry. */
  lemma FindScenarioByKey(scs: seq<ScenarioProgress>, key: ScenarioKey)
    ensures ScenariosWellFormed(scs) ==> FindScenario(scs, key) == Some(scs[KeyIndex(key)])
  {
    if !ScenariosWellFormed(scs) { return; }
    assert scs[KeyIndex(key)].scenarioKey == key;
    var i := FindScenarioIndex(scs, key).value;
    assert ScenarioKeys[i] == key;
  }

  // ---------------------------------------------------------------------
  // Identity store

  predicate IsUpperAscii(c: char)
  {
    'A' <= c <= 'Z'
  }

  function LowerChar(c: char): char
  {
    if IsUpperAscii(c) then (c as int + 32) as char else c
  }

  /** `toLowerCase` on the ASCII letters. */
  function Lower(s: string): (r: string)
    ensures |r| == |s|
    ensures forall i :: 0 <= i < |r| ==> !IsUpperAscii(r[i])
    ensures forall i :: 0 <= i < |r| ==> r[i] == s[i] || (IsUpperAscii(s[i]) && r[i] as int == s[i] as int + 32)
  {
    seq(|s|, i requires 0 <= i < |s| => LowerChar(s[i]))
  }

  lemma LowerIdempotent(s: string)
    ensures Lower(Lower(s)) == Lower(s)
  {
    var l := Lower(s);
    assert forall i :: 0 <= i < |l| ==> Lower(l)[i] == l[i];
  }

  /** Some stored account's email matches, ignoring case. */
  ghost predicate EmailTaken(users: map<string, UserProgress>, email: string)
  {
    exists id :: id in users && Lower(users[id].user.email) == Lower(email)
  }

  function WithLastLogin(p: UserProgress, now: Timestamp): UserProgress
  {
    p.(user := p.user.(lastLogin := now))
  }

  /** Every stored account is keyed by its own id, keeps a consistent
      ledger, and no two accounts share an email up to case. */
  ghost predicate StoreOk(users: map<string, UserProgress>)
  {
    (forall id :: id in users ==> users[id].user.id == id && Consistent(users[id])) &&
    (forall a, b :: a in users && b in users && Lower(users[a].user.email) == Lower(users[b].user.email) ==> a == b)
  }

  /** Storing an account whose email no other account uses keeps the store valid. */
  lemma StorePut(users: map<string, UserProgress>, id: string, p: UserProgress)
    requires StoreOk(users) && p.user.id == id && Consistent(p)
    requires forall b :: b in users && b != id ==> Lower(users[b].user.email) != Lower(p.user.email)
    ensures StoreOk(users[id := p])
  {
  }

  /** The users map that stands for browser storage, and the pointer to the
      signed-in user; the signed-in user's progress is `users[current]`. */
  class UserStore {
    var users: map<string, UserProgress>
    var current: Option<string>

    ghost predicate Valid()
      reads this
    {
      StoreOk(users) && (current.Some? ==> current.value in users)
    }

    /** An empty store with nobody signed in. */
    constructor ()
      ensures Valid() && users == map[] && current == None
    {
      users := map[];
      current := None;
    }

    /** `Object.values(users).find(...)` on the email, ignoring case. */
    method FindByEmail(email: string) returns (r: Option<string>)
      ensures r.Some? ==> r.value in users && Lower(users[r.value].user.email) == Lower(email)
      ensures r.None? <==> !EmailTaken(users, email)
    {
      var keys := users.Keys;
      while keys != {}
        invariant keys <= users.Keys
        invariant forall id :: id in users.Keys - keys ==> Lower(users[id].user.email) != Lower(email)
        decreases keys
      {
        var id :| id in keys;
        if Lower(users[id].user.email) == Lower(email) {
          return Some(id);
        }
        keys := keys - {id};
      }
      return None;
    }

    /** signup: refused when the email is taken; otherwise stores a new
        account under the lowercased email with default progress and signs
        it in. */
    method Signup(email: string, name: string, password: string, userId: string, now: Timestamp)
      returns (ok: bool)
      requires Valid()
      modifies this
      ensures Valid()
      ensures ok <==> !EmailTaken(old(users), email)
      ensures !ok ==> users == old(users) && current == old(current)
      ensures ok ==> (current == Some(userId) &&
                      users == old(users)[userId := DefaultProgress(User(userId, Lower(email), name, password, now, now))])
    {
      var existing := FindByEmail(email);
      if existing.Some? {
        return false;
      }
      var newUser := User(userId, Lower(email), name, password, now, now);
      DefaultConsistent(newUser);
      LowerIdempotent(email);
      StorePut(users, userId, DefaultProgress(newUser));
      users := users[userId := DefaultProgress(newUser)];
      current := Some(userId);
      ok := true;
    }

    /** login: refused for an unknown email or a wrong password; otherwise
        records the login time and signs the account in. */
    method Login(email: string, password: string, now: Timestamp) returns (ok: bool)
      requires Valid()
      modifies this
      ensures Valid()
      ensures ok <==> exists id :: (id in old(users) &&
                                    Lower(old(users)[id].user.email) == Lower(email) &&
                                    old(users)[id].user.password == password)
      ensures !ok ==> users == old(users) && current == old(current)
      ensures ok ==> (current.Some? && current.value in old(users) &&
                      Lower(old(users)[current.value].user.email) == Lower(email) &&
                      users == old(users)[current.value := WithLastLogin(old(users)[current.value], now)])
    {
      var found := FindByEmail(email);
      if found.None? {
        return false;
      }
      var id := found.value;
      if users[id].user.password != password {
        return false;
      }
      var p := users[id];
      assert Consistent(p);
      assert Consistent(WithLastLogin(p, now));
      StorePut(users, id, WithLastLogin(p, now));
      users := users[id := WithLastLogin(p, now)];
      current := Some(id);
      ok := true;
    }

    /** logout: clears the signed-in pointer only. */
    method Logout()
      requires Valid()
      modifies this
      ensures Valid() && users == old(users) && current == None
    {
      current := None;
    }

    /** recordAttempt: scores the reading and replaces the signed-in user's
        progress by its updated copy, returning the score and new badges. */
    method RecordAttempt(key: ScenarioKey, trueSystolic: int, trueDiastolic: int,
                         userSystolic: int, userDiastolic: int,
                         attemptId: string, now: Timestamp)
      returns (accuracy: nat, isCorrect: bool, newBadges: seq<Badge>)
      requires Valid() && current.Some?
      modifies this
      ensures Valid() && current == old(current)
      ensures var rec := MakeAttempt(key, trueSystolic, trueDiastolic, userSystolic, userDiastolic, attemptId, now);
        users == old(users)[current.value := AfterAttempt(old(users)[current.value], rec)] &&
        accuracy == rec.accuracy && isCorrect == rec.isCorrect &&
        newBadges == NewBadges(old(users)[current.value], rec)
    {
      var id := current.value;
      var systolicError := Abs(trueSystolic - userSystolic);
      var diastolicError := Abs(trueDiastolic - userDiastolic);
      var averageError := (systolicError + diastolicError) as real / 2.0;
      accuracy := CalculateAccuracy(systolicError, diastolicError);
      isCorrect := systolicError <= AccuracyTolerance && diastolicError <= AccuracyTolerance;
      var rec := AttemptRecord(attemptId, key, now, trueSystolic, trueDiastolic, userSystolic, userDiastolic,
                               systolicError, diastolicError, averageError, accuracy, isCorrect);
      assert rec == MakeAttempt(key, trueSystolic, trueDiastolic, userSystolic, userDiastolic, attemptId, now);

      var before := users[id];
      var updated;
      updated, newBadges := ApplyAttempt(before, rec);
      AfterAttemptConsistent(before, rec);
      AttemptAppended(before, rec);
      StorePut(users, id, updated);
      users := users[id := updated];
    }

    /** checkScenarioUnlocked: whether the signed-in user may open a scenario. */
    function CheckScenarioUnlocked(key: ScenarioKey): (r: bool)
      reads this
      ensures Valid() ==> (r <==> current.Some? && users[current.value].scenarios[KeyIndex(key)].unlocked)
    {
      if current.None? || current.value !in users then false
      else
        var scs := users[current.value].scenarios;
        FindScenarioByKey(scs, key);
        var found := FindScenario(scs, key);
        if found.Some? then found.value.unlocked else false
    }

    /** getScenarioProgress: the signed-in user's entry for a scenario. */
    function GetScenarioProgress(key: ScenarioKey): (r: Option<ScenarioProgress>)
      reads this
      ensures Valid() ==> (r.Some? <==> current.Some?)
      ensures Valid() && r.Some? ==> r.value == users[current.value].scenarios[KeyIndex(key)] && r.value.scenarioKey == key
    {
      if current.None? || current.value !in users then None
      else
        var scs := users[current.value].scenarios;
        FindScenarioByKey(scs, key);
        FindScenario(scs, key)
    }
  }
}
