/** The view-model helpers of src/components/Dashboard/Dashboard.tsx. The
    locale date string of a timestamp is an opaque `dayKey` parameter
    (assumed never to look like an integer, so object keys keep insertion
    order). */
module Dashboard {
  import opened Arith
  import opened UserTypes
  import opened UserContext

  // ---------------------------------------------------------------------------
  // Accuracy per day

  /** The distinct days of a log, in the order they are first seen. */
  function Days(log: seq<AttemptRecord>, dayKey: Timestamp -> string): seq<string>
  {
    if log == [] then []
    else
      var earlier := Days(log[..|log| - 1], dayKey);
      var day := dayKey(log[|log| - 1].timestamp);
      if day in earlier then earlier else earlier + [day]
  }

  /** The accuracies logged on one day, in log order. */
  function DayAccuracies(log: seq<AttemptRecord>, dayKey: Timestamp -> string, day: string): seq<int>
  {
    if log == [] then []
    else
      DayAccuracies(log[..|log| - 1], dayKey, day) +
      (if dayKey(log[|log| - 1].timestamp) == day then [log[|log| - 1].accuracy as int] else [])
  }

  datatype DayPoint = DayPoint(name: string, accuracy: int)

  /** A day's chart point: the rounded mean of that day's accuracies. */
  function Point(log: seq<AttemptRecord>, dayKey: Timestamp -> string, day: string): DayPoint
    requires DayAccuracies(log, dayKey, day) != []
  {
    var accs := DayAccuracies(log, dayKey, day);
    DayPoint(day, RoundDiv(Sum(accs), |accs|))
  }

  /** A day is listed exactly when some attempt fell on it, which is exactly
      when it has accuracies; no day is listed twice. */
  lemma {:induction false} DaysListAttemptedDays(log: seq<AttemptRecord>, dayKey: Timestamp -> string, day: string)
    ensures day in Days(log, dayKey) <==> DayAccuracies(log, dayKey, day) != []
    ensures day in Days(log, dayKey) <==> exists j :: 0 <= j < |log| && dayKey(log[j].timestamp) == day
    ensures forall a, b :: 0 <= a < b < |Days(log, dayKey)| ==> Days(log, dayKey)[a] != Days(log, dayKey)[b]
  {
    if log != [] {
      var init := log[..|log| - 1];
      DaysListAttemptedDays(init, dayKey, day);
      if exists j :: 0 <= j < |init| && dayKey(init[j].timestamp) == day {
        var j :| 0 <= j < |init| && dayKey(init[j].timestamp) == day;
        assert log[j] == init[j];
      }
      if exists j :: 0 <= j < |log| && dayKey(log[j].timestamp) == day {
        var j :| 0 <= j < |log| && dayKey(log[j].timestamp) == day;
        if j < |init| {
          assert init[j] == log[j];
        }
      }
    }
  }

  /** Every accuracy of a day comes from an attempt of that day. */
  lemma {:induction false} DayAccuraciesFromLog(log: seq<AttemptRecord>, dayKey: Timestamp -> string, day: string)
    ensures forall i :: 0 <= i < |DayAccuracies(log, dayKey, day)| ==>
      exists j :: 0 <= j < |log| && DayAccuracies(log, dayKey, day)[i] == log[j].accuracy as int
  {
    if log != [] {
      var init := log[..|log| - 1];
      DayAccuraciesFromLog(init, dayKey, day);
      var accs := DayAccuracies(log, dayKey, day);
      var prior := DayAccuracies(init, dayKey, day);
      assert accs == prior +
        (if dayKey(log[|log| - 1].timestamp) == day then [log[|log| - 1].accuracy as int] else []);
      forall i | 0 <= i < |accs|
        ensures exists j :: 0 <= j < |log| && accs[i] == log[j].accuracy as int
      {
        if i < |prior| {
          assert accs[i] == prior[i];
          var j :| 0 <= j < |init| && prior[i] == init[j].accuracy as int;
          assert log[j] == init[j];
        } else {
          assert accs[i] == log[|log| - 1].accuracy as int;
        }
      }
      assert forall i :: 0 <= i < |accs| ==> exists j :: 0 <= j < |log| && accs[i] == log[j].accuracy as int;
    } else {
      assert DayAccuracies(log, dayKey, day) == [];
    }
  }

  function MinOf(s: seq<int>): (r: int)
    requires s != []
    ensures r in s && forall i :: 0 <= i < |s| ==> r <= s[i]
  {
    if |s| == 1 then s[0] else Min(MinOf(s[..|s| - 1]), s[|s| - 1])
  }

  function MaxOf(s: seq<int>): (r: int)
    requires s != []
    ensures r in s && forall i :: 0 <= i < |s| ==> s[i] <= r
  {
    if |s| == 1 then s[0] else Max(MaxOf(s[..|s| - 1]), s[|s| - 1])
  }

  /** A day's value lies between that day's lowest and highest accuracy, so
      within [0, 100] for a log of scored attempts. */
  lemma PointWithinDay(log: seq<AttemptRecord>, dayKey: Timestamp -> string, day: string)
    requires DayAccuracies(log, dayKey, day) != []
    ensures MinOf(DayAccuracies(log, dayKey, day)) <= Point(log, dayKey, day).accuracy <= MaxOf(DayAccuracies(log, dayKey, day))
    ensures (forall j :: 0 <= j < |log| ==> log[j].accuracy <= 100) ==> 0 <= Point(log, dayKey, day).accuracy <= 100
  {
    var accs := DayAccuracies(log, dayKey, day);
    MeanWithin(accs, MinOf(accs), MaxOf(accs));
    DayAccuraciesFromLog(log, dayKey, day);
    if forall j :: 0 <= j < |log| ==> log[j].accuracy <= 100 {
      MeanWithin(accs, 0, 100);
    }
  }

  /** prepareAccuracyData: group the log by day into a dictionary, then one
      point per day in first-seen order, keeping the last seven. */
  method PrepareAccuracyData(attempts: seq<AttemptRecord>, dayKey: Timestamp -> string) returns (data: seq<DayPoint>)
    ensures data == [] <==> attempts == []
    ensures var days := Days(attempts, dayKey);
      |data| == Min(|days|, 7) &&
      forall i :: 0 <= i < |data| ==>
        var day := days[|days| - |data| + i];
        DayAccuracies(attempts, dayKey, day) != [] && data[i] == Point(attempts, dayKey, day)
  {
    if |attempts| == 0 {
      return [];
    }
    var grouped: map<string, seq<int>> := map[];
    var order: seq<string> := [];
    var i := 0;
    while i < |attempts|
      invariant 0 <= i <= |attempts|
      invariant order == Days(attempts[..i], dayKey)
      invariant forall d :: d in grouped <==> d in order
      invariant forall d :: d in grouped ==> grouped[d] == DayAccuracies(attempts[..i], dayKey, d)
    {
      var day := dayKey(attempts[i].timestamp);
      assert attempts[..i + 1][..i] == attempts[..i];
      DaysListAttemptedDays(attempts[..i], dayKey, day);
      if day !in grouped {
        grouped := grouped[day := []];
        order := order + [day];
      }
      grouped := grouped[day := grouped[day] + [attempts[i].accuracy as int]];
      i := i + 1;
    }
    assert attempts[..i] == attempts;
    var entries: seq<DayPoint> := [];
    var k := 0;
    while k < |order|
      invariant 0 <= k <= |order|
      invariant |entries| == k
      invariant forall j :: 0 <= j < k ==>
        DayAccuracies(attempts, dayKey, order[j]) != [] && entries[j] == Point(attempts, dayKey, order[j])
    {
      DaysListAttemptedDays(attempts, dayKey, order[k]);
      var accuracies := grouped[order[k]];
      entries := entries + [DayPoint(order[k], RoundDiv(Sum(accuracies), |accuracies|))];
      k := k + 1;
    }
    DaysListAttemptedDays(attempts, dayKey, dayKey(attempts[0].timestamp));
    data := entries[Max(0, |entries| - 7)..];
  }

  // ---------------------------------------------------------------------------
  // Per-scenario bars

  /** The text before the first space (split on ' ', first piece). */
  function FirstWord(s: string): (r: string)
    ensures r <= s && ' ' !in r
    ensures |r| == |s| || s[|r|] == ' '
    decreases s
  {
    if s == [] || s[0] == ' ' then [] else [s[0]] + FirstWord(s[1..])
  }

  /** A name made of a word, a space and more text is labelled by the word. */
  lemma {:induction false} FirstWordOfSpaced(a: string, b: string)
    requires ' ' !in a
    ensures FirstWord(a + " " + b) == a
    decreases a
  {
    if a != [] {
      assert (a + " " + b)[1..] == a[1..] + " " + b;
      FirstWordOfSpaced(a[1..], b);
    } else {
      assert (a + " " + b)[0] == ' ';
    }
  }

  /** A name without spaces is its own label. */
  lemma {:induction false} FirstWordOfWord(a: string)
    requires ' ' !in a
    ensures FirstWord(a) == a
    decreases a
  {
    if a != [] {
      FirstWordOfWord(a[1..]);
    }
  }

  datatype ScenarioBar = ScenarioBar(name: string, attempts: nat, correct: nat, accuracy: int)

  function Bar(sc: ScenarioProgress): ScenarioBar
  {
    ScenarioBar(FirstWord(sc.scenarioName), sc.attempts, sc.correctAttempts, sc.averageAccuracy)
  }

  /** prepareScenarioData: one bar per scenario, in order. */
  function PrepareScenarioData(scenarios: seq<ScenarioProgress>): (r: seq<ScenarioBar>)
    ensures |r| == |scenarios|
  {
    seq(|scenarios|, i requires 0 <= i < |scenarios| => Bar(scenarios[i]))
  }

  /** Each bar copies its scenario's counters and labels it by the first
      word of its name. */
  lemma ScenarioBarsCopy(scenarios: seq<ScenarioProgress>)
    ensures forall i :: 0 <= i < |scenarios| ==>
      PrepareScenarioData(scenarios)[i].attempts == scenarios[i].attempts &&
      PrepareScenarioData(scenarios)[i].correct == scenarios[i].correctAttempts &&
      PrepareScenarioData(scenarios)[i].accuracy == scenarios[i].averageAccuracy &&
      PrepareScenarioData(scenarios)[i].name <= scenarios[i].scenarioName
  {
  }

  /** The default scenarios are labelled by single words. */
  lemma DefaultScenarioBars(u: User)
    ensures var r := PrepareScenarioData(DefaultProgress(u).scenarios);
      |r| == 3 &&
      r[0] == ScenarioBar("Healthy", 0, 0, 0) &&
      r[1] == ScenarioBar("Hypertensive", 0, 0, 0) &&
      r[2] == ScenarioBar("Arrhythmic", 0, 0, 0)
  {
    DefaultLabels();
  }

  /** The labels of the three default scenario names. */
  lemma DefaultLabels()
    ensures FirstWord("Healthy Adult") == "Healthy"
    ensures FirstWord("Hypertensive") == "Hypertensive"
    ensures FirstWord("Arrhythmic") == "Arrhythmic"
  {
    FirstWordOfSpaced("Healthy", "Adult");
    assert "Healthy" + " " + "Adult" == "Healthy Adult";
    FirstWordOfWord("Hypertensive");
    FirstWordOfWord("Arrhythmic");
  }

  // ---------------------------------------------------------------------------
  // Recent badges

  /** Most recently earned first. */
  predicate NewestFirst(s: seq<Badge>)
  {
    forall i, j :: 0 <= i < j < |s| ==> s[i].earnedAt >= s[j].earnedAt
  }

  ghost predicate NewestUpTo(a: array<Badge>, n: int)
    reads a
  {
    forall k, l :: 0 <= k < l < n && l < a.Length ==> a[k].earnedAt >= a[l].earnedAt
  }

  /** One insertion step: moves a[i] left past every older badge. */
  method InsertNewest(a: array<Badge>, i: int)
    requires 1 <= i < a.Length && NewestUpTo(a, i)
    modifies a
    ensures NewestUpTo(a, i + 1)
    ensures multiset(a[..]) == multiset(old(a[..]))
  {
    var j := i;
    while j > 0 && a[j - 1].earnedAt < a[j].earnedAt
      invariant 0 <= j <= i
      invariant forall k, l :: 0 <= k < l <= i && l != j ==> a[k].earnedAt >= a[l].earnedAt
      invariant 0 < j < i ==> a[j - 1].earnedAt >= a[j + 1].earnedAt
      invariant multiset(a[..]) == multiset(old(a[..]))
    {
      a[j - 1], a[j] := a[j], a[j - 1];
      j := j - 1;
    }
  }

  /** The comparator's in-place sort, as an insertion sort (stable, like
      the engine's). */
  method SortNewestFirst(a: array<Badge>)
    modifies a
    ensures NewestFirst(a[..])
    ensures multiset(a[..]) == multiset(old(a[..]))
  {
    if a.Length == 0 {
      return;
    }
    var i := 1;
    while i < a.Length
      invariant 1 <= i <= a.Length
      invariant NewestUpTo(a, i)
      invariant multiset(a[..]) == multiset(old(a[..]))
    {
      InsertNewest(a, i);
      i := i + 1;
    }
  }

  /** getRecentBadges: sorts the held badges in place, newest first, and
      returns at most the first three. */
  method GetRecentBadges(badges: array<Badge>) returns (recent: seq<Badge>)
    modifies badges
    ensures recent == badges[..Min(3, badges.Length)]
    ensures NewestFirst(badges[..]) && multiset(badges[..]) == multiset(old(badges[..]))
  {
    if badges.Length == 0 {
      return [];
    }
    SortNewestFirst(badges);
    recent := badges[..Min(3, badges.Length)];
  }

  /** The first k of a newest-first list are at least as recent as every
      badge after them, and are themselves newest first. */
  lemma RecentAreNewest(s: seq<Badge>, k: nat)
    requires NewestFirst(s) && k <= |s|
    ensures NewestFirst(s[..k])
    ensures forall i, j :: 0 <= i < k <= j < |s| ==> s[..k][i].earnedAt >= s[j].earnedAt
  {
  }

  // ---------------------------------------------------------------------------
  // Level progress and the next-badge hint

  /** The experience earned within the current level. */
  function CurrentLevelXp(experience: nat): (r: nat)
    ensures r < 100
    ensures (experience / 100) * 100 + r == experience
  {
    experience % 100
  }

  /** For a progress record the ledger keeps, level and within-level XP
      recover the experience. */
  lemma LevelAndXpRecoverExperience(p: UserProgress)
    requires Consistent(p)
    ensures p.level * 100 + CurrentLevelXp(p.experience) == p.experience
  {
  }

  /** The next-badge hint: a chain over totalCorrect, then currentStreak. */
  function NextBadgeHint(totalCorrect: nat, currentStreak: nat): (r: BadgeId)
    ensures r == FirstSuccess <==> totalCorrect < 1
    ensures r == AccuracyAce <==> 1 <= totalCorrect < 5
    ensures r == HypertensionHero <==> 5 <= totalCorrect < 10
    ensures r == StreakMaster <==> totalCorrect >= 10 && currentStreak < 5
    ensures r == PrecisionExpert <==> totalCorrect >= 10 && currentStreak >= 5
  {
    if totalCorrect < 1 then FirstSuccess
    else if totalCorrect < 5 then AccuracyAce
    else if totalCorrect < 10 then HypertensionHero
    else if currentStreak < 5 then StreakMaster
    else PrecisionExpert
  }

  /** The hint box appears only once some but not all five badges are held. */
  function ShownHint(p: UserProgress): (r: Option<BadgeId>)
    ensures r.Some? <==> 0 < |p.badges| < 5
  {
    if 0 < |p.badges| && |p.badges| < 5 then Some(NextBadgeHint(p.totalCorrect, p.currentStreak)) else None
  }

  /** On a record the ledger keeps, a hint naming one of the three
      count-based badges names a badge not yet held. */
  lemma CountHintsAreUnheld(p: UserProgress)
    requires Consistent(p)
    ensures NextBadgeHint(p.totalCorrect, p.currentStreak) in {FirstSuccess, AccuracyAce, HypertensionHero} ==>
      !Held(p.badges, NextBadgeHint(p.totalCorrect, p.currentStreak))
  {
  }

  /** The streak hint reads the current streak while the badge is awarded
      on the best streak: after a broken streak of five it names a badge
      already held. */
  lemma StreakHintMayNameHeldBadge(p: UserProgress)
    requires Consistent(p)
    requires p.totalCorrect >= 10 && p.currentStreak < 5 && p.bestStreak >= 5
    ensures NextBadgeHint(p.totalCorrect, p.currentStreak) == StreakMaster
    ensures Held(p.badges, StreakMaster)
  {
  }
}
