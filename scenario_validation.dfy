/** Blood-pressure classification and per-scenario plausibility checks of
    src/components/Scenario/ScenarioValidation.ts. Readings are integers
    (mmHg); scenario keys are the raw strings the source switches over. */
module ScenarioValidation {
  import opened UserTypes

  datatype Category = Normal | Elevated | Stage1 | Stage2 | Crisis | Unknown

  /** The category as the source computes it: Stage 1 is tested before Stage 2. */
  function GetBPCategory(s: int, d: int): (r: Category)
    ensures r != Crisis && r != Unknown
    ensures r == Normal <==> s < 120 && d < 80
  {
    if s < 120 && d < 80 then Normal
    else if s < 130 && d < 80 then Elevated
    else if (s >= 130 && s <= 139) || (d >= 80 && d <= 89) then Stage1
    else if s >= 140 || d >= 90 then Stage2
    else if s >= 180 || d >= 120 then Crisis
    else Unknown
  }

  /** Every integer reading gets exactly one of the four guideline bands,
      each characterised on its own; Crisis and Unknown never occur. */
  lemma CategoryCharacterised(s: int, d: int)
    ensures GetBPCategory(s, d) == Normal <==> s < 120 && d < 80
    ensures GetBPCategory(s, d) == Elevated <==> 120 <= s < 130 && d < 80
    ensures GetBPCategory(s, d) == Stage1 <==> 130 <= s <= 139 || 80 <= d <= 89
    ensures GetBPCategory(s, d) == Stage2 <==> (s >= 140 || d >= 90) && !(130 <= s <= 139) && !(80 <= d <= 89)
    ensures GetBPCategory(s, d) != Crisis && GetBPCategory(s, d) != Unknown
  {
  }

  /** Readings in the crisis range are reported as Stage 2. */
  lemma CrisisCaughtByStage2(s: int, d: int)
    requires s >= 180 || d >= 120
    ensures GetBPCategory(s, d) == Stage1 || GetBPCategory(s, d) == Stage2
    ensures !(130 <= s <= 139) && !(80 <= d <= 89) ==> GetBPCategory(s, d) == Stage2
  {
  }

  lemma MixedReadingsAreStage1()
    ensures GetBPCategory(150, 85) == Stage1
    ensures GetBPCategory(135, 95) == Stage1
  {
  }

  function Rank(c: Category): nat
  {
    match c
    case Normal => 0
    case Elevated => 1
    case Stage1 => 2
    case Stage2 => 3
    case Crisis => 4
    case Unknown => 0
  }

  function SystolicBand(s: int): Category
  {
    if s < 120 then Normal else if s < 130 then Elevated else if s < 140 then Stage1 else Stage2
  }

  function DiastolicBand(d: int): Category
  {
    if d < 80 then Normal else if d < 90 then Stage1 else Stage2
  }

  /** The categories of the 2017 ACC/AHA guideline (Table 6), where a reading
      whose two values fall in different bands takes the higher band. */
  function GuidelineCategory(s: int, d: int): (c: Category)
    ensures Rank(c) == if Rank(SystolicBand(s)) >= Rank(DiastolicBand(d)) then Rank(SystolicBand(s)) else Rank(DiastolicBand(d))
  {
    if Rank(SystolicBand(s)) >= Rank(DiastolicBand(d)) then SystolicBand(s) else DiastolicBand(d)
  }

  /** The source departs from the guideline exactly on readings with one
      value in the Stage 1 band and the other in the Stage 2 band; there it
      reports Stage 1 where the guideline says Stage 2. */
  lemma DiffersFromGuideline(s: int, d: int)
    ensures GetBPCategory(s, d) != GuidelineCategory(s, d) <==>
      (130 <= s <= 139 && d >= 90) || (80 <= d <= 89 && s >= 140)
    ensures GetBPCategory(s, d) != GuidelineCategory(s, d) ==>
      GetBPCategory(s, d) == Stage1 && GuidelineCategory(s, d) == Stage2
  {
  }

  /** The warnings validateScenarioBP can push, listed in push order. */
  datatype Warning =
    | ElevatedForHealthy
    | PossiblyHypotensive
    | TooLowForHypertensive
    | HypertensiveCrisis
    | SystolicUnrealistic
    | DiastolicUnrealistic
    | UnknownScenario

  const WarningOrder: seq<Warning> := [ElevatedForHealthy, PossiblyHypotensive, TooLowForHypertensive,
    HypertensiveCrisis, SystolicUnrealistic, DiastolicUnrealistic, UnknownScenario]

  datatype Expected = ExpectNormal | ExpectHypertension | ExpectVariable | ExpectUnknown

  datatype Validation = Validation(isValid: bool, expectedCategory: Expected, actualCategory: Category, warnings: seq<Warning>)

  /** When each warning applies, stated warning by warning. */
  predicate Fires(key: string, w: Warning, s: int, d: int)
  {
    match w
    case ElevatedForHealthy => ParseKey(key) == Some(Healthy) && (s >= 120 || d >= 80)
    case PossiblyHypotensive => ParseKey(key) == Some(Healthy) && (s < 90 || d < 60)
    case TooLowForHypertensive => ParseKey(key) == Some(Hypertensive) && s < 130 && d < 80
    case HypertensiveCrisis => ParseKey(key) == Some(Hypertensive) && (s > 180 || d > 120)
    case SystolicUnrealistic => ParseKey(key) == Some(Arrhythmic) && (s < 70 || s > 200)
    case DiastolicUnrealistic => ParseKey(key) == Some(Arrhythmic) && (d < 40 || d > 130)
    case UnknownScenario => ParseKey(key).None?
  }

  /** The warnings of ws that fire, in order. */
  function Firing(ws: seq<Warning>, key: string, s: int, d: int): seq<Warning>
    decreases ws
  {
    if ws == [] then []
    else (if Fires(key, ws[0], s, d) then [ws[0]] else []) + Firing(ws[1..], key, s, d)
  }

  /** Firing keeps exactly the warnings that apply, and no others. */
  lemma {:induction false} FiringSelects(ws: seq<Warning>, key: string, s: int, d: int)
    ensures forall w :: w in Firing(ws, key, s, d) <==> w in ws && Fires(key, w, s, d)
    decreases ws
  {
    if ws != [] {
      FiringSelects(ws[1..], key, s, d);
    }
  }

  /** WarningOrder lists every warning. */
  lemma WarningListed(w: Warning)
    ensures w in WarningOrder
  {
    match w
    case ElevatedForHealthy => assert WarningOrder[0] == w;
    case PossiblyHypotensive => assert WarningOrder[1] == w;
    case TooLowForHypertensive => assert WarningOrder[2] == w;
    case HypertensiveCrisis => assert WarningOrder[3] == w;
    case SystolicUnrealistic => assert WarningOrder[4] == w;
    case DiastolicUnrealistic => assert WarningOrder[5] == w;
    case UnknownScenario => assert WarningOrder[6] == w;
  }

  /** A warning is reported exactly when its condition holds. */
  lemma WarningsExact(key: string, s: int, d: int)
    ensures forall w :: w in Firing(WarningOrder, key, s, d) <==> Fires(key, w, s, d)
  {
    FiringSelects(WarningOrder, key, s, d);
    forall w: Warning ensures w in WarningOrder { WarningListed(w); }
  }

  function Piece(key: string, w: Warning, s: int, d: int): seq<Warning>
  {
    if Fires(key, w, s, d) then [w] else []
  }

  /** Which readings a scenario accepts. */
  predicate Admits(key: string, s: int, d: int)
  {
    match ParseKey(key)
    case None => false
    case Some(Healthy) => s < 120 && d < 80
    case Some(Hypertensive) => !(s < 130 && d < 80)
    case Some(Arrhythmic) => true
  }

  function ExpectedFor(key: string): Expected
  {
    match ParseKey(key)
    case None => ExpectUnknown
    case Some(Healthy) => ExpectNormal
    case Some(Hypertensive) => ExpectHypertension
    case Some(Arrhythmic) => ExpectVariable
  }

  lemma FiringUnfolds(key: string, s: int, d: int)
    ensures Firing(WarningOrder, key, s, d) ==
      Piece(key, ElevatedForHealthy, s, d) + Piece(key, PossiblyHypotensive, s, d) +
      Piece(key, TooLowForHypertensive, s, d) + Piece(key, HypertensiveCrisis, s, d) +
      Piece(key, SystolicUnrealistic, s, d) + Piece(key, DiastolicUnrealistic, s, d) +
      Piece(key, UnknownScenario, s, d)
  {
    var w0 := WarningOrder;
    var w1 := [PossiblyHypotensive, TooLowForHypertensive, HypertensiveCrisis, SystolicUnrealistic, DiastolicUnrealistic, UnknownScenario];
    var w2 := [TooLowForHypertensive, HypertensiveCrisis, SystolicUnrealistic, DiastolicUnrealistic, UnknownScenario];
    var w3 := [HypertensiveCrisis, SystolicUnrealistic, DiastolicUnrealistic, UnknownScenario];
    var w4 := [SystolicUnrealistic, DiastolicUnrealistic, UnknownScenario];
    var w5 := [DiastolicUnrealistic, UnknownScenario];
    var w6 := [UnknownScenario];
    assert w0[1..] == w1 && w1[1..] == w2 && w2[1..] == w3 && w3[1..] == w4;
    assert w4[1..] == w5 && w5[1..] == w6 && w6[1..] == [];
    assert Firing(w6, key, s, d) == Piece(key, UnknownScenario, s, d);
    assert Firing(w5, key, s, d) == Piece(key, DiastolicUnrealistic, s, d) + Firing(w6, key, s, d);
    assert Firing(w4, key, s, d) == Piece(key, SystolicUnrealistic, s, d) + Firing(w5, key, s, d);
    assert Firing(w3, key, s, d) == Piece(key, HypertensiveCrisis, s, d) + Firing(w4, key, s, d);
    assert Firing(w2, key, s, d) == Piece(key, TooLowForHypertensive, s, d) + Firing(w3, key, s, d);
    assert Firing(w1, key, s, d) == Piece(key, PossiblyHypotensive, s, d) + Firing(w2, key, s, d);
    assert Firing(w0, key, s, d) == Piece(key, ElevatedForHealthy, s, d) + Firing(w1, key, s, d);
  }

  /** healthy: valid iff below 120/80, warned when elevated and when low. */
  lemma HealthyValidation(s: int, d: int)
    ensures Admits("healthy", s, d) <==> s < 120 && d < 80
    ensures Firing(WarningOrder, "healthy", s, d) ==
      (if s >= 120 || d >= 80 then [ElevatedForHealthy] else []) + (if s < 90 || d < 60 then [PossiblyHypotensive] else [])
  {
    FiringUnfolds("healthy", s, d);
  }

  /** hypertensive: invalid iff below 130 systolic and 80 diastolic; a crisis
      warning above 180 or 120. */
  lemma HypertensiveValidation(s: int, d: int)
    ensures !Admits("hypertensive", s, d) <==> s < 130 && d < 80
    ensures Firing(WarningOrder, "hypertensive", s, d) ==
      (if s < 130 && d < 80 then [TooLowForHypertensive] else []) + (if s > 180 || d > 120 then [HypertensiveCrisis] else [])
  {
    FiringUnfolds("hypertensive", s, d);
  }

  /** arrhythmic: always valid, warned only outside 70-200 / 40-130. */
  lemma ArrhythmicValidation(s: int, d: int)
    ensures Admits("arrhythmic", s, d)
    ensures Firing(WarningOrder, "arrhythmic", s, d) ==
      (if s < 70 || s > 200 then [SystolicUnrealistic] else []) + (if d < 40 || d > 130 then [DiastolicUnrealistic] else [])
  {
    FiringUnfolds("arrhythmic", s, d);
  }

  /** An unrecognised key is rejected with exactly the one warning. */
  lemma UnknownKeyRejected(key: string, s: int, d: int)
    requires ParseKey(key).None?
    ensures !Admits(key, s, d) && ExpectedFor(key) == ExpectUnknown
    ensures Firing(WarningOrder, key, s, d) == [UnknownScenario]
  {
    FiringUnfolds(key, s, d);
  }

  /** validateScenarioBP: warnings pushed into a list, flags reassigned. */
  method ValidateScenarioBP(key: string, s: int, d: int) returns (v: Validation)
    ensures v.isValid <==> Admits(key, s, d)
    ensures v.warnings == Firing(WarningOrder, key, s, d)
    ensures v.expectedCategory == ExpectedFor(key)
    ensures v.actualCategory == GetBPCategory(s, d)
  {
    var warnings: seq<Warning> := [];
    var isValid := true;
    var expectedCategory := ExpectUnknown;
    var actualCategory := GetBPCategory(s, d);
    if key == "healthy" {
      expectedCategory := ExpectNormal;
      if s >= 120 || d >= 80 {
        isValid := false;
        warnings := warnings + [ElevatedForHealthy];
      }
      if s < 90 || d < 60 {
        warnings := warnings + [PossiblyHypotensive];
      }
      HealthyValidation(s, d);
    } else if key == "hypertensive" {
      expectedCategory := ExpectHypertension;
      if s < 130 && d < 80 {
        isValid := false;
        warnings := warnings + [TooLowForHypertensive];
      }
      if s > 180 || d > 120 {
        warnings := warnings + [HypertensiveCrisis];
      }
      HypertensiveValidation(s, d);
    } else if key == "arrhythmic" {
      expectedCategory := ExpectVariable;
      if s < 70 || s > 200 {
        warnings := warnings + [SystolicUnrealistic];
      }
      if d < 40 || d > 130 {
        warnings := warnings + [DiastolicUnrealistic];
      }
      ArrhythmicValidation(s, d);
    } else {
      expectedCategory := ExpectUnknown;
      warnings := warnings + [UnknownScenario];
      isValid := false;
      UnknownKeyRejected(key, s, d);
    }
    v := Validation(isValid, expectedCategory, actualCategory, warnings);
  }

  datatype Bounds = Bounds(min: int, max: int)
  datatype Ranges = Ranges(systolic: Bounds, diastolic: Bounds)

  /** The educational ranges of each scenario; none for any other key. */
  function GetScenarioRanges(key: string): (r: Option<Ranges>)
    ensures r.Some? <==> ParseKey(key).Some?
    ensures r.Some? ==> r.value.systolic.min <= r.value.systolic.max && r.value.diastolic.min <= r.value.diastolic.max
  {
    if key == "healthy" then Some(Ranges(Bounds(90, 119), Bounds(60, 79)))
    else if key == "hypertensive" then Some(Ranges(Bounds(130, 170), Bounds(80, 110)))
    else if key == "arrhythmic" then Some(Ranges(Bounds(70, 200), Bounds(40, 130)))
    else None
  }

  predicate Within(b: Bounds, x: int)
  {
    b.min <= x <= b.max
  }

  /** Every reading inside a scenario's published ranges passes that
      scenario's validation without a single warning. */
  lemma RangesPassValidation(key: string, s: int, d: int)
    requires GetScenarioRanges(key).Some?
    requires Within(GetScenarioRanges(key).value.systolic, s) && Within(GetScenarioRanges(key).value.diastolic, d)
    ensures Admits(key, s, d)
    ensures Firing(WarningOrder, key, s, d) == []
  {
    FiringUnfolds(key, s, d);
  }
}
