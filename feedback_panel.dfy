/** The result helpers of src/components/Input/FeedbackPanel.tsx: per-value
    errors, the panel's own copy of the category table with its colours, the
    accuracy marks and the per-scenario education card. */
module FeedbackPanel {
  import opened Arith
  import opened UserTypes
  import ScenarioValidation
  import UserContext

  type Category = ScenarioValidation.Category

  /** The absolute error between the true and the entered value. */
  function GetError(trueValue: int, enteredValue: int): (r: nat)
    ensures r == trueValue - enteredValue || r == enteredValue - trueValue
  {
    Abs(trueValue - enteredValue)
  }

  lemma ErrorIsDistance(t: int, e: int)
    ensures GetError(t, e) == GetError(e, t)
    ensures GetError(t, e) == 0 <==> t == e
    ensures GetError(t, e) <= 5 <==> -5 <= t - e <= 5
  {
  }

  datatype Color = Success | Warning | Error | Default

  datatype Labelled = Labelled(category: Category, color: Color)

  /** The panel's category table, with its chip colour. */
  function GetBPCategory(s: int, d: int): (r: Labelled)
    ensures r.category == ScenarioValidation.GetBPCategory(s, d)
    ensures r.color == ColorOf(r.category) && r.color != Default
  {
    if s < 120 && d < 80 then Labelled(ScenarioValidation.Normal, Success)
    else if s < 130 && d < 80 then Labelled(ScenarioValidation.Elevated, Warning)
    else if (s >= 130 && s <= 139) || (d >= 80 && d <= 89) then Labelled(ScenarioValidation.Stage1, Error)
    else if s >= 140 || d >= 90 then Labelled(ScenarioValidation.Stage2, Error)
    else Labelled(ScenarioValidation.Unknown, Default)
  }

  function ColorOf(c: Category): Color
  {
    match c
    case Normal => Success
    case Elevated => Warning
    case Stage1 => Error
    case Stage2 => Error
    case Crisis => Default
    case Unknown => Default
  }

  /** The panel's copy classifies every reading exactly as the validation
      module does, coloured success, warning, error, error by band. */
  lemma PanelCategoryAgrees(s: int, d: int)
    ensures GetBPCategory(s, d).category == ScenarioValidation.GetBPCategory(s, d)
    ensures GetBPCategory(s, d).color == ColorOf(ScenarioValidation.GetBPCategory(s, d))
    ensures GetBPCategory(s, d).color != Default
  {
  }

  /** The mark of one value: success within 5 mmHg. */
  function MarkColor(error: nat): (r: Color)
    ensures r == Success <==> error <= AccuracyTolerance
    ensures r == Success || r == Error
  {
    if error <= 5 then Success else Error
  }

  datatype Education = Education(subject: ScenarioKey)

  /** The education card; the scenario key may be absent. */
  function GetScenarioEducation(key: Option<string>): (r: Option<Education>)
    ensures r.Some? <==> key.Some? && ParseKey(key.value).Some?
    ensures r.Some? ==> KeyName(r.value.subject) == key.value
  {
    match key
    case None => None
    case Some(k) =>
      if k == "healthy" then Some(Education(Healthy))
      else if k == "hypertensive" then Some(Education(Hypertensive))
      else if k == "arrhythmic" then Some(Education(Arrhythmic))
      else None
  }

  datatype PanelView = PanelView(sysError: nat, diaError: nat, sysColor: Color, diaColor: Color,
                                 isAccurate: bool, trueCategory: Labelled, enteredCategory: Labelled,
                                 education: Option<Education>)

  /** Everything the panel derives from its props. */
  function Panel(trueSystolic: int, trueDiastolic: int, enteredSystolic: int, enteredDiastolic: int,
                 key: Option<string>): (r: PanelView)
    ensures r.isAccurate <==> r.sysColor == Success && r.diaColor == Success
    ensures r.isAccurate <==>
      -5 <= trueSystolic - enteredSystolic <= 5 && -5 <= trueDiastolic - enteredDiastolic <= 5
    ensures r.trueCategory.category == ScenarioValidation.GetBPCategory(trueSystolic, trueDiastolic)
    ensures r.enteredCategory.category == ScenarioValidation.GetBPCategory(enteredSystolic, enteredDiastolic)
    ensures r.education == GetScenarioEducation(key)
  {
    var sysError := GetError(trueSystolic, enteredSystolic);
    var diaError := GetError(trueDiastolic, enteredDiastolic);
    PanelView(sysError, diaError, MarkColor(sysError), MarkColor(diaError),
              sysError <= 5 && diaError <= 5,
              GetBPCategory(trueSystolic, trueDiastolic), GetBPCategory(enteredSystolic, enteredDiastolic),
              GetScenarioEducation(key))
  }

  /** Each colour mark is success exactly when its value is within 5 mmHg;
      the panel calls a reading accurate exactly when both marks are success,
      and that is the ledger's isCorrect for the same reading. */
  lemma PanelAgreesWithLedger(ts: int, td: int, es: int, ed: int, key: ScenarioKey, id: string, now: Timestamp)
    ensures var v := Panel(ts, td, es, ed, Some(KeyName(key)));
      var r := UserContext.MakeAttempt(key, ts, td, es, ed, id, now);
      (v.sysColor == Success <==> v.sysError <= 5) &&
      (v.diaColor == Success <==> v.diaError <= 5) &&
      (v.isAccurate <==> v.sysColor == Success && v.diaColor == Success) &&
      v.sysError == r.systolicError && v.diaError == r.diastolicError &&
      v.isAccurate == r.isCorrect &&
      v.education == Some(Education(key))
  {
    ToleranceIsFive();
  }
}
