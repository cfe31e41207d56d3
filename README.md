# BP Simulator model

A Dafny model of the core of a blood-pressure measurement trainer, a React
app written in TypeScript. A trainee pumps a simulated cuff, listens for the
pulse while the mercury falls, enters the systolic/diastolic reading, and is
scored. The scores feed a per-user progress ledger: attempt log, totals,
streaks, experience and level, per-scenario statistics, scenario unlocks and
badges. The model covers:

- `types.dfy` (`UserTypes`): the records of `src/types/user.ts`, the three
  scenario keys, the unlock table and the ±5 mmHg tolerance.
- `user_context.dfy` (`UserContext`): the progress ledger of
  `src/contexts/UserContext.tsx`.
  - Default progress, the badge catalogue, scoring, unlock gating and badge
    awards.
  - The step-by-step update of `recordAttempt` (`ApplyAttempt`), proved equal
    to a functional specification (`AfterAttempt`).
  - A ledger invariant (`Consistent`) that every recorded attempt preserves.
  - The identity store as a class `UserStore`: a users map that stands for
    browser storage plus the signed-in pointer, with signup, login, logout,
    recordAttempt and the two lookups.
- `simulation.dfy` (`Simulation`): the cuff of
  `src/components/Simulation/SimulationPage.tsx` as a class `Simulator`.
  - Pump, deflation tick and the device button message are methods.
  - The pulse-cue edge detection is a pure state machine (`Pulse`) that the
    class reruns whenever the mercury changes, preceded by the previous run's
    cleanup.
- `scenario_validation.dfy` (`ScenarioValidation`): the category table and the
  per-scenario plausibility checks of
  `src/components/Scenario/ScenarioValidation.ts`.
  - It includes a reference categorisation after Table 6 of the 2017 ACC/AHA
    guideline, where a reading whose two values fall in different bands takes
    the higher band.
  - A lemma states exactly where the source departs from that reference.
- `feedback_panel.dfy` (`FeedbackPanel`): the helpers of
  `src/components/Input/FeedbackPanel.tsx`, proved to agree with the
  validation module and with the ledger's scoring.
- `dashboard.dfy` (`Dashboard`): the view-model helpers of
  `src/components/Dashboard/Dashboard.tsx`.
  - Per-day accuracy points, built with a dictionary and an insertion-order
    key list.
  - Per-scenario bars.
  - The in-place newest-first sort of the held badges.
  - Within-level XP and the next-badge hint.
- `arith.dfy` (`Arith`): `Math.round` on exact quotients, means and bounds.

Modelling choices:

- Timestamps are integers.
- Ids, the clock and the day key of a timestamp are parameters.
- Scenario keys are raw strings where the source switches on a `string`
  (validation, education card). They are the `ScenarioKey` enumeration
  everywhere else. That includes `ScenarioProgress.scenarioKey` and
  `AttemptRecord.scenarioKey`, which src/types/user.ts:11 and :33 declare as
  `string`. The narrowing is sound for every record the app writes. The
  default entries use the three key literals
  (src/contexts/UserContext.tsx:39, 49, 59). `recordAttempt` takes a
  `ScenarioKey` and copies it into the record
  (src/contexts/UserContext.tsx:292, 308). A hand-edited stored record with
  another key is outside the model.
- Readings are integers (mmHg). The form's number fields keep the browser's
  default step of 1 (src/components/Input/BPInputForm.tsx:67, 108). A
  fractional reading such as 139.5/70 would fall through every band of
  `getBPCategory` to 'Unknown' in the source. No integer reading does
  (`ScenarioValidation.GetBPCategory`).
- `recordAttempt`'s precondition, a signed-in user, is the `requires` of
  `UserStore.RecordAttempt`; the source throws there.
- The source tests Stage 1 before Stage 2. The model follows the code, and
  `ScenarioValidation.DiffersFromGuideline` states the readings on which this
  departs from the guideline.

## Model

| member | source | states |
|---|---|---|
| UserTypes.ParseKey | src/types/user.ts:60 | the three scenario key strings parse to their key and back; every other string has none |
| UserTypes.KeyIndex | src/types/user.ts:60 | each key has its own position in the closed key list |
| UserTypes.UnlockThresholdsOrdered | src/types/user.ts:62-66 | the unlock table is total over the keys, with required correct counts 0, 5, 10, non-decreasing in scenario order |
| UserTypes.HealthyAlwaysUnlockable | src/types/user.ts:63 | healthy's gate holds for every non-negative correct count |
| UserTypes.ToleranceIsFive | src/types/user.ts:68 | the tolerance is 5 mmHg |
| Arith.RoundDivIsRoundHalfUp | src/contexts/UserContext.tsx:336 | the integer rounding used for the ledger's percentages is round-half-up of the exact quotient, as Math.round |
| Arith.MeanWithin | src/contexts/UserContext.tsx:349-351 | the rounded mean of a non-empty list lies within any bounds of its elements |
| UserContext.CreateDefaultScenarioProgress | src/contexts/UserContext.tsx:37-68 | one entry per key in key order, all counters 0, not completed, only healthy unlocked |
| UserContext.DefaultProgress | src/contexts/UserContext.tsx:167-179 | a new account's progress belongs to that user, has an empty log, no badges, zero totals and streaks, and satisfies the ledger invariant |
| UserContext.DefaultConsistent | src/contexts/UserContext.tsx:167-179 | a new account's progress satisfies the ledger invariant |
| UserContext.CatalogIndex | src/contexts/UserContext.tsx:71-111 | each badge id appears in the catalogue exactly once |
| UserContext.CheckForNewBadges | src/contexts/UserContext.tsx:235-273 | the loop's pushed list equals the catalogue-order selection of badges not held whose predicate holds |
| UserContext.AwardableExact | src/contexts/UserContext.tsx:239-272 | a catalogue prefix yields exactly its unheld qualifying badges, stamped with the award time, with distinct ids |
| UserContext.NewBadgesExact | src/contexts/UserContext.tsx:235-273 | new badges are exactly the unheld catalogue badges whose predicate (≥1, ≥5, ≥10 correct, streak ≥5, ≥10 attempts with overall ≥95) holds; ids distinct; earnedAt is now |
| UserContext.BadgeListGrows | src/contexts/UserContext.tsx:376-377 | appending the new badges keeps ids unique, keeps the old list as a prefix, and then holds exactly the old or qualifying badges |
| UserContext.UpdateScenarioUnlocks | src/contexts/UserContext.tsx:275-289 | only unlock flags change; new unlocked = old unlocked or totalCorrect ≥ requiredCorrect; requiredLevel is not consulted |
| UserContext.CalculateAccuracy | src/contexts/UserContext.tsx:229-233 | accuracy is max(0, 100 − (systolic error + diastolic error)) |
| UserContext.MakeAttempt | src/contexts/UserContext.tsx:300-319 | the record copies the readings, key, id and time; each error is the absolute difference of its pair; accuracy is calculateAccuracy of the two errors; averageError is their mean; an error is 0 iff the values agree; accuracy ≤ 100 and is 100 iff both agree exactly; isCorrect iff both differences are within ±5 |
| UserContext.BestRun | src/contexts/UserContext.tsx:327-333 | the longest run of correct attempts in a log is at least the run at its end |
| UserContext.BestRunIsLongest | src/contexts/UserContext.tsx:327-333 | no prefix of the log ends in a longer run of correct attempts than BestRun, and some prefix ends in one exactly that long |
| UserContext.ScoreExamples | src/contexts/UserContext.tsx:229-233 | 120/80 entered for 120/80 scores 100 and is correct; 120/80 for 140/90 scores 70 and is incorrect |
| UserContext.MeanAccuracyInRange | src/contexts/UserContext.tsx:347-351 | a scenario's average accuracy is in [0, 100] |
| UserContext.UpdateScenarioEntry | src/contexts/UserContext.tsx:344-367 | the entry keeps its key, name and unlock; attempts +1; correct +1 iff correct; average over the log of that key; best is the larger of old best and the new accuracy; completed once correct ≥ 5, completedAt kept once set and stamped on the transition |
| UserContext.UpdateScenarios | src/contexts/UserContext.tsx:343-370 | the list keeps its length; entries of other keys are unchanged; each entry of the attempt's key records one more attempt |
| UserContext.AfterAttempt | src/contexts/UserContext.tsx:291-384 | same user; the log gains exactly the record; totalAttempts +1; the streak grows or resets, the best streak follows it; old badges stay a prefix; as many scenario entries as before |
| UserContext.AttemptAppended | src/contexts/UserContext.tsx:324-329 | the log gains exactly the new record; totalAttempts +1; totalCorrect +1 iff correct |
| UserContext.StreakUpdated | src/contexts/UserContext.tsx:327-333 | correct extends the current streak and raises the best to at least it; incorrect resets it; best never falls; current ≤ best is kept |
| UserContext.TotalsUpdated | src/contexts/UserContext.tsx:336-340 | overallAccuracy is the rounded percentage of correct attempts, in [0,100]; experience +50 or +10; level = experience div 100 |
| UserContext.ScenarioEntryUpdated | src/contexts/UserContext.tsx:343-373 | only the attempt's entry changes its statistics (attempts +1, correct +1 iff correct, average over the log including the new record, best = max); completed once correct ≥ 5, never reverts, completedAt set only on that transition; attempts keeps matching the log count |
| UserContext.AverageIncludesNewAttempt | src/contexts/UserContext.tsx:347-348 | the averaged accuracies are the earlier ones of that key followed by the new one |
| UserContext.BadgesAwarded | src/contexts/UserContext.tsx:376-377 | held badges become old ++ new, ids unique, new ones judged on the updated totals and stamped with the attempt time |
| UserContext.AfterAttemptConsistent | src/contexts/UserContext.tsx:291-384 | recording a scored attempt preserves the ledger invariant: totals, experience, level and per-scenario statistics agree with the log; the current streak is the log's trailing run of correct attempts and the best streak its longest run (`BestRun`); badges track their criteria |
| UserContext.FifthCorrectUnlocksHypertensive | src/contexts/UserContext.tsx:373-376 | at four correct, a fifth correct attempt unlocks hypertensive and awards accuracy_ace |
| UserContext.TenthCorrectUnlocksArrhythmic | src/contexts/UserContext.tsx:373-376 | at nine correct, a tenth correct attempt unlocks arrhythmic and awards hypertension_hero |
| UserContext.FifthScenarioCorrectCompletes | src/contexts/UserContext.tsx:362-366 | the fifth correct attempt in a scenario completes it and stamps completedAt |
| UserContext.ReplayConsistent | src/contexts/UserContext.tsx:291-384 | any run of scored submissions keeps the invariant and adds their correct count to totalCorrect |
| UserContext.FreshUserFiveCorrect | src/contexts/UserContext.tsx:275-289 | a fresh user's fifth correct submission, and not the fourth, unlocks hypertensive and awards accuracy_ace |
| UserContext.ApplyAttempt | src/contexts/UserContext.tsx:322-377 | the field-by-field update of the copied progress equals the specified new progress, and its badges are the specified new badges |
| UserContext.FindScenarioIndex | src/contexts/UserContext.tsx:388 | `find` returns the first entry with the key, or none when no entry has it |
| UserContext.FindScenarioByKey | src/contexts/UserContext.tsx:394 | in a well-formed list the lookup finds the key's own entry |
| UserContext.Lower | src/contexts/UserContext.tsx:150 | lowercasing keeps the length, maps upper-case ASCII letters to lower case and leaves every other character |
| UserContext.LowerIdempotent | src/contexts/UserContext.tsx:160 | storing the lowercased email keeps it equal, ignoring case, to the address signed up with |
| UserContext.UserStore.constructor | src/contexts/UserContext.tsx:114-115 | the store starts empty with nobody signed in |
| UserContext.UserStore.FindByEmail | src/contexts/UserContext.tsx:197 | finds a stored account with the email ignoring case, and none exactly when no account has it |
| UserContext.UserStore.Signup | src/contexts/UserContext.tsx:145-192 | false, nothing changed, iff the email is taken ignoring case; otherwise stores the lowercased email with default progress and signs the new id in |
| UserContext.UserStore.Login | src/contexts/UserContext.tsx:194-221 | false, nothing changed, on an unknown email or a wrong password; otherwise updates only that account's lastLogin and signs it in |
| UserContext.UserStore.Logout | src/contexts/UserContext.tsx:223-227 | clears only the signed-in pointer |
| UserContext.UserStore.RecordAttempt | src/contexts/UserContext.tsx:291-384 | needs a signed-in user; replaces only that user's progress by the specified update and returns its accuracy, isCorrect and new badges; the store stays valid |
| UserContext.UserStore.CheckScenarioUnlocked | src/contexts/UserContext.tsx:386-390 | true iff someone is signed in and their entry for the key is unlocked |
| UserContext.UserStore.GetScenarioProgress | src/contexts/UserContext.tsx:392-395 | none iff nobody is signed in; otherwise that user's entry for the key |
| Simulation.PumpLevel | src/components/Simulation/SimulationPage.tsx:170 | one pump raises the level by 10, capped at 200, and strictly raises any level below 200 |
| Simulation.TickLevel | src/components/Simulation/SimulationPage.tsx:92-104 | one tick lowers a positive level by 1, never below 0; a level at or below 1 becomes 0 |
| Simulation.PumpsAccumulate | src/components/Simulation/SimulationPage.tsx:168-178 | n pumps from a level in [0,200] reach min(level + 10n, 200) |
| Simulation.TwentyPumpsReachMax | src/components/Simulation/SimulationPage.tsx:170 | twenty pumps from 0 reach exactly 200 and further pumps stay at 200 |
| Simulation.DeflationCountsDown | src/components/Simulation/SimulationPage.tsx:91-105 | from p ≥ 0, n ticks leave max(p − n, 0): exactly p ticks reach 0, never below |
| Simulation.OnMercuryChange | src/components/Simulation/SimulationPage.tsx:114-152 | the cleanup clears the pulse interval; the flag follows 80 ≤ m ≤ 120; a start fires only on a false→true change and a stop only on true→false |
| Simulation.PulseCountsEdges | src/components/Simulation/SimulationPage.tsx:114-141 | along any run of levels the cue starts once per entry into the window and stops once per exit |
| Simulation.NoRestartInsideWindow | src/components/Simulation/SimulationPage.tsx:115-116 | moving within the window fires no start or stop |
| Simulation.EdgesAlternate | src/components/Simulation/SimulationPage.tsx:116-141 | starts and stops alternate: every entry is matched by an exit unless the run ends inside |
| Simulation.CueSilencedInsideWindow | src/components/Simulation/SimulationPage.tsx:143-152 | the interval set on entry is cleared by the next in-window change, so the cue falls silent though the level stays in range |
| Simulation.Simulator.constructor | src/components/Simulation/SimulationPage.tsx:24-36 | empty cuff, not deflating or pumping, no send interval, no pulse |
| Simulation.Simulator.AfterMercuryChange | src/components/Simulation/SimulationPage.tsx:114-153 | the pulse effect reruns only when the level changed |
| Simulation.Simulator.Pump | src/components/Simulation/SimulationPage.tsx:168-178 | mercury = min(prev + 10, 200); deflation starts or continues; pumping set; the send interval is untouched |
| Simulation.Simulator.Tick | src/components/Simulation/SimulationPage.tsx:88-111 | nothing happens while not deflating; otherwise mercury −1; at ≤ 0 it is 0 and deflation, pumping and the send interval stop |
| Simulation.Simulator.ButtonPressed | src/components/Simulation/SimulationPage.tsx:53-68 | a pump plus pumping; the send interval starts on the first button message only |
| ScenarioValidation.GetBPCategory | src/components/Scenario/ScenarioValidation.ts:82-91 | no integer reading is Crisis or Unknown; Normal iff s<120 ∧ d<80 |
| ScenarioValidation.CategoryCharacterised | src/components/Scenario/ScenarioValidation.ts:82-91 | Normal iff s<120 ∧ d<80; Elevated iff 120≤s<130 ∧ d<80; Stage 1 iff 130≤s≤139 ∨ 80≤d≤89; Stage 2 otherwise; never Crisis or Unknown |
| ScenarioValidation.CrisisCaughtByStage2 | src/components/Scenario/ScenarioValidation.ts:88-89 | crisis-range readings are caught by the Stage 2 test, or by Stage 1 when a value is in its band |
| ScenarioValidation.MixedReadingsAreStage1 | src/components/Scenario/ScenarioValidation.ts:85-88 | 150/85 and 135/95 classify as Stage 1 |
| ScenarioValidation.DiffersFromGuideline | src/components/Scenario/ScenarioValidation.ts:80-88 | differs from the higher-band guideline category exactly when one value is in the Stage 1 band and the other in Stage 2, reporting Stage 1 for Stage 2 |
| ScenarioValidation.ValidateScenarioBP | src/components/Scenario/ScenarioValidation.ts:21-77 | isValid iff the scenario admits the reading; warnings are the applicable ones in push order; expected category by key; actualCategory = getBPCategory |
| ScenarioValidation.WarningsExact | src/components/Scenario/ScenarioValidation.ts:21-77 | a warning appears in the validation's list exactly when its scenario's condition holds for the reading |
| ScenarioValidation.HealthyValidation | src/components/Scenario/ScenarioValidation.ts:32-41 | healthy: valid iff s<120 ∧ d<80; elevated warning iff not; hypotension warning iff s<90 ∨ d<60 |
| ScenarioValidation.HypertensiveValidation | src/components/Scenario/ScenarioValidation.ts:43-52 | hypertensive: invalid iff s<130 ∧ d<80; crisis warning iff s>180 ∨ d>120 |
| ScenarioValidation.ArrhythmicValidation | src/components/Scenario/ScenarioValidation.ts:54-63 | arrhythmic: always valid; warned only outside systolic 70–200 or diastolic 40–130 |
| ScenarioValidation.UnknownKeyRejected | src/components/Scenario/ScenarioValidation.ts:65-69 | any other key: invalid, expected Unknown, exactly one warning |
| ScenarioValidation.GetScenarioRanges | src/components/Scenario/ScenarioValidation.ts:96-119 | ranges exist exactly for the three keys, each with min ≤ max |
| ScenarioValidation.RangesPassValidation | src/components/Scenario/ScenarioValidation.ts:96-118 | every reading inside a scenario's ranges passes its validation with no warnings |
| FeedbackPanel.GetError | src/components/Input/FeedbackPanel.tsx:12 | the error is the absolute difference |
| FeedbackPanel.ErrorIsDistance | src/components/Input/FeedbackPanel.tsx:12 | the error is symmetric, 0 iff the values agree, ≤ 5 iff within ±5 |
| FeedbackPanel.GetBPCategory | src/components/Input/FeedbackPanel.tsx:14-20 | the panel's table gives the validation module's category, coloured by band, never the default colour |
| FeedbackPanel.MarkColor | src/components/Input/FeedbackPanel.tsx:50-51 | a mark is success iff the error is within the 5 mmHg tolerance, error otherwise |
| FeedbackPanel.Panel | src/components/Input/FeedbackPanel.tsx:47-56 | accurate iff both marks are success iff both differences are within ±5; both chips carry the validation module's category; the card is the scenario's education |
| FeedbackPanel.PanelCategoryAgrees | src/components/Input/FeedbackPanel.tsx:14-20 | the panel's table gives the validation module's category on every reading, coloured success/warning/error/error, never default |
| FeedbackPanel.GetScenarioEducation | src/components/Input/FeedbackPanel.tsx:22-45 | a card exactly for healthy, hypertensive and arrhythmic, about that scenario |
| FeedbackPanel.PanelAgreesWithLedger | src/components/Input/FeedbackPanel.tsx:48-52 | each mark is success iff its error ≤ 5; accurate iff both are; errors and accuracy equal the ledger's record |
| Dashboard.DaysListAttemptedDays | src/components/Dashboard/Dashboard.tsx:49-57 | a day is listed iff some attempt fell on it iff it has accuracies; no day twice |
| Dashboard.DayAccuraciesFromLog | src/components/Dashboard/Dashboard.tsx:51-55 | each grouped accuracy is an accuracy of the log |
| Dashboard.PointWithinDay | src/components/Dashboard/Dashboard.tsx:58-61 | a day's value lies between its lowest and highest accuracy, within [0,100] for scored attempts |
| Dashboard.PrepareAccuracyData | src/components/Dashboard/Dashboard.tsx:45-63 | empty iff no attempts; otherwise the last min(days, 7) days in first-seen order, each the rounded mean of that day's accuracies |
| Dashboard.FirstWord | src/components/Dashboard/Dashboard.tsx:70 | the label is the prefix of the name before its first space |
| Dashboard.FirstWordOfSpaced | src/components/Dashboard/Dashboard.tsx:70 | a word, a space and more text is labelled by the word |
| Dashboard.FirstWordOfWord | src/components/Dashboard/Dashboard.tsx:70 | a name without spaces is its own label |
| Dashboard.PrepareScenarioData | src/components/Dashboard/Dashboard.tsx:66-75 | one bar per scenario |
| Dashboard.ScenarioBarsCopy | src/components/Dashboard/Dashboard.tsx:69-74 | each bar copies attempts, correct and average accuracy, in order, labelled by a prefix of the name |
| Dashboard.DefaultScenarioBars | src/components/Dashboard/Dashboard.tsx:70 | the default scenarios are labelled Healthy, Hypertensive, Arrhythmic |
| Dashboard.SortNewestFirst | src/components/Dashboard/Dashboard.tsx:81-82 | the in-place sort leaves the badges newest first and a permutation of themselves |
| Dashboard.GetRecentBadges | src/components/Dashboard/Dashboard.tsx:78-84 | returns the first min(3, n) of the newest-first reordered list, empty when none are held |
| Dashboard.RecentAreNewest | src/components/Dashboard/Dashboard.tsx:81-83 | the first k of a newest-first list are newest first and no older than any badge after them |
| Dashboard.CurrentLevelXp | src/components/Dashboard/Dashboard.tsx:101-103 | within-level XP is in [0,99] and, with the level, recovers the experience |
| Dashboard.LevelAndXpRecoverExperience | src/components/Dashboard/Dashboard.tsx:101 | for a ledger-kept record, level·100 + within-level XP = experience |
| Dashboard.NextBadgeHint | src/components/Dashboard/Dashboard.tsx:510-514 | the hint names first success below 1 correct, accuracy ace below 5, hypertension hero below 10, then streak master while the current streak is below 5, else precision expert; each case exactly |
| Dashboard.ShownHint | src/components/Dashboard/Dashboard.tsx:437-518 | the hint shows exactly when 0 < held badges < 5 |
| Dashboard.CountHintsAreUnheld | src/components/Dashboard/Dashboard.tsx:510-512 | a hint naming a count-based badge names one not yet held |
| Dashboard.StreakHintMayNameHeldBadge | src/components/Dashboard/Dashboard.tsx:513 | the hint reads the current streak while the badge follows the best streak, so after a broken streak of five it names a held badge |

## Left out

- Browser storage and JSON (de)serialisation are not modelled. The users map of `UserStore` stands for them. The mount-time restore of the signed-in user is left out. The try/catch paths of signup and login only return false.
- Ids (`generateUserId`, the attempt id), ISO timestamps and the clock are parameters. `recordAttempt` takes its time once, the record's timestamp. That value also stamps completedAt and the badges, where the source reads the clock up to three times.
- The cleartext password check is plain equality.
- UserContext.Lower: lowercases ASCII letters only, not the full Unicode case mapping of `toLowerCase`.
- UserContext.TotalsUpdated: rounds the exact ratio. The source computes `(totalCorrect / totalAttempts) * 100` in floating point, which can land just below a half: 23 of 40 gives 57 there and 58 here. The per-scenario and per-day means divide integers once, and their rounding is exact.
- Badge names, descriptions, criteria texts and icons are placeholders. Warnings are an enumeration instead of message strings. The education card carries only its scenario, not its texts.
- requiredLevel is part of the unlock table. No gate reads it, so no contract mentions it.
- The WebSocket bridge is left out: the connection, the 100 ms `bp_update` push with its overMax flag, and message parsing. Only the state changes of a `button_pressed` message are modelled (`Simulator.ButtonPressed`).
- Timers, React render/effect scheduling and audio playback are left out. A call of `Tick` is one firing of the deflation interval. `Pulse.intervalSet` stands for the pulse interval and the playing audio together. The unmount cleanup is left out.
- Simulation.Simulator.Pump: the source tests a `deflating` value captured by the render that created the handler. Starting deflation again is idempotent, so the model reads the current flag.
- Dashboard.SortNewestFirst: the engine's sort is modelled as a stable insertion sort. Stability is not stated.
- Dashboard.GetRecentBadges: sorts the array it is given. The source sorts the session's own badge array, and that order then flows into the stored ledger on the next save. The model does not capture this.
- Dashboard day keys: `toLocaleDateString` is an opaque day-key parameter. Keys are assumed never to be integer-like, so object key order is insertion order.
- Charts, animations, layout and the floating-point progress percentage of the dashboard are left out.
- The UI-only components are left out: the input form's text-to-number conversion, the mercury column, the scenario cards and selection page, the input page, the badge animation, the navigation bar, the login form, routing and the theme.
