# Safe Scene 360 — a Dafny model of the training logic

Safe Scene 360 is a browser-based safety-training application. A trainee
walks through a 3D warehouse (a storage room, a loading bay or a chemical
store), clicks the hazards hidden in it against a countdown, and gets a
grade; they also take multiple-choice safety quizzes. Staff members see
their own progress on a dashboard; administrators see pass rates,
per-user performance and a user table they can filter and edit.

This project models the logic behind those screens and proves what it
promises. Each modelled source file has its own module:

- `SceneViewer` (src/pages/SceneViewer.tsx): the hazard-hunt session.
  Identifying a hazard, submitting, resetting, the accuracy and the
  severity colours. The page's state fields are the class
  `HazardHuntPage`. Its handlers are proved against pure step functions.
- `GameResults` (src/components/scene/GameResults.tsx): accuracy, time
  bonus, total score, letter grade and stars.
- `GameHUD` (src/components/scene/GameHUD.tsx): the combo counter (the
  class `ComboCounter`, with `Date.now()` passed in as `now`), the `m:ss`
  clock, the progress bar and the submit button.
- `RealisticHazards` (src/components/scene/RealisticHazards.tsx): the
  hazard-type switch with its spill fallback, size and colour defaults,
  the click guard and the hint light, over an abstract list of meshes per
  prop.
- `FirstPersonControls` (src/components/scene/FirstPersonControls.tsx):
  the key-flag machine, pointer-lock-gated mouse look with the pitch
  clamp, listener registration and clean-up, and the per-axis room bound.
  The mutable refs are the class `Controls`. The frame's velocity is an
  input.
- `WarehouseEnvironment` (src/components/scene/WarehouseEnvironment.tsx):
  the shelving unit's box-packing loops, as methods over a sequence of
  random draws. Also the dock door and the three room layouts.
- `QuizAttemptPage` (src/pages/QuizAttempt.tsx): question navigation,
  answers, the countdown with auto-submit, retake, and `calculateScore`
  as a loop. The page's state fields are the class `QuizSession`.
- `AdminUsers` (src/pages/AdminUsers.tsx): the search/role/status
  filter, the status toggle (the class `AdminUsersPage`) and the avatar
  initials.
- `StaffDashboard`, `QuizzesPage` and `AdminDashboard`: the per-user
  aggregates, the best score and its card, and the administrator's pie
  chart, pass rate, colour bands and trend badge.
- `MockData` (src/data/mockData.ts): the fixture catalog as constants,
  with lemmas showing that it is well formed and agrees with the scoring
  rules above.

Four modules are shared:

- `Types`: the records of src/types/index.ts. `Hazard` also gets the `z`
  coordinate and the optional `size` that the data and the renderer use.
- `Percent`: `Math.round` of a ratio.
- `Seqs`: `filter`, `find`, minimum, maximum and sum.
- `Text`: `toLowerCase`, `includes`, `split(' ')`.

`Math.round(p / q * 100)` for `p >= 0` and `q > 0` is modelled exactly as
the integer nearest to `100p/q`, with halves rounded up. This is
`(200p + q) / (2q)` in integer division. It assumes JavaScript's
floating-point division and rounding give that integer. Positions,
sizes and angles are `real`. `Math.PI` is its double literal
3.141592653589793, taken as an exact real, and the pitch limit
`Math.PI / 2 - 0.1` is computed from it exactly.

A few facts about the code that the model keeps as they are:

- Hazards are drawn at their authored coordinates: the props of
  src/components/scene/RealisticHazards.tsx apply no floor clamp and no
  wall snap.
- An unknown hazard type is drawn as the spill prop, by the `default`
  branch of src/components/scene/RealisticHazards.tsx:377-378.
- Identifying a hazard only records its id
  (src/pages/SceneViewer.tsx:59-76); no severity-weighted score is kept.
- A hunt has no phase enum: src/pages/SceneViewer.tsx keeps the
  `showResults` and `isComplete` flags.

## Model

| member | source | states |
|---|---|---|
| Percent.RoundRatio | src/pages/StaffDashboard.tsx:35-37 | `Math.round(num/den)` is the integer r with 2·den·r ≤ 2·num + den < 2·den·(r+1): the nearest integer, halves rounded up |
| Percent.RoundedPercent | src/components/scene/GameResults.tsx:40 | `Math.round(part/whole*100)` is the nearest whole percent, halves up |
| Percent.RoundRatioBetween | src/pages/StaffDashboard.tsx:35-41 | the rounded mean of values lying in [lo, hi] lies in [lo, hi] |
| Percent.PercentAtMost100 | src/components/scene/GameResults.tsx:40 | a share of at most the whole rounds to at most 100% |
| Percent.PercentMonotone | src/pages/QuizAttempt.tsx:134 | a larger part never rounds to a smaller percentage |
| Percent.PercentIs100Iff | src/components/scene/GameResults.tsx:40 | for fewer than 200 items the percentage is 100 exactly when every item counts |
| Percent.NearlyAllRoundsTo100 | src/components/scene/GameResults.tsx:40 | 199 of 200 already rounds to 100%, so the bound above is needed |
| Percent.PercentOfExact | src/pages/AdminDashboard.tsx:197 | when the share is an exact whole percentage, rounding returns it |
| Percent.PercentReaches | src/pages/QuizAttempt.tsx:134 | the rounded percentage reaches a mark exactly when 200 * part + whole >= 2 * mark * whole |
| Seqs.Find | src/pages/SceneViewer.tsx:29 | `find` returns the first element satisfying the predicate, or nothing exactly when none does |
| Seqs.Filter | src/pages/AdminUsers.tsx:62 | `filter` keeps exactly the elements satisfying the predicate, never lengthening the list |
| Seqs.FilterIsSubsequence | src/pages/AdminUsers.tsx:62 | `filter` keeps the relative order of what it keeps |
| Seqs.FilterIdempotent | src/pages/AdminUsers.tsx:62 | filtering twice with the same predicate equals filtering once |
| Seqs.FilterAll | src/pages/AdminUsers.tsx:62 | a predicate true of every element keeps the whole list |
| Seqs.FilterNone | src/pages/AdminDashboard.tsx:43 | a predicate true of no element keeps nothing |
| Seqs.CountSplits | src/pages/AdminDashboard.tsx:42-45 | the elements kept by a predicate and by its negation add up to the whole list |
| Seqs.Count | src/pages/AdminDashboard.tsx:43-44 | `filter(p).length` is the number of positions whose element satisfies p; so it is at most the length, 0 exactly when no element satisfies p and the whole length exactly when every element does |
| Seqs.FilterCountsPositions | src/pages/AdminDashboard.tsx:43-44 | the filtered list has exactly one element per satisfying position |
| Seqs.MinOf | src/pages/StaffDashboard.tsx:35-41 | the minimum of a non-empty list is one of its elements and at most every element |
| Seqs.MaxOf | src/pages/QuizzesPage.tsx:27 | `Math.max(...xs)` of a non-empty list is one of its elements and at least every element |
| Seqs.Sum | src/pages/StaffDashboard.tsx:36 | the `reduce` sum of non-negative values is at least each of them |
| Seqs.SumBetween | src/pages/StaffDashboard.tsx:36 | the `reduce` sum of n values in [lo, hi] lies in [n·lo, n·hi] |
| Text.Lower | src/pages/AdminUsers.tsx:64 | `toLowerCase` keeps the length and lowers each letter A–Z, leaving every other character |
| Text.LowerIdempotent | src/pages/AdminUsers.tsx:64 | lowering twice equals lowering once |
| Text.Contains | src/pages/AdminUsers.tsx:64-65 | `includes` never holds for a query longer than the text; its exact meaning is `Text.ContainsIffOccurs` |
| Text.ContainsIffOccurs | src/pages/AdminUsers.tsx:64 | `includes` holds exactly when the query occurs at some position |
| Text.ContainsEmpty | src/pages/AdminUsers.tsx:64 | every string includes the empty query |
| Text.Split | src/pages/AdminUsers.tsx:217 | `split(' ')` gives at least one piece and no piece holds a space |
| Text.JoinSplit | src/pages/AdminUsers.tsx:217 | joining the pieces of a split with the separator gives back the string |
| Text.SplitJoin | src/pages/AdminUsers.tsx:217 | splitting words joined by a separator they do not contain gives back the words |
| Text.SplitWord | src/pages/AdminUsers.tsx:217 | a word without the separator splits into itself |
| Text.SplitSepPrefixed | src/pages/AdminUsers.tsx:217 | `w + sep + t` splits into w followed by the pieces of t |
| Text.FirstWord | src/pages/StaffDashboard.tsx:52 | `name.split(' ')[0]` is a prefix of the name without a space, ending at the first space or at the end |
| Text.FirstWordBeforeSpace | src/pages/StaffDashboard.tsx:52 | the first word of `w + ' ' + t` is w when w has no space |
| Text.FirstPieceIsPrefix | src/pages/AdminDashboard.tsx:37 | the first piece of a split is the prefix up to the first separator |
| GameResults.Accuracy | src/components/scene/GameResults.tsx:40 | accuracy is the share of hazards found, in whole percent rounded half up (2·n·r ≤ 200·found + n < 2·n·(r+1)); it is at most 100 when no more hazards were found than exist, and (under 200 hazards) 100 exactly when all were found |
| GameResults.TimeBonus | src/components/scene/GameResults.tsx:41 | the time bonus is the rounded share of time left, at most 100 |
| GameResults.TotalScore | src/components/scene/GameResults.tsx:42 | the total adds twice the time bonus to the score, never less than the score |
| GameResults.GradeFor | src/components/scene/GameResults.tsx:44-50 | S iff full accuracy with half the time left; A or better iff accuracy ≥ 90; B or better iff ≥ 75; D iff < 60 |
| GameResults.GradeMonotoneInAccuracy | src/components/scene/GameResults.tsx:44-50 | more accuracy never gives a lower grade |
| GameResults.GradeMonotoneInTimeBonus | src/components/scene/GameResults.tsx:44-50 | more time left never gives a lower grade |
| GameResults.Stars | src/components/scene/GameResults.tsx:53 | at most 3 stars; 3 exactly at full accuracy, at least 2 exactly from 75, at least 1 exactly from 50 |
| GameResults.StarsMonotone | src/components/scene/GameResults.tsx:53 | more accuracy never gives fewer stars |
| GameResults.Breakdown | src/components/scene/GameResults.tsx:152-153 | one row per hazard in scene order, found exactly when its id was identified |
| GameResults.ResultsFor | src/components/scene/GameResults.tsx:40-53 | the results screen shows the rounded accuracy and time bonus, the score plus twice the bonus, the grade and stars of that accuracy and bonus, and the per-hazard breakdown; accuracy ≤ 100 and stars ≤ 3 for a valid count, and an S grade always has 3 stars |
| GameResults.AllFoundWithSixtyPercentLeft | src/components/scene/GameResults.tsx:40-53 | four of four found with 60% of the time left gives bonus 60, accuracy 100, grade S, 3 stars and 120 extra points |
| GameHUD.Digits | src/components/scene/GameHUD.tsx:53 | `toString` of a non-negative integer is a non-empty string of decimal digits |
| GameHUD.ValueOfDigits | src/components/scene/GameHUD.tsx:53 | reading the digits back gives the number |
| GameHUD.Pad2 | src/components/scene/GameHUD.tsx:53 | `padStart(2, '0')` of a second count gives exactly two digits |
| GameHUD.ValueOfPad2 | src/components/scene/GameHUD.tsx:53 | the two padded digits read back as the seconds |
| GameHUD.FormatTime | src/components/scene/GameHUD.tsx:50-54 | `formatTime` ends in ':' and two digits, and reading the text back as M:SS gives the number of seconds |
| GameHUD.FormatTimeInjective | src/components/scene/GameHUD.tsx:50-54 | different times never show the same clock text |
| GameHUD.ClockOfFiveMinutes | src/components/scene/GameHUD.tsx:50-54 | 300 s shows "5:00" |
| GameHUD.ClockPadsSeconds | src/components/scene/GameHUD.tsx:53 | 65 s shows "1:05": seconds below ten get a leading zero |
| GameHUD.Progress | src/components/scene/GameHUD.tsx:46 | the progress bar is found/total·100 (r·total = 100·found); it is in [0, 100] for a valid count and 100 exactly when every hazard is found |
| GameHUD.IsLowTime | src/components/scene/GameHUD.tsx:48 | the clock turns red exactly while its text reads "0:ss", i.e. in the last minute |
| GameHUD.MinutesFieldZero | src/components/scene/GameHUD.tsx:50-54 | the formatted clock starts with "0:" exactly when no whole minute is left |
| GameHUD.OnFoundCountChange | src/components/scene/GameHUD.tsx:60-70 | a find within 5000 ms extends the combo up to 5, a later one restarts it at 1 and records the time; an empty list changes nothing |
| GameHUD.DecayTick | src/components/scene/GameHUD.tsx:73-80 | the combo drops to 0 exactly when more than 8000 ms passed since the last find and it was running; nothing else changes |
| GameHUD.ComboBounded | src/components/scene/GameHUD.tsx:57-80 | whatever the sequence of finds and ticks, the combo never exceeds 5 |
| GameHUD.StreakCombo | src/components/scene/GameHUD.tsx:60-70 | a streak of finds each within 5000 ms of the previous shows the streak length, capped at 5 |
| GameHUD.StreakExtends | src/components/scene/GameHUD.tsx:60-70 | a running combo grows by one per quick find, capped at 5, and remembers the last find time |
| GameHUD.TwoQuickFindsShowBadge | src/components/scene/GameHUD.tsx:149-152 | two finds less than 5 s apart after a pause show the "2x COMBO" badge |
| GameHUD.ComboBadgeShows | src/components/scene/GameHUD.tsx:60-80 | right after a find the combo badge shows exactly when the find came less than 5 s after the previous one while a combo ran; a decay tick more than 8 s after the last find hides it |
| GameHUD.ComboCounter.constructor | src/components/scene/GameHUD.tsx:57-58 | the combo starts at 0 with no last find |
| GameHUD.ComboCounter.FoundCountChanged | src/components/scene/GameHUD.tsx:60-70 | the effect updates `combo` and `lastFindTime` as OnFoundCountChange says |
| GameHUD.ComboCounter.Tick | src/components/scene/GameHUD.tsx:73-80 | the interval callback updates the state as DecayTick says |
| GameHUD.Indicators | src/components/scene/GameHUD.tsx:132-143 | one indicator per hazard: a tick once found, else its 1-based number |
| GameHUD.Render | src/components/scene/GameHUD.tsx:46-214 | the clock reads back as the time left, red iff under 60 s; the progress bar is Progress of the counts; the indicators are a tick per found hazard and the number of each other one; the combo badge iff combo > 1; submit disabled iff nothing found; label by completion |
| SceneViewer.FindScene | src/pages/SceneViewer.tsx:29-57 | the scene is the one with the requested id; "Scene Not Found" exactly when no scene has it |
| SceneViewer.Click | src/pages/SceneViewer.tsx:59-76 | identifying keeps the old ids as a prefix, adds at most one, never duplicates, adds the id unless complete, and leaves the results flag alone |
| SceneViewer.ClickKnownIsNoOp | src/pages/SceneViewer.tsx:62 | an already identified id changes nothing |
| SceneViewer.ClickAfterCompleteIsNoOp | src/pages/SceneViewer.tsx:60 | once complete, clicks change nothing |
| SceneViewer.ClickIdempotent | src/pages/SceneViewer.tsx:59-76 | clicking the same hazard twice is clicking it once |
| SceneViewer.ClickNewAppends | src/pages/SceneViewer.tsx:63-70 | a new id goes at the end, and the page completes exactly when the new length equals the hazard count |
| SceneViewer.StepPreservesInv | src/pages/SceneViewer.tsx:59-86 | each handler keeps the list duplicate-free, never longer than the scene, and complete exactly when full |
| SceneViewer.Step | src/pages/SceneViewer.tsx:59-86 | reset returns to the opening state; every other action keeps the found hazards as a prefix and never hides results once shown |
| SceneViewer.RunPreservesInv | src/pages/SceneViewer.tsx:59-86 | any sequence of clicks, submits and resets keeps that consistency |
| SceneViewer.RunStaysInScene | src/pages/SceneViewer.tsx:186-189 | when only the scene's hotspots call the handler, only scene hazard ids are ever listed |
| SceneViewer.ResultsOnlyAfterSomeFound | src/pages/SceneViewer.tsx:266-271 | with submit gated by the disabled button, results are only shown for a non-empty list |
| SceneViewer.SubmitStaysEnabled | src/pages/SceneViewer.tsx:271 | identifying a hazard in an unfinished hunt enables the submit button, and only a reset disables it again |
| SceneViewer.DistinctCard | src/pages/SceneViewer.tsx:62 | a duplicate-free list has as many distinct ids as entries |
| SceneViewer.SubsetCard | src/pages/SceneViewer.tsx:69 | a subset is no larger, and one of equal size is the whole set |
| SceneViewer.HazardIdsCard | src/pages/SceneViewer.tsx:69 | distinct hazard ids are as many as the hazards |
| SceneViewer.LengthIsCountIffAllFound | src/pages/SceneViewer.tsx:69 | the length test `newIdentified.length === scene.hazards.length` holds exactly when every hazard is found |
| SceneViewer.CompleteIffAllFound | src/pages/SceneViewer.tsx:69-70 | the page is complete exactly when every hazard of the scene has been found |
| SceneViewer.AccuracyFullIffAllFound | src/pages/SceneViewer.tsx:88 | the accuracy is at most 100, and 100 exactly when every hazard was found |
| SceneViewer.SeverityColor | src/pages/SceneViewer.tsx:90-103 | critical is red (`bg-destructive`) and every severity gets one of the four badge colours |
| SceneViewer.SeverityColorInjective | src/pages/SceneViewer.tsx:90-103 | different severities get different colours |
| SceneViewer.HazardHuntPage.constructor | src/pages/SceneViewer.tsx:25-27 | the page starts with no ids, no results and not complete |
| SceneViewer.HazardHuntPage.HandleHazardClick | src/pages/SceneViewer.tsx:59-76 | the handler updates the state as Click says and keeps the consistency |
| SceneViewer.HazardHuntPage.HandleSubmit | src/pages/SceneViewer.tsx:78-80 | submit only sets the results flag |
| SceneViewer.HazardHuntPage.HandleReset | src/pages/SceneViewer.tsx:82-86 | reset returns to the initial state |
| SceneViewer.HazardHuntPage.Accuracy | src/pages/SceneViewer.tsx:88 | the page's accuracy is the identified share of the scene's hazards in whole percent, rounded half up, and at most 100 |
| FirstPersonControls.KeyDirection | src/components/scene/FirstPersonControls.tsx:20-25 | W/ArrowUp mean forward, S/ArrowDown backward, A/ArrowLeft left, D/ArrowRight right, and no other code means anything |
| FirstPersonControls.SetFlag | src/components/scene/FirstPersonControls.tsx:21-24 | setting one movement flag leaves the other three alone |
| FirstPersonControls.OnKey | src/components/scene/FirstPersonControls.tsx:19-35 | key down/up sets the key's flag to true/false, keeps every other flag, and ignores other keys |
| FirstPersonControls.KeyUpUndoesKeyDown | src/components/scene/FirstPersonControls.tsx:19-35 | releasing a key that was not held undoes pressing it |
| FirstPersonControls.KeyDownIdempotent | src/components/scene/FirstPersonControls.tsx:19-26 | key auto-repeat is the same as one press |
| FirstPersonControls.ArrowKeysMatchLetters | src/components/scene/FirstPersonControls.tsx:21-33 | each arrow key acts exactly as its letter key |
| FirstPersonControls.Clamp | src/components/scene/FirstPersonControls.tsx:43 | `Math.max(lo, Math.min(hi, v))` lies in [lo, hi], leaves values already there unchanged, and gives lo below the range and hi above it |
| FirstPersonControls.Look | src/components/scene/FirstPersonControls.tsx:37-45 | unlocked mouse moves are ignored; locked ones turn the yaw by −0.002·dx and the pitch by −0.002·dy, stopping at +(π/2 − 0.1) above and −(π/2 − 0.1) below |
| FirstPersonControls.LockedAfterChange | src/components/scene/FirstPersonControls.tsx:51-53 | locked exactly when the canvas holds the pointer lock |
| FirstPersonControls.PitchStaysClamped | src/components/scene/FirstPersonControls.tsx:37-53 | over any sequence of mouse moves and lock changes the pitch never passes ±(π/2 − 0.1) |
| FirstPersonControls.NoLookWithoutLock | src/components/scene/FirstPersonControls.tsx:38 | until the canvas gets the lock, mouse moves never turn the camera |
| FirstPersonControls.Mount | src/components/scene/FirstPersonControls.tsx:16-59 | when enabled the effect adds exactly its five listeners; when disabled it adds none |
| FirstPersonControls.Unmount | src/components/scene/FirstPersonControls.tsx:61-67 | the cleanup removes exactly the five listeners |
| FirstPersonControls.FilterAppendDropped | src/components/scene/FirstPersonControls.tsx:61-67 | removing listeners that were appended leaves the earlier ones |
| FirstPersonControls.MountUnmount | src/components/scene/FirstPersonControls.tsx:55-67 | mounting then cleaning up leaves the page's other listeners as they were, in order |
| FirstPersonControls.AxisStep | src/components/scene/FirstPersonControls.tsx:92-97 | an axis moves only when the new coordinate stays within 14 of the centre; otherwise it stays |
| FirstPersonControls.Frame | src/components/scene/FirstPersonControls.tsx:70-97 | a disabled frame changes nothing; an enabled one moves each axis by its velocity exactly when the new coordinate stays within 14, and leaves it otherwise; an in-bounds camera stays in bounds |
| FirstPersonControls.StaysInBounds | src/components/scene/FirstPersonControls.tsx:92-97 | whatever the velocities, the camera never leaves the ±14 square |
| FirstPersonControls.StartInBounds | src/components/scene/WarehouseScene3D.tsx:68 | the camera's start (0, 1.7, 8) is inside the bounds |
| FirstPersonControls.DisabledNeverMoves | src/components/scene/FirstPersonControls.tsx:71 | while disabled, no frame moves the camera |
| FirstPersonControls.SlidesAlongWall | src/components/scene/FirstPersonControls.tsx:96-97 | a step blocked on x still moves along z |
| FirstPersonControls.Controls.constructor | src/components/scene/FirstPersonControls.tsx:10-17 | the hook starts still, unlocked, at the start position, with the listeners registered when enabled |
| FirstPersonControls.Controls.HandleKeyDown | src/components/scene/FirstPersonControls.tsx:19-26 | sets the key's flag as OnKey says and changes nothing else |
| FirstPersonControls.Controls.HandleKeyUp | src/components/scene/FirstPersonControls.tsx:28-35 | clears the key's flag as OnKey says and changes nothing else |
| FirstPersonControls.Controls.HandleMouseMove | src/components/scene/FirstPersonControls.tsx:37-45 | turns the camera as Look says, keeping the pitch clamped |
| FirstPersonControls.Controls.HandleClick | src/components/scene/FirstPersonControls.tsx:47-49 | requests the pointer lock and changes nothing else |
| FirstPersonControls.Controls.HandlePointerLockChange | src/components/scene/FirstPersonControls.tsx:51-53 | locked exactly when the canvas holds the lock |
| FirstPersonControls.Controls.OnFrame | src/components/scene/FirstPersonControls.tsx:70-98 | moves the camera as Frame says and keeps it in bounds |
| FirstPersonControls.Controls.Cleanup | src/components/scene/FirstPersonControls.tsx:61-67 | removes the hook's listeners as Unmount says |
| RealisticHazards.KnownKind | src/components/scene/RealisticHazards.tsx:358-376 | the types the dispatcher recognises are exactly the nine props' type names |
| RealisticHazards.KindName | src/components/scene/RealisticHazards.tsx:358-376 | every prop's type name is one the dispatcher recognises |
| RealisticHazards.VignetteFor | src/components/scene/RealisticHazards.tsx:355-380 | each known type selects the prop of that name; every other type falls back to the spill |
| RealisticHazards.VignetteForKindName | src/components/scene/RealisticHazards.tsx:358-376 | a prop's own type name selects it again |
| RealisticHazards.SizeOr | src/components/scene/RealisticHazards.tsx:17 | the size with a fallback: a present non-zero size is used, an absent or zero one takes the fallback |
| RealisticHazards.SpillColor | src/components/scene/RealisticHazards.tsx:19-20 | green iff identified or chemical; water blue iff unidentified, not chemical and the lower-cased description mentions water; dark oil otherwise |
| RealisticHazards.Parts | src/components/scene/RealisticHazards.tsx:15-352 | every prop is built from at least one mesh |
| RealisticHazards.VisibleParts | src/components/scene/RealisticHazards.tsx:50-59 | the drawn meshes are the prop's meshes, and every clickable mesh is drawn (only the spill's cone disappears) |
| RealisticHazards.ClickableWitness | src/components/scene/RealisticHazards.tsx:15-352 | every prop has a mesh that reacts to a click and turns green |
| RealisticHazards.EveryPropIsClickableAndHighlights | src/components/scene/RealisticHazards.tsx:15-352 | identified or not, every prop shows a clickable mesh and a mesh that turns green |
| RealisticHazards.ClickPart | src/components/scene/RealisticHazards.tsx:34 | a click reports the hazard's own id exactly when the mesh is clickable and the hazard unidentified |
| RealisticHazards.Render | src/components/scene/RealisticHazards.tsx:15-380 | the prop sits at (x, y, z); hint light iff hints on and unidentified, at the prop's offset; cone iff unidentified spill, 0.3 beyond the disc; disc radius size‖1.5 (spill) or size‖1.2 (chemical) |
| RealisticHazards.ClicksReportOwnIdOnce | src/components/scene/RealisticHazards.tsx:34 | no drawn mesh reports another hazard's id, and an identified hazard reports nothing |
| RealisticHazards.UnidentifiedCanBeClicked | src/components/scene/RealisticHazards.tsx:355-380 | an unidentified hazard of any type, even an unknown one, can be clicked |
| RealisticHazards.ConeClearOfSpill | src/components/scene/RealisticHazards.tsx:51-56 | the cone's base stands clear of the spill disc |
| RealisticHazards.SpillNeverChemicalGreen | src/components/scene/RealisticHazards.tsx:19-20 | the spill's chemical-green branch is unreachable through the dispatcher |
| RealisticHazards.HintIndependentOfPosition | src/components/scene/RealisticHazards.tsx:46-48 | the hint's offset depends only on the type, not on the hazard's position |
| RealisticHazards.HintOffset | src/components/scene/RealisticHazards.tsx:46-349 | every hint light sits within 3 units of its prop, inside the shortest reach (3) any hint light has, so it lights the prop it marks |
| WarehouseEnvironment.Shade | src/components/scene/WarehouseEnvironment.tsx:14 | each of the six box colours has its own index below 6 in the palette |
| WarehouseEnvironment.Hex | src/components/scene/WarehouseEnvironment.tsx:14 | every box colour is a seven-character `#rrggbb` code in lower-case hexadecimal |
| WarehouseEnvironment.HexInjective | src/components/scene/WarehouseEnvironment.tsx:14 | no two palette entries share a colour code |
| WarehouseEnvironment.NumBoxes | src/components/scene/WarehouseEnvironment.tsx:17 | a shelf gets two, three or four boxes |
| WarehouseEnvironment.NumBoxesThirds | src/components/scene/WarehouseEnvironment.tsx:17 | the count is `2 + floor(3r)`; two boxes exactly for draws below 1/3, three exactly for draws in [1/3, 2/3), four exactly for draws from 2/3 on |
| WarehouseEnvironment.PaletteColor | src/components/scene/WarehouseEnvironment.tsx:26 | the colour drawn is the palette entry whose index k satisfies k <= 6r < k + 1 |
| WarehouseEnvironment.PaletteSixths | src/components/scene/WarehouseEnvironment.tsx:26 | the pick is `colors[floor(6r)]`: palette entry k is drawn exactly on the k-th sixth of the draw range |
| WarehouseEnvironment.MakeBox | src/components/scene/WarehouseEnvironment.tsx:20-27 | a pushed box has width and height in [0.3, 0.7) and depth in [0.3, 0.6), its left side at the current x offset and its bottom on the shelf surface |
| WarehouseEnvironment.Advance | src/components/scene/WarehouseEnvironment.tsx:28 | the next box starts one width plus the 0.1 gap further right |
| WarehouseEnvironment.Row | src/components/scene/WarehouseEnvironment.tsx:19-29 | a row drawn for n boxes holds exactly n boxes |
| WarehouseEnvironment.RowUnfold | src/components/scene/WarehouseEnvironment.tsx:19-29 | a row of n boxes is its first box followed by a row of n-1 boxes starting after that box's width and gap |
| WarehouseEnvironment.Shelves | src/components/scene/WarehouseEnvironment.tsx:16-30 | the shelves from a given one to the top hold two to four boxes per shelf in total |
| WarehouseEnvironment.ShelvesUnfold | src/components/scene/WarehouseEnvironment.tsx:16-30 | the boxes of the remaining shelves are this shelf's row followed by the boxes of the shelves above it |
| WarehouseEnvironment.RowStep | src/components/scene/WarehouseEnvironment.tsx:19-29 | one iteration of the inner loop keeps the pushed boxes a prefix of the shelf's row |
| WarehouseEnvironment.StockShelf | src/components/scene/WarehouseEnvironment.tsx:17-29 | the inner loop pushes exactly the row defined by the draws and consumes one count draw plus four draws a box |
| WarehouseEnvironment.ShelfDone | src/components/scene/WarehouseEnvironment.tsx:16-30 | one iteration of the outer loop keeps the pushed boxes a prefix of the whole unit |
| WarehouseEnvironment.GenerateBoxes | src/components/scene/WarehouseEnvironment.tsx:12-32 | the useMemo body returns exactly the unit's boxes defined by the draws |
| WarehouseEnvironment.UnitBoxes | src/components/scene/WarehouseEnvironment.tsx:12-32 | a shelving unit holds 8 to 16 boxes |
| WarehouseEnvironment.RowBoxes | src/components/scene/WarehouseEnvironment.tsx:19-29 | every box of a row is well formed, stands on the row's shelf, starts no further left than the row's start x and ends before that x plus 0.8 per box minus 0.1 |
| WarehouseEnvironment.RowOnShelf | src/components/scene/WarehouseEnvironment.tsx:19-27 | every box of a row is well formed and its bottom lies on the shelf surface at 1.2 per shelf |
| WarehouseEnvironment.RowOnItsShelf | src/components/scene/WarehouseEnvironment.tsx:16-27 | the row a shelf's count draw asks for stands on that shelf |
| WarehouseEnvironment.RowFits | src/components/scene/WarehouseEnvironment.tsx:16-28 | every box of a shelf's row fits the unit: well formed, on one of the four shelves, within x from -1 to below 2.1 |
| WarehouseEnvironment.RowOrdered | src/components/scene/WarehouseEnvironment.tsx:24-28 | each box of a row lies at least the 0.1 gap to the right of every box before it |
| WarehouseEnvironment.LeftToRightDisjoint | src/components/scene/WarehouseEnvironment.tsx:24-28 | boxes ordered left to right with a gap do not overlap |
| WarehouseEnvironment.RowNoOverlap | src/components/scene/WarehouseEnvironment.tsx:16-28 | no two boxes of a shelf's row overlap |
| WarehouseEnvironment.LevelsRise | src/components/scene/WarehouseEnvironment.tsx:24 | a height at or above a higher shelf's surface is at or above every lower shelf's surface |
| WarehouseEnvironment.StackDisjoint | src/components/scene/WarehouseEnvironment.tsx:24 | a non-overlapping row on one shelf followed by non-overlapping boxes standing no lower than the next shelf overlaps none of them, since a box is lower than the 1.2 shelf spacing |
| WarehouseEnvironment.StackAbove | src/components/scene/WarehouseEnvironment.tsx:24 | a row on one shelf followed by boxes standing no lower than the next shelf: none of them stands below the first shelf |
| WarehouseEnvironment.ShelvesBoxes | src/components/scene/WarehouseEnvironment.tsx:16-30 | every box of the remaining shelves fits the unit: well formed, on one of the four shelves, within x from -1 to below 2.1 |
| WarehouseEnvironment.ShelfFits | src/components/scene/WarehouseEnvironment.tsx:16-30 | adding a shelf's row under shelves whose boxes fit the unit keeps every box fitting |
| WarehouseEnvironment.ShelvesAbove | src/components/scene/WarehouseEnvironment.tsx:16-30 | no box of the remaining shelves stands below the first of them |
| WarehouseEnvironment.ShelfAbove | src/components/scene/WarehouseEnvironment.tsx:16-30 | adding a shelf's row under shelves standing no lower than the next shelf leaves no box below this shelf |
| WarehouseEnvironment.ShelvesDisjoint | src/components/scene/WarehouseEnvironment.tsx:16-30 | no two boxes of the remaining shelves overlap |
| WarehouseEnvironment.ShelfOnTop | src/components/scene/WarehouseEnvironment.tsx:16-30 | adding a shelf's row under non-overlapping boxes of the shelves above keeps them non-overlapping |
| WarehouseEnvironment.UnitBoxesFacts | src/components/scene/WarehouseEnvironment.tsx:12-32 | each box of a shelving unit is well formed, stands on one of the four shelves and lies within x from -1 to below 2.1, and no two overlap |
| WarehouseEnvironment.BoxesCanOverhangFrame | src/components/scene/WarehouseEnvironment.tsx:18-28 | with every draw at 0.99 the bottom shelf's fourth box ends beyond the beams' right end at 1.54 |
| WarehouseEnvironment.DoorPanel | src/components/scene/WarehouseEnvironment.tsx:108-132 | the panel stays between the door posts and under the lintel; closed it fills the opening from the floor, open it is a 0.5 strip at the top |
| WarehouseEnvironment.Lights | src/components/scene/WarehouseEnvironment.tsx:214-218 | nine ceiling lights, one for each pair of coordinates from -8, 0 and 8, at height 6.3 |
| WarehouseEnvironment.Environment | src/components/scene/WarehouseEnvironment.tsx:164-296 | walls and floor are dark exactly for the chemical store; four walls, nine lights, four pillars and the scene type's own layout |
| WarehouseEnvironment.SharedShell | src/components/scene/WarehouseEnvironment.tsx:182-225 | walls, lights and pillars are the same for every scene type |
| WarehouseEnvironment.LightsGrid | src/components/scene/WarehouseEnvironment.tsx:214-218 | the nine lights are at pairwise distinct places on the -8/0/8 grid, all at height 6.3 |
| WarehouseEnvironment.LayoutCounts | src/components/scene/WarehouseEnvironment.tsx:228-293 | storage has six units, three pallets and one station; loading three doors, four pallets and two units; chemical two units, six barrels, two stations and two stripes |
| WarehouseEnvironment.LayoutFor | src/components/scene/WarehouseEnvironment.tsx:228-293 | in every room a shelving unit is turned by half a turn exactly when it stands on the right-hand side, so all of them face the middle |
| WarehouseEnvironment.DockDoors | src/components/scene/WarehouseEnvironment.tsx:251-253 | the dock doors stand 0.3 in front of the back wall at x = -8, 0, 8, and only the one at -8 is closed |
| WarehouseEnvironment.InsideWalls | src/components/scene/WarehouseEnvironment.tsx:183-293 | every light, pillar and scene item stands strictly inside the walls at plus and minus 15 |
| WarehouseEnvironment.StationsAgainstSideWalls | src/components/scene/WarehouseEnvironment.tsx:244-283 | every safety station stands half a unit in from a side wall |
| WarehouseEnvironment.LightsInside | src/components/scene/WarehouseEnvironment.tsx:214-218 | every ceiling light is inside the walls |
| WarehouseEnvironment.PillarsInside | src/components/scene/WarehouseEnvironment.tsx:221-225 | every pillar is inside the walls |
| WarehouseEnvironment.LayoutInsideFor | src/components/scene/WarehouseEnvironment.tsx:228-293 | every scene-specific item of any scene type is inside the walls |
| WarehouseEnvironment.StorageInside | src/components/scene/WarehouseEnvironment.tsx:228-246 | every item of the storage room is inside the walls |
| WarehouseEnvironment.LoadingInside | src/components/scene/WarehouseEnvironment.tsx:248-265 | every item of the loading bay is inside the walls |
| WarehouseEnvironment.ChemicalInside | src/components/scene/WarehouseEnvironment.tsx:267-293 | every item of the chemical store is inside the walls |
| QuizAttemptPage.FindQuiz | src/pages/QuizAttempt.tsx:33 | the quiz with the route's id, and the not-found screen exactly when no quiz has that id |
| QuizAttemptPage.Unanswered | src/pages/QuizAttempt.tsx:67 | one empty answer slot per question |
| QuizAttemptPage.TimerStart | src/pages/QuizAttempt.tsx:41-45 | a countdown of 60 seconds per minute of limit starts exactly when the quiz has a non-zero time limit |
| QuizAttemptPage.Start | src/pages/QuizAttempt.tsx:28-69 | the page opens on the first question, results hidden, every answer empty, with the quiz's countdown |
| QuizAttemptPage.StartInv | src/pages/QuizAttempt.tsx:28-69 | the opening state has one answer slot per question and a current question in range |
| QuizAttemptPage.SelectAnswer | src/pages/QuizAttempt.tsx:102-106 | the chosen option becomes the current question's answer and every other answer and field is unchanged |
| QuizAttemptPage.Next | src/pages/QuizAttempt.tsx:108-112 | one question on, except on the last question, with answers, results and countdown unchanged |
| QuizAttemptPage.Previous | src/pages/QuizAttempt.tsx:114-118 | one question back, except on the first question, with everything else unchanged |
| QuizAttemptPage.JumpTo | src/pages/QuizAttempt.tsx:357 | a quick-navigation button moves straight to its question and changes nothing else |
| QuizAttemptPage.Submit | src/pages/QuizAttempt.tsx:120-122 | submitting shows the results and keeps the answers, position and countdown |
| QuizAttemptPage.Tick | src/pages/QuizAttempt.tsx:47-63 | the timer does nothing without a countdown or once results show, auto-submits at zero or below, and otherwise takes one second off |
| QuizAttemptPage.Retake | src/pages/QuizAttempt.tsx:138-145 | a retake returns to the first question with every answer cleared and results hidden; a timed quiz gets its full countdown back |
| QuizAttemptPage.StepPreservesInv | src/pages/QuizAttempt.tsx:102-145 | every user or timer event keeps one answer slot per question and the current question in range |
| QuizAttemptPage.Step | src/pages/QuizAttempt.tsx:147-345 | the results screen ignores everything but the retake button, the question screen ignores retake, and only selecting an answer or retaking changes the answers |
| QuizAttemptPage.ButtonSubmitHasAllAnswers | src/pages/QuizAttempt.tsx:333-338 | the submit button, shown only on the last question, submits only a quiz whose every question has an answer |
| QuizAttemptPage.Run | src/pages/QuizAttempt.tsx:102-145 | any sequence of events keeps the page state well formed |
| QuizAttemptPage.AnswersStayGiven | src/pages/QuizAttempt.tsx:102-106 | without a retake, an answered question stays answered through any sequence of events |
| QuizAttemptPage.SubmitEnabledIffAllAnswered | src/pages/QuizAttempt.tsx:337 | the submit button is enabled exactly when no answer is empty |
| QuizAttemptPage.SubmitDisabled | src/pages/QuizAttempt.tsx:337 | the submit button is disabled exactly when some answer is still missing (`includes(null)`) |
| QuizAttemptPage.AnsweringEnablesNext | src/pages/QuizAttempt.tsx:343 | answering the current question enables the next button, and while it is disabled so is submit |
| QuizAttemptPage.Progress | src/pages/QuizAttempt.tsx:94 | the progress bar is (current+1)/n·100 (p·n = 100·(current+1)); it is above 0 and at most 100, and full exactly on the last question |
| QuizAttemptPage.TimerLabel | src/pages/QuizAttempt.tsx:262-268 | the countdown is shown exactly when there is one, reads back as the seconds left, and is in the warning colour exactly under a minute |
| QuizAttemptPage.CountdownAutoSubmits | src/pages/QuizAttempt.tsx:47-63 | a countdown of t seconds left alone ticks down for t runs without submitting and is auto-submitted on the next run with the answers given so far |
| QuizAttemptPage.TimedQuizEnds | src/pages/QuizAttempt.tsx:41-63 | a timed quiz left alone is auto-submitted after 60 times its limit plus one timer runs, with every answer empty |
| QuizAttemptPage.UntimedNeverSubmits | src/pages/QuizAttempt.tsx:47-48 | without a time limit the timer never changes the page |
| QuizAttemptPage.CountCorrect | src/pages/QuizAttempt.tsx:125-130 | the number of correct answers among the first questions never exceeds their number |
| QuizAttemptPage.CountIsCardinality | src/pages/QuizAttempt.tsx:125-130 | the counted answers are exactly the questions answered with their correct option |
| QuizAttemptPage.UnansweredScoresZero | src/pages/QuizAttempt.tsx:127 | an empty answer never matches the correct option, so a quiz with no answers scores zero |
| QuizAttemptPage.AllCorrectCountsAll | src/pages/QuizAttempt.tsx:125-130 | answering every question correctly counts every question |
| QuizAttemptPage.CalculateScore | src/pages/QuizAttempt.tsx:124-136 | the loop counts exactly the correctly answered questions out of all of them, and the percentage is their rounded share, at most 100 |
| QuizAttemptPage.ScoreOf | src/pages/QuizAttempt.tsx:124-136 | the correctly answered questions out of all of them, and, exactly when there are questions, a percentage that is their rounded share and at most 100 |
| QuizAttemptPage.PassedIffEnoughCorrect | src/pages/QuizAttempt.tsx:149 | a quiz is passed exactly when it has questions and 200 * correct + total >= 2 * mark * total, i.e. the rounded share reaches the mark |
| QuizAttemptPage.PerfectPasses | src/pages/QuizAttempt.tsx:124-149 | all answers correct give 100 percent and pass any pass mark up to 100 |
| QuizAttemptPage.PassMonotone | src/pages/QuizAttempt.tsx:149 | more correct answers never turn a pass into a fail |
| QuizAttemptPage.QuizSession.constructor | src/pages/QuizAttempt.tsx:28-69 | a new page is in the opening state of its quiz |
| QuizAttemptPage.QuizSession.HandleAnswerSelect | src/pages/QuizAttempt.tsx:102-106 | the page state becomes the one with the chosen answer recorded |
| QuizAttemptPage.QuizSession.HandleNext | src/pages/QuizAttempt.tsx:108-112 | the page state moves one question on within the quiz |
| QuizAttemptPage.QuizSession.HandlePrevious | src/pages/QuizAttempt.tsx:114-118 | the page state moves one question back, not before the first |
| QuizAttemptPage.QuizSession.HandleJump | src/pages/QuizAttempt.tsx:357 | the page state moves to the chosen question |
| QuizAttemptPage.QuizSession.HandleSubmit | src/pages/QuizAttempt.tsx:120-122 | the page state switches to the results |
| QuizAttemptPage.QuizSession.TimerEffect | src/pages/QuizAttempt.tsx:47-63 | the page state changes as one timer run prescribes |
| QuizAttemptPage.QuizSession.HandleRetake | src/pages/QuizAttempt.tsx:138-145 | the page state is reset for another attempt |
| QuizAttemptPage.QuizSession.Results | src/pages/QuizAttempt.tsx:147-149 | the results screen shows the score of the current answers and passes exactly at or above the pass mark |
| AdminUsers.FilteredUsers | src/pages/AdminUsers.tsx:62-69 | a user is listed exactly when the lower-cased name or e-mail contains the lower-cased query and the role and status match their drop-downs or "all" |
| AdminUsers.Matches | src/pages/AdminUsers.tsx:62-69 | an empty query with both drop-downs on "all" matches every user; a query longer than both name and e-mail matches nobody |
| Types.RoleName | src/pages/AdminUsers.tsx:66 | "staff" and "admin" name exactly their roles, and neither is the "all" value that switches the filter off |
| Types.StatusName | src/pages/AdminUsers.tsx:67 | "active" and "inactive" name exactly their statuses, and neither is "all" |
| AdminUsers.FilteredKeepsOrder | src/pages/AdminUsers.tsx:62-69 | the table keeps the order of the full user list |
| AdminUsers.FilteredIdempotent | src/pages/AdminUsers.tsx:62-69 | filtering the filtered table again with the same settings changes nothing |
| AdminUsers.NoFilterListsEveryone | src/pages/AdminUsers.tsx:62-69 | an empty search with both drop-downs on "all" lists every user |
| AdminUsers.SearchIgnoresQueryCase | src/pages/AdminUsers.tsx:64-65 | the search gives the same result for a query and its lower-cased form |
| AdminUsers.Flip | src/pages/AdminUsers.tsx:74 | the toggle always gives the other status |
| AdminUsers.ToggleStatus | src/pages/AdminUsers.tsx:71-82 | the user with the id gets the other status, every other user is unchanged, and the list keeps its length and order |
| AdminUsers.ToggleTwiceRestores | src/pages/AdminUsers.tsx:71-82 | toggling the same user twice restores the list |
| AdminUsers.ToggleUnknownIsNoOp | src/pages/AdminUsers.tsx:71-82 | toggling an id no user has changes nothing |
| AdminUsers.DeactivatedLeavesActiveView | src/pages/AdminUsers.tsx:62-82 | with the status drop-down on "active", deactivating a user takes that user off the table |
| AdminUsers.ToggleKeepsAllStatusView | src/pages/AdminUsers.tsx:62-82 | with the status drop-down on "all", toggling never changes who is listed |
| AdminUsers.Words | src/pages/AdminUsers.tsx:217 | the pieces of a name that have a first letter: exactly the non-empty ones |
| AdminUsers.Initials | src/pages/AdminUsers.tsx:217 | a name gives one initial per non-empty space-separated piece, in order: the first letter of each |
| AdminUsers.FirstLetters | src/pages/AdminUsers.tsx:217 | the k-th letter is the first letter of the k-th non-empty word, with one letter per non-empty word; empty words give nothing |
| AdminUsers.FirstLettersOfWords | src/pages/AdminUsers.tsx:217 | non-empty words give exactly their first letters, one each, in order |
| AdminUsers.InitialsOfJoinedWords | src/pages/AdminUsers.tsx:217 | a name of words joined by single spaces shows one initial per word, in order |
| AdminUsers.AdminUsersPage.constructor | src/pages/AdminUsers.tsx:48-52 | the table opens with the given users, an empty search and both drop-downs on "all" |
| AdminUsers.AdminUsersPage.Listed | src/pages/AdminUsers.tsx:62-69 | the rows shown are the filtered users for the page's query and filters: exactly the users that match, in the order of the page's user list |
| AdminUsers.AdminUsersPage.SetSearchQuery | src/pages/AdminUsers.tsx:50 | typing in the search box changes only the query |
| AdminUsers.AdminUsersPage.SetFilterRole | src/pages/AdminUsers.tsx:51 | the role drop-down changes only the role filter |
| AdminUsers.AdminUsersPage.SetFilterStatus | src/pages/AdminUsers.tsx:52 | the status drop-down changes only the status filter |
| AdminUsers.AdminUsersPage.HandleToggleStatus | src/pages/AdminUsers.tsx:71-82 | the button toggles the user's status in the page's list and leaves the filters unchanged |
| StaffDashboard.OwnQuizAttempts | src/pages/StaffDashboard.tsx:32 | exactly the quiz attempts whose user id is the signed-in user's |
| StaffDashboard.OwnHazardAttempts | src/pages/StaffDashboard.tsx:33 | exactly the hazard attempts whose user id is the signed-in user's |
| StaffDashboard.OwnAttemptsKeepOrder | src/pages/StaffDashboard.tsx:32-33 | the user's own attempts keep the order of the full lists |
| StaffDashboard.Percentages | src/pages/StaffDashboard.tsx:36 | the percentage of each attempt, in order |
| StaffDashboard.AccuracyScores | src/pages/StaffDashboard.tsx:40 | the accuracy score of each attempt, in order |
| StaffDashboard.Average | src/pages/StaffDashboard.tsx:35-41 | the average of no values is 0; otherwise it is the mean rounded half up (2·n·r ≤ 2·sum + n < 2·n·(r+1)) |
| StaffDashboard.AverageWithinRange | src/pages/StaffDashboard.tsx:35-41 | the rounded average of a non-empty list lies between its smallest and largest value |
| StaffDashboard.AverageAtMost100 | src/pages/StaffDashboard.tsx:35-41 | the average of percentages is at most 100 |
| StaffDashboard.AverageOfEqualValues | src/pages/StaffDashboard.tsx:35-41 | the average of equal values is that value |
| StaffDashboard.Dashboard | src/pages/StaffDashboard.tsx:29-52 | nothing is shown without a user; otherwise the page lists the user's own attempts, counts them as completed quizzes and scenes, shows the averages of their percentages and accuracy scores, and greets the first word of the name |
| StaffDashboard.AveragesWithinResults | src/pages/StaffDashboard.tsx:35-41 | each average is 0 without attempts and otherwise lies between the user's worst and best result |
| StaffDashboard.RecentActivity | src/pages/StaffDashboard.tsx:225-231 | recent activity is the first three of the user's quiz attempts, or all of them when fewer, and the empty message shows exactly when the user has no attempt of either kind |
| QuizzesPage.MatchingPercentages | src/pages/QuizzesPage.tsx:23-27 | exactly the percentages of the user's attempts on the quiz |
| QuizzesPage.BestScore | src/pages/QuizzesPage.tsx:21-28 | no best score without a user or without an attempt of that user on the quiz; otherwise the percentage of one such attempt, at least that of every other |
| QuizzesPage.QuizCard | src/pages/QuizzesPage.tsx:43-104 | the card passes exactly when the best score reaches the pass mark, shows the best-score panel exactly when there is a best score, and offers a retake exactly then |
| QuizzesPage.PassedIffSomeAttemptPassed | src/pages/QuizzesPage.tsx:45 | the Passed badge shows exactly when some attempt of the user on the quiz reached the pass mark |
| QuizzesPage.BestScoreNeverDrops | src/pages/QuizzesPage.tsx:21-28 | a further attempt never lowers the best score |
| AdminDashboard.PerformanceData | src/pages/AdminDashboard.tsx:36-40 | one chart row per performance record, labelled with the first word of the user's name and carrying its quiz score and hazard accuracy |
| AdminDashboard.ChartNamesAreFirstWords | src/pages/AdminDashboard.tsx:37 | each chart label is a space-free prefix of the user's name that ends at the first space, and the whole name when it has no space |
| AdminDashboard.SlicesCoverAttempts | src/pages/AdminDashboard.tsx:42-45 | the passed and failed slices of the pie add up to all attempts |
| AdminDashboard.PassedCount | src/pages/AdminDashboard.tsx:43 | the "Passed" slice is the number of attempts that passed; it is empty exactly when no attempt passed and the whole pie exactly when all did |
| AdminDashboard.FailedCount | src/pages/AdminDashboard.tsx:44 | the "Failed" slice is the number of attempts that failed; it is empty exactly when every attempt passed and the whole pie exactly when none did |
| AdminDashboard.PassRate | src/pages/AdminDashboard.tsx:197 | a pass rate exists exactly when there are attempts, and it is the passed share of all attempts in whole percent, rounded half up |
| AdminDashboard.PassRateBounds | src/pages/AdminDashboard.tsx:197 | the pass rate is at most 100, is 100 when every attempt passed and 0 when none did |
| AdminDashboard.ScoreBand | src/pages/AdminDashboard.tsx:248-259 | a score is green from 80, amber from 60 to 79 and red below 60 |
| AdminDashboard.BandMonotone | src/pages/AdminDashboard.tsx:248-259 | a higher score never gets a worse colour band |
| AdminDashboard.TrendArrow | src/pages/AdminDashboard.tsx:269-270 | an up arrow exactly for an improving trend and a down arrow exactly for a declining one |
| AdminDashboard.TrendColor | src/pages/AdminDashboard.tsx:264-268 | a green badge exactly for improving and a muted one exactly for stable |
| AdminDashboard.TrendBadgeConsistent | src/pages/AdminDashboard.tsx:264-271 | the arrow and the badge colour always tell the same trend |
| MockData.HazardIdsUnique | src/data/mockData.ts:57-80 | the fourteen hazards of the three scenes have pairwise distinct ids |
| MockData.HazardKindsKnown | src/data/mockData.ts:57-80 | every hazard has a kind the scene draws a model for |
| MockData.ScenesNonEmpty | src/data/mockData.ts:82-110 | three scenes, each with at least one hazard and a positive duration |
| MockData.CorrectAnswersInRange | src/data/mockData.ts:112-202 | every quiz has questions and every correct answer indexes one of its question's options |
| MockData.Quiz1Key | src/data/mockData.ts:113-176 | the fire-safety quiz has five questions with pass mark 70 and answer key 1, 2, 0, 1, 1 |
| MockData.AsAnswers | src/data/mockData.ts:204-238 | stored answers become given answers one for one |
| MockData.FirstAttemptConsistent | src/data/mockData.ts:205-215 | the first stored attempt's score, percentage and pass flag are what the quiz page computes from its answers |
| MockData.SecondAttemptConsistent | src/data/mockData.ts:216-226 | the second stored attempt's figures are what the quiz page computes, a 60 percent fail |
| MockData.ThirdAttemptConsistent | src/data/mockData.ts:227-237 | the third stored attempt's figures are what the quiz page computes, a 100 percent pass |
| MockData.HazardAttemptsConsistent | src/data/mockData.ts:240-261 | each stored hazard attempt found hazards of its scene and its accuracy is the rounded share of them |
| MockData.StatsCountUsers | src/data/mockData.ts:263-270 | the dashboard's user and active-user counts match the user list |
| MockData.StatsAverages | src/data/mockData.ts:263-270 | the dashboard's average accuracy is the mean of the hazard attempts and its average quiz score is their mean to one decimal |
| MockData.AdminPieOnCatalog | src/pages/AdminDashboard.tsx:42-45 | on the stored attempts the pie shows two passed, one failed and a 67 percent pass rate |
| MockData.JohnsDashboard | src/pages/StaffDashboard.tsx:32-44 | the first user's dashboard counts one quiz and one scene with averages 100 and 75 |
| MockData.JohnsWelcome | src/pages/StaffDashboard.tsx:52 | the first user is greeted as John |
| MockData.SarahsQuiz1Card | src/pages/QuizzesPage.tsx:43-104 | the second user's fire-safety card shows a best of 60, not passed, with a retake |
| MockData.SarahsQuiz2Card | src/pages/QuizzesPage.tsx:43-104 | the second user's other quiz card has no best score and offers a start |
| MockData.PerformanceNotDerivedFromAttempts | src/data/mockData.ts:272-303 | the first performance record claims three quiz attempts while the stored list holds one for that user |

## Left out

- Rendering: meshes, materials, lights, shadows, CSS classes, icons, toasts, the recharts charts and the framer-motion animations. A prop is modelled as its list of meshes. For each mesh the model keeps only whether it is drawn, takes clicks or turns green.
- The `useFrame` animations of the hazard props: spill opacity, the stacking wobble, light flicker and sparks. They are floating-point, random and cosmetic.
- The camera's direction and right vectors and `velocity.normalize()` in src/components/scene/FirstPersonControls.tsx:73-89 are float vector maths. The frame's velocity is an input to `FirstPersonControls.Frame`.
- The DOM: `document.addEventListener` and `removeEventListener` become a list of registered listeners. `requestPointerLock` and `document.pointerLockElement` become a boolean.
- `Date.now()` becomes a `now` parameter. The one-second intervals become explicit timer runs (`GameHUD.DecayTick`, `QuizAttemptPage.Tick`).
- `Math.random()` in the shelving unit becomes a sequence of draws in [0, 1), consumed in the order the source calls it.
- Routing, the `useAuth` redirects and `navigate(...)` calls, the login page, the reports page, the training list, the landing pages and the canvas wiring of src/components/scene/WarehouseScene3D.tsx. These are navigation or presentation; the authentication context is not part of this model.
- Dates (`createdAt`, `lastLogin`, `timestamp`, `lastActivity`) and the cosmetic fields `avatar` and `imageUrl`. Also the quiz title that recent activity looks up for each attempt and the date it prints.
- The warehouse's purely static meshes: the floor, ring marking, ceiling, ceiling beams, the beams and posts of a shelving unit and the inner parts of pallets, barrels and stations. Each item is kept as its position, plus its colour or door state.
- The administrator's statistic cards show the fixed figures of `mockDashboardStats`. `MockData.StatsCountUsers` and `MockData.StatsAverages` relate those figures to the stored lists.
- `Percent.RoundRatio`: JavaScript computes `Math.round(p / q * 100)` in double precision. The model uses the exact rational value, so rounding error at a tie is not modelled.
- `Text.Lower`: `toLowerCase` is modelled for ASCII letters only. Other characters are left as they are; Unicode case mapping is not modelled.
- `GameResults.Accuracy`: that 100 means every hazard was found is proved only for fewer than 200 hazards. From 200 on, 199 of 200 already rounds to 100, as `Percent.NearlyAllRoundsTo100` shows.
- `GameResults.ResultsFor`, `SceneViewer.HazardHuntPage.Accuracy`, `GameResults.Accuracy`, `GameResults.TimeBonus`, `GameHUD.Progress` and `GameHUD.Render`: require a non-empty hazard list and, for the results screen and the time bonus, a positive time budget. With 0 the page would divide by zero and show `NaN`. Every scene of the catalog has hazards and a duration (`MockData.ScenesNonEmpty`).
- `QuizAttemptPage.QuizSession.constructor`: requires a quiz with at least one question. With none, the page reads a missing question and fails, and the percentage would be `NaN`. `QuizAttemptPage.CalculateScore` gives no percentage in that case. Every quiz of the catalog has questions (`MockData.CorrectAnswersInRange`).
- `AdminDashboard.PassRate`: `NaN` for an empty attempt list is modelled as no pass rate.
- `Types`: the TypeScript `number` fields `duration`, `accuracyScore`, `timeLimit`, `passingScore`, `score`, `percentage`, and the `averageQuizScore` and `averageHazardAccuracy` of `UserPerformance`, are `nat`, so only non-negative whole numbers are modelled for them. Fractional or negative values, which src/types/index.ts would allow, are not. Every catalog value and every value the pages compute for these fields is a non-negative whole number. The two averages of `DashboardStats` hold fractions in the catalog (86.7 and 87.5), so they are `real`.
- `FirstPersonControls.Look`: the source rebuilds the Euler angles from the camera's quaternion before each turn (src/components/scene/FirstPersonControls.tsx:39), which brings the yaw back into (-π, π]. The model adds each turn to the yaw without reducing it. The camera faces the same way either way; only the stored yaw differs, by whole turns.
- `QuizAttemptPage.TimerLabel`: a countdown below zero is shown as 0:00. The page submits at zero, so it never shows one.

## Notes on the model

- The shelving unit packs each row from x = -1 and never checks the frame. The beams end at x = 1.54, and four wide boxes run past them: `WarehouseEnvironment.BoxesCanOverhangFrame` exhibits such a row. The boxes never overlap one another (`WarehouseEnvironment.UnitBoxesFacts`).
- The submit button of the quiz page needs every question answered. The countdown auto-submits whatever has been answered, including nothing at all (`QuizAttemptPage.TimedQuizEnds`, `QuizAttemptPage.UnansweredScoresZero`).
- The performance records of the catalog are fixed figures, not derived from the stored attempts. `MockData.PerformanceNotDerivedFromAttempts` shows a record that counts three quiz attempts for a user who has one stored.
