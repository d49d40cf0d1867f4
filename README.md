# Hygin — a Dafny model of its game rules and score logic

Hygin is a browser game that teaches children hygiene.
It has three mini-games (hair washing, tooth brushing and hand washing).
They are played in a fixed order, and it keeps a completion registry, medals, player scores and a leaderboard.
This project models the rule sets behind those screens and proves what they promise:

- **Toothbrush.** The toothpaste drag-and-drop, then the stroke recogniser that counts direction reversals over the teeth.
- **Handwashing.** The twelve-step quiz: four choices per round, exactly one correct, each box picked once.
- **Hairwashing.** The seven-step progression with a progress percentage capped at 100, the foam bubble list (at most 40 bubbles, filtered by radius while rinsing) and the `mm:ss` timer text.
- **GameFlowContext / ProtectedGameRoute.** The index over the three-game order, its persistence, and the allow-or-redirect decision of the route guard.
- **GameCompletion / MedalDisplay.** A duplicate-free, append-only list of completed games, and the 1/2/3 medal thresholds.
- **ScoreManager / ScoreTier.** Best-so-far score writes, game-number validation, the session total and the score-to-tier mapping.
- **PlayerOnboarding / Leaderboard.** The ordered sign-up validation and the rank labels of the list.

Modelling choices:

- Each React component that changes state is a `class`. Its `useState` values are fields, and each event handler or timer callback is a method.
- A timer is modelled by the state change its callback makes, as a separate method (for example `PasteClearTimerFires`). Elapsed time is not modelled.
- Storage keys are `Option` fields of the class that owns them. The remote tables are a `map` and a `seq`.
- Every remote call that can fail takes the failure as a parameter. That is a boolean, except for `ScoreManager.ScoreStore.GetCurrentPlayer`, which takes the error code, because PGRST116 ends the session and other codes do not.
- Scores are reals, as JavaScript numbers are. The flow index is stored as decimal text and read back with `parseInt`.
- Random choices are parameters. The two shuffles in `generateChoices` are constrained to be permutations by multiset equality. The foam bubble a scrub move may spawn is an `Option`.
- Screen coordinates and percentages are exact reals. `Math.round` is written as `floor(x + 0.5)`. A distance test `sqrt(d2) > r` is written as `d2 > r * r`.
- The bristles hit box follows `src/components/ToothbrushGame.jsx:49-56`. Its top is 0.30 of the brush height above the brush's top edge, and its height is 0.55 of the brush height. So its bottom edge is 0.25 of the brush height *below* the top edge (not above it).
- Rinsing is modelled in two stages:
  - A rinse move removes the bubbles within 50px of the cursor, for 5 points each.
  - The effects it then spawns run the 60px filter of `spawnEffects` on the result (`src/components/HairwashingGame.jsx:305-312`).
  - So whenever at least one bubble was within 50px, every bubble within 60px is gone afterwards. Only the 50px removals earn points.

## Model

| member | source | states |
|---|---|---|
| Toothbrush.BristlesRect | src/components/ToothbrushGame.jsx:13-15 | the bristles box shares the brush's right edge and is 30% of its width; it spans from 0.30 h above the brush top to 0.25 h below it |
| Toothbrush.TeethArea | src/components/ToothbrushGame.jsx:76-81 | the teeth area is 25%..75% of the head's width and 38%..68% of its height |
| Toothbrush.CornersAreInside | src/components/ToothbrushGame.jsx:61-64 | the hit test is inclusive: all four corners of a (well-formed) rectangle are over it |
| Toothbrush.TrackMove | src/components/ToothbrushGame.jsx:83-106 | a stroke is added exactly when the move is over the teeth and reverses the recorded direction by more than 15px; moves off the teeth and moves of at most 15px change nothing; entering with no recorded Y only records Y; a qualifying move records its Y and direction |
| Toothbrush.Released | src/components/ToothbrushGame.jsx:116-120 | releasing keeps the stroke count and forgets the last Y and direction |
| Toothbrush.FirstMoveNeverCounts | src/components/ToothbrushGame.jsx:88-105 | with no recorded direction (fresh entry or after a release) a move never adds a stroke, and after a release the first move over the teeth only records Y |
| Toothbrush.CreditBound | src/components/ToothbrushGame.jsx:88-105 | over any run of moves the count never falls, a stroke implies a recorded direction, and count + recorded Y + recorded direction grows by at most one per move |
| Toothbrush.StrokesNeedMoves | src/components/ToothbrushGame.jsx:88-105 | starting from a release, n >= 1 strokes need at least n + 2 moves |
| Toothbrush.TrackAllAppend | src/components/ToothbrushGame.jsx:42-108 | moves are processed one at a time, in order |
| Toothbrush.ZigzagStrokes | src/components/ToothbrushGame.jsx:88-102 | after entering at y0, k alternating moves of more than 15px give exactly k - 1 strokes |
| Toothbrush.Cleanliness | src/components/ToothbrushGame.jsx:179 | cleanliness lies in [0, 1], is 0 outside step 1, and is 1 exactly when step 1 has at least 20 strokes |
| Toothbrush.CleanlinessMonotone | src/components/ToothbrushGame.jsx:179 | more strokes never look less clean |
| Toothbrush.ToothbrushGame.constructor | src/components/ToothbrushGame.jsx:21-34 | the initial state: step 0, no paste, nothing dragged, no strokes |
| Toothbrush.ToothbrushGame.StartDrag | src/components/ToothbrushGame.jsx:130-134 | picking up the paste does nothing once paste is applied or outside step 0, otherwise starts the drag at the pointer |
| Toothbrush.ToothbrushGame.StartBrushing | src/components/ToothbrushGame.jsx:136-150 | picking up the brush works only in step 1 |
| Toothbrush.ToothbrushGame.HandleMove | src/components/ToothbrushGame.jsx:42-108 | in step 0 while dragging, the paste follows the pointer and `overBristles` is the inclusive bristles test; in step 1 while brushing, the recogniser takes a `TrackMove`; otherwise nothing changes; the stroke count never falls |
| Toothbrush.ToothbrushGame.HandleUp | src/components/ToothbrushGame.jsx:109-121 | in step 0, paste is applied iff the last move was over the bristles, and dragging and `overBristles` are cleared either way; in step 1 the brush is released as `Released` says |
| Toothbrush.ToothbrushGame.PasteShowTimerFires | src/components/ToothbrushGame.jsx:153-156 | with paste applied in step 0 the success overlay shows and the second timer is armed |
| Toothbrush.ToothbrushGame.PasteClearTimerFires | src/components/ToothbrushGame.jsx:157-160 | the overlay hides and the game moves to step 1 |
| Toothbrush.ToothbrushGame.StrokesEffect | src/components/ToothbrushGame.jsx:168-170 | success shows once step 1 has 20 strokes |
| Toothbrush.ToothbrushGame.ClearedTimerFires | src/components/ToothbrushGame.jsx:171-173 | the game is cleared only from step 1 with 20 strokes |
| Handwashing.StepsDistinct | src/components/HandwashingGame.jsx:5-18 | there are 12 steps and no two have the same text |
| Handwashing.OtherSteps | src/components/HandwashingGame.jsx:29 | the index filter keeps the 11 other steps in order |
| Handwashing.OtherStepsFacts | src/components/HandwashingGame.jsx:29 | the other steps are distinct and are exactly the steps whose text differs from the current one |
| Handwashing.CountsOfDistinct | src/components/HandwashingGame.jsx:32-37 | a list without repeats holds every value at most once as a multiset, so a shuffle of it has no repeats either |
| Handwashing.DistinctOfCounts | src/components/HandwashingGame.jsx:32-37 | the converse: a list holding every value at most once has no repeats |
| Handwashing.ShufflesExist | src/components/HandwashingGame.jsx:32-37 | for every step the unshuffled orders are valid shuffles, so a round can always be generated |
| Handwashing.PickFacts | src/components/HandwashingGame.jsx:32-37 | the correct answer plus the first three of a shuffle of distinct wrong answers, shuffled again, are four distinct answers: the correct one and three wrong ones |
| Handwashing.ShuffleFacts | src/components/HandwashingGame.jsx:25-37 | any two shuffles give 4 distinct answers, the correct one among them, and every other one a different step |
| Handwashing.Label | src/components/HandwashingGame.jsx:39-43 | each answer is kept in place with its position as index and `isCorrect` iff it equals the correct answer |
| Handwashing.LabelFacts | src/components/HandwashingGame.jsx:39-43 | labelling distinct answers that include the correct one marks exactly one as correct |
| Handwashing.GenerateChoices | src/components/HandwashingGame.jsx:25-44 | for any shuffles, 4 choices with indices 0..3, `isCorrect` iff the text is the current step, exactly one correct, distinct texts, and every wrong text another step |
| Handwashing.ProgressWidth | src/components/HandwashingGame.jsx:96 | the width lies in (0, 100] and is 100 exactly on the last step |
| Handwashing.ProgressWidthGrows | src/components/HandwashingGame.jsx:96 | the bar grows strictly with the step |
| Handwashing.HandwashingGame.constructor | src/components/HandwashingGame.jsx:20-23 | step 0, no selection, no choices yet, not complete |
| Handwashing.HandwashingGame.StepChangeEffect | src/components/HandwashingGame.jsx:47-50 | a step change regenerates the choices and clears the selection |
| Handwashing.HandwashingGame.HandleBoxClick | src/components/HandwashingGame.jsx:52-69 | a selected box is ignored; otherwise it is selected, and only a correct one starts the advance timer, capturing the current step; the selection never repeats a box |
| Handwashing.HandwashingGame.AdvanceTimerFires | src/components/HandwashingGame.jsx:60-66 | below the last step the captured step + 1 becomes current; on the last step the game completes and the step stays |
| Handwashing.HandwashingGame.ResetGame | src/components/HandwashingGame.jsx:71-75 | back to step 0, no selection, not complete |
| Handwashing.PlayRound | src/components/HandwashingGame.jsx:52-69 | with a round of well-formed choices on screen, clicking the correct box and letting its timer fire advances exactly one step, or completes the game on the last step |
| Hairwashing.FormatTime | src/components/HairwashingGame.jsx:171-175 | the text is the minutes zero-padded to two digits, a colon, and the seconds zero-padded to two digits; it is exactly 5 characters below 100 minutes |
| Hairwashing.TwoDigitsShort | src/components/HairwashingGame.jsx:173-174 | a number below 100 has at most two digits, so padding to 2 gives exactly two |
| Hairwashing.ParseTime | src/components/HairwashingGame.jsx:171-175 | only text with a colon three from the end reads as a time |
| Hairwashing.PaddedValue | src/components/HairwashingGame.jsx:174 | a zero-padded number reads back as itself |
| Hairwashing.ParseJoined | src/components/HairwashingGame.jsx:174 | minutes and two-digit seconds joined by a colon read back as their total of seconds |
| Hairwashing.FormatTimeRoundTrip | src/components/HairwashingGame.jsx:171-175 | reading the text back gives the number of seconds |
| Hairwashing.FormatTimeInjective | src/components/HairwashingGame.jsx:171-175 | different times never show the same text |
| Hairwashing.AddFoam | src/components/HairwashingGame.jsx:297-301 | with 40 bubbles or more the list is unchanged, otherwise the bubble is appended; a list of at most 40 stays at most 40 |
| Hairwashing.FarFrom | src/components/HairwashingGame.jsx:483-489 | the radius filter never grows the list, and returns it unchanged when it removes nothing |
| Hairwashing.FarFromKeepsExactly | src/components/HairwashingGame.jsx:483-489 | the filter keeps exactly the bubbles farther than the radius, each as often as it occurred |
| Hairwashing.SquareMonotone | src/components/HairwashingGame.jsx:485-488 | comparing squared distances to squared radii preserves the order of the radii |
| Hairwashing.FarMonotone | src/components/HairwashingGame.jsx:305-312 | a bubble beyond 60px is beyond 50px |
| Hairwashing.FarFromNested | src/components/HairwashingGame.jsx:483-502 | the 60px filter applied after the 50px filter equals the 60px filter alone |
| Hairwashing.Clamp | src/components/HairwashingGame.jsx:423 | progress is capped at 100 and is unchanged below it |
| Hairwashing.ClampCompose | src/components/HairwashingGame.jsx:493-508 | the two capped increments of a rinse move add up to one, in either order |
| Hairwashing.EraseProgress | src/components/HairwashingGame.jsx:350-352 | canvas progress lies in [0, 100]: `Math.round` of the erased percentage below 99.5%, and 100 from 99.5% up |
| Hairwashing.HairwashingGame.constructor | src/components/HairwashingGame.jsx:107-119 | the brush step with zero progress and no foam |
| Hairwashing.HairwashingGame.CompleteStep | src/components/HairwashingGame.jsx:361-392 | below COMPLETE the step advances by exactly 1 with progress 0 and dragging off; finishing shampoo sets `shampooApplied`; finishing blow-dry ends the game and marks hairwashing completed in the registry |
| Hairwashing.HairwashingGame.HandleToolClick | src/components/HairwashingGame.jsx:395-408 | a no-op for the current step or any target >= COMPLETE; otherwise jumps to the target with progress 0 |
| Hairwashing.HairwashingGame.ProgressTimerFires | src/components/HairwashingGame.jsx:411-417 | exactly when progress >= 100 and the game is not complete, the step completes with everything `completeStep` does: next step from zero progress, dragging stopped, the shampoo flag, and on blow-dry the success flags and the hairwashing completion record; otherwise no field and no stored record changes |
| Hairwashing.HairwashingGame.HandlePointerDown | src/components/HairwashingGame.jsx:437-448 | outside COMPLETE it starts dragging at the pointer and, on canvas steps, takes the canvas progress |
| Hairwashing.HairwashingGame.HandlePointerMove | src/components/HairwashingGame.jsx:450-512 | a drag over the hair changes progress by: canvas steps, the canvas progress; shampoo, +2 capped; scrub, +0.5 capped plus the capped foam append; rinse, `Rinse`. Off the hair or not dragging nothing changes; progress stays in [0, 100] and the foam at most 40 |
| Hairwashing.HairwashingGame.Rinse | src/components/HairwashingGame.jsx:477-509 | progress rises by 5 per bubble within 50px plus 0.3, capped at 100; when any bubble was within 50px the foam keeps exactly those beyond 60px, otherwise it is unchanged |
| Hairwashing.HairwashingGame.HandlePointerUp | src/components/HairwashingGame.jsx:514-516 | the drag ends |
| Decimal.ParseInt | src/context/GameFlowContext.jsx:14 | `parseInt(text, 10)` is NaN exactly when no digit follows the optional sign; otherwise it is the value of the digit prefix after the sign, negated after a minus sign; on plain digit text it is the decimal value |
| Decimal.ParseIntStopsAtNonDigit | src/context/GameFlowContext.jsx:14 | `parseInt` reads the leading digits and ignores everything from the first non-digit on |
| Decimal.ParseIntRoundTrip | src/context/GameFlowContext.jsx:12-28 | `parseInt` reads back the number that `toString()` wrote |
| GameFlowContext.InitialIndex | src/context/GameFlowContext.jsx:12-15 | -1 when nothing is saved, otherwise the number `parseInt` reads from the saved text |
| GameFlowContext.Persisted | src/context/GameFlowContext.jsx:22-28 | the index is stored, as decimal digit text, iff it is >= 0, and removed otherwise |
| GameFlowContext.CanAccessGame | src/context/GameFlowContext.jsx:48-54 | every game before the flow starts (index -1), otherwise exactly the games up to the current index |
| GameFlowContext.GetCurrentGamePath | src/context/GameFlowContext.jsx:56-61 | none outside [0, 3); otherwise the current game's path |
| GameFlowContext.GameFlow.constructor | src/context/GameFlowContext.jsx:12-28 | the index is `parseInt` of the saved text, or -1; the flow is active iff it names one of the three games; storage then mirrors the index |
| GameFlowContext.GameFlow.StartGameFlow | src/context/GameFlowContext.jsx:30-33 | index 0, active, the text "0" persisted |
| GameFlowContext.GameFlow.CompleteCurrentGame | src/context/GameFlowContext.jsx:35-40 | the index grows by exactly 1 with no clamp; the flow stays active only while old index + 1 < 3; storage follows |
| GameFlowContext.GameFlow.ResetFlow | src/context/GameFlowContext.jsx:42-46 | index -1, inactive, nothing stored |
| GameFlowContext.AccessGrowsWithIndex | src/context/GameFlowContext.jsx:48-54 | access only widens as the flow advances |
| GameFlowContext.PersistRoundTrip | src/context/GameFlowContext.jsx:12-28 | the text `toString()` writes for an index >= 0 reads back through `parseInt` as the same index at the next start-up; a negative index leaves nothing, which reads back as -1 |
| GameFlowContext.PlayThrough | src/context/GameFlowContext.jsx:30-61 | start and three completions end the flow at index 3 with every game open and no current path |
| ProtectedGameRoute.Decide | src/components/ProtectedGameRoute.jsx:4-19 | children are rendered iff the flow is inactive or access is allowed; every redirect goes to the current game's path, or "/" when there is none |
| ProtectedGameRoute.RedirectGoesToCurrentGame | src/components/ProtectedGameRoute.jsx:13-17 | while the flow invariant holds a redirect names the current game, never the game asked for |
| GameCompletion.GetCompletedGames | src/utils/gameCompletion.js:16-26 | nothing stored, unreadable text, or no `completedGames` array all read as the empty list |
| GameCompletion.MarkGameCompleted | src/utils/gameCompletion.js:32-44 | a known id leaves storage unchanged; a new one is written at the end of the existing list |
| GameCompletion.MedalsForCount | src/utils/gameCompletion.js:63-67 | gold implies silver and silver implies bronze |
| GameCompletion.CompletionStore.constructor | src/utils/gameCompletion.js:3 | the store starts with what the key holds |
| GameCompletion.CompletionStore.MarkCompleted | src/utils/gameCompletion.js:32-44 | the key afterwards holds `MarkGameCompleted` of what it held |
| GameCompletion.CompletionStore.ClearCompletions | src/utils/gameCompletion.js:73-79 | the key is removed, so no game reads as completed |
| GameCompletion.MarkAppendsWhenAbsent | src/utils/gameCompletion.js:37-40 | an absent id is appended after the existing entries, in order |
| GameCompletion.MarkIdempotent | src/utils/gameCompletion.js:36-40 | marking twice is marking once |
| GameCompletion.MarkThenCompleted | src/utils/gameCompletion.js:32-53 | after marking, the game reads as completed, and so does every game that already did |
| GameCompletion.MarkKeepsNoDuplicates | src/utils/gameCompletion.js:36-40 | the list stays free of duplicates |
| GameCompletion.MarkAllAppendsFirstOccurrences | src/utils/gameCompletion.js:32-44 | any run of marks leaves the old list followed by the new ids in first-seen order, each once |
| GameCompletion.IsGameCompleted | src/utils/gameCompletion.js:51-53 | a game is completed iff its id occurs in the stored list; without a readable list no game is |
| GameCompletion.UniqueCount | src/utils/gameCompletion.js:61 | the number of distinct ids is at most the list's length, at least 1 for a non-empty list, and equal to the length for a list without duplicates |
| GameCompletion.GetMedalStatus | src/utils/gameCompletion.js:59-68 | bronze iff >= 1, silver iff >= 2 and gold iff >= 3 distinct completed games |
| GameCompletion.MedalThresholds | src/utils/gameCompletion.js:59-67 | bronze iff anything is stored; on a duplicate-free list, silver iff it holds >= 2 games and gold iff >= 3 |
| GameCompletion.AllThreeGamesEarnGold | src/utils/gameCompletion.js:59-67 | completing the three games from an empty registry earns gold |
| ScoreManager.HasActiveSession | src/utils/scoreManager.js:7-10 | no stored id, or the empty string, is no session; any other stored id is one |
| ScoreManager.TotalScore | src/utils/scoreManager.js:164 | the total is the sum of the three stored scores as `updateScore` reads them, each missing one as 0 |
| ScoreManager.NewPlayer | src/utils/scoreManager.js:53-59 | a new player has 0 in each game and a total of 0 |
| ScoreManager.WithScore | src/utils/scoreManager.js:117-120 | the update writes one column and leaves the others and the player's details as they were |
| ScoreManager.ApplyScore | src/utils/scoreManager.js:113-131 | the stored score becomes the larger of the old one (missing as 0) and the new one; an equal or lower score leaves the row unchanged; other games are untouched |
| ScoreManager.FetchRow | src/utils/scoreManager.js:21-34 | a row comes back iff the request succeeds and the id exists; a missing row fails with PGRST116 |
| ScoreManager.ScoreStore.constructor | src/utils/scoreManager.js:8 | the store starts with the given session and tables |
| ScoreManager.ScoreStore.GetCurrentPlayer | src/utils/scoreManager.js:16-41 | no session gives no player; a found row is returned; a failure gives no player and ends the session exactly when the code is PGRST116 |
| ScoreManager.ScoreStore.CreatePlayer | src/utils/scoreManager.js:48-77 | an id is returned iff the insert succeeds; then the row has all scores 0 and the id is the session; otherwise nothing changes |
| ScoreManager.ScoreStore.UpdateScore | src/utils/scoreManager.js:85-137 | true iff there is a session, the game number is 1..3, the row is fetched, the score beats the stored one and the write succeeds; the table changes exactly then |
| ScoreManager.ScoreStore.CompleteGameSession | src/utils/scoreManager.js:143-191 | on success the entry holds the name and the sum of the three scores (missing as 0), is appended to the leaderboard, and the session ends only then; any failure changes nothing |
| ScoreManager.MaxOf | src/utils/scoreManager.js:113-116 | the running maximum is at least every element and equals one of them |
| ScoreManager.BestSoFar | src/utils/scoreManager.js:113-131 | after any run of submissions the stored score is the best of the start and all of them |
| ScoreManager.ApplyScoreRaisesTotal | src/utils/scoreManager.js:116-131 | a write never lowers the session total |
| ScoreTier.Round | src/utils/scoreTier.js:5 | `Math.round`: the nearest integer, halves rounded up |
| ScoreTier.Normalized | src/utils/scoreTier.js:5 | the value tiered is in [0, 100]: 0 when not finite, 100 from 99.5 up, 0 below 0.5, the rounded score in between |
| ScoreTier.GetTierLabel | src/utils/scoreTier.js:4-9 | Excellent iff the normalized score is >= 75, Good iff in [50, 75), Poor iff below 50 |
| ScoreTier.GetTierClass | src/utils/scoreTier.js:11-16 | the class is the tier's class |
| ScoreTier.GetTierColorHex | src/utils/scoreTier.js:18-23 | the colour is the tier's colour |
| ScoreTier.FiniteThresholds | src/utils/scoreTier.js:2-8 | Excellent iff the score is >= 74.5, Good iff in [49.5, 74.5), Poor iff below 49.5 |
| ScoreTier.Extremes | src/utils/scoreTier.js:5-8 | any score >= 100 is Excellent, any negative or non-finite score is Poor |
| ScoreTier.TierMonotone | src/utils/scoreTier.js:6-8 | a higher score never yields a lower tier |
| ScoreTier.ClassAndColorFollowLabel | src/utils/scoreTier.js:11-23 | two scores share a class, and a colour, exactly when they share a label |
| MedalDisplay.GamesCompleted | src/components/MedalDisplay.jsx:22-26 | the count is in 0..3; 0 iff no score is above 0, 3 iff all are |
| MedalDisplay.UpdateMedals | src/components/MedalDisplay.jsx:12-34 | no player gives no medal; otherwise bronze, silver and gold iff at least 1, 2 and 3 games scored above 0; gold implies silver implies bronze |
| MedalDisplay.MedalsOfScores | src/components/MedalDisplay.jsx:22-33 | a new player has no medal; gold iff all three scores are above 0 |
| MedalDisplay.ApplyScoreKeepsMedals | src/components/MedalDisplay.jsx:22-26 | a score update never lowers the completed count |
| PlayerOnboarding.SkipLeading | src/components/PlayerOnboarding.jsx:35 | the first index from i on that is not white space: everything skipped is white space, and what it stops at is not |
| PlayerOnboarding.SkipTrailing | src/components/PlayerOnboarding.jsx:35 | the end left after dropping trailing white space, never before the start: everything dropped is white space, and the last character kept is not |
| PlayerOnboarding.Trim | src/components/PlayerOnboarding.jsx:35 | the trimmed name is the slice of the name between its leading and trailing white space: every character before and after the slice is white space, and the slice neither starts nor ends with white space |
| PlayerOnboarding.TrimEmptyIffBlank | src/components/PlayerOnboarding.jsx:35-38 | the trimmed name is empty iff the name is all white space |
| PlayerOnboarding.Validate | src/components/PlayerOnboarding.jsx:35-46 | name, then grade, then age are checked, and only the first failure's message is given; age must be present and in 1..100 |
| PlayerOnboarding.ParsedAge | src/utils/scoreManager.js:56 | `parseInt` of a valid age is its integer part, in 1..100 |
| PlayerOnboarding.Onboarding.constructor | src/components/PlayerOnboarding.jsx:12-18 | empty form, no error, not submitting |
| PlayerOnboarding.Onboarding.HandleChange | src/components/PlayerOnboarding.jsx:20-28 | the edited field takes the new value and any error is cleared |
| PlayerOnboarding.Onboarding.HandleSubmit | src/components/PlayerOnboarding.jsx:30-69 | a failed check sets its message and creates nothing; a valid form creates the player with the trimmed name and makes the new id the session when the insert succeeds, navigates to "/" only when an id comes back, otherwise sets the failure message, and ends not submitting |
| PlayerOnboarding.Onboarding.CreateAndNavigate | src/components/PlayerOnboarding.jsx:48-68 | after validation: create the player and make its id the session when the insert succeeds, then navigate or report, and always end not submitting |
| Leaderboard.GetRankMedal | src/components/Leaderboard.jsx:29-34 | 1, 2 and 3 give the gold, silver and bronze medal; any other rank gives "#" followed by digits that read back as the rank, with no leading zero except for rank 0 itself |
| Leaderboard.RankMedalInjective | src/components/Leaderboard.jsx:29-34 | different ranks never share a label |
| Leaderboard.Rows | src/components/Leaderboard.jsx:64-73 | the entry at index i is shown with rank i + 1 and its label, with the top-three style exactly for indices 0..2 |
| Leaderboard.MedalsOnlyOnTopThree | src/components/Leaderboard.jsx:67-69 | a row is styled top-three exactly when its label is a medal rather than "#" |

## Left out

- Canvas erasing and pixel counting (`eraseAt`, `initializeMask`). The share of the mask erased is a parameter of the pointer handlers, taken as a finite number >= 0. A canvas with no pixels, whose share would be NaN, is not modelled. In `src/components/HairwashingGame.jsx:203-204` the image-mask load handler reads `HAIR_MASK_BOUNDS`, which the file neither defines nor imports. So that handler throws, `totalPixelsRef` keeps 0 or the previous step's size, and the ratio at lines 350-351 can be Infinity (shown as 100) or NaN. Taking the share as a parameter hides that.
- Hearts, water drops, temporary foam, sounds and music are visual or audio effects that do not affect the game state.
- The game timer's 1-second interval is out of scope. Only the text it shows (`formatTime`) is modelled.
- Timer delays and cancellation. Each timer is its callback's state change, fired as a separate method. `Handwashing.HandwashingGame.AdvanceTimerFires` fires timers oldest first, because every timer there has the same delay.
- Randomness. The shuffles and the spawned bubble are parameters. Bubble positions and sizes are not constrained.
- Toothbrush.ToothbrushGame.HandleMove: each pointer event is run against the latest state. In `src/components/ToothbrushGame.jsx:41-128` the window listeners are closures re-registered by an effect after each render. Only the stroke count uses a functional update (line 97); `lastBrushY` and `brushDirection` come from the render that registered the listener. A second move that reaches the old listener before the re-render compares against the stale Y and direction. For example, with lastY 100 going down, a move to 80 counts a stroke, and a stale move to 70 counts another. The model rules that double count out, so `Toothbrush.CreditBound` and `Toothbrush.StrokesNeedMoves` hold only for events delivered after each re-render. `Toothbrush.ToothbrushGame.HandleUp` assumes the same for `overBristles` (line 111).
- Toothbrush pointer capture (`setPointerCapture`) does not affect the game state.
- Network and storage internals. Remote failures are boolean parameters or an error code. Storage write failures (quota, private mode) and the `catch` branches for thrown exceptions are not modelled. That includes onboarding's "An unexpected error occurred" message.
- GameFlowContext.InitialIndex: a saved text that `parseInt` reads as NaN is taken as -1. The two agree on activity, on what the route guard renders, and on storage (the key is removed). They differ after `completeCurrentGame`: NaN stays NaN with nothing stored, while -1 becomes 0 and "0" is stored.
- Decimal.ParseInt: leading white space, which `parseInt` skips, is not skipped, so such text reads as NaN.
- PlayerOnboarding.ParsedAge: `parseInt` of an age written in exponent notation (such as "1e2", which reads as 1) is not modelled. The age is taken as the number the browser parsed, and its integer part is kept.
- `getLeaderboard` is a database query ordered and limited by the server. The list it returns is the input of `Leaderboard.Rows`.
- Scores are exact reals. NaN and infinite scores are not modelled; for them `|| 0` and `score > currentScore` would behave differently.
- Leaderboard.GetRankMedal takes a natural number. The list only produces ranks from 1 upward.
- Markup, routing shells, the landing page and the game page are not modelled. None of the shown components calls `updateScore`, `completeCurrentGame` or `completeGameSession`, so the model leaves their callers out too.
