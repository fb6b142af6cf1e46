# Le Défi NIRD — a verified model of the game engine

"Le Défi NIRD" is a browser game in which the player, as the head of a school,
makes ten choices about the school's computing (NIRD: an inclusive, responsible
and sustainable digital school). Each choice moves three indicators (budget,
NIRD score, dependence on big-tech vendors) and the reputation of four
stakeholder groups (students, teachers, parents, the education authority).
Random events may interrupt the game between two steps. An end screen scores
the game. Around this engine sit a name form, an introduction, a school map and
a hidden snake mini-game that the keyboard code "RETRO" unlocks.

This project models that engine in Dafny, one module per source file:

| module | source file | form |
|---|---|---|
| `Reputation` | `data/reputation.ts` | functions and lemmas |
| `RandomEvents` | `data/randomEvents.ts` | functions and lemmas; `Math.random` becomes the `rolls` and `pick` parameters |
| `Page` | `app/page.tsx` | class `Home` holding the session state, one method per handler |
| `ScenarioStep` | `components/ScenarioStep.tsx` | class `ScenarioScreen` for the choice/transition state, functions for the score sheet |
| `GameEnd` | `components/GameEnd.tsx` | functions for the rating, stars and message; class `ScoreCounter` for the counters |
| `SchoolMap` | `components/SchoolMap.tsx` | functions and lemmas |
| `RetroGaming` | `components/RetroGaming.tsx` | class `SnakeGame`; a method for the food loop |
| `NameInput` | `components/NameInput.tsx` | class `NameForm` |
| `GameIntro` | `components/GameIntro.tsx` | class `IntroPager`; functions for the bold markup |
| `Scenario` | (types shared by the above) | the `Choice` record and the indicators |
| `Common`, `Text` | (JavaScript built-ins) | `Math.round`, `Math.ceil`, clamping, `trim`, `split`, `toUpperCase`, `toString` |

Behaviour the model makes explicit:

- **Two updates, two rules.** A scenario choice adds its deltas to the
  indicators without clamping (`ScenarioStep.CommitChoice`). A random-event
  answer clamps the NIRD score and the dependence to [0, 100] but not the budget
  (`Page.EventOutcome`). `ScenarioStep.ScenarioUnclampedEventClamped` shows the
  same +10 giving 105 one way and 100 the other.
- **Two readings of `nextId`.** The page computes the next step as
  `nextId || current + 1` for the end-of-game check and the event draw. The
  scenario screen stores `nextId` as it is, so a choice without `nextId` leaves
  the game with no current step (`ScenarioStep.NullNextIdDisagreement`).
- **Timer order on the last step.** A choice schedules the page's check 500 ms
  later (`Page.Home.pendingChecks`). The transition screen commits the choice's
  deltas after 11.5 s. On the tenth step, when the transition is not skipped
  within its first 500 ms, the check runs first and switches to the end screen.
  That removes the scenario screen, whose pending transition is discarded. So
  the end screen then shows the indicators as they were before the last choice
  (`ScenarioStep.ScenarioScreen.LastChoiceAsScheduled`). Pressing Space or the
  skip button before the check fires commits the deltas first
  (`ScenarioStep.ScenarioScreen.HandleTransitionComplete` can be called before
  `Page.Home.ChoiceTimerFires`), and the end screen then includes them.
- **The event check reads the triggered list of the moment of the choice.** A
  check appends the drawn event to the current list. When that list has changed
  since the choice, a repeat is possible. `Page.Home.ChoiceTimerFires` promises
  no repeats only when the snapshot is current.
- **The end screen's closing message is not the rating.** Its third sentence
  tests the NIRD score alone (score >= 40), while the RÉUSSI rating also needs a
  dependence of at most 60. With 50 points and a dependence of 80 the rating
  reads PARTIEL and the message is the RÉUSSI one
  (`GameEnd.MessageThirdTierIgnoresDependance`).
- **A negative NIRD score shows as 0.** The end-screen counters start at 0 and
  only count up, so a negative final value is never reached
  (`GameEnd.CounterReachesTarget`).

## Model

| member | source | states |
|---|---|---|
| `Common.Clamp` | data/reputation.ts:113 | the clamp lies in [lo, hi], is the value itself inside, the bound outside |
| `Common.RoundDiv` | data/reputation.ts:102-104 | `Math.round(n/d)` rounds half up: the result r satisfies r - 1/2 <= n/d < r + 1/2 |
| `Common.RoundDivUnique` | data/reputation.ts:102-104 | that inequality determines the rounded value uniquely |
| `Common.CeilDiv` | components/GameEnd.tsx:157 | `Math.ceil(n/d)` is the least r with n <= d*r |
| `Text.ToUpperCase` | app/page.tsx:185 | upper-casing keeps the length and maps each character through the ASCII upper-case map |
| `Text.TrimSpec` | components/NameInput.tsx:17 | `trim` returns a contiguous slice of the input with only white space removed around it, and the slice neither starts nor ends with white space |
| `Text.TrimEmptyIff` | components/NameInput.tsx:17 | a trimmed name is empty exactly when the name is white space only |
| `Text.TrimIdempotent` | components/NameInput.tsx:25 | trimming a trimmed name changes nothing |
| `Text.JoinSplit` | components/GameIntro.tsx:72-75 | `split` on a separator yields at least one piece, and joining the pieces with it restores the string |
| `Text.SplitPieces` | components/GameIntro.tsx:72-75 | no piece of `split` contains the separator, and every piece but the last stops just before the leftmost occurrence from its start, so occurrences are taken left to right without overlap |
| `Text.SplitLeftmostExample` | components/GameIntro.tsx:74 | "a***b" split on `**` gives "a" and "*b" |
| `Text.NatToStringDenotes` | app/page.tsx:113 | the numeral of `toString` is made of digits, denotes the number, and has no leading zero |
| `Text.IntToStringInjective` | app/page.tsx:113 | distinct step numbers have distinct string keys |
| `Reputation.InitialReputation` | data/reputation.ts:20-25 | every group starts at 50, inside [0, 100] |
| `Reputation.ApplyReputationImpact` | data/reputation.ts:108-119 | every group ends in [0, 100]; it is exactly current + delta when that is in range, 0 or 100 beyond; a group missing from the impact keeps an in-range value |
| `Reputation.EmptyImpactIdentity` | data/reputation.ts:108-119 | an empty impact leaves an in-range reputation unchanged |
| `Reputation.OverallReputation` | data/reputation.ts:101-105 | the overall score is the mean of the four groups rounded half up, and lies in [0, 100] for in-range groups |
| `Reputation.OverallReputationExamples` | data/reputation.ts:101-105 | 50,50,50,52 gives 51 (x.5 rounds up), 50,50,50,51 gives 50 |
| `Reputation.GetReputationLabel` | data/reputation.ts:92-98 | each band holds exactly the scores between its inclusive lower bound and the next band's |
| `Reputation.LabelMonotone` | data/reputation.ts:92-98 | a higher score never gets a worse band |
| `Reputation.LabelBoundaries` | data/reputation.ts:92-98 | 80 is Excellent and 79 Très bon, and likewise at 65, 50 and 35 |
| `Reputation.LabelTextsDistinct` | data/reputation.ts:92-98 | the five bands show five different texts |
| `Reputation.StepRow` | data/reputation.ts:28-89 | a found row belongs to the numeral of a step 1 to 10 |
| `Reputation.LookupImpact` | data/reputation.ts:28-89 | an entry exists exactly for a step key of the table and a choice 'a', 'b' or 'c' |
| `Reputation.ImpactTableShape` | data/reputation.ts:28-89 | the table has an entry for step n and choice c exactly when 1 <= n <= 10 and c is 'a', 'b' or 'c' |
| `Reputation.ImpactTableDeltas` | data/reputation.ts:28-89 | every entry moves all four groups, each by a delta in [-20, 25] |
| `RandomEvents.Candidates` | data/randomEvents.ts:722-726 | the candidates are exactly the catalogue events whose window holds the step and whose id is not triggered |
| `RandomEvents.Eligible` | data/randomEvents.ts:722-728 | everything the filter keeps is a candidate from the catalogue |
| `RandomEvents.EligibleIsRollOfCandidates` | data/randomEvents.ts:722-728 | the filter equals rolling each candidate, in order, against its own probability (no normalisation; non-candidates consume no roll) |
| `RandomEvents.RollEmptyIff` | data/randomEvents.ts:722-730 | nothing passes exactly when every candidate's roll reaches its probability |
| `RandomEvents.RollExcludes` | data/randomEvents.ts:727 | a distinct candidate whose roll reaches its probability is not kept |
| `RandomEvents.RollPassed` | data/randomEvents.ts:727 | anything kept passed its own roll |
| `RandomEvents.EligibleSubsequence` | data/randomEvents.ts:722-728 | the filtered list keeps catalogue order (is a subsequence of the catalogue) |
| `RandomEvents.CandidatesSubsequence` | data/randomEvents.ts:722-726 | the candidates keep catalogue order |
| `RandomEvents.PickIndex` | data/randomEvents.ts:732 | `floor(r * len)` is an index in [0, len) for r in [0, 1) |
| `RandomEvents.GetRandomEvent` | data/randomEvents.ts:721-733 | a drawn event is in the catalogue, in its window and not triggered; null exactly when every candidate's roll fails; a drawn event passed its own roll |
| `RandomEvents.FailedRollNeverDrawn` | data/randomEvents.ts:727 | an event whose roll reaches its probability is never returned |
| `RandomEvents.DrawIsPickedElement` | data/randomEvents.ts:732 | a drawn event is the filtered list's element at `floor(pick * length)` |
| `RandomEvents.CatalogIdsUnique` | data/randomEvents.ts:28-718 | the catalogue has 16 events with distinct ids |
| `RandomEvents.CatalogWellFormed` | data/randomEvents.ts:28-718 | each event has 0 < probability <= 1, 1 <= minStep <= maxStep <= 10, and 3 or 4 answers |
| `RandomEvents.GetEventTypeColor` | data/randomEvents.ts:736-746 | a colour is defined for every kind of event |
| `RandomEvents.GetEventTypeLabel` | data/randomEvents.ts:748-757 | a label is defined for every kind of event |
| `RandomEvents.EventTypeDisplayDistinct` | data/randomEvents.ts:736-757 | different kinds get different colours and different labels |
| `Page.NextStep` | app/page.tsx:147 | the next step is `nextId` when it is truthy, else the current step (0 when null) plus one |
| `Page.NextStepAdvances` | app/page.tsx:147-151 | without `nextId` step k leads to k + 1, and only step 10 leads past the last step |
| `Page.StepKey` | app/page.tsx:113 | the table key is the step's numeral, "1" when there is no step |
| `Page.StepKeyCases` | app/page.tsx:113-115 | no step is looked up as step 1; step 0 finds no entry, so the reputation is left alone |
| `Page.RecordCompleted` | app/page.tsx:141-143 | the step is appended only when truthy and absent: no duplicates, nothing else added, the old list a prefix |
| `Page.RecordCompletedIdempotent` | app/page.tsx:141-143 | recording the same step twice records it once |
| `Page.ChangesOverSpec` | app/page.tsx:122-132 | the notification lists exactly the groups with a non-zero delta, in group order, each with its old and new value |
| `Page.CollectChanges` | app/page.tsx:120-129 | the `forEach` loop builds exactly that list |
| `Page.EventOutcome` | app/page.tsx:396-401 | budget += impact unclamped; NIRD and dependence clamped to [0, 100]; exact when in range; step unchanged |
| `Page.LastFive` | app/page.tsx:186-188 | the buffer keeps at most the last five characters |
| `Page.RetroAppend` | app/page.tsx:185-194 | the mode toggles exactly when the last five characters spell RETRO, and the buffer then empties |
| `Page.RetroLetter` | app/page.tsx:185-194 | a buffer ending with part of the code ends with one more letter of it after that letter is typed |
| `Page.TypedRET` | app/page.tsx:185-194 | typing R, E, T after anything toggles nothing and leaves the buffer ending with RET |
| `Page.TypedRO` | app/page.tsx:185-194 | after RET, typing R, O toggles on the O only and empties the buffer |
| `Page.TypingRetroToggles` | app/page.tsx:185-194 | typing RETRO toggles the mode on the fifth key and on no earlier one, whatever came before |
| `Page.LowerCaseRetroKeys` | app/page.tsx:185 | the keys r, e, t, o give the code's capital letters |
| `Page.KeyBufferAfter` | app/page.tsx:175-198 | the buffer survives while the phase stays, and is empty after a phase change |
| `Page.Home.constructor` | app/page.tsx:24-58 | the title screen with the initial indicators, a neutral reputation and empty lists |
| `Page.Home.SetPhase` | app/page.tsx:32 | sets the screen and resets the key buffer on a change |
| `Page.Home.HandleStart` | app/page.tsx:64-69 | the title's button opens the name form |
| `Page.Home.HandleNameSubmit` | app/page.tsx:71-79 | stores both names and shows the loading screen |
| `Page.Home.LoadingDone` | app/page.tsx:76-78 | the loading timer opens the introduction |
| `Page.Home.HandleIntroComplete` | app/page.tsx:81-84 | the introduction's end starts play |
| `Page.Home.HandleRestart` | app/page.tsx:86-94 | indicators, reputation, completed steps and triggered events are reset; back to the introduction, unpaused, map closed |
| `Page.Home.HandleQuit` | app/page.tsx:96-106 | as restart, also forgetting both names, and back to the title |
| `Page.Home.OpenMap` | app/page.tsx:347 | the map opens |
| `Page.Home.CloseMap` | app/page.tsx:378 | the map closes |
| `Page.Home.StartRetroGame` | app/page.tsx:313 | the end screen's arcade button starts the mini-game |
| `Page.Home.TogglePause` | app/page.tsx:168-173 | the pause toggles while playing and only then |
| `Page.Home.HandleChoiceMade` | app/page.tsx:108-166 | applies the table's impact for (step key, choice) or nothing; notification as above; step recorded; the check scheduled with the next step and the triggered list of the moment |
| `Page.Home.ChoiceTimerFires` | app/page.tsx:145-160 | past step 10 the game ends and nothing is drawn; otherwise the drawn event, if any, is shown and appended to the triggered list at once, which keeps it free of repeats when the snapshot is current |
| `Page.Home.ResolveEvent` | app/page.tsx:393-407 | the event's outcome and reputation impact apply and the event closes |
| `Page.Home.HandleKeyDown` | app/page.tsx:178-195 | Escape toggles the pause while playing; every key's upper-cased name feeds the RETRO detector |
| `ScenarioStep.HasScriptIff` | components/ScenarioStep.tsx:37-91 | both narration tables script exactly steps 1 to 10 with choices 'a', 'b', 'c' |
| `ScenarioStep.GetNarration` | components/ScenarioStep.tsx:37-91 | the scripted narration when one exists, else the choice's own text |
| `ScenarioStep.GetAfterNarration` | components/ScenarioStep.tsx:95-150 | the scripted narration when one exists, else the fixed default sentence |
| `ScenarioStep.GetImpactIcons` | components/ScenarioStep.tsx:233-242 | one badge per non-zero dimension, of the right sign, so 0 to 3 badges, the budget's first |
| `ScenarioStep.CommitChoice` | components/ScenarioStep.tsx:668-679 | each indicator moves by exactly the choice's delta, unclamped, and the step becomes the pending `nextId` |
| `ScenarioStep.ScenarioUnclampedEventClamped` | components/ScenarioStep.tsx:671-675 | +10 at 95 gives 105 from a choice, 100 from an event |
| `ScenarioStep.NullNextIdDisagreement` | components/ScenarioStep.tsx:850-856 | without `nextId` the page moves to step k + 1 while the screen moves to no step |
| `ScenarioStep.Normalized` | components/ScenarioStep.tsx:698-699 | the normalised indicator is in [0, 100] and unchanged inside it |
| `ScenarioStep.BudgetScore` | components/ScenarioStep.tsx:700-705 | in [0, 100]; one point per 1000 above -50000, rounded half up; 0 below -50000, 100 above 50000 |
| `ScenarioStep.BudgetScoreExamples` | components/ScenarioStep.tsx:700-705 | 50000 gives 100, 0 gives 50, -50000 gives 0, -500 gives 50 and -501 gives 49 |
| `ScenarioStep.BudgetScoreMonotone` | components/ScenarioStep.tsx:700-705 | more budget never scores less |
| `ScenarioStep.ScoreGlobal` | components/ScenarioStep.tsx:712-716 | the weighted mean 40/35/25 rounded half up, in [0, 100] |
| `ScenarioStep.GetGrade` | components/ScenarioStep.tsx:718-725 | each grade holds exactly the scores of its band (85, 70, 55, 40, 25 inclusive) |
| `ScenarioStep.GradeMonotone` | components/ScenarioStep.tsx:718-725 | a higher score never gets a lower grade |
| `ScenarioStep.GetEndGameScores` | components/ScenarioStep.tsx:695-725 | NIRD and dependence are their values clamped to [0, 100]; the budget score is `BudgetScore` of the budget; independence = 100 - dependence; the global score is the rounded 40/35/25 mean of NIRD, independence and budget score; the grade is that of the global score; every score in [0, 100] whatever the indicators |
| `ScenarioStep.EndGameBest` | components/ScenarioStep.tsx:695-725 | NIRD 100, dependence 0, budget 50000 scores 100, an S |
| `ScenarioStep.EndGameWorst` | components/ScenarioStep.tsx:695-725 | NIRD 0, dependence 100, budget 0 scores 13, an F |
| `ScenarioStep.EndGameNormalizes` | components/ScenarioStep.tsx:697-699 | indicators beyond [0, 100] score as their bound |
| `ScenarioStep.ScenarioScreen.constructor` | components/ScenarioStep.tsx:660-662 | the screen starts without a transition |
| `ScenarioStep.ScenarioScreen.CurrentStep` | components/ScenarioStep.tsx:664 | the current step exists exactly when the state's step id is a scenario step |
| `ScenarioStep.ScenarioScreen.HandleChoice` | components/ScenarioStep.tsx:846-857 | without a current step nothing changes; otherwise the page applies the step's reputation impact and shows the groups that moved (as `HandleChoiceMade`), records the step, schedules the check, and the transition holds the choice and its verbatim `nextId` |
| `ScenarioStep.ScenarioScreen.HandleTransitionComplete` | components/ScenarioStep.tsx:668-679 | a pending choice is committed and the transition closes; without one nothing changes |
| `ScenarioStep.ScenarioScreen.Unmount` | components/ScenarioStep.tsx:223-229 | leaving play discards a pending transition |
| `ScenarioStep.ScenarioScreen.LastChoiceAsScheduled` | components/ScenarioStep.tsx:219-221 | on step 10 the check ends the game first and the last choice's deltas are never committed |
| `GameEnd.GetNIRDRating` | components/GameEnd.tsx:65-71 | each rating holds exactly the inputs that pass its test and fail every earlier one |
| `GameEnd.VictoryIffTopRating` | components/GameEnd.tsx:102-110 | victory is shown exactly for CHAMPION and EXCELLENT |
| `GameEnd.Stars` | components/GameEnd.tsx:156-157 | star i is filled exactly when i < ceil(score / 20) |
| `GameEnd.FilledStarsCount` | components/GameEnd.tsx:156-157 | clamp(ceil(score / 20), 0, 5) stars are filled, all before the empty ones; 80 fills 4, 81 fills 5 |
| `GameEnd.GetClosingMessage` | components/GameEnd.tsx:161-167 | each message holds exactly the inputs of its branch |
| `GameEnd.MessageFollowsRating` | components/GameEnd.tsx:161-167 | the first two messages go with CHAMPION and EXCELLENT, and RÉUSSI gets the third |
| `GameEnd.MessageThirdTierIgnoresDependance` | components/GameEnd.tsx:161-167 | score 50 with dependence 80 is rated PARTIEL but gets the third message |
| `GameEnd.CounterStep` | components/GameEnd.tsx:47-49 | below the target a tick adds 5 without passing the target; at or above it nothing moves |
| `GameEnd.CounterReachesTarget` | components/GameEnd.tsx:44-63 | from 0 the counter shows min(5n, target) after n ticks; below a negative target it stays at 0 |
| `GameEnd.CounterTicksNeeded` | components/GameEnd.tsx:44-63 | ceil(target / 5) ticks reach the target and one fewer does not |
| `GameEnd.ScoreCounter.constructor` | components/GameEnd.tsx:44-63 | a counter starts at 0 |
| `GameEnd.ScoreCounter.Tick` | components/GameEnd.tsx:47-49 | a tick is the counter step; the counter never decreases nor passes a non-negative target |
| `GameEnd.ScoreCounter.Run` | components/GameEnd.tsx:44-51 | the interval stops at the target, or at 0 below a negative one |
| `SchoolMap.GetZoneStatus` | components/SchoolMap.tsx:40-45 | completed before current before next, locked otherwise; next only for current + 1 not completed |
| `SchoolMap.CanClickIff` | components/SchoolMap.tsx:53 | a zone is clickable exactly on an interactive map when completed or current; never the next zone |
| `SchoolMap.ZonesOn` | components/SchoolMap.tsx:47-48 | the filter keeps exactly the zones of a page, in order |
| `SchoolMap.MapZoneIds` | components/SchoolMap.tsx:15-26 | the zones are steps 1 to 10, each once |
| `SchoolMap.MapZonesPartition` | components/SchoolMap.tsx:47-48 | the left page holds zones 1 to 5 and the right page 6 to 10 |
| `SchoolMap.ProgressCells` | components/SchoolMap.tsx:145-158 | cell k is green exactly when k is completed, else highlighted exactly when current |
| `SchoolMap.ProgressCounterMatchesCells` | components/SchoolMap.tsx:458-471 | for distinct steps in 1..10 the counter equals the number of green cells, at most 10 |
| `RetroGaming.MoveHead` | components/RetroGaming.tsx:103-120 | the head moves one cell in its direction, wrapping at the edges, and stays on the 20 x 15 grid |
| `RetroGaming.MoveOppositeUndoes` | components/RetroGaming.tsx:103-120 | a step back in the opposite direction undoes a step |
| `RetroGaming.Steer` | components/RetroGaming.tsx:43-75 | the next direction is never the reverse of the current one; a reversing key resets it to the current one |
| `RetroGaming.ParseKey` | components/RetroGaming.tsx:43-86 | arrows and WASD, in any case, steer; space toggles the pause; other keys do nothing |
| `RetroGaming.ToUpperCaseIdempotent` | components/RetroGaming.tsx:43 | upper-casing twice is upper-casing once |
| `RetroGaming.ParseKeyCaseInsensitive` | components/RetroGaming.tsx:43 | a key and its upper-cased name act alike |
| `RetroGaming.ParseKeyExamples` | components/RetroGaming.tsx:43-75 | "w" steers up and "ArrowLeft" left |
| `RetroGaming.DrawCell` | components/RetroGaming.tsx:135 | a drawn cell lies on the grid |
| `RetroGaming.FirstFree` | components/RetroGaming.tsx:133-136 | the food lands on a drawn cell that is on the grid and off the snake |
| `RetroGaming.RespawnFood` | components/RetroGaming.tsx:133-136 | the do-while stops at the first drawn cell off the snake |
| `RetroGaming.SnakeGame.constructor` | components/RetroGaming.tsx:28-36 | snake (10,7),(9,7),(8,7), food (15,10), heading right, score 0, running |
| `RetroGaming.SnakeGame.HandleKey` | components/RetroGaming.tsx:40-86 | nothing after game over; steering through the reversal guard; space toggles the pause |
| `RetroGaming.SnakeGame.NextHead` | components/RetroGaming.tsx:98-120 | the next head lies on the grid |
| `RetroGaming.SnakeGame.Tick` | components/RetroGaming.tsx:97-150 | over exactly when the new head meets the old snake, tail included; eating grows by one, scores 10 and re-rolls the food; otherwise the tail drops; direction := next direction; food stays off the snake and score = 10 x growth |
| `RetroGaming.TogglePauseTwice` | components/RetroGaming.tsx:76-82 | two presses of space leave the pause as it was |
| `NameInput.BlankIff` | components/NameInput.tsx:87 | a field is blank (its button disabled) exactly when it is white space only |
| `NameInput.NameForm.constructor` | components/NameInput.tsx:11-13 | both names empty, on the director step |
| `NameInput.NameForm.EditDirector` | components/NameInput.tsx:78 | typing sets the director's name |
| `NameInput.NameForm.EditSchool` | components/NameInput.tsx:109 | typing sets the school's name |
| `NameInput.NameForm.SubmitDirector` | components/NameInput.tsx:15-20 | on to the school step exactly when the director's name is not blank |
| `NameInput.NameForm.SubmitSchool` | components/NameInput.tsx:22-27 | submits exactly when the school's name is not blank, and then both trimmed names, both non-empty |
| `NameInput.NameForm.Back` | components/NameInput.tsx:119 | back to the director step, both names kept |
| `NameInput.SubmittedNamesAreTrimmed` | components/NameInput.tsx:25 | the submitted names neither start nor end with white space |
| `GameIntro.IntroPager.constructor` | components/GameIntro.tsx:13 | the first page |
| `GameIntro.IntroPager.Previous` | components/GameIntro.tsx:140-141 | max(0, step - 1) |
| `GameIntro.IntroPager.Next` | components/GameIntro.tsx:151-153 | one page on, before the last page only |
| `GameIntro.IntroPager.KeyDown` | components/GameIntro.tsx:50-69 | ignores keys aimed at inputs, text areas and editable elements; space turns the page, or starts the game on the last page; the step stays in [0, 4] |
| `GameIntro.FormatLine` | components/GameIntro.tsx:74-76 | the runs are the pieces between `**` markers, none of them contains `**`, and exactly the odd-numbered ones are bold |
| `GameIntro.FormatContent` | components/GameIntro.tsx:71-79 | one formatted line per newline-separated line |
| `GameIntro.FormatContentRoundTrip` | components/GameIntro.tsx:71-79 | re-inserting the markers and newlines gives the text back |
| `GameIntro.FormatLineExample` | components/GameIntro.tsx:74-76 | "a**b" gives a plain "a" and a bold "b" |

## Left out

- Audio (`hooks/useAudio.ts` and every `playSound`, `startMusic`, `toggleMute` call): foreign Web Audio calls with floating-point frequencies.
- Animations, particles, the end screen's `Math.sin` starfield, typewriters, fades and the transition screen's inner phases: presentation driven by timers and floating point.
- Timers are not modelled as time. Each handler is one atomic step. The 500 ms check is a queue of pending checks run by `ChoiceTimerFires`. The transition's 11.5 s end is a call to `HandleTransitionComplete` or `Unmount`. Interleavings other than the last-step order above are not explored.
- Notification visibility flags and their timers (`showNotification`, `showReputationChange`): they only hide or show text.
- The mute button also changes the key listener's dependencies and so empties the RETRO buffer; the model empties it only on a phase change.
- `Text.ToUpperCase`: upper-cases the ASCII letters only; JavaScript's full Unicode case mapping is not modelled. The key names the game reads are ASCII.
- The scenario dataset (`data/scenario`) is not part of this model. A choice is an abstract record, and the scenario's step ids are a parameter of `ScenarioScreen`.
- Narration prose, event texts, zone names and icons: only the lookup-or-fallback behaviour and the identifiers are modelled.
- Floating point: `budgetScore`, `scoreGlobal`, the overall reputation and the star count are computed in exact rational arithmetic with `Math.round`'s half-up rule. IEEE-754 rounding of `0.40 * x` and similar products is not modelled. The indicators are integers, so the `Math.round` applied to them is the identity.
- Event probabilities are exact reals, not binary floating-point numbers.
- `RetroGaming.SnakeGame.Tick`: the food loop can run forever on a full grid. The model requires the caller's draws to contain a cell off the grown snake; `RespawnFood` states the loop's exit condition.
- The random-event modal's intro/choices phases, the pause menu, indicators and reputation panels: presentation only.
- `SchoolMap`'s hover state: cosmetic.
