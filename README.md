# SportTwist core, modelled in Dafny

SportTwist is an NFL "what-if" application. You pick a play from a past game, change its outcome, and the server re-simulates the rest of the game. This project models the deterministic core of that feature and proves properties of it:

- **The play card of the timeline** (`GameEvent.tsx`):
  - how the changeable attributes of a play become a dropdown, a toggle or nothing;
  - which attributes the card sends back when the user clicks or chooses;
  - when it tells its parent that the play changed.

  The card is a class (`GameEventCard.GameEvent`) whose fields are the component's state hooks. Attribute objects are sequences of key/value entries in key order (`PlayAttributes`).
- **The play-by-play simulator** (`game.py`):
  - the changeable attributes of each event class;
  - the yard-line label;
  - the game state a simulation steps (a class, `Simulation.GameState`);
  - every `simulate_*` step;
  - `reroll` of each event class;
  - `simulate_from`, the loop that plays the game out from the changed play.

  Every random draw of a step comes in as a `Draw`, so each step is a function of its inputs. Each method of `Simulation.Simulator` is proved to give the outcome and the new state of the function for its step. The loop of `simulate_from` is proved to give the plays `PlaysAfter` defines from the changed play. The functions carry the lemmas. Where a step of the source has a defect (see "## Findings"), these functions follow the corrected step, and "## Left out" names every member that does.
- **The drive-level Monte Carlo model** (`moremontecarlo.py`):
  - the points of a play record;
  - `add_play` and `clone` on a game-state class;
  - the down-and-distance loop of one drive, proved to keep the plays `WholeDrive` defines from the draws;
  - the sample game;
  - the score recount after an edit.
- **The play-by-play what-if command line** (`interactive_game_sim.py`):
  - turnovers;
  - the field-position value;
  - the score up to the edited play;
  - the deterministic edits of `apply_core_modification`;
  - the counting of results;
  - the play filters.
- **The game lists of the API server** (`nfl_api.py`):
  - finished games, newest first;
  - the `latest`, `player:`, `type:`, `season:` and free-text searches;
  - the popular games.

  All of these work over a sequence of schedule rows. A failed data load is `None`.
- **The front end's list helpers** (`nflApi.ts`): the winner of a game, the "away vs home" label, and the search over the six built-in fallback games.
- **The `/simulate` endpoint** (`app.py`):
  - the ten-minute game cache, a class with `now` as a parameter;
  - the request validation;
  - the rule that adds a what-if's points to the team it names.

Python strings are `seq<char>`. `str.lower()` lowers ASCII letters only, and `strip()` removes ASCII and Latin-1 white space.

## Model

| member | source | states |
|---|---|---|
| PlayAttributes.Find | frontend/src/components/GameEvent.tsx:41-42 | the position of a key is where it sits, the first such position, and `None` exactly when the key is absent (`attrs.k !== undefined`) |
| PlayAttributes.Get | frontend/src/components/GameEvent.tsx:115-117 | a value is found exactly when the key is present |
| PlayAttributes.Set | frontend/src/components/GameEvent.tsx:112-125 | assigning a key on the spread copy: the key now maps to the value, every other key keeps its value, an existing key keeps its place, and a new key is appended |
| PlayAttributes.FirstBoolIndex | frontend/src/components/GameEvent.tsx:72-74 | the first entry whose value is a boolean, and `None` exactly when no value is a boolean |
| PlayAttributes.FindSameKeys | frontend/src/components/GameEvent.tsx:112 | two objects with the same keys in the same order find every key at the same place |
| PlayAttributes.FindAppend | frontend/src/components/GameEvent.tsx:112-125 | appending a new key leaves the other lookups alone and finds the new key at the end |
| PlayAttributes.FirstBoolIndexSameShape | frontend/src/components/GameEvent.tsx:72-74 | the first boolean key depends only on which values are booleans |
| PlayAttributes.FindKeyAt | frontend/src/components/GameEvent.tsx:112 | in an object without duplicate keys, each key is found where it sits |
| PlayAttributes.PassLabel | frontend/src/components/GameEvent.tsx:47 | the current dropdown label is one of the three pass outcomes |
| PlayAttributes.Classify | frontend/src/components/GameEvent.tsx:35-85 | covers every input: a missing object gives read-only. The result is a dropdown exactly when `is_interception` is present, with options Complete, Incomplete, Interception and a current value among them. It is read-only exactly when none of `is_complete`, `is_interception`, `called` or a boolean value is present |
| PlayAttributes.TogglePayloadAsWritten | frontend/src/components/GameEvent.tsx:111-127 | the payload as written keeps every key in its place. It rewrites only the targeted key (`is_complete` negated, `called` and the first boolean as the toggle itself) and leaves every other key as it was |
| PlayAttributes.TogglePayload | frontend/src/components/GameEvent.tsx:111-127 | the corrected payload keeps every key in its place. It rewrites only the targeted key (`is_complete` negated, `called` as the toggle, the first boolean negated) and leaves every other key as it was |
| PlayAttributes.DropdownPayload | frontend/src/components/GameEvent.tsx:150-165 | for a pass, a known label sets (`is_complete`, `is_interception`) to (true,false), (false,false) or (false,true). No other key changes, and an unknown label or a non-pass sends the object unchanged |
| PlayAttributes.FirstBoolKeyAfterSet | frontend/src/components/GameEvent.tsx:121-125 | rewriting the first boolean key with another boolean keeps it the first boolean key |
| PlayAttributes.TogglePayloadShowsClick | frontend/src/components/GameEvent.tsx:102-127 | the corrected toggle payload classifies as the same toggle, in the state the clicked card now shows (also lines 91-93) |
| PlayAttributes.DropdownPayloadShowsChoice | frontend/src/components/GameEvent.tsx:151-165 | the payload of a dropdown choice classifies as a dropdown showing that choice |
| PlayAttributes.GenericToggleSendsUnchangedValue | frontend/src/components/GameEvent.tsx:121-126 | as written, the first click on any card whose toggle is a plain boolean attribute sends the object unchanged, while the card switches state |
| PlayAttributes.TogglePayloadAsWrittenFlipped | frontend/src/components/GameEvent.tsx:111-127 | the written payload is the corrected one for completions, penalties and cards without a toggle, and the corrected one for the opposite click on any other boolean |
| GameEventCard.GameEvent.constructor | frontend/src/components/GameEvent.tsx:87-100 | the initial state: toggled exactly when a toggle starts in failure, the dropdown at its initial value, the menu closed |
| GameEventCard.GameEvent.HandleToggle | frontend/src/components/GameEvent.tsx:102-132 | flips `isToggled` and keeps the rest of the state. `onToggle` fires when given, and the corrected payload is sent when there is a listener and an attribute object |
| GameEventCard.GameEvent.HandleDropdownChange | frontend/src/components/GameEvent.tsx:134-170 | stores the choice and closes the menu. `onToggle` fires exactly when one of "was initial" and "is initial" holds, and the dropdown payload is sent |
| GameEventCard.GameEvent.HandleCardClick | frontend/src/components/GameEvent.tsx:223-227 | a click toggles exactly when the card is enabled, not affected and a toggle; otherwise nothing changes and nothing is sent |
| GameEventCard.GameEvent.HandleCardHover | frontend/src/components/GameEvent.tsx:229-233 | the menu opens exactly when the card is enabled, not affected and a dropdown |
| GameEventCard.GameEvent.HandleCardLeave | frontend/src/components/GameEvent.tsx:235-239 | a dropdown card closes its menu; nothing else changes |
| GameEventCard.ClickTwice | frontend/src/components/GameEvent.tsx:102-127 | two clicks on a fresh toggle card: the first sends attributes whose card shows the other state, and the second sends the original value of the targeted key back, with every other key unchanged (also lines 91-93, 223-227) |
| GameEventCard.ChooseAwayAndBack | frontend/src/components/GameEvent.tsx:134-170 | leaving the initial label, moving between two other labels, and returning: `onToggle` fires on the first and last choice only, and each payload shows the chosen label |
| Simulation.Opponent | backend/game.py:13 | the other team: away for the home team, else home |
| Simulation.FormatFieldPosition | backend/game.py:6-15 | "50" at midfield, "posteam (100 − yardline)" in its own half, "opponent yardline" in the opponent's half |
| Simulation.TeamPrefixesDiffer | backend/game.py:6-15 | labels of different teams start differently |
| Simulation.LabelIsNotMidfield | backend/game.py:6-15 | a team label is never the midfield mark |
| Simulation.FieldPositionRoundTrip | backend/game.py:6-15 | every label reads back as the yard line it was made from |
| Simulation.ChangeableAttributes | backend/game.py:115-245 | each event class's attribute object is well formed (no key twice) |
| Simulation.ChangeableAttributesWidget | backend/game.py:134-245 | the card the attributes produce: a dropdown on the recorded outcome for passes and interceptions, read-only for a rush, a penalty toggle that starts called, a success toggle for kicks and punts |
| Simulation.Outcome.Plays | backend/game.py:400-405 | the plays a step appends; the last one is the one the next state is taken from |
| Simulation.ExtraPoint | backend/game.py:599-624 | a single extra-point play |
| Simulation.TwoPoint | backend/game.py:626-652 | a single two-point play |
| Simulation.DecidePlayType | backend/game.py:324-353 | a field goal in the end-of-half kick window. Otherwise, on downs 1 to 3 or inside the 5 it is a pass exactly when the draw is below the weighted pass probability, else a rush. On fourth down outside the 5 it is a field goal exactly when the draw is below the kick rate, else a punt |
| Simulation.ClockStep | backend/game.py:656-665 | the quarter clock stays positive, and only the four clocks can change |
| Simulation.ClockStepAdvances | backend/game.py:656-665 | every step moves the clock on: the quarter clock drops, or the quarter rises, or the game clock reaches 0 |
| Simulation.FourthQuarterRunsOut | backend/game.py:656-665 | the fourth quarter running out sets the game clock to 0, ending `simulate_from`'s loop |
| Simulation.TouchdownStep | backend/game.py:412-439 | a touchdown is a sound step: six points to the team with the ball, then a conversion worth 0, 1 or 2 to that team only (also lines 500-527) |
| Simulation.CompletionStep | backend/game.py:409-457 | every completion is a sound step |
| Simulation.RushStep | backend/game.py:498-543 | every rush is a sound step |
| Simulation.NextPlayStep | backend/game.py:654-681 | the clock step keeps the scores and the team, never lowers the quarter, and the play that follows is a sound step |
| Simulation.ShortGain | backend/game.py:441-457 | a gain short of the end zone keeps the ball and the scores. A gain of at least the distance is first and ten, anything less is the next down with less to go, and the spot is max(0, yardline − gain) (also lines 528-543) |
| Simulation.IncompletionKeepsSpot | backend/game.py:477-496 | an incompletion is the next down at the same spot with the same distance |
| Simulation.ForcedConversion | backend/game.py:599-652 | a try forced by `made` is good exactly when `made` says so. A good try adds 1 or 2 points to the kicking side only, sets the differential to home − away, and hands the ball over at the 25 |
| Simulation.TurnoverFlips | backend/game.py:459-475 | an interception and a punt give the other team first and ten: at 100 − yardline, or where the punt lands, or at its 25 after a touchback (also lines 579-597) |
| Simulation.InterceptionInvolution | backend/game.py:459-475 | intercepting back returns the ball to the first team at the first spot and label |
| Simulation.HomePassTouchdownLabelAsWritten | backend/game.py:426 | as written, a home passing touchdown is labelled with the away team's name alone, unlike the corrected label |
| Simulation.PassTouchdownLabelAtGoalLine | backend/game.py:426 | the corrected label names the defending team at 0 for both sides, and agrees with the as-written label for the away team (also lines 6-15) |
| Simulation.FieldGoalRerollAsWrittenIgnoresMade | backend/game.py:200-203 | as written, a field-goal reroll is good whatever `made` says |
| Simulation.FieldGoalRerollHonoursMade | backend/game.py:200-203 | with `made` passed on, the re-simulated kick is good exactly when `made` says so (also lines 545-553) |
| Simulation.CalledPenaltyKept | backend/game.py:246-250 | a penalty that stays called is kept as recorded |
| Simulation.ExtendRun | backend/game.py:398-406 | appending a sound step's plays keeps a run: scores never drop and the quarter never goes back |
| Simulation.PrefixRun | backend/game.py:397 | the recorded plays placed before a run keep it a run from where they end |
| Simulation.RerolledInGame | backend/game.py:136-250 | a rerolled play is in the hands of one of the two teams |
| Simulation.GameState.FromPlay | backend/game.py:304-318 | the state copies the play's situation, and `playing` holds exactly when game time is left |
| Simulation.GameState.AddPoints | backend/game.py:413-415 | points go to the side of the team with the ball |
| Simulation.Simulator.constructor | backend/game.py:321-322 | the simulator holds the loaded game |
| Simulation.Simulator.SimulateExtraPoint | backend/game.py:599-624 | the play and the new state are those of `ExtraPoint` |
| Simulation.Simulator.SimulateTwoPoint | backend/game.py:626-652 | the play and the new state are those of `TwoPoint` |
| Simulation.Simulator.ScoreTouchdown | backend/game.py:412-439 | the plays and the new state are those of `Touchdown` (also lines 500-527) |
| Simulation.Simulator.SimulateCompletion | backend/game.py:409-457 | the outcome and the new state are those of `Completion` |
| Simulation.Simulator.SimulateInterception | backend/game.py:459-475 | the play is `Interception` of the state |
| Simulation.Simulator.SimulateIncompletion | backend/game.py:477-496 | the play is `Incompletion` of the state |
| Simulation.Simulator.SimulateRush | backend/game.py:498-543 | the outcome and the new state are those of `Rush` |
| Simulation.Simulator.SimulateFieldGoal | backend/game.py:545-577 | the play and the new state are those of `FieldGoal` |
| Simulation.Simulator.SimulatePunt | backend/game.py:579-597 | the play is `Punt` of the state |
| Simulation.Simulator.SimulateNextPlay | backend/game.py:654-681 | the outcome and the new state are those of `NextPlay` |
| Simulation.Simulator.RerollPassing | backend/game.py:136-161 | agrees with `RerollPass` |
| Simulation.Simulator.RerollKick | backend/game.py:213-235 | agrees with `RerollConversion` |
| Simulation.Simulator.Reroll | backend/game.py:136-250 | agrees with `Rerolled` for every event class |
| Simulation.Simulator.PlayOn | backend/game.py:398-406 | one loop turn: the outcome is `NextPlay` from the situation the last play left, a sound step, and the clock moves on. Its plays are the first of `PlaysAfter` that play, and the next state is taken from its last play |
| Simulation.Simulator.PlayOut | backend/game.py:398-406 | the plays are the changed play followed by `PlaysAfter` it with the draws. They form a run and end with the play that ran the game clock out |
| Simulation.StepAdvances | backend/game.py:654-681 | a simulated play from a running game is a sound step from the stepped clock, and the clock moves on |
| Simulation.PlaysAfterStep | backend/game.py:398-406 | the plays after a play that left time on the clock are those of its step, then the plays after the step's last play |
| Simulation.PlaysAfterRun | backend/game.py:398-406 | whatever the draws, a play followed by the plays after it is a run that ends with the game clock out |
| Simulation.RunThroughStep | backend/game.py:398-406 | a sound step followed by a run from its last play is a run from the first play |
| Simulation.JoinRuns | backend/game.py:397-406 | two runs, the second starting with the last play of the first, join into one run ending where the second ends |
| Simulation.Simulator.SimulateFrom | backend/game.py:393-407 | fails exactly when the reroll fails or returns a touchdown pair. Otherwise: the recorded plays before `start`, then the rerolled play, then `PlaysAfter` it, with the last play dropped. The whole list is a run that ends when the game clock is out |
| MonteCarlo.CalculatePoints | backend/moremontecarlo.py:72-89 | between 0 and 14, positive exactly for a scoring outcome, at least 6 for a touchdown and at most 8 without one |
| MonteCarlo.Scored | backend/moremontecarlo.py:88 | the record stores its points and nothing else changes |
| MonteCarlo.TouchdownAndExtraPoint | backend/moremontecarlo.py:75-78 | a touchdown with a good extra point is worth 7 |
| MonteCarlo.SafetyAnyCase | backend/moremontecarlo.py:85-86 | any penalty entry that lower-cases to "safety" makes an otherwise pointless penalty play worth 2, so "SAFETY" and "Safety" count |
| MonteCarlo.SidePointsAppend | backend/moremontecarlo.py:113-116 | a side's points over two lists add up |
| MonteCarlo.PointlessSides | backend/moremontecarlo.py:113-116 | plays without points give each side 0 |
| MonteCarlo.GameState.constructor | backend/moremontecarlo.py:92-106 | a new state with three timeouts a side and no plays |
| MonteCarlo.GameState.AddPlay | backend/moremontecarlo.py:108-123 | the scored play is appended. Its points go to home exactly when its team is the home team, else to away. A called timeout costs the named side one, never below 0, and nothing else changes |
| MonteCarlo.GameState.Clone | backend/moremontecarlo.py:125-128 | a fresh object with the same fields |
| MonteCarlo.AddPlayKeepsTotals | backend/moremontecarlo.py:108-116 | adding a play adds its points to its side's total |
| MonteCarlo.DrivePlayType | backend/moremontecarlo.py:292-301 | downs 1 to 3 pass or run. Fourth down goes for it exactly on a low draw, and otherwise kicks past the 65 or punts |
| MonteCarlo.WithConversion | backend/moremontecarlo.py:375-387 | a touchdown play with its conversion worth 6 to 8 points, and exactly one of an extra point and a two-point try |
| MonteCarlo.DownPlay | backend/moremontecarlo.py:292-388 | a play ends the drive exactly on an interception, a fumble, a kick, a punt or a touchdown. It is of the type `DrivePlayType` picks, at the down, distance and spot given, for the team with the ball and charged to it. A touchdown is a pass or rush reaching 100. A kept play gains 0 or more yards, stays short of the goal line and scores nothing |
| MonteCarlo.RunDown | backend/moremontecarlo.py:292-388 | computes `DownPlay` |
| MonteCarlo.Flagged | backend/moremontecarlo.py:390-396 | the first-down and conversion flags set on a play that gains the distance |
| MonteCarlo.FlaggedLeavesBallAlone | backend/moremontecarlo.py:390-401 | the flags leave the next down, distance and spot as they were |
| MonteCarlo.DriveFromStep | backend/moremontecarlo.py:290-403 | a down that ends the drive ends `DriveFrom` there; a kept down carries on from the down, distance and spot it leaves |
| MonteCarlo.NextDown | backend/moremontecarlo.py:291-403 | one turn of the drive loop: the rest of the drive is what it was, and the spot or the down moves on |
| MonteCarlo.DrivePlays | backend/moremontecarlo.py:284-403 | the loop keeps exactly the plays of `WholeDrive` for its draws |
| MonteCarlo.DriveFromKeeps | backend/moremontecarlo.py:286-403 | carrying on from a drive so far gives a drive: kept plays, first and ten from the 25, each where the last one left off |
| MonteCarlo.WholeDriveIsDrive | backend/moremontecarlo.py:286-403 | whatever the draws, the plays of a drive are a drive |
| MonteCarlo.WholeDriveKeepsItsPoints | backend/moremontecarlo.py:286-407 | whatever the draws, the plays of a drive are already scored, score nothing, and charge timeouts only to the team with the ball |
| MonteCarlo.ExtendDrive | backend/moremontecarlo.py:390-403 | a kept play starting where the drive stands extends the drive |
| MonteCarlo.SimulateDrive | backend/moremontecarlo.py:281-409 | returns a fresh copy with the plays of `WholeDrive` for the draws appended. The scores are unchanged, only the team with the ball loses timeouts, and the caller's state is untouched |
| MonteCarlo.DriveKeepsItsPoints | backend/moremontecarlo.py:318-388 | the kept plays of a drive score nothing once added, and their timeouts are charged to the team with the ball (also lines 403-407) |
| MonteCarlo.DriveScoresNothing | backend/moremontecarlo.py:318-388 | a drive never changes either side's points (also lines 403-407) |
| MonteCarlo.ScoredAll | backend/moremontecarlo.py:449-450 | each play is stored scored, in order |
| MonteCarlo.SampleIsShaped | backend/moremontecarlo.py:428-447 | the sample plays' teams and points: Washington's touchdown and extra point, Arizona's field goal |
| MonteCarlo.SamplePlayPoints | backend/moremontecarlo.py:428-447 | each of the fifteen sample plays belongs to its team and scores its points |
| MonteCarlo.SamplePrefix | backend/moremontecarlo.py:449-450 | the sides' points over the first k sample plays |
| MonteCarlo.ScoredAllSnoc | backend/moremontecarlo.py:449-450 | scoring a list one play longer appends one scored play |
| MonteCarlo.SampleTotals | backend/moremontecarlo.py:428-450 | the sample plays add 7 for Washington and 3 for Arizona |
| MonteCarlo.SidePointsSplit | backend/moremontecarlo.py:619-623 | a side's points split at any index |
| MonteCarlo.CreateSampleGame | backend/moremontecarlo.py:411-452 | Arizona at Washington ends 27 to 19, with the fifteen plays stored scored |
| MonteCarlo.AddedOneMore | backend/moremontecarlo.py:108-123 | `add_play` on the next play keeps the totals of the plays added so far, one further |
| MonteCarlo.AddPlays | backend/moremontecarlo.py:449-450 | adding plays in turn appends them scored and adds each side's points. Timeouts only drop, and only by that side's own calls (also lines 406-407) |
| MonteCarlo.ReplaceFirst | backend/moremontecarlo.py:611-614 | same length, unchanged without a match, and the first play with the id is replaced |
| MonteCarlo.SelectedIndex | backend/moremontecarlo.py:599-603 | a choice is valid exactly when it is 1 to min(10, n), and it picks the play listed under that number (also line 590) |
| MonteCarlo.SelectionAgreesFromTenPlays | backend/moremontecarlo.py:602-603 | with ten or more plays, the written selection is the listed play |
| MonteCarlo.FirstOfFiveIsRejected | backend/moremontecarlo.py:602-603 | with five plays, choice 1 cannot be taken as written, though it lists the first play |
| MonteCarlo.Rescore | backend/moremontecarlo.py:616-623 | an unedited recount keeps the scores |
| MonteCarlo.RecountAsWrittenAgreement | backend/moremontecarlo.py:616-623 | the written recount agrees with `Rescore` for every edit exactly when the score before is what the recorded plays add up to |
| MonteCarlo.SampleRecountLosesStartingScore | backend/moremontecarlo.py:617-623 | as written, recounting the unedited sample game gives 7 to 3, while `Rescore` gives 27 to 19 |
| MonteCarlo.RescoreOnePlay | backend/moremontecarlo.py:611-623 | replacing one play changes only its sides by the change in its points |
| MonteCarlo.WhatIf | backend/moremontecarlo.py:599-623 | no copy for an invalid choice. Otherwise a fresh copy with the selected play replaced (scored again) and the scores moved by `Rescore` |
| WhatIfCli.FieldPositionValue | backend/interactive_game_sim.py:919-929 | 6 exactly within 10, at least 4 exactly within 20, at least 2 exactly within 40, 1 otherwise |
| WhatIfCli.FieldPositionMonotone | backend/interactive_game_sim.py:919-929 | a spot nearer the goal is worth at least as much |
| WhatIfCli.PositivePoints | backend/interactive_game_sim.py:571 | the points a play counts for are positive exactly when it has positive points, and then equal them |
| WhatIfCli.SideTotalSnoc | backend/interactive_game_sim.py:569-576 | one more play adds its points to its own side |
| WhatIfCli.SideTotalsSplit | backend/interactive_game_sim.py:569-576 | the two sides' totals add up to the points of all plays |
| WhatIfCli.ScoreBefore | backend/interactive_game_sim.py:565-576 | the score before the edited play is each side's total over the earlier plays |
| WhatIfCli.WithPlay | backend/interactive_game_sim.py:587-605 | one play adds its positive points to its own side only |
| WhatIfCli.StartingScores | backend/interactive_game_sim.py:565-605 | before, after the original, and after the edited play; the second is the total over the plays up to and including the edited one |
| WhatIfCli.ImpactOnOwnSide | backend/interactive_game_sim.py:587-605 | an edit that keeps the team with the ball moves only that team's score, by the change in points |
| WhatIfCli.ApplyModification | backend/interactive_game_sim.py:180-380 | fails exactly when the team with the ball has no statistics |
| WhatIfCli.ModificationKeepsSituation | backend/interactive_game_sim.py:236-380 | no edit changes the quarter, the clock, the down, the distance, the spot or the team |
| WhatIfCli.KickingEdits | backend/interactive_game_sim.py:323-342 | a field goal made good is worth 3 and missed 0; an extra point 1 and 0 |
| WhatIfCli.FumbleEdit | backend/interactive_game_sim.py:266-279 | a fumble on a pass, rush or interception is a turnover worth 0 with at most 3 yards; otherwise nothing changes |
| WhatIfCli.IncompleteEdit | backend/interactive_game_sim.py:246-253 | an incomplete pass gains nothing and is not a turnover |
| WhatIfCli.ConversionEdits | backend/interactive_game_sim.py:289-304 | third/fourth-down conversions change only the yards, on their down, to more than (at least) the distance; a punt instead gains nothing (also lines 317-320) |
| WhatIfCli.CountWins | backend/interactive_game_sim.py:946-947 | never more wins than results |
| WhatIfCli.CountTies | backend/interactive_game_sim.py:948 | never more ties than results |
| WhatIfCli.AnalyzeCounts | backend/interactive_game_sim.py:946-948 | home wins and away wins are the counts of the results each side won, the leftover is exactly the ties, and the three add up to the number of results |
| WhatIfCli.WinsAndTiesCover | backend/interactive_game_sim.py:946-948 | every result is exactly one of a home win, an away win and a tie |
| WhatIfCli.TurnoverFilter | backend/interactive_game_sim.py:832-838 | the turnover filter shows exactly the turnovers (also lines 59-60) |
| WhatIfCli.KicksAreScoringPlays | backend/interactive_game_sim.py:57-58 | every kick passes the scoring filter (also lines 67-68) |
| WhatIfCli.DisplayAllPlays | backend/interactive_game_sim.py:52-79 | the shown plays are those the filter keeps, with their indices, in index order, none left out; filter 1 shows all |
| Schedule.PlayedGames | backend/nfl_api.py:54-69 | a game is listed exactly when some row with both scores gives it |
| Schedule.WithKeyMembers | backend/nfl_api.py:72 | a (season, week) group holds exactly the games with that key |
| Schedule.WithKeyAppend | backend/nfl_api.py:72 | grouping distributes over concatenation |
| Schedule.Insert | backend/nfl_api.py:72 | one longer, same elements plus the new one |
| Schedule.InsertKeepsOrder | backend/nfl_api.py:72 | inserting into a newest-first list keeps it newest first |
| Schedule.InsertKeepsGroups | backend/nfl_api.py:72 | inserting appends the game to the end of its own group and leaves the others alone |
| Schedule.SortNewestFirst | backend/nfl_api.py:72 | a permutation ordered by (season, week), most recent first |
| Schedule.SortIsStable | backend/nfl_api.py:72 | the sort is stable: each (season, week) group keeps its original order |
| Schedule.GetGameScores | backend/nfl_api.py:45-77 | no games without a schedule. Otherwise the played rows as games, newest first, a permutation of them, each group in schedule order |
| Schedule.ListedGamesArePlayed | backend/nfl_api.py:55-63 | every listed game's scores come from a row that has both |
| Schedule.PrefixedQuery | backend/nfl_api.py:116-122 | removing the prefix leaves the value when it does not repeat the prefix |
| Schedule.PlayerQuery | backend/nfl_api.py:114-116 | `player:name` searches for that player's stripped name |
| Schedule.SeasonQuery | backend/nfl_api.py:120-122 | `season:text` searches for that stripped season text |
| Schedule.Matching | backend/nfl_api.py:178-230 | keeps exactly the games the filter accepts, never more than given |
| Schedule.TeamNameMatch | backend/nfl_api.py:219-223 | the dictionary loop finds a hit exactly when some team name containing the query maps to one of the game's teams |
| Schedule.Test | backend/nfl_api.py:178-230 | one game's test agrees with the filter |
| Schedule.KeepMatching | backend/nfl_api.py:178-230 | the filtering loop keeps the matching games in list order |
| Schedule.HeadIsNewest | backend/nfl_api.py:174-175 | the head of a newest-first list is at least as recent as every game in it |
| Schedule.HeadLeadsItsGroup | backend/nfl_api.py:174-175 | the head of the stably sorted list is the first game of its (season, week) in the original list |
| Schedule.Newest | backend/nfl_api.py:170-177 | at most one game, present exactly when there are games, at least as recent as every game, and among equally recent games the first in list order (the sort is stable) |
| Schedule.FilterGames | backend/nfl_api.py:170-230 | the dispatch on the kind of query agrees with `Found` |
| Schedule.SearchGames | backend/nfl_api.py:95-236 | a blank query gives no games before any load; a failed load is an error. Otherwise the first 50 of what the filter finds |
| Schedule.LatestQuery | backend/nfl_api.py:170-177 | `latest` gives at most one game, from the list, at least as recent as every other (also lines 123-124) |
| Schedule.UnknownGameTypeKeepsNothing | backend/nfl_api.py:184-190 | a type that is neither a regular-season nor a playoff word keeps nothing |
| Schedule.RegularSeasonWord | backend/nfl_api.py:187 | `type:regular` accepts exactly weeks up to 18 |
| Schedule.PlayoffWord | backend/nfl_api.py:189 | `type:playoffs` accepts exactly weeks after 18 |
| Schedule.GameTypeSplitsTheSeason | backend/nfl_api.py:184-190 | the regular and playoff searches split the listed games by week 18 |
| Schedule.SeasonYearKeepsThatSeason | backend/nfl_api.py:191-198 | `season:2025/26` keeps exactly the 2025 games |
| Schedule.NoGamedayNeverMatches | backend/nfl_api.py:226-230 | free text never keeps a game without a `gameday` |
| Schedule.NicknameFindsTeam | backend/nfl_api.py:219-230 | "arizona" finds Arizona's games that have a `gameday` (also line 159) |
| Schedule.MaxSeason | backend/nfl_api.py:250 | the latest season, taken by some game, at least every season |
| Schedule.MaxWeek | backend/nfl_api.py:251 | the latest week of a season, taken by some game of it |
| Schedule.WeekGames | backend/nfl_api.py:254 | exactly the listed games of that season and week |
| Schedule.OtherPopular | backend/nfl_api.py:257-266 | exactly the listed high-profile games outside the latest week |
| Schedule.OtherPopularGames | backend/nfl_api.py:258-266 | the loop collects `OtherPopular` |
| Schedule.PopularGames | backend/nfl_api.py:239-277 | an error exactly when the data cannot be loaded; otherwise the first six of the popular list |
| Schedule.PopularListShape | backend/nfl_api.py:249-273 | every game is listed. Latest-week games come first, all of them before any other. Each other game has a high-profile team. At most six |
| Schedule.LatestWeekIsMostRecent | backend/nfl_api.py:250-254 | a latest-week game is at least as recent as any game |
| NflApiClient.GetWinner | frontend/src/services/nflApi.ts:150-154 | home exactly when home scored more, away exactly when away scored more, tie exactly on equal scores |
| NflApiClient.FormatTeamsSplits | frontend/src/services/nflApi.ts:134-136 | the label is the away team, " vs ", then the home team |
| NflApiClient.Where | frontend/src/services/nflApi.ts:80-97 | an order-keeping subsequence holding exactly the games that match |
| NflApiClient.SearchFallbackGames | frontend/src/services/nflApi.ts:60-98 | an order-keeping subsequence of the six fallback games, exactly those matching the lower-cased query |
| NflApiClient.WhereKeepsAll | frontend/src/services/nflApi.ts:80-97 | a filter every game passes returns the list |
| NflApiClient.EmptyQueryReturnsAll | frontend/src/services/nflApi.ts:82-83 | the empty query returns all six games (also line 61) |
| NflApiClient.SeasonQueryReturnsAll | frontend/src/services/nflApi.ts:157-226 | "2024" returns all six games (also line 94) |
| NflApiClient.NameFindsTeam | frontend/src/services/nflApi.ts:86-88 | the nickname "eagles" finds Philadelphia's game, whose abbreviation does not contain it (also lines 65-66) |
| SimulateEndpoint.Lookup | backend/app.py:19-26 | data exactly for a stored entry at most 600 seconds old |
| SimulateEndpoint.AfterLookup | backend/app.py:23-24 | an expired entry for the id is deleted; every other entry stays |
| SimulateEndpoint.GameCache.constructor | backend/app.py:16 | the cache starts empty |
| SimulateEndpoint.GameCache.Get | backend/app.py:19-26 | returns `Lookup` and leaves `AfterLookup` |
| SimulateEndpoint.GameCache.Set | backend/app.py:28-29 | overwrites the id's entry with the current time |
| SimulateEndpoint.StoreThenLookup | backend/app.py:19-29 | a lookup right after a store returns the data |
| SimulateEndpoint.StoreKeepsOthers | backend/app.py:28-29 | a store leaves other lookups unchanged |
| SimulateEndpoint.EntryLifetime | backend/app.py:17-23 | an entry serves exactly the requests within 600 seconds of its store |
| SimulateEndpoint.Validate | backend/app.py:98-102 | accepted exactly with a non-empty id and an object (or absent) `what_if` |
| SimulateEndpoint.TeamKey | backend/app.py:126 | the first non-empty of `team_abbr`, `team`, `team_name` |
| SimulateEndpoint.PointsRule | backend/app.py:121-137 | applied exactly with a key, a number and a name containing the key (ignoring case). The home side is tried first, and only the matched side gains the points |
| SimulateEndpoint.OneSideChanges | backend/app.py:128-137 | at most one side changes, and the total changes by the points exactly when applied |
| SimulateEndpoint.KeyCaseIgnored | backend/app.py:129-130 | the key's letter case does not matter |
| SimulateEndpoint.ApplyPointsAsWritten | backend/app.py:121-137 | as written, fails exactly when a float is applied; otherwise gives `PointsRule` |
| SimulateEndpoint.FloatPointsFail | backend/app.py:128-133 | 3.0 points for the home team fails the request |
| SimulateEndpoint.ApplyPoints | backend/app.py:121-137 | the corrected assignments compute `PointsRule` |
| SimulateEndpoint.Simulate | backend/app.py:95-137 | a bad request leaves the cache alone. Otherwise the data comes from the cache on a hit, or is fetched and stored on a miss, and the points rule is applied to its header |
| SimulateEndpoint.RepeatRequest | backend/app.py:104-109 | a second request within ten minutes is served from the cache (also line 17) |
| Text.Lower | backend/nfl_api.py:98 | same length, each character lowered |
| Text.LowerIdempotent | backend/nfl_api.py:98 | lowering twice is lowering once (also line 187) |
| Text.Strip | backend/nfl_api.py:98 | no white space at either end, and empty exactly for all-space input |
| Text.NatToStringRoundTrip | backend/game.py:9-15 | a yard-line number prints as digits that read back as itself |
| Text.Occurrences | backend/nfl_api.py:116 | the scan `replace` makes finds at least one copy of the pattern exactly when the input contains it |
| Text.RemoveAll | backend/nfl_api.py:116 | what is left is drawn from the input (as a multiset), shorter by one copy of the pattern per occurrence found, and is the input itself when it does not contain the pattern |
| Text.FirstFourDigits | backend/nfl_api.py:193-195 | found exactly when there is a run of four digits, at the first one |

## Left out

- I/O:
  - loading the schedule and play-by-play data (`load_nfl_data`, `Game.__init__`, `get_team_season_stats`);
  - Flask routing and JSON responses;
  - the front end's fetch wrappers;
  - console input and output of both command lines;
  - logging.
- Time is the integer parameter `now`, in seconds; `time.time()`'s fraction is not modelled.
- Random numbers are parameters of each step: uniform draws, Gaussian gains, time lost and the conversion choice. `decide_pat_type`'s probability, the `monte_carlo` averages, numpy's `simulate_remaining_game`, `calculate_modification_impact`, `simulate_detailed_game` and the probabilities of `analyze_results` are floating-point numerics and are not modelled.
- The two logistic curves of `game.py` are function fields of `Simulation.Game`, not `exp`.
- Simulation.DecidePlayType: the pass share and the kick chance are reals; rounding is not modelled.
- Simulation.Rerolled: the non-punt branch of `PuntEvent.reroll` reads attributes an event does not have. Above 0.7 it is modelled as an error, below it as a rush.
- Simulation.Simulator.SimulateFrom: the source fails on a touchdown returned by the reroll; that is an error here.
- `/simulate` after the points rule is not modelled. It relies on `fetch_game_raw`, `extract_*` and `score_diff_to_winprob`, which the repository does not define, and so do `/timeline`, `/progression` and `/insights`. The same goes for the `event_id` loop and the insights.
- SimulateEndpoint.Validate: only string team keys and JSON objects are modelled. A non-string team key is read with `str`.
- Text.Lower: Unicode case mapping is not modelled; only ASCII letters are lowered.
- Text.Strip: only ASCII and Latin-1 white space is stripped.
- Text.FirstFourDigits: only ASCII digits count, where Python's `\d` also matches other Unicode digits.
- Schedule.GetGameScores:
  - a missing `gameday` (pandas NaN) is the empty string;
  - exceptions inside the loop are not modelled;
  - Python's sort is modelled as a stable insertion sort, and only its result is claimed.
- WhatIfCli.ApplyModification: models the command line as intended, not as it runs against `game.py`:
  - plays are plain records (`CliPlay`) with a `points` field, and every edit works on a value copy;
  - as written, `PlayEvent.__init__` (game.py:98-113) takes fourteen positional arguments and never sets `points`, while every copy at interactive_game_sim.py:189-228 and the rebuilt plays from line 236 on pass eleven, so each of the six imported event classes raises `TypeError` there;
  - the `is_fumble` keyword of the pass, rush and interception copies would be refused by those constructors as well;
  - as written, a `PuntEvent` or `PAT2Event` is not copied (`new_play = play`, interactive_game_sim.py:229-230), so `go_for_it` and `punt_instead` change the game's own recorded play in place; the model returns a new value and leaves the recorded play alone;
  - the statistics come as whole yards;
  - `go_for_it` and `convert_to_2pt` take their outcome from the draw parameter.
- WhatIfCli.DisplayAllPlays: reads each play's `points` as the `CliPlay` field. As written, no play loaded through `game.py` has a `points` attribute, so the filter at interactive_game_sim.py:58 raises `AttributeError`; the command line already raises it at its first debug print (line 1076), before any modelled step runs.
- WhatIfCli.ScoreBefore: sums the `points` field of `CliPlay`. As written, the read at interactive_game_sim.py:571 raises `AttributeError` for the same reason, as do those of `WhatIfCli.StartingScores` at lines 591 and 601.
- The code shadowed or unreachable in `interactive_game_sim.py` is not modelled: the first `simulate_drive`, the first `get_field_position_value`, and the lines after the `return` of `apply_core_modification`.
- The view markup, logo tables and the parent component that decides `cardState` and `disabled` are not modelled. The two come in as inputs.
- MonteCarlo.SimulateDrive: the drive's kept plays come back as a ghost result beside the copy.
- MonteCarlo.DrivePlays: the source caps the spot with `min(100, …)`. The cap is not written out, because a kept play never reaches 100 (`DownPlay`).
- Simulation.ValidGame: the requirement that each team has at least one pass or rush attempt leaves out the `ZeroDivisionError` the pass share raises at `game.py:327` for a team without attempts.

These members follow the corrected behaviour of a finding rather than the code as written:

- GameEventCard.GameEvent.HandleToggle: sends `TogglePayload`. As written (`GameEvent.tsx:121-126`), a card whose toggle is a plain boolean sends its unchanged value on the first click. `TogglePayloadAsWritten` and `GenericToggleSendsUnchangedValue` capture that.
- GameEventCard.ClickTwice: the first click's payload is the corrected one, for the same reason as `HandleToggle`.
- Simulation.Simulator.SimulateCompletion: a home passing touchdown is marked "AWAY 0" (`PassTouchdownLabel`). As written (`game.py:426`), the mark is the bare away team name. `HomePassTouchdownLabelAsWritten` captures that.
- Simulation.Simulator.SimulateNextPlay: inherits the corrected touchdown mark of `SimulateCompletion`.
- Simulation.Simulator.RerollPassing: inherits the corrected touchdown mark of `SimulateCompletion`.
- Simulation.Simulator.PlayOn: inherits the corrected touchdown mark of `SimulateCompletion`.
- Simulation.Simulator.PlayOut: inherits the corrected touchdown mark of `SimulateCompletion`.
- Simulation.Simulator.SimulateFrom: inherits the corrected touchdown mark of `SimulateCompletion` and the corrected field-goal reroll of `Reroll`.
- Simulation.Simulator.Reroll: a field goal is re-simulated with `made` passed on (`RerollFieldGoal`). As written (`game.py:200-203`), `made=True` is forced. `FieldGoalRerollAsWrittenIgnoresMade` captures that.
- MonteCarlo.WhatIf: picks the play with `SelectedIndex` and moves the scores with `Rescore`. As written, the pick raises `IndexError` with fewer than ten plays (`moremontecarlo.py:602`), and the recount starts from 0 to 0 (`moremontecarlo.py:617-623`). `FirstOfFiveIsRejected`, `SampleRecountLosesStartingScore` and `RecountAsWrittenAgreement` capture that.
- SimulateEndpoint.Simulate: applies the points with `ApplyPoints`. As written, a float `points` raises at `app.py:133` or `app.py:137` and the request answers 500 (`app.py:200-201`). `Response` has no server-error case for it; `ApplyPointsAsWritten` and `FloatPointsFail` capture the failure.

## Findings

| source | as written | input that shows it | evidently intended | confidence | as-written member | corrected member |
|---|---|---|---|---|---|---|
| frontend/src/components/GameEvent.tsx:121-126 | the generic boolean toggle sends the new toggle flag, which on the first click equals the original value | `{made: true}`: the card switches to "Failure" but sends `made: true` | send the negated flag, as the completion branch does, so the payload shows the clicked state | not executed | PlayAttributes.TogglePayloadAsWritten | PlayAttributes.TogglePayload |
| backend/game.py:426 | the conditional expression binds so that a home passing touchdown's mark is the away team's name alone | home team scores on a pass from the 10: mark is "AWAY" | "AWAY 0", the mark `format_field_position` gives at the goal line, as an away touchdown already gets "HOME 0" | not executed | Simulation.PassTouchdownLabelAsWritten | Simulation.PassTouchdownLabel |
| backend/game.py:200-203 | `FieldGoalEvent.reroll` forces `made=True` whatever the user chose | attributes `{made: false}`: the kick is re-simulated as good | pass `new_attrs['made']` on, as the conversions do | not executed | Simulation.RerollFieldGoalAsWritten | Simulation.RerollFieldGoal |
| backend/moremontecarlo.py:617-623 | the what-if recount starts both scores from 0 | the unedited sample game: 27 to 19 becomes 7 to 3 | keep the score before the recorded plays and move it by the change in points | not executed | MonteCarlo.RecountAsWritten | MonteCarlo.Rescore |
| backend/moremontecarlo.py:599-603 | choice `c` picks `plays[-(10 - (c - 1))]`, which is wrong with fewer than ten plays | five plays, choice 1: `plays[-10]` raises IndexError | pick the play listed under number `c` among the last `min(10, n)` | not executed | MonteCarlo.SelectedIndexAsWritten | MonteCarlo.SelectedIndex |
| backend/app.py:128-137 | a float `points` passes `isinstance(points, (int, float))` but `{points:+d}` raises, so the request answers 500 | `{"team_abbr": "eagles", "points": 3.0}` against a home team named "eagles" | apply `int(points)` and answer, as for an int | not executed | SimulateEndpoint.ApplyPointsAsWritten | SimulateEndpoint.ApplyPoints |
