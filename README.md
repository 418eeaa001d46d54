# Billiards shot clock: match logic in Dafny

This project models the match logic of a MicroPython billiards shot clock. Four push buttons (MAKE, MISS, UP, DOWN), plus a MAKE+MISS chord, drive a mode machine (`State_Machine`) and a match record (`Game_Stats`).

The logic covers:
- choosing a profile (APA, BCA, WNT, Timeouts Mode, Ultimate Pool);
- the set-up wizards (APA skill levels and game type, the WNT race length);
- the three rule sets that handle play (9-Ball, 8-Ball, standard);
- shot-clock extensions and their cancellation, and rack confirmation;
- the Ultimate Pool shootout;
- the in-match menu;
- the debounce filter between a button interrupt and the event loop;
- the integer-to-text and alignment arithmetic behind the display.

Layout, one Dafny module per firmware file:

| file | module | firmware file |
|---|---|---|
| `models.dfy` | `Models` | `lib/models.py`: the mode enumeration, `StateMachine` and `GameStats` classes |
| `ui_gameplay.dfy` | `UiGameplay` | `lib/ui_gameplay.py`: state and countdown effects of entering the idle and running screens |
| `game_rules.dfy` | `GameRules` | `lib/game_rules.py`: extension helpers, win check, the three rule sets |
| `button_setup.dfy` | `ButtonSetup` | `lib/button_setup.py`: APA target lookup, profile initialisation, wizard handlers |
| `button_menu.dfy` | `ButtonMenu` | `lib/button_menu.py`: opening, editing and saving menu entries |
| `button_logic.dfy` | `ButtonLogic` | `lib/button_logic.py`: per-mode dispatch of the four buttons, rack confirmation, shootout, new-rack chord |
| `button_interrupt.dfy` | `ButtonInterrupt` | `lib/button_interrupt.py`: debounce decision and task scheduling |
| `display.dfy` | `Display` | `lib/display.py`: number formatting, region lookup, text placement, region clearing |
| `wrappers.dfy` | `Wrappers` | a small `Option` type |

How the model is built:
- The two records are Dafny classes whose fields the handlers update in place. Every handler is a method with a field-level `modifies` frame. Its effect is stated as a named two-state predicate, which the dispatcher that reaches the handler reuses.
- Each side's `player_N_*` attributes form one `Player` value. The shootout stopwatch fields form one `ShootoutClock` value.
- `inning_counter` is an integer count of half-innings (`halfInnings == 2 * inning_counter`). Player 1 shoots when it is even. The whole inning shown in the menu is `InningOf(halfInnings)`.
- The menu's mixed Python values (ints, booleans, `None`) are the datatype `Setting = Unset | Num | Flag`. `IntOf`, `Truthy` and `EqualsInt` give Python's `int()`, truth value and `== 1` on them.
- The extension helpers, the APA target table, the WNT cycling, the shootout step, the debounce filter and the formatting helpers are pure functions. The lemmas relate them to one another: apply then cancel, UP then DOWN, one press more, and text read back.
- The current tick (`now`), the WNT race list read from the rules file (`loaded`), the event loop's readiness (`loopReady`) and the display region table (`regions`) are parameters.

## Model

| member | source | states |
|---|---|---|
| `Models.Wrap` | lib/models.py:164-165 | Python's `%` with a positive length: always a valid index, identity on valid indices, -1 wraps to the last and the length to the first |
| `Models.WrapBackForth` | lib/button_logic.py:219-235 | stepping back then forward (or forward then back) through a cyclic list returns to the same index |
| `Models.IndexOf` | lib/button_logic.py:341 | `list.index`: a position holding the value, with no earlier occurrence |
| `Models.StateMachine.constructor` | lib/models.py:16-22 | a new machine is in the given initial mode with no game on |
| `Models.StateMachine.UpdateState` | lib/models.py:24-77 | after the update, the accessor of the new mode holds and every other mode's accessor is false |
| `Models.StateMachine.Reset` | lib/models.py:79-81 | from any mode the machine returns to the profile list with no game on |
| `Models.GameStats.constructor` | lib/models.py:85-87 | a new record is at its defaults, not muted, with the given rules configuration |
| `Models.GameStats.SetDefaults` | lib/models.py:89-148 | every field of the match record takes its default value |
| `Models.GameStats.SetClockAndTurnDefaults` | lib/models.py:91-116 | no rule set or pending result; clocks at zero; extension available and unused; inning 1, rack 1, break shot, beep counter 4; both sides fresh |
| `Models.GameStats.SetClockDefaults` | lib/models.py:91-97 | shot-clock and extension fields at their defaults |
| `Models.GameStats.SetTurnDefaults` | lib/models.py:98-116 | inning 1, rack 1, a break shot pending, both players with nothing scored or allotted and their extension flag set |
| `Models.GameStats.SetSetupAndMenuDefaults` | lib/models.py:112-148 | profile table and list, no profile selected, 9-Ball, wizard value unset, and the Inning/Rack/Exit/Mute menu on its first entry |
| `Models.GameStats.SetSetupDefaults` | lib/models.py:112-125 | the profile table and list, no selected profile, not timeouts-only, 9-Ball, the wizard value and shootout fields cleared |
| `Models.GameStats.SetMenuDefaults` | lib/models.py:126-144 | the menu built from inning 1 and rack 1, showing the current mute setting, cursor on its first entry |
| `Models.GameStats.Reset` | lib/models.py:150-152 | all defaults restored while the mute setting and the loaded configuration are kept |
| `Models.GameStats.ShooterIndex` | lib/game_rules.py:161 | the shooter is player 1 exactly in the first half of an inning and player 2 exactly in the second |
| `Models.GameStats.AddScore` | lib/button_logic.py:44-55 | only player `p`'s score rises by `n`; the other side is untouched and the menu's score slot shows the new score |
| `Models.GameStats.SetScore` | lib/button_menu.py:25-28 | only player `p`'s score becomes `v`, mirrored in the menu's score slot |
| `Models.GameStats.ResetRackStats` | lib/button_logic.py:62-64 | both players' remaining timeouts are refilled to their per-rack allotment; nothing else about them changes |
| `Models.GameStats.UpdateMenuSelection` | lib/models.py:164-176 | the shown triple is the previous, current and next entry (cyclically), and their values likewise |
| `Models.NeighbourItems` | lib/models.py:164-171 | three entries whose middle one is the current entry |
| `Models.NeighboursWrapAround` | lib/models.py:164-171 | at the first entry the previous one is the last; at the last entry the next one is the first (so [A,B,C] at 0 shows [C,A,B]) |
| `UiGameplay.EnterIdleMode` | lib/ui_gameplay.py:8-49 | idle mode; the countdown is the shot clock plus the extension before a break, else the shot clock, timeouts-only included; the beep counter is rearmed except in timeouts-only mode |
| `UiGameplay.EnterShotClock` | lib/ui_gameplay.py:67-68 | only the mode changes, to the running countdown |
| `GameRules.Extended` | lib/game_rules.py:24-54 | a refused extension changes nothing; a granted one adds the duration and marks an extension running; WNT/BCA spend only the shooter's own flag; APA spends one of the shooter's timeouts, never below 0, and closes the global flag; the opponent is never touched |
| `GameRules.Cancelled` | lib/game_rules.py:56-87 | no running extension or under 30 seconds left: nothing changes; else the countdown drops by the duration (not below 0), the flags reopen, and the shooter's flag or timeout is refunded |
| `GameRules.CancelUndoesExtension` | lib/game_rules.py:24-87 | an extension cancelled with at least 30 seconds left restores the countdown, the flags and the shooter's resource exactly |
| `GameRules.LateCancelKeepsExtension` | lib/game_rules.py:62-66 | below the 30-second threshold a cancel is refused and the extension stays |
| `GameRules.NoSecondExtension` | lib/game_rules.py:30-50 | right after an extension is granted a second one is refused |
| `GameRules.NoSecondCancel` | lib/game_rules.py:59-73 | right after a cancel a second cancel is refused |
| `GameRules.ProcessExtension` | lib/game_rules.py:24-54 | the returned flag is the grant condition; the record's extension slice becomes `Extended` of the old one |
| `GameRules.CancelExtension` | lib/game_rules.py:56-87 | the returned flag is the cancel condition; the record's extension slice becomes `Cancelled` of the old one |
| `GameRules.WinnerOf` | lib/game_rules.py:89-93 | a winner exists iff some player has reached their target; it is player 1 iff player 1 has, and player 2 only when player 1 has not |
| `GameRules.CheckWinCondition` | lib/game_rules.py:89-97 | returns true exactly when a target is reached, and then the mode is victory; otherwise the mode is unchanged |
| `GameRules.ScoreShooter` | lib/game_rules.py:101-127 | a 9-Ball make adds one to the shooter only and shows both scores; it then turns to victory with the clock untouched, or restarts the clock from idle with no break shot |
| `GameRules.CreditShooter` | lib/game_rules.py:109-118 | one point to the shooter only, both scores in the menu, extension rearmed |
| `GameRules.RestartClock` | lib/game_rules.py:212-229 | an 8-Ball or standard make rearms the extension, clears the break shot and enters idle with the idle countdown |
| `GameRules.EndTurn` | lib/game_rules.py:129-142 | a miss under every rule set passes the turn by one half inning, rearms the extension, clears the break shot and enters idle; 9-Ball refreshes both scores in the menu, standard the inning, 8-Ball neither |
| `GameRules.OpenMenu` | lib/game_rules.py:143-147 | the menu opens on its first entry |
| `GameRules.StartRack` | lib/game_rules.py:149-176 | rack plus one, break shot set, both players' timeouts refilled; under APA the shooter gains the rack, otherwise the menu shows the rack |
| `GameRules.UndoRack` | lib/game_rules.py:182-205 | rack minus one but not below 1, break shot cleared; under APA the shooter loses a rack but not below 0; timeouts untouched |
| `GameRules.AskConfirmation` | lib/game_rules.py:249-266 | the claimed win or loss is pending and the confirmation screen is shown |
| `GameRules.HandleMake` | lib/game_rules.py:101-127 | for each rule set (and lines 212-229, 274-286): idle starts the clock and changes nothing else; a running clock scores (9-Ball) or restarts with the scores and menu kept; no effect in other modes |
| `GameRules.HandleMiss` | lib/game_rules.py:129-147 | for each rule set (and lines 231-247, 288-305): a running clock ends the turn; idle opens the menu with the turn, clock, extension and break flags kept; no effect elsewhere |
| `GameRules.HandleUp` | lib/game_rules.py:149-180 | for each rule set (and lines 249-258, 307-309): a running clock asks for an extension and touches nothing else; idle starts a new rack (9-Ball, only without a pending break) with the extension and pending result kept, or claims a win (8-Ball) with nothing scored or counted; no effect otherwise |
| `GameRules.HandleDown` | lib/game_rules.py:182-208 | for each rule set (and lines 260-269, 311-314): a running clock cancels the extension and touches nothing else; idle undoes the rack (9-Ball, only with a pending break) with the extension and pending result kept, or claims a loss (8-Ball) with nothing scored or counted; no effect otherwise |
| `ButtonSetup.NineBallTargets` | lib/button_setup.py:24-40 | each player gets the target listed for their own skill level; if either level is missing, both get 14 |
| `ButtonSetup.ClampEightBallSkill` | lib/button_setup.py:30-31 | the level lies in 2..7, is unchanged there, and moves to the nearer end outside |
| `ButtonSetup.EightBallTargets` | lib/button_setup.py:28-40 | the race-grid entry of the clamped pairing, or 14/14 if the grid lacks it |
| `ButtonSetup.EightBallTargetsClamped` | lib/button_setup.py:30-35 | the 8-Ball race depends only on the clamped levels |
| `ButtonSetup.ApaAllotment` | lib/button_setup.py:11-57 | no APA section: 14/14 and one timeout each; else the 9-Ball or 8-Ball targets, and the "3" timeouts up to level 3 and the "4" timeouts above |
| `ButtonSetup.CalculateApaTargets` | lib/button_setup.py:9-57 | both players receive the allotment's target and timeouts per rack, and remaining timeouts equal the allotment; nothing else changes |
| `ButtonSetup.SkillUp` | lib/button_setup.py:261 | UP keeps the level in 1..9: one more, and 9 wraps to 1 |
| `ButtonSetup.SkillDown` | lib/button_setup.py:268-270 | DOWN gives one less, and 1 or below wraps to 9 |
| `ButtonSetup.SkillUpDownInverse` | lib/button_setup.py:259-272 | on levels 1..9, UP and DOWN undo each other |
| `ButtonSetup.GameTypeToggle` | lib/button_setup.py:275-284 | the choice swaps between 0 (8-Ball) and 1 (9-Ball) |
| `ButtonSetup.GameTypeToggleInvolution` | lib/button_setup.py:277-283 | toggling twice restores the choice |
| `ButtonSetup.WntInitialTarget` | lib/button_setup.py:75-76 | the opening race is a listed one: the third if more than two are listed, else the first |
| `ButtonSetup.WntNext` | lib/button_setup.py:230-235 | a listed race: the entry after the current one (cyclically), or the first for an unlisted value |
| `ButtonSetup.WntPrev` | lib/button_setup.py:247-252 | a listed race: the entry before the current one (cyclically), or the last for an unlisted value |
| `ButtonSetup.WntNextPrevInverse` | lib/button_setup.py:225-256 | on a list without repeats, DOWN undoes UP and UP undoes DOWN for every listed value |
| `ButtonSetup.WntFallbackUp` | lib/button_setup.py:237 | without the rules file, UP cycles within 1..20 |
| `ButtonSetup.WntFallbackDown` | lib/button_setup.py:254 | without the rules file, DOWN gives one less but never below 1 |
| `ButtonSetup.InitApaSelection` | lib/button_setup.py:63-67 | player 1's skill-level screen at level 3 |
| `ButtonSetup.InitWntSelection` | lib/button_setup.py:70-82 | the race screen on its opening race, both players allotted the configured timeouts (1 by default) |
| `ButtonSetup.ZeroScores` | lib/button_setup.py:94-95 | both scores and their menu slots become 0; nothing else about the players changes |
| `ButtonSetup.StartSides` | lib/button_setup.py:85-95 | both players get their target and timeouts, remaining timeouts refilled, scores and menu slots zeroed |
| `ButtonSetup.StartMatch` | lib/button_setup.py:146-151 | the rule set and menu layout are installed, a game is on, and the idle screen is entered |
| `ButtonSetup.InitBcaSelection` | lib/button_setup.py:85-107 | configured race and timeouts (16 and 0 by default), scores 0, a fresh score menu, 8-Ball-style rules, idle |
| `ButtonSetup.InitStandardSelection` | lib/button_setup.py:110-129 | standard rules and a game on; Timeouts Mode gets the Exit/Mute menu with the counters untouched; any other profile gets inning 1, rack 1 and the Inning/Rack menu |
| `ButtonSetup.InitUltimateSelection` | lib/button_setup.py:132-151 | configured race and timeouts (5 and 1 by default), scores zeroed, 8-Ball-style rules, idle |
| `ButtonSetup.HandleMakeSkillLevel` | lib/button_setup.py:157-172 | player 1's level is stored and player 2's screen opens at 3; player 2's level is stored and the game-type screen opens on 9-Ball |
| `ButtonSetup.HandleMakeGameTypeSelection` | lib/button_setup.py:175-196 | 9-Ball exactly when the screen showed 1; the APA allotment for the stored levels; scores zeroed; match started |
| `ButtonSetup.HandleMakeWntTargetSelection` | lib/button_setup.py:199-222 | the chosen race for both players, configured timeouts refilled, scores zeroed, 8-Ball-style rules, idle |
| `ButtonSetup.WntUpValue` | lib/button_setup.py:227-237 | with a list read, always one of its races, the first one for an unset value (the caught `ValueError`); without it, a value in 1..20 |
| `ButtonSetup.WntDownValue` | lib/button_setup.py:244-254 | with a list read, always one of its races, the last one for an unset value (the caught `ValueError`); without it, a value of at least 1 |
| `ButtonSetup.HandleUpWntTargetSelection` | lib/button_setup.py:225-239 | the wizard value becomes `WntUpValue`: the next listed race (a boolean compared as 0/1), the first for an unlisted or unset value, or the 1..20 fallback when the file cannot be read |
| `ButtonSetup.HandleDownWntTargetSelection` | lib/button_setup.py:242-256 | the wizard value becomes `WntDownValue`: the previous listed race, the last for an unlisted or unset value, or the never-below-1 fallback when the file cannot be read |
| `ButtonSetup.HandleUpApaSkill` | lib/button_setup.py:259-263 | the wizard value takes `SkillUp` |
| `ButtonSetup.HandleDownApaSkill` | lib/button_setup.py:266-272 | the wizard value takes `SkillDown` |
| `ButtonSetup.HandleToggleApaGameType` | lib/button_setup.py:275-284 | UP and DOWN both take `GameTypeToggle` |
| `ButtonSetup.HandleMissSkillLevel` | lib/button_setup.py:287-292 | back to the first entry of the profile list |
| `ButtonMenu.Negate` | lib/button_menu.py:48-49 | a boolean, the opposite of the value's truth |
| `ButtonMenu.NegateTwice` | lib/button_menu.py:48-59 | two Mute presses restore a boolean value |
| `ButtonMenu.EditUp` | lib/button_menu.py:51 | a number one greater than the edited value |
| `ButtonMenu.EditDown` | lib/button_menu.py:61 | one less than the edited value, never below 1 |
| `ButtonMenu.EditUpDownInverse` | lib/button_menu.py:45-62 | from 1 upwards DOWN undoes UP; above 1 UP undoes DOWN |
| `ButtonMenu.DownPresses` | lib/button_menu.py:61 | after one or more DOWN presses the value is a number of at least 1 |
| `ButtonMenu.MirrorSlot` | lib/button_menu.py:24-39 | the second slot a save writes: slot 0 for P1 and for Inning, slot 1 for P2 and for Rack, the first Mute slot (never after the edited one) for Mute, none for Exit Match |
| `ButtonMenu.BuiltLayoutsMirrorInPlace` | lib/button_menu.py:21-39 | in every layout the set-up builds, the second write of a save lands on the edited slot itself |
| `ButtonMenu.MirrorValue` | lib/button_menu.py:26-39 | the mirror slot shows the saved value as the record holds it: the mute setting any value as saved (a number included), the counters its integer value |
| `ButtonMenu.Mirrored` | lib/button_menu.py:24-39 | the mirror write leaves every other slot alone |
| `ButtonMenu.SavedMenu` | lib/button_menu.py:21-39 | every slot but the edited and mirror slots unchanged; in the built layouts the edited slot simply holds the new value |
| `ButtonMenu.TimeoutsMuteSavesNumber` | lib/button_menu.py:21-36 | in the Timeouts Mode menu a number on the Mute entry (the rack count a new rack writes there) saves without error and stays in the Mute slot |
| `ButtonMenu.HandleMakeMenu` | lib/button_menu.py:6-16 | Exit Match asks for confirmation; any other entry is opened for editing with its current value |
| `ButtonMenu.ApplySetting` | lib/button_menu.py:24-39 | the selected score, rack, inning (as a whole inning) or mute setting (any value, as saved) takes the value; the menu mirrors it; all else unchanged |
| `ButtonMenu.HandleMakeEditing` | lib/button_menu.py:19-42 | the edited value is saved into the menu and the record, and the menu reopens |
| `ButtonMenu.HandleUpEditing` | lib/button_menu.py:45-52 | the Mute entry is negated, any other goes up by one |
| `ButtonMenu.HandleDownEditing` | lib/button_menu.py:55-62 | the Mute entry is negated, any other goes down by one but not below 1 |
| `ButtonLogic.RecordProfile` | lib/button_logic.py:8-15 | the highlighted profile and its timer and extension durations are recorded, timeouts-only exactly for Timeouts Mode |
| `ButtonLogic.OpenProfile` | lib/button_logic.py:17-26 | the chosen profile's wizard or match starts; the wizards change only the screen, the wizard value and (WNT) the timeouts, and the matches keep the wizard value (and all but the standard match the counters) |
| `ButtonLogic.HandleMakeProfileSelection` | lib/button_logic.py:6-26 | the profile is recorded and its initialisation runs, with the fields it leaves alone as for `OpenProfile` |
| `ButtonLogic.HandleUpProfileSelection` | lib/button_logic.py:219-224 | the previous profile, cyclically, always a valid index |
| `ButtonLogic.HandleDownProfileSelection` | lib/button_logic.py:262-267 | the next profile, cyclically, always a valid index |
| `ButtonLogic.HandleUpMenu` | lib/button_logic.py:234-236 | the previous menu entry, cyclically, always a valid index |
| `ButtonLogic.HandleDownMenu` | lib/button_logic.py:277-279 | the next menu entry, cyclically, always a valid index |
| `ButtonLogic.ResetMatch` | lib/button_logic.py:29-33 | both records back at their defaults on the profile list, the mute setting kept |
| `ButtonLogic.ResetStartsFresh` | lib/button_logic.py:159-163 | after the reset: inning 1 with player 1 to shoot, rack 1, a break shot, the extension rearmed, no scores, no rule set |
| `ButtonLogic.RackWinnerSide` | lib/button_logic.py:44-55 | a confirmed win credits the shooter, a confirmed loss the opponent |
| `ButtonLogic.CreditRack` | lib/button_logic.py:44-57 | one rack to the winning side only, shown in its menu slot; a loss also passes the turn |
| `ButtonLogic.CloseRack` | lib/button_logic.py:59-70 | rack plus one; timeouts refilled for APA/WNT/BCA/Ultimate Pool; Ultimate Pool's match timer stopped; pending result cleared |
| `ButtonLogic.ConcludeRack` | lib/button_logic.py:72-84 | victory with the winner recorded when a target is reached, else a break shot and the idle screen |
| `ButtonLogic.SettleRack` | lib/button_logic.py:59-84 | the book-keeping of `CloseRack` followed by the outcome of `ConcludeRack` |
| `ButtonLogic.HandleMakeConfirmRackEnd` | lib/button_logic.py:36-84 | with nothing pending only the idle screen returns: scores, menu, rack, inning, break flag, winner, match timer and pending result untouched; otherwise the full confirmed-rack effect |
| `ButtonLogic.ConfirmationEndsMatchIff` | lib/button_logic.py:36-84 | after `HandleMakeConfirmRackEnd` settles a pending result, the mode is victory iff some player has reached their target; the winner is player 1 iff player 1 has; otherwise the idle screen with a break shot |
| `ButtonLogic.ShootoutStep` | lib/button_logic.py:92-128 | each MAKE moves one shootout stage on; only player 2's run ends it, and only then is a winner named |
| `ButtonLogic.ShootoutRun` | lib/button_logic.py:87-128 | a run of MAKE presses stays in the shootout or ends in victory |
| `ButtonLogic.ShootoutWinner` | lib/button_logic.py:94-128 | five presses from the announcement finish the shootout, each time is the gap between a player's two presses, and player 1 wins iff strictly faster |
| `ButtonLogic.HandleMakeShootout` | lib/button_logic.py:87-128 | the mode, stopwatch and winner become those of `ShootoutStep` at the current tick |
| `ButtonLogic.HandleNewRack` | lib/button_logic.py:192-216 | outside the three play modes nothing changes; inside, rack plus one and the idle screen; profiles without per-rack timeouts write the rack count into menu slot 1 (in Timeouts Mode that is the Mute entry) and set a break, the others refill timeouts |
| `ButtonLogic.DelegateMake` | lib/button_logic.py:174-189 | the rules' make runs, with every field of its frame accounted for; the Ultimate Pool match timer starts on the idle screen |
| `ButtonLogic.HandleMakeSetup` | lib/button_logic.py:135-157 | MAKE on the profile list and the wizard screens has the effect of the handler for that screen, and each branch leaves the fields only the other branches write unchanged |
| `ButtonLogic.HandleMakeWizard` | lib/button_logic.py:150-157 | the same for the APA skill, APA game-type and WNT race screens |
| `ButtonLogic.HandleMakeMatchScreen` | lib/button_logic.py:138-163 | MAKE on the confirmation, menu, edit, exit and victory screens: a confirmed rack, an opened or saved entry, or a reset match |
| `ButtonLogic.HandleMakePlay` | lib/button_logic.py:165-189 | a shootout step that touches only the mode, stopwatch and winner; the rules' make with the stopwatch and winner kept; or nothing when no rule set is installed |
| `ButtonLogic.HandleMakeInMatch` | lib/button_logic.py:138-189 | MAKE outside the set-up modes has the effect of `HandleMakeMatchScreen` or `HandleMakePlay` |
| `ButtonLogic.HandleMake` | lib/button_logic.py:131-189 | in every mode MAKE has the effect of the handler that mode is routed to |
| `ButtonLogic.CancelConfirmation` | lib/button_logic.py:309-313 | the claimed result is dropped and the idle screen returns |
| `ButtonLogic.BackToSecondSkillLevel` | lib/button_logic.py:332-336 | player 2's skill-level screen showing the level stored for player 2 |
| `ButtonLogic.BackToWntProfile` | lib/button_logic.py:338-342 | the profile list with WNT highlighted |
| `ButtonLogic.HandleMiss` | lib/button_logic.py:305-355 | MISS backs out of the screen it is pressed on, is handed to the rules in play, and does nothing on the profile list, the victory screen or the shootout |
| `ButtonLogic.HandleUp` | lib/button_logic.py:227-259 | UP moves to the previous profile or entry, steps the edited/wizard value up, or is handed to the rules; no effect elsewhere |
| `ButtonLogic.HandleDown` | lib/button_logic.py:270-302 | DOWN moves to the next profile or entry, steps the edited/wizard value down, or is handed to the rules; no effect elsewhere |
| `ButtonInterrupt.NextLast` | lib/button_interrupt.py:21-22 | the last accepted time moves to `now` exactly when the press is accepted |
| `ButtonInterrupt.Debounced` | lib/button_interrupt.py:15-26 | the presses that get through are some of the presses, never more of them |
| `ButtonInterrupt.LastAfter` | lib/button_interrupt.py:21-22 | after a run of presses the last accepted time is the starting one or one of the presses |
| `ButtonInterrupt.DebouncedSnoc` | lib/button_interrupt.py:15-26 | one more press extends the delivered events exactly as one interrupt does: one event iff it is accepted against the last accepted time |
| `ButtonInterrupt.QuietAfter` | lib/button_interrupt.py:21 | presses within the window of an accepted press deliver nothing |
| `ButtonInterrupt.BurstDeliversOnce` | lib/button_interrupt.py:15-26 | a burst of bounces within one window after an accepted press yields exactly one event |
| `ButtonInterrupt.AcceptedSpaced` | lib/button_interrupt.py:21-22 | delivered presses are more than the delay apart, the first one from the last accepted time |
| `ButtonInterrupt.EventLoop.constructor` | lib/button_interrupt.py:25 | an event loop starts with no tasks |
| `ButtonInterrupt.EventLoop.CreateTask` | lib/button_interrupt.py:26 | the task is queued after all earlier ones |
| `ButtonInterrupt.AsyncButton.constructor` | lib/button_interrupt.py:7-11 | the pin and delay are kept and the last press is at tick 0 |
| `ButtonInterrupt.AsyncButton.IrqHandler` | lib/button_interrupt.py:15-30 | an accepted press records `now` and queues one task if the loop is reachable (the press is lost otherwise); a rejected press changes nothing |
| `Display.DigitChar` | lib/display.py:103 | the decimal digit character of a value 0..9 |
| `Display.Digits` | lib/display.py:103 | decimal digits with no leading zero, one digit exactly below 10 and two from 10 to 99 |
| `Display.DigitsRoundTrip` | lib/display.py:101-103 | the digits read back as the number |
| `Display.LeadingZero` | lib/display.py:101-103 | a leading zero does not change the value read |
| `Display.IntToString` | lib/display.py:109 | non-empty, with a minus sign exactly for negative values |
| `Display.IntToStringRoundTrip` | lib/display.py:106-109 | the text of an integer reads back as that integer |
| `Display.Pad2` | lib/display.py:101-103 | at least two characters, exactly two below 100, zero-filled below 10, the plain text otherwise |
| `Display.Pad2RoundTrip` | lib/display.py:101-103 | the padded text of a non-negative value reads back as the value |
| `Display.ProcessTimerDuration` | lib/display.py:101-103 | at least two characters; for a non-negative duration all digits, reading back as the duration |
| `Display.FormatMatchTimer` | lib/display.py:106-109 | unpadded minutes (the text starts with '0' only under a minute), a colon third from the end, then the seconds zero-filled to two digits |
| `Display.MatchTimerReadBack` | lib/display.py:106-109 | the text splits at a colon, third from the end, into the minutes and two seconds digits that together give the time |
| `Display.MatchTimerExamples` | lib/display.py:106-109 | 577 seconds read "9:37" and 0 reads "0:00" |
| `Display.FormatStopwatch` | lib/display.py:112-118 | the whole seconds zero-filled to at least two digits, a dot third from the end, then the hundredths zero-filled to two digits |
| `Display.StopwatchReadBack` | lib/display.py:112-118 | the text splits at a dot, third from the end, into seconds and hundredths that fall short of the time by under 10 ms |
| `Display.StopwatchWidth` | lib/display.py:112-118 | under 100 seconds the stopwatch is exactly five characters |
| `Display.GetRegion` | lib/display.py:6-8 | a known key gives its region, an unknown key the empty rectangle at the origin |
| `Display.PlaceText` | lib/display.py:37-58 | offsets first; the blanked rectangle is the moved region; centred text has margins within one pixel; right-aligned text ends at the right edge; left text starts at the left edge; text is vertically centred within one pixel |
| `Display.DrawTextInRegion` | lib/display.py:32-63 | the placement of the text in the named region, or in the empty rectangle for an unknown name |
| `Display.OffsetsMoveRegion` | lib/display.py:37-39 | placing with offsets is placing in the moved region without them |
| `Display.CenteredTextInside` | lib/display.py:45-50 | centred text no wider than its region stays inside it |
| `Display.ClearedRegions` | lib/display.py:90-95 | no more rectangles than names asked for |
| `Display.ClearedRegionsExactly` | lib/display.py:90-95 | every known region asked for is blanked, and only those |
| `Display.DisplayClear` | lib/display.py:90-98 | the loop blanks exactly the rectangles `ClearedRegions` lists, in order |

## Left out

- Drawing, the OLED, audio, the speaker and all `render_*`, `update_timer_display` and `oled.show` calls: device output with no effect on the match state. The model keeps only the state and counter changes around them.
- The countdown scheduler that decrements `countdown` and moves to `COUNTDOWN_COMPLETE`: it is not in the modelled files (`main.py` as shown predates it).
- Asynchrony: each handler runs to completion as one sequential step. The shootout's two-second pause and the event loop's task execution are yield points with no state effect.
- `utime.ticks_ms` and `utime.ticks_diff`: the tick is a parameter, and tick differences are plain integer subtraction without the 30-bit wrap-around.
- `AsyncButton` pin set-up, the callback and `_process_press`: hardware wiring and the deferred call into the dispatcher. `loopReady` stands for whether `create_task` would succeed.
- Reading `lib/rules.json` in the WNT UP/DOWN handlers: file I/O. The list read is the `loaded` parameter, and `None` is the `OSError`/`KeyError` fallback.
- `DISPLAY_REGIONS` in `lib/hardware_config.py`: the region table is the `regions` parameter. Only `DEBOUNCE_DELAY` (200) is taken from that file.
- `draw_rect_in_region` and the region choice in `enter_idle_mode` for Ultimate Pool: these only choose what is blanked on screen.
- `inning_counter` as a float: it is an integer count of half-innings. Saving "Inning" stores a whole inning, as `float()` of an integer value does.
- `player_1_shooting` / `player_2_shooting`: `lib/models.py` as shown assigns them only in `_set_defaults`, while the rule sets and the repository's tests treat them as following the inning. The model derives them from the half-inning count (`GameStats.Player1Shooting`), as `lib/game_rules.py:161` does.
- `add_score`, `set_score`, `reset_rack_stats`, `rules_config`, `match_countdown`, `match_timer_running`, `winner`, the shootout fields and the five `SHOOTOUT_*` modes: they are not in `lib/models.py` as shown. They are modelled from how `lib/button_logic.py`, `lib/button_setup.py` and `lib/button_menu.py` use them, and the score methods also write the player's score slot of the menu.
- `Models.StateMachine.constructor`: the Python default initial mode `PROFILE_SELECTION` is not a default argument here; the caller passes it.
- `ButtonInterrupt.AsyncButton.constructor`: the Python default `debounce_delay=200` is not a default argument here; the caller passes it, and `DebounceDelay` names that value.
- `ButtonSetup.ApaAllotment`: the APA `timeouts` table is a pair (up to level 3, level 4 and up), so the uncaught `KeyError` of a table lacking "3" or "4" is not representable. Skill levels and targets are integers rather than strings.
- `ButtonSetup.HandleUpWntTargetSelection`, `ButtonSetup.HandleDownWntTargetSelection`, `ButtonSetup.WntUpValue` and `ButtonSetup.WntDownValue`: require a non-empty list when one is read. With an empty list, `index` fails and the fallback `targets[0]` or `targets[-1]` raises `IndexError`. Without the file they require a set wizard value, because `None % 20` and `None - 1` raise an uncaught `TypeError`.
- `ButtonSetup.HandleMakeWntTargetSelection`: requires a numeric wizard value and two score slots. A `None` race would only fail later, at the first `score >= target`, and an integer target cannot hold it.
- `ButtonSetup.InitWntSelection`: requires a non-empty race list. An empty list makes the Python raise `IndexError`; that crash is not modelled.
- `ButtonLogic.BackToWntProfile` and `ButtonLogic.HandleMiss`: require "WNT" in the profile list. Otherwise `list.index` raises `ValueError`; that crash is not modelled.
- `ButtonLogic.HandleMakeProfileSelection`: requires the highlighted profile to have timings in `game_profiles`. Otherwise the lookup raises `KeyError`, which is what "Ultimate Pool" would do with the default table.
- `ButtonMenu.HandleMakeMenu`, `ButtonMenu.HandleMakeEditing`, `Models.GameStats.UpdateMenuSelection`, `Models.GameStats.AddScore` and `Models.GameStats.SetScore`: require the menu index and the score slots to lie inside the lists. An index outside them raises `IndexError` in the Python; that crash is not modelled.
- `ButtonMenu.HandleMakeEditing`, `ButtonMenu.HandleUpEditing` and `ButtonMenu.HandleDownEditing`: require a set value on every entry but Mute and Exit Match. `int(None)` and `None + 1` raise `TypeError`; Mute accepts any value, including the rack count a Timeouts Mode new rack leaves in its slot.
- `ButtonSetup.HandleUpApaSkill`, `ButtonSetup.HandleDownApaSkill` and `ButtonSetup.HandleToggleApaGameType`: require a set wizard value. Arithmetic on `None` raises `TypeError`.
- `ButtonLogic.HandleMake`, `ButtonLogic.HandleMakeInMatch`, `ButtonLogic.HandleMakeMatchScreen`, `ButtonLogic.HandleMiss`, `ButtonLogic.HandleUp` and `ButtonLogic.HandleDown`: frame the whole state machine and match record. For the MAKE dispatchers the reason is that the exit and victory screens' reset writes almost every field; for MISS, UP and DOWN the frame was not narrowed to the union of their handlers' frames. In each mode they promise the routed handler's effect but not that every other field is unchanged. The handlers themselves carry exact field-level frames.
- `GameRules.Extended`: follows the code, so a WNT/BCA extension leaves the global `extension_available` set. The repository's tests that expect WNT/BCA extensions to spend timeouts describe behaviour the code does not have.
- `ButtonLogic.HandleNewRack`: follows the code. Under APA, a chord pressed while an extension runs refills the timeouts; a later cancel then refunds one more, so the remaining count can exceed the per-rack allotment.
