/**
 * The top-level button dispatch: per mode, each of MAKE, MISS, UP and DOWN is
 * routed to the profile chooser, the set-up wizards, the menu, the rack
 * confirmation, the shootout or the rule set in play; plus the MAKE+MISS
 * new-rack chord.
 */
module ButtonLogic {
  import opened Wrappers
  import opened Models
  import opened UiGameplay
  import opened GameRules
  import opened ButtonSetup
  import opened ButtonMenu

  // ---------------------------------------------------------------------
  // Profile selection
  // ---------------------------------------------------------------------

  /** The highlighted profile exists and has timings (`game_profiles[name]` does not raise). */
  predicate CanChooseProfile(game: GameStats)
    reads game`profileSelectionIndex, game`profileNames, game`gameProfiles
  {
    0 <= game.profileSelectionIndex < |game.profileNames|
    && game.profileNames[game.profileSelectionIndex] in game.gameProfiles
  }

  /** The highlighted profile. */
  function ChosenProfile(game: GameStats): Profile
    requires CanChooseProfile(game)
    reads game`profileSelectionIndex, game`profileNames, game`gameProfiles
  {
    game.profileNames[game.profileSelectionIndex]
  }

  /** What the initialisation of profile `name` requires of the record. */
  predicate ProfileFits(game: GameStats, name: Profile)
    reads game`rulesConfig, game`menuValues
  {
    && (name == Wnt ==> |WntTargets(game.rulesConfig)| > 0)
    && (name == Bca || name == UltimatePool ==> |game.menuValues| >= 2)
  }

  /** The highlighted profile and its timings recorded, timeouts-only mode exactly for Timeouts Mode. */
  twostate predicate ProfileRecorded(game: GameStats)
    requires old(CanChooseProfile(game))
    reads game
  {
    var name := old(ChosenProfile(game));
    && game.selectedProfile == Some(name)
    && game.profileBasedCountdown == old(game.gameProfiles)[name].timerDuration
    && game.extensionDuration == old(game.gameProfiles)[name].extensionDuration
    && game.timeoutsOnly == (name == TimeoutsMode)
  }

  /** The first half of `_handle_make_profile_selection`: the highlighted profile's timings are recorded. */
  method RecordProfile(game: GameStats) returns (name: Profile)
    requires CanChooseProfile(game)
    modifies game`selectedProfile, game`profileBasedCountdown, game`extensionDuration, game`timeoutsOnly
    ensures name == old(ChosenProfile(game)) && ProfileRecorded(game)
  {
    name := game.profileNames[game.profileSelectionIndex];
    var profile := game.gameProfiles[name];
    game.selectedProfile := Some(name);
    game.profileBasedCountdown := profile.timerDuration;
    game.extensionDuration := profile.extensionDuration;
    game.timeoutsOnly := name == TimeoutsMode;
  }

  /**
   * The second half: the wizard or match of the chosen profile starts. The
   * wizards touch only the screen, the wizard value and (WNT) the timeouts;
   * the matches leave the wizard value, and only the standard match the
   * counters and players, as they were.
   */
  twostate predicate ProfileOpened(sm: StateMachine, game: GameStats, name: Profile)
    requires old(ProfileFits(game, name))
    reads sm, game
  {
    match name
    case Apa =>
      && ApaSetupOpened(sm, game)
      && unchanged(sm`gameOn, game`player1, game`player2, game`menuValues, game`rules, game`menuItems,
                   game`halfInnings, game`rackCounter, game`countdown, game`speaker5Count)
    case Wnt =>
      && WntSetupOpened(sm, game)
      && unchanged(sm`gameOn, game`menuValues, game`rules, game`menuItems,
                   game`halfInnings, game`rackCounter, game`countdown, game`speaker5Count)
    case Bca =>
      BcaMatchStarted(sm, game) && unchanged(game`tempSettingValue, game`halfInnings, game`rackCounter)
    case UltimatePool =>
      UltimateMatchStarted(sm, game) && unchanged(game`tempSettingValue, game`halfInnings, game`rackCounter)
    case TimeoutsMode =>
      StandardMatchStarted(sm, game, name) && unchanged(game`tempSettingValue, game`player1, game`player2)
  }

  /** The initialisation of profile `name`, started once its timings are recorded. */
  method OpenProfile(sm: StateMachine, game: GameStats, name: Profile)
    requires ProfileFits(game, name)
    modifies sm, game`tempSettingValue, game`player1, game`player2, game`menuValues, game`rules,
      game`menuItems, game`halfInnings, game`rackCounter, game`countdown, game`speaker5Count
    ensures ProfileOpened(sm, game, name)
  {
    if name == Apa {
      InitApaSelection(sm, game);
    } else if name == Wnt {
      InitWntSelection(sm, game);
    } else if name == Bca {
      InitBcaSelection(sm, game);
    } else if name == UltimatePool {
      InitUltimateSelection(sm, game);
    } else {
      InitStandardSelection(sm, game, name);
    }
  }

  /** `_handle_make_profile_selection`. */
  method HandleMakeProfileSelection(sm: StateMachine, game: GameStats)
    requires CanChooseProfile(game) && ProfileFits(game, ChosenProfile(game))
    modifies sm, game`selectedProfile, game`profileBasedCountdown, game`extensionDuration, game`timeoutsOnly,
      game`tempSettingValue, game`player1, game`player2, game`menuValues, game`rules,
      game`menuItems, game`halfInnings, game`rackCounter, game`countdown, game`speaker5Count
    ensures ProfileRecorded(game) && ProfileOpened(sm, game, old(ChosenProfile(game)))
  {
    var name := RecordProfile(game);
    OpenProfile(sm, game, name);
  }

  /** UP on the profile list: the previous profile, from the first back to the last. */
  method HandleUpProfileSelection(game: GameStats)
    requires |game.profileNames| > 0
    modifies game`profileSelectionIndex
    ensures game.profileSelectionIndex == Wrap(old(game.profileSelectionIndex) - 1, |game.profileNames|)
    ensures 0 <= game.profileSelectionIndex < |game.profileNames|
  {
    game.profileSelectionIndex := (game.profileSelectionIndex - 1) % |game.profileNames|;
  }

  /** DOWN on the profile list: the next profile, from the last back to the first. */
  method HandleDownProfileSelection(game: GameStats)
    requires |game.profileNames| > 0
    modifies game`profileSelectionIndex
    ensures game.profileSelectionIndex == Wrap(old(game.profileSelectionIndex) + 1, |game.profileNames|)
    ensures 0 <= game.profileSelectionIndex < |game.profileNames|
  {
    game.profileSelectionIndex := (game.profileSelectionIndex + 1) % |game.profileNames|;
  }

  /** UP in the menu: the previous entry, cyclically. */
  method HandleUpMenu(game: GameStats)
    requires |game.menuItems| > 0
    modifies game`currentMenuIndex
    ensures game.currentMenuIndex == Wrap(old(game.currentMenuIndex) - 1, |game.menuItems|)
    ensures 0 <= game.currentMenuIndex < |game.menuItems|
  {
    game.currentMenuIndex := (game.currentMenuIndex - 1) % |game.menuItems|;
  }

  /** DOWN in the menu: the next entry, cyclically. */
  method HandleDownMenu(game: GameStats)
    requires |game.menuItems| > 0
    modifies game`currentMenuIndex
    ensures game.currentMenuIndex == Wrap(old(game.currentMenuIndex) + 1, |game.menuItems|)
    ensures 0 <= game.currentMenuIndex < |game.menuItems|
  {
    game.currentMenuIndex := (game.currentMenuIndex + 1) % |game.menuItems|;
  }

  // ---------------------------------------------------------------------
  // Leaving a match
  // ---------------------------------------------------------------------

  /** Both records back at their defaults: the profile list, no game on, the mute setting kept. */
  twostate predicate MatchReset(sm: StateMachine, game: GameStats)
    reads sm, game
  {
    && sm.state == ProfileSelection && !sm.gameOn
    && game.AtDefaults()
    && game.speakerMuted == old(game.speakerMuted) && game.rulesConfig == old(game.rulesConfig)
  }

  /** MAKE on the exit confirmation or the victory screen: `game.reset()` then `state_machine.reset()`. */
  method ResetMatch(sm: StateMachine, game: GameStats)
    modifies sm, game`rules, game`pendingRackResult, game`profileBasedCountdown, game`countdown,
      game`extensionDuration, game`extensionAvailable, game`extensionUsed, game`halfInnings, game`rackCounter,
      game`breakShot, game`speaker5Count, game`player1, game`player2, game`matchType, game`gameProfiles,
      game`profileNames, game`selectedProfile, game`timeoutsOnly, game`profileSelectionIndex,
      game`tempSettingValue, game`matchCountdown, game`matchTimerRunning, game`winner, game`shootout,
      game`menuItems, game`menuValues, game`currentMenuIndex, game`currentMenuSelection, game`currentMenuValues
    ensures MatchReset(sm, game)
  {
    game.Reset();
    sm.Reset();
  }

  /** After a reset a new match starts from inning 1, rack 1, a break shot, no score and no rule set. */
  lemma ResetStartsFresh(sm: StateMachine, game: GameStats)
    requires sm.state == ProfileSelection && !sm.gameOn && game.AtDefaults()
    ensures InningOf(game.halfInnings) == 1 && game.Player1Shooting() && game.rackCounter == 1
    ensures game.breakShot && game.extensionAvailable && !game.extensionUsed
    ensures game.player1.score == 0 && game.player2.score == 0 && game.rules.None?
  {
  }

  // ---------------------------------------------------------------------
  // Confirming a rack result
  // ---------------------------------------------------------------------

  /** The side credited with a confirmed rack: the shooter on a win, the opponent on a loss. */
  function RackWinnerSide(shooter: int, r: RackResult): (w: int)
    requires shooter == 1 || shooter == 2
    ensures w == 1 || w == 2
    ensures r == Win <==> w == shooter
    ensures r == Lose <==> w == 3 - shooter
  {
    match r
    case Win => shooter
    case Lose => 3 - shooter
  }

  /** A side after `reset_rack_stats`, if the profile tracks per-rack timeouts. */
  function Refilled(p: Player, refill: bool): Player
  {
    if refill then p.(timeoutsRemaining := p.timeoutsPerRack) else p
  }

  /** The scoring half of a confirmation: one rack to the winning side; a loss also passes the turn. */
  method CreditRack(game: GameStats, r: RackResult)
    requires |game.menuValues| >= 2
    modifies game`player1, game`player2, game`menuValues, game`halfInnings
    ensures var w := RackWinnerSide(old(game.ShooterIndex()), r);
      && game.PlayerOf(w) == old(game.PlayerOf(w)).(score := old(game.Score(w)) + 1)
      && game.PlayerOf(3 - w) == old(game.PlayerOf(3 - w))
      && game.menuValues == old(game.menuValues)[w - 1 := Num(old(game.Score(w)) + 1)]
    ensures game.halfInnings == old(game.halfInnings) + (if r == Lose then 1 else 0)
  {
    if r == Win {
      if game.Player1Shooting() {
        game.AddScore(1, 1);
      } else {
        game.AddScore(2, 1);
      }
    } else {
      if game.Player1Shooting() {
        game.AddScore(2, 1);
      } else {
        game.AddScore(1, 1);
      }
      game.halfInnings := game.halfInnings + 1;
    }
  }

  /**
   * The book-keeping half: the rack counter advances, per-rack timeouts refill
   * for the profiles that have them, the Ultimate Pool match timer stops, and
   * the pending result is cleared.
   */
  method CloseRack(game: GameStats)
    modifies game`rackCounter, game`player1, game`player2, game`matchTimerRunning, game`pendingRackResult
    ensures game.rackCounter == old(game.rackCounter) + 1
    ensures game.player1 == Refilled(old(game.player1), TracksRackStats(game.selectedProfile))
    ensures game.player2 == Refilled(old(game.player2), TracksRackStats(game.selectedProfile))
    ensures game.matchTimerRunning ==
      (if game.selectedProfile == Some(UltimatePool) then false else old(game.matchTimerRunning))
    ensures game.pendingRackResult.None?
  {
    game.rackCounter := game.rackCounter + 1;
    if TracksRackStats(game.selectedProfile) {
      game.ResetRackStats();
    }
    if game.selectedProfile == Some(UltimatePool) {
      game.matchTimerRunning := false;
    }
    game.pendingRackResult := None;
  }

  /** The end of a confirmation: the victory screen if a target is reached, else the next rack's break. */
  twostate predicate RackConcluded(sm: StateMachine, game: GameStats)
    reads sm, game
  {
    var w := WinnerOf(game.player1, game.player2);
    && (w.Some? ==>
          && sm.state == Victory && game.winner == w.value
          && game.breakShot == old(game.breakShot) && game.countdown == old(game.countdown)
          && game.speaker5Count == old(game.speaker5Count))
    && (w.None? ==> game.breakShot && IdleEntered(sm, game) && game.winner == old(game.winner))
  }

  /** The victory check of `_handle_make_confirm_rack_end`. */
  method ConcludeRack(sm: StateMachine, game: GameStats)
    modifies sm`state, game`winner, game`breakShot, game`countdown, game`speaker5Count
    ensures RackConcluded(sm, game)
  {
    if game.player1.score >= game.player1.target || game.player2.score >= game.player2.target {
      game.winner := if game.player1.score >= game.player1.target then 1 else 2;
      sm.UpdateState(Victory);
      return;
    }
    game.breakShot := true;
    sm.UpdateState(ShotClockIdle);
    EnterIdleMode(sm, game);
  }

  /** `CloseRack` then `ConcludeRack`. */
  method SettleRack(sm: StateMachine, game: GameStats)
    modifies game`rackCounter, game`player1, game`player2, game`matchTimerRunning, game`pendingRackResult,
      sm`state, game`winner, game`breakShot, game`countdown, game`speaker5Count
    ensures game.rackCounter == old(game.rackCounter) + 1
    ensures game.player1 == Refilled(old(game.player1), TracksRackStats(game.selectedProfile))
    ensures game.player2 == Refilled(old(game.player2), TracksRackStats(game.selectedProfile))
    ensures game.matchTimerRunning ==
      (if game.selectedProfile == Some(UltimatePool) then false else old(game.matchTimerRunning))
    ensures game.pendingRackResult.None?
    ensures RackConcluded(sm, game)
  {
    CloseRack(game);
    ConcludeRack(sm, game);
  }

  /**
   * A confirmed rack result `r`: the winning side (the shooter on a win, the
   * opponent on a loss) scores one, a loss passes the turn, the rack counter
   * advances by one, timeouts refill where tracked, the pending result is
   * cleared, and the match either ends or the next rack's break is set up.
   */
  twostate predicate RackConfirmed(sm: StateMachine, game: GameStats, r: RackResult)
    requires |old(game.menuValues)| >= 2
    reads sm, game
  {
    var w := RackWinnerSide(old(game.ShooterIndex()), r);
    var refill := TracksRackStats(game.selectedProfile);
    && game.PlayerOf(w) == Refilled(old(game.PlayerOf(w)).(score := old(game.Score(w)) + 1), refill)
    && game.PlayerOf(3 - w) == Refilled(old(game.PlayerOf(3 - w)), refill)
    && game.menuValues == old(game.menuValues)[w - 1 := Num(old(game.Score(w)) + 1)]
    && game.halfInnings == old(game.halfInnings) + (if r == Lose then 1 else 0)
    && game.rackCounter == old(game.rackCounter) + 1
    && game.pendingRackResult.None?
    && game.matchTimerRunning ==
         (if game.selectedProfile == Some(UltimatePool) then false else old(game.matchTimerRunning))
    && RackConcluded(sm, game)
  }

  /** The effect of `_handle_make_confirm_rack_end`; with nothing pending only the idle screen returns. */
  twostate predicate RackEndHandled(sm: StateMachine, game: GameStats)
    requires old(game.pendingRackResult).Some? ==> |old(game.menuValues)| >= 2
    reads sm, game
  {
    && (old(game.pendingRackResult).None? ==>
          && IdleEntered(sm, game)
          && unchanged(game`player1, game`player2, game`menuValues, game`halfInnings, game`rackCounter,
                       game`matchTimerRunning, game`pendingRackResult, game`winner, game`breakShot))
    && (old(game.pendingRackResult).Some? ==> RackConfirmed(sm, game, old(game.pendingRackResult).value))
  }

  /** `_handle_make_confirm_rack_end`. */
  method HandleMakeConfirmRackEnd(sm: StateMachine, game: GameStats)
    requires game.pendingRackResult.Some? ==> |game.menuValues| >= 2
    modifies game`player1, game`player2, game`menuValues, game`halfInnings, game`rackCounter,
      game`matchTimerRunning, game`pendingRackResult, sm`state, game`winner, game`breakShot, game`countdown,
      game`speaker5Count
    ensures RackEndHandled(sm, game)
  {
    if game.pendingRackResult.None? {
      sm.UpdateState(ShotClockIdle);
      EnterIdleMode(sm, game);
      return;
    }
    CreditRack(game, game.pendingRackResult.value);
    SettleRack(sm, game);
  }

  /**
   * After `_handle_make_confirm_rack_end` has settled a pending result, the
   * match is over exactly when some player has reached their target; the
   * winner named is player 1 iff player 1 has, and otherwise the next rack
   * starts from the idle screen with a break shot.
   */
  twostate lemma ConfirmationEndsMatchIff(sm: StateMachine, game: GameStats)
    requires old(game.pendingRackResult).Some? && |old(game.menuValues)| >= 2
    requires RackEndHandled(sm, game)
    ensures sm.state == Victory <==>
      game.player1.score >= game.player1.target || game.player2.score >= game.player2.target
    ensures sm.state == Victory ==> (game.winner == 1 <==> game.player1.score >= game.player1.target)
    ensures sm.state != Victory ==> sm.state == ShotClockIdle && game.breakShot
  {
  }

  // ---------------------------------------------------------------------
  // The Ultimate Pool shootout
  // ---------------------------------------------------------------------

  /** The mode, stopwatch and declared winner after one MAKE in the shootout. */
  datatype ShootoutOutcome = ShootoutOutcome(state: State, clock: ShootoutClock, winner: Option<int>)

  /**
   * One MAKE at tick `now`: the announcement gives way to player 1's wait; a
   * wait starts the stopwatch; a run records the elapsed time; player 2's run
   * ends the shootout, won by player 1 only with a strictly shorter time.
   */
  function ShootoutStep(s: State, c: ShootoutClock, now: int): (o: ShootoutOutcome)
    requires IsShootout(s)
    ensures IsShootout(o.state) || o.state == Victory
    ensures o.winner.Some? <==> s == ShootoutP2Running
    ensures o.state == Victory <==> s == ShootoutP2Running
  {
    match s
    case ShootoutAnnouncement => ShootoutOutcome(ShootoutP1Wait, c, None)
    case ShootoutP1Wait => ShootoutOutcome(ShootoutP1Running, c.(startTick := now), None)
    case ShootoutP1Running => ShootoutOutcome(ShootoutP2Wait, c.(p1Time := now - c.startTick), None)
    case ShootoutP2Wait => ShootoutOutcome(ShootoutP2Running, c.(startTick := now), None)
    case ShootoutP2Running =>
      var c' := c.(p2Time := now - c.startTick);
      ShootoutOutcome(Victory, c', Some(if c'.p1Time < c'.p2Time then 1 else 2))
  }

  /** The shootout driven by MAKE presses at the given ticks, until it ends or the presses run out. */
  function ShootoutRun(s: State, c: ShootoutClock, presses: seq<int>): (o: ShootoutOutcome)
    requires IsShootout(s)
    decreases |presses|
    ensures IsShootout(o.state) || o.state == Victory
  {
    if |presses| == 0 then ShootoutOutcome(s, c, None)
    else
      var step := ShootoutStep(s, c, presses[0]);
      if step.state == Victory then step else ShootoutRun(step.state, step.clock, presses[1..])
  }

  /**
   * Five presses from the announcement finish the shootout: each player's time
   * is the gap between their two presses, and player 1 wins exactly when that
   * gap is strictly shorter than player 2's.
   */
  lemma {:induction false} ShootoutWinner(c: ShootoutClock, t1: int, t2: int, t3: int, t4: int, t5: int)
    ensures var o := ShootoutRun(ShootoutAnnouncement, c, [t1, t2, t3, t4, t5]);
      && o.state == Victory
      && o.clock.p1Time == t3 - t2 && o.clock.p2Time == t5 - t4
      && (o.winner == Some(1) <==> t3 - t2 < t5 - t4)
      && (o.winner == Some(2) <==> t3 - t2 >= t5 - t4)
  {
    var presses := [t1, t2, t3, t4, t5];
    var c1 := c;
    var c2 := c1.(startTick := t2);
    var c3 := c2.(p1Time := t3 - t2);
    var c4 := c3.(startTick := t4);
    assert ShootoutRun(ShootoutAnnouncement, c, presses) == ShootoutRun(ShootoutP1Wait, c1, presses[1..]);
    assert presses[1..][1..] == presses[2..];
    assert ShootoutRun(ShootoutP1Wait, c1, presses[1..]) == ShootoutRun(ShootoutP1Running, c2, presses[2..]);
    assert presses[2..][1..] == presses[3..];
    assert ShootoutRun(ShootoutP1Running, c2, presses[2..]) == ShootoutRun(ShootoutP2Wait, c3, presses[3..]);
    assert presses[3..][1..] == presses[4..];
    assert ShootoutRun(ShootoutP2Wait, c3, presses[3..]) == ShootoutRun(ShootoutP2Running, c4, presses[4..]);
  }

  /** MAKE during the shootout, with `now` the current tick, as `ShootoutStep` describes it. */
  twostate predicate ShootoutAdvanced(sm: StateMachine, game: GameStats, now: int)
    requires IsShootout(old(sm.state))
    reads sm, game
  {
    var o := ShootoutStep(old(sm.state), old(game.shootout), now);
    && sm.state == o.state && game.shootout == o.clock
    && game.winner == (if o.winner.Some? then o.winner.value else old(game.winner))
  }

  /** `_handle_make_shootout`, with the tick passed in. */
  method HandleMakeShootout(sm: StateMachine, game: GameStats, now: int)
    requires IsShootout(sm.state)
    modifies sm`state, game`shootout, game`winner
    ensures ShootoutAdvanced(sm, game, now)
  {
    var state := sm.state;
    if state == ShootoutAnnouncement {
      sm.UpdateState(ShootoutP1Wait);
    } else if state == ShootoutP1Wait {
      game.shootout := game.shootout.(startTick := now);
      sm.UpdateState(ShootoutP1Running);
    } else if state == ShootoutP1Running {
      game.shootout := game.shootout.(p1Time := now - game.shootout.startTick);
      sm.UpdateState(ShootoutP2Wait);
    } else if state == ShootoutP2Wait {
      game.shootout := game.shootout.(startTick := now);
      sm.UpdateState(ShootoutP2Running);
    } else {
      game.shootout := game.shootout.(p2Time := now - game.shootout.startTick);
      game.winner := if game.shootout.p1Time < game.shootout.p2Time then 1 else 2;
      sm.UpdateState(Victory);
    }
  }

  // ---------------------------------------------------------------------
  // The new-rack chord
  // ---------------------------------------------------------------------

  /**
   * MAKE+MISS during play: the rack counter advances by one; a profile
   * without per-rack timeouts writes the rack count into menu slot 1 and sets
   * up a break, the others refill their timeouts; the idle screen is shown.
   * Slot 1 is the "Rack" entry of the fallback menu, but in Timeouts Mode,
   * whose menu is Exit Match/Mute, it is the Mute entry, which then holds the
   * rack count.
   */
  twostate predicate NewRackStarted(sm: StateMachine, game: GameStats)
    requires !TracksRackStats(old(game.selectedProfile)) ==> |old(game.menuValues)| >= 2
    reads sm, game
  {
    && game.rackCounter == old(game.rackCounter) + 1
    && (!TracksRackStats(old(game.selectedProfile)) ==>
          && game.menuValues == old(game.menuValues)[1 := Num(game.rackCounter)]
          && game.breakShot && game.player1 == old(game.player1) && game.player2 == old(game.player2))
    && (TracksRackStats(old(game.selectedProfile)) ==>
          && game.menuValues == old(game.menuValues) && game.breakShot == old(game.breakShot)
          && game.player1 == Refilled(old(game.player1), true) && game.player2 == Refilled(old(game.player2), true))
    && IdleEntered(sm, game)
  }

  /** `handle_new_rack`: nothing outside the three play modes. */
  method HandleNewRack(sm: StateMachine, game: GameStats)
    requires IsGameplay(sm.state) && !TracksRackStats(game.selectedProfile) ==> |game.menuValues| >= 2
    modifies sm`state, game`rackCounter, game`menuValues, game`breakShot, game`player1, game`player2,
      game`countdown, game`speaker5Count
    ensures IsGameplay(old(sm.state)) ==> NewRackStarted(sm, game)
    ensures !IsGameplay(old(sm.state)) ==> unchanged(sm) && unchanged(game)
  {
    if sm.IsProfileSelection() || sm.IsVictory() {
      return;
    }
    if !(sm.IsShotClockIdle() || sm.IsCountdownInProgress() || sm.IsCountdownComplete()) {
      return;
    }
    game.rackCounter := game.rackCounter + 1;
    if !TracksRackStats(game.selectedProfile) {
      game.menuValues := game.menuValues[1 := Num(game.rackCounter)];
      game.breakShot := true;
    } else {
      game.ResetRackStats();
    }
    EnterIdleMode(sm, game);
  }

  // ---------------------------------------------------------------------
  // Delegation to the rule set in play
  // ---------------------------------------------------------------------

  /** A press that the rule set in play handles: a play mode and a rule set chosen. */
  predicate Delegated(sm: StateMachine, game: GameStats, modes: set<State>)
    reads sm`state, game`rules
  {
    sm.state in modes && game.rules.Some?
  }

  /** The play modes in which MAKE and MISS reach the rules. */
  function MakeModes(): set<State>
  {
    {ShotClockIdle, CountdownInProgress, CountdownComplete}
  }

  /** The play modes in which UP and DOWN reach the rules. */
  function ArrowModes(): set<State>
  {
    {ShotClockIdle, CountdownInProgress}
  }

  /** MAKE in play: the Ultimate Pool match timer starts on the idle screen, then the rules handle it. */
  method DelegateMake(sm: StateMachine, game: GameStats)
    requires Delegated(sm, game, MakeModes())
    requires game.rules == Some(NineBallRules) ==> |game.menuValues| >= 2
    modifies game`matchTimerRunning, sm`state, game`player1, game`player2, game`menuValues,
      game`extensionAvailable, game`extensionUsed, game`countdown, game`breakShot, game`speaker5Count
    ensures MakeHandled(old(game.rules).value, sm, game)
    ensures game.matchTimerRunning ==
      (if old(sm.state) == ShotClockIdle && game.selectedProfile == Some(UltimatePool) then true
       else old(game.matchTimerRunning))
  {
    if sm.state == ShotClockIdle && game.selectedProfile == Some(UltimatePool) {
      game.matchTimerRunning := true;
    }
    GameRules.HandleMake(game.rules.value, sm, game);
  }

  // ---------------------------------------------------------------------
  // MAKE
  // ---------------------------------------------------------------------

  /** The set-up modes: the profile list and the wizard screens. */
  predicate IsSetupMode(s: State)
  {
    s == ProfileSelection || s == ApaSkillLevelP1 || s == ApaSkillLevelP2
    || s == ApaGameTypeSelection || s == WntTargetSelection
  }

  /** The in-match screens other than play: the rack confirmation, the menu, the exit and victory screens. */
  predicate IsMatchScreen(s: State)
  {
    s == ConfirmRackEnd || s == Menu || s == EditingValue || s == ExitMatchConfirmation || s == Victory
  }

  /** What MAKE requires of the records in the set-up modes. */
  predicate SetupMakeFits(sm: StateMachine, game: GameStats)
    reads sm, game
  {
    && (sm.state == ProfileSelection ==> CanChooseProfile(game) && ProfileFits(game, ChosenProfile(game)))
    && (sm.state == ApaSkillLevelP1 || sm.state == ApaSkillLevelP2 ==> game.tempSettingValue.Num?)
    && (sm.state == ApaGameTypeSelection ==> |game.menuValues| >= 2)
    && (sm.state == WntTargetSelection ==> game.tempSettingValue.Num? && |game.menuValues| >= 2)
  }

  /** The chosen profile and its timings stay as recorded. */
  twostate predicate ProfileKept(game: GameStats)
    reads game
  {
    unchanged(game`selectedProfile, game`profileBasedCountdown, game`extensionDuration, game`timeoutsOnly)
  }

  /** MAKE in the set-up modes: the profile is chosen, a skill level stored, or the match started. */
  twostate predicate SetupMade(sm: StateMachine, game: GameStats)
    requires old(SetupMakeFits(sm, game))
    reads sm, game
  {
    && (old(sm.state) == ProfileSelection ==>
          ProfileRecorded(game) && ProfileOpened(sm, game, old(ChosenProfile(game))))
    && (old(sm.state) == ApaSkillLevelP1 || old(sm.state) == ApaSkillLevelP2 ==> SkillLevelStored(sm, game))
    && (old(sm.state) == ApaGameTypeSelection ==> ApaMatchStarted(sm, game))
    && (old(sm.state) == WntTargetSelection ==> WntMatchStarted(sm, game))
  }

  /** What each set-up branch of MAKE leaves alone of the fields the others may write. */
  twostate predicate SetupRestKept(sm: StateMachine, game: GameStats)
    reads sm, game
  {
    && (old(sm.state) == ProfileSelection ==> unchanged(game`matchType))
    && (old(sm.state) == ApaSkillLevelP1 || old(sm.state) == ApaSkillLevelP2 ==>
          && ProfileKept(game)
          && unchanged(sm`gameOn, game`menuValues, game`rules, game`menuItems, game`halfInnings,
                       game`rackCounter, game`countdown, game`speaker5Count, game`matchType))
    && (old(sm.state) == ApaGameTypeSelection ==>
          ProfileKept(game) && unchanged(game`tempSettingValue, game`halfInnings, game`rackCounter))
    && (old(sm.state) == WntTargetSelection ==>
          ProfileKept(game) && unchanged(game`tempSettingValue, game`halfInnings, game`rackCounter, game`matchType))
  }

  /** The set-up branches of `handle_make`. */
  method HandleMakeSetup(sm: StateMachine, game: GameStats)
    requires IsSetupMode(sm.state) && SetupMakeFits(sm, game)
    modifies sm, game`selectedProfile, game`profileBasedCountdown, game`extensionDuration, game`timeoutsOnly,
      game`tempSettingValue, game`player1, game`player2, game`menuValues, game`rules, game`menuItems,
      game`halfInnings, game`rackCounter, game`countdown, game`speaker5Count, game`matchType
    ensures SetupMade(sm, game) && SetupRestKept(sm, game)
  {
    if sm.state == ProfileSelection {
      HandleMakeProfileSelection(sm, game);
    } else {
      HandleMakeWizard(sm, game);
    }
  }

  /** The APA and WNT wizard branches of `handle_make`. */
  method HandleMakeWizard(sm: StateMachine, game: GameStats)
    requires IsSetupMode(sm.state) && sm.state != ProfileSelection && SetupMakeFits(sm, game)
    modifies sm, game`tempSettingValue, game`player1, game`player2, game`menuValues, game`rules,
      game`menuItems, game`countdown, game`speaker5Count, game`matchType
    ensures SetupMade(sm, game) && SetupRestKept(sm, game)
  {
    var state := sm.state;
    if state == ApaSkillLevelP1 || state == ApaSkillLevelP2 {
      HandleMakeSkillLevel(sm, game);
    } else if state == ApaGameTypeSelection {
      HandleMakeGameTypeSelection(sm, game);
    } else {
      HandleMakeWntTargetSelection(sm, game);
    }
  }

  /** What MAKE requires of the records on the in-match screens. */
  predicate MatchMakeFits(sm: StateMachine, game: GameStats)
    reads sm, game
  {
    && (sm.state == ConfirmRackEnd && game.pendingRackResult.Some? ==> |game.menuValues| >= 2)
    && (sm.state == Menu ==>
          0 <= game.currentMenuIndex < |game.menuItems| && game.currentMenuIndex < |game.menuValues|)
    && (sm.state == EditingValue ==> CanSave(game))
  }

  /** MAKE on the in-match screens: a rack result confirmed, a menu entry opened or saved, or the match left. */
  twostate predicate MatchMade(sm: StateMachine, game: GameStats)
    requires old(MatchMakeFits(sm, game))
    reads sm, game
  {
    && (old(sm.state) == ConfirmRackEnd ==> RackEndHandled(sm, game))
    && (old(sm.state) == Menu ==> EntryOpened(sm, game))
    && (old(sm.state) == EditingValue ==> EntrySaved(sm, game))
    && (old(sm.state) == ExitMatchConfirmation || old(sm.state) == Victory ==> MatchReset(sm, game))
  }

  /** The in-match branches of `handle_make`. */
  method HandleMakeMatchScreen(sm: StateMachine, game: GameStats)
    requires IsMatchScreen(sm.state) && MatchMakeFits(sm, game)
    modifies sm, game
    ensures MatchMade(sm, game)
  {
    var state := sm.state;
    if state == ConfirmRackEnd {
      HandleMakeConfirmRackEnd(sm, game);
    } else if state == Menu {
      HandleMakeMenu(sm, game);
    } else if state == EditingValue {
      HandleMakeEditing(sm, game);
    } else {
      ResetMatch(sm, game);
    }
  }

  /** MAKE in the shootout and in play: a shootout step, the rules' make, or nothing without a rule set. */
  twostate predicate PlayMade(sm: StateMachine, game: GameStats, now: int)
    requires old(Delegated(sm, game, MakeModes())) && old(game.rules) == Some(NineBallRules) ==>
      |old(game.menuValues)| >= 2
    reads sm, game
  {
    && (IsShootout(old(sm.state)) ==> ShootoutAdvanced(sm, game, now))
    && (old(Delegated(sm, game, MakeModes())) ==>
          && MakeHandled(old(game.rules).value, sm, game)
          && game.matchTimerRunning ==
               (if old(sm.state) == ShotClockIdle && game.selectedProfile == Some(UltimatePool) then true
                else old(game.matchTimerRunning)))
    && (IsGameplay(old(sm.state)) && old(game.rules).None? ==> unchanged(sm) && unchanged(game))
  }

  /** What the shootout and play branches of MAKE leave alone of the fields the other may write. */
  twostate predicate PlayRestKept(sm: StateMachine, game: GameStats)
    reads sm, game
  {
    && (IsShootout(old(sm.state)) ==>
          unchanged(game`matchTimerRunning, game`player1, game`player2, game`menuValues,
                    game`extensionAvailable, game`extensionUsed, game`countdown, game`breakShot,
                    game`speaker5Count))
    && (IsGameplay(old(sm.state)) ==> unchanged(game`shootout, game`winner))
  }

  /** The shootout and play branches of `handle_make`. */
  method HandleMakePlay(sm: StateMachine, game: GameStats, now: int)
    requires IsShootout(sm.state) || IsGameplay(sm.state)
    requires Delegated(sm, game, MakeModes()) && game.rules == Some(NineBallRules) ==> |game.menuValues| >= 2
    modifies sm`state, game`shootout, game`winner, game`matchTimerRunning, game`player1, game`player2,
      game`menuValues, game`extensionAvailable, game`extensionUsed, game`countdown, game`breakShot,
      game`speaker5Count
    ensures PlayMade(sm, game, now) && PlayRestKept(sm, game)
  {
    if IsShootout(sm.state) {
      HandleMakeShootout(sm, game, now);
    } else if Delegated(sm, game, MakeModes()) {
      DelegateMake(sm, game);
    }
  }

  /** What MAKE requires of the records in each mode. */
  predicate MakeFits(sm: StateMachine, game: GameStats)
    reads sm, game
  {
    && SetupMakeFits(sm, game)
    && MatchMakeFits(sm, game)
    && (Delegated(sm, game, MakeModes()) && game.rules == Some(NineBallRules) ==> |game.menuValues| >= 2)
  }

  /** The branches of `handle_make` past the set-up modes: the in-match screens, the shootout and play. */
  method HandleMakeInMatch(sm: StateMachine, game: GameStats, now: int)
    requires !IsSetupMode(sm.state) && MakeFits(sm, game)
    modifies sm, game
    ensures IsMatchScreen(old(sm.state)) ==> MatchMade(sm, game)
    ensures IsShootout(old(sm.state)) || IsGameplay(old(sm.state)) ==> PlayMade(sm, game, now)
  {
    if IsMatchScreen(sm.state) {
      HandleMakeMatchScreen(sm, game);
    } else {
      HandleMakePlay(sm, game, now);
    }
  }

  /** `handle_make`, with `now` the current tick (read by the shootout). */
  method HandleMake(sm: StateMachine, game: GameStats, now: int)
    requires MakeFits(sm, game)
    modifies sm, game
    ensures IsSetupMode(old(sm.state)) ==> SetupMade(sm, game)
    ensures IsMatchScreen(old(sm.state)) ==> MatchMade(sm, game)
    ensures IsShootout(old(sm.state)) || IsGameplay(old(sm.state)) ==> PlayMade(sm, game, now)
  {
    if IsSetupMode(sm.state) {
      HandleMakeSetup(sm, game);
    } else {
      HandleMakeInMatch(sm, game, now);
    }
  }

  // ---------------------------------------------------------------------
  // MISS
  // ---------------------------------------------------------------------

  /** MISS on the rack confirmation: the claimed result is dropped and the idle screen returns. */
  method CancelConfirmation(sm: StateMachine, game: GameStats)
    modifies game`pendingRackResult, sm`state, game`countdown, game`speaker5Count
    ensures game.pendingRackResult.None? && IdleEntered(sm, game)
  {
    game.pendingRackResult := None;
    sm.UpdateState(ShotClockIdle);
    EnterIdleMode(sm, game);
  }

  /** MISS on the game-type screen: back to player 2's skill level, showing the level stored for them. */
  method BackToSecondSkillLevel(sm: StateMachine, game: GameStats)
    modifies sm`state, game`tempSettingValue
    ensures sm.state == ApaSkillLevelP2 && game.tempSettingValue == Num(game.player2.skillLevel)
  {
    sm.UpdateState(ApaSkillLevelP2);
    game.tempSettingValue := Num(game.player2.skillLevel);
  }

  /** MISS on the WNT race screen: back to the profile list with WNT highlighted. */
  method BackToWntProfile(sm: StateMachine, game: GameStats)
    requires Wnt in game.profileNames
    modifies sm`state, game`profileSelectionIndex
    ensures sm.state == ProfileSelection && game.profileSelectionIndex == IndexOf(game.profileNames, Wnt)
    ensures game.profileNames[game.profileSelectionIndex] == Wnt
  {
    sm.UpdateState(ProfileSelection);
    game.profileSelectionIndex := IndexOf(game.profileNames, Wnt);
  }

  /** The modes in which MISS does something. */
  predicate MissActs(sm: StateMachine, game: GameStats)
    reads sm`state, game`rules
  {
    && sm.state != ProfileSelection && sm.state != Victory && !IsShootout(sm.state)
    && (IsGameplay(sm.state) ==> game.rules.Some?)
  }

  /** What MISS requires of the records in each mode. */
  predicate MissFits(sm: StateMachine, game: GameStats)
    reads sm, game
  {
    && (sm.state == WntTargetSelection ==> Wnt in game.profileNames)
    && (Delegated(sm, game, MakeModes()) ==> |game.menuValues| >= MenuSlotsForTurnEnd(game.rules.value))
  }

  /**
   * The effect of `handle_miss`: MISS backs out of the screen it is pressed on
   * (confirmation, menu, edit, exit question, wizard screens) and is handed to
   * the rules in play; elsewhere it does nothing.
   */
  twostate predicate MissPressed(sm: StateMachine, game: GameStats)
    requires old(MissFits(sm, game))
    reads sm, game
  {
    && (old(sm.state) == ConfirmRackEnd ==> game.pendingRackResult.None? && IdleEntered(sm, game))
    && (old(sm.state) == Menu ==> IdleEntered(sm, game))
    && (old(sm.state) == EditingValue || old(sm.state) == ExitMatchConfirmation ==> sm.state == Menu)
    && (old(sm.state) == ApaSkillLevelP1 || old(sm.state) == ApaSkillLevelP2 ==>
          sm.state == ProfileSelection && game.profileSelectionIndex == 0)
    && (old(sm.state) == ApaGameTypeSelection ==>
          sm.state == ApaSkillLevelP2 && game.tempSettingValue == Num(old(game.player2.skillLevel)))
    && (old(sm.state) == WntTargetSelection ==>
          sm.state == ProfileSelection && game.profileSelectionIndex == IndexOf(old(game.profileNames), Wnt))
    && (old(Delegated(sm, game, MakeModes())) ==> MissHandled(old(game.rules).value, sm, game))
    && (!old(MissActs(sm, game)) ==> unchanged(sm) && unchanged(game))
  }

  /** `handle_miss`. */
  method HandleMiss(sm: StateMachine, game: GameStats)
    requires MissFits(sm, game)
    modifies sm, game
    ensures MissPressed(sm, game)
  {
    var state := sm.state;
    if state == ConfirmRackEnd {
      CancelConfirmation(sm, game);
    } else if state == Menu {
      EnterIdleMode(sm, game);
    } else if state == EditingValue || state == ExitMatchConfirmation {
      sm.UpdateState(Menu);
    } else if state == ApaSkillLevelP1 || state == ApaSkillLevelP2 {
      HandleMissSkillLevel(sm, game);
    } else if state == ApaGameTypeSelection {
      BackToSecondSkillLevel(sm, game);
    } else if state == WntTargetSelection {
      BackToWntProfile(sm, game);
    } else if Delegated(sm, game, MakeModes()) {
      GameRules.HandleMiss(game.rules.value, sm, game);
    }
  }

  // ---------------------------------------------------------------------
  // UP and DOWN
  // ---------------------------------------------------------------------

  /** The modes in which UP and DOWN do something. */
  predicate ArrowActs(sm: StateMachine, game: GameStats)
    reads sm`state, game`rules
  {
    || sm.state == ProfileSelection || sm.state == Menu || sm.state == EditingValue
    || sm.state == ApaSkillLevelP1 || sm.state == ApaSkillLevelP2 || sm.state == ApaGameTypeSelection
    || sm.state == WntTargetSelection || Delegated(sm, game, ArrowModes())
  }

  /**
   * What UP and DOWN require of the records in each mode. `loaded` is the
   * WNT race list read from the rules file, `None` if it cannot be read.
   */
  predicate ArrowFits(sm: StateMachine, game: GameStats, loaded: Option<seq<int>>)
    reads sm, game
  {
    && (sm.state == ProfileSelection ==> |game.profileNames| > 0)
    && (sm.state == Menu ==> |game.menuItems| > 0)
    && (sm.state == EditingValue ==>
          && 0 <= game.currentMenuIndex < |game.menuItems|
          && (game.menuItems[game.currentMenuIndex] != Mute ==> !game.tempSettingValue.Unset?))
    && (sm.state == ApaSkillLevelP1 || sm.state == ApaSkillLevelP2 || sm.state == ApaGameTypeSelection ==>
          !game.tempSettingValue.Unset?)
    && (sm.state == WntTargetSelection ==>
          && (loaded.Some? ==> |loaded.value| > 0)
          && (loaded.None? ==> !game.tempSettingValue.Unset?))
    && (Delegated(sm, game, ArrowModes()) && game.rules == Some(NineBallRules) ==> |game.menuValues| >= 2)
  }

  /** The effect of `handle_up`: the previous profile or menu entry, the next value, or the rules' UP. */
  twostate predicate UpPressed(sm: StateMachine, game: GameStats, loaded: Option<seq<int>>)
    requires old(ArrowFits(sm, game, loaded))
    reads sm, game
  {
    var temp := old(game.tempSettingValue);
    && (old(sm.state) == ProfileSelection ==>
          game.profileSelectionIndex == Wrap(old(game.profileSelectionIndex) - 1, |old(game.profileNames)|))
    && (old(sm.state) == Menu ==>
          game.currentMenuIndex == Wrap(old(game.currentMenuIndex) - 1, |old(game.menuItems)|))
    && (old(sm.state) == EditingValue ==>
          game.tempSettingValue ==
            if old(game.menuItems)[old(game.currentMenuIndex)] == Mute then Negate(temp) else EditUp(temp))
    && (old(sm.state) == ApaSkillLevelP1 || old(sm.state) == ApaSkillLevelP2 ==>
          game.tempSettingValue == Num(SkillUp(IntOf(temp))))
    && (old(sm.state) == ApaGameTypeSelection ==> game.tempSettingValue == Num(GameTypeToggle(IntOf(temp))))
    && (old(sm.state) == WntTargetSelection ==>
          game.tempSettingValue == Num(WntUpValue(loaded, temp)))
    && (old(Delegated(sm, game, ArrowModes())) ==> UpHandled(old(game.rules).value, sm, game))
    && (!old(ArrowActs(sm, game)) ==> unchanged(sm) && unchanged(game))
  }

  /** `handle_up`. */
  method HandleUp(sm: StateMachine, game: GameStats, loaded: Option<seq<int>>)
    requires ArrowFits(sm, game, loaded)
    modifies sm, game
    ensures UpPressed(sm, game, loaded)
  {
    var state := sm.state;
    if state == ProfileSelection {
      HandleUpProfileSelection(game);
    } else if state == Menu {
      HandleUpMenu(game);
    } else if state == EditingValue {
      HandleUpEditing(game);
    } else if state == ApaSkillLevelP1 || state == ApaSkillLevelP2 {
      HandleUpApaSkill(game);
    } else if state == ApaGameTypeSelection {
      HandleToggleApaGameType(game);
    } else if state == WntTargetSelection {
      HandleUpWntTargetSelection(game, loaded);
    } else if Delegated(sm, game, ArrowModes()) {
      GameRules.HandleUp(game.rules.value, sm, game);
    }
  }

  /** The effect of `handle_down`: the next profile or menu entry, the previous value, or the rules' DOWN. */
  twostate predicate DownPressed(sm: StateMachine, game: GameStats, loaded: Option<seq<int>>)
    requires old(ArrowFits(sm, game, loaded))
    reads sm, game
  {
    var temp := old(game.tempSettingValue);
    && (old(sm.state) == ProfileSelection ==>
          game.profileSelectionIndex == Wrap(old(game.profileSelectionIndex) + 1, |old(game.profileNames)|))
    && (old(sm.state) == Menu ==>
          game.currentMenuIndex == Wrap(old(game.currentMenuIndex) + 1, |old(game.menuItems)|))
    && (old(sm.state) == EditingValue ==>
          game.tempSettingValue ==
            if old(game.menuItems)[old(game.currentMenuIndex)] == Mute then Negate(temp) else EditDown(temp))
    && (old(sm.state) == ApaSkillLevelP1 || old(sm.state) == ApaSkillLevelP2 ==>
          game.tempSettingValue == Num(SkillDown(IntOf(temp))))
    && (old(sm.state) == ApaGameTypeSelection ==> game.tempSettingValue == Num(GameTypeToggle(IntOf(temp))))
    && (old(sm.state) == WntTargetSelection ==>
          game.tempSettingValue == Num(WntDownValue(loaded, temp)))
    && (old(Delegated(sm, game, ArrowModes())) ==> DownHandled(old(game.rules).value, sm, game))
    && (!old(ArrowActs(sm, game)) ==> unchanged(sm) && unchanged(game))
  }

  /** `handle_down`. */
  method HandleDown(sm: StateMachine, game: GameStats, loaded: Option<seq<int>>)
    requires ArrowFits(sm, game, loaded)
    modifies sm, game
    ensures DownPressed(sm, game, loaded)
  {
    var state := sm.state;
    if state == ProfileSelection {
      HandleDownProfileSelection(game);
    } else if state == Menu {
      HandleDownMenu(game);
    } else if state == EditingValue {
      HandleDownEditing(game);
    } else if state == ApaSkillLevelP1 || state == ApaSkillLevelP2 {
      HandleDownApaSkill(game);
    } else if state == ApaGameTypeSelection {
      HandleToggleApaGameType(game);
    } else if state == WntTargetSelection {
      HandleDownWntTargetSelection(game, loaded);
    } else if Delegated(sm, game, ArrowModes()) {
      GameRules.HandleDown(game.rules.value, sm, game);
    }
  }
}
