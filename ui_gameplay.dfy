/**
 * The state and timer effects of the two gameplay screens. The drawing these
 * entry points also do (clearing regions, shot-clock digits, the score line)
 * is not modelled.
 */
module UiGameplay {
  import opened Models

  /** The countdown the idle screen shows: the shot clock, plus the extension window before a break. */
  function IdleCountdown(game: GameStats): int
    reads game`breakShot, game`profileBasedCountdown, game`extensionDuration
  {
    if game.breakShot then game.profileBasedCountdown + game.extensionDuration
    else game.profileBasedCountdown
  }

  /**
   * What `enter_idle_mode` leaves behind: the idle mode, the idle countdown, and
   * the five-second beep counter rearmed unless the profile is timeouts-only.
   */
  twostate predicate IdleEntered(sm: StateMachine, game: GameStats)
    reads sm, game
  {
    && sm.state == ShotClockIdle
    && game.countdown == IdleCountdown(game)
    && game.speaker5Count == (if game.timeoutsOnly then old(game.speaker5Count) else 4)
  }

  /**
   * `enter_idle_mode`. In timeouts-only mode the countdown is first set to the
   * profile value and then overwritten by the break-shot rule.
   */
  method EnterIdleMode(sm: StateMachine, game: GameStats)
    modifies sm`state, game`countdown, game`speaker5Count
    ensures IdleEntered(sm, game)
  {
    sm.UpdateState(ShotClockIdle);
    if game.timeoutsOnly {
      game.countdown := game.profileBasedCountdown;
    } else {
      game.speaker5Count := 4;
    }
    if game.breakShot {
      game.countdown := game.profileBasedCountdown + game.extensionDuration;
    } else {
      game.countdown := game.profileBasedCountdown;
    }
  }

  /** `enter_shot_clock`: only the mode changes; the countdown itself is run by the scheduler. */
  method EnterShotClock(sm: StateMachine)
    modifies sm`state
    ensures sm.state == CountdownInProgress
  {
    sm.UpdateState(CountdownInProgress);
  }
}
