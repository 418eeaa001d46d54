/**
 * The rules engine: what MAKE, MISS, UP and DOWN do during play under each of
 * the three rule sets, and the shared extension and win-check helpers.
 *
 * The extension helpers are specified by pure functions on the slice of the
 * match record they touch (`ExtensionState`), so that applying and cancelling
 * an extension can be related by lemmas.
 */
module GameRules {
  import opened Wrappers
  import opened Models
  import opened UiGameplay

  /** `_cancel_extension` refuses once fewer than this many seconds are left. */
  const CancelThreshold := 30

  /** Countdown, extension flags and both players: everything the extension helpers read or write. */
  datatype ExtensionState = ExtensionState(
    countdown: int,
    available: bool,
    used: bool,
    player1: Player,
    player2: Player)
  {
    /** The shooting player's side. */
    function Shooter(p1Shooting: bool): Player
    {
      if p1Shooting then player1 else player2
    }

    /** The side of the player who is not shooting. */
    function Opponent(p1Shooting: bool): Player
    {
      if p1Shooting then player2 else player1
    }

    /** The slice with the shooting player's side replaced. */
    function WithShooter(p1Shooting: bool, p: Player): ExtensionState
    {
      if p1Shooting then this.(player1 := p) else this.(player2 := p)
    }
  }

  /** WNT and BCA charge extensions to a once-per-rack player flag. */
  predicate UsesPlayerFlag(profile: Option<Profile>)
  {
    profile == Some(Wnt) || profile == Some(Bca)
  }

  /**
   * When `_process_extension` grants an extension: under WNT/BCA if the shooter
   * still has their flag, under APA if no extension is running and the shooter
   * has a timeout left; never under any other profile.
   */
  predicate CanExtend(e: ExtensionState, profile: Option<Profile>, p1Shooting: bool)
  {
    if UsesPlayerFlag(profile) then e.Shooter(p1Shooting).extensionAvailable
    else profile == Some(Apa) && e.available && e.Shooter(p1Shooting).timeoutsRemaining > 0
  }

  /** The slice after `_process_extension`. */
  function Extended(e: ExtensionState, profile: Option<Profile>, p1Shooting: bool, duration: int): (r: ExtensionState)
    ensures !CanExtend(e, profile, p1Shooting) ==> r == e
    ensures CanExtend(e, profile, p1Shooting) ==> r.countdown == e.countdown + duration && r.used
    ensures CanExtend(e, profile, p1Shooting) && UsesPlayerFlag(profile) ==>
      && r.available == e.available
      && r.Shooter(p1Shooting) == e.Shooter(p1Shooting).(extensionAvailable := false)
    ensures CanExtend(e, profile, p1Shooting) && profile == Some(Apa) ==>
      && !r.available
      && r.Shooter(p1Shooting).timeoutsRemaining == e.Shooter(p1Shooting).timeoutsRemaining - 1
      && r.Shooter(p1Shooting).timeoutsRemaining >= 0
    ensures r.Opponent(p1Shooting) == e.Opponent(p1Shooting)
  {
    var s := e.Shooter(p1Shooting);
    if UsesPlayerFlag(profile) && s.extensionAvailable then
      e.WithShooter(p1Shooting, s.(extensionAvailable := false)).(used := true, countdown := e.countdown + duration)
    else if profile == Some(Apa) && e.available && s.timeoutsRemaining > 0 then
      e.WithShooter(p1Shooting, s.(timeoutsRemaining := s.timeoutsRemaining - 1))
        .(available := false, used := true, countdown := e.countdown + duration)
    else
      e
  }

  /** When `_cancel_extension` undoes an extension: one is running and at least `CancelThreshold` seconds are left. */
  predicate CanCancel(e: ExtensionState)
  {
    e.used && e.countdown >= CancelThreshold
  }

  /** The slice after `_cancel_extension`. */
  function Cancelled(e: ExtensionState, profile: Option<Profile>, p1Shooting: bool, duration: int): (r: ExtensionState)
    ensures !CanCancel(e) ==> r == e
    ensures CanCancel(e) ==> r.countdown == Max(0, e.countdown - duration) && r.available && !r.used
    ensures CanCancel(e) && UsesPlayerFlag(profile) ==>
      r.Shooter(p1Shooting) == e.Shooter(p1Shooting).(extensionAvailable := true)
    ensures CanCancel(e) && profile == Some(Apa) ==>
      r.Shooter(p1Shooting) == e.Shooter(p1Shooting).(timeoutsRemaining := e.Shooter(p1Shooting).timeoutsRemaining + 1)
    ensures !UsesPlayerFlag(profile) && profile != Some(Apa) ==> r.player1 == e.player1 && r.player2 == e.player2
    ensures r.Opponent(p1Shooting) == e.Opponent(p1Shooting)
  {
    if !CanCancel(e) then e
    else
      var s := e.Shooter(p1Shooting);
      var refunded :=
        if UsesPlayerFlag(profile) then s.(extensionAvailable := true)
        else if profile == Some(Apa) then s.(timeoutsRemaining := s.timeoutsRemaining + 1)
        else s;
      e.WithShooter(p1Shooting, refunded).(countdown := Max(0, e.countdown - duration), used := false, available := true)
  }

  /**
   * An extension cancelled while at least `CancelThreshold` seconds remain
   * gives back exactly what it took: countdown, the shooter's flag or timeout,
   * and leaves no extension running.
   */
  lemma CancelUndoesExtension(e: ExtensionState, profile: Option<Profile>, p1Shooting: bool, duration: int)
    requires CanExtend(e, profile, p1Shooting)
    requires e.countdown >= 0 && duration >= 0
    requires e.countdown + duration >= CancelThreshold
    ensures Cancelled(Extended(e, profile, p1Shooting, duration), profile, p1Shooting, duration)
      == e.(used := false, available := true)
  {
  }

  /** Below the threshold the cancel is refused and the extension stays in force. */
  lemma LateCancelKeepsExtension(e: ExtensionState, profile: Option<Profile>, p1Shooting: bool, duration: int)
    requires CanExtend(e, profile, p1Shooting)
    requires e.countdown + duration < CancelThreshold
    ensures Cancelled(Extended(e, profile, p1Shooting, duration), profile, p1Shooting, duration)
      == Extended(e, profile, p1Shooting, duration)
  {
  }

  /** A shooter gets at most one extension: right after one is granted a second is refused. */
  lemma NoSecondExtension(e: ExtensionState, profile: Option<Profile>, p1Shooting: bool, duration: int)
    requires CanExtend(e, profile, p1Shooting)
    ensures !CanExtend(Extended(e, profile, p1Shooting, duration), profile, p1Shooting)
  {
  }

  /** A cancel is not repeated: it ends the running extension, so a second cancel is refused. */
  lemma NoSecondCancel(e: ExtensionState, profile: Option<Profile>, p1Shooting: bool, duration: int)
    ensures !CanCancel(Cancelled(e, profile, p1Shooting, duration))
  {
  }

  /** The extension slice of the match record. */
  function ExtensionOf(game: GameStats): ExtensionState
    reads game`countdown, game`extensionAvailable, game`extensionUsed, game`player1, game`player2
  {
    ExtensionState(game.countdown, game.extensionAvailable, game.extensionUsed, game.player1, game.player2)
  }

  /** `_process_extension`: grant the shooter an extension if the profile allows one. */
  method ProcessExtension(game: GameStats) returns (extended: bool)
    modifies game`countdown, game`extensionAvailable, game`extensionUsed, game`player1, game`player2
    ensures extended == CanExtend(old(ExtensionOf(game)), game.selectedProfile, game.Player1Shooting())
    ensures ExtensionOf(game)
      == Extended(old(ExtensionOf(game)), game.selectedProfile, game.Player1Shooting(), game.extensionDuration)
  {
    var p1Can := game.Player1Shooting() && game.player1.extensionAvailable;
    var p2Can := game.Player2Shooting() && game.player2.extensionAvailable;
    extended := false;
    if UsesPlayerFlag(game.selectedProfile) && (p1Can || p2Can) {
      if game.Player1Shooting() {
        game.player1 := game.player1.(extensionAvailable := false);
      } else {
        game.player2 := game.player2.(extensionAvailable := false);
      }
      game.extensionUsed := true;
      extended := true;
    } else if game.selectedProfile == Some(Apa) && game.extensionAvailable {
      var hasTimeout := false;
      if game.Player1Shooting() {
        if game.player1.timeoutsRemaining > 0 {
          hasTimeout := true;
          game.player1 := game.player1.(timeoutsRemaining := game.player1.timeoutsRemaining - 1);
        }
      } else if game.player2.timeoutsRemaining > 0 {
        hasTimeout := true;
        game.player2 := game.player2.(timeoutsRemaining := game.player2.timeoutsRemaining - 1);
      }
      if hasTimeout {
        game.extensionAvailable, game.extensionUsed := false, true;
        extended := true;
      }
    }
    if extended {
      game.countdown := game.countdown + game.extensionDuration;
    }
  }

  /** `_cancel_extension`: undo a running extension and refund it to the shooter. */
  method CancelExtension(game: GameStats) returns (cancelled: bool)
    modifies game`countdown, game`extensionAvailable, game`extensionUsed, game`player1, game`player2
    ensures cancelled == CanCancel(old(ExtensionOf(game)))
    ensures ExtensionOf(game)
      == Cancelled(old(ExtensionOf(game)), game.selectedProfile, game.Player1Shooting(), game.extensionDuration)
  {
    if !game.extensionUsed {
      return false;
    }
    var currentTimer := game.countdown;
    if currentTimer < CancelThreshold {
      return false;
    }
    game.countdown := Max(0, currentTimer - game.extensionDuration);
    game.extensionUsed := false;
    game.extensionAvailable := true;
    if UsesPlayerFlag(game.selectedProfile) {
      if game.Player1Shooting() {
        game.player1 := game.player1.(extensionAvailable := true);
      } else {
        game.player2 := game.player2.(extensionAvailable := true);
      }
    } else if game.selectedProfile == Some(Apa) {
      if game.Player1Shooting() {
        game.player1 := game.player1.(timeoutsRemaining := game.player1.timeoutsRemaining + 1);
      } else {
        game.player2 := game.player2.(timeoutsRemaining := game.player2.timeoutsRemaining + 1);
      }
    }
    return true;
  }

  /**
   * The player who has reached their target, if any; player 1 is named when
   * both have.
   */
  function WinnerOf(p1: Player, p2: Player): (w: Option<int>)
    ensures w.Some? <==> p1.score >= p1.target || p2.score >= p2.target
    ensures w == Some(1) <==> p1.score >= p1.target
    ensures w == Some(2) <==> p1.score < p1.target && p2.score >= p2.target
  {
    if p1.score >= p1.target || p2.score >= p2.target then
      Some(if p1.score >= p1.target then 1 else 2)
    else
      None
  }

  /** `_check_win_condition`: switch to the victory screen as soon as a target is reached. */
  method CheckWinCondition(sm: StateMachine, game: GameStats) returns (won: bool)
    modifies sm`state
    ensures won <==> WinnerOf(game.player1, game.player2).Some?
    ensures won ==> sm.state == Victory
    ensures !won ==> sm.state == old(sm.state)
  {
    if game.player1.score >= game.player1.target || game.player2.score >= game.player2.target {
      sm.UpdateState(Victory);
      return true;
    }
    return false;
  }

  // ---------------------------------------------------------------------
  // The effects of the handlers, each defined once and shared by the
  // handler and the dispatcher that reaches it.
  // ---------------------------------------------------------------------

  /**
   * A rack-ending 9-Ball make: the shooter scores one, the menu shows both
   * scores, the extension is rearmed; then either the match is won or the
   * turn's clock restarts (no break shot) from the idle screen.
   */
  twostate predicate ShooterScored(sm: StateMachine, game: GameStats)
    requires |old(game.menuValues)| >= 2
    reads sm, game
  {
    var s := game.ShooterIndex();
    && game.PlayerOf(s) == old(game.PlayerOf(s)).(score := old(game.Score(s)) + 1)
    && game.PlayerOf(3 - s) == old(game.PlayerOf(3 - s))
    && game.menuValues == old(game.menuValues)[0 := Num(game.player1.score)][1 := Num(game.player2.score)]
    && game.extensionAvailable && !game.extensionUsed
    && (WinnerOf(game.player1, game.player2).Some? ==>
          sm.state == Victory && game.countdown == old(game.countdown)
          && game.breakShot == old(game.breakShot) && game.speaker5Count == old(game.speaker5Count))
    && (WinnerOf(game.player1, game.player2).None? ==> !game.breakShot && IdleEntered(sm, game))
  }

  /**
   * A make under the 8-Ball and standard rules: the extension is rearmed and
   * the clock restarts; the scores and the menu stay as they were.
   */
  twostate predicate ClockRestarted(sm: StateMachine, game: GameStats)
    reads sm, game
  {
    && game.extensionAvailable && !game.extensionUsed && !game.breakShot && IdleEntered(sm, game)
    && unchanged(game`player1, game`player2, game`menuValues)
  }

  /** What each rule set asks of `menu_values` before it may end a turn. */
  function MenuSlotsForTurnEnd(kind: RulesKind): nat
  {
    match kind
    case NineBallRules => 2
    case StandardRules => 1
    case EightBallRules => 0
  }

  /**
   * A miss while the clock runs: the turn passes (half an inning), the
   * extension is rearmed, no break shot is pending, the idle screen is shown;
   * 9-Ball refreshes both scores in the menu, the standard rules the inning.
   */
  twostate predicate TurnEnded(kind: RulesKind, sm: StateMachine, game: GameStats)
    requires |old(game.menuValues)| >= MenuSlotsForTurnEnd(kind)
    reads sm, game
  {
    && game.halfInnings == old(game.halfInnings) + 1
    && game.extensionAvailable && !game.extensionUsed && !game.breakShot
    && IdleEntered(sm, game)
    && game.menuValues == match kind
         case NineBallRules => old(game.menuValues)[0 := Num(game.player1.score)][1 := Num(game.player2.score)]
         case StandardRules => old(game.menuValues)[0 := Num(InningOf(game.halfInnings))]
         case EightBallRules => old(game.menuValues)
  }

  /** A miss on the idle screen opens the menu on its first entry; the turn and the clock stay as they were. */
  twostate predicate MenuOpened(sm: StateMachine, game: GameStats)
    reads sm, game
  {
    && sm.state == Menu && game.currentMenuIndex == 0
    && unchanged(game`countdown, game`halfInnings, game`menuValues, game`extensionAvailable,
                 game`extensionUsed, game`breakShot, game`speaker5Count)
  }

  /**
   * UP on the idle 9-Ball screen after a rack has been played: a new rack with
   * a break shot pending, both players' timeouts refilled; under APA the
   * shooter is credited the rack and the menu shows both scores, otherwise
   * the menu shows the rack number.
   */
  twostate predicate RackStarted(sm: StateMachine, game: GameStats)
    requires |old(game.menuValues)| >= 2
    reads sm, game
  {
    var s := game.ShooterIndex();
    var bonus := if game.selectedProfile == Some(Apa) then 1 else 0;
    && game.rackCounter == old(game.rackCounter) + 1
    && game.breakShot
    && game.PlayerOf(s) == old(game.PlayerOf(s)).(score := old(game.Score(s)) + bonus,
                                                   timeoutsRemaining := old(game.PlayerOf(s)).timeoutsPerRack)
    && game.PlayerOf(3 - s) == old(game.PlayerOf(3 - s)).(timeoutsRemaining := old(game.PlayerOf(3 - s)).timeoutsPerRack)
    && game.menuValues == (if game.selectedProfile == Some(Apa)
                           then old(game.menuValues)[0 := Num(game.player1.score)][1 := Num(game.player2.score)]
                           else old(game.menuValues)[1 := Num(game.rackCounter)])
    && IdleEntered(sm, game)
    && unchanged(game`pendingRackResult, game`extensionAvailable, game`extensionUsed)
  }

  /**
   * DOWN on the idle 9-Ball screen right after a new rack: the rack is taken
   * back (never below 1), the break shot withdrawn; under APA the shooter's
   * credited rack is taken back (never below 0), otherwise the menu shows the
   * rack number. Timeouts are not touched.
   */
  twostate predicate RackUndone(sm: StateMachine, game: GameStats)
    requires |old(game.menuValues)| >= 2
    reads sm, game
  {
    var s := game.ShooterIndex();
    var score := if game.selectedProfile == Some(Apa) then Max(0, old(game.Score(s)) - 1) else old(game.Score(s));
    && game.rackCounter == Max(1, old(game.rackCounter) - 1)
    && !game.breakShot
    && game.PlayerOf(s) == old(game.PlayerOf(s)).(score := score)
    && game.PlayerOf(3 - s) == old(game.PlayerOf(3 - s))
    && game.menuValues == (if game.selectedProfile == Some(Apa)
                           then old(game.menuValues)[0 := Num(game.player1.score)][1 := Num(game.player2.score)]
                           else old(game.menuValues)[1 := Num(game.rackCounter)])
    && IdleEntered(sm, game)
    && unchanged(game`pendingRackResult, game`extensionAvailable, game`extensionUsed)
  }

  /**
   * UP (win) or DOWN (loss) on the idle 8-Ball screen asks for confirmation;
   * nothing is scored or counted until the result is confirmed.
   */
  twostate predicate ResultPending(sm: StateMachine, game: GameStats, r: RackResult)
    reads sm, game
  {
    && sm.state == ConfirmRackEnd && game.pendingRackResult == Some(r)
    && unchanged(game`rackCounter, game`breakShot, game`player1, game`player2, game`menuValues,
                 game`countdown, game`speaker5Count, game`extensionAvailable, game`extensionUsed)
  }

  /** UP while the clock runs: `_process_extension`. */
  twostate predicate ExtensionRequested(game: GameStats)
    reads game
  {
    ExtensionOf(game)
      == Extended(old(ExtensionOf(game)), game.selectedProfile, game.Player1Shooting(), game.extensionDuration)
  }

  /** DOWN while the clock runs: `_cancel_extension`. */
  twostate predicate CancelRequested(game: GameStats)
    reads game
  {
    ExtensionOf(game)
      == Cancelled(old(ExtensionOf(game)), game.selectedProfile, game.Player1Shooting(), game.extensionDuration)
  }

  // ---------------------------------------------------------------------
  // Handlers
  // ---------------------------------------------------------------------

  /** `NineBallRules.handle_make` while the clock runs or has run out. */
  method ScoreShooter(sm: StateMachine, game: GameStats)
    requires |game.menuValues| >= 2
    modifies sm`state, game`player1, game`player2, game`menuValues, game`extensionAvailable,
      game`extensionUsed, game`countdown, game`breakShot, game`speaker5Count
    ensures ShooterScored(sm, game)
  {
    CreditShooter(game);
    var won := CheckWinCondition(sm, game);
    if won {
      return;
    }
    game.countdown := game.profileBasedCountdown;
    game.breakShot := false;
    EnterIdleMode(sm, game);
  }

  /** The first half of a 9-Ball make: one point to the shooter, both scores to the menu, the extension rearmed. */
  method CreditShooter(game: GameStats)
    requires |game.menuValues| >= 2
    modifies game`player1, game`player2, game`menuValues, game`extensionAvailable, game`extensionUsed
    ensures game.PlayerOf(game.ShooterIndex()) == old(game.PlayerOf(game.ShooterIndex())).(score := old(game.Score(game.ShooterIndex())) + 1)
    ensures game.PlayerOf(3 - game.ShooterIndex()) == old(game.PlayerOf(3 - game.ShooterIndex()))
    ensures game.menuValues == old(game.menuValues)[0 := Num(game.player1.score)][1 := Num(game.player2.score)]
    ensures game.extensionAvailable && !game.extensionUsed
  {
    if game.Player1Shooting() {
      game.player1 := game.player1.(score := game.player1.score + 1);
    } else {
      game.player2 := game.player2.(score := game.player2.score + 1);
    }
    game.menuValues := game.menuValues[0 := Num(game.player1.score)][1 := Num(game.player2.score)];
    game.extensionAvailable, game.extensionUsed := true, false;
  }

  /** `EightBallRules.handle_make` and `StandardRules.handle_make` while the clock runs or has run out. */
  method RestartClock(sm: StateMachine, game: GameStats)
    modifies sm`state, game`extensionAvailable, game`extensionUsed, game`countdown, game`breakShot,
      game`speaker5Count
    ensures ClockRestarted(sm, game)
  {
    game.extensionAvailable, game.extensionUsed := true, false;
    game.countdown := game.profileBasedCountdown;
    game.breakShot := false;
    EnterIdleMode(sm, game);
  }

  /** `handle_miss` of each rule set while the clock runs or has run out. */
  method EndTurn(kind: RulesKind, sm: StateMachine, game: GameStats)
    requires |game.menuValues| >= MenuSlotsForTurnEnd(kind)
    modifies sm`state, game`countdown, game`halfInnings, game`menuValues, game`extensionAvailable,
      game`extensionUsed, game`breakShot, game`speaker5Count
    ensures TurnEnded(kind, sm, game)
  {
    game.countdown := game.profileBasedCountdown;
    game.halfInnings := game.halfInnings + 1;
    if kind == NineBallRules {
      game.menuValues := game.menuValues[0 := Num(game.player1.score)][1 := Num(game.player2.score)];
    }
    game.extensionAvailable, game.extensionUsed := true, false;
    game.breakShot := false;
    if kind == StandardRules {
      game.menuValues := game.menuValues[0 := Num(InningOf(game.halfInnings))];
    }
    EnterIdleMode(sm, game);
  }

  /** `handle_miss` of each rule set on the idle screen. */
  method OpenMenu(sm: StateMachine, game: GameStats)
    modifies sm`state, game`currentMenuIndex
    ensures MenuOpened(sm, game)
  {
    game.currentMenuIndex := 0;
    sm.UpdateState(Menu);
  }

  /** `NineBallRules.handle_up` on the idle screen, once the break shot has been taken. */
  method StartRack(sm: StateMachine, game: GameStats)
    requires |game.menuValues| >= 2
    modifies sm`state, game`rackCounter, game`breakShot, game`player1, game`player2, game`menuValues,
      game`countdown, game`speaker5Count
    ensures RackStarted(sm, game)
  {
    game.rackCounter := game.rackCounter + 1;
    game.breakShot := true;
    if game.selectedProfile == Some(Apa) {
      if game.halfInnings % 2 == 0 {
        game.player1 := game.player1.(score := game.player1.score + 1);
      } else {
        game.player2 := game.player2.(score := game.player2.score + 1);
      }
      game.menuValues := game.menuValues[0 := Num(game.player1.score)][1 := Num(game.player2.score)];
    } else {
      game.menuValues := game.menuValues[1 := Num(game.rackCounter)];
    }
    game.player1 := game.player1.(timeoutsRemaining := game.player1.timeoutsPerRack);
    game.player2 := game.player2.(timeoutsRemaining := game.player2.timeoutsPerRack);
    EnterIdleMode(sm, game);
  }

  /** `NineBallRules.handle_down` on the idle screen while a break shot is pending. */
  method UndoRack(sm: StateMachine, game: GameStats)
    requires |game.menuValues| >= 2
    modifies sm`state, game`rackCounter, game`breakShot, game`player1, game`player2, game`menuValues,
      game`countdown, game`speaker5Count
    ensures RackUndone(sm, game)
  {
    game.rackCounter := Max(1, game.rackCounter - 1);
    game.breakShot := false;
    if game.selectedProfile == Some(Apa) {
      if game.halfInnings % 2 == 0 {
        game.player1 := game.player1.(score := Max(0, game.player1.score - 1));
      } else {
        game.player2 := game.player2.(score := Max(0, game.player2.score - 1));
      }
      game.menuValues := game.menuValues[0 := Num(game.player1.score)][1 := Num(game.player2.score)];
    } else {
      game.menuValues := game.menuValues[1 := Num(game.rackCounter)];
    }
    EnterIdleMode(sm, game);
  }

  /** `EightBallRules.handle_up` / `handle_down` on the idle screen. */
  method AskConfirmation(sm: StateMachine, game: GameStats, r: RackResult)
    modifies sm`state, game`pendingRackResult
    ensures ResultPending(sm, game, r)
  {
    game.pendingRackResult := Some(r);
    sm.UpdateState(ConfirmRackEnd);
  }

  /**
   * The effect of `rules.handle_make`: from idle the clock starts and nothing
   * the rules own changes; while the clock runs, a 9-Ball make scores and the
   * other rule sets restart the clock; in any other mode nothing happens.
   */
  twostate predicate MakeHandled(kind: RulesKind, sm: StateMachine, game: GameStats)
    requires kind == NineBallRules ==> |old(game.menuValues)| >= 2
    reads sm, game
  {
    && (old(sm.state) == ShotClockIdle ==>
          sm.state == CountdownInProgress
          && unchanged(game`player1, game`player2, game`menuValues, game`extensionAvailable,
                       game`extensionUsed, game`countdown, game`breakShot, game`speaker5Count))
    && (old(sm.state) == CountdownInProgress || old(sm.state) == CountdownComplete ==>
          if kind == NineBallRules then ShooterScored(sm, game) else ClockRestarted(sm, game))
    && (!IsGameplay(old(sm.state)) ==> unchanged(sm) && unchanged(game))
  }

  /** `rules.handle_make`. */
  method HandleMake(kind: RulesKind, sm: StateMachine, game: GameStats)
    requires kind == NineBallRules ==> |game.menuValues| >= 2
    modifies sm`state, game`player1, game`player2, game`menuValues, game`extensionAvailable,
      game`extensionUsed, game`countdown, game`breakShot, game`speaker5Count
    ensures MakeHandled(kind, sm, game)
  {
    var state := sm.state;
    if state == ShotClockIdle {
      EnterShotClock(sm);
    } else if state == CountdownInProgress || state == CountdownComplete {
      if kind == NineBallRules {
        ScoreShooter(sm, game);
      } else {
        RestartClock(sm, game);
      }
    }
  }

  /**
   * The effect of `rules.handle_miss`: a running clock ends the turn, the
   * idle screen opens the menu, nothing happens elsewhere.
   */
  twostate predicate MissHandled(kind: RulesKind, sm: StateMachine, game: GameStats)
    requires |old(game.menuValues)| >= MenuSlotsForTurnEnd(kind)
    reads sm, game
  {
    && (old(sm.state) == CountdownInProgress || old(sm.state) == CountdownComplete ==>
          TurnEnded(kind, sm, game) && game.currentMenuIndex == old(game.currentMenuIndex))
    && (old(sm.state) == ShotClockIdle ==>
          MenuOpened(sm, game))
    && (!IsGameplay(old(sm.state)) ==> unchanged(sm) && unchanged(game))
  }

  /** `rules.handle_miss`. */
  method HandleMiss(kind: RulesKind, sm: StateMachine, game: GameStats)
    requires |game.menuValues| >= MenuSlotsForTurnEnd(kind)
    modifies sm`state, game`countdown, game`halfInnings, game`menuValues, game`extensionAvailable,
      game`extensionUsed, game`breakShot, game`speaker5Count, game`currentMenuIndex
    ensures MissHandled(kind, sm, game)
  {
    var state := sm.state;
    if state == CountdownInProgress || state == CountdownComplete {
      EndTurn(kind, sm, game);
    } else if state == ShotClockIdle {
      OpenMenu(sm, game);
    }
  }

  /**
   * The effect of `rules.handle_up`: an extension while the clock runs, a new
   * rack (9-Ball) or a claimed win (8-Ball) on the idle screen, nothing otherwise.
   */
  twostate predicate UpHandled(kind: RulesKind, sm: StateMachine, game: GameStats)
    requires kind == NineBallRules ==> |old(game.menuValues)| >= 2
    reads sm, game
  {
    && (old(sm.state) == CountdownInProgress ==>
          && ExtensionRequested(game) && unchanged(sm)
          && unchanged(game`rackCounter, game`breakShot, game`menuValues, game`speaker5Count, game`pendingRackResult))
    && (old(sm.state) == ShotClockIdle && kind == NineBallRules && !old(game.breakShot) ==> RackStarted(sm, game))
    && (old(sm.state) == ShotClockIdle && kind == EightBallRules ==> ResultPending(sm, game, Win))
    && (old(sm.state) == ShotClockIdle && kind == NineBallRules && old(game.breakShot) ==>
          unchanged(sm) && unchanged(game))
    && (old(sm.state) == ShotClockIdle && kind == StandardRules ==> unchanged(sm) && unchanged(game))
    && (old(sm.state) != ShotClockIdle && old(sm.state) != CountdownInProgress ==>
          unchanged(sm) && unchanged(game))
  }

  /** `rules.handle_up`. */
  method HandleUp(kind: RulesKind, sm: StateMachine, game: GameStats)
    requires kind == NineBallRules ==> |game.menuValues| >= 2
    modifies sm`state, game`rackCounter, game`breakShot, game`player1, game`player2, game`menuValues,
      game`countdown, game`speaker5Count, game`pendingRackResult, game`extensionAvailable, game`extensionUsed
    ensures UpHandled(kind, sm, game)
  {
    var state := sm.state;
    if state == ShotClockIdle {
      if kind == NineBallRules {
        if !game.breakShot {
          StartRack(sm, game);
        }
      } else if kind == EightBallRules {
        AskConfirmation(sm, game, Win);
      }
    } else if state == CountdownInProgress {
      var _ := ProcessExtension(game);
    }
  }

  /**
   * The effect of `rules.handle_down`: a cancelled extension while the clock
   * runs, an undone rack (9-Ball) or a claimed loss (8-Ball) on the idle
   * screen, nothing otherwise.
   */
  twostate predicate DownHandled(kind: RulesKind, sm: StateMachine, game: GameStats)
    requires kind == NineBallRules ==> |old(game.menuValues)| >= 2
    reads sm, game
  {
    && (old(sm.state) == CountdownInProgress ==>
          && CancelRequested(game) && unchanged(sm)
          && unchanged(game`rackCounter, game`breakShot, game`menuValues, game`speaker5Count, game`pendingRackResult))
    && (old(sm.state) == ShotClockIdle && kind == NineBallRules && old(game.breakShot) ==> RackUndone(sm, game))
    && (old(sm.state) == ShotClockIdle && kind == EightBallRules ==> ResultPending(sm, game, Lose))
    && (old(sm.state) == ShotClockIdle && kind == NineBallRules && !old(game.breakShot) ==>
          unchanged(sm) && unchanged(game))
    && (old(sm.state) == ShotClockIdle && kind == StandardRules ==> unchanged(sm) && unchanged(game))
    && (old(sm.state) != ShotClockIdle && old(sm.state) != CountdownInProgress ==>
          unchanged(sm) && unchanged(game))
  }

  /** `rules.handle_down`. */
  method HandleDown(kind: RulesKind, sm: StateMachine, game: GameStats)
    requires kind == NineBallRules ==> |game.menuValues| >= 2
    modifies sm`state, game`rackCounter, game`breakShot, game`player1, game`player2, game`menuValues,
      game`countdown, game`speaker5Count, game`pendingRackResult, game`extensionAvailable, game`extensionUsed
    ensures DownHandled(kind, sm, game)
  {
    var state := sm.state;
    if state == ShotClockIdle {
      if kind == NineBallRules {
        if game.breakShot {
          UndoRack(sm, game);
        }
      } else if kind == EightBallRules {
        AskConfirmation(sm, game, Lose);
      }
    } else if state == CountdownInProgress {
      var _ := CancelExtension(game);
    }
  }
}
