/**
 * The two records every handler works on: the state machine (a single mode out
 * of a closed set, plus `game_on`) and the match record (scores, timers,
 * extension flags, menu and wizard scratch values).
 *
 * `inning_counter` is a float in the firmware whose `.5` marks the second
 * shooter of an inning; here it is `halfInnings`, twice that float, so that
 * `inning_counter += 0.5` becomes `halfInnings := halfInnings + 1`.
 */
module Models {
  import opened Wrappers

  /** The UI/game modes. */
  datatype State =
    | ProfileSelection
    | ApaSkillLevelP1
    | ApaSkillLevelP2
    | ApaGameTypeSelection
    | WntTargetSelection
    | ShotClockIdle
    | CountdownInProgress
    | CountdownComplete
    | Menu
    | EditingValue
    | ExitMatchConfirmation
    | ConfirmRackEnd
    | Victory
    | ShootoutAnnouncement
    | ShootoutP1Wait
    | ShootoutP1Running
    | ShootoutP2Wait
    | ShootoutP2Running

  /** The three modes in which a button press is delegated to the rules engine. */
  predicate IsGameplay(s: State)
  {
    s == ShotClockIdle || s == CountdownInProgress || s == CountdownComplete
  }

  /** The five steps of the Ultimate Pool shootout. */
  predicate IsShootout(s: State)
  {
    s == ShootoutAnnouncement || s == ShootoutP1Wait || s == ShootoutP1Running
    || s == ShootoutP2Wait || s == ShootoutP2Running
  }

  /** The modes that have a boolean accessor on the state machine (all but the shootout). */
  predicate HasAccessor(s: State)
  {
    !IsShootout(s)
  }

  /** Match profiles known to the firmware (the value of `selected_profile`). */
  datatype Profile = Apa | Bca | Wnt | TimeoutsMode | UltimatePool

  /** The profiles whose racks reset per-player timeouts (["APA", "WNT", "BCA", "Ultimate Pool"]). */
  predicate TracksRackStats(p: Option<Profile>)
  {
    p == Some(Apa) || p == Some(Wnt) || p == Some(Bca) || p == Some(UltimatePool)
  }

  /** `match_type`: "8-Ball" or "9-Ball". */
  datatype MatchType = EightBall | NineBall

  /** The rules strategy held in `game.rules`: a closed sum type instead of three subclasses. */
  datatype RulesKind = StandardRules | EightBallRules | NineBallRules

  /** `pending_rack_result`: "win" or "lose". */
  datatype RackResult = Win | Lose

  /** Entries of `menu_items`. */
  datatype MenuItem = Inning | Rack | ExitMatch | Mute | P1 | P2

  /**
   * A Python value held in `menu_values` or `temp_setting_value`: `None`, an
   * integer, or a boolean.
   */
  datatype Setting = Unset | Num(n: int) | Flag(b: bool)

  /** Python's `int(v)` for an integer or a boolean (`int(None)` raises). */
  function IntOf(v: Setting): int
    requires !v.Unset?
  {
    match v
    case Num(n) => n
    case Flag(b) => if b then 1 else 0
  }

  /** Python's `v == k` for an integer `k`: booleans compare as 0 and 1, `None` equals no integer. */
  predicate EqualsInt(v: Setting, k: int)
  {
    !v.Unset? && IntOf(v) == k
  }

  /** Python's truthiness of `v`. */
  predicate Truthy(v: Setting)
  {
    match v
    case Unset => false
    case Num(n) => n != 0
    case Flag(b) => b
  }

  /** One entry of `game_profiles`. */
  datatype ProfileTiming = ProfileTiming(timerDuration: int, extensionDuration: int)

  /** An APA 8-Ball race entry `[p1_target, p2_target]`. */
  datatype Race = Race(first: int, second: int)

  /** An APA `timeouts` table: the entries under the keys "3" and "4". */
  datatype TimeoutTable = TimeoutTable(upToThree: int, fourAndUp: int)

  /**
   * The rules for one APA match type. Skill-level keys ("<skill>") are the
   * decimal strings of integers and are keyed here by the integer itself.
   * `otherKeys` records that the JSON object has keys besides these three,
   * which matters only because an empty object is falsy.
   */
  datatype ApaRules = ApaRules(
    targets: Option<map<int, int>>,
    raceGrid: Option<map<int, map<int, Race>>>,
    timeouts: Option<TimeoutTable>,
    otherKeys: bool)
  {
    /** Python's `not match_rules`: the object has no keys at all. */
    predicate IsEmpty()
    {
      targets.None? && raceGrid.None? && timeouts.None? && !otherKeys
    }
  }

  /** The "WNT" section. */
  datatype WntConfig = WntConfig(targets: Option<seq<int>>, timeouts: Option<int>)

  /** The "BCA" and "Ultimate Pool" sections. */
  datatype FixedTargetConfig = FixedTargetConfig(target: Option<int>, timeouts: Option<int>)

  /** The parsed rules configuration; an absent section reads as empty. */
  datatype RulesConfig = RulesConfig(
    apa: map<MatchType, ApaRules>,
    wnt: WntConfig,
    bca: FixedTargetConfig,
    ultimate: FixedTargetConfig)

  /** Python's `max(a, b)`. */
  function Max(a: int, b: int): int
  {
    if a >= b then a else b
  }

  /** Python's `min(a, b)`. */
  function Min(a: int, b: int): int
  {
    if a <= b then a else b
  }

  /** Python's `int(inning_counter)` for `inning_counter == h / 2` (truncation toward zero). */
  function InningOf(h: int): int
  {
    if h >= 0 then h / 2 else -((-h) / 2)
  }

  /** Python's `i % n` for a positive `n`: the index `i` wrapped into `[0, n)`. */
  function Wrap(i: int, n: int): (r: int)
    requires n > 0
    ensures 0 <= r < n
    ensures 0 <= i < n ==> r == i
    ensures i == -1 ==> r == n - 1
    ensures i == n ==> r == 0
  {
    i % n
  }

  /** Stepping back one place and then forward one place returns to the same index. */
  lemma WrapBackForth(i: int, n: int)
    requires n > 0 && 0 <= i < n
    ensures Wrap(Wrap(i - 1, n) + 1, n) == i
    ensures Wrap(Wrap(i + 1, n) - 1, n) == i
  {
    if i == 0 {
      assert Wrap(i - 1, n) == n - 1;
    }
    if i == n - 1 {
      assert Wrap(i + 1, n) == 0;
    }
  }

  /** The first position of `x` in `s` (Python's `s.index(x)`). */
  function IndexOf<T(==)>(s: seq<T>, x: T): (k: nat)
    requires x in s
    ensures k < |s| && s[k] == x
    ensures forall j :: 0 <= j < k ==> s[j] != x
  {
    if s[0] == x then 0 else 1 + IndexOf(s[1..], x)
  }

  class StateMachine {
    var state: State
    var gameOn: bool

    constructor (initial: State)
      ensures state == initial && !gameOn
    {
      state := initial;
      gameOn := false;
    }

    method UpdateState(s: State)
      modifies `state
      ensures state == s
      ensures HasAccessor(s) ==> Accessor(s)
      ensures forall t :: HasAccessor(t) && t != s ==> !Accessor(t)
    {
      state := s;
    }

    /** `reset`: back to the initial mode with no game on, from any mode. */
    method Reset()
      modifies this
      ensures state == ProfileSelection && !gameOn
    {
      state := ProfileSelection;
      gameOn := false;
    }

    predicate IsProfileSelection() reads this { state == ProfileSelection }
    predicate IsApaSkillLevelP1() reads this { state == ApaSkillLevelP1 }
    predicate IsApaSkillLevelP2() reads this { state == ApaSkillLevelP2 }
    predicate IsApaGameTypeSelection() reads this { state == ApaGameTypeSelection }
    predicate IsWntTargetSelection() reads this { state == WntTargetSelection }
    predicate IsShotClockIdle() reads this { state == ShotClockIdle }
    predicate IsCountdownInProgress() reads this { state == CountdownInProgress }
    predicate IsCountdownComplete() reads this { state == CountdownComplete }
    predicate IsMenu() reads this { state == Menu }
    predicate IsEditingValue() reads this { state == EditingValue }
    predicate IsExitMatchConfirmation() reads this { state == ExitMatchConfirmation }
    predicate IsConfirmRackEnd() reads this { state == ConfirmRackEnd }
    predicate IsVictory() reads this { state == Victory }

    /** The accessor that belongs to mode `s`. */
    predicate Accessor(s: State)
      requires HasAccessor(s)
      reads this
    {
      match s
      case ProfileSelection => IsProfileSelection()
      case ApaSkillLevelP1 => IsApaSkillLevelP1()
      case ApaSkillLevelP2 => IsApaSkillLevelP2()
      case ApaGameTypeSelection => IsApaGameTypeSelection()
      case WntTargetSelection => IsWntTargetSelection()
      case ShotClockIdle => IsShotClockIdle()
      case CountdownInProgress => IsCountdownInProgress()
      case CountdownComplete => IsCountdownComplete()
      case Menu => IsMenu()
      case EditingValue => IsEditingValue()
      case ExitMatchConfirmation => IsExitMatchConfirmation()
      case ConfirmRackEnd => IsConfirmRackEnd()
      case Victory => IsVictory()
    }

  }

  /**
   * One side's `player_N_*` attributes. The firmware keeps them as parallel
   * attributes per player; here each side is one value.
   */
  datatype Player = Player(
    extensionAvailable: bool,
    skillLevel: int,
    score: int,
    target: int,
    timeoutsPerRack: int,
    timeoutsRemaining: int)

  /** A side as `_set_defaults` leaves it: nothing scored or allotted, the extension still available. */
  const FreshPlayer := Player(true, 0, 0, 0, 0, 0)

  /** The Ultimate Pool shootout stopwatch: the tick the running stopwatch started at and both players' times (ms). */
  datatype ShootoutClock = ShootoutClock(startTick: int, p1Time: int, p2Time: int)

  class GameStats {
    var speakerMuted: Setting
    var rulesConfig: RulesConfig

    var rules: Option<RulesKind>
    var pendingRackResult: Option<RackResult>
    var profileBasedCountdown: int
    var countdown: int
    var extensionDuration: int
    var extensionAvailable: bool
    var extensionUsed: bool
    var player1: Player
    var player2: Player
    var matchType: MatchType
    var halfInnings: int
    var rackCounter: int
    var breakShot: bool
    var speaker5Count: int
    var gameProfiles: map<Profile, ProfileTiming>
    var profileNames: seq<Profile>
    var selectedProfile: Option<Profile>
    var timeoutsOnly: bool
    var menuItems: seq<MenuItem>
    var menuValues: seq<Setting>
    var currentMenuIndex: int
    var currentMenuSelection: seq<Option<MenuItem>>
    var currentMenuValues: seq<Setting>
    var profileSelectionIndex: int
    var tempSettingValue: Setting
    var matchCountdown: int
    var matchTimerRunning: bool
    var winner: int
    var shootout: ShootoutClock

    /** The match record as `_set_defaults` leaves it; `speakerMuted` and `rulesConfig` are not part of it. */
    ghost predicate AtDefaults()
      reads this
    {
      ClockAtDefaults() && TurnAtDefaults() && SetupAtDefaults() && MenuAtDefaults()
    }

    /** Shot clock and extension: no rule set, no pending result, clocks at zero, extension available. */
    ghost predicate ClockAtDefaults()
      reads `rules, `pendingRackResult, `profileBasedCountdown, `countdown, `extensionDuration,
        `extensionAvailable, `extensionUsed
    {
      && rules.None? && pendingRackResult.None?
      && profileBasedCountdown == 0 && countdown == 0 && extensionDuration == 0
      && extensionAvailable && !extensionUsed
    }

    /** Turn and player bookkeeping: inning 1, rack 1, a break shot pending, both sides fresh. */
    ghost predicate TurnAtDefaults()
      reads `halfInnings, `rackCounter, `breakShot, `speaker5Count, `player1, `player2
    {
      && halfInnings == 2 && rackCounter == 1 && breakShot && speaker5Count == 4
      && player1 == FreshPlayer && player2 == FreshPlayer
    }

    /** Profile selection, wizard scratch value, match clock and shootout. */
    ghost predicate SetupAtDefaults()
      reads `matchType, `gameProfiles, `profileNames, `selectedProfile, `timeoutsOnly,
        `profileSelectionIndex, `tempSettingValue, `matchCountdown, `matchTimerRunning, `winner, `shootout
    {
      && matchType == NineBall
      && gameProfiles == DefaultProfiles() && profileNames == [Apa, Bca, Wnt, TimeoutsMode]
      && selectedProfile.None? && !timeoutsOnly
      && profileSelectionIndex == 0 && tempSettingValue.Unset?
      && matchCountdown == 0 && !matchTimerRunning && winner == 0
      && shootout == ShootoutClock(0, 0, 0)
    }

    /** The in-match menu: Inning, Rack, Exit Match, Mute with the cursor on Inning. */
    ghost predicate MenuAtDefaults()
      reads `menuItems, `menuValues, `currentMenuIndex, `currentMenuSelection, `currentMenuValues, `speakerMuted
    {
      && menuItems == [Inning, Rack, ExitMatch, Mute]
      && menuValues == [Num(1), Num(1), Unset, speakerMuted]
      && currentMenuIndex == 0
      && currentMenuSelection == [None, Some(Inning), None]
      && currentMenuValues == [Unset, Num(1), Unset]
    }

    constructor (config: RulesConfig)
      ensures AtDefaults() && speakerMuted == Flag(false) && rulesConfig == config
    {
      speakerMuted := Flag(false);
      rulesConfig := config;
      new;
      SetDefaults();
    }

    /** `_set_defaults`. */
    method SetDefaults()
      modifies `rules, `pendingRackResult, `profileBasedCountdown, `countdown, `extensionDuration,
        `extensionAvailable, `extensionUsed, `halfInnings, `rackCounter, `breakShot, `speaker5Count,
        `player1, `player2, `matchType, `gameProfiles, `profileNames, `selectedProfile, `timeoutsOnly,
        `profileSelectionIndex, `tempSettingValue, `matchCountdown, `matchTimerRunning, `winner, `shootout,
        `menuItems, `menuValues, `currentMenuIndex, `currentMenuSelection, `currentMenuValues
      ensures AtDefaults()
    {
      SetClockAndTurnDefaults();
      SetSetupAndMenuDefaults();
    }

    method SetClockAndTurnDefaults()
      modifies `rules, `pendingRackResult, `profileBasedCountdown, `countdown, `extensionDuration,
        `extensionAvailable, `extensionUsed, `halfInnings, `rackCounter, `breakShot, `speaker5Count,
        `player1, `player2
      ensures rules.None? && pendingRackResult.None?
      ensures profileBasedCountdown == 0 && countdown == 0 && extensionDuration == 0
      ensures extensionAvailable && !extensionUsed
      ensures halfInnings == 2 && rackCounter == 1 && breakShot && speaker5Count == 4
      ensures player1 == FreshPlayer && player2 == FreshPlayer
    {
      SetClockDefaults();
      SetTurnDefaults();
    }

    method SetClockDefaults()
      modifies `rules, `pendingRackResult, `profileBasedCountdown, `countdown, `extensionDuration,
        `extensionAvailable, `extensionUsed
      ensures ClockAtDefaults()
    {
      rules := None;
      pendingRackResult := None;
      profileBasedCountdown := 0;
      countdown := 0;
      extensionDuration := 0;
      extensionAvailable := true;
      extensionUsed := false;
    }

    method SetTurnDefaults()
      modifies `halfInnings, `rackCounter, `breakShot, `speaker5Count, `player1, `player2
      ensures TurnAtDefaults()
    {
      player1 := FreshPlayer;
      player2 := FreshPlayer;
      halfInnings := 2;
      rackCounter := 1;
      breakShot := true;
      speaker5Count := 4;
    }

    method SetSetupAndMenuDefaults()
      requires halfInnings == 2 && rackCounter == 1
      modifies `matchType, `gameProfiles, `profileNames, `selectedProfile, `timeoutsOnly,
        `profileSelectionIndex, `tempSettingValue, `matchCountdown, `matchTimerRunning, `winner, `shootout,
        `menuItems, `menuValues, `currentMenuIndex, `currentMenuSelection, `currentMenuValues
      ensures SetupAtDefaults() && MenuAtDefaults()
    {
      SetSetupDefaults();
      SetMenuDefaults();
    }

    method SetSetupDefaults()
      modifies `matchType, `gameProfiles, `profileNames, `selectedProfile, `timeoutsOnly,
        `profileSelectionIndex, `tempSettingValue, `matchCountdown, `matchTimerRunning, `winner, `shootout
      ensures SetupAtDefaults()
    {
      matchType := NineBall;
      gameProfiles := DefaultProfiles();
      profileNames := [Apa, Bca, Wnt, TimeoutsMode];
      selectedProfile := None;
      timeoutsOnly := false;
      profileSelectionIndex := 0;
      tempSettingValue := Unset;
      matchCountdown := 0;
      matchTimerRunning := false;
      winner := 0;
      shootout := ShootoutClock(0, 0, 0);
    }

    /** The menu is built from the inning and rack counters, which must already be at their defaults. */
    method SetMenuDefaults()
      requires halfInnings == 2 && rackCounter == 1
      modifies `menuItems, `menuValues, `currentMenuIndex, `currentMenuSelection, `currentMenuValues
      ensures MenuAtDefaults()
    {
      menuItems := [Inning, Rack, ExitMatch, Mute];
      menuValues := [Num(InningOf(halfInnings)), Num(rackCounter), Unset, speakerMuted];
      currentMenuIndex := 0;
      currentMenuSelection := [None, Some(menuItems[currentMenuIndex]), None];
      currentMenuValues := [Unset, menuValues[currentMenuIndex], Unset];
    }

    /** `reset`: every default restored, the mute setting (and the loaded configuration) kept. */
    method Reset()
      modifies `rules, `pendingRackResult, `profileBasedCountdown, `countdown, `extensionDuration,
        `extensionAvailable, `extensionUsed, `halfInnings, `rackCounter, `breakShot, `speaker5Count,
        `player1, `player2, `matchType, `gameProfiles, `profileNames, `selectedProfile, `timeoutsOnly,
        `profileSelectionIndex, `tempSettingValue, `matchCountdown, `matchTimerRunning, `winner, `shootout,
        `menuItems, `menuValues, `currentMenuIndex, `currentMenuSelection, `currentMenuValues
      ensures AtDefaults()
      ensures speakerMuted == old(speakerMuted) && rulesConfig == old(rulesConfig)
    {
      SetDefaults();
    }

    /** Player 1 shoots in the first half of an inning (whole `inning_counter`). */
    predicate Player1Shooting()
      reads `halfInnings
    {
      halfInnings % 2 == 0
    }

    /** Player 2 shoots in the second half of an inning (`inning_counter` ends in `.5`). */
    predicate Player2Shooting()
      reads `halfInnings
    {
      halfInnings % 2 == 1
    }

    /** The player at the table: 1 in the first half of an inning, 2 in the second. */
    function ShooterIndex(): (p: int)
      reads `halfInnings
      ensures p == 1 || p == 2
      ensures p == 1 <==> Player1Shooting()
      ensures p == 2 <==> Player2Shooting()
    {
      if halfInnings % 2 == 0 then 1 else 2
    }

    /** Player `p`'s attributes. */
    function PlayerOf(p: int): Player
      requires p == 1 || p == 2
      reads `player1, `player2
    {
      if p == 1 then player1 else player2
    }

    /** Player `p`'s score. */
    function Score(p: int): int
      requires p == 1 || p == 2
      reads `player1, `player2
    {
      PlayerOf(p).score
    }

    /** `add_score(p, n)`: player `p` gains `n` points, which the score entries of the menu show. */
    method AddScore(p: int, n: int)
      requires p == 1 || p == 2
      requires |menuValues| >= 2
      modifies `player1, `player2, `menuValues
      ensures PlayerOf(p) == old(PlayerOf(p)).(score := old(Score(p)) + n)
      ensures PlayerOf(3 - p) == old(PlayerOf(3 - p))
      ensures menuValues == old(menuValues)[p - 1 := Num(Score(p))]
    {
      if p == 1 {
        player1 := player1.(score := player1.score + n);
        menuValues := menuValues[0 := Num(player1.score)];
      } else {
        player2 := player2.(score := player2.score + n);
        menuValues := menuValues[1 := Num(player2.score)];
      }
    }

    /** `set_score(p, v)`: player `p`'s score becomes `v`, mirrored in the menu. */
    method SetScore(p: int, v: int)
      requires p == 1 || p == 2
      requires |menuValues| >= 2
      modifies `player1, `player2, `menuValues
      ensures PlayerOf(p) == old(PlayerOf(p)).(score := v)
      ensures PlayerOf(3 - p) == old(PlayerOf(3 - p))
      ensures menuValues == old(menuValues)[p - 1 := Num(v)]
    {
      if p == 1 {
        player1 := player1.(score := v);
      } else {
        player2 := player2.(score := v);
      }
      menuValues := menuValues[p - 1 := Num(v)];
    }

    /** `reset_rack_stats`: each player's timeouts are refilled to the per-rack allotment. */
    method ResetRackStats()
      modifies `player1, `player2
      ensures player1 == old(player1).(timeoutsRemaining := player1.timeoutsPerRack)
      ensures player2 == old(player2).(timeoutsRemaining := player2.timeoutsPerRack)
    {
      player1 := player1.(timeoutsRemaining := player1.timeoutsPerRack);
      player2 := player2.(timeoutsRemaining := player2.timeoutsPerRack);
    }

    /**
     * `update_menu_selection` without its drawing: the previous, current and
     * next menu entries, with indices wrapped around the menu length.
     */
    method UpdateMenuSelection()
      requires 0 <= currentMenuIndex < |menuItems|
      requires Wrap(currentMenuIndex - 1, |menuItems|) < |menuValues|
      requires currentMenuIndex < |menuValues|
      requires Wrap(currentMenuIndex + 1, |menuItems|) < |menuValues|
      modifies `currentMenuSelection, `currentMenuValues
      ensures currentMenuSelection == NeighbourItems(menuItems, currentMenuIndex)
      ensures currentMenuValues ==
        [menuValues[Wrap(currentMenuIndex - 1, |menuItems|)], menuValues[currentMenuIndex],
         menuValues[Wrap(currentMenuIndex + 1, |menuItems|)]]
    {
      var n := |menuItems|;
      var prev := (currentMenuIndex - 1) % n;
      var next := (currentMenuIndex + 1) % n;
      currentMenuSelection := [Some(menuItems[prev]), Some(menuItems[currentMenuIndex]), Some(menuItems[next])];
      currentMenuValues := [menuValues[prev], menuValues[currentMenuIndex], menuValues[next]];
    }
  }

  /** The entries before, at and after index `i` of a circular menu. */
  function NeighbourItems<T>(items: seq<T>, i: int): (r: seq<Option<T>>)
    requires 0 <= i < |items|
    ensures |r| == 3 && r[1] == Some(items[i])
  {
    [Some(items[Wrap(i - 1, |items|)]), Some(items[i]), Some(items[Wrap(i + 1, |items|)])]
  }

  /** At the first entry the previous one is the last entry; at the last entry the next one is the first. */
  lemma NeighboursWrapAround<T>(items: seq<T>)
    requires |items| >= 2
    ensures NeighbourItems(items, 0) == [Some(items[|items| - 1]), Some(items[0]), Some(items[1])]
    ensures NeighbourItems(items, |items| - 1) == [Some(items[|items| - 2]), Some(items[|items| - 1]), Some(items[0])]
  {
    assert Wrap(-1, |items|) == |items| - 1;
    assert Wrap(|items|, |items|) == 0;
  }

  /** The `game_profiles` table: shot-clock seconds and extension seconds per profile. */
  function DefaultProfiles(): map<Profile, ProfileTiming>
  {
    map[Apa := ProfileTiming(20, 25), Wnt := ProfileTiming(30, 30),
        Bca := ProfileTiming(45, 45), TimeoutsMode := ProfileTiming(60, 0)]
  }

}
