/**
 * The match-setup wizards: per-profile initialisation, the APA skill-level and
 * game-type screens, the WNT race-length screen, and the APA target and
 * timeout lookup in the rules configuration.
 */
module ButtonSetup {
  import opened Wrappers
  import opened Models
  import opened UiGameplay

  // ---------------------------------------------------------------------
  // APA targets and timeouts
  // ---------------------------------------------------------------------

  /** The race used when the configuration has no entry for the players. */
  const FallbackTarget := 14

  /** The timeout table used when the APA section has no "timeouts" entry. */
  const DefaultTimeoutTable := TimeoutTable(2, 1)

  /** Whether the configuration has a non-empty APA section for this match type. */
  predicate HasApaRules(config: RulesConfig, matchType: MatchType)
  {
    matchType in config.apa && !config.apa[matchType].IsEmpty()
  }

  /** 9-Ball: each player's target is the one listed for their own skill level, or 14/14 if either is missing. */
  function NineBallTargets(rules: ApaRules, sl1: int, sl2: int): (t: Race)
    ensures rules.targets.Some? && sl1 in rules.targets.value && sl2 in rules.targets.value ==>
      t == Race(rules.targets.value[sl1], rules.targets.value[sl2])
    ensures !(rules.targets.Some? && sl1 in rules.targets.value && sl2 in rules.targets.value) ==>
      t == Race(FallbackTarget, FallbackTarget)
  {
    match rules.targets
    case Some(targets) =>
      if sl1 in targets && sl2 in targets then Race(targets[sl1], targets[sl2])
      else Race(FallbackTarget, FallbackTarget)
    case None => Race(FallbackTarget, FallbackTarget)
  }

  /** 8-Ball skill levels run from 2 to 7; anything outside is moved to the nearer end. */
  function ClampEightBallSkill(sl: int): (r: int)
    ensures 2 <= r <= 7
    ensures 2 <= sl <= 7 ==> r == sl
    ensures sl < 2 ==> r == 2
    ensures sl > 7 ==> r == 7
  {
    Max(2, Min(7, sl))
  }

  /** Whether the race grid has an entry for this (already clamped) pairing. */
  predicate HasRace(rules: ApaRules, c1: int, c2: int)
  {
    rules.raceGrid.Some? && c1 in rules.raceGrid.value && c2 in rules.raceGrid.value[c1]
  }

  /** 8-Ball: the race of the clamped pairing from the grid, or 14/14 if the grid has none. */
  function EightBallTargets(rules: ApaRules, sl1: int, sl2: int): (t: Race)
    ensures HasRace(rules, ClampEightBallSkill(sl1), ClampEightBallSkill(sl2)) ==>
      t == rules.raceGrid.value[ClampEightBallSkill(sl1)][ClampEightBallSkill(sl2)]
    ensures !HasRace(rules, ClampEightBallSkill(sl1), ClampEightBallSkill(sl2)) ==>
      t == Race(FallbackTarget, FallbackTarget)
  {
    var c1 := ClampEightBallSkill(sl1);
    var c2 := ClampEightBallSkill(sl2);
    if HasRace(rules, c1, c2) then rules.raceGrid.value[c1][c2] else Race(FallbackTarget, FallbackTarget)
  }

  /** The 8-Ball race depends only on the clamped skill levels. */
  lemma EightBallTargetsClamped(rules: ApaRules, sl1: int, sl2: int)
    ensures EightBallTargets(rules, sl1, sl2)
      == EightBallTargets(rules, ClampEightBallSkill(sl1), ClampEightBallSkill(sl2))
  {
  }

  /** Timeouts per rack for a skill level: the "3" entry up to level 3, the "4" entry above. */
  function TimeoutsFor(table: TimeoutTable, sl: int): int
  {
    if sl <= 3 then table.upToThree else table.fourAndUp
  }

  /** Both players' targets and their timeouts per rack. */
  datatype Allotment = Allotment(targets: Race, timeouts1: int, timeouts2: int)

  /** What `calculate_apa_targets` assigns, as a function of the configuration and the two skill levels. */
  function ApaAllotment(config: RulesConfig, matchType: MatchType, sl1: int, sl2: int): (a: Allotment)
    ensures !HasApaRules(config, matchType) ==> a == Allotment(Race(FallbackTarget, FallbackTarget), 1, 1)
    ensures HasApaRules(config, matchType) && matchType == NineBall ==>
      a.targets == NineBallTargets(config.apa[matchType], sl1, sl2)
    ensures HasApaRules(config, matchType) && matchType == EightBall ==>
      a.targets == EightBallTargets(config.apa[matchType], sl1, sl2)
    ensures HasApaRules(config, matchType) ==>
      var table := config.apa[matchType].timeouts.GetOr(DefaultTimeoutTable);
      && (sl1 <= 3 ==> a.timeouts1 == table.upToThree) && (sl1 > 3 ==> a.timeouts1 == table.fourAndUp)
      && (sl2 <= 3 ==> a.timeouts2 == table.upToThree) && (sl2 > 3 ==> a.timeouts2 == table.fourAndUp)
  {
    if !HasApaRules(config, matchType) then
      Allotment(Race(FallbackTarget, FallbackTarget), 1, 1)
    else
      var rules := config.apa[matchType];
      var targets := if matchType == NineBall then NineBallTargets(rules, sl1, sl2) else EightBallTargets(rules, sl1, sl2);
      var table := rules.timeouts.GetOr(DefaultTimeoutTable);
      Allotment(targets, TimeoutsFor(table, sl1), TimeoutsFor(table, sl2))
  }

  /**
   * `calculate_apa_targets`: both targets and timeout allotments from the
   * configuration, and each player's remaining timeouts refilled.
   */
  method CalculateApaTargets(game: GameStats)
    modifies game`player1, game`player2
    ensures var a := ApaAllotment(game.rulesConfig, game.matchType, old(game.player1.skillLevel), old(game.player2.skillLevel));
      && game.player1 == old(game.player1).(target := a.targets.first, timeoutsPerRack := a.timeouts1, timeoutsRemaining := a.timeouts1)
      && game.player2 == old(game.player2).(target := a.targets.second, timeoutsPerRack := a.timeouts2, timeoutsRemaining := a.timeouts2)
  {
    if !(game.matchType in game.rulesConfig.apa) || game.rulesConfig.apa[game.matchType].IsEmpty() {
      game.player1 := game.player1.(target := FallbackTarget, timeoutsPerRack := 1, timeoutsRemaining := 1);
      game.player2 := game.player2.(target := FallbackTarget, timeoutsPerRack := 1, timeoutsRemaining := 1);
      return;
    }
    var rules := game.rulesConfig.apa[game.matchType];
    var sl1, sl2 := game.player1.skillLevel, game.player2.skillLevel;
    var t1, t2 := FallbackTarget, FallbackTarget;
    if game.matchType == NineBall {
      if rules.targets.Some? && sl1 in rules.targets.value && sl2 in rules.targets.value {
        t1, t2 := rules.targets.value[sl1], rules.targets.value[sl2];
      }
    } else {
      var c1 := Max(2, Min(7, sl1));
      var c2 := Max(2, Min(7, sl2));
      if rules.raceGrid.Some? && c1 in rules.raceGrid.value && c2 in rules.raceGrid.value[c1] {
        var race := rules.raceGrid.value[c1][c2];
        t1, t2 := race.first, race.second;
      }
    }
    var table := rules.timeouts.GetOr(DefaultTimeoutTable);
    var k1 := if sl1 <= 3 then table.upToThree else table.fourAndUp;
    var k2 := if sl2 <= 3 then table.upToThree else table.fourAndUp;
    game.player1 := game.player1.(target := t1, timeoutsPerRack := k1, timeoutsRemaining := k1);
    game.player2 := game.player2.(target := t2, timeoutsPerRack := k2, timeoutsRemaining := k2);
  }

  // ---------------------------------------------------------------------
  // Pure value steps of the wizard screens
  // ---------------------------------------------------------------------

  /** UP on a skill-level screen: 1, 2, ..., 9, then back to 1. */
  function SkillUp(v: int): (r: int)
    ensures 1 <= r <= 9
    ensures 1 <= v < 9 ==> r == v + 1
    ensures v == 9 ==> r == 1
  {
    (v % 9) + 1
  }

  /** DOWN on a skill-level screen: one less, wrapping from 1 (or below) to 9. */
  function SkillDown(v: int): (r: int)
    ensures v <= 1 ==> r == 9
    ensures v > 1 ==> r == v - 1
    ensures 1 <= v <= 10 ==> 1 <= r <= 9
  {
    if v - 1 < 1 then 9 else v - 1
  }

  /** On the levels 1 to 9, UP and DOWN undo each other. */
  lemma SkillUpDownInverse(v: int)
    requires 1 <= v <= 9
    ensures SkillDown(SkillUp(v)) == v
    ensures SkillUp(SkillDown(v)) == v
  {
  }

  /** UP or DOWN on the game-type screen: 0 (8-Ball) and 1 (9-Ball) swap. */
  function GameTypeToggle(v: int): (r: int)
    ensures v == 0 ==> r == 1
    ensures v == 1 ==> r == 0
  {
    1 - v
  }

  /** Toggling twice gives back the original choice. */
  lemma GameTypeToggleInvolution(v: int)
    ensures GameTypeToggle(GameTypeToggle(v)) == v
  {
  }

  /** The WNT race lengths offered when the configuration lists none. */
  function DefaultWntTargets(): seq<int>
  {
    [5, 7, 9, 11, 13]
  }

  /** The WNT race lengths in the configuration. */
  function WntTargets(config: RulesConfig): seq<int>
  {
    config.wnt.targets.GetOr(DefaultWntTargets())
  }

  /** The race length the WNT screen opens on: the third entry, or the first of a shorter list. */
  function WntInitialTarget(targets: seq<int>): (r: int)
    requires |targets| > 0
    ensures r in targets
    ensures |targets| > 2 ==> r == targets[2]
    ensures |targets| <= 2 ==> r == targets[0]
  {
    if |targets| > 2 then targets[2] else targets[0]
  }

  /** UP on the WNT screen: the next entry of the list (cyclically), or the first if `v` is not listed. */
  function WntNext(targets: seq<int>, v: int): (r: int)
    requires |targets| > 0
    ensures r in targets
    ensures v in targets ==> r == targets[Wrap(IndexOf(targets, v) + 1, |targets|)]
    ensures v !in targets ==> r == targets[0]
  {
    if v in targets then targets[(IndexOf(targets, v) + 1) % |targets|] else targets[0]
  }

  /** DOWN on the WNT screen: the previous entry (cyclically), or the last if `v` is not listed. */
  function WntPrev(targets: seq<int>, v: int): (r: int)
    requires |targets| > 0
    ensures r in targets
    ensures v in targets ==> r == targets[Wrap(IndexOf(targets, v) - 1, |targets|)]
    ensures v !in targets ==> r == targets[|targets| - 1]
  {
    if v in targets then targets[(IndexOf(targets, v) - 1) % |targets|] else targets[|targets| - 1]
  }

  /** No race length is listed twice. */
  predicate Distinct(s: seq<int>)
  {
    forall i, j :: 0 <= i < j < |s| ==> s[i] != s[j]
  }

  /** In a list without repeats, the first position of the entry at `k` is `k`. */
  lemma IndexOfDistinct(s: seq<int>, k: int)
    requires Distinct(s) && 0 <= k < |s|
    ensures IndexOf(s, s[k]) == k
  {
  }

  /** On a list without repeats, DOWN undoes UP and UP undoes DOWN for every listed value. */
  lemma WntNextPrevInverse(targets: seq<int>, v: int)
    requires |targets| > 0 && Distinct(targets) && v in targets
    ensures WntPrev(targets, WntNext(targets, v)) == v
    ensures WntNext(targets, WntPrev(targets, v)) == v
  {
    var n := |targets|;
    var i: int := IndexOf(targets, v);
    var up := Wrap(i + 1, n);
    var down := Wrap(i - 1, n);
    IndexOfDistinct(targets, up);
    IndexOfDistinct(targets, down);
    WrapBackForth(i, n);
  }

  /** UP on the WNT screen when the list cannot be loaded: 1, 2, ..., 20, then back to 1. */
  function WntFallbackUp(v: int): (r: int)
    ensures 1 <= r <= 20
    ensures 0 <= v < 20 ==> r == v + 1
  {
    (v % 20) + 1
  }

  /** DOWN on the WNT screen when the list cannot be loaded: one less, never below 1. */
  function WntFallbackDown(v: int): (r: int)
    ensures r >= 1
    ensures v > 1 ==> r == v - 1
  {
    Max(1, v - 1)
  }

  // ---------------------------------------------------------------------
  // Profile initialisation
  // ---------------------------------------------------------------------

  /** The effect of `init_apa_selection`: the skill-level screen for player 1, starting at level 3. */
  predicate ApaSetupOpened(sm: StateMachine, game: GameStats)
    reads sm`state, game`tempSettingValue
  {
    sm.state == ApaSkillLevelP1 && game.tempSettingValue == Num(3)
  }

  /** `init_apa_selection`. */
  method InitApaSelection(sm: StateMachine, game: GameStats)
    modifies sm`state, game`tempSettingValue
    ensures ApaSetupOpened(sm, game)
  {
    sm.UpdateState(ApaSkillLevelP1);
    game.tempSettingValue := Num(3);
  }

  /**
   * The effect of `init_wnt_selection`: the race-length screen on its initial
   * entry, and the configured timeouts per rack for both players.
   */
  twostate predicate WntSetupOpened(sm: StateMachine, game: GameStats)
    requires |WntTargets(old(game.rulesConfig))| > 0
    reads sm, game
  {
    && sm.state == WntTargetSelection
    && game.tempSettingValue == Num(WntInitialTarget(WntTargets(old(game.rulesConfig))))
    && game.player1 == old(game.player1).(timeoutsPerRack := old(game.rulesConfig).wnt.timeouts.GetOr(1))
    && game.player2 == old(game.player2).(timeoutsPerRack := old(game.rulesConfig).wnt.timeouts.GetOr(1))
  }

  /** `init_wnt_selection`. */
  method InitWntSelection(sm: StateMachine, game: GameStats)
    requires |WntTargets(game.rulesConfig)| > 0
    modifies sm`state, game`tempSettingValue, game`player1, game`player2
    ensures WntSetupOpened(sm, game)
  {
    sm.UpdateState(WntTargetSelection);
    var targets := game.rulesConfig.wnt.targets.GetOr([5, 7, 9, 11, 13]);
    game.tempSettingValue := Num(if |targets| > 2 then targets[2] else targets[0]);
    var timeouts := game.rulesConfig.wnt.timeouts.GetOr(1);
    game.player1 := game.player1.(timeoutsPerRack := timeouts);
    game.player2 := game.player2.(timeoutsPerRack := timeouts);
  }

  /** `set_score(1, 0)` then `set_score(2, 0)`. */
  method ZeroScores(game: GameStats)
    requires |game.menuValues| >= 2
    modifies game`player1, game`player2, game`menuValues
    ensures game.player1 == old(game.player1).(score := 0)
    ensures game.player2 == old(game.player2).(score := 0)
    ensures game.menuValues == old(game.menuValues)[0 := Num(0)][1 := Num(0)]
  {
    game.SetScore(1, 0);
    game.SetScore(2, 0);
  }

  /**
   * The player set-up the BCA, WNT and Ultimate Pool profiles share: targets
   * and timeouts per rack assigned, `reset_rack_stats`, both scores zeroed.
   */
  method StartSides(game: GameStats, target1: int, target2: int, timeouts: int)
    requires |game.menuValues| >= 2
    modifies game`player1, game`player2, game`menuValues
    ensures game.player1 == old(game.player1).(target := target1, timeoutsPerRack := timeouts, timeoutsRemaining := timeouts, score := 0)
    ensures game.player2 == old(game.player2).(target := target2, timeoutsPerRack := timeouts, timeoutsRemaining := timeouts, score := 0)
    ensures game.menuValues == old(game.menuValues)[0 := Num(0)][1 := Num(0)]
  {
    game.player1 := game.player1.(target := target1, timeoutsPerRack := timeouts);
    game.player2 := game.player2.(target := target2, timeoutsPerRack := timeouts);
    game.ResetRackStats();
    ZeroScores(game);
  }

  /** The per-player score menu of the match profiles. */
  function ScoreMenu(): seq<MenuItem>
  {
    [P1, P2, ExitMatch, Mute]
  }

  /** What every match start leaves: the rule set, the menu layout, a game on, the idle shot clock. */
  twostate predicate MatchStarted(sm: StateMachine, game: GameStats, kind: RulesKind, items: seq<MenuItem>)
    reads sm, game
  {
    game.rules == Some(kind) && game.menuItems == items && sm.gameOn && IdleEntered(sm, game)
  }

  /** The last steps of every match start: rule set, menu layout, `game_on`, idle mode, `enter_idle_mode`. */
  method StartMatch(sm: StateMachine, game: GameStats, kind: RulesKind, items: seq<MenuItem>)
    modifies game`rules, game`menuItems, sm`gameOn, sm`state, game`countdown, game`speaker5Count
    ensures MatchStarted(sm, game, kind, items)
  {
    game.rules := Some(kind);
    game.menuItems := items;
    sm.gameOn := true;
    sm.UpdateState(ShotClockIdle);
    EnterIdleMode(sm, game);
  }

  /**
   * The effect of `init_bca_selection`: the configured race and timeouts (16 and 0 by
   * default) for both players, scores zeroed, 8-Ball-style rules, the match started.
   */
  twostate predicate BcaMatchStarted(sm: StateMachine, game: GameStats)
    reads sm, game
  {
    && (var target, timeouts := game.rulesConfig.bca.target.GetOr(16), game.rulesConfig.bca.timeouts.GetOr(0);
        && game.player1 == old(game.player1).(target := target, timeoutsPerRack := timeouts, timeoutsRemaining := timeouts, score := 0)
        && game.player2 == old(game.player2).(target := target, timeoutsPerRack := timeouts, timeoutsRemaining := timeouts, score := 0))
    && game.menuValues == [Num(0), Num(0), Unset, game.speakerMuted]
    && MatchStarted(sm, game, EightBallRules, ScoreMenu())
  }

  /** `init_bca_selection`. */
  method InitBcaSelection(sm: StateMachine, game: GameStats)
    requires |game.menuValues| >= 2
    modifies sm`gameOn, sm`state, game`player1, game`player2, game`menuValues, game`rules, game`menuItems,
      game`countdown, game`speaker5Count
    ensures BcaMatchStarted(sm, game)
  {
    var target := game.rulesConfig.bca.target.GetOr(16);
    var timeouts := game.rulesConfig.bca.timeouts.GetOr(0);
    StartSides(game, target, target, timeouts);
    game.menuValues := [Num(game.player1.score), Num(game.player2.score), Unset, game.speakerMuted];
    StartMatch(sm, game, EightBallRules, ScoreMenu());
  }

  /**
   * The effect of `init_standard_selection`: standard rules; Timeouts Mode gets a
   * two-entry menu, any other profile the inning/rack menu with both counters back at 1.
   */
  twostate predicate StandardMatchStarted(sm: StateMachine, game: GameStats, selected: Profile)
    reads sm, game
  {
    && game.rules == Some(StandardRules) && sm.gameOn && IdleEntered(sm, game)
    && (selected == TimeoutsMode ==>
        && game.menuItems == [ExitMatch, Mute] && game.menuValues == [Unset, game.speakerMuted]
        && game.halfInnings == old(game.halfInnings) && game.rackCounter == old(game.rackCounter))
    && (selected != TimeoutsMode ==>
        && game.menuItems == [Inning, Rack, ExitMatch, Mute]
        && game.halfInnings == 2 && game.rackCounter == 1
        && game.menuValues == [Num(1), Num(1), Unset, game.speakerMuted])
  }

  /** `init_standard_selection`. */
  method InitStandardSelection(sm: StateMachine, game: GameStats, selected: Profile)
    modifies game`rules, sm`gameOn, game`menuItems, game`menuValues, game`halfInnings, game`rackCounter,
      sm`state, game`countdown, game`speaker5Count
    ensures StandardMatchStarted(sm, game, selected)
  {
    game.rules := Some(StandardRules);
    sm.gameOn := true;
    if selected == TimeoutsMode {
      game.menuItems := [ExitMatch, Mute];
      game.menuValues := [Unset, game.speakerMuted];
    } else {
      game.menuItems := [Inning, Rack, ExitMatch, Mute];
      game.halfInnings := 2;
      game.rackCounter := 1;
      game.menuValues := [Num(InningOf(game.halfInnings)), Num(game.rackCounter), Unset, game.speakerMuted];
    }
    EnterIdleMode(sm, game);
  }

  /**
   * The effect of `init_ultimate_selection`: the configured race and timeouts (5 and 1
   * by default) for both players, scores zeroed, 8-Ball-style rules, the match started.
   */
  twostate predicate UltimateMatchStarted(sm: StateMachine, game: GameStats)
    requires |old(game.menuValues)| >= 2
    reads sm, game
  {
    && (var target, timeouts := game.rulesConfig.ultimate.target.GetOr(5), game.rulesConfig.ultimate.timeouts.GetOr(1);
        && game.player1 == old(game.player1).(target := target, timeoutsPerRack := timeouts, timeoutsRemaining := timeouts, score := 0)
        && game.player2 == old(game.player2).(target := target, timeoutsPerRack := timeouts, timeoutsRemaining := timeouts, score := 0))
    && game.menuValues == old(game.menuValues)[0 := Num(0)][1 := Num(0)]
    && MatchStarted(sm, game, EightBallRules, ScoreMenu())
  }

  /** `init_ultimate_selection`. */
  method InitUltimateSelection(sm: StateMachine, game: GameStats)
    requires |game.menuValues| >= 2
    modifies sm`gameOn, sm`state, game`player1, game`player2, game`menuValues, game`rules, game`menuItems,
      game`countdown, game`speaker5Count
    ensures UltimateMatchStarted(sm, game)
  {
    var target := game.rulesConfig.ultimate.target.GetOr(5);
    var timeouts := game.rulesConfig.ultimate.timeouts.GetOr(1);
    StartSides(game, target, target, timeouts);
    StartMatch(sm, game, EightBallRules, ScoreMenu());
  }

  // ---------------------------------------------------------------------
  // Wizard button handlers
  // ---------------------------------------------------------------------

  /**
   * The effect of `handle_make_skill_level`: player 1's level is stored and
   * player 2's screen opens at level 3; player 2's level is stored and the
   * game-type screen opens on 9-Ball.
   */
  twostate predicate SkillLevelStored(sm: StateMachine, game: GameStats)
    requires old(sm.state) == ApaSkillLevelP1 || old(sm.state) == ApaSkillLevelP2 ==> old(game.tempSettingValue).Num?
    reads sm, game
  {
    && (old(sm.state) == ApaSkillLevelP1 ==>
          && game.player1 == old(game.player1).(skillLevel := old(game.tempSettingValue).n)
          && game.player2 == old(game.player2)
          && sm.state == ApaSkillLevelP2 && game.tempSettingValue == Num(3))
    && (old(sm.state) == ApaSkillLevelP2 ==>
          && game.player2 == old(game.player2).(skillLevel := old(game.tempSettingValue).n)
          && game.player1 == old(game.player1))
    && (old(sm.state) != ApaSkillLevelP1 ==>
          sm.state == ApaGameTypeSelection && game.tempSettingValue == Num(1))
    && (old(sm.state) != ApaSkillLevelP1 && old(sm.state) != ApaSkillLevelP2 ==>
          game.player1 == old(game.player1) && game.player2 == old(game.player2))
  }

  /** `handle_make_skill_level`. */
  method HandleMakeSkillLevel(sm: StateMachine, game: GameStats)
    requires sm.state == ApaSkillLevelP1 || sm.state == ApaSkillLevelP2 ==> game.tempSettingValue.Num?
    modifies sm`state, game`player1, game`player2, game`tempSettingValue
    ensures SkillLevelStored(sm, game)
  {
    if sm.IsApaSkillLevelP1() {
      game.player1 := game.player1.(skillLevel := game.tempSettingValue.n);
      sm.UpdateState(ApaSkillLevelP2);
      game.tempSettingValue := Num(3);
      return;
    } else if sm.IsApaSkillLevelP2() {
      game.player2 := game.player2.(skillLevel := game.tempSettingValue.n);
    }
    sm.UpdateState(ApaGameTypeSelection);
    game.tempSettingValue := Num(1);
  }

  /**
   * The effect of `handle_make_game_type_selection`: 9-Ball rules if the
   * screen showed 1, 8-Ball rules otherwise; targets and timeouts from the
   * configuration, scores zeroed, and the match started.
   */
  twostate predicate ApaMatchStarted(sm: StateMachine, game: GameStats)
    requires |old(game.menuValues)| >= 2
    reads sm, game
  {
    var nine := EqualsInt(old(game.tempSettingValue), 1);
    var a := ApaAllotment(game.rulesConfig, game.matchType, old(game.player1.skillLevel), old(game.player2.skillLevel));
    && game.matchType == (if nine then NineBall else EightBall)
    && MatchStarted(sm, game, if nine then NineBallRules else EightBallRules, ScoreMenu())
    && game.player1 == old(game.player1).(score := 0, target := a.targets.first, timeoutsPerRack := a.timeouts1, timeoutsRemaining := a.timeouts1)
    && game.player2 == old(game.player2).(score := 0, target := a.targets.second, timeoutsPerRack := a.timeouts2, timeoutsRemaining := a.timeouts2)
    && game.menuValues == old(game.menuValues)[0 := Num(0)][1 := Num(0)]
  }

  /** `handle_make_game_type_selection`. */
  method HandleMakeGameTypeSelection(sm: StateMachine, game: GameStats)
    requires |game.menuValues| >= 2
    modifies game`matchType, game`player1, game`player2, game`menuValues, game`rules, game`menuItems,
      sm`gameOn, sm`state, game`countdown, game`speaker5Count
    ensures ApaMatchStarted(sm, game)
  {
    var nine := EqualsInt(game.tempSettingValue, 1);
    game.matchType := if nine then NineBall else EightBall;
    CalculateApaTargets(game);
    ZeroScores(game);
    StartMatch(sm, game, if nine then NineBallRules else EightBallRules, ScoreMenu());
  }

  /**
   * The effect of `handle_make_wnt_target_selection`: the chosen race for both
   * players, the configured timeouts, scores zeroed, 8-Ball-style rules.
   */
  twostate predicate WntMatchStarted(sm: StateMachine, game: GameStats)
    requires old(game.tempSettingValue).Num?
    requires |old(game.menuValues)| >= 2
    reads sm, game
  {
    var target, timeouts := old(game.tempSettingValue).n, game.rulesConfig.wnt.timeouts.GetOr(1);
    && game.player1 == old(game.player1).(target := target, timeoutsPerRack := timeouts, timeoutsRemaining := timeouts, score := 0)
    && game.player2 == old(game.player2).(target := target, timeoutsPerRack := timeouts, timeoutsRemaining := timeouts, score := 0)
    && game.menuValues == old(game.menuValues)[0 := Num(0)][1 := Num(0)]
    && MatchStarted(sm, game, EightBallRules, ScoreMenu())
  }

  /** `handle_make_wnt_target_selection`. */
  method HandleMakeWntTargetSelection(sm: StateMachine, game: GameStats)
    requires game.tempSettingValue.Num?
    requires |game.menuValues| >= 2
    modifies sm`gameOn, sm`state, game`player1, game`player2, game`menuValues, game`rules, game`menuItems,
      game`countdown, game`speaker5Count
    ensures WntMatchStarted(sm, game)
  {
    var target := game.tempSettingValue.n;
    var timeouts := game.rulesConfig.wnt.timeouts.GetOr(1);
    StartSides(game, target, target, timeouts);
    StartMatch(sm, game, EightBallRules, ScoreMenu());
  }

  /**
   * The race UP shows. With a list read, `list.index` compares the wizard
   * value with each entry (a boolean as 0 or 1, `None` equal to none), so an
   * unset value takes the `ValueError` branch and shows the first entry.
   * Without a list the value is stepped through 1..20 instead.
   */
  function WntUpValue(loaded: Option<seq<int>>, v: Setting): (r: int)
    requires loaded.Some? ==> |loaded.value| > 0
    requires loaded.None? ==> !v.Unset?
    ensures loaded.Some? ==> r in loaded.value
    ensures loaded.Some? && v.Unset? ==> r == loaded.value[0]
    ensures loaded.None? ==> 1 <= r <= 20
  {
    match loaded
    case Some(targets) => if v.Unset? then targets[0] else WntNext(targets, IntOf(v))
    case None => WntFallbackUp(IntOf(v))
  }

  /** The race DOWN shows: as for UP, with an unset value showing the last entry. */
  function WntDownValue(loaded: Option<seq<int>>, v: Setting): (r: int)
    requires loaded.Some? ==> |loaded.value| > 0
    requires loaded.None? ==> !v.Unset?
    ensures loaded.Some? ==> r in loaded.value
    ensures loaded.Some? && v.Unset? ==> r == loaded.value[|loaded.value| - 1]
    ensures loaded.None? ==> r >= 1
  {
    match loaded
    case Some(targets) => if v.Unset? then targets[|targets| - 1] else WntPrev(targets, IntOf(v))
    case None => WntFallbackDown(IntOf(v))
  }

  /**
   * `handle_up_wnt_target_selection`. `loaded` is the list read from the
   * rules file (with the built-in list as its default), or `None` when the
   * file cannot be opened.
   */
  method HandleUpWntTargetSelection(game: GameStats, loaded: Option<seq<int>>)
    requires loaded.Some? ==> |loaded.value| > 0
    requires loaded.None? ==> !game.tempSettingValue.Unset?
    modifies game`tempSettingValue
    ensures game.tempSettingValue == Num(WntUpValue(loaded, old(game.tempSettingValue)))
  {
    var v := game.tempSettingValue;
    match loaded {
      case Some(targets) =>
        if !v.Unset? && IntOf(v) in targets {
          var idx := IndexOf(targets, IntOf(v));
          game.tempSettingValue := Num(targets[(idx + 1) % |targets|]);
        } else {
          game.tempSettingValue := Num(targets[0]);
        }
      case None =>
        game.tempSettingValue := Num((IntOf(v) % 20) + 1);
    }
  }

  /** `handle_down_wnt_target_selection`, with `loaded` as for UP. */
  method HandleDownWntTargetSelection(game: GameStats, loaded: Option<seq<int>>)
    requires loaded.Some? ==> |loaded.value| > 0
    requires loaded.None? ==> !game.tempSettingValue.Unset?
    modifies game`tempSettingValue
    ensures game.tempSettingValue == Num(WntDownValue(loaded, old(game.tempSettingValue)))
  {
    var v := game.tempSettingValue;
    match loaded {
      case Some(targets) =>
        if !v.Unset? && IntOf(v) in targets {
          var idx := IndexOf(targets, IntOf(v));
          game.tempSettingValue := Num(targets[(idx - 1) % |targets|]);
        } else {
          game.tempSettingValue := Num(targets[|targets| - 1]);
        }
      case None =>
        game.tempSettingValue := Num(Max(1, IntOf(v) - 1));
    }
  }

  /** `handle_up_apa_skill`. */
  method HandleUpApaSkill(game: GameStats)
    requires !game.tempSettingValue.Unset?
    modifies game`tempSettingValue
    ensures game.tempSettingValue == Num(SkillUp(IntOf(old(game.tempSettingValue))))
  {
    game.tempSettingValue := Num((IntOf(game.tempSettingValue) % 9) + 1);
  }

  /** `handle_down_apa_skill`. */
  method HandleDownApaSkill(game: GameStats)
    requires !game.tempSettingValue.Unset?
    modifies game`tempSettingValue
    ensures game.tempSettingValue == Num(SkillDown(IntOf(old(game.tempSettingValue))))
  {
    var v := IntOf(game.tempSettingValue) - 1;
    if v < 1 {
      v := 9;
    }
    game.tempSettingValue := Num(v);
  }

  /** `handle_up_apa_game_type` and `handle_down_apa_game_type`, which are the same toggle. */
  method HandleToggleApaGameType(game: GameStats)
    requires !game.tempSettingValue.Unset?
    modifies game`tempSettingValue
    ensures game.tempSettingValue == Num(GameTypeToggle(IntOf(old(game.tempSettingValue))))
  {
    game.tempSettingValue := Num(1 - IntOf(game.tempSettingValue));
  }

  /** `handle_miss_skill_level`: back to the first entry of the profile list. */
  method HandleMissSkillLevel(sm: StateMachine, game: GameStats)
    modifies sm`state, game`profileSelectionIndex
    ensures sm.state == ProfileSelection && game.profileSelectionIndex == 0
  {
    game.profileSelectionIndex := 0;
    sm.UpdateState(ProfileSelection);
  }
}
