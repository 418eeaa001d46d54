/**
 * The in-match menu: opening an entry for editing, changing the edited value,
 * and saving it back into the menu and the match record.
 */
module ButtonMenu {
  import opened Wrappers
  import opened Models

  // ---------------------------------------------------------------------
  // Edited values
  // ---------------------------------------------------------------------

  /** Python's `not v`: always a boolean. */
  function Negate(v: Setting): (r: Setting)
    ensures r.Flag? && r.b == !Truthy(v)
  {
    Flag(!Truthy(v))
  }

  /** Negating twice gives back a boolean unchanged, and any other value as its truth value. */
  lemma NegateTwice(v: Setting)
    ensures Negate(Negate(v)) == Flag(Truthy(v))
    ensures v.Flag? ==> Negate(Negate(v)) == v
  {
  }

  /** UP on a numeric entry: one more. */
  function EditUp(v: Setting): (r: Setting)
    requires !v.Unset?
    ensures r.Num? && r.n == IntOf(v) + 1
  {
    Num(IntOf(v) + 1)
  }

  /** DOWN on a numeric entry: one less, never below 1. */
  function EditDown(v: Setting): (r: Setting)
    requires !v.Unset?
    ensures r.Num? && r.n >= 1
    ensures IntOf(v) > 1 ==> r.n == IntOf(v) - 1
    ensures IntOf(v) <= 1 ==> r.n == 1
  {
    Num(Max(1, IntOf(v) - 1))
  }

  /** From 1 upwards, DOWN undoes UP; above 1, UP undoes DOWN. */
  lemma EditUpDownInverse(v: Setting)
    requires v.Num? && v.n >= 1
    ensures EditDown(EditUp(v)) == v
    ensures v.n > 1 ==> EditUp(EditDown(v)) == v
  {
  }

  /** The edited value after `presses` presses of DOWN: from the first press on, never below 1. */
  function DownPresses(v: Setting, presses: nat): (r: Setting)
    requires !v.Unset?
    ensures presses > 0 ==> r.Num? && r.n >= 1
    ensures presses == 0 ==> r == v
  {
    if presses == 0 then v else EditDown(DownPresses(v, presses - 1))
  }

  // ---------------------------------------------------------------------
  // Saving
  // ---------------------------------------------------------------------

  /**
   * The second menu slot a save writes after the edited slot itself: the
   * player's score slot for P1/P2, slot 1 for the rack, slot 0 for the
   * inning, the first "Mute" slot for the mute setting.
   */
  function MirrorSlot(items: seq<MenuItem>, idx: int): (k: Option<nat>)
    requires 0 <= idx < |items|
    ensures items[idx] == P1 || items[idx] == Inning ==> k == Some(0)
    ensures items[idx] == P2 || items[idx] == Rack ==> k == Some(1)
    ensures items[idx] == Mute ==> k == Some(IndexOf(items, Mute)) && k.value <= idx
    ensures items[idx] == ExitMatch ==> k.None?
  {
    match items[idx]
    case P1 => Some(0)
    case P2 => Some(1)
    case Rack => Some(1)
    case Inning => Some(0)
    case Mute => Some(IndexOf(items, Mute))
    case ExitMatch => None
  }

  /** The three menu layouts the match set-up builds. */
  predicate BuiltLayout(items: seq<MenuItem>)
  {
    || items == [Inning, Rack, ExitMatch, Mute]
    || items == [P1, P2, ExitMatch, Mute]
    || items == [ExitMatch, Mute]
  }

  /** In every layout the set-up builds, the second write of a save lands on the edited slot itself. */
  lemma BuiltLayoutsMirrorInPlace(items: seq<MenuItem>, idx: int)
    requires BuiltLayout(items) && 0 <= idx < |items|
    ensures MirrorSlot(items, idx).None? || MirrorSlot(items, idx) == Some(idx)
  {
  }

  /**
   * The entry written into the mirror slot: the saved value as the record
   * stores it. The mute setting keeps whatever value was saved, a number
   * included; the counters keep its integer value.
   */
  function MirrorValue(item: MenuItem, temp: Setting): (r: Setting)
    requires item != Mute ==> !temp.Unset?
    ensures item == Mute ==> r == temp
    ensures item != Mute ==> r.Num? && r.n == IntOf(temp)
    ensures item != Mute && temp.Num? ==> r == temp
  {
    if item == Mute then temp else Num(IntOf(temp))
  }

  /**
   * What a save needs: an index inside both lists, room for the score, rack
   * and inning slots, and a set value for an entry read as a number. The
   * mute setting accepts any value. The first "Mute" slot comes no later
   * than the edited one, so it is in range too.
   */
  predicate SaveFits(values: seq<Setting>, items: seq<MenuItem>, idx: int, temp: Setting)
  {
    && 0 <= idx < |items| && idx < |values|
    && ((items[idx] == P1 || items[idx] == P2 || items[idx] == Rack || items[idx] == Inning) ==> |values| >= 2)
    && (items[idx] != Mute && items[idx] != ExitMatch ==> !temp.Unset?)
  }

  /** The menu once the record has taken the saved value: the mirror slot, if any, shows it. */
  function Mirrored(values: seq<Setting>, items: seq<MenuItem>, idx: int, temp: Setting): (r: seq<Setting>)
    requires SaveFits(values, items, idx, temp)
    ensures |r| == |values|
    ensures forall j :: 0 <= j < |values| && Some(j) != MirrorSlot(items, idx) ==> r[j] == values[j]
  {
    match MirrorSlot(items, idx)
    case None => values
    case Some(k) => values[k := MirrorValue(items[idx], temp)]
  }

  /** The menu after saving: the edited slot holds the new value, and so does the mirror slot. */
  function SavedMenu(values: seq<Setting>, items: seq<MenuItem>, idx: int, temp: Setting): (r: seq<Setting>)
    requires SaveFits(values, items, idx, temp)
    ensures |r| == |values|
    ensures BuiltLayout(items) && (temp.Num? || items[idx] == Mute || items[idx] == ExitMatch) ==>
      r == values[idx := temp]
    ensures forall j :: 0 <= j < |values| && j != idx && Some(j) != MirrorSlot(items, idx) ==> r[j] == values[j]
  {
    BuiltLayoutsMirrorInPlaceIfBuilt(items, idx);
    Mirrored(values[idx := temp], items, idx, temp)
  }

  /** The mirror-slot fact, made available inside `SavedMenu` for whichever layout it is given. */
  lemma BuiltLayoutsMirrorInPlaceIfBuilt(items: seq<MenuItem>, idx: int)
    requires 0 <= idx < |items|
    ensures BuiltLayout(items) ==> MirrorSlot(items, idx).None? || MirrorSlot(items, idx) == Some(idx)
  {
    if BuiltLayout(items) {
      BuiltLayoutsMirrorInPlace(items, idx);
    }
  }

  /**
   * In the Timeouts Mode menu (Exit Match, Mute) the Mute slot can hold a
   * number, the rack count a new rack writes there; saving it stores that
   * number and leaves the menu as the edit left it.
   */
  lemma TimeoutsMuteSavesNumber(values: seq<Setting>, n: int)
    requires |values| == 2
    ensures SaveFits(values, [ExitMatch, Mute], 1, Num(n))
    ensures SavedMenu(values, [ExitMatch, Mute], 1, Num(n)) == [values[0], Num(n)]
  {
  }

  // ---------------------------------------------------------------------
  // Button handlers
  // ---------------------------------------------------------------------

  /** The effect of `handle_make_menu`: "Exit Match" asks for confirmation; any other entry is opened with its current value. */
  twostate predicate EntryOpened(sm: StateMachine, game: GameStats)
    requires 0 <= old(game.currentMenuIndex) < |old(game.menuItems)| && old(game.currentMenuIndex) < |old(game.menuValues)|
    reads sm, game
  {
    var idx := old(game.currentMenuIndex);
    && (old(game.menuItems)[idx] == ExitMatch ==>
          sm.state == ExitMatchConfirmation && game.tempSettingValue == old(game.tempSettingValue))
    && (old(game.menuItems)[idx] != ExitMatch ==>
          sm.state == EditingValue && game.tempSettingValue == old(game.menuValues)[idx])
  }

  /** `handle_make_menu`. */
  method HandleMakeMenu(sm: StateMachine, game: GameStats)
    requires 0 <= game.currentMenuIndex < |game.menuItems| && game.currentMenuIndex < |game.menuValues|
    modifies sm`state, game`tempSettingValue
    ensures EntryOpened(sm, game)
  {
    if game.menuItems[game.currentMenuIndex] == ExitMatch {
      sm.UpdateState(ExitMatchConfirmation);
      return;
    }
    sm.UpdateState(EditingValue);
    game.tempSettingValue := game.menuValues[game.currentMenuIndex];
  }

  /** What a save requires of the record. */
  predicate CanSave(game: GameStats)
    reads game`currentMenuIndex, game`menuItems, game`menuValues, game`tempSettingValue
  {
    SaveFits(game.menuValues, game.menuItems, game.currentMenuIndex, game.tempSettingValue)
  }

  /**
   * The game-record half of a save: the score, the rack counter, the inning
   * (as a whole inning, player 1 to shoot) or the mute setting takes the
   * edited value; nothing else changes.
   */
  twostate predicate SettingApplied(game: GameStats, item: MenuItem, temp: Setting)
    requires item != Mute && item != ExitMatch ==> !temp.Unset?
    reads game
  {
    && game.player1 == (if item == P1 then old(game.player1).(score := IntOf(temp)) else old(game.player1))
    && game.player2 == (if item == P2 then old(game.player2).(score := IntOf(temp)) else old(game.player2))
    && game.rackCounter == (if item == Rack then IntOf(temp) else old(game.rackCounter))
    && game.halfInnings == (if item == Inning then 2 * IntOf(temp) else old(game.halfInnings))
    && game.speakerMuted == (if item == Mute then temp else old(game.speakerMuted))
  }

  /** The per-entry half of `handle_make_editing`: the record takes the value, and the mirror slot shows it. */
  method ApplySetting(game: GameStats, idx: int, temp: Setting)
    requires SaveFits(game.menuValues, game.menuItems, idx, temp)
    modifies game`menuValues, game`player1, game`player2, game`rackCounter, game`halfInnings, game`speakerMuted
    ensures game.menuValues == Mirrored(old(game.menuValues), game.menuItems, idx, temp)
    ensures SettingApplied(game, game.menuItems[idx], temp)
  {
    var sel := game.menuItems[idx];
    if sel == P1 {
      game.SetScore(1, IntOf(temp));
    } else if sel == P2 {
      game.SetScore(2, IntOf(temp));
    } else if sel == Rack {
      game.rackCounter := IntOf(temp);
      game.menuValues := game.menuValues[1 := Num(game.rackCounter)];
    } else if sel == Mute {
      game.speakerMuted := temp;
      var k := IndexOf(game.menuItems, Mute);
      game.menuValues := game.menuValues[k := game.speakerMuted];
    } else if sel == Inning {
      game.halfInnings := 2 * IntOf(temp);
      game.menuValues := game.menuValues[0 := Num(InningOf(game.halfInnings))];
    }
  }

  /** The effect of `handle_make_editing`: the edited value is saved into the menu and the record, and the menu reopens. */
  twostate predicate EntrySaved(sm: StateMachine, game: GameStats)
    requires old(CanSave(game))
    reads sm, game
  {
    var idx, temp := old(game.currentMenuIndex), old(game.tempSettingValue);
    && sm.state == Menu
    && game.menuValues == SavedMenu(old(game.menuValues), old(game.menuItems), idx, temp)
    && SettingApplied(game, old(game.menuItems)[idx], temp)
  }

  /** `handle_make_editing`. */
  method HandleMakeEditing(sm: StateMachine, game: GameStats)
    requires CanSave(game)
    modifies sm`state, game`menuValues, game`player1, game`player2, game`rackCounter, game`halfInnings,
      game`speakerMuted
    ensures EntrySaved(sm, game)
  {
    var idx := game.currentMenuIndex;
    var temp := game.tempSettingValue;
    game.menuValues := game.menuValues[idx := temp];
    ApplySetting(game, idx, temp);
    sm.UpdateState(Menu);
  }

  /** `handle_up_editing`: the mute entry flips, any other entry goes up by one. */
  method HandleUpEditing(game: GameStats)
    requires 0 <= game.currentMenuIndex < |game.menuItems|
    requires game.menuItems[game.currentMenuIndex] != Mute ==> !game.tempSettingValue.Unset?
    modifies game`tempSettingValue
    ensures game.tempSettingValue ==
      if game.menuItems[game.currentMenuIndex] == Mute then Negate(old(game.tempSettingValue))
      else EditUp(old(game.tempSettingValue))
  {
    if game.menuItems[game.currentMenuIndex] == Mute {
      game.tempSettingValue := Flag(!Truthy(game.tempSettingValue));
    } else {
      game.tempSettingValue := Num(IntOf(game.tempSettingValue) + 1);
    }
  }

  /** `handle_down_editing`: the mute entry flips, any other entry goes down by one but not below 1. */
  method HandleDownEditing(game: GameStats)
    requires 0 <= game.currentMenuIndex < |game.menuItems|
    requires game.menuItems[game.currentMenuIndex] != Mute ==> !game.tempSettingValue.Unset?
    modifies game`tempSettingValue
    ensures game.tempSettingValue ==
      if game.menuItems[game.currentMenuIndex] == Mute then Negate(old(game.tempSettingValue))
      else EditDown(old(game.tempSettingValue))
  {
    if game.menuItems[game.currentMenuIndex] == Mute {
      game.tempSettingValue := Flag(!Truthy(game.tempSettingValue));
    } else {
      game.tempSettingValue := Num(Max(1, IntOf(game.tempSettingValue) - 1));
    }
  }
}
