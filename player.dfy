/** The server's players (`Player`): a combatant with an inventory of item ids and stack
    amounts kept in two parallel arrays, appearance, influence and quest progress. Item
    id 0 marks an empty inventory slot; `weapon` and `shield` of the body are inventory
    indices, -1 when nothing is wielded.

    The inventory has 12 slots. As written, `resetPlayer` replaces it by 20 empty ones,
    which the login that follows cannot load back into 12; the model resets to 12 empty
    slots and keeps the as-written size to exhibit the failure. The operations take the
    length to be whatever the arrays currently have. The inventory operations are
    specified by functions on the array contents, and their properties are proved about
    those functions. The item manager's answers are the catalogue parameter; the
    database saves that follow each change are not part of this model. */
module Players {
  import opened Common
  import opened Movement
  import opened Events
  import opened Entities
  import opened Items
  import ExperienceCurve

  const INVENTORY_SIZE: int := 12
  /** The size of the arrays `resetPlayer` creates as written. */
  const RESET_INVENTORY_SIZE_AS_WRITTEN: int := 20
  const QUEST_COUNT: int := 10
  /** The item id of an empty slot. */
  const EMPTY: int := 0

  const FULL_STACK_MESSAGE := "You already have a full stack of this item."
  const NO_SPACE_MESSAGE := "You don't have enough space in your inventory."
  const GONE_MESSAGE := "Too late, it's gone!"
  /** Ticks a player waits after eating before it can attack. */
  const EAT_DELAY: int := 4

  /** The change flags `Player` adds to those of its body. */
  datatype PlayerFlag =
    | InventoryChanged | InventoryAmountsChanged | QuestProgressChanged | InfluenceChanged
    | SkinColorChanged | HairColorChanged | ShirtColorChanged | PantsColorChanged | UsernameChanged

  const ALL_PLAYER_FLAGS: set<PlayerFlag> := {
    InventoryChanged, InventoryAmountsChanged, QuestProgressChanged, InfluenceChanged,
    SkinColorChanged, HairColorChanged, ShirtColorChanged, PantsColorChanged, UsernameChanged }

  /** The player's own scalar fields and their flags. */
  datatype Profile = Profile(influence: int, skinColor: int, hairColor: int, shirtColor: int,
                             pantsColor: int, changed: set<PlayerFlag>)

  /** The catalogue entry of `id`, `None` when the item manager does not know it. */
  function Lookup(catalog: Catalog, id: int): Option<ItemDef> {
    if id in catalog then Some(catalog[id]) else None
  }

  // ---------------------------------------------------------------------------------
  // Slots

  /** The lowest index holding `v`, or -1: `getEmptyInventorySlot` for `v` = 0, and the
      first-match scans of `addItemToInventory` and the item-removal action. */
  function FirstSlotOf(s: seq<int>, v: int): (i: int)
    ensures -1 <= i < |s|
    ensures i == -1 <==> v !in s
    ensures i >= 0 ==> s[i] == v && v !in s[..i]
  {
    if |s| == 0 then -1
    else if s[0] == v then 0
    else
      var j := FirstSlotOf(s[1..], v);
      if j == -1 then -1
      else
        assert s[..j + 1] == [s[0]] + s[1..][..j];
        j + 1
  }

  // ---------------------------------------------------------------------------------
  // Swapping two slots

  /** `s` with the values at `i` and `j` exchanged. */
  function Exchanged(s: seq<int>, i: int, j: int): (r: seq<int>)
    requires 0 <= i < |s| && 0 <= j < |s|
    ensures |r| == |s| && r[i] == s[j] && r[j] == s[i]
    ensures forall k :: 0 <= k < |s| && k != i && k != j ==> r[k] == s[k]
  {
    s[i := s[j]][j := s[i]]
  }

  /** Where a wielded slot index ends up when slots `from` and `to` are exchanged. */
  function Follow(slot: int, from: int, to: int): (r: int)
    ensures slot == from ==> r == to
    ensures slot != from && slot == to ==> r == from
    ensures slot != from && slot != to ==> r == slot
  {
    if slot == from then to else if slot == to then from else slot
  }

  /** The body after a swap: weapon and shield follow their items, and only a moved
      index raises its flag. */
  function Reequipped(s: State, from: int, to: int): (r: State)
    ensures r.weapon == Follow(s.weapon, from, to) && r.shield == Follow(s.shield, from, to)
    ensures r == s.(weapon := r.weapon, shield := r.shield, changed := r.changed)
    ensures WeaponChanged in r.changed - s.changed ==> s.weapon in {from, to}
    ensures ShieldChanged in r.changed - s.changed ==> s.shield in {from, to}
    ensures r.changed - s.changed <= {WeaponChanged, ShieldChanged}
  {
    var s1 := if s.weapon == from || s.weapon == to
      then s.(weapon := Follow(s.weapon, from, to), changed := s.changed + {WeaponChanged}) else s;
    if s1.shield == from || s1.shield == to
    then s1.(shield := Follow(s1.shield, from, to), changed := s1.changed + {ShieldChanged}) else s1
  }

  /** A swap moves items around without creating or losing any. */
  lemma ExchangedIsPermutation(s: seq<int>, i: int, j: int)
    requires 0 <= i < |s| && 0 <= j < |s|
    ensures multiset(Exchanged(s, i, j)) == multiset(s)
  {
    var r := Exchanged(s, i, j);
    calc {
      multiset(r);
      multiset(s[i := s[j]][j := s[i]]);
      multiset(s[i := s[j]]) - multiset{s[i := s[j]][j]} + multiset{s[i]};
    }
  }

  /** Swapping the same two slots again restores the inventory and the wielded
      indices. */
  lemma SwapTwiceRestores(s: seq<int>, slot: int, i: int, j: int)
    requires 0 <= i < |s| && 0 <= j < |s|
    ensures Exchanged(Exchanged(s, i, j), i, j) == s
    ensures Follow(Follow(slot, i, j), i, j) == slot
  {
    assert Exchanged(Exchanged(s, i, j), i, j) == s;
  }

  /** Equipment stays attached to its item: the slot a wielded index points to after the
      swap holds the item it pointed to before. */
  lemma SwapKeepsEquipment(s: seq<int>, slot: int, i: int, j: int)
    requires 0 <= i < |s| && 0 <= j < |s| && 0 <= slot < |s|
    ensures 0 <= Follow(slot, i, j) < |s|
    ensures Exchanged(s, i, j)[Follow(slot, i, j)] == s[slot]
  {
  }

  // ---------------------------------------------------------------------------------
  // Adding an item

  /** The slot `addItemToInventory` writes: the first stack of the item for a stackable
      item already held, otherwise the first empty slot (-1 when there is none). */
  function AddSlot(def: ItemDef, items: seq<int>, itemID: int): int {
    if def.stackable && itemID in items then FirstSlotOf(items, itemID) else FirstSlotOf(items, EMPTY)
  }

  /** When `addItemToInventory` succeeds: the item is known; a stackable item is added to
      its first stack unless that would pass `Integer.MAX_VALUE`, or needs an empty slot
      if none is held; a non-stackable item comes one at a time and needs an empty
      slot. */
  predicate CanAdd(def: Option<ItemDef>, items: seq<int>, amounts: seq<int>, itemID: int, quantity: int)
    requires |items| == |amounts|
  {
    && def.Some?
    && (def.value.stackable && itemID in items ==> amounts[FirstSlotOf(items, itemID)] + quantity <= INT_MAX)
    && (def.value.stackable && itemID !in items ==> EMPTY in items)
    && (!def.value.stackable ==> quantity <= 1 && EMPTY in items)
  }

  /** The outcome of `addItemToInventory`: whether it added, the new contents, and the
      chat message it shows the player. */
  datatype AddResult = AddResult(added: bool, items: seq<int>, amounts: seq<int>, message: Option<string>)

  function Addition(def: Option<ItemDef>, items: seq<int>, amounts: seq<int>, itemID: int, quantity: int)
    : (r: AddResult)
    requires |items| == |amounts|
    ensures r.added <==> CanAdd(def, items, amounts, itemID, quantity)
    ensures !r.added ==> r.items == items && r.amounts == amounts
    ensures |r.items| == |items| && |r.amounts| == |amounts|
    ensures r.added ==>
      var k := AddSlot(def.value, items, itemID);
      && 0 <= k < |items| && r.items == items[k := itemID]
      && (forall j :: 0 <= j < |items| && j != k ==> r.amounts[j] == amounts[j])
      && (def.value.stackable && itemID in items ==> r.amounts[k] == amounts[k] + quantity || amounts[k] + quantity < INT_MIN)
      && (def.value.stackable && itemID !in items ==> r.amounts[k] == quantity)
      && (!def.value.stackable ==> r.amounts == amounts)
    ensures r.message == Some(FULL_STACK_MESSAGE) <==>
      def.Some? && def.value.stackable && itemID in items && amounts[FirstSlotOf(items, itemID)] + quantity > INT_MAX
    ensures r.message == Some(NO_SPACE_MESSAGE) <==>
      def.Some? && EMPTY !in items && (if def.value.stackable then itemID !in items else quantity <= 1)
    ensures r.message.Some? ==> !r.added
  {
    if def.None? then AddResult(false, items, amounts, None)
    else if def.value.stackable then
      var i := FirstSlotOf(items, itemID);
      if i >= 0 then
        if amounts[i] + quantity > INT_MAX then AddResult(false, items, amounts, Some(FULL_STACK_MESSAGE))
        else AddResult(true, items, amounts[i := Wrap32(amounts[i] + quantity)], None)
      else
        var e := FirstSlotOf(items, EMPTY);
        if e == -1 then AddResult(false, items, amounts, Some(NO_SPACE_MESSAGE))
        else AddResult(true, items[e := itemID], amounts[e := quantity], None)
    else if quantity > 1 then AddResult(false, items, amounts, None)
    else
      var e := FirstSlotOf(items, EMPTY);
      if e == -1 then AddResult(false, items, amounts, Some(NO_SPACE_MESSAGE))
      else AddResult(true, items[e := itemID], amounts, None)
  }

  /** Count of `v` in `s` after writing `x` at `k`. */
  lemma MultisetUpdate(s: seq<int>, k: int, x: int)
    requires 0 <= k < |s|
    ensures multiset(s[k := x]) == multiset(s) - multiset{s[k]} + multiset{x}
  {
  }

  /** A successful addition takes exactly one empty slot for an item not already
      stacked, and none for one added to its existing stack; nothing else moves. */
  lemma AdditionUsesOneSlot(def: Option<ItemDef>, items: seq<int>, amounts: seq<int>, itemID: int, quantity: int)
    requires |items| == |amounts| && itemID != EMPTY
    ensures var r := Addition(def, items, amounts, itemID, quantity);
      var stacked := def.Some? && def.value.stackable && itemID in items;
      r.added ==>
        && multiset(r.items)[itemID] == multiset(items)[itemID] + (if stacked then 0 else 1)
        && multiset(r.items)[EMPTY] == multiset(items)[EMPTY] - (if stacked then 0 else 1)
        && itemID in r.items
  {
    var r := Addition(def, items, amounts, itemID, quantity);
    if r.added {
      var k := AddSlot(def.value, items, itemID);
      MultisetUpdate(items, k, itemID);
      assert r.items[k] == itemID;
    }
  }

  // ---------------------------------------------------------------------------------
  // Eating, dropping, unwielding, removing

  /** The body after eating food that heals `heal`: hitpoints up in `int` arithmetic, but
      never above `cap` (the level of the hitpoints experience), and the attack delay
      restarted. */
  function Fed(s: State, heal: int, cap: int): (r: State)
    ensures r.currentHitpoints <= cap
    ensures r.currentHitpoints == Min(Wrap32(s.currentHitpoints + heal), cap)
    ensures IsInt32(s.currentHitpoints + heal) ==> r.currentHitpoints == Min(s.currentHitpoints + heal, cap)
    ensures r.attackTickCounter == EAT_DELAY
    ensures r == s.(currentHitpoints := r.currentHitpoints, attackTickCounter := EAT_DELAY, changed := r.changed)
    ensures r.changed == s.changed + {CurrentHitpointsChanged, AttackTickCounterChanged}
  {
    var s1 := s.(currentHitpoints := Wrap32(s.currentHitpoints + heal),
                 changed := s.changed + {CurrentHitpointsChanged});
    var s2 := if s1.currentHitpoints > cap then s1.(currentHitpoints := cap) else s1;
    s2.(attackTickCounter := EAT_DELAY, changed := s2.changed + {AttackTickCounterChanged})
  }

  /** Eating heals: from at most full health, with food that heals a non-negative amount,
      hitpoints never go down. */
  lemma EatingNeverHurts(s: State, heal: int, cap: int)
    requires 0 <= heal && s.currentHitpoints <= cap && IsInt32(s.currentHitpoints + heal)
    ensures s.currentHitpoints <= Fed(s, heal, cap).currentHitpoints <= cap
  {
  }

  function EatMessage(name: string): string {
    "You eat the " + name + ". It heals some health."
  }

  /** The body after the slot `index` is emptied by a drop: a weapon or shield wielded
      from that slot is unwielded. */
  function Disarmed(s: State, index: int): (r: State)
    ensures r.weapon == (if s.weapon == index then -1 else s.weapon)
    ensures r.shield == (if s.shield == index then -1 else s.shield)
    ensures r == s.(weapon := r.weapon, shield := r.shield, changed := r.changed)
    ensures r.changed - s.changed <= {WeaponChanged, ShieldChanged}
  {
    var s1 := if s.weapon != -1 && s.weapon == index
      then s.(weapon := -1, changed := s.changed + {WeaponChanged}) else s;
    if s1.shield != -1 && s1.shield == index
    then s1.(shield := -1, changed := s1.changed + {ShieldChanged}) else s1
  }

  /** `unwieldItem` once the slot holds a wieldable item: the weapon if it is wielded
      from that slot, else the shield if it is, else nothing. */
  function Unwielded(s: State, index: int): (r: State)
    requires index >= 0
    ensures s.weapon == index ==> r.weapon == -1 && r.shield == s.shield
    ensures s.weapon != index && s.shield == index ==> r.shield == -1 && r.weapon == s.weapon
    ensures s.weapon != index && s.shield != index ==> r == s
    ensures r == s.(weapon := r.weapon, shield := r.shield, changed := r.changed)
  {
    if s.weapon != -1 && s.weapon == index then s.(weapon := -1, changed := s.changed + {WeaponChanged})
    else if s.shield != -1 && s.shield == index then s.(shield := -1, changed := s.changed + {ShieldChanged})
    else s
  }

  /** The item-removal action: the first slot holding `itemID` loses `amount` of its
      stack (all of it when `amount` is 0) and is emptied once nothing is left; no other
      slot changes, and nothing changes when the item is not held. */
  function Removal(items: seq<int>, amounts: seq<int>, itemID: int, amount: int): (r: (seq<int>, seq<int>))
    requires |items| == |amounts|
    ensures |r.0| == |items| && |r.1| == |amounts|
    ensures itemID !in items ==> r == (items, amounts)
    ensures itemID in items ==>
      var k := FirstSlotOf(items, itemID);
      && (forall j :: 0 <= j < |items| && j != k ==> r.0[j] == items[j] && r.1[j] == amounts[j])
      && (amount == 0 || Wrap32(amounts[k] - amount) <= 0 ==> r.0[k] == EMPTY && r.1[k] == 0)
      && (amount != 0 && Wrap32(amounts[k] - amount) > 0 ==>
            r.0[k] == itemID && r.1[k] == Wrap32(amounts[k] - amount))
  {
    var k := FirstSlotOf(items, itemID);
    if k == -1 then (items, amounts)
    else if amount == 0 then (items[k := EMPTY], amounts[k := 0])
    else
      var left := Wrap32(amounts[k] - amount);
      if left <= 0 then (items[k := EMPTY], amounts[k := 0]) else (items, amounts[k := left])
  }

  /** Empty slots carry no amount. */
  predicate Tidy(items: seq<int>, amounts: seq<int>)
    requires |items| == |amounts|
  {
    forall k :: 0 <= k < |items| && items[k] == EMPTY ==> amounts[k] == 0
  }

  /** Adding, removing and swapping keep empty slots at amount 0 (for a real item id). */
  lemma AdditionKeepsTidy(def: Option<ItemDef>, items: seq<int>, amounts: seq<int>, itemID: int, quantity: int)
    requires |items| == |amounts| && Tidy(items, amounts) && itemID != EMPTY
    ensures var r := Addition(def, items, amounts, itemID, quantity); Tidy(r.items, r.amounts)
  {
    var r := Addition(def, items, amounts, itemID, quantity);
    if r.added {
      var k := AddSlot(def.value, items, itemID);
      forall j | 0 <= j < |items| && r.items[j] == EMPTY
        ensures r.amounts[j] == 0
      {
        assert j != k;
      }
    }
  }

  lemma RemovalKeepsTidy(items: seq<int>, amounts: seq<int>, itemID: int, amount: int)
    requires |items| == |amounts| && Tidy(items, amounts) && itemID != EMPTY
    ensures var r := Removal(items, amounts, itemID, amount); Tidy(r.0, r.1)
  {
  }

  lemma ExchangedKeepsTidy(items: seq<int>, amounts: seq<int>, i: int, j: int)
    requires |items| == |amounts| && Tidy(items, amounts) && 0 <= i < |items| && 0 <= j < |items|
    ensures Tidy(Exchanged(items, i, j), Exchanged(amounts, i, j))
  {
  }

  /** Removing the whole stack of an item that was just added to a tidy inventory, where
      it was not held before, gives back the inventory as it was. */
  lemma AddThenRemoveRestores(def: Option<ItemDef>, items: seq<int>, amounts: seq<int>, itemID: int, quantity: int)
    requires |items| == |amounts| && Tidy(items, amounts) && itemID != EMPTY && itemID !in items
    ensures var r := Addition(def, items, amounts, itemID, quantity);
      r.added ==> Removal(r.items, r.amounts, itemID, 0) == (items, amounts)
  {
    var r := Addition(def, items, amounts, itemID, quantity);
    if r.added {
      var k := AddSlot(def.value, items, itemID);
      assert k == FirstSlotOf(items, EMPTY) && 0 <= k < |items|;
      assert r.items == items[k := itemID];
      assert r.items[..k] == items[..k];
      assert r.items[k] == itemID;
      var f := FirstSlotOf(r.items, itemID);
      assert f == k;
      assert r.items[k := EMPTY] == items;
      assert r.amounts[k := 0] == amounts;
    }
  }

  // ---------------------------------------------------------------------------------
  // Death and respawn

  /** The ground items `resetPlayer` leaves where the player died: one per occupied slot,
      in slot order, with the stack amount when it is positive. */
  function Scattered(items: seq<int>, amounts: seq<int>, at: Pos): (r: seq<Spawn>)
    requires |items| == |amounts|
    ensures |r| <= |items|
    ensures forall j :: 0 <= j < |r| ==> r[j].at == at && r[j].itemID != EMPTY
  {
    if |items| == 0 then []
    else
      var rest := Scattered(items[1..], amounts[1..], at);
      if items[0] == EMPTY then rest
      else [Spawn(items[0], if amounts[0] > 0 then Some(amounts[0]) else None, at)] + rest
  }

  /** One step of `Scattered`: the first slot's ground item, if any, then the rest. */
  lemma ScatteredStep(items: seq<int>, amounts: seq<int>, at: Pos)
    requires |items| == |amounts| && |items| > 0
    ensures Scattered(items, amounts, at) ==
      (if items[0] == EMPTY then [] else [Spawn(items[0], if amounts[0] > 0 then Some(amounts[0]) else None, at)])
      + Scattered(items[1..], amounts[1..], at)
  {
    if items[0] == EMPTY {
      assert [] + Scattered(items[1..], amounts[1..], at) == Scattered(items[1..], amounts[1..], at);
    }
  }

  function SpawnedIDs(spawns: seq<Spawn>): (r: seq<int>)
    ensures |r| == |spawns|
  {
    if |spawns| == 0 then [] else [spawns[0].itemID] + SpawnedIDs(spawns[1..])
  }

  /** Nothing is lost on death: the ids left on the ground are exactly the ids of the
      occupied slots, each as often as it occupies a slot, and no empty id. */
  lemma {:induction false} ScatteredKeepsEveryItem(items: seq<int>, amounts: seq<int>, at: Pos)
    requires |items| == |amounts|
    ensures forall v :: multiset(SpawnedIDs(Scattered(items, amounts, at)))[v]
                        == (if v == EMPTY then 0 else multiset(items)[v])
    decreases |items|
  {
    if |items| > 0 {
      var rest := Scattered(items[1..], amounts[1..], at);
      ScatteredKeepsEveryItem(items[1..], amounts[1..], at);
      assert items == [items[0]] + items[1..];
      if items[0] != EMPTY {
        var sp := Spawn(items[0], if amounts[0] > 0 then Some(amounts[0]) else None, at);
        assert SpawnedIDs([sp] + rest) == [items[0]] + SpawnedIDs(rest) by {
          assert ([sp] + rest)[1..] == rest;
        }
      }
    }
  }

  /** The body after `resetPlayer`: nothing wielded, respawned with full hitpoints. The
      dying flag and counter are left to the caller. */
  function PlayerReset(levels: seq<int>, s: State, origin: Pos): (r: State)
    requires |levels| == ExperienceCurve.MAX_LEVEL && |s.skills| > HITPOINTS
    ensures r.weapon == -1 && r.shield == -1
    ensures PositionOf(r) == origin
    ensures r.currentHitpoints == ExperienceCurve.LevelByExp(levels, s.skills[HITPOINTS])
    ensures TargetOf(r).None? && r.currentPath.None? && !r.isInCombat
    ensures r.skills == s.skills && r.isDying == s.isDying && r.dyingCounter == s.dyingCounter
  {
    var s1 := s.(weapon := -1, shield := -1, changed := s.changed + {WeaponChanged, ShieldChanged});
    Respawned(s1, origin, ExperienceCurve.LevelByExp(levels, s1.skills[HITPOINTS]))
  }

  /** The body at the end of dying in `updateCounters`: reset, then alive again with the
      dying counter at 0. */
  function Revived(levels: seq<int>, s: State, origin: Pos): (r: State)
    requires |levels| == ExperienceCurve.MAX_LEVEL && |s.skills| > HITPOINTS
    ensures r.weapon == -1 && r.shield == -1 && !r.isDying && r.dyingCounter == 0
    ensures PositionOf(r) == origin
    ensures r.currentHitpoints == ExperienceCurve.LevelByExp(levels, s.skills[HITPOINTS])
    ensures TargetOf(r).None? && r.currentPath.None? && !r.isInCombat && r.skills == s.skills
  {
    var s2 := PlayerReset(levels, s, origin);
    s2.(isDying := false, dyingCounter := 0, changed := s2.changed + {IsDyingChanged, DyingCounterChanged})
  }

  /** The body after the player part of `updateCounters`: the shared counters tick, and a
      dying player counts up until it is revived after more than five ticks. */
  function PlayerTicked(levels: seq<int>, s: State, origin: Pos): (r: State)
    requires |levels| == ExperienceCurve.MAX_LEVEL && |s.skills| > HITPOINTS
    ensures r.skills == s.skills
    ensures !s.isDying ==> r == CountersTicked(s)
    ensures s.isDying && 0 <= s.dyingCounter < DYING_TICKS ==>
      r.isDying && r.dyingCounter == s.dyingCounter + 1
    ensures s.isDying && s.dyingCounter == DYING_TICKS ==>
      !r.isDying && r.dyingCounter == 0 && PositionOf(r) == origin
      && r.currentHitpoints == ExperienceCurve.LevelByExp(levels, s.skills[HITPOINTS])
  {
    var s1 := CountersTicked(s);
    if !s1.isDying then s1
    else
      var s2 := s1.(dyingCounter := Wrap32(s1.dyingCounter + 1), changed := s1.changed + {DyingCounterChanged});
      if s2.dyingCounter > DYING_TICKS then Revived(levels, s2, origin) else s2
  }

  /** A dying player stays dying, its counter going up by one per tick, until the counter
      reaches five... */
  lemma {:induction false} DyingLastsSixTicks(levels: seq<int>, s: State, origin: Pos, n: nat)
    requires |levels| == ExperienceCurve.MAX_LEVEL && |s.skills| > HITPOINTS
    requires s.isDying && 0 <= s.dyingCounter && n + s.dyingCounter <= DYING_TICKS
    ensures PlayerTickedTimes(levels, s, origin, n).isDying
    ensures PlayerTickedTimes(levels, s, origin, n).dyingCounter == s.dyingCounter + n
    ensures PlayerTickedTimes(levels, s, origin, n).skills == s.skills
    decreases n
  {
    if n > 0 {
      DyingLastsSixTicks(levels, s, origin, n - 1);
      var prev := PlayerTickedTimes(levels, s, origin, n - 1);
      assert PlayerTickedTimes(levels, s, origin, n) == PlayerTicked(levels, prev, origin);
    }
  }

  /** ... and on the tick after those, the `n`-th since a dying counter of `6 - n`, it
      is alive again at its spawn with full hitpoints. */
  lemma RevivedOnSixthTick(levels: seq<int>, s: State, origin: Pos, n: nat)
    requires |levels| == ExperienceCurve.MAX_LEVEL && |s.skills| > HITPOINTS
    requires s.isDying && 0 <= s.dyingCounter && 1 <= n && s.dyingCounter + n == DYING_TICKS + 1
    ensures var r := PlayerTickedTimes(levels, s, origin, n);
      && !r.isDying && r.dyingCounter == 0 && PositionOf(r) == origin
      && r.currentHitpoints == ExperienceCurve.LevelByExp(levels, s.skills[HITPOINTS])
  {
    DyingLastsSixTicks(levels, s, origin, n - 1);
    var prev := PlayerTickedTimes(levels, s, origin, n - 1);
    assert prev.isDying && prev.dyingCounter == DYING_TICKS && prev.skills == s.skills;
    assert PlayerTickedTimes(levels, s, origin, n) == PlayerTicked(levels, prev, origin);
  }

  /** `n` consecutive ticks of `PlayerTicked`. */
  function PlayerTickedTimes(levels: seq<int>, s: State, origin: Pos, n: nat): (r: State)
    requires |levels| == ExperienceCurve.MAX_LEVEL && |s.skills| > HITPOINTS
    ensures r.skills == s.skills
    decreases n
  {
    if n == 0 then s
    else
      var prev := PlayerTickedTimes(levels, s, origin, n - 1);
      PlayerTicked(levels, prev, origin)
  }


  // ---------------------------------------------------------------------------------
  // The player

  /** The slot `index` holds an item the catalogue knows as food. */
  predicate Edible(catalog: Catalog, items: seq<int>, index: int) {
    0 <= index < |items| && items[index] in catalog && catalog[items[index]].heal.Some?
  }

  /** The slot `index` exists and is not empty. */
  predicate Occupied(items: seq<int>, index: int) {
    0 <= index < |items| && items[index] != EMPTY
  }

  /** The chat line the player is told, if any. */
  function Told(username: string, message: Option<string>, now: int): (r: seq<ChatMessage>)
    ensures |r| == (if message.Some? then 1 else 0)
  {
    if message.Some? then [ChatMessage(username, Plain(message.value), now, false)] else []
  }

  /** A sound of the player's own: an effect, not interrupting, not global. */
  function OwnSound(name: string, entityID: string): SoundEvent {
    SoundEvent(name, true, false, entityID, false)
  }

  /** The profile with inventory flags raised. */
  function InventoryTouched(pr: Profile, flags: set<PlayerFlag>): (r: Profile)
    ensures r.changed == pr.changed + flags
  {
    pr.(changed := pr.changed + flags)
  }

  /** `System.arraycopy` of the saved slots into `size` new slots holding `fill`: the
      copy throws when the saved array is longer than the new one. */
  function LoadedSlots(saved: seq<int>, fill: int, size: nat): (r: Option<seq<int>>)
    ensures r.Some? <==> |saved| <= size
    ensures r.Some? ==>
      |r.value| == size && r.value[..|saved|] == saved && forall i :: |saved| <= i < size ==> r.value[i] == fill
  {
    if |saved| <= size then Some(saved + seq(size - |saved|, _ => fill)) else None
  }

  /** An inventory saved with the size the player has always loads back unchanged. */
  lemma SaveThenLoadRestores(saved: seq<int>, fill: int)
    requires |saved| == INVENTORY_SIZE
    ensures LoadedSlots(saved, fill, INVENTORY_SIZE) == Some(saved)
  {
    assert seq(INVENTORY_SIZE - |saved|, _ => fill) == [];
    assert saved + [] == saved;
  }

  /** As written, the 20 empty slots `resetPlayer` saves do not fit the 12 that the next
      login copies them into: the copy throws and the player cannot be loaded. */
  lemma ResetThenLoadFailsAsWritten()
    ensures LoadedSlots(seq(RESET_INVENTORY_SIZE_AS_WRITTEN, _ => EMPTY), EMPTY, INVENTORY_SIZE) == None
    ensures LoadedSlots(seq(RESET_INVENTORY_SIZE_AS_WRITTEN, _ => 0), 0, INVENTORY_SIZE) == None
  {
  }

  /** With the reset to 12 empty slots the next login loads them back as they were. */
  lemma ResetThenLoadRestores()
    ensures LoadedSlots(seq(INVENTORY_SIZE, _ => EMPTY), EMPTY, INVENTORY_SIZE) == Some(seq(INVENTORY_SIZE, _ => EMPTY))
    ensures LoadedSlots(seq(INVENTORY_SIZE, _ => 0), 0, INVENTORY_SIZE) == Some(seq(INVENTORY_SIZE, _ => 0))
  {
    SaveThenLoadRestores(seq(INVENTORY_SIZE, _ => EMPTY), EMPTY);
    SaveThenLoadRestores(seq(INVENTORY_SIZE, _ => 0), 0);
  }

  /** The login path of `new Player`: the saved inventory and quest arrays are copied
      into 12 and 10 new slots, and a copy that does not fit throws, so no player is
      made; otherwise the constructor's player. */
  method Login(levels: seq<int>, entityID: string, username: string, at: Pos, savedSkills: seq<int>,
               savedItems: seq<int>, savedAmounts: seq<int>, savedQuests: seq<int>, influence: int,
               weapon: int, shield: int, skin: int, hair: int, shirt: int, pants: int)
    returns (p: Option<Player>)
    requires |levels| == ExperienceCurve.MAX_LEVEL && |savedSkills| == 4
    ensures p.None? <==>
      || LoadedSlots(savedItems, EMPTY, INVENTORY_SIZE).None?
      || LoadedSlots(savedAmounts, 0, INVENTORY_SIZE).None?
      || LoadedSlots(savedQuests, 0, QUEST_COUNT).None?
    ensures p.Some? ==> fresh(p.value) && p.value.Valid() && p.value.username == username
    ensures p.Some? ==> p.value.inventory[..] == LoadedSlots(savedItems, EMPTY, INVENTORY_SIZE).value
    ensures p.Some? ==> p.value.inventoryAmounts[..] == LoadedSlots(savedAmounts, 0, INVENTORY_SIZE).value
    ensures p.Some? ==> p.value.questProgress[..] == LoadedSlots(savedQuests, 0, QUEST_COUNT).value
    ensures p.Some? ==> PositionOf(p.value.body.st) == at && p.value.body.st.skills == savedSkills + [0]
  {
    if |savedItems| > INVENTORY_SIZE || |savedAmounts| > INVENTORY_SIZE || |savedQuests| > QUEST_COUNT {
      return None;
    }
    var player := new Player(levels, entityID, username, at, savedSkills, savedItems, savedAmounts,
                             savedQuests, influence, weapon, shield, skin, hair, shirt, pants);
    return Some(player);
  }

  class Player {
    /** The `Entity` and `Combatant` part of the player. */
    const body: Combatant
    const username: string
    var inventory: array<int>
    var inventoryAmounts: array<int>
    const questProgress: array<int>
    var profile: Profile

    /** The two inventory arrays are parallel and distinct, the body belongs to this
        player, and it has a hitpoints skill. */
    ghost predicate Valid()
      reads this, body
    {
      && inventory != inventoryAmounts && inventory != questProgress && inventoryAmounts != questProgress
      && inventory.Length == inventoryAmounts.Length
      && body.kind == PlayerKind(username)
      && |body.st.skills| > HITPOINTS
    }

    /** The constructor: the entity stands where it was saved and respawns at (0, 0); the
        four saved skills are loaded into the five-skill array; the saved inventory is
        copied into 12 empty slots and the quest progress into 10; hitpoints are full for
        the hitpoints experience, and the attack style is "attack". `influence` is the sum
        of the rewards of the finished quests, which the quest manager (not part of this
        model) supplies. The saved arrays must fit the new ones; `Login` is the caller
        that lets the copy throw when they do not. */
    constructor(levels: seq<int>, entityID: string, username: string, at: Pos, savedSkills: seq<int>,
                savedItems: seq<int>, savedAmounts: seq<int>, savedQuests: seq<int>, influence: int,
                weapon: int, shield: int, skin: int, hair: int, shirt: int, pants: int)
      requires |levels| == ExperienceCurve.MAX_LEVEL && |savedSkills| == 4
      requires |savedItems| <= INVENTORY_SIZE && |savedAmounts| <= INVENTORY_SIZE && |savedQuests| <= QUEST_COUNT
      ensures Valid() && fresh(inventory) && fresh(inventoryAmounts) && fresh(questProgress) && fresh(body)
      ensures this.username == username && body.entityID == entityID && body.Origin() == Pos(0, 0)
      ensures PositionOf(body.st) == at && body.st.skills == savedSkills + [0]
      ensures body.st.weapon == weapon && body.st.shield == shield
      ensures body.st.currentHitpoints == ExperienceCurve.LevelByExp(levels, savedSkills[HITPOINTS])
      ensures body.st.attackStyle == Some("attack")
      ensures inventory.Length == INVENTORY_SIZE && questProgress.Length == QUEST_COUNT
      ensures inventory[..] == LoadedSlots(savedItems, EMPTY, INVENTORY_SIZE).value
      ensures inventoryAmounts[..] == LoadedSlots(savedAmounts, 0, INVENTORY_SIZE).value
      ensures questProgress[..] == LoadedSlots(savedQuests, 0, QUEST_COUNT).value
      ensures profile == Profile(influence, skin, hair, shirt, pants, ALL_PLAYER_FLAGS)
    {
      var skills := savedSkills + [0];
      body := new Combatant(entityID, PlayerKind(username), at.x, at.y, Pos(0, 0), skills,
                            ExperienceCurve.LevelByExp(levels, skills[HITPOINTS]), weapon, shield, Some("attack"));
      this.username := username;
      inventory := new int[INVENTORY_SIZE](i => if 0 <= i < |savedItems| then savedItems[i] else EMPTY);
      inventoryAmounts := new int[INVENTORY_SIZE](i => if 0 <= i < |savedAmounts| then savedAmounts[i] else 0);
      questProgress := new int[QUEST_COUNT](i => if 0 <= i < |savedQuests| then savedQuests[i] else 0);
      profile := Profile(influence, skin, hair, shirt, pants, ALL_PLAYER_FLAGS);
      new;
      assert inventory[..] == savedItems + seq(INVENTORY_SIZE - |savedItems|, _ => EMPTY);
      assert inventoryAmounts[..] == savedAmounts + seq(INVENTORY_SIZE - |savedAmounts|, _ => 0);
      assert questProgress[..] == savedQuests + seq(QUEST_COUNT - |savedQuests|, _ => 0);
    }

    /** `clearChangedFlags`: every flag of the player and of its body is lowered. */
    method ClearChangedFlags()
      modifies this, body
      ensures body.st == old(body.st).(changed := {})
      ensures profile == old(profile).(changed := {})
    {
      body.ClearChangedFlags();
      profile := profile.(changed := {});
    }

    method SetInfluence(v: int)
      modifies this
      ensures profile == old(profile).(influence := v, changed := old(profile.changed) + {InfluenceChanged})
    {
      profile := profile.(influence := v, changed := profile.changed + {InfluenceChanged});
    }

    method SetSkinColor(v: int)
      modifies this
      ensures profile == old(profile).(skinColor := v, changed := old(profile.changed) + {SkinColorChanged})
    {
      profile := profile.(skinColor := v, changed := profile.changed + {SkinColorChanged});
    }

    method SetHairColor(v: int)
      modifies this
      ensures profile == old(profile).(hairColor := v, changed := old(profile.changed) + {HairColorChanged})
    {
      profile := profile.(hairColor := v, changed := profile.changed + {HairColorChanged});
    }

    method SetShirtColor(v: int)
      modifies this
      ensures profile == old(profile).(shirtColor := v, changed := old(profile.changed) + {ShirtColorChanged})
    {
      profile := profile.(shirtColor := v, changed := profile.changed + {ShirtColorChanged});
    }

    method SetPantsColor(v: int)
      modifies this
      ensures profile == old(profile).(pantsColor := v, changed := old(profile.changed) + {PantsColorChanged})
    {
      profile := profile.(pantsColor := v, changed := profile.changed + {PantsColorChanged});
    }

    /** The first slot holding `v`, scanning from slot 0: the loop of
        `getEmptyInventorySlot` (for `v` = 0) and the first-match loops of
        `addItemToInventory` and the item-removal action. */
    method SlotOf(v: int) returns (slot: int)
      ensures slot == FirstSlotOf(inventory[..], v)
    {
      var i := 0;
      while i < inventory.Length
        invariant 0 <= i <= inventory.Length
        invariant v !in inventory[..i]
      {
        if inventory[i] == v {
          return i;
        }
        assert inventory[..i + 1] == inventory[..i] + [inventory[i]];
        i := i + 1;
      }
      assert inventory[..] == inventory[..i];
      return -1;
    }

    /** `getEmptyInventorySlot`: the first empty slot, -1 when the inventory is full. */
    method GetEmptyInventorySlot() returns (slot: int)
      ensures -1 <= slot < inventory.Length && (slot == -1 <==> EMPTY !in inventory[..])
      ensures slot >= 0 ==> inventory[slot] == EMPTY && EMPTY !in inventory[..slot]
    {
      slot := SlotOf(EMPTY);
    }

    /** `handleSwapInventorySlotsAction`: an out-of-range slot or a swap of a slot with
        itself changes nothing; otherwise items and amounts trade places, a wielded index
        follows its item, and both inventory flags are raised. */
    method HandleSwapInventorySlots(from: int, to: int)
      requires Valid()
      modifies this, body, inventory, inventoryAmounts
      ensures Valid() && inventory == old(inventory) && inventoryAmounts == old(inventoryAmounts)
      ensures !(0 <= from < inventory.Length && 0 <= to < inventory.Length) || from == to ==>
        && inventory[..] == old(inventory[..]) && inventoryAmounts[..] == old(inventoryAmounts[..])
        && body.st == old(body.st) && profile == old(profile)
      ensures 0 <= from < inventory.Length && 0 <= to < inventory.Length && from != to ==>
        && inventory[..] == Exchanged(old(inventory[..]), from, to)
        && inventoryAmounts[..] == Exchanged(old(inventoryAmounts[..]), from, to)
        && body.st == Reequipped(old(body.st), from, to)
        && profile == InventoryTouched(old(profile), {InventoryChanged, InventoryAmountsChanged})
    {
      if from < 0 || to < 0 || from >= inventory.Length || to >= inventory.Length {
        return;
      }
      if from == to {
        return;
      }
      inventory[from], inventory[to] := inventory[to], inventory[from];
      inventoryAmounts[from], inventoryAmounts[to] := inventoryAmounts[to], inventoryAmounts[from];
      if body.st.weapon == from || body.st.weapon == to {
        body.SetWeapon(Follow(body.st.weapon, from, to));
      }
      if body.st.shield == from || body.st.shield == to {
        body.SetShield(Follow(body.st.shield, from, to));
      }
      profile := InventoryTouched(profile, {InventoryChanged, InventoryAmountsChanged});
    }

    /** `addItemToInventory`: the inventory becomes that of `Addition`, whose message (if
        any) goes to the player's chat; on success both inventory flags are raised. */
    method AddItemToInventory(catalog: Catalog, itemID: int, quantity: int, events: TickEvents, now: int)
      returns (added: bool)
      requires Valid()
      modifies this, inventory, inventoryAmounts, events
      ensures Valid() && inventory == old(inventory) && inventoryAmounts == old(inventoryAmounts)
      ensures var r := Addition(Lookup(catalog, itemID), old(inventory[..]), old(inventoryAmounts[..]), itemID, quantity);
        && added == r.added && inventory[..] == r.items && inventoryAmounts[..] == r.amounts
        && profile == (if added then InventoryTouched(old(profile), {InventoryChanged, InventoryAmountsChanged})
                       else old(profile))
        && events.View() == (if r.message.Some?
                             then old(events.View()).(chat := old(events.chatMessages) +
                                    [ChatMessage(username, Plain(r.message.value), now, false)])
                             else old(events.View()))
    {
      if itemID !in catalog {
        return false;
      }
      if catalog[itemID].stackable {
        added := AddStackable(catalog[itemID], itemID, quantity, events, now);
      } else {
        added := AddSingle(catalog[itemID], itemID, quantity, events, now);
      }
    }

    /** The message of a failed addition, on the player's chat. */
    method Tell(text: string, events: TickEvents, now: int)
      modifies events
      ensures events.View() == old(events.View()).(chat := old(events.chatMessages) +
                [ChatMessage(username, Plain(text), now, false)])
    {
      events.AddChat(ChatMessage(username, Plain(text), now, false));
    }

    /** The stackable branch of `addItemToInventory`. */
    method AddStackable(def: ItemDef, itemID: int, quantity: int, events: TickEvents, now: int)
      returns (added: bool)
      requires Valid() && def.stackable
      modifies this, inventory, inventoryAmounts, events
      ensures Valid() && inventory == old(inventory) && inventoryAmounts == old(inventoryAmounts)
      ensures var r := Addition(Some(def), old(inventory[..]), old(inventoryAmounts[..]), itemID, quantity);
        && added == r.added && inventory[..] == r.items && inventoryAmounts[..] == r.amounts
        && profile == (if added then InventoryTouched(old(profile), {InventoryChanged, InventoryAmountsChanged})
                       else old(profile))
        && events.View() == (if r.message.Some?
                             then old(events.View()).(chat := old(events.chatMessages) +
                                    [ChatMessage(username, Plain(r.message.value), now, false)])
                             else old(events.View()))
    {
      var i := SlotOf(itemID);
      if i >= 0 {
        if inventoryAmounts[i] + quantity > INT_MAX {
          Tell(FULL_STACK_MESSAGE, events, now);
          return false;
        }
        inventoryAmounts[i] := Wrap32(inventoryAmounts[i] + quantity);
      } else {
        var e := GetEmptyInventorySlot();
        if e == -1 {
          Tell(NO_SPACE_MESSAGE, events, now);
          return false;
        }
        inventory[e] := itemID;
        inventoryAmounts[e] := quantity;
      }
      profile := InventoryTouched(profile, {InventoryChanged, InventoryAmountsChanged});
      return true;
    }

    /** The non-stackable branch of `addItemToInventory`: one item into the first empty
        slot; the amounts are not touched. */
    method AddSingle(def: ItemDef, itemID: int, quantity: int, events: TickEvents, now: int)
      returns (added: bool)
      requires Valid() && !def.stackable
      modifies this, inventory, events
      ensures Valid() && inventory == old(inventory) && inventoryAmounts == old(inventoryAmounts)
      ensures var r := Addition(Some(def), old(inventory[..]), old(inventoryAmounts[..]), itemID, quantity);
        && added == r.added && inventory[..] == r.items && inventoryAmounts[..] == r.amounts
        && profile == (if added then InventoryTouched(old(profile), {InventoryChanged, InventoryAmountsChanged})
                       else old(profile))
        && events.View() == (if r.message.Some?
                             then old(events.View()).(chat := old(events.chatMessages) +
                                    [ChatMessage(username, Plain(r.message.value), now, false)])
                             else old(events.View()))
    {
      if quantity > 1 {
        return false;
      }
      var e := GetEmptyInventorySlot();
      if e == -1 {
        Tell(NO_SPACE_MESSAGE, events, now);
        return false;
      }
      inventory[e] := itemID;
      profile := InventoryTouched(profile, {InventoryChanged, InventoryAmountsChanged});
      return true;
    }
    /** `eatItem`: a slot that is out of range or does not hold food changes nothing.
        Otherwise the slot is emptied (its amount too when the item stacks), the body is
        `Fed` up to the level of its hitpoints experience, and the player is told and hears
        it. The inventory flags are not raised. */
    method EatItem(catalog: Catalog, levels: seq<int>, index: int, events: TickEvents, now: int)
      requires Valid() && |levels| == ExperienceCurve.MAX_LEVEL
      modifies body, inventory, inventoryAmounts, events
      ensures Valid() && inventory == old(inventory) && inventoryAmounts == old(inventoryAmounts)
      ensures profile == old(profile)
      ensures !Edible(catalog, old(inventory[..]), index) ==>
        && inventory[..] == old(inventory[..]) && inventoryAmounts[..] == old(inventoryAmounts[..])
        && body.st == old(body.st) && events.View() == old(events.View())
      ensures Edible(catalog, old(inventory[..]), index) ==>
        var def := catalog[old(inventory[index])];
        && inventory[..] == old(inventory[..])[index := EMPTY]
        && inventoryAmounts[..] == (if def.stackable then old(inventoryAmounts[..])[index := 0]
                                    else old(inventoryAmounts[..]))
        && body.st == Fed(old(body.st), def.heal.value,
                          ExperienceCurve.LevelByExp(levels, old(body.st).skills[HITPOINTS]))
        && events.View() == old(events.View()).(
             sounds := old(events.soundEvents) + [OwnSound("eat.ogg", body.entityID)],
             chat := old(events.chatMessages) + [ChatMessage(username, Plain(EatMessage(def.name)), now, false)])
    {
      if index < 0 || index >= inventory.Length {
        return;
      }
      var itemID := inventory[index];
      if itemID !in catalog || catalog[itemID].heal.None? {
        return;
      }
      var def := catalog[itemID];
      inventory[index] := EMPTY;
      if def.stackable {
        inventoryAmounts[index] := 0;
      }
      Heal(def.heal.value, ExperienceCurve.LevelByExp(levels, body.st.skills[HITPOINTS]));
      Tell(EatMessage(def.name), events, now);
      events.AddSound(OwnSound("eat.ogg", body.entityID));
    }

    /** The body's part of `eatItem`: hitpoints up by `heal` (raising their flag), brought
        down to `cap` without raising it again, then the attack delay. */
    method Heal(heal: int, cap: int)
      modifies body
      ensures body.st == Fed(old(body.st), heal, cap)
    {
      body.SetCurrentHitpoints(Wrap32(body.st.currentHitpoints + heal));
      if body.st.currentHitpoints > cap {
        body.st := body.st.(currentHitpoints := cap);
      }
      body.SetAttackTickCounter(EAT_DELAY);
    }

    /** `dropItem`: an out-of-range or empty slot changes nothing. Otherwise a weapon or
        shield wielded from the slot is unwielded first, even when the item manager then
        does not know the item, in which case nothing else changes. A known item leaves
        the slot (its whole stack when it stacks) and is returned as a ground item at the
        player's tile; the player hears it and both inventory flags are raised. */
    method DropItem(catalog: Catalog, index: int, events: TickEvents) returns (spawned: Option<Spawn>)
      requires Valid()
      modifies this, body, inventory, inventoryAmounts, events
      ensures Valid() && inventory == old(inventory) && inventoryAmounts == old(inventoryAmounts)
      ensures !Occupied(old(inventory[..]), index) ==>
        && inventory[..] == old(inventory[..]) && inventoryAmounts[..] == old(inventoryAmounts[..])
        && body.st == old(body.st) && profile == old(profile) && events.View() == old(events.View())
        && spawned.None?
      ensures Occupied(old(inventory[..]), index) ==> body.st == Disarmed(old(body.st), index)
      ensures Occupied(old(inventory[..]), index) && old(inventory[index]) !in catalog ==>
        && inventory[..] == old(inventory[..]) && inventoryAmounts[..] == old(inventoryAmounts[..])
        && profile == old(profile) && events.View() == old(events.View()) && spawned.None?
      ensures Occupied(old(inventory[..]), index) && old(inventory[index]) in catalog ==>
        var def := catalog[old(inventory[index])];
        && inventory[..] == old(inventory[..])[index := EMPTY]
        && inventoryAmounts[..] == (if def.stackable then old(inventoryAmounts[..])[index := 0]
                                    else old(inventoryAmounts[..]))
        && spawned == Some(Spawn(old(inventory[index]),
                                 if def.stackable then Some(old(inventoryAmounts[index])) else None,
                                 PositionOf(old(body.st))))
        && multiset(inventory[..]) + multiset{spawned.value.itemID} == multiset(old(inventory[..])) + multiset{EMPTY}
        && events.View() == old(events.View()).(sounds := old(events.soundEvents) + [OwnSound("drop.ogg", body.entityID)])
        && profile == InventoryTouched(old(profile), {InventoryChanged, InventoryAmountsChanged})
    {
      if index < 0 || index >= inventory.Length {
        return None;
      }
      var itemID := inventory[index];
      if itemID == EMPTY {
        return None;
      }
      Disarm(index);
      if itemID !in catalog {
        return None;
      }
      spawned := LetGo(catalog[itemID], index, events);
    }

    /** The first part of `dropItem`: a weapon or shield wielded from slot `index` is
        unwielded. */
    method Disarm(index: int)
      modifies body
      ensures body.st == Disarmed(old(body.st), index)
    {
      if body.st.weapon != -1 && body.st.weapon == index {
        body.SetWeapon(-1);
      }
      if body.st.shield != -1 && body.st.shield == index {
        body.SetShield(-1);
      }
    }

    /** The rest of `dropItem` once the item `def` of slot `index` is known. */
    method LetGo(def: ItemDef, index: int, events: TickEvents) returns (spawned: Option<Spawn>)
      requires Valid() && Occupied(inventory[..], index)
      modifies this, inventory, inventoryAmounts, events
      ensures Valid() && inventory == old(inventory) && inventoryAmounts == old(inventoryAmounts)
      ensures inventory[..] == old(inventory[..])[index := EMPTY]
      ensures inventoryAmounts[..] == (if def.stackable then old(inventoryAmounts[..])[index := 0]
                                       else old(inventoryAmounts[..]))
      ensures spawned == Some(Spawn(old(inventory[index]),
                                    if def.stackable then Some(old(inventoryAmounts[index])) else None,
                                    PositionOf(body.st)))
      ensures multiset(inventory[..]) + multiset{spawned.value.itemID} == multiset(old(inventory[..])) + multiset{EMPTY}
      ensures events.View() == old(events.View()).(sounds := old(events.soundEvents) + [OwnSound("drop.ogg", body.entityID)])
      ensures profile == InventoryTouched(old(profile), {InventoryChanged, InventoryAmountsChanged})
    {
      var itemID := inventory[index];
      MultisetUpdate(inventory[..], index, EMPTY);
      inventory[index] := EMPTY;
      var at := Pos(body.st.worldX, body.st.worldY);
      if def.stackable {
        spawned := Some(Spawn(itemID, Some(inventoryAmounts[index]), at));
        inventoryAmounts[index] := 0;
      } else {
        spawned := Some(Spawn(itemID, None, at));
      }
      events.AddSound(OwnSound("drop.ogg", body.entityID));
      profile := InventoryTouched(profile, {InventoryChanged, InventoryAmountsChanged});
    }

    /** `unwieldItem`: only a slot in range that holds an item the catalogue knows as
        wieldable is considered; its weapon or shield is then unwielded (see
        `Unwielded`). */
    method UnwieldItem(catalog: Catalog, index: int)
      requires Valid()
      modifies body
      ensures Valid()
      ensures 0 <= index < inventory.Length && inventory[index] in catalog && catalog[inventory[index]].wieldable ==>
        body.st == Unwielded(old(body.st), index)
      ensures !(0 <= index < inventory.Length && inventory[index] in catalog && catalog[inventory[index]].wieldable) ==>
        body.st == old(body.st)
    {
      if index < 0 || index >= inventory.Length {
        return;
      }
      var itemID := inventory[index];
      if itemID !in catalog {
        return;
      }
      if !catalog[itemID].wieldable {
        return;
      }
      if body.st.weapon != -1 && body.st.weapon == index {
        body.SetWeapon(-1);
      } else if body.st.shield != -1 && body.st.shield == index {
        body.SetShield(-1);
      }
    }

    /** The item-removal action of `setTickActions`: the inventory becomes that of
        `Removal`, and the item flag (only that one) is raised whether or not the item was
        held. */
    method RemoveItemFromInventory(itemID: int, amount: int)
      requires Valid()
      modifies this, inventory, inventoryAmounts
      ensures Valid() && inventory == old(inventory) && inventoryAmounts == old(inventoryAmounts)
      ensures (inventory[..], inventoryAmounts[..]) == Removal(old(inventory[..]), old(inventoryAmounts[..]), itemID, amount)
      ensures profile == InventoryTouched(old(profile), {InventoryChanged})
    {
      ghost var r := Removal(inventory[..], inventoryAmounts[..], itemID, amount);
      var k := SlotOf(itemID);
      if k >= 0 {
        if amount == 0 {
          inventory[k] := EMPTY;
          inventoryAmounts[k] := 0;
        } else {
          inventoryAmounts[k] := Wrap32(inventoryAmounts[k] - amount);
          if inventoryAmounts[k] <= 0 {
            inventory[k] := EMPTY;
            inventoryAmounts[k] := 0;
          }
        }
      }
      assert inventory[..] == r.0 && inventoryAmounts[..] == r.1;
      profile := InventoryTouched(profile, {InventoryChanged});
    }

    /** `resetPlayer`: every occupied slot is left on the ground at the player's tile (the
        returned spawns, in slot order), the inventory is replaced by 12 empty slots (20 as
        written, which the next login cannot load), and
        the body is unwielded and respawned (`PlayerReset`); both inventory flags are
        raised. */
    method ResetPlayer(levels: seq<int>) returns (spawned: seq<Spawn>)
      requires Valid() && |levels| == ExperienceCurve.MAX_LEVEL
      modifies this, body
      ensures Valid() && fresh(inventory) && fresh(inventoryAmounts)
      ensures inventory[..] == seq(INVENTORY_SIZE, _ => EMPTY)
      ensures inventoryAmounts[..] == seq(INVENTORY_SIZE, _ => 0)
      ensures spawned == Scattered(old(inventory[..]), old(inventoryAmounts[..]), PositionOf(old(body.st)))
      ensures body.st == PlayerReset(levels, old(body.st), body.Origin())
      ensures profile == InventoryTouched(old(profile), {InventoryChanged, InventoryAmountsChanged})
    {
      body.SetWeapon(-1);
      body.SetShield(-1);
      ghost var s1 := body.st;
      assert s1 == old(body.st).(weapon := -1, shield := -1,
                                 changed := old(body.st).changed + {WeaponChanged, ShieldChanged});
      spawned := Scatter(Pos(body.st.worldX, body.st.worldY));
      EmptyInventory();
      body.Respawn(levels);
    }

    /** The end of `resetPlayer`'s inventory handling: new empty slots, both inventory
        flags raised. The source makes 20; the model makes the 12 a login can load back
        (`ResetThenLoadFailsAsWritten`, `ResetThenLoadRestores`). */
    method EmptyInventory()
      requires Valid()
      modifies this
      ensures Valid() && fresh(inventory) && fresh(inventoryAmounts)
      ensures inventory[..] == seq(INVENTORY_SIZE, _ => EMPTY)
      ensures inventoryAmounts[..] == seq(INVENTORY_SIZE, _ => 0)
      ensures profile == InventoryTouched(old(profile), {InventoryChanged, InventoryAmountsChanged})
    {
      inventory := new int[INVENTORY_SIZE](_ => EMPTY);
      inventoryAmounts := new int[INVENTORY_SIZE](_ => 0);
      profile := InventoryTouched(profile, {InventoryChanged, InventoryAmountsChanged});
    }

    /** The loop of `resetPlayer`: a ground item at `at` for every occupied slot, in slot
        order, with the stack amount when it is positive. */
    method Scatter(at: Pos) returns (spawned: seq<Spawn>)
      requires Valid()
      ensures spawned == Scattered(inventory[..], inventoryAmounts[..], at)
    {
      ghost var items, amounts := inventory[..], inventoryAmounts[..];
      spawned := [];
      var i := 0;
      while i < inventory.Length
        invariant 0 <= i <= inventory.Length
        invariant spawned + Scattered(items[i..], amounts[i..], at) == Scattered(items, amounts, at)
      {
        ScatteredStep(items[i..], amounts[i..], at);
        assert items[i..][1..] == items[i + 1..] && amounts[i..][1..] == amounts[i + 1..];
        if inventory[i] != EMPTY {
          spawned := spawned + [Spawn(inventory[i], if inventoryAmounts[i] > 0 then Some(inventoryAmounts[i]) else None, at)];
        }
        i := i + 1;
      }
    }

    /** The end of dying in `updateCounters`: `resetPlayer`, then alive with the dying
        counter at 0. */
    method Revive(levels: seq<int>) returns (spawned: seq<Spawn>)
      requires Valid() && |levels| == ExperienceCurve.MAX_LEVEL
      modifies this, body
      ensures Valid() && fresh(inventory) && fresh(inventoryAmounts)
      ensures inventory[..] == seq(INVENTORY_SIZE, _ => EMPTY)
      ensures inventoryAmounts[..] == seq(INVENTORY_SIZE, _ => 0)
      ensures spawned == Scattered(old(inventory[..]), old(inventoryAmounts[..]), PositionOf(old(body.st)))
      ensures body.st == Revived(levels, old(body.st), body.Origin())
      ensures profile == InventoryTouched(old(profile), {InventoryChanged, InventoryAmountsChanged})
    {
      spawned := ResetPlayer(levels);
      body.SetIsDying(false);
      body.SetDyingCounter(0);
    }

    /** `takeItem`, with the ground item looked up by the caller (`null` when it is
        gone): a missing item is announced as gone; otherwise it is added like
        `addItemToInventory` and, when that succeeds, marked deleted with a pick-up
        sound. */
    method TakeItem(catalog: Catalog, item: Item?, events: TickEvents, now: int)
      requires Valid()
      modifies this, inventory, inventoryAmounts, events, item
      ensures Valid() && inventory == old(inventory) && inventoryAmounts == old(inventoryAmounts)
      ensures item == null ==>
        && inventory[..] == old(inventory[..]) && inventoryAmounts[..] == old(inventoryAmounts[..])
        && profile == old(profile)
        && events.View() == old(events.View()).(chat := old(events.chatMessages) +
             [ChatMessage(username, Plain(GONE_MESSAGE), now, false)])
      ensures item != null ==>
        var r := Addition(Lookup(catalog, old(item.itemID)), old(inventory[..]), old(inventoryAmounts[..]),
                          old(item.itemID), old(item.amount));
        && inventory[..] == r.items && inventoryAmounts[..] == r.amounts
        && item.View() == (if r.added then old(item.View()).(isDeleted := true) else old(item.View()))
        && events.View() == old(events.View()).(
             sounds := old(events.soundEvents) + (if r.added then [OwnSound("pick_up.ogg", body.entityID)] else []),
             chat := old(events.chatMessages) + Told(username, r.message, now))
    {
      if item == null {
        Tell(GONE_MESSAGE, events, now);
        return;
      }
      var added := AddItemToInventory(catalog, item.itemID, item.amount, events, now);
      if added {
        item.SetIsDeleted(true);
        events.AddSound(OwnSound("pick_up.ogg", body.entityID));
      }
    }
  }
}
