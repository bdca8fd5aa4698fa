/** The client's view of a player: what `update` takes over from a snapshot. The
    snapshot is the server's player DTO, whose absent fields arrive as `undefined`.
    Wielding and unwielding build and remove meshes; here they are calls recorded in
    order. */
module ClientPlayers {
  import opened Common
  import Transfer

  /** A call `update` makes on the model: `removeWeapon`, `removeShield`, or
      `loadWieldable` of an inventory entry (`undefined` when the slot is not there). */
  datatype Wield = RemoveWeapon | RemoveShield | LoadWieldable(item: Option<int>)

  /** The fields `update` may change, and the wield calls made so far. `weapon` and
      `shield` are `undefined` until a snapshot sets them. */
  datatype PlayerState = PlayerState(attackStyle: string, name: string, inventory: seq<int>,
                                     inventoryAmounts: seq<int>, skills: seq<int>,
                                     weapon: Option<int>, shield: Option<int>, wields: seq<Wield>)

  /** A new player: empty strings and lists, nothing wielded. */
  const INITIAL_PLAYER: PlayerState := PlayerState("", "", [], [], [], None, None, [])

  /** `inventory[i]`: `undefined` outside the list. */
  function Slot(inventory: seq<int>, i: int): (r: Option<int>)
    ensures r.Some? <==> 0 <= i < |inventory|
    ensures r.Some? ==> r.value == inventory[i]
  {
    if 0 <= i < |inventory| then Some(inventory[i]) else None
  }

  /** The snapshot's value when it has one, else the one kept. */
  function OrKept<T>(o: Option<T>, kept: T): T {
    if o.Some? then o.value else kept
  }

  /** The weapon or shield handling: an absent index keeps the stored one and calls
      nothing; -1 unwields and stores -1; any other index, 0 included, wields the item
      in that inventory slot and stores the index. */
  function Wielded(index: Option<int>, kept: Option<int>, inventory: seq<int>, remove: Wield): (Option<int>, seq<Wield>)
  {
    if index.None? then (kept, [])
    else if index.value == -1 then (Some(-1), [remove])
    else (index, [LoadWieldable(Slot(inventory, index.value))])
  }

  /** The state after `update(d)`. The wieldable is looked up in the inventory as it is
      after this snapshot's inventory was taken over. */
  function Merged(p: PlayerState, d: Transfer.PlayerDto): PlayerState {
    var inventory := OrKept(d.inventory, p.inventory);
    var (weapon, byWeapon) := Wielded(d.weapon, p.weapon, inventory, RemoveWeapon);
    var (shield, byShield) := Wielded(d.shield, p.shield, inventory, RemoveShield);
    PlayerState(OrKept(d.attackStyle, p.attackStyle), OrKept(d.username, p.name), inventory,
                OrKept(d.inventoryAmounts, p.inventoryAmounts), OrKept(d.skills, p.skills),
                weapon, shield, p.wields + byWeapon + byShield)
  }

  /** Each plain field is taken from the snapshot exactly when the snapshot has it,
      and kept otherwise. */
  lemma MergedTakesDefinedFields(p: PlayerState, d: Transfer.PlayerDto)
    ensures var r := Merged(p, d);
      && (d.attackStyle.Some? ==> r.attackStyle == d.attackStyle.value)
      && (d.attackStyle.None? ==> r.attackStyle == p.attackStyle)
      && (d.username.Some? ==> r.name == d.username.value) && (d.username.None? ==> r.name == p.name)
      && (d.inventory.Some? ==> r.inventory == d.inventory.value)
      && (d.inventory.None? ==> r.inventory == p.inventory)
      && (d.inventoryAmounts.Some? ==> r.inventoryAmounts == d.inventoryAmounts.value)
      && (d.inventoryAmounts.None? ==> r.inventoryAmounts == p.inventoryAmounts)
      && (d.skills.Some? ==> r.skills == d.skills.value) && (d.skills.None? ==> r.skills == p.skills)
  {
  }

  /** The weapon: absent keeps it and calls nothing; -1 unwields and stores -1; any
      other index wields the item in that slot of the new inventory and stores the
      index. The shield is handled the same way after it. */
  lemma MergedWeapon(p: PlayerState, d: Transfer.PlayerDto)
    ensures var r := Merged(p, d);
      var inventory := if d.inventory.Some? then d.inventory.value else p.inventory;
      && (d.weapon.None? && d.shield.None? ==> r.weapon == p.weapon && r.shield == p.shield && r.wields == p.wields)
      && (d.weapon == Some(-1) ==> r.weapon == Some(-1) && r.wields[|p.wields|] == RemoveWeapon)
      && (d.weapon.Some? && d.weapon.value != -1 ==>
            r.weapon == d.weapon && r.wields[|p.wields|] == LoadWieldable(Slot(inventory, d.weapon.value)))
      && (d.shield == Some(-1) ==> r.shield == Some(-1) && r.wields[|r.wields| - 1] == RemoveShield)
      && (d.shield.Some? && d.shield.value != -1 ==>
            r.shield == d.shield && r.wields[|r.wields| - 1] == LoadWieldable(Slot(inventory, d.shield.value)))
      && |r.wields| == |p.wields| + (if d.weapon.Some? then 1 else 0) + (if d.shield.Some? then 1 else 0)
  {
  }

  /** Wielding slot 0 of a snapshot that brings its own inventory wields that
      inventory's first item, not the one held before. */
  lemma WieldsFromNewInventory(p: PlayerState, d: Transfer.PlayerDto)
    requires d.inventory.Some? && |d.inventory.value| > 0 && d.weapon == Some(0)
    ensures Merged(p, d).wields[|p.wields|] == LoadWieldable(Some(d.inventory.value[0]))
  {
  }

  /** Taking the same snapshot twice leaves the same fields as taking it once; only the
      wield calls are made again. */
  lemma MergedTwice(p: PlayerState, d: Transfer.PlayerDto)
    ensures var once := Merged(p, d);
      var twice := Merged(once, d);
      twice.(wields := once.wields) == once
  {
  }

  class ClientPlayer {
    const entityID: Option<string>
    /** The fields `update` may change (`attackStyle`, `name`, the inventory lists,
        `skills`, `weapon`, `shield`) and the wield calls made so far. */
    var state: PlayerState

    constructor(entityID: Option<string>)
      ensures this.entityID == entityID && state == INITIAL_PLAYER
    {
      this.entityID := entityID;
      state := INITIAL_PLAYER;
    }

    /** `update`, after the position part it shares with every entity: take over the
        defined fields, then handle the weapon and the shield. */
    method Update(d: Transfer.PlayerDto)
      modifies this`state
      ensures state == Merged(old(state), d)
    {
      TakeOver(d);
      WieldWeapon(d.weapon);
      WieldShield(d.shield);
    }

    /** The plain fields of `update`: each is taken over when the snapshot has it. */
    method TakeOver(d: Transfer.PlayerDto)
      modifies this`state
      ensures state == old(state).(attackStyle := OrKept(d.attackStyle, old(state).attackStyle),
                                   name := OrKept(d.username, old(state).name),
                                   inventory := OrKept(d.inventory, old(state).inventory),
                                   inventoryAmounts := OrKept(d.inventoryAmounts, old(state).inventoryAmounts),
                                   skills := OrKept(d.skills, old(state).skills))
    {
      if d.attackStyle.Some? { state := state.(attackStyle := d.attackStyle.value); }
      if d.username.Some? { state := state.(name := d.username.value); }
      if d.inventory.Some? { state := state.(inventory := d.inventory.value); }
      if d.inventoryAmounts.Some? { state := state.(inventoryAmounts := d.inventoryAmounts.value); }
      if d.skills.Some? { state := state.(skills := d.skills.value); }
    }

    /** The weapon part of `update`. */
    method WieldWeapon(index: Option<int>)
      modifies this`state
      ensures var (weapon, calls) := Wielded(index, old(state).weapon, old(state).inventory, RemoveWeapon);
        state == old(state).(weapon := weapon, wields := old(state).wields + calls)
    {
      if index.None? {
        assert state.wields + [] == state.wields;
      } else {
        if index.value == -1 {
          state := state.(wields := state.wields + [RemoveWeapon], weapon := Some(-1));
        } else {
          var itemIndex := Slot(state.inventory, index.value);
          state := state.(wields := state.wields + [LoadWieldable(itemIndex)], weapon := index);
        }
      }
    }

    /** The shield part of `update`. */
    method WieldShield(index: Option<int>)
      modifies this`state
      ensures var (shield, calls) := Wielded(index, old(state).shield, old(state).inventory, RemoveShield);
        state == old(state).(shield := shield, wields := old(state).wields + calls)
    {
      if index.None? {
        assert state.wields + [] == state.wields;
      } else {
        if index.value == -1 {
          state := state.(wields := state.wields + [RemoveShield], shield := Some(-1));
        } else {
          var itemIndex := Slot(state.inventory, index.value);
          state := state.(wields := state.wields + [LoadWieldable(itemIndex)], shield := index);
        }
      }
    }
  }
}
