/** The data-transfer objects the server sends for players, NPCs and items. Each has an
    incremental form, carrying only the fields whose change flag is raised, and a full
    form for a client that has just connected. A `null` field is `None`. */
module Transfer {
  import opened Common
  import opened Entities
  import opened Items
  import opened Players
  import opened Npcs

  /** A field that the source copies when `flag` is raised from a value that cannot be
      `null`: present exactly when the flag is raised, and then holding the value. */
  predicate Carries<T(==)>(field: Option<T>, flag: bool, value: T) {
    (field.Some? <==> flag) && (field.Some? ==> field.value == value)
  }

  /** A field copied when `flag` is raised from a value that may be `null`: it holds the
      value when the flag is raised, and is absent otherwise. */
  predicate CarriesNullable<T(==)>(field: Option<T>, flag: bool, value: Option<T>) {
    (flag ==> field == value) && (!flag ==> field.None?)
  }

  /** The value when the flag is raised, else `null`. */
  function Gate<T(==)>(flag: bool, value: T): (r: Option<T>)
    ensures Carries(r, flag, value)
  {
    if flag then Some(value) else None
  }

  /** A value that may be `null` when the flag is raised, else `null`. */
  function GateNullable<T(==)>(flag: bool, value: Option<T>): (r: Option<T>)
    ensures CarriesNullable(r, flag, value)
  {
    if flag then value else None
  }

  // ---------------------------------------------------------------------------------
  // Players

  /** What the player DTO is built from: the player's id and name, the state of its
      body, its own fields, its three arrays and the tile it stood on at the last tick
      (`lastTickX`/`lastTickY`, which the player keeps outside this model). */
  datatype PlayerView = PlayerView(entityID: string, username: string, st: State, profile: Profile,
                                   inventory: seq<int>, inventoryAmounts: seq<int>,
                                   questProgress: seq<int>, lastTick: Pos)

  datatype PlayerDto = PlayerDto(
    inventory: Option<seq<int>>, inventoryAmounts: Option<seq<int>>, questProgress: Option<seq<int>>,
    influence: Option<int>, skinColor: Option<int>, hairColor: Option<int>, shirtColor: Option<int>,
    pantsColor: Option<int>, username: Option<string>,
    skills: Option<seq<int>>, currentHitpoints: Option<int>, isInCombat: Option<bool>,
    weapon: Option<int>, shield: Option<int>, attackStyle: Option<string>, lastDamageDealt: Option<int>,
    entityID: Option<string>, worldX: Option<int>, worldY: Option<int>, lastTickX: Option<int>,
    lastTickY: Option<int>, facingDirection: Option<Direction>, currentPath: Option<seq<Pos>>,
    isDying: Option<bool>)

  /** `hasOnlyEntityId`: the id is there and every other field is `null`. */
  predicate PlayerHasOnlyEntityId(d: PlayerDto) {
    && d.entityID.Some?
    && d.inventory.None? && d.inventoryAmounts.None? && d.questProgress.None? && d.skills.None?
    && d.influence.None? && d.skinColor.None? && d.hairColor.None? && d.shirtColor.None?
    && d.pantsColor.None? && d.username.None? && d.currentHitpoints.None? && d.isInCombat.None?
    && d.weapon.None? && d.shield.None? && d.attackStyle.None? && d.lastDamageDealt.None?
    && d.worldX.None? && d.worldY.None? && d.facingDirection.None? && d.currentPath.None?
    && d.isDying.None? && d.lastTickX.None? && d.lastTickY.None?
  }

  /** Nothing the player DTO reports has changed, except possibly a field whose new
      value is `null` (the attack style or the facing direction). */
  predicate PlayerQuiet(v: PlayerView) {
    var c := v.st.changed;
    && SkillsChanged !in c && CurrentHitpointsChanged !in c && IsInCombatChanged !in c
    && WeaponChanged !in c && ShieldChanged !in c && IsDyingChanged !in c
    && LastDamageDealtChanged !in c && Flag.WorldXChanged !in c && Flag.WorldYChanged !in c
    && (AttackStyleChanged in c ==> v.st.attackStyle.None?)
    && (FacingDirectionChanged in c ==> v.st.facingDirection.None?)
    && v.profile.changed == {}
  }

  /** The incremental `DTOPlayer` constructor: the id always, every other field exactly
      when its flag is raised, and the last-tick tile when either coordinate changed.
      The DTO is empty exactly when the player is quiet. */
  function PlayerDelta(v: PlayerView): (r: PlayerDto)
    ensures r.entityID == Some(v.entityID)
    ensures var pc := v.profile.changed; var p := v.profile;
      && Carries(r.inventory, InventoryChanged in pc, v.inventory)
      && Carries(r.inventoryAmounts, InventoryAmountsChanged in pc, v.inventoryAmounts)
      && Carries(r.questProgress, QuestProgressChanged in pc, v.questProgress)
      && Carries(r.influence, InfluenceChanged in pc, p.influence)
      && Carries(r.skinColor, SkinColorChanged in pc, p.skinColor)
      && Carries(r.hairColor, HairColorChanged in pc, p.hairColor)
      && Carries(r.shirtColor, ShirtColorChanged in pc, p.shirtColor)
      && Carries(r.pantsColor, PantsColorChanged in pc, p.pantsColor)
      && Carries(r.username, UsernameChanged in pc, v.username)
    ensures var c := v.st.changed; var s := v.st;
      && Carries(r.skills, SkillsChanged in c, s.skills)
      && Carries(r.currentHitpoints, CurrentHitpointsChanged in c, s.currentHitpoints)
      && Carries(r.isInCombat, IsInCombatChanged in c, s.isInCombat)
      && Carries(r.weapon, WeaponChanged in c, s.weapon)
      && Carries(r.shield, ShieldChanged in c, s.shield)
      && CarriesNullable(r.attackStyle, AttackStyleChanged in c, s.attackStyle)
      && Carries(r.isDying, IsDyingChanged in c, s.isDying)
      && Carries(r.lastDamageDealt, LastDamageDealtChanged in c, s.lastDamageDealt)
      && Carries(r.worldX, Flag.WorldXChanged in c, s.worldX)
      && Carries(r.worldY, Flag.WorldYChanged in c, s.worldY)
      && CarriesNullable(r.facingDirection, FacingDirectionChanged in c, s.facingDirection)
      && Carries(r.lastTickX, Flag.WorldXChanged in c || Flag.WorldYChanged in c, v.lastTick.x)
      && Carries(r.lastTickY, Flag.WorldXChanged in c || Flag.WorldYChanged in c, v.lastTick.y)
      && r.currentPath.None?
  {
    var c := v.st.changed;
    var pc := v.profile.changed;
    var moved := Flag.WorldXChanged in c || Flag.WorldYChanged in c;
    PlayerDto(
      Gate(InventoryChanged in pc, v.inventory),
      Gate(InventoryAmountsChanged in pc, v.inventoryAmounts),
      Gate(QuestProgressChanged in pc, v.questProgress),
      Gate(InfluenceChanged in pc, v.profile.influence),
      Gate(SkinColorChanged in pc, v.profile.skinColor),
      Gate(HairColorChanged in pc, v.profile.hairColor),
      Gate(ShirtColorChanged in pc, v.profile.shirtColor),
      Gate(PantsColorChanged in pc, v.profile.pantsColor),
      Gate(UsernameChanged in pc, v.username),
      Gate(SkillsChanged in c, v.st.skills),
      Gate(CurrentHitpointsChanged in c, v.st.currentHitpoints),
      Gate(IsInCombatChanged in c, v.st.isInCombat),
      Gate(WeaponChanged in c, v.st.weapon),
      Gate(ShieldChanged in c, v.st.shield),
      GateNullable(AttackStyleChanged in c, v.st.attackStyle),
      Gate(LastDamageDealtChanged in c, v.st.lastDamageDealt),
      Some(v.entityID),
      Gate(Flag.WorldXChanged in c, v.st.worldX),
      Gate(Flag.WorldYChanged in c, v.st.worldY),
      Gate(moved, v.lastTick.x),
      Gate(moved, v.lastTick.y),
      GateNullable(FacingDirectionChanged in c, v.st.facingDirection),
      None,
      Gate(IsDyingChanged in c, v.st.isDying))
  }

  /** An incremental player DTO is left out of the tick's update (it has only its id)
      exactly when the player is quiet. */
  lemma PlayerDeltaEmptyIffQuiet(v: PlayerView)
    ensures PlayerHasOnlyEntityId(PlayerDelta(v)) <==> PlayerQuiet(v)
  {
    var r := PlayerDelta(v);
    var pc := v.profile.changed;
    if pc != {} {
      var f :| f in pc;
      match f
      case InventoryChanged => assert r.inventory.Some?;
      case InventoryAmountsChanged => assert r.inventoryAmounts.Some?;
      case QuestProgressChanged => assert r.questProgress.Some?;
      case InfluenceChanged => assert r.influence.Some?;
      case SkinColorChanged => assert r.skinColor.Some?;
      case HairColorChanged => assert r.hairColor.Some?;
      case ShirtColorChanged => assert r.shirtColor.Some?;
      case PantsColorChanged => assert r.pantsColor.Some?;
      case UsernameChanged => assert r.username.Some?;
    }
  }

  /** The full `DTOPlayer` constructor: every field but the path and the last-tick tile,
      whatever the flags say. */
  function PlayerFull(v: PlayerView): (r: PlayerDto)
    ensures r.entityID == Some(v.entityID) && r.username == Some(v.username)
    ensures r.inventory == Some(v.inventory) && r.inventoryAmounts == Some(v.inventoryAmounts)
    ensures r.questProgress == Some(v.questProgress) && r.skills == Some(v.st.skills)
    ensures r.influence == Some(v.profile.influence) && r.skinColor == Some(v.profile.skinColor)
    ensures r.hairColor == Some(v.profile.hairColor) && r.shirtColor == Some(v.profile.shirtColor)
    ensures r.pantsColor == Some(v.profile.pantsColor)
    ensures r.currentHitpoints == Some(v.st.currentHitpoints) && r.isInCombat == Some(v.st.isInCombat)
    ensures r.weapon == Some(v.st.weapon) && r.shield == Some(v.st.shield)
    ensures r.attackStyle == v.st.attackStyle && r.lastDamageDealt == Some(v.st.lastDamageDealt)
    ensures r.worldX == Some(v.st.worldX) && r.worldY == Some(v.st.worldY)
    ensures r.facingDirection == v.st.facingDirection && r.isDying == Some(v.st.isDying)
    ensures r.currentPath.None? && r.lastTickX.None? && r.lastTickY.None?
    ensures !PlayerHasOnlyEntityId(r)
  {
    PlayerDto(
      Some(v.inventory), Some(v.inventoryAmounts), Some(v.questProgress), Some(v.profile.influence),
      Some(v.profile.skinColor), Some(v.profile.hairColor), Some(v.profile.shirtColor),
      Some(v.profile.pantsColor), Some(v.username), Some(v.st.skills), Some(v.st.currentHitpoints),
      Some(v.st.isInCombat), Some(v.st.weapon), Some(v.st.shield), v.st.attackStyle,
      Some(v.st.lastDamageDealt), Some(v.entityID), Some(v.st.worldX), Some(v.st.worldY), None, None,
      v.st.facingDirection, None, Some(v.st.isDying))
  }

  /** Once every flag is raised, as on a new player, the incremental DTO holds all that
      the full one does, and the last-tick tile besides. */
  lemma PlayerDeltaOfNewIsFull(v: PlayerView)
    requires v.st.changed == ALL_FLAGS && v.profile.changed == ALL_PLAYER_FLAGS
    ensures PlayerDelta(v) == PlayerFull(v).(lastTickX := Some(v.lastTick.x), lastTickY := Some(v.lastTick.y))
  {
  }

  // ---------------------------------------------------------------------------------
  // NPCs

  /** What the NPC DTO is built from: the NPC's id, type, body state and own flags. */
  datatype NpcView = NpcView(entityID: string, npcIndex: int, st: State, changed: set<NpcFlag>)

  datatype NpcDto = NpcDto(
    npcIndex: Option<int>, currentHitpoints: Option<int>, isInCombat: Option<bool>,
    lastDamageDealt: Option<int>, entityID: Option<string>, worldX: Option<int>, worldY: Option<int>,
    nextTileDirection: Option<Direction>, facingDirection: Option<Direction>, isDying: Option<bool>)

  /** `hasOnlyEntityId`: the id is there and all nine other fields are `null`. */
  predicate NpcHasOnlyEntityId(d: NpcDto) {
    && d.entityID.Some? && d.npcIndex.None? && d.currentHitpoints.None? && d.isInCombat.None?
    && d.lastDamageDealt.None? && d.worldX.None? && d.worldY.None? && d.nextTileDirection.None?
    && d.facingDirection.None? && d.isDying.None?
  }

  /** Nothing the NPC DTO reports has changed, except possibly a direction whose new
      value is `null`. */
  predicate NpcQuiet(v: NpcView) {
    var c := v.st.changed;
    && NpcIndexChanged !in v.changed
    && CurrentHitpointsChanged !in c && IsInCombatChanged !in c && IsDyingChanged !in c
    && LastDamageDealtChanged !in c && Flag.WorldXChanged !in c && Flag.WorldYChanged !in c
    && (NextTileDirectionChanged in c ==> v.st.nextTileDirection.None?)
    && (FacingDirectionChanged in c ==> v.st.facingDirection.None?)
  }

  /** The incremental `DTONpc` constructor: the id always, each other field exactly when
      its flag is raised. The DTO is empty exactly when the NPC is quiet. */
  function NpcDelta(v: NpcView): (r: NpcDto)
    ensures r.entityID == Some(v.entityID)
    ensures Carries(r.npcIndex, NpcIndexChanged in v.changed, v.npcIndex)
    ensures var c := v.st.changed; var s := v.st;
      && Carries(r.currentHitpoints, CurrentHitpointsChanged in c, s.currentHitpoints)
      && Carries(r.isInCombat, IsInCombatChanged in c, s.isInCombat)
      && Carries(r.isDying, IsDyingChanged in c, s.isDying)
      && Carries(r.lastDamageDealt, LastDamageDealtChanged in c, s.lastDamageDealt)
      && Carries(r.worldX, Flag.WorldXChanged in c, s.worldX)
      && Carries(r.worldY, Flag.WorldYChanged in c, s.worldY)
      && CarriesNullable(r.nextTileDirection, NextTileDirectionChanged in c, s.nextTileDirection)
      && CarriesNullable(r.facingDirection, FacingDirectionChanged in c, s.facingDirection)
    ensures NpcHasOnlyEntityId(r) <==> NpcQuiet(v)
  {
    var c := v.st.changed;
    NpcDto(
      Gate(NpcIndexChanged in v.changed, v.npcIndex),
      Gate(CurrentHitpointsChanged in c, v.st.currentHitpoints),
      Gate(IsInCombatChanged in c, v.st.isInCombat),
      Gate(LastDamageDealtChanged in c, v.st.lastDamageDealt),
      Some(v.entityID),
      Gate(Flag.WorldXChanged in c, v.st.worldX),
      Gate(Flag.WorldYChanged in c, v.st.worldY),
      GateNullable(NextTileDirectionChanged in c, v.st.nextTileDirection),
      GateNullable(FacingDirectionChanged in c, v.st.facingDirection),
      Gate(IsDyingChanged in c, v.st.isDying))
  }

  /** The full `DTONpc` constructor: all ten fields. Its type index is never `null`, so
      a full DTO is never empty. */
  function NpcFull(v: NpcView): (r: NpcDto)
    ensures r.entityID == Some(v.entityID) && r.npcIndex == Some(v.npcIndex)
    ensures r.currentHitpoints == Some(v.st.currentHitpoints) && r.isInCombat == Some(v.st.isInCombat)
    ensures r.isDying == Some(v.st.isDying) && r.lastDamageDealt == Some(v.st.lastDamageDealt)
    ensures r.worldX == Some(v.st.worldX) && r.worldY == Some(v.st.worldY)
    ensures r.nextTileDirection == v.st.nextTileDirection && r.facingDirection == v.st.facingDirection
    ensures !NpcHasOnlyEntityId(r)
  {
    NpcDto(Some(v.npcIndex), Some(v.st.currentHitpoints), Some(v.st.isInCombat),
           Some(v.st.lastDamageDealt), Some(v.entityID), Some(v.st.worldX), Some(v.st.worldY),
           v.st.nextTileDirection, v.st.facingDirection, Some(v.st.isDying))
  }

  /** With every flag raised, as on a new NPC, the incremental DTO is the full one. */
  lemma NpcDeltaOfNewIsFull(v: NpcView)
    requires v.st.changed == ALL_FLAGS && NpcIndexChanged in v.changed
    ensures NpcDelta(v) == NpcFull(v)
  {
  }

  // ---------------------------------------------------------------------------------
  // Items

  datatype ItemDto = ItemDto(uniqueID: Option<string>, itemID: Option<int>, amount: Option<int>,
                             worldX: Option<int>, worldY: Option<int>, isDeleted: Option<bool>)

  /** `hasOnlyUniqueId`: the id is there and every other field is `null`. */
  predicate ItemHasOnlyUniqueId(d: ItemDto) {
    d.uniqueID.Some? && d.itemID.None? && d.amount.None? && d.worldX.None? && d.worldY.None?
    && d.isDeleted.None?
  }

  /** The incremental `DTOItem` constructor: the id always (even a `null` one), each of
      the other four fields when its flag is raised, and the deletion mark only when the
      item is deleted, so it is never sent as `false`. */
  function ItemDelta(v: ItemView): (r: ItemDto)
    ensures r.uniqueID == v.uniqueID
    ensures Carries(r.itemID, ItemIDChanged in v.changed, v.itemID)
    ensures Carries(r.amount, AmountChanged in v.changed, v.amount)
    ensures CarriesNullable(r.worldX, ItemFlag.WorldXChanged in v.changed, v.worldX)
    ensures CarriesNullable(r.worldY, ItemFlag.WorldYChanged in v.changed, v.worldY)
    ensures r.isDeleted != Some(false) && (r.isDeleted.Some? <==> v.isDeleted)
    ensures ItemHasOnlyUniqueId(r) <==>
      && v.uniqueID.Some? && !v.isDeleted
      && ItemIDChanged !in v.changed && AmountChanged !in v.changed
      && (ItemFlag.WorldXChanged in v.changed ==> v.worldX.None?)
      && (ItemFlag.WorldYChanged in v.changed ==> v.worldY.None?)
  {
    ItemDto(v.uniqueID,
            Gate(ItemIDChanged in v.changed, v.itemID),
            Gate(AmountChanged in v.changed, v.amount),
            GateNullable(ItemFlag.WorldXChanged in v.changed, v.worldX),
            GateNullable(ItemFlag.WorldYChanged in v.changed, v.worldY),
            Gate(v.isDeleted, true))
  }

  /** The full `DTOItem` constructor as the source has it: the coordinates are filled
      from the coordinate change flags (0 or 1), not from the coordinates. */
  function ItemFullAsWritten(v: ItemView): (r: ItemDto)
    ensures r.uniqueID == v.uniqueID && r.itemID == Some(v.itemID) && r.amount == Some(v.amount)
    ensures r.worldX.Some? && r.worldX.value in {0, 1} && r.worldY.Some? && r.worldY.value in {0, 1}
    ensures r.isDeleted.None?
  {
    ItemDto(v.uniqueID, Some(v.itemID), Some(v.amount),
            Some(if ItemFlag.WorldXChanged in v.changed then 1 else 0),
            Some(if ItemFlag.WorldYChanged in v.changed then 1 else 0), None)
  }

  /** An item lying at (7, 3) with its flags raised, as a new item's are, is sent to a
      new connection as lying at (1, 1). */
  lemma ItemFullAsWrittenMisplaces()
    ensures var v := ItemView(Some("a"), 5, 1, Some(7), Some(3), None, false, 0, false, false, ALL_ITEM_FLAGS);
      ItemFullAsWritten(v).worldX == Some(1) != v.worldX
      && ItemFullAsWritten(v).worldY == Some(1) != v.worldY
  {
    var v := ItemView(Some("a"), 5, 1, Some(7), Some(3), None, false, 0, false, false, ALL_ITEM_FLAGS);
    assert ItemFlag.WorldXChanged in v.changed && ItemFlag.WorldYChanged in v.changed;
  }

  /** The full `DTOItem` constructor as evidently intended: the id, type, amount and the
      coordinates themselves. */
  function ItemFull(v: ItemView): (r: ItemDto)
    ensures r.uniqueID == v.uniqueID && r.itemID == Some(v.itemID) && r.amount == Some(v.amount)
    ensures r.worldX == v.worldX && r.worldY == v.worldY && r.isDeleted.None?
  {
    ItemDto(v.uniqueID, Some(v.itemID), Some(v.amount), v.worldX, v.worldY, None)
  }

  /** The intended full DTO of an item is never empty, and agrees with the incremental
      DTO of the same item once all its flags are raised (and it is not deleted). */
  lemma ItemFullIsDeltaOfNew(v: ItemView)
    requires v.changed == ALL_ITEM_FLAGS && !v.isDeleted
    ensures ItemDelta(v) == ItemFull(v) && !ItemHasOnlyUniqueId(ItemFull(v))
  {
  }
}
