/** The server's ground items (`Item`): an item type and amount lying on a tile, with the
    change flags that decide what the next snapshot carries, and the catalogue facts about
    item types that the inventory operations consult. */
module Items {
  import opened Common

  /** What the item manager knows about an item type: its name, whether it stacks and
      can be wielded, how much it heals when eaten (`None`: not edible) and, for a
      wieldable, its wield slot (`"weapon"`, `"shield"`) and attack speed. The item
      manager itself is not part of this model; the inventory operations take these
      facts as a catalogue parameter. */
  datatype ItemDef = ItemDef(name: string, stackable: bool, wieldable: bool, heal: Option<int>,
                             wieldType: Option<string>, attackSpeed: Option<int>)

  /** The catalogue: item id to what is known about it; a missing id is an item the
      manager does not find. */
  type Catalog = map<int, ItemDef>

  /** A ground item the item manager is asked to create at `at` (the 200-tick lifetime
      it is given is not modelled): with an explicit stack amount (`spawnItemWithAmount`)
      or without one (`spawnItem`). */
  datatype Spawn = Spawn(itemID: int, amount: Option<int>, at: Pos)

  /** The change flags of an item; a flag in `changed` is the Java value 1. */
  datatype ItemFlag = UniqueIDChanged | ItemIDChanged | AmountChanged | WorldXChanged | WorldYChanged

  const ALL_ITEM_FLAGS: set<ItemFlag> :=
    {UniqueIDChanged, ItemIDChanged, AmountChanged, WorldXChanged, WorldYChanged}

  /** The values of an item's fields. A `null` of the source is `None`. */
  datatype ItemView = ItemView(uniqueID: Option<string>, itemID: int, amount: int,
                               worldX: Option<int>, worldY: Option<int>, name: Option<string>,
                               isWieldable: bool, value: int, isStackable: bool, isDeleted: bool,
                               changed: set<ItemFlag>)

  /** An item. `isDeleted` and its setter are used by the item's owner when it is picked
      up; they are not declared in the item's own source file, and are modelled as a
      plain field and setter without a change flag. */
  class Item {
    var uniqueID: Option<string>
    var itemID: int
    var amount: int
    var worldX: Option<int>
    var worldY: Option<int>
    var name: Option<string>
    var isWieldable: bool
    const value: int
    var isStackable: bool
    var isDeleted: bool
    var changed: set<ItemFlag>

    function View(): ItemView
      reads this
    {
      ItemView(uniqueID, itemID, amount, worldX, worldY, name, isWieldable, value, isStackable,
               isDeleted, changed)
    }

    /** A new item: one of it, nowhere yet, with every flag raised. */
    constructor(itemID: int, isWieldable: bool, isStackable: bool, value: int)
      ensures View() == ItemView(None, itemID, 1, None, None, None, isWieldable, value, isStackable,
                                 false, ALL_ITEM_FLAGS)
    {
      this.uniqueID := None;
      this.itemID := itemID;
      this.amount := 1;
      this.worldX := None;
      this.worldY := None;
      this.name := None;
      this.isWieldable := isWieldable;
      this.value := value;
      this.isStackable := isStackable;
      this.isDeleted := false;
      this.changed := ALL_ITEM_FLAGS;
    }

    /** `clearChangedFlags`: all five flags lowered, nothing else touched. */
    method ClearChangedFlags()
      modifies this
      ensures View() == old(View()).(changed := {})
    {
      changed := {};
    }

    method SetAmount(v: int)
      modifies this
      ensures View() == old(View()).(amount := v, changed := old(changed) + {AmountChanged})
      ensures View() == Applied(old(View()), AmountTo(v))
    {
      amount := v;
      changed := changed + {AmountChanged};
    }

    method SetWorldX(v: Option<int>)
      modifies this
      ensures View() == old(View()).(worldX := v, changed := old(changed) + {WorldXChanged})
      ensures View() == Applied(old(View()), WorldXTo(v))
    {
      worldX := v;
      changed := changed + {WorldXChanged};
    }

    method SetWorldY(v: Option<int>)
      modifies this
      ensures View() == old(View()).(worldY := v, changed := old(changed) + {WorldYChanged})
      ensures View() == Applied(old(View()), WorldYTo(v))
    {
      worldY := v;
      changed := changed + {WorldYChanged};
    }

    /** `setItemID` raises no flag, so a changed type is not sent until another flag is
        raised. */
    method SetItemID(v: int)
      modifies this
      ensures View() == old(View()).(itemID := v)
      ensures View() == Applied(old(View()), ItemIDTo(v))
    {
      itemID := v;
    }

    method SetStackable(v: bool)
      modifies this
      ensures View() == old(View()).(isStackable := v)
      ensures View() == Applied(old(View()), StackableTo(v))
    {
      isStackable := v;
    }

    method SetWieldable(v: bool)
      modifies this
      ensures View() == old(View()).(isWieldable := v)
      ensures View() == Applied(old(View()), WieldableTo(v))
    {
      isWieldable := v;
    }

    method SetName(v: string)
      modifies this
      ensures View() == old(View()).(name := Some(v))
      ensures View() == Applied(old(View()), NameTo(v))
    {
      name := Some(v);
    }

    /** `setUniqueID` raises no flag either; the unique id flag is only ever lowered. */
    method SetUniqueID(v: string)
      modifies this
      ensures View() == old(View()).(uniqueID := Some(v))
      ensures View() == Applied(old(View()), UniqueIDTo(v))
    {
      uniqueID := Some(v);
    }

    method SetIsDeleted(v: bool)
      modifies this
      ensures View() == old(View()).(isDeleted := v)
      ensures View() == Applied(old(View()), DeletedTo(v))
    {
      isDeleted := v;
    }
  }

  /** A call of one of the setters above, with its argument. Each records the value and
      raises at most its own flag, so flags only accumulate until the next
      `clearChangedFlags`; every setter's contract is `Applied` to its call. */
  datatype ItemUpdate =
    | AmountTo(amount: int) | WorldXTo(x: Option<int>) | WorldYTo(y: Option<int>)
    | ItemIDTo(id: int) | StackableTo(stackable: bool) | WieldableTo(wieldable: bool)
    | NameTo(name: string) | UniqueIDTo(uid: string) | DeletedTo(deleted: bool)

  function Applied(v: ItemView, u: ItemUpdate): (r: ItemView)
    ensures v.changed <= r.changed && |r.changed - v.changed| <= 1
  {
    match u
    case AmountTo(a) => v.(amount := a, changed := v.changed + {AmountChanged})
    case WorldXTo(x) => v.(worldX := x, changed := v.changed + {WorldXChanged})
    case WorldYTo(y) => v.(worldY := y, changed := v.changed + {WorldYChanged})
    case ItemIDTo(id) => v.(itemID := id)
    case StackableTo(s) => v.(isStackable := s)
    case WieldableTo(w) => v.(isWieldable := w)
    case NameTo(n) => v.(name := Some(n))
    case UniqueIDTo(id) => v.(uniqueID := Some(id))
    case DeletedTo(d) => v.(isDeleted := d)
  }

  function AppliedAll(v: ItemView, us: seq<ItemUpdate>): ItemView
    decreases |us|
  {
    if |us| == 0 then v else AppliedAll(Applied(v, us[0]), us[1..])
  }

  /** No setter lowers a flag, and the unique id flag is never raised again once
      lowered. */
  lemma {:induction false} SettersOnlyRaise(v: ItemView, us: seq<ItemUpdate>)
    ensures v.changed <= AppliedAll(v, us).changed
    ensures UniqueIDChanged !in v.changed ==> UniqueIDChanged !in AppliedAll(v, us).changed
    decreases |us|
  {
    if |us| > 0 {
      SettersOnlyRaise(Applied(v, us[0]), us[1..]);
    }
  }
}
