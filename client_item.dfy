/** The client's ground items: an `Item` takes over the fields a snapshot defines, and
    the `ItemRenderer` keeps one loot mesh in the scene per item that can be drawn. */
module ClientItems {
  import opened Common
  import opened ClientScene
  import Transfer

  /** A JavaScript value that may be `undefined`, `null` or a value. */
  datatype Js<T> = Undefined | Null | Defined(value: T)

  /** An item as the client receives it. The coordinates are `number | null`. */
  datatype SocketItem = SocketItem(uniqueID: Option<string>, itemID: Option<int>, amount: Option<int>,
                                   worldX: Js<int>, worldY: Js<int>)

  /** The server's JSON writer leaves `null` fields out, so a `null` there arrives as
      `undefined`. */
  function FromWire(d: Transfer.ItemDto): (u: SocketItem)
    ensures u.worldX != Null && u.worldY != Null
    ensures u.worldX.Defined? <==> d.worldX.Some?
    ensures u.worldY.Defined? <==> d.worldY.Some?
  {
    SocketItem(d.uniqueID, d.itemID, d.amount,
               if d.worldX.Some? then Defined(d.worldX.value) else Undefined,
               if d.worldY.Some? then Defined(d.worldY.value) else Undefined)
  }

  /** The fields of an `Item`; `None` is `null`. */
  datatype ItemState = ItemState(uniqueID: string, itemID: int, amount: int, worldX: Option<int>, worldY: Option<int>)

  /** A new item: an empty id and -1 everywhere else. */
  const INITIAL_ITEM: ItemState := ItemState("", -1, -1, Some(-1), Some(-1))

  /** A coordinate after `update`: kept when `undefined`, else taken over, `null`
      included. */
  function Coordinate(v: Js<int>, kept: Option<int>): Option<int> {
    match v
    case Undefined => kept
    case Null => None
    case Defined(x) => Some(x)
  }

  function OrKept<T>(o: Option<T>, kept: T): T {
    if o.Some? then o.value else kept
  }

  /** The item after `update(u)`. */
  function Applied(s: ItemState, u: SocketItem): ItemState {
    ItemState(OrKept(u.uniqueID, s.uniqueID), OrKept(u.itemID, s.itemID), OrKept(u.amount, s.amount),
              Coordinate(u.worldX, s.worldX), Coordinate(u.worldY, s.worldY))
  }

  /** Each field is overwritten exactly when the snapshot defines it, an explicit
      `null` coordinate included, and kept otherwise. */
  lemma AppliedTakesDefinedFields(s: ItemState, u: SocketItem)
    ensures var r := Applied(s, u);
      && (u.uniqueID.Some? ==> r.uniqueID == u.uniqueID.value) && (u.uniqueID.None? ==> r.uniqueID == s.uniqueID)
      && (u.itemID.Some? ==> r.itemID == u.itemID.value) && (u.itemID.None? ==> r.itemID == s.itemID)
      && (u.amount.Some? ==> r.amount == u.amount.value) && (u.amount.None? ==> r.amount == s.amount)
      && (u.worldX.Undefined? ==> r.worldX == s.worldX)
      && (u.worldX.Null? ==> r.worldX.None?) && (u.worldY.Null? ==> r.worldY.None?)
      && (u.worldX.Defined? ==> r.worldX == Some(u.worldX.value))
      && (u.worldY.Defined? ==> r.worldY == Some(u.worldY.value))
      && (u.worldY.Undefined? ==> r.worldY == s.worldY)
  {
  }

  /** Applying the same snapshot twice is the same as applying it once. */
  lemma AppliedIdempotent(s: ItemState, u: SocketItem)
    ensures Applied(Applied(s, u), u) == Applied(s, u)
  {
  }

  /** An item that came from the server keeps the coordinates it had before whenever
      the server left them out, so it never loses them. */
  lemma WireItemKeepsCoordinates(s: ItemState, d: Transfer.ItemDto)
    requires s.worldX.Some? && s.worldY.Some?
    ensures Applied(s, FromWire(d)).worldX.Some? && Applied(s, FromWire(d)).worldY.Some?
  {
  }

  class ClientItem {
    var uniqueID: string
    var itemID: int
    var amount: int
    var worldX: Option<int>
    var worldY: Option<int>

    function State(): ItemState
      reads this
    {
      ItemState(uniqueID, itemID, amount, worldX, worldY)
    }

    constructor()
      ensures State() == INITIAL_ITEM
    {
      uniqueID, itemID, amount, worldX, worldY := "", -1, -1, Some(-1), Some(-1);
    }

    /** `update`: every field the snapshot defines is overwritten. */
    method Update(u: SocketItem)
      modifies this
      ensures State() == Applied(old(State()), u)
    {
      if u.uniqueID.Some? {
        uniqueID := u.uniqueID.value;
      }
      if u.itemID.Some? {
        itemID := u.itemID.value;
      }
      if u.amount.Some? {
        amount := u.amount.value;
      }
      if !u.worldX.Undefined? {
        worldX := if u.worldX.Null? then None else Some(u.worldX.value);
      }
      if !u.worldY.Undefined? {
        worldY := if u.worldY.Null? then None else Some(u.worldY.value);
      }
    }
  }

  // ---------------------------------------------------------------------------------
  // Loot meshes

  /** The mesh drawn for a ground item; it remembers the item id it was made for
      (`undefined` when the snapshot had none). */
  class LootMesh {
    const itemID: Option<int>

    constructor(itemID: Option<int>)
      ensures this.itemID == itemID
    {
      this.itemID := itemID;
    }
  }

  /** An item is drawn when its id is neither missing nor empty and neither coordinate
      is `null` or `undefined`. */
  predicate Renderable(u: SocketItem) {
    u.uniqueID.Some? && u.uniqueID.value != "" && u.worldX.Defined? && u.worldY.Defined?
  }

  /** The ids of the items that are drawn. */
  function RenderableIds(items: seq<SocketItem>): set<string> {
    set i | 0 <= i < |items| && Renderable(items[i]) :: items[i].uniqueID.value
  }

  lemma RenderableIdsSnoc(items: seq<SocketItem>, u: SocketItem)
    ensures RenderableIds(items + [u]) == RenderableIds(items) + (if Renderable(u) then {u.uniqueID.value} else {})
  {
    var all := items + [u];
    forall id | id in RenderableIds(all)
      ensures id in RenderableIds(items) + (if Renderable(u) then {u.uniqueID.value} else {})
    {
      var i :| 0 <= i < |all| && Renderable(all[i]) && all[i].uniqueID.value == id;
      if i < |items| {
        assert all[i] == items[i];
      }
    }
    forall id | id in RenderableIds(items)
      ensures id in RenderableIds(all)
    {
      var i :| 0 <= i < |items| && Renderable(items[i]) && items[i].uniqueID.value == id;
      assert all[i] == items[i];
    }
    if Renderable(u) {
      assert all[|items|] == u;
    }
  }

  /** A server item is drawn exactly when its DTO carries a non-empty id and both
      coordinates; the server puts the coordinates in only on the tick they changed,
      so an item that stays where it is loses its mesh on the next tick. */
  lemma WireItemRenderable(d: Transfer.ItemDto)
    ensures Renderable(FromWire(d)) <==> d.uniqueID.Some? && d.uniqueID.value != "" && d.worldX.Some? && d.worldY.Some?
  {
  }

  /** The meshes of the ids neither seen nor still to visit. */
  function Gone(meshes: map<string, LootMesh>, todo: set<string>, seen: set<string>): set<object> {
    set id | id in meshes && id !in todo && id !in seen :: meshes[id]
  }

  lemma GoneStep(meshes: map<string, LootMesh>, todo: set<string>, seen: set<string>, id: string)
    requires id in todo && id in meshes
    ensures Gone(meshes, todo - {id}, seen) == Gone(meshes, todo, seen) + (if id in seen then {} else {meshes[id]})
  {
  }

  class ItemRenderer {
    const scene: Scene
    /** One mesh per drawn id. */
    var meshes: map<string, LootMesh>

    constructor(scene: Scene)
      ensures this.scene == scene && meshes == map[]
    {
      this.scene := scene;
      meshes := map[];
    }

    /** Every mesh is in the scene, and no two ids share one. */
    ghost predicate Valid()
      reads this, scene
    {
      && (forall id :: id in meshes ==> meshes[id] in scene.objects)
      && (forall a, b :: a in meshes && b in meshes && a != b ==> meshes[a] != meshes[b])
    }

    /** `update`: make sure every drawn item has its mesh, then drop the meshes of the
        items that are gone, from the scene and from the map. */
    method Update(items: seq<SocketItem>)
      requires Valid()
      modifies this, scene
      ensures Valid()
      ensures meshes.Keys == RenderableIds(items)
      ensures forall id :: id in meshes && id in old(meshes) ==> meshes[id] == old(meshes)[id]
      ensures forall id :: id in meshes && id !in old(meshes) ==> fresh(meshes[id])
      ensures forall id :: id in old(meshes) && id !in meshes ==> old(meshes)[id] !in scene.objects
      ensures forall o :: o in old(scene.objects) && o !in old(meshes.Values) ==> o in scene.objects
      ensures forall o :: o in scene.objects ==> o in old(scene.objects) || o in meshes.Values
    {
      var seen := AddSeen(items);
      RemoveUnseen(seen);
    }

    /** `update` as it reads the world's item list: an `undefined` list makes the
        `for … of` throw before anything changes, and `completed` is false; a list is
        drawn as `Update` draws it. */
    method Render(items: Option<seq<SocketItem>>) returns (completed: bool)
      requires Valid()
      modifies this, scene
      ensures Valid()
      ensures completed <==> items.Some?
      ensures !completed ==> meshes == old(meshes) && scene.objects == old(scene.objects)
      ensures completed ==> meshes.Keys == RenderableIds(items.value)
    {
      if items.None? {
        return false;
      }
      Update(items.value);
      return true;
    }

    /** The first loop of `update`: a mesh for each drawn item, reusing the one it has;
        the ids seen come out. */
    method AddSeen(items: seq<SocketItem>) returns (seen: set<string>)
      requires Valid()
      modifies this`meshes, scene
      ensures Valid() && seen == RenderableIds(items)
      ensures meshes.Keys == old(meshes.Keys) + seen
      ensures forall id :: id in old(meshes) ==> meshes[id] == old(meshes)[id]
      ensures forall id :: id in meshes && id !in old(meshes) ==> fresh(meshes[id])
      ensures scene.objects == old(scene.objects) + (set id | id in meshes && id !in old(meshes) :: meshes[id])
    {
      seen := {};
      for i := 0 to |items|
        invariant Valid() && seen == RenderableIds(items[..i])
        invariant meshes.Keys == old(meshes.Keys) + seen
        invariant forall id :: id in old(meshes) ==> meshes[id] == old(meshes)[id]
        invariant forall id :: id in meshes && id !in old(meshes) ==> fresh(meshes[id])
        invariant scene.objects == old(scene.objects) + (set id | id in meshes && id !in old(meshes) :: meshes[id])
      {
        RenderableIdsSnoc(items[..i], items[i]);
        assert items[..i + 1] == items[..i] + [items[i]];
        if Renderable(items[i]) {
          seen := seen + {items[i].uniqueID.value};
        }
        See(items[i]);
      }
      assert items[..|items|] == items;
    }

    /** One round of the first loop: a drawn item whose id has no mesh gets one. */
    method See(item: SocketItem)
      requires Valid()
      modifies this`meshes, scene
      ensures Valid()
      ensures Renderable(item) ==> meshes.Keys == old(meshes.Keys) + {item.uniqueID.value}
      ensures !Renderable(item) ==> meshes == old(meshes)
      ensures forall id :: id in old(meshes) ==> meshes[id] == old(meshes)[id]
      ensures forall id :: id in meshes && id !in old(meshes) ==> fresh(meshes[id])
      ensures scene.objects == old(scene.objects) + (set id | id in meshes && id !in old(meshes) :: meshes[id])
    {
      if !Renderable(item) {
        return;
      }
      var id := item.uniqueID.value;
      if id !in meshes {
        var mesh := new LootMesh(item.itemID);
        AddMesh(id, mesh);
        assert (set k | k in meshes && k !in old(meshes) :: meshes[k]) == {mesh};
      }
    }

    /** Put a new mesh in the map and the scene. */
    method AddMesh(id: string, mesh: LootMesh)
      requires Valid() && id !in meshes && mesh !in scene.objects
      modifies this`meshes, scene
      ensures Valid() && meshes == old(meshes)[id := mesh]
      ensures scene.objects == old(scene.objects) + {mesh}
    {
      meshes := meshes[id := mesh];
      scene.Add(mesh);
    }

    /** The second loop of `update`: every mesh whose id was not seen leaves the scene
        and the map. */
    method RemoveUnseen(seen: set<string>)
      requires Valid()
      modifies this`meshes, scene
      ensures Valid() && meshes.Keys == old(meshes.Keys) * seen
      ensures forall id :: id in meshes ==> meshes[id] == old(meshes)[id]
      ensures forall id :: id in old(meshes) && id !in seen ==> old(meshes)[id] !in scene.objects
      ensures scene.objects == old(scene.objects) - Gone(old(meshes), {}, seen)
    {
      var todo := meshes.Keys;
      while todo != {}
        invariant todo <= old(meshes.Keys)
        invariant Valid() && meshes.Keys == old(meshes.Keys) - (old(meshes.Keys) - todo - seen)
        invariant forall id :: id in meshes ==> meshes[id] == old(meshes)[id]
        invariant scene.objects == old(scene.objects) - Gone(old(meshes), todo, seen)
        decreases todo
      {
        var id :| id in todo;
        if id !in seen {
          RemoveMesh(id);
        }
        GoneStep(old(meshes), todo, seen, id);
        todo := todo - {id};
      }
    }

    /** Take one mesh out of the scene and the map. */
    method RemoveMesh(id: string)
      requires Valid() && id in meshes
      modifies this`meshes, scene
      ensures Valid() && meshes == old(meshes) - {id}
      ensures scene.objects == old(scene.objects) - {old(meshes)[id]}
    {
      scene.Remove(meshes[id]);
      meshes := meshes - {id};
    }
  }
}
