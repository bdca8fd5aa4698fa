/** The client's world: its players, NPCs, chat and event lists, the per-frame update
    of the NPCs and the sounds, and the NPC click menu. */
module ClientWorlds {
  import opened Common
  import opened Events
  import opened ClientScene
  import opened ClientTiles
  import opened ClientNpcs
  import opened ClientPlayers
  import opened ClientItems
  import Transfer
  import GameWorld

  // ---------------------------------------------------------------------------------
  // Sounds

  /** The sounds this client plays: the global ones, and the others only when they
      belong to the current player. */
  function Audible(events: seq<SoundEvent>, me: string): (r: seq<SoundEvent>)
  {
    if |events| == 0 then []
    else (if events[0].isGlobal || events[0].entityID == me then [events[0]] else []) + Audible(events[1..], me)
  }

  /** Exactly the global sounds and the current player's are played. */
  lemma {:induction false} AudibleMembers(events: seq<SoundEvent>, me: string)
    ensures forall e :: e in Audible(events, me) <==> e in events && (e.isGlobal || e.entityID == me)
    ensures |Audible(events, me)| <= |events|
  {
    if |events| > 0 {
      AudibleMembers(events[1..], me);
      assert events == [events[0]] + events[1..];
    }
  }

  /** The filter keeps order: it works piece by piece. */
  lemma {:induction false} AudibleAppend(a: seq<SoundEvent>, b: seq<SoundEvent>, me: string)
    ensures Audible(a + b, me) == Audible(a, me) + Audible(b, me)
  {
    if |a| > 0 {
      assert (a + b)[1..] == a[1..] + b;
      AudibleAppend(a[1..], b, me);
    } else {
      assert a + b == b;
    }
  }

  // ---------------------------------------------------------------------------------
  // A frame of every NPC

  /** What one NPC's frame depends on: its snapshot fields, id, limbs and frame fields. */
  datatype NpcSlot = NpcSlot(snapshot: Snapshot, id: Option<string>, hasLimbs: bool, frame: Frame)

  /** One NPC's frame: `drawNpc` on what the slot holds. */
  function DrawSlot(slot: NpcSlot, dt: real, events: seq<AttackEvent>,
                    ground: seq<seq<GroundTile>>, platform: Platform): (Frame, seq<AttackEvent>) {
    Drawn(slot.snapshot, slot.id, slot.hasLimbs, slot.frame, dt, events, ground, platform)
  }

  /** The NPCs drawing one frame each, in order, every one with the attack list the ones
      before it left: their new frame fields, and the list the last one leaves. */
  function DrawnInOrder(slots: seq<NpcSlot>, dt: real, events: seq<AttackEvent>,
                        ground: seq<seq<GroundTile>>, platform: Platform): (r: (seq<Frame>, seq<AttackEvent>))
    ensures |r.0| == |slots|
  {
    if |slots| == 0 then ([], events)
    else
      var n := |slots| - 1;
      var (frames, left) := DrawnInOrder(slots[..n], dt, events, ground, platform);
      var (f, rest) := DrawSlot(slots[n], dt, left, ground, platform);
      (frames + [f], rest)
  }

  // ---------------------------------------------------------------------------------
  // The NPC menu

  /** An entry of the static entity table: the NPC type's index, name, examine text,
      whether it can be talked to and its type (2 is attackable). */
  datatype EntityInfo = EntityInfo(entityIndex: int, name: string, examine: string, isTalkable: bool, kind: int)

  /** `getEntityInfoByIndex`: the first entry with the index, or `null`. An `undefined`
      index matches none. */
  function InfoByIndex(table: seq<EntityInfo>, index: Option<int>): (r: Option<EntityInfo>)
    ensures r.Some? ==> r.value in table && Some(r.value.entityIndex) == index
    ensures r.None? ==> forall e :: e in table ==> Some(e.entityIndex) != index
  {
    if |table| == 0 then None
    else if Some(table[0].entityIndex) == index then Some(table[0])
    else InfoByIndex(table[1..], index)
  }

  /** The entry found is the first one with the index. */
  lemma {:induction false} InfoByIndexFirst(table: seq<EntityInfo>, index: Option<int>, i: int)
    requires 0 <= i < |table| && Some(table[i].entityIndex) == index
    requires forall j :: 0 <= j < i ==> Some(table[j].entityIndex) != index
    ensures InfoByIndex(table, index) == Some(table[i])
  {
    if i > 0 {
      InfoByIndexFirst(table[1..], index, i - 1);
    }
  }

  /** A request the client sends through its actions. */
  datatype Request = ChatRequest(playerID: string, message: string, isGlobal: bool)
                   | MoveAndTalk(playerID: string, targetID: Option<string>)
                   | MoveAndAttack(playerID: string, targetID: Option<string>)

  /** An option of the click menu, with what its function needs. */
  datatype MenuOption = TalkTo(name: string, targetID: Option<string>)
                      | AttackNpc(name: string, targetID: Option<string>)
                      | Examine(name: string, examine: string)

  /** The menu opened by a click: its place on the screen and its options. */
  datatype Modal = Modal(x: int, y: int, options: seq<MenuOption>)

  /** The options of an NPC's menu: talking when it is talkable, attacking when it is of
      type 2, in that order, and examining always, last. */
  function NpcMenu(info: EntityInfo, target: Option<string>): (r: seq<MenuOption>)
    ensures TalkTo(info.name, target) in r <==> info.isTalkable
    ensures AttackNpc(info.name, target) in r <==> info.kind == 2
    ensures |r| == 1 + (if info.isTalkable then 1 else 0) + (if info.kind == 2 then 1 else 0)
    ensures r[|r| - 1] == Examine(info.name, info.examine)
    ensures info.isTalkable ==> r[0] == TalkTo(info.name, target)
    ensures info.kind == 2 ==> r[|r| - 2] == AttackNpc(info.name, target)
  {
    (if info.isTalkable then [TalkTo(info.name, target)] else [])
    + (if info.kind == 2 then [AttackNpc(info.name, target)] else [])
    + [Examine(info.name, info.examine)]
  }

  /** `examine || 'No data'`. */
  function ExamineText(examine: string): (r: string)
    ensures r != ""
    ensures examine != "" ==> r == examine
  {
    if examine != "" then examine else "No data"
  }

  /** What choosing an option sends, and whether it closes the menu: talking and
      attacking walk to the NPC and close it; examining sends the text to the chat and
      leaves it open. */
  function Chosen(o: MenuOption, me: string): (Request, bool) {
    match o
    case TalkTo(_, target) => (MoveAndTalk(me, target), true)
    case AttackNpc(_, target) => (MoveAndAttack(me, target), true)
    case Examine(_, examine) => (ChatRequest(me, ExamineText(examine), false), false)
  }

  /** Each option sends the request its label names, for the NPC it was built for. */
  lemma ChosenFromMenu(info: EntityInfo, target: Option<string>, me: string, i: int)
    requires 0 <= i < |NpcMenu(info, target)|
    ensures var (req, closes) := Chosen(NpcMenu(info, target)[i], me);
      && (req.MoveAndTalk? ==> info.isTalkable && req.targetID == target && closes)
      && (req.MoveAndAttack? ==> info.kind == 2 && req.targetID == target && closes)
      && (req.ChatRequest? ==> req.message != "" && !req.isGlobal && !closes && i == |NpcMenu(info, target)| - 1)
      && req.playerID == me
  {
    var r := NpcMenu(info, target);
    assert r[i] in r;
  }

  // ---------------------------------------------------------------------------------
  // The world

  class World {
    const scene: Scene
    /** The entity manager's static table. */
    const entities: seq<EntityInfo>
    /** Whether the actions object (the connection's sender) exists. */
    const hasActions: bool

    var currentPlayerID: string
    var players: seq<ClientPlayer>
    var npcs: seq<ClientNpc>
    /** The items of the last message; `None` is the `undefined` stored when the
        message carried none. */
    var items: Option<seq<SocketItem>>
    var chatMessages: seq<ChatMessage>
    var talkEvents: seq<GameWorld.TalkEvent>
    var attackEvents: seq<AttackEvent>
    var soundEvents: seq<SoundEvent>
    var isLoading: bool
    var modalJustClosed: bool
    var mouseScreenX: int
    var mouseScreenY: int
    var modal: Option<Modal>
    /** The requests sent through the actions, in order. */
    var sent: seq<Request>
    /** The sounds handed to the audio manager, in order. */
    var played: seq<SoundEvent>

    /** The NPCs are distinct objects in the world's scene, each added to it once if
        it says so and never otherwise. */
    ghost predicate NpcsValid()
      reads this`npcs, npcs`isAddedToScene, scene
    {
      && (forall i, j :: 0 <= i < j < |npcs| ==> npcs[i] != npcs[j])
      && (forall i :: 0 <= i < |npcs| ==> npcs[i].scene == scene && npcs[i].AddedOnce())
    }

    /** No two players share an id. */
    predicate PlayersValid()
      reads this`players
    {
      forall i, j :: 0 <= i < j < |players| ==> players[i].entityID != players[j].entityID
    }

    ghost predicate Valid()
      reads this`players, this`npcs, npcs`isAddedToScene, scene
    {
      NpcsValid() && PlayersValid()
    }

    constructor(scene: Scene, entities: seq<EntityInfo>, hasActions: bool)
      ensures this.scene == scene && this.entities == entities && this.hasActions == hasActions
      ensures currentPlayerID == "" && players == [] && npcs == [] && items == Some([]) && chatMessages == []
      ensures talkEvents == [] && attackEvents == [] && soundEvents == [] && modal == None
      ensures !isLoading && !modalJustClosed && sent == [] && played == []
      ensures Valid()
    {
      this.scene := scene;
      this.entities := entities;
      this.hasActions := hasActions;
      currentPlayerID := "";
      players, npcs, items, chatMessages := [], [], Some([]), [];
      talkEvents, attackEvents, soundEvents := [], [], [];
      isLoading, modalJustClosed := false, false;
      mouseScreenX, mouseScreenY := 0, 0;
      modal, sent, played := None, [], [];
    }

    /** `playSoundEvents`: take the list, empty it, and play the audible sounds in
        order. */
    method PlaySoundEvents()
      modifies this`soundEvents, this`played
      ensures soundEvents == []
      ensures played == old(played) + Audible(old(soundEvents), currentPlayerID)
    {
      var eventsToPlay := soundEvents;
      soundEvents := [];
      for i := 0 to |eventsToPlay|
        invariant soundEvents == []
        invariant played == old(played) + Audible(eventsToPlay[..i], currentPlayerID)
      {
        var sound := eventsToPlay[i];
        if sound.isGlobal {
          played := played + [sound];
        } else if currentPlayerID == sound.entityID {
          played := played + [sound];
        }
        AudibleAppend(eventsToPlay[..i], [sound], currentPlayerID);
        assert eventsToPlay[..i + 1] == eventsToPlay[..i] + [sound];
      }
      assert eventsToPlay[..|eventsToPlay|] == eventsToPlay;
    }

    /** What a frame of each NPC depends on, in roster order. */
    function Slots(ns: seq<ClientNpc>): (r: seq<NpcSlot>)
      reads set n | n in ns
      ensures |r| == |ns|
      ensures forall i :: 0 <= i < |ns| ==>
        r[i] == NpcSlot(ns[i].snapshot, ns[i].entityID, ns[i].hasLimbs, ns[i].frame)
    {
      if |ns| == 0 then []
      else Slots(ns[..|ns| - 1]) + [NpcSlot(ns[|ns| - 1].snapshot, ns[|ns| - 1].entityID,
                                             ns[|ns| - 1].hasLimbs, ns[|ns| - 1].frame)]
    }

    /** The NPC half of `updatePlayers`: every NPC draws a frame, in order, each one
        taking its attacks out of the list the ones before it left. */
    method DrawNpcs(dt: real, ground: seq<seq<GroundTile>>, platform: Platform)
      requires NpcsValid()
      modifies npcs`frame
      modifies this`attackEvents
      ensures NpcsValid()
      ensures forall i :: 0 <= i < |npcs| ==> npcs[i].snapshot == old(npcs[i].snapshot)
      ensures var (frames, rest) := DrawnInOrder(old(Slots(npcs)), dt, old(attackEvents), ground, platform);
        && attackEvents == rest
        && forall i :: 0 <= i < |npcs| ==> npcs[i].frame == frames[i]
    {
      ghost var slots := Slots(npcs);
      ghost var frames: seq<Frame> := [];
      ghost var events0 := attackEvents;
      for i := 0 to |npcs|
        invariant DrawnUpTo(i, slots, frames, events0, dt, ground, platform)
      {
        frames := DrawNext(i, slots, frames, events0, dt, ground, platform);
      }
      assert slots[..|npcs|] == slots;
    }

    /** The first `i` NPCs have drawn their frames, in order, from `events0`, and the
        others still hold what their slots say. */
    ghost predicate DrawnUpTo(i: nat, slots: seq<NpcSlot>, frames: seq<Frame>, events0: seq<AttackEvent>,
                              dt: real, ground: seq<seq<GroundTile>>, platform: Platform)
      reads this`npcs, this`attackEvents, npcs
    {
      && i <= |npcs| == |slots|
      && (forall j {:trigger slots[j]} :: i <= j < |npcs| ==>
            slots[j] == NpcSlot(npcs[j].snapshot, npcs[j].entityID, npcs[j].hasLimbs, npcs[j].frame))
      && (frames, attackEvents) == DrawnInOrder(slots[..i], dt, events0, ground, platform)
      && (forall j {:trigger frames[j]} :: 0 <= j < i ==> npcs[j].frame == frames[j])
    }

    /** The `i`-th NPC draws its frame. */
    method DrawNext(i: nat, ghost slots: seq<NpcSlot>, ghost frames: seq<Frame>, ghost events0: seq<AttackEvent>,
                    dt: real, ground: seq<seq<GroundTile>>, platform: Platform) returns (ghost frames': seq<Frame>)
      requires i < |npcs|
      requires forall a, b :: 0 <= a < b < |npcs| ==> npcs[a] != npcs[b]
      requires DrawnUpTo(i, slots, frames, events0, dt, ground, platform)
      modifies npcs`frame, this`attackEvents
      ensures DrawnUpTo(i + 1, slots, frames', events0, dt, ground, platform)
    {
      DrawOne(npcs[i], slots[i], dt, ground, platform);
      assert slots[..i + 1][..i] == slots[..i];
      frames' := frames + [npcs[i].frame];
    }

    /** One NPC draws its frame with the world's attack list. */
    method DrawOne(npc: ClientNpc, ghost slot: NpcSlot, dt: real, ground: seq<seq<GroundTile>>, platform: Platform)
      requires slot == NpcSlot(npc.snapshot, npc.entityID, npc.hasLimbs, npc.frame)
      modifies npc`frame
      modifies this`attackEvents
      ensures (npc.frame, attackEvents) == DrawSlot(slot, dt, old(attackEvents), ground, platform)
    {
      attackEvents := npc.DrawNpc(dt, attackEvents, ground, platform);
    }

    /** `update`: the NPCs draw their frames; while loading nothing else happens, and
        otherwise the sounds are played. */
    method Update(dt: real, ground: seq<seq<GroundTile>>, platform: Platform)
      requires NpcsValid()
      modifies npcs`frame
      modifies this`attackEvents, this`soundEvents, this`played
      ensures NpcsValid()
      ensures forall i :: 0 <= i < |npcs| ==> npcs[i].snapshot == old(npcs[i].snapshot)
      ensures var (frames, rest) := DrawnInOrder(old(Slots(npcs)), dt, old(attackEvents), ground, platform);
        && attackEvents == rest
        && forall i :: 0 <= i < |npcs| ==> npcs[i].frame == frames[i]
      ensures isLoading ==> soundEvents == old(soundEvents) && played == old(played)
      ensures !isLoading ==> soundEvents == [] && played == old(played) + Audible(old(soundEvents), currentPlayerID)
    {
      DrawNpcs(dt, ground, platform);
      if isLoading {
        return;
      }
      PlaySoundEvents();
    }

    /** Send a request when the actions exist. */
    method Send(r: Request)
      modifies this`sent
      ensures sent == old(sent) + (if hasActions then [r] else [])
    {
      if hasActions {
        sent := sent + [r];
      } else {
        assert sent + [] == sent;
      }
    }

    /** `onNpcClick`: right after a menu closed nothing happens; otherwise a menu opens
        next to the mouse, empty with a 'No data' chat message when the NPC's type is
        unknown, and with the type's options when it is known. */
    method OnNpcClick(npc: ClientNpc)
      modifies this`modal, this`sent
      ensures modalJustClosed ==> modal == old(modal) && sent == old(sent)
      ensures !modalJustClosed ==>
        var info := InfoByIndex(entities, npc.snapshot.entityIndex);
        && modal == Some(Modal(mouseScreenX + 8, mouseScreenY + 8,
                               if info.None? then [] else NpcMenu(info.value, npc.entityID)))
        && sent == old(sent) + (if info.None? && hasActions then [ChatRequest(currentPlayerID, "No data", false)] else [])
    {
      if modalJustClosed {
        return;
      }
      modal := Some(Modal(mouseScreenX + 8, mouseScreenY + 8, []));
      var npcData := InfoByIndex(entities, npc.snapshot.entityIndex);
      if npcData.None? {
        Send(ChatRequest(currentPlayerID, "No data", false));
        return;
      }
      var options: seq<MenuOption> := [];
      if npcData.value.isTalkable {
        options := options + [TalkTo(npcData.value.name, npc.entityID)];
      }
      if npcData.value.kind == 2 {
        options := options + [AttackNpc(npcData.value.name, npc.entityID)];
      }
      options := options + [Examine(npcData.value.name, npcData.value.examine)];
      assert options == NpcMenu(npcData.value, npc.entityID);
      modal := Some(Modal(mouseScreenX + 8, mouseScreenY + 8, options));
      assert sent + [] == sent;
    }

    /** Choosing option `i` of the open menu runs its function: the request goes out
        (when the actions exist) and talking or attacking closes the menu. */
    method ChooseOption(i: int)
      requires modal.Some? && 0 <= i < |modal.value.options|
      modifies this`modal, this`sent
      ensures var (req, closes) := Chosen(old(modal).value.options[i], currentPlayerID);
        && sent == old(sent) + (if hasActions then [req] else [])
        && modal == (if closes then None else old(modal))
    {
      match modal.value.options[i]
      case TalkTo(_, target) => {
        Send(MoveAndTalk(currentPlayerID, target));
        modal := None;
      }
      case AttackNpc(_, target) => {
        Send(MoveAndAttack(currentPlayerID, target));
        modal := None;
      }
      case Examine(_, examine) => {
        Send(ChatRequest(currentPlayerID, ExamineText(examine), false));
      }
    }
  }

  /** Clicking an NPC whose type index the client kept as the source reads it
      (`undefined`) always opens the empty menu with 'No data', whatever the table
      holds; with the index the server sends, a type in the table gets its options. */
  lemma NpcMenuAsWrittenNoData(table: seq<EntityInfo>, d: Transfer.NpcDto)
    ensures InfoByIndex(table, EntityIndexAsWritten(d)).None?
    ensures (exists e :: e in table && Some(e.entityIndex) == WireEntityIndex(d)) ==>
              InfoByIndex(table, WireEntityIndex(d)).Some?
  {
    if exists e :: e in table && Some(e.entityIndex) == WireEntityIndex(d) {
      var e :| e in table && Some(e.entityIndex) == WireEntityIndex(d);
      assert InfoByIndex(table, WireEntityIndex(d)).None? ==> Some(e.entityIndex) != WireEntityIndex(d);
    }
  }
}
