/** The server's `World`: the connection slots and the names of the players online, the
    queue of actions the players sent, the entities and items, and the bookkeeping of a
    tick: handing each player its actions, building the game state sent to every
    connected player, clearing the tick's events and lowering every change flag. */
module GameWorld {
  import opened Common
  import opened Events
  import opened Entities
  import opened Items
  import opened Players
  import opened Npcs
  import opened Transfer

  /** The number of connection slots (`maxPlayers`). */
  const MAX_PLAYERS: int := 1000

  // ---------------------------------------------------------------------------------
  // Connection slots

  /** The first index of `x` in `s`, or -1. */
  function IndexOf<T(==)>(s: seq<T>, x: T): (i: int)
    ensures -1 <= i < |s|
    ensures i == -1 <==> x !in s
    ensures i >= 0 ==> s[i] == x && x !in s[..i]
  {
    if |s| == 0 then -1
    else if s[0] == x then 0
    else
      var i := IndexOf(s[1..], x);
      assert i >= 0 ==> s[1..][..i] == s[1..i + 1];
      if i == -1 then -1 else i + 1
  }

  /** An occurrence with none before it is the first one. */
  lemma IndexOfFirst<T>(s: seq<T>, x: T, i: nat)
    requires i < |s| && s[i] == x && x !in s[..i]
    ensures IndexOf(s, x) == i
  {
  }

  /** The names in the occupied slots, in slot order. */
  function Connected(slots: seq<Option<string>>): seq<string> {
    if |slots| == 0 then []
    else Slot(slots[0]) + Connected(slots[1..])
  }

  /** The name in a slot, as a list. */
  function Slot(o: Option<string>): seq<string> {
    if o.Some? then [o.value] else []
  }

  /** A name is connected exactly when some slot holds it. */
  lemma {:induction false} ConnectedHolds(slots: seq<Option<string>>, c: string)
    ensures c in Connected(slots) <==> Some(c) in slots
  {
    if |slots| > 0 {
      ConnectedHolds(slots[1..], c);
      assert c in Slot(slots[0]) <==> slots[0] == Some(c);
      assert Some(c) in slots <==> slots[0] == Some(c) || Some(c) in slots[1..];
    }
  }

  /** The names in the slots, counted. */
  ghost function Tally(slots: seq<Option<string>>): multiset<string> {
    if |slots| == 0 then multiset{} else Names(slots[0]) + Tally(slots[1..])
  }

  lemma {:induction false} ConnectedTally(slots: seq<Option<string>>)
    ensures multiset(Connected(slots)) == Tally(slots)
  {
    if |slots| > 0 {
      ConnectedTally(slots[1..]);
      assert multiset(Slot(slots[0])) == Names(slots[0]);
    }
  }

  lemma {:induction false} TallyUpdate(slots: seq<Option<string>>, k: nat, o: Option<string>)
    requires k < |slots|
    ensures Tally(slots[k := o]) + Names(slots[k]) == Tally(slots) + Names(o)
    decreases |slots|
  {
    var t := slots[k := o];
    if k > 0 {
      assert t[1..] == slots[1..][k - 1 := o];
      TallyUpdate(slots[1..], k - 1, o);
      assert t[0] == slots[0] && slots[1..][k - 1] == slots[k];
      var n0, a, b := Names(slots[0]), Tally(t[1..]), Tally(slots[1..]);
      var nk, no := Names(slots[k]), Names(o);
      forall c ensures (n0 + a + nk)[c] == (n0 + b + no)[c] {
        assert (a + nk)[c] == (b + no)[c];
      }
      assert n0 + a + nk == n0 + b + no;
    } else {
      assert t[1..] == slots[1..];
    }
  }

  /** Putting `o` in slot `k` trades the slot's old name for the new one. */
  lemma ConnectedUpdate(slots: seq<Option<string>>, k: nat, o: Option<string>)
    requires k < |slots|
    ensures multiset(Connected(slots[k := o])) + Names(slots[k]) == multiset(Connected(slots)) + Names(o)
  {
    ConnectedTally(slots);
    ConnectedTally(slots[k := o]);
    TallyUpdate(slots, k, o);
  }

  /** No slot taken, nobody connected. */
  lemma {:induction false} ConnectedNone(slots: seq<Option<string>>)
    requires forall i :: 0 <= i < |slots| ==> slots[i].None?
    ensures Connected(slots) == []
  {
    if |slots| > 0 {
      ConnectedNone(slots[1..]);
    }
  }

  /** The name in a slot, as a multiset. */
  function Names(o: Option<string>): multiset<string> {
    if o.Some? then multiset{o.value} else multiset{}
  }

  /** `List.remove(Object)`: the first occurrence of `x` removed, if there is one. */
  function RemoveFirst(s: seq<string>, x: string): (r: seq<string>)
    ensures x !in s ==> r == s
    ensures multiset(r) == multiset(s) - multiset{x}
  {
    var i := IndexOf(s, x);
    if i < 0 then s
    else
      assert s == s[..i] + [s[i]] + s[i + 1..];
      s[..i] + s[i + 1..]
  }

  /** `addConnection` on the slots and the online list: the lowest free slot takes the
      connection and its name joins the list; with every slot taken nothing changes. */
  function Added(slots: seq<Option<string>>, online: seq<string>, conn: string)
    : (r: (seq<Option<string>>, seq<string>))
    ensures |r.0| == |slots|
    ensures None !in slots ==> r == (slots, online)
    ensures None in slots ==>
      var k := IndexOf(slots, None);
      r.0 == slots[k := Some(conn)] && r.1 == online + [conn] && forall j :: 0 <= j < k ==> slots[j].Some?
  {
    var k := IndexOf(slots, None);
    if k < 0 then (slots, online)
    else
      assert forall j :: 0 <= j < k ==> slots[..k][j] == slots[j];
      (slots[k := Some(conn)], online + [conn])
  }

  /** `removeConnection`: the first slot holding the connection is freed and one
      occurrence of its name leaves the list; an unknown connection changes nothing. */
  function Removed(slots: seq<Option<string>>, online: seq<string>, conn: string)
    : (seq<Option<string>>, seq<string>)
  {
    var k := IndexOf(slots, Some(conn));
    if k < 0 then (slots, online) else (slots[k := None], RemoveFirst(online, conn))
  }

  /** The online list names the connected players: the same names, as many times. */
  predicate Mirrors(slots: seq<Option<string>>, online: seq<string>) {
    multiset(Connected(slots)) == multiset(online)
  }

  /** Adding a connection keeps the online list a mirror of the slots. */
  lemma AddedMirrors(slots: seq<Option<string>>, online: seq<string>, conn: string)
    requires Mirrors(slots, online)
    ensures var r := Added(slots, online, conn); Mirrors(r.0, r.1)
  {
    if None in slots {
      ConnectedUpdate(slots, IndexOf(slots, None), Some(conn));
    }
  }

  /** Removing a connection keeps the online list a mirror of the slots. */
  lemma RemovedMirrors(slots: seq<Option<string>>, online: seq<string>, conn: string)
    requires Mirrors(slots, online)
    ensures var r := Removed(slots, online, conn); Mirrors(r.0, r.1)
  {
    if Some(conn) in slots {
      var k := IndexOf(slots, Some(conn));
      ConnectedUpdate(slots, k, None);
      assert conn in online by {
        ConnectedHolds(slots, conn);
        assert multiset(online)[conn] > 0;
      }
      var r := Removed(slots, online, conn);
      assert multiset(Connected(r.0)) + multiset{conn} == multiset(online);
    }
  }

  /** A connection new to the world that finds a free slot is undone by removing it. */
  lemma RemovedUndoesAdded(slots: seq<Option<string>>, online: seq<string>, conn: string)
    requires Mirrors(slots, online) && None in slots && Some(conn) !in slots
    ensures var r := Added(slots, online, conn); Removed(r.0, r.1, conn) == (slots, online)
  {
    var k := IndexOf(slots, None);
    var r := Added(slots, online, conn);
    assert conn !in online by {
      ConnectedHolds(slots, conn);
      assert multiset(online)[conn] == 0;
    }
    assert r.0[..k] == slots[..k];
    IndexOfFirst(r.0, Some(conn), k);
    assert r.0[k := None] == slots;
    assert r.1[..|online|] == online;
    IndexOfFirst(r.1, conn, |online|);
    assert r.1[|online|] == conn;
    assert RemoveFirst(r.1, conn) == r.1[..|online|] + r.1[|online| + 1..];
    assert r.1[|online| + 1..] == [];
    assert RemoveFirst(r.1, conn) == online;
    assert Removed(r.0, r.1, conn) == (r.0[k := None], RemoveFirst(r.1, conn));
  }

  // ---------------------------------------------------------------------------------
  // Actions

  /** An action a player sent: the id of the player, and its data, which is kept as the
      text it arrived in. */
  datatype Action = Action(playerID: string, data: string)

  /** The queued actions of the player with id `id`, in queue order. */
  function ActionsOf(queue: seq<Action>, id: string): (r: seq<Action>)
    ensures forall a :: a in r <==> a in queue && a.playerID == id
  {
    if |queue| == 0 then []
    else
      var rest := ActionsOf(queue[1..], id);
      assert forall a :: a in queue <==> a == queue[0] || a in queue[1..];
      if queue[0].playerID == id then [queue[0]] + rest else rest
  }

  /** The queued actions of no player in `ids`, in queue order. */
  function Unclaimed(queue: seq<Action>, ids: set<string>): (r: seq<Action>)
    ensures forall a :: a in r <==> a in queue && a.playerID !in ids
  {
    if |queue| == 0 then []
    else
      var rest := Unclaimed(queue[1..], ids);
      assert forall a :: a in queue <==> a == queue[0] || a in queue[1..];
      if queue[0].playerID !in ids then [queue[0]] + rest else rest
  }

  /** Taking a player's actions keeps their order: the actions of a queue made of two
      parts are those of the first part, then those of the second. */
  lemma {:induction false} ActionsOfAppend(q1: seq<Action>, q2: seq<Action>, id: string)
    ensures ActionsOf(q1 + q2, id) == ActionsOf(q1, id) + ActionsOf(q2, id)
  {
    if |q1| > 0 {
      ActionsOfAppend(q1[1..], q2, id);
      assert (q1 + q2)[1..] == q1[1..] + q2;
    } else {
      assert q1 + q2 == q2;
    }
  }

  /** No action is lost or duplicated: every queued action is handed to its player or
      stays queued, never both, and the counts add up. */
  lemma {:induction false} ActionsPartition(queue: seq<Action>, id: string)
    ensures |ActionsOf(queue, id)| + |Unclaimed(queue, {id})| == |queue|
  {
    if |queue| > 0 {
      ActionsPartition(queue[1..], id);
    }
  }

  // ---------------------------------------------------------------------------------
  // Game state

  /** A talk or trade request of the tick. The events' own classes are not part of this
      model; the world only passes them on and clears them. */
  datatype TalkEvent = TalkEvent(entityID: string, targetID: string)
  datatype TradeEvent = TradeEvent(entityID: string, targetID: string)

  /** `GameState`: what one tick sends to a connected player. */
  datatype GameState = GameState(
    attackEvents: Option<seq<AttackEvent>>, talkEvents: Option<seq<TalkEvent>>,
    tradeEvents: Option<seq<TradeEvent>>, soundEvents: Option<seq<SoundEvent>>,
    players: Option<seq<PlayerDto>>, npcs: Option<seq<NpcDto>>, chatMessages: Option<seq<ChatMessage>>,
    playerID: Option<string>, items: Option<seq<ItemDto>>, onlinePlayers: seq<string>)

  /** An empty list nulled, anything else kept. */
  function NonEmpty<T>(o: Option<seq<T>>): Option<seq<T>> {
    if o.Some? && |o.value| == 0 then None else o
  }

  /** `removeEmptyCollections`: the eight lists of a game state with the empty ones
      nulled. */
  function Pruned(g: GameState): GameState {
    g.(attackEvents := NonEmpty(g.attackEvents), talkEvents := NonEmpty(g.talkEvents),
       tradeEvents := NonEmpty(g.tradeEvents), soundEvents := NonEmpty(g.soundEvents),
       players := NonEmpty(g.players), npcs := NonEmpty(g.npcs), items := NonEmpty(g.items),
       chatMessages := NonEmpty(g.chatMessages))
  }

  /** A list left as it was, or an empty one nulled. */
  predicate KeptOrNulled<T(==)>(before: Option<seq<T>>, after: Option<seq<T>>) {
    after == before || (before == Some([]) && after.None?)
  }

  /** Pruning nulls only empty lists and leaves the player id and the online list
      alone. */
  lemma PrunedChangesOnlyEmpty(g: GameState)
    ensures Pruned(g).onlinePlayers == g.onlinePlayers && Pruned(g).playerID == g.playerID
    ensures KeptOrNulled(g.attackEvents, Pruned(g).attackEvents) && KeptOrNulled(g.talkEvents, Pruned(g).talkEvents)
    ensures KeptOrNulled(g.tradeEvents, Pruned(g).tradeEvents) && KeptOrNulled(g.soundEvents, Pruned(g).soundEvents)
    ensures KeptOrNulled(g.players, Pruned(g).players) && KeptOrNulled(g.npcs, Pruned(g).npcs)
    ensures KeptOrNulled(g.items, Pruned(g).items) && KeptOrNulled(g.chatMessages, Pruned(g).chatMessages)
  {
  }

  /** No list of a pruned state is empty. */
  predicate NoEmptyList(g: GameState) {
    && (g.attackEvents.Some? ==> |g.attackEvents.value| > 0)
    && (g.talkEvents.Some? ==> |g.talkEvents.value| > 0)
    && (g.tradeEvents.Some? ==> |g.tradeEvents.value| > 0)
    && (g.soundEvents.Some? ==> |g.soundEvents.value| > 0)
    && (g.players.Some? ==> |g.players.value| > 0)
    && (g.npcs.Some? ==> |g.npcs.value| > 0)
    && (g.items.Some? ==> |g.items.value| > 0)
    && (g.chatMessages.Some? ==> |g.chatMessages.value| > 0)
  }

  /** Pruning leaves no empty list, and a null-safe prune run again on its own result
      changes nothing: with such a prune, pruning the one shared state once per
      recipient sends every recipient the same message. */
  lemma PrunedIdempotent(g: GameState)
    ensures NoEmptyList(Pruned(g)) && Pruned(Pruned(g)) == Pruned(g)
  {
  }

  /** None of the eight lists is null. */
  predicate AllPresent(g: GameState) {
    && g.attackEvents.Some? && g.talkEvents.Some? && g.tradeEvents.Some? && g.soundEvents.Some?
    && g.players.Some? && g.npcs.Some? && g.items.Some? && g.chatMessages.Some?
  }

  /** `removeEmptyCollections` as written: each of the eight tests calls `isEmpty` on
      its list, so a null list throws (`None`) before anything more is nulled. The
      lists it has already passed were not empty, so a throw leaves the state as it
      was. */
  function PrunedAsWritten(g: GameState): (r: Option<GameState>)
    ensures r.Some? <==> AllPresent(g)
    ensures r.Some? ==> r.value == Pruned(g)
  {
    if AllPresent(g) then Some(Pruned(g)) else None
  }

  /** A pruned state keeps all eight lists exactly when none of them was empty. */
  lemma PrunedAllPresent(g: GameState)
    requires AllPresent(g)
    ensures AllPresent(Pruned(g)) <==> NoEmptyList(g)
  {
  }

  /** The sending loop as written, on the one shared state `g`, to the recipients
      `names` in order: each recipient is sent the state its prune leaves, and the
      first prune that throws ends the loop (`false`), sending nothing more. */
  function DeliveredAsWritten(names: seq<string>, g: GameState): (seq<(string, GameState)>, bool)
    decreases |names|
  {
    if |names| == 0 then ([], true)
    else
      match PrunedAsWritten(g)
      case None => ([], false)
      case Some(p) =>
        var rest := DeliveredAsWritten(names[1..], p);
        ([(names[0], p)] + rest.0, rest.1)
  }

  /** When the sending loop as written gets to the end for `n` recipients: with none;
      with one, when all eight lists are present; with more, when moreover none of
      them is empty, for otherwise the second prune finds a list the first one
      nulled. */
  predicate DeliveryCompletes(n: nat, g: GameState) {
    n == 0 || (AllPresent(g) && (n == 1 || NoEmptyList(g)))
  }

  /** Once pruned with every list present, the state is sent unchanged to every
      remaining recipient. */
  lemma {:induction false} DeliveredSettled(names: seq<string>, p: GameState)
    requires AllPresent(p) && Pruned(p) == p
    ensures DeliveredAsWritten(names, p) == (Addressed(names, p), true)
  {
    if |names| > 0 {
      DeliveredSettled(names[1..], p);
      assert [(names[0], p)] + Addressed(names[1..], p) == Addressed(names, p);
    }
  }

  /** The sending loop as written gets to the end exactly when `DeliveryCompletes`;
      then every recipient gets the pruned state, as in the corrected `Deliver`.
      Otherwise only the first recipient, if its prune did not throw, gets it. */
  lemma DeliveredAsWrittenCases(names: seq<string>, g: GameState)
    ensures DeliveredAsWritten(names, g).1 <==> DeliveryCompletes(|names|, g)
    ensures DeliveredAsWritten(names, g).1 ==> DeliveredAsWritten(names, g).0 == Addressed(names, Pruned(g))
    ensures !DeliveredAsWritten(names, g).1 ==>
      DeliveredAsWritten(names, g).0 == (if |names| > 0 && AllPresent(g) then [(names[0], Pruned(g))] else [])
  {
    if |names| > 0 && AllPresent(g) {
      var p := Pruned(g);
      PrunedAllPresent(g);
      PrunedIdempotent(g);
      if |names| == 1 {
        assert DeliveredAsWritten(names[1..], p) == ([], true);
      } else if NoEmptyList(g) {
        DeliveredSettled(names[1..], p);
        assert [(names[0], p)] + Addressed(names[1..], p) == Addressed(names, p);
      } else {
        assert DeliveredAsWritten(names[1..], p) == ([], false);
      }
    }
  }

  /** The input that shows it: two players online and a tick without a trade request.
      The first player is sent the pruned state; the second prune calls `isEmpty` on
      the trade list the first one nulled and throws, so the second player is sent
      nothing. */
  lemma SecondRecipientThrows(names: seq<string>, g: GameState)
    requires |names| >= 2 && AllPresent(g) && g.tradeEvents == Some([])
    ensures DeliveredAsWritten(names, g) == ([(names[0], Pruned(g))], false)
  {
    DeliveredAsWrittenCases(names, g);
  }

  /** The DTOs worth sending: `f` of each element of `vs`, in order, leaving out those
      that say nothing (`empty`). */
  function KeepNonEmpty<V, D>(vs: seq<V>, f: V -> D, empty: D -> bool): seq<D> {
    if |vs| == 0 then []
    else
      var rest := KeepNonEmpty(vs[1..], f, empty);
      if empty(f(vs[0])) then rest else [f(vs[0])] + rest
  }

  /** What is kept is worth sending and made from some element; every element whose DTO
      is worth sending is kept. */
  lemma {:induction false} KeepNonEmptySelects<V, D>(vs: seq<V>, f: V -> D, empty: D -> bool)
    ensures |KeepNonEmpty(vs, f, empty)| <= |vs|
    ensures forall d :: d in KeepNonEmpty(vs, f, empty) ==> !empty(d) && exists v :: v in vs && d == f(v)
    ensures forall v :: v in vs && !empty(f(v)) ==> f(v) in KeepNonEmpty(vs, f, empty)
  {
    if |vs| > 0 {
      KeepNonEmptySelects(vs[1..], f, empty);
      assert forall v :: v in vs <==> v == vs[0] || v in vs[1..];
    }
  }

  /** The player DTOs of a tick. */
  function PlayerUpdates(vs: seq<PlayerView>): seq<PlayerDto> {
    KeepNonEmpty(vs, PlayerDelta, PlayerHasOnlyEntityId)
  }

  /** The NPC DTOs of a tick. */
  function NpcUpdates(vs: seq<NpcView>): seq<NpcDto> {
    KeepNonEmpty(vs, NpcDelta, NpcHasOnlyEntityId)
  }

  /** The item DTOs of a tick. */
  function ItemUpdates(vs: seq<ItemView>): seq<ItemDto> {
    KeepNonEmpty(vs, ItemDelta, ItemHasOnlyUniqueId)
  }

  /** A tick sends a DTO for exactly the players that are not quiet, and no DTO that
      carries only an id. */
  lemma PlayerUpdatesSelect(vs: seq<PlayerView>)
    ensures forall d :: d in PlayerUpdates(vs) ==> !PlayerHasOnlyEntityId(d)
    ensures forall v :: v in vs ==> (PlayerDelta(v) in PlayerUpdates(vs) <==> !PlayerQuiet(v))
  {
    KeepNonEmptySelects(vs, PlayerDelta, PlayerHasOnlyEntityId);
    forall v | v in vs ensures PlayerHasOnlyEntityId(PlayerDelta(v)) <==> PlayerQuiet(v) {
      PlayerDeltaEmptyIffQuiet(v);
    }
  }

  /** A tick sends a DTO for exactly the NPCs that are not quiet, and no DTO that carries
      only an id. */
  lemma NpcUpdatesSelect(vs: seq<NpcView>)
    ensures forall d :: d in NpcUpdates(vs) ==> !NpcHasOnlyEntityId(d)
    ensures forall v :: v in vs ==> (NpcDelta(v) in NpcUpdates(vs) <==> !NpcQuiet(v))
  {
    KeepNonEmptySelects(vs, NpcDelta, NpcHasOnlyEntityId);
  }

  /** A tick sends a DTO for exactly the items whose DTO carries more than the id. */
  lemma ItemUpdatesSelect(vs: seq<ItemView>)
    ensures forall d :: d in ItemUpdates(vs) ==> !ItemHasOnlyUniqueId(d)
    ensures forall v :: v in vs ==> (ItemDelta(v) in ItemUpdates(vs) <==> !ItemHasOnlyUniqueId(ItemDelta(v)))
  {
    KeepNonEmptySelects(vs, ItemDelta, ItemHasOnlyUniqueId);
  }

  /** What the DTO of a player is built from. */
  function PlayerViewOf(p: Player, lastTick: Pos): PlayerView
    reads p, p.body, p.inventory, p.inventoryAmounts, p.questProgress
  {
    PlayerView(p.body.entityID, p.username, p.body.st, p.profile, p.inventory[..],
               p.inventoryAmounts[..], p.questProgress[..], lastTick)
  }

  /** What the DTO of an NPC is built from. */
  function NpcViewOf(n: Npc): NpcView
    reads n, n.body
  {
    NpcView(n.body.entityID, n.npcIndex, n.body.st, n.changed)
  }

  /** The connected names that belong to a player, in slot order: who the game state
      goes to. */
  function Recipients(slots: seq<Option<string>>, ids: set<string>): (r: seq<string>)
    ensures forall c :: c in r <==> Some(c) in slots && c in ids
  {
    if |slots| == 0 then []
    else
      var last := slots[|slots| - 1];
      var rest := Recipients(slots[..|slots| - 1], ids);
      assert forall o :: o in slots <==> o == last || o in slots[..|slots| - 1];
      if last.Some? && last.value in ids then rest + [last.value] else rest
  }

  /** The ids of the players. */
  function PlayerIDs(players: seq<Player>): set<string> {
    set p | p in players :: p.body.entityID
  }

  /** The same game state addressed to each of `names`. */
  function Addressed(names: seq<string>, g: GameState): (r: seq<(string, GameState)>)
    ensures |r| == |names| && forall k :: 0 <= k < |r| ==> r[k] == (names[k], g)
  {
    seq(|names|, k requires 0 <= k < |names| => (names[k], g))
  }

  /** The recipients among the first `i` slots come first among all recipients. */
  lemma {:induction false} RecipientsPrefix(slots: seq<Option<string>>, i: nat, ids: set<string>)
    requires i <= |slots|
    ensures Recipients(slots[..i], ids) <= Recipients(slots, ids)
    decreases |slots|
  {
    if i < |slots| {
      var init := slots[..|slots| - 1];
      RecipientsPrefix(init, i, ids);
      assert init[..i] == slots[..i];
    } else {
      assert slots[..i] == slots;
    }
  }

  /** Every player, NPC and item in the lists is its own object, and so is every
      entity's body. */
  ghost predicate Disjoint(players: seq<Player>, npcs: seq<Npc>, items: seq<Item>) {
    && (forall i, j :: 0 <= i < j < |players| ==> players[i] != players[j] && players[i].body != players[j].body)
    && (forall i, j :: 0 <= i < j < |npcs| ==> npcs[i] != npcs[j] && npcs[i].body != npcs[j].body)
    && (forall i, j :: 0 <= i < |players| && 0 <= j < |npcs| ==> players[i].body != npcs[j].body)
    && (forall i, j :: 0 <= i < j < |items| ==> items[i] != items[j])
  }

  /** The state of each player's body, with the player's profile, in order. */
  ghost function PlayerStates(players: seq<Player>): (r: seq<(State, Profile)>)
    reads players, set p | p in players :: p.body
    ensures |r| == |players|
    ensures forall i :: 0 <= i < |players| ==> r[i] == (players[i].body.st, players[i].profile)
  {
    seq(|players|, i requires 0 <= i < |players| reads players, set p | p in players :: p.body =>
      (players[i].body.st, players[i].profile))
  }

  /** The state of each NPC's body, with the NPC's own change flags, in order. */
  ghost function NpcStates(npcs: seq<Npc>): (r: seq<(State, set<NpcFlag>)>)
    reads npcs, set n | n in npcs :: n.body
    ensures |r| == |npcs|
    ensures forall i :: 0 <= i < |npcs| ==> r[i] == (npcs[i].body.st, npcs[i].changed)
  {
    seq(|npcs|, i requires 0 <= i < |npcs| reads npcs, set n | n in npcs :: n.body =>
      (npcs[i].body.st, npcs[i].changed))
  }

  /** The players' states with every change flag lowered, body and profile. */
  function LoweredPlayers(s: seq<(State, Profile)>): (r: seq<(State, Profile)>)
    ensures |r| == |s|
    ensures forall i :: 0 <= i < |s| ==> r[i] == (s[i].0.(changed := {}), s[i].1.(changed := {}))
  {
    seq(|s|, i requires 0 <= i < |s| => (s[i].0.(changed := {}), s[i].1.(changed := {})))
  }

  // ---------------------------------------------------------------------------------
  // The world

  class World {
    /** The connection slots; a connection is known by its name. */
    const connections: array<Option<string>>
    var onlinePlayers: seq<string>
    var actionQueue: seq<Action>
    var players: seq<Player>
    var npcs: seq<Npc>
    var items: seq<Item>
    /** The tick's attack and sound events and the chat messages. */
    const events: TickEvents
    var talkEvents: seq<TalkEvent>
    var tradeEvents: seq<TradeEvent>

    /** There are `MAX_PLAYERS` slots and the online list mirrors them. */
    ghost predicate Valid()
      reads this, connections
    {
      connections.Length == MAX_PLAYERS && Mirrors(connections[..], onlinePlayers)
    }

    /** Every entity and item is its own object, and so is every entity's body. */
    ghost predicate Separate()
      reads this
    {
      Disjoint(players, npcs, items)
    }

    /** An empty world: every slot free, nobody online, nothing queued. The NPCs and
        items the server spawns at start are not part of this model. */
    constructor(events: TickEvents)
      ensures Valid() && Separate()
      ensures fresh(connections) && forall i :: 0 <= i < connections.Length ==> connections[i].None?
      ensures onlinePlayers == [] && actionQueue == [] && players == [] && npcs == [] && items == []
      ensures this.events == events && talkEvents == [] && tradeEvents == []
    {
      connections := new Option<string>[MAX_PLAYERS](_ => None);
      onlinePlayers := [];
      actionQueue := [];
      players := [];
      npcs := [];
      items := [];
      this.events := events;
      talkEvents := [];
      tradeEvents := [];
      new;
      ConnectedNone(connections[..]);
    }

    /** The first slot holding `o`, or -1. */
    method FindSlot(o: Option<string>) returns (k: int)
      ensures k == IndexOf(connections[..], o)
    {
      for i := 0 to connections.Length
        invariant o !in connections[..][..i]
      {
        if connections[i] == o {
          return i;
        }
      }
      assert connections[..][..connections.Length] == connections[..];
      return -1;
    }

    /** `addConnection`: see `Added`. The online list stays a mirror of the slots. */
    method AddConnection(conn: string)
      requires Valid()
      modifies this`onlinePlayers, connections
      ensures Valid()
      ensures (connections[..], onlinePlayers) == Added(old(connections[..]), old(onlinePlayers), conn)
      ensures actionQueue == old(actionQueue) && players == old(players) && npcs == old(npcs)
      ensures items == old(items)
    {
      AddedMirrors(connections[..], onlinePlayers, conn);
      var k := FindSlot(None);
      if k >= 0 {
        SetSlot(k, Some(conn));
        onlinePlayers := onlinePlayers + [conn];
      }
    }

    /** `connections[k] = o`. */
    method SetSlot(k: nat, o: Option<string>)
      requires k < connections.Length
      modifies connections
      ensures connections[..] == old(connections[..])[k := o]
    {
      connections[k] := o;
    }

    /** `removeConnection`: see `Removed`. The online list stays a mirror of the slots. */
    method RemoveConnection(conn: string)
      requires Valid()
      modifies this`onlinePlayers, connections
      ensures Valid()
      ensures (connections[..], onlinePlayers) == Removed(old(connections[..]), old(onlinePlayers), conn)
      ensures actionQueue == old(actionQueue) && players == old(players) && npcs == old(npcs)
      ensures items == old(items)
    {
      Vacate(conn);
    }

    /** The slot and the name of `removeConnection`. */
    method Vacate(conn: string)
      requires Mirrors(connections[..], onlinePlayers)
      modifies this`onlinePlayers, connections
      ensures (connections[..], onlinePlayers) == Removed(old(connections[..]), old(onlinePlayers), conn)
      ensures Mirrors(connections[..], onlinePlayers)
    {
      RemovedMirrors(connections[..], onlinePlayers, conn);
      var k := FindSlot(Some(conn));
      if k >= 0 {
        SetSlot(k, None);
        onlinePlayers := RemoveFirst(onlinePlayers, conn);
      }
    }

    /** `getEntityByID`: the first player with the id, else the first NPC with it, else
        `null`. */
    method GetEntityByID(id: string) returns (e: Combatant?)
      ensures e == null <==> (forall p :: p in players ==> p.body.entityID != id)
                             && (forall n :: n in npcs ==> n.body.entityID != id)
      ensures (exists i :: 0 <= i < |players| && players[i].body.entityID == id) ==>
        exists i :: 0 <= i < |players| && e == players[i].body
          && forall j :: 0 <= j < i ==> players[j].body.entityID != id
      ensures (forall p :: p in players ==> p.body.entityID != id) && e != null ==>
        exists i :: 0 <= i < |npcs| && e == npcs[i].body
          && forall j :: 0 <= j < i ==> npcs[j].body.entityID != id
      ensures e != null ==> e.entityID == id
    {
      for i := 0 to |players|
        invariant forall j :: 0 <= j < i ==> players[j].body.entityID != id
      {
        if players[i].body.entityID == id {
          return players[i].body;
        }
      }
      for i := 0 to |npcs|
        invariant forall j :: 0 <= j < i ==> npcs[j].body.entityID != id
      {
        if npcs[i].body.entityID == id {
          return npcs[i].body;
        }
      }
      return null;
    }

    /** The action partitioning of `gameTick`: each player, in order, is handed the
        queued actions carrying its id, in queue order; then those actions leave the
        queue and the actions of absent players stay. */
    method TakeTickActions() returns (handed: seq<seq<Action>>)
      modifies this
      ensures |handed| == |players| && players == old(players)
      ensures forall i :: 0 <= i < |players| ==> handed[i] == ActionsOf(old(actionQueue), players[i].body.entityID)
      ensures actionQueue == Unclaimed(old(actionQueue), PlayerIDs(players))
      ensures npcs == old(npcs) && items == old(items) && onlinePlayers == old(onlinePlayers)
    {
      handed := [];
      for i := 0 to |players|
        invariant |handed| == i
        invariant forall j :: 0 <= j < i ==> handed[j] == ActionsOf(actionQueue, players[j].body.entityID)
      {
        handed := handed + [ActionsOf(actionQueue, players[i].body.entityID)];
      }
      actionQueue := Unclaimed(actionQueue, PlayerIDs(players));
    }

    /** The views the player DTOs are built from, `lastTicks` holding each player's
        last-tick tile. */
    method PlayerViews(lastTicks: seq<Pos>) returns (vs: seq<PlayerView>)
      requires |lastTicks| == |players|
      ensures |vs| == |players|
      ensures forall i :: 0 <= i < |players| ==> vs[i] == PlayerViewOf(players[i], lastTicks[i])
    {
      vs := [];
      for i := 0 to |players|
        invariant |vs| == i
        invariant forall j :: 0 <= j < i ==> vs[j] == PlayerViewOf(players[j], lastTicks[j])
      {
        vs := vs + [PlayerViewOf(players[i], lastTicks[i])];
      }
    }

    /** The views the NPC DTOs are built from. */
    method NpcViews() returns (vs: seq<NpcView>)
      ensures |vs| == |npcs| && forall i :: 0 <= i < |npcs| ==> vs[i] == NpcViewOf(npcs[i])
    {
      vs := [];
      for i := 0 to |npcs|
        invariant |vs| == i && forall j :: 0 <= j < i ==> vs[j] == NpcViewOf(npcs[j])
      {
        vs := vs + [NpcViewOf(npcs[i])];
      }
    }

    /** The views the item DTOs are built from. */
    method ItemViews() returns (vs: seq<ItemView>)
      ensures |vs| == |items| && forall i :: 0 <= i < |items| ==> vs[i] == items[i].View()
    {
      vs := [];
      for i := 0 to |items|
        invariant |vs| == i && forall j :: 0 <= j < i ==> vs[j] == items[j].View()
      {
        vs := vs + [items[i].View()];
      }
    }

    /** The sending loop of `sentGameStateToConnections`, corrected: each connection
        that belongs to a player, in slot order, is sent the state with its empty lists
        nulled, every recipient the same message. The prune runs on the one shared
        state once per recipient; here it is null-safe, so pruning again changes
        nothing. The loop as written is `DeliverAsWritten`. */
    method Deliver(snapshot: GameState) returns (sent: seq<(string, GameState)>)
      ensures sent == Addressed(Recipients(connections[..], PlayerIDs(players)), Pruned(snapshot))
    {
      var state := snapshot;
      var ids := PlayerIDs(players);
      PrunedIdempotent(snapshot);
      sent := [];
      for i := 0 to connections.Length
        invariant state == snapshot || state == Pruned(snapshot)
        invariant sent == Addressed(Recipients(connections[..i], ids), Pruned(snapshot))
      {
        var conn := connections[i];
        assert connections[..i + 1][..i] == connections[..i];
        if conn.Some? && conn.value in ids {
          state := Pruned(state);
          sent := sent + [(conn.value, state)];
        }
      }
      assert connections[..connections.Length] == connections[..];
    }

    /** The sending loop of `sentGameStateToConnections` as written: the prune of the
        one shared state throws on a list an earlier prune nulled, which ends the loop;
        `completed` says whether it got to the end. */
    method DeliverAsWritten(snapshot: GameState) returns (sent: seq<(string, GameState)>, completed: bool)
      ensures (sent, completed) == DeliveredAsWritten(Recipients(connections[..], PlayerIDs(players)), snapshot)
    {
      var state := snapshot;
      var ids := PlayerIDs(players);
      PrunedIdempotent(snapshot);
      if AllPresent(snapshot) {
        PrunedAllPresent(snapshot);
      }
      sent := [];
      var failed := false;
      var i := 0;
      while i < connections.Length && !failed
        invariant 0 <= i <= connections.Length
        invariant var names := Recipients(connections[..i], ids);
          && (!failed <==> DeliveryCompletes(|names|, snapshot))
          && (!failed ==> sent == Addressed(names, Pruned(snapshot)))
          && (!failed ==> state == if |names| == 0 then snapshot else Pruned(snapshot))
          && (failed ==> sent == if |names| > 0 && AllPresent(snapshot) then [(names[0], Pruned(snapshot))] else [])
      {
        var conn := connections[i];
        assert connections[..i + 1][..i] == connections[..i];
        if conn.Some? && conn.value in ids {
          var r := PrunedAsWritten(state);
          if r.None? {
            failed := true;
          } else {
            state := r.value;
            sent := sent + [(conn.value, state)];
          }
        }
        i := i + 1;
      }
      var all := Recipients(connections[..], ids);
      RecipientsPrefix(connections[..], i, ids);
      assert connections[..][..i] == connections[..i];
      if !failed {
        assert connections[..i] == connections[..];
      }
      completed := !failed;
      DeliveredAsWrittenCases(all, snapshot);
    }

    /** The game state of the tick, before its empty lists are nulled: the tick's four
        event lists, the DTOs worth sending built from the views `pvs`, `nvs` and `ivs`,
        the chat, no player id, and the online list. */
    function TickState(pvs: seq<PlayerView>, nvs: seq<NpcView>, ivs: seq<ItemView>): GameState
      reads this, events
    {
      GameState(Some(events.attackEvents), Some(talkEvents), Some(tradeEvents), Some(events.soundEvents),
                Some(PlayerUpdates(pvs)), Some(NpcUpdates(nvs)), Some(events.chatMessages), None,
                Some(ItemUpdates(ivs)), onlinePlayers)
    }

    /** The messages of `sentGameStateToConnections`, and the views they were built
        from. */
    method Compose(lastTicks: seq<Pos>)
      returns (sent: seq<(string, GameState)>, ghost pvs: seq<PlayerView>, ghost nvs: seq<NpcView>,
               ghost ivs: seq<ItemView>)
      requires |lastTicks| == |players|
      ensures |pvs| == |players| && forall i :: 0 <= i < |players| ==> pvs[i] == PlayerViewOf(players[i], lastTicks[i])
      ensures |nvs| == |npcs| && forall i :: 0 <= i < |npcs| ==> nvs[i] == NpcViewOf(npcs[i])
      ensures |ivs| == |items| && forall i :: 0 <= i < |items| ==> ivs[i] == items[i].View()
      ensures sent == Addressed(Recipients(connections[..], PlayerIDs(players)), Pruned(TickState(pvs, nvs, ivs)))
    {
      var playerViews := PlayerViews(lastTicks);
      var npcViews := NpcViews();
      var itemViews := ItemViews();
      pvs, nvs, ivs := playerViews, npcViews, itemViews;
      sent := Deliver(TickState(playerViews, npcViews, itemViews));
    }

    /** The four event lists of the tick emptied; nothing else changes. */
    method ClearTickEvents()
      modifies this, events
      ensures events.attackEvents == [] && events.soundEvents == [] && talkEvents == [] && tradeEvents == []
      ensures events.chatMessages == old(events.chatMessages)
      ensures players == old(players) && npcs == old(npcs) && items == old(items)
      ensures onlinePlayers == old(onlinePlayers) && actionQueue == old(actionQueue)
      ensures PlayerStates(players) == old(PlayerStates(players)) && NpcStates(npcs) == old(NpcStates(npcs))
    {
      events.attackEvents := [];
      events.soundEvents := [];
      talkEvents := [];
      tradeEvents := [];
    }

    /** `sentGameStateToConnections`: every connection that belongs to a player, in slot
        order, is sent the game state of the tick with its empty lists nulled; then the
        four event lists are emptied. The chat is left for `cleanUpData`. */
    method SendGameState(lastTicks: seq<Pos>)
      returns (sent: seq<(string, GameState)>, ghost pvs: seq<PlayerView>, ghost nvs: seq<NpcView>,
               ghost ivs: seq<ItemView>)
      requires |lastTicks| == |players|
      modifies this, events
      ensures players == old(players) && npcs == old(npcs) && items == old(items)
      ensures |pvs| == |players| && forall i :: 0 <= i < |players| ==> pvs[i] == old(PlayerViewOf(players[i], lastTicks[i]))
      ensures |nvs| == |npcs| && forall i :: 0 <= i < |npcs| ==> nvs[i] == old(NpcViewOf(npcs[i]))
      ensures |ivs| == |items| && forall i :: 0 <= i < |items| ==> ivs[i] == old(items[i].View())
      ensures sent == Addressed(Recipients(connections[..], PlayerIDs(players)), Pruned(old(TickState(pvs, nvs, ivs))))
      ensures events.attackEvents == [] && events.soundEvents == [] && talkEvents == [] && tradeEvents == []
      ensures events.chatMessages == old(events.chatMessages)
      ensures onlinePlayers == old(onlinePlayers) && actionQueue == old(actionQueue)
      ensures PlayerStates(players) == old(PlayerStates(players)) && NpcStates(npcs) == old(NpcStates(npcs))
    {
      sent, pvs, nvs, ivs := Compose(lastTicks);
      ClearTickEvents();
    }

    /** `sentGameStateToConnections` as written: the messages of `DeliverAsWritten`;
        the four event lists are emptied only when the loop got to the end, for a
        throw skips the clears and leaves them to be sent again next tick. */
    method SendGameStateAsWritten(lastTicks: seq<Pos>)
      returns (sent: seq<(string, GameState)>, completed: bool, ghost pvs: seq<PlayerView>,
               ghost nvs: seq<NpcView>, ghost ivs: seq<ItemView>)
      requires |lastTicks| == |players|
      modifies this, events
      ensures players == old(players) && npcs == old(npcs) && items == old(items)
      ensures |pvs| == |players| && forall i :: 0 <= i < |players| ==> pvs[i] == old(PlayerViewOf(players[i], lastTicks[i]))
      ensures |nvs| == |npcs| && forall i :: 0 <= i < |npcs| ==> nvs[i] == old(NpcViewOf(npcs[i]))
      ensures |ivs| == |items| && forall i :: 0 <= i < |items| ==> ivs[i] == old(items[i].View())
      ensures (sent, completed) == DeliveredAsWritten(old(Recipients(connections[..], PlayerIDs(players))), old(TickState(pvs, nvs, ivs)))
      ensures completed <==> DeliveryCompletes(|old(Recipients(connections[..], PlayerIDs(players)))|, old(TickState(pvs, nvs, ivs)))
      ensures completed ==> events.attackEvents == [] && events.soundEvents == [] && talkEvents == [] && tradeEvents == []
      ensures !completed ==>
        && events.attackEvents == old(events.attackEvents) && events.soundEvents == old(events.soundEvents)
        && talkEvents == old(talkEvents) && tradeEvents == old(tradeEvents)
      ensures events.chatMessages == old(events.chatMessages)
      ensures onlinePlayers == old(onlinePlayers) && actionQueue == old(actionQueue)
      ensures PlayerStates(players) == old(PlayerStates(players)) && NpcStates(npcs) == old(NpcStates(npcs))
      ensures !completed ==> unchanged(players, npcs, items)
    {
      sent, completed, pvs, nvs, ivs := ComposeAsWritten(lastTicks);
      if completed {
        ClearTickEvents();
      }
    }

    /** The messages of `sentGameStateToConnections` as written, whether its loop got
        to the end, and the views they were built from. */
    method ComposeAsWritten(lastTicks: seq<Pos>)
      returns (sent: seq<(string, GameState)>, completed: bool, ghost pvs: seq<PlayerView>,
               ghost nvs: seq<NpcView>, ghost ivs: seq<ItemView>)
      requires |lastTicks| == |players|
      ensures |pvs| == |players| && forall i :: 0 <= i < |players| ==> pvs[i] == PlayerViewOf(players[i], lastTicks[i])
      ensures |nvs| == |npcs| && forall i :: 0 <= i < |npcs| ==> nvs[i] == NpcViewOf(npcs[i])
      ensures |ivs| == |items| && forall i :: 0 <= i < |items| ==> ivs[i] == items[i].View()
      ensures (sent, completed) == DeliveredAsWritten(Recipients(connections[..], PlayerIDs(players)), TickState(pvs, nvs, ivs))
      ensures completed <==> DeliveryCompletes(|Recipients(connections[..], PlayerIDs(players))|, TickState(pvs, nvs, ivs))
    {
      var playerViews := PlayerViews(lastTicks);
      var npcViews := NpcViews();
      var itemViews := ItemViews();
      pvs, nvs, ivs := playerViews, npcViews, itemViews;
      sent, completed := DeliverAsWritten(TickState(playerViews, npcViews, itemViews));
      DeliveredAsWrittenCases(Recipients(connections[..], PlayerIDs(players)), TickState(playerViews, npcViews, itemViews));
    }

    /** The end of `gameTick`, corrected: the game state is sent to every player, the
        tick's events are emptied, then `cleanUpData` empties the chat and lowers every
        change flag. */
    method EndTick(lastTicks: seq<Pos>)
      returns (sent: seq<(string, GameState)>, ghost pvs: seq<PlayerView>, ghost nvs: seq<NpcView>,
               ghost ivs: seq<ItemView>)
      requires |lastTicks| == |players| && Separate()
      modifies this, events, players, npcs, items, set p | p in players :: p.body, set n | n in npcs :: n.body
      ensures players == old(players) && npcs == old(npcs) && items == old(items)
      ensures sent == Addressed(old(Recipients(connections[..], PlayerIDs(players))), Pruned(old(TickState(pvs, nvs, ivs))))
      ensures events.attackEvents == [] && events.soundEvents == [] && talkEvents == [] && tradeEvents == []
      ensures events.chatMessages == []
      ensures PlayerStates(players) == LoweredPlayers(old(PlayerStates(players)))
    {
      sent, pvs, nvs, ivs := SendGameState(lastTicks);
      FinishTick();
    }

    /** The end of `gameTick` as written: the exception a prune throws propagates out
        of `sentGameStateToConnections` to the `catch` of `gameTick`, which skips
        `cleanUpData`. So when the sending did not complete, the chat and every change
        flag are left as they were, and the next tick sends them again. */
    method EndTickAsWritten(lastTicks: seq<Pos>)
      returns (sent: seq<(string, GameState)>, completed: bool, ghost pvs: seq<PlayerView>,
               ghost nvs: seq<NpcView>, ghost ivs: seq<ItemView>)
      requires |lastTicks| == |players| && Separate()
      modifies this, events, players, npcs, items, set p | p in players :: p.body, set n | n in npcs :: n.body
      ensures players == old(players) && npcs == old(npcs) && items == old(items)
      ensures (sent, completed) == DeliveredAsWritten(old(Recipients(connections[..], PlayerIDs(players))), old(TickState(pvs, nvs, ivs)))
      ensures completed ==> events.chatMessages == []
      ensures completed ==> events.attackEvents == [] && events.soundEvents == [] && talkEvents == [] && tradeEvents == []
      ensures completed ==> PlayerStates(players) == LoweredPlayers(old(PlayerStates(players)))
      ensures !completed ==> events.chatMessages == old(events.chatMessages) && tradeEvents == old(tradeEvents)
      ensures !completed ==>
        && events.attackEvents == old(events.attackEvents) && events.soundEvents == old(events.soundEvents)
        && talkEvents == old(talkEvents)
      ensures !completed ==> unchanged(players, npcs, items)
      ensures !completed ==> PlayerStates(players) == old(PlayerStates(players)) && NpcStates(npcs) == old(NpcStates(npcs))
    {
      sent, completed, pvs, nvs, ivs := SendGameStateAsWritten(lastTicks);
      if completed {
        FinishTick();
      }
    }

    /** `cleanUpData` as `gameTick` sees it: the chat is emptied and every player's
        change flags are lowered, while the sending's own lists are left alone. */
    method FinishTick()
      requires Separate()
      modifies events, players, npcs, items, set p | p in players :: p.body, set n | n in npcs :: n.body
      ensures players == old(players) && npcs == old(npcs) && items == old(items)
      ensures talkEvents == old(talkEvents) && tradeEvents == old(tradeEvents)
      ensures events.attackEvents == old(events.attackEvents) && events.soundEvents == old(events.soundEvents)
      ensures events.chatMessages == []
      ensures PlayerStates(players) == LoweredPlayers(old(PlayerStates(players)))
    {
      CleanUpData();
    }

    /** Lowers the change flags of every player. */
    method ClearPlayerFlags()
      requires Separate()
      modifies players, set p | p in players :: p.body
      ensures forall i :: 0 <= i < |players| ==>
        players[i].body.st == old(players[i].body.st).(changed := {})
        && players[i].profile == old(players[i].profile).(changed := {})
    {
      for i := 0 to |players|
        invariant forall j :: 0 <= j < i ==>
          players[j].body.st == old(players[j].body.st).(changed := {})
          && players[j].profile == old(players[j].profile).(changed := {})
        invariant forall j :: i <= j < |players| ==>
          players[j].body.st == old(players[j].body.st) && players[j].profile == old(players[j].profile)
      {
        players[i].ClearChangedFlags();
      }
    }

    /** Lowers the change flags of every NPC. */
    method ClearNpcFlags()
      requires Separate()
      modifies npcs, set n | n in npcs :: n.body
      ensures forall i :: 0 <= i < |npcs| ==>
        npcs[i].body.st == old(npcs[i].body.st).(changed := {}) && npcs[i].changed == {}
    {
      for i := 0 to |npcs|
        invariant forall j :: 0 <= j < i ==>
          npcs[j].body.st == old(npcs[j].body.st).(changed := {}) && npcs[j].changed == {}
        invariant forall j :: i <= j < |npcs| ==> npcs[j].body.st == old(npcs[j].body.st)
      {
        npcs[i].ClearChangedFlags();
      }
    }

    /** Lowers the change flags of every item. */
    method ClearItemFlags()
      requires Separate()
      modifies items
      ensures forall i :: 0 <= i < |items| ==> items[i].View() == old(items[i].View()).(changed := {})
    {
      for i := 0 to |items|
        invariant forall j :: 0 <= j < i ==> items[j].View() == old(items[j].View()).(changed := {})
        invariant forall j :: i <= j < |items| ==> items[j].View() == old(items[j].View())
      {
        items[i].ClearChangedFlags();
      }
    }

    /** `cleanUpData`: the chat is emptied and every player, NPC and item lowers its
        change flags, so the next tick sends only what changes in it. */
    method CleanUpData()
      requires Separate()
      modifies events, players, npcs, items, set p | p in players :: p.body, set n | n in npcs :: n.body
      ensures events.chatMessages == [] && events.attackEvents == old(events.attackEvents)
      ensures events.soundEvents == old(events.soundEvents)
      ensures players == old(players) && npcs == old(npcs) && items == old(items)
      ensures talkEvents == old(talkEvents) && tradeEvents == old(tradeEvents)
      ensures forall i :: 0 <= i < |players| ==>
        players[i].body.st == old(players[i].body.st).(changed := {})
        && players[i].profile == old(players[i].profile).(changed := {})
      ensures forall i :: 0 <= i < |npcs| ==>
        npcs[i].body.st == old(npcs[i].body.st).(changed := {}) && npcs[i].changed == {}
      ensures forall i :: 0 <= i < |items| ==> items[i].View() == old(items[i].View()).(changed := {})
    {
      events.chatMessages := [];
      ClearPlayerFlags();
      ClearNpcFlags();
      ClearItemFlags();
    }
  }
}
