/** The client's `Client`: the fixed-step game loop, and `updateGameState`, which
    brings the world's players, NPCs, chat and event lists in line with one message
    from the server. The rosters are specified by folds over plain values (a player's
    id and state, an NPC's id, snapshot and frame fields); the methods that change the
    world's objects are proved against them. */
module ClientGame {
  import opened Common
  import opened Events
  import opened ClientScene
  import opened ClientTiles
  import opened ClientNpcs
  import opened ClientPlayers
  import opened ClientItems
  import opened ClientWorlds
  import Transfer
  import GameWorld

  // ---------------------------------------------------------------------------------
  // Players that went offline

  /** `onlinePlayers.includes(player.entityID)`: an `undefined` id is never online. */
  predicate IsOnline(id: Option<string>, online: seq<string>) {
    id.Some? && id.value in online
  }

  /** The `filter` that keeps the players still online, in order. */
  function OnlineOnly(ps: seq<ClientPlayer>, online: seq<string>): seq<ClientPlayer> {
    if |ps| == 0 then []
    else OnlineOnly(ps[..|ps| - 1], online) + (if IsOnline(ps[|ps| - 1].entityID, online) then [ps[|ps| - 1]] else [])
  }

  /** No two players of the list share an id. */
  predicate DistinctPlayerIds(ps: seq<ClientPlayer>) {
    forall i, j :: 0 <= i < j < |ps| ==> ps[i].entityID != ps[j].entityID
  }

  /** A player stays exactly when it is online, and none is added. */
  lemma {:induction false} OnlineOnlyMembers(ps: seq<ClientPlayer>, online: seq<string>)
    ensures forall p :: p in OnlineOnly(ps, online) <==> p in ps && IsOnline(p.entityID, online)
    ensures |OnlineOnly(ps, online)| <= |ps|
  {
    if |ps| > 0 {
      var n := |ps| - 1;
      OnlineOnlyMembers(ps[..n], online);
      assert ps == ps[..n] + [ps[n]];
    }
  }

  /** A player that stays held its place earlier in the list. */
  lemma {:induction false} OnlineOnlyFrom(ps: seq<ClientPlayer>, online: seq<string>, i: nat)
    requires i < |OnlineOnly(ps, online)|
    ensures exists m :: 0 <= m < |ps| && ps[m] == OnlineOnly(ps, online)[i]
  {
    var n := |ps| - 1;
    var r0 := OnlineOnly(ps[..n], online);
    if i < |r0| {
      OnlineOnlyFrom(ps[..n], online, i);
      var m :| 0 <= m < n && ps[..n][m] == r0[i];
      assert ps[m] == OnlineOnly(ps, online)[i];
    } else {
      assert ps[n] == OnlineOnly(ps, online)[i];
    }
  }

  /** No two players that stay share an id when no two did before. */
  lemma {:induction false} OnlineOnlyDistinct(ps: seq<ClientPlayer>, online: seq<string>)
    requires DistinctPlayerIds(ps)
    ensures DistinctPlayerIds(OnlineOnly(ps, online))
  {
    if |ps| > 0 {
      var n := |ps| - 1;
      assert DistinctPlayerIds(ps[..n]);
      OnlineOnlyDistinct(ps[..n], online);
      var r0 := OnlineOnly(ps[..n], online);
      if IsOnline(ps[n].entityID, online) {
        assert OnlineOnly(ps, online) == r0 + [ps[n]];
        forall i | 0 <= i < |r0|
          ensures r0[i].entityID != ps[n].entityID
        {
          OnlineOnlyFrom(ps[..n], online, i);
          var m :| 0 <= m < n && ps[..n][m] == r0[i];
          assert ps[m] == r0[i];
        }
      }
    }
  }

  // ---------------------------------------------------------------------------------
  // The player roster

  /** A player as `updateGameState` sees it: its id and its state. The roster
      functions take the per-player `update` as a parameter `merge` (for the client,
      `Merged`) and the state of a new player as `init` (`INITIAL_PLAYER`). */
  datatype Member<S> = Member(id: Option<string>, state: S)

  /** The ids of a roster, in order. */
  function MemberIds<S>(ms: seq<Member<S>>): (r: seq<Option<string>>)
    ensures |r| == |ms| && forall i :: 0 <= i < |ms| ==> r[i] == ms[i].id
  {
    seq(|ms|, i requires 0 <= i < |ms| => ms[i].id)
  }

  /** No two entries share an id. */
  predicate DistinctIds<S>(ms: seq<Member<S>>) {
    forall i, j :: 0 <= i < j < |ms| ==> ms[i].id != ms[j].id
  }

  /** `players.find(p => p.entityID === id)`: the index of the first entry with the id,
      or the length of the roster when there is none. */
  function FirstWithId<S>(ms: seq<Member<S>>, id: Option<string>): (k: nat)
    ensures k <= |ms|
    ensures k < |ms| ==> ms[k].id == id
    ensures forall j :: 0 <= j < k ==> ms[j].id != id
  {
    if |ms| == 0 then 0 else if ms[0].id == id then 0 else 1 + FirstWithId(ms[1..], id)
  }

  /** One player DTO: the entry with its id takes it over, or a new player, made from
      the DTO alone, joins at the end. */
  function TookPlayer<S>(ms: seq<Member<S>>, d: Transfer.PlayerDto, merge: (S, Transfer.PlayerDto) -> S, init: S): seq<Member<S>> {
    var k := FirstWithId(ms, d.entityID);
    if k < |ms| then ms[k := Member(ms[k].id, merge(ms[k].state, d))]
    else ms + [Member(d.entityID, merge(init, d))]
  }

  /** The roster after the DTOs of a message, taken in order. */
  function JoinedPlayers<S>(ms: seq<Member<S>>, dtos: seq<Transfer.PlayerDto>, merge: (S, Transfer.PlayerDto) -> S, init: S): seq<Member<S>> {
    if |dtos| == 0 then ms else TookPlayer(JoinedPlayers(ms, dtos[..|dtos| - 1], merge, init), dtos[|dtos| - 1], merge, init)
  }

  /** The ids of a list of entities or DTOs, in order. */
  function IdsOf<T>(xs: seq<T>, id: T -> Option<string>): (r: seq<Option<string>>)
    ensures |r| == |xs| && forall i :: 0 <= i < |xs| ==> r[i] == id(xs[i])
  {
    seq(|xs|, i requires 0 <= i < |xs| => id(xs[i]))
  }

  /** The id a player DTO carries. */
  const PlayerDtoId := (d: Transfer.PlayerDto) => d.entityID

  /** Taking the NPC DTOs one at a time. */
  lemma JoinedNpcsStep<S>(es: seq<Member<S>>, index: map<Option<string>, nat>, dtos: seq<Transfer.NpcDto>, i: nat,
                          refresh: (S, Transfer.NpcDto) -> S, init: S)
    requires Within(index, |es|) && i < |dtos|
    ensures JoinedNpcs(es, index, dtos[..i + 1], refresh, init)
      == TookNpc(JoinedNpcs(es, index, dtos[..i], refresh, init), index, dtos[i], refresh, init)
  {
    assert dtos[..i + 1][..i] == dtos[..i];
  }

  /** All the NPC DTOs, as a prefix. */
  lemma JoinedNpcsWhole<S>(es: seq<Member<S>>, index: map<Option<string>, nat>, dtos: seq<Transfer.NpcDto>,
                           refresh: (S, Transfer.NpcDto) -> S, init: S)
    requires Within(index, |es|)
    ensures JoinedNpcs(es, index, dtos[..|dtos|], refresh, init) == JoinedNpcs(es, index, dtos, refresh, init)
  {
    assert dtos[..|dtos|] == dtos;
  }

  /** Mapping ids one more place on. */
  lemma LastByIdStep(ids: seq<Option<string>>, i: nat)
    requires i < |ids|
    ensures LastById(ids[..i + 1]) == LastById(ids[..i])[ids[i] := i]
  {
    assert ids[..i + 1][..i] == ids[..i];
  }

  /** The DTOs with the given id, in order. */
  function PlayerDtosFor(dtos: seq<Transfer.PlayerDto>, id: Option<string>): seq<Transfer.PlayerDto> {
    if |dtos| == 0 then []
    else PlayerDtosFor(dtos[..|dtos| - 1], id) + (if dtos[|dtos| - 1].entityID == id then [dtos[|dtos| - 1]] else [])
  }

  /** A player's state after `update` with each of the DTOs, in order. */
  function MergedAll<S>(p: S, dtos: seq<Transfer.PlayerDto>, merge: (S, Transfer.PlayerDto) -> S): S {
    if |dtos| == 0 then p else merge(MergedAll(p, dtos[..|dtos| - 1], merge), dtos[|dtos| - 1])
  }

  /** No DTO is for an id none of them carries. */
  lemma {:induction false} PlayerDtosForAbsent(dtos: seq<Transfer.PlayerDto>, id: Option<string>)
    requires id !in IdsOf(dtos, PlayerDtoId)
    ensures PlayerDtosFor(dtos, id) == []
  {
    if |dtos| > 0 {
      var n := |dtos| - 1;
      assert IdsOf(dtos[..n], PlayerDtoId) == IdsOf(dtos, PlayerDtoId)[..n];
      PlayerDtosForAbsent(dtos[..n], id);
    }
  }

  /** One DTO: the entries keep their ids and places; a new one joins exactly when no
      entry has the DTO's id; no two entries share an id. */
  lemma TookPlayerIds<S>(ms: seq<Member<S>>, d: Transfer.PlayerDto, merge: (S, Transfer.PlayerDto) -> S, init: S)
    requires DistinctIds(ms)
    ensures var r := TookPlayer(ms, d, merge, init);
      && MemberIds(r) == MemberIds(ms) + (if d.entityID in MemberIds(ms) then [] else [d.entityID])
      && DistinctIds(r)
  {
    var k := FirstWithId(ms, d.entityID);
    var r := TookPlayer(ms, d, merge, init);
    if k < |ms| {
      assert MemberIds(ms)[k] == d.entityID;
      assert MemberIds(r) == MemberIds(ms);
    } else {
      assert MemberIds(r) == MemberIds(ms) + [d.entityID];
    }
  }

  /** The roster only grows: the entries there before keep their ids and places, a
      new entry joins for each id not yet there and for no other, and no two entries
      share an id. */
  lemma {:induction false} JoinedPlayersIds<S>(ms: seq<Member<S>>, dtos: seq<Transfer.PlayerDto>,
                                               merge: (S, Transfer.PlayerDto) -> S, init: S)
    requires DistinctIds(ms)
    ensures var r := JoinedPlayers(ms, dtos, merge, init);
      && |ms| <= |r| && MemberIds(r)[..|ms|] == MemberIds(ms) && DistinctIds(r)
      && forall id :: id in MemberIds(r) <==> id in MemberIds(ms) || id in IdsOf(dtos, PlayerDtoId)
  {
    if |dtos| > 0 {
      var n := |dtos| - 1;
      assert IdsOf(dtos, PlayerDtoId) == IdsOf(dtos[..n], PlayerDtoId) + [dtos[n].entityID];
      JoinedPlayersIds(ms, dtos[..n], merge, init);
      TookPlayerIds(JoinedPlayers(ms, dtos[..n], merge, init), dtos[n], merge, init);
    }
  }

  /** One DTO: the entry with its id, if any, takes it over; a new entry made from it
      alone joins otherwise; every other entry is left as it was. */
  lemma TookPlayerStates<S>(ms: seq<Member<S>>, d: Transfer.PlayerDto, merge: (S, Transfer.PlayerDto) -> S, init: S)
    requires DistinctIds(ms)
    ensures var r := TookPlayer(ms, d, merge, init);
      && (forall j :: 0 <= j < |ms| ==> r[j] == if ms[j].id == d.entityID then Member(ms[j].id, merge(ms[j].state, d)) else ms[j])
      && (d.entityID !in MemberIds(ms) ==> r[|ms|] == Member(d.entityID, merge(init, d)))
  {
    var k := FirstWithId(ms, d.entityID);
    if k < |ms| {
      assert MemberIds(ms)[k] == d.entityID;
    }
  }

  /** Taking one more DTO is one more `update`. */
  lemma MergedAllSnoc<S>(p: S, xs: seq<Transfer.PlayerDto>, d: Transfer.PlayerDto, merge: (S, Transfer.PlayerDto) -> S)
    ensures MergedAll(p, xs + [d], merge) == merge(MergedAll(p, xs, merge), d)
  {
    assert (xs + [d])[..|xs|] == xs;
  }

  /** Every player's state is the fold of `update` over the DTOs with its id, starting
      from the state it had, or from a new player's state for one that joined. */
  lemma {:induction false} JoinedPlayersStates<S>(ms: seq<Member<S>>, dtos: seq<Transfer.PlayerDto>,
                                                  merge: (S, Transfer.PlayerDto) -> S, init: S)
    requires DistinctIds(ms)
    ensures var r := JoinedPlayers(ms, dtos, merge, init);
      forall k :: 0 <= k < |r| ==>
        r[k].state == MergedAll(if k < |ms| then ms[k].state else init, PlayerDtosFor(dtos, r[k].id), merge)
  {
    if |dtos| > 0 {
      var n := |dtos| - 1;
      var d := dtos[n];
      assert dtos[..n + 1] == dtos;
      JoinedPlayersStates(ms, dtos[..n], merge, init);
      JoinedPlayersIds(ms, dtos[..n], merge, init);
      var r0 := JoinedPlayers(ms, dtos[..n], merge, init);
      TookPlayerIds(r0, d, merge, init);
      TookPlayerStates(r0, d, merge, init);
      var r := TookPlayer(r0, d, merge, init);
      forall j | 0 <= j < |r|
        ensures r[j].state == MergedAll(if j < |ms| then ms[j].state else init, PlayerDtosFor(dtos, r[j].id), merge)
      {
        var base := if j < |ms| then ms[j].state else init;
        var xs := PlayerDtosFor(dtos[..n], r[j].id);
        if j == |r0| {
          PlayerDtosForAbsent(dtos[..n], d.entityID);
          MergedAllSnoc(base, [], d, merge);
        } else if r0[j].id == d.entityID {
          MergedAllSnoc(base, xs, d, merge);
        } else {
          assert PlayerDtosFor(dtos, r[j].id) == xs;
        }
      }
    }
  }

  /** Taking the DTOs one at a time. */
  lemma JoinedPlayersStep<S>(ms: seq<Member<S>>, dtos: seq<Transfer.PlayerDto>, i: nat, merge: (S, Transfer.PlayerDto) -> S, init: S)
    requires i < |dtos|
    ensures JoinedPlayers(ms, dtos[..i + 1], merge, init) == TookPlayer(JoinedPlayers(ms, dtos[..i], merge, init), dtos[i], merge, init)
  {
    assert dtos[..i + 1][..i] == dtos[..i];
  }

  lemma JoinedPlayersWhole<S>(ms: seq<Member<S>>, dtos: seq<Transfer.PlayerDto>, merge: (S, Transfer.PlayerDto) -> S, init: S)
    ensures JoinedPlayers(ms, dtos[..|dtos|], merge, init) == JoinedPlayers(ms, dtos, merge, init)
  {
    assert dtos[..|dtos|] == dtos;
  }

  // ---------------------------------------------------------------------------------
  // The NPC roster

  /** What `updateGameState` changes in an NPC: its snapshot and frame fields, and
      whether its model is in the scene. Whether it has limbs is fixed. The roster
      functions take `update` as a parameter `refresh` (for the client, `Refreshed`)
      and a new NPC's state as `init` (`NEW_NPC`), and hold entries of type
      `Member<S>`, as the player roster does. */
  datatype NpcState = NpcState(snapshot: Snapshot, frame: Frame, hasLimbs: bool, added: bool)

  /** An NPC after `update(d)`: the snapshot taken over, the death latch run and the
      model in the scene. */
  function Refreshed(e: NpcState, d: Transfer.NpcDto): NpcState {
    e.(snapshot := FromDto(d), frame := AfterSnapshot(e.frame, d.isDying == Some(true), e.hasLimbs), added := true)
  }

  /** A new NPC, before its first `update`. */
  const NEW_NPC: NpcState := NpcState(INITIAL_SNAPSHOT, INITIAL_FRAME, true, false)

  /** `npcMap`: each id of the list mapped to the last place that holds it, since a
      later `set` of the same key overwrites an earlier one. */
  function LastById(ids: seq<Option<string>>): (m: map<Option<string>, nat>)
    ensures forall id :: id in m <==> id in ids
    ensures forall id :: id in m ==> m[id] < |ids| && ids[m[id]] == id
    ensures forall id, j :: id in m && m[id] < j < |ids| ==> ids[j] != id
  {
    if |ids| == 0 then map[] else LastById(ids[..|ids| - 1])[ids[|ids| - 1] := |ids| - 1]
  }

  /** Every place a map sends an id to is inside a list of length `n`. */
  predicate Within(index: map<Option<string>, nat>, n: nat) {
    forall id :: id in index ==> index[id] < n
  }

  /** One NPC DTO: the NPC the map holds for its id takes it over, or a new NPC made
      from it joins at the end. The map is the one built before the DTOs are taken, so
      an NPC that joined in this message is never found by it. */
  function TookNpc<S>(es: seq<Member<S>>, index: map<Option<string>, nat>, d: Transfer.NpcDto,
                      refresh: (S, Transfer.NpcDto) -> S, init: S): seq<Member<S>>
    requires Within(index, |es|)
  {
    if d.entityID in index then es[index[d.entityID] := Member(es[index[d.entityID]].id, refresh(es[index[d.entityID]].state, d))]
    else es + [Member(d.entityID, refresh(init, d))]
  }

  /** The NPCs after the DTOs of a message, taken in order. */
  function JoinedNpcs<S>(es: seq<Member<S>>, index: map<Option<string>, nat>, dtos: seq<Transfer.NpcDto>,
                         refresh: (S, Transfer.NpcDto) -> S, init: S): (r: seq<Member<S>>)
    requires Within(index, |es|)
    ensures |es| <= |r|
  {
    if |dtos| == 0 then es
    else TookNpc(JoinedNpcs(es, index, dtos[..|dtos| - 1], refresh, init), index, dtos[|dtos| - 1], refresh, init)
  }

  /** The DTOs with the given id, in order. */
  function NpcDtosFor(dtos: seq<Transfer.NpcDto>, id: Option<string>): seq<Transfer.NpcDto> {
    if |dtos| == 0 then []
    else NpcDtosFor(dtos[..|dtos| - 1], id) + (if dtos[|dtos| - 1].entityID == id then [dtos[|dtos| - 1]] else [])
  }

  /** An NPC after `update` with each of the DTOs, in order. */
  function RefreshedAll<S>(e: S, dtos: seq<Transfer.NpcDto>, refresh: (S, Transfer.NpcDto) -> S): S {
    if |dtos| == 0 then e else refresh(RefreshedAll(e, dtos[..|dtos| - 1], refresh), dtos[|dtos| - 1])
  }

  /** The DTOs whose id the map does not hold, in order. */
  function Unknown(dtos: seq<Transfer.NpcDto>, index: map<Option<string>, nat>): seq<Transfer.NpcDto> {
    if |dtos| == 0 then []
    else Unknown(dtos[..|dtos| - 1], index) + (if dtos[|dtos| - 1].entityID !in index then [dtos[|dtos| - 1]] else [])
  }

  /** A new NPC for each DTO, in order. */
  function Spawned<S>(dtos: seq<Transfer.NpcDto>, refresh: (S, Transfer.NpcDto) -> S, init: S): (r: seq<Member<S>>)
    ensures |r| == |dtos|
  {
    if |dtos| == 0 then []
    else Spawned(dtos[..|dtos| - 1], refresh, init) + [Member(dtos[|dtos| - 1].entityID, refresh(init, dtos[|dtos| - 1]))]
  }

  /** The map sends every id it holds to an NPC with that id. */
  predicate Consistent<S>(index: map<Option<string>, nat>, es: seq<Member<S>>) {
    forall id :: id in index ==> index[id] < |es| && es[index[id]].id == id
  }

  /** NPCs are never removed and the new ones join at the end: one for each DTO whose
      id the map does not hold, in order, so two such DTOs with one id make two NPCs. */
  lemma {:induction false} JoinedNpcsNew<S>(es: seq<Member<S>>, index: map<Option<string>, nat>, dtos: seq<Transfer.NpcDto>,
                                            refresh: (S, Transfer.NpcDto) -> S, init: S)
    requires Within(index, |es|)
    ensures var r := JoinedNpcs(es, index, dtos, refresh, init);
      r[|es|..] == Spawned(Unknown(dtos, index), refresh, init)
  {
    if |dtos| > 0 {
      var n := |dtos| - 1;
      var d := dtos[n];
      JoinedNpcsNew(es, index, dtos[..n], refresh, init);
      var r0 := JoinedNpcs(es, index, dtos[..n], refresh, init);
      var u := Unknown(dtos[..n], index);
      assert (u + [d])[..|u|] == u;
      var r := TookNpc(r0, index, d, refresh, init);
      if d.entityID in index {
        assert Unknown(dtos, index) == u;
        assert r[|es|..] == r0[|es|..];
      } else {
        assert Unknown(dtos, index) == u + [d];
        assert Spawned(u + [d], refresh, init) == Spawned(u, refresh, init) + [Member(d.entityID, refresh(init, d))];
        assert r[|es|..] == r0[|es|..] + [Member(d.entityID, refresh(init, d))];
      }
    }
  }

  /** The NPCs there before keep their places and ids. The one the map holds for an id
      takes every DTO with that id, in order; any other (an earlier NPC with the same
      id) is left as it was. */
  lemma {:induction false} JoinedNpcsOld<S>(es: seq<Member<S>>, index: map<Option<string>, nat>, dtos: seq<Transfer.NpcDto>,
                                            refresh: (S, Transfer.NpcDto) -> S, init: S)
    requires Consistent(index, es)
    ensures var r := JoinedNpcs(es, index, dtos, refresh, init);
      forall k :: 0 <= k < |es| ==>
        && r[k].id == es[k].id
        && r[k].state == if es[k].id in index && index[es[k].id] == k then RefreshedAll(es[k].state, NpcDtosFor(dtos, es[k].id), refresh)
                         else es[k].state
  {
    if |dtos| > 0 {
      var n := |dtos| - 1;
      var d := dtos[n];
      assert dtos[..n + 1] == dtos;
      JoinedNpcsOld(es, index, dtos[..n], refresh, init);
      var r0 := JoinedNpcs(es, index, dtos[..n], refresh, init);
      var r := TookNpc(r0, index, d, refresh, init);
      forall k | 0 <= k < |es|
        ensures r[k].id == es[k].id
        ensures r[k].state == if es[k].id in index && index[es[k].id] == k then RefreshedAll(es[k].state, NpcDtosFor(dtos, es[k].id), refresh)
                              else es[k].state
      {
        var xs := NpcDtosFor(dtos[..n], es[k].id);
        var target := es[k].id in index && index[es[k].id] == k;
        assert r0[k].state == if target then RefreshedAll(es[k].state, xs, refresh) else es[k].state;
        if d.entityID in index && index[d.entityID] == k {
          assert es[k].id == d.entityID && target;
          assert NpcDtosFor(dtos, es[k].id) == xs + [d];
          assert (xs + [d])[..|xs|] == xs;
          assert RefreshedAll(es[k].state, xs + [d], refresh) == refresh(RefreshedAll(es[k].state, xs, refresh), d);
        } else {
          assert r[k] == r0[k];
          if es[k].id == d.entityID {
            assert !target;
          } else {
            assert NpcDtosFor(dtos, es[k].id) == xs;
          }
        }
      }
    }
  }

  // ---------------------------------------------------------------------------------
  // Chat and events

  /** A chat message stays when it was sent at or after login and it is global or its
      sender is the current player, whose name is `undefined` when the world has no
      player with the current id. */
  predicate Keeps(m: ChatMessage, loginTime: int, name: Option<string>) {
    m.timeSent >= loginTime && (Some(m.senderName) == name || m.isGlobal)
  }

  /** The `filter` over the message's chat list. */
  function KeptChat(ms: seq<ChatMessage>, loginTime: int, name: Option<string>): seq<ChatMessage> {
    if |ms| == 0 then []
    else KeptChat(ms[..|ms| - 1], loginTime, name) + (if Keeps(ms[|ms| - 1], loginTime, name) then [ms[|ms| - 1]] else [])
  }

  /** Exactly the messages that pass the test stay, and none is added. */
  lemma {:induction false} KeptChatMembers(ms: seq<ChatMessage>, loginTime: int, name: Option<string>)
    ensures forall m :: m in KeptChat(ms, loginTime, name) <==> m in ms && Keeps(m, loginTime, name)
    ensures |KeptChat(ms, loginTime, name)| <= |ms|
  {
    if |ms| > 0 {
      var n := |ms| - 1;
      KeptChatMembers(ms[..n], loginTime, name);
      assert ms == ms[..n] + [ms[n]];
    }
  }

  /** `players.find(p => p.entityID === currentPlayerID)?.name`. */
  function CurrentName(es: seq<Member<PlayerState>>, me: string): (r: Option<string>)
    ensures r.Some? <==> Some(me) in MemberIds(es)
  {
    var k := FirstWithId(es, Some(me));
    if k < |es| then Some(es[k].state.name) else None
  }

  /** With distinct ids, the name is that of the one player with the current id. */
  lemma CurrentNameOfPlayer(es: seq<Member<PlayerState>>, me: string, k: nat)
    requires DistinctIds(es) && k < |es| && es[k].id == Some(me)
    ensures CurrentName(es, me) == Some(es[k].state.name)
  {

  }

  /** An absent list, read as an empty one. */
  function OrEmpty<T>(o: Option<seq<T>>): seq<T> {
    if o.Some? then o.value else []
  }

  /** The items of a message as the client reads them. */
  function WireItems(ds: seq<Transfer.ItemDto>): (r: seq<SocketItem>)
    ensures |r| == |ds| && forall i :: 0 <= i < |ds| ==> r[i] == FromWire(ds[i])
  {
    seq(|ds|, i requires 0 <= i < |ds| => FromWire(ds[i]))
  }

  /** Whether `updateGameState` as written gets past its three `forEach`/`filter`
      calls: each list must be there, since an absent one is `undefined`. */
  predicate CompletesAsWritten(g: GameWorld.GameState) {
    g.players.Some? && g.npcs.Some? && g.chatMessages.Some?
  }

  /** A tick in which no player changed sends its empty player list through
      `removeEmptyCollections`, which nulls it, so the client's update stops at the
      players and takes neither the NPCs, the chat nor the events of that tick. */
  lemma QuietTickStopsUpdate(g: GameWorld.GameState)
    requires g.players == Some([])
    ensures !CompletesAsWritten(GameWorld.Pruned(g))
  {
  }

  /** A tick in which no item changed sends its empty item list through
      `removeEmptyCollections` too, so an update as written that does get to the end
      leaves the world's item list `undefined`, which the item renderer's loop cannot
      iterate (see `ClientItems.ItemRenderer.Render`). */
  lemma QuietItemsArriveAbsent(g: GameWorld.GameState)
    requires g.items == Some([])
    ensures GameWorld.Pruned(g).items.None?
  {
  }

  // ---------------------------------------------------------------------------------
  // The roster as values

  /** The players as roster entries. */
  function Entries(ps: seq<ClientPlayer>): (r: seq<Member<PlayerState>>)
    reads ps`state
    ensures |r| == |ps| && forall i :: 0 <= i < |ps| ==> r[i] == Member(ps[i].entityID, ps[i].state)
  {
    if |ps| == 0 then [] else Entries(ps[..|ps| - 1]) + [Member(ps[|ps| - 1].entityID, ps[|ps| - 1].state)]
  }

  /** A player pushed onto the roster is its last entry. */
  lemma EntriesSnoc(ps: seq<ClientPlayer>, p: ClientPlayer)
    ensures Entries(ps + [p]) == Entries(ps) + [Member(p.entityID, p.state)]
  {
    assert (ps + [p])[..|ps|] == ps;
  }

  /** Distinct ids in the roster are distinct ids of the world's players. */
  lemma PlayersValidFromEntries(w: World)
    requires DistinctIds(Entries(w.players))
    ensures w.PlayersValid()
  {
    var es := Entries(w.players);
    forall i, j | 0 <= i < j < |w.players|
      ensures w.players[i].entityID != w.players[j].entityID
    {
      assert es[i].id != es[j].id;
    }
  }

  /** The players' distinct ids are the roster's distinct ids. */
  lemma EntriesDistinct(w: World)
    requires w.PlayersValid()
    ensures DistinctIds(Entries(w.players))
  {
    var es := Entries(w.players);
    forall i, j | 0 <= i < j < |es|
      ensures es[i].id != es[j].id
    {
      assert w.players[i].entityID != w.players[j].entityID;
    }
  }

  /** Taking a DTO over keeps the players' ids distinct. */
  lemma TookPlayerValid(w: World, e0: seq<Member<PlayerState>>, d: Transfer.PlayerDto)
    requires DistinctIds(e0)
    requires Entries(w.players) == TookPlayer(e0, d, Merged, INITIAL_PLAYER)
    ensures w.PlayersValid()
  {
    TookPlayerIds(e0, d, Merged, INITIAL_PLAYER);
    PlayersValidFromEntries(w);
  }

  /** An NPC's roster state. */
  function StateOf(n: ClientNpc): NpcState
    reads n`snapshot, n`frame, n`isAddedToScene
  {
    NpcState(n.snapshot, n.frame, n.hasLimbs, n.isAddedToScene)
  }

  /** The NPCs as roster entries. */
  function NpcEntries(ns: seq<ClientNpc>): (r: seq<Member<NpcState>>)
    reads ns`snapshot, ns`frame, ns`isAddedToScene
    ensures |r| == |ns| && forall i :: 0 <= i < |ns| ==> r[i] == Member(ns[i].entityID, StateOf(ns[i]))
  {
    if |ns| == 0 then [] else NpcEntries(ns[..|ns| - 1]) + [Member(ns[|ns| - 1].entityID, StateOf(ns[|ns| - 1]))]
  }

  /** `ns` starts with `ns0`. */
  predicate Extends(ns: seq<ClientNpc>, ns0: seq<ClientNpc>) {
    |ns0| <= |ns| && forall j :: 0 <= j < |ns0| ==> ns[j] == ns0[j]
  }

  /** An NPC that is not one of the others, added once to the same scene, keeps them
      valid. */
  lemma NpcsValidSnoc(w: World, ns1: seq<ClientNpc>, n: ClientNpc)
    requires w.npcs == ns1 + [n]
    requires forall i, j :: 0 <= i < j < |ns1| ==> ns1[i] != ns1[j]
    requires forall i :: 0 <= i < |ns1| ==> ns1[i] != n && ns1[i].scene == w.scene && ns1[i].AddedOnce()
    requires n.scene == w.scene && n.AddedOnce()
    ensures w.NpcsValid()
  {
  }

  /** One more NPC, one more entry. */
  lemma NpcEntriesSnoc(ns: seq<ClientNpc>, n: ClientNpc)
    ensures NpcEntries(ns + [n]) == NpcEntries(ns) + [Member(n.entityID, StateOf(n))]
  {
    assert (ns + [n])[..|ns|] == ns;
  }

  /** The id of a client NPC. */
  const NpcId := (n: ClientNpc) => n.entityID

  /** The scene objects of the players that are not online. */
  function Offline(ps: seq<ClientPlayer>, online: seq<string>): set<object> {
    set p: ClientPlayer | p in ps && !IsOnline(p.entityID, online) :: p as object
  }

  // ---------------------------------------------------------------------------------
  // The client

  /** 1000 / 50 frames per second, in milliseconds. */
  const FRAME_INTERVAL: real := 20.0
  /** A gap longer than this between two frames drops the time owed. */
  const STALL_LIMIT: real := 250.0

  /** What is left owed after the fixed steps: less than one step, and the steps are
      the whole steps in the time owed. */
  lemma OwedSteps(owed: real, left: real, steps: nat)
    requires left == owed - FRAME_INTERVAL * steps as real && left < FRAME_INTERVAL
    requires steps > 0 ==> left >= 0.0
    ensures owed < FRAME_INTERVAL ==> steps == 0
    ensures owed >= 0.0 ==> 0.0 <= left && steps as real <= owed / FRAME_INTERVAL < steps as real + 1.0
  {
  }

  class Client {
    const world: World
    /** `Date.now()` when the client was made. */
    const loginTime: int
    var lastFrameTime: real
    /** Milliseconds owed to the fixed-step update. */
    var accumulator: real
    /** How many times the world was rendered. */
    var renders: nat

    constructor(world: World, loginTime: int, startTime: real)
      ensures this.world == world && this.loginTime == loginTime
      ensures lastFrameTime == startTime && accumulator == 0.0 && renders == 0
    {
      this.world := world;
      this.loginTime := loginTime;
      lastFrameTime := startTime;
      accumulator := 0.0;
      renders := 0;
    }

    /** `gameLoop`: a gap over the stall limit drops the time owed and does nothing
        else; otherwise the gap is owed, the world takes one fixed step of 20 ms for
        every whole 20 ms owed, the remainder stays owed, and the world is rendered
        once. */
    method GameLoop(now: real, ground: seq<seq<GroundTile>>, platform: Platform) returns (steps: nat)
      requires world.NpcsValid()
      modifies this`lastFrameTime, this`accumulator, this`renders
      modifies world.npcs`frame, world`attackEvents, world`soundEvents, world`played
      ensures lastFrameTime == now && world.NpcsValid()
      ensures now - old(lastFrameTime) > STALL_LIMIT ==> accumulator == 0.0 && steps == 0 && renders == old(renders)
      ensures now - old(lastFrameTime) <= STALL_LIMIT ==>
        var owed := old(accumulator) + (now - old(lastFrameTime));
        && accumulator == owed - FRAME_INTERVAL * steps as real
        && accumulator < FRAME_INTERVAL
        && (owed < FRAME_INTERVAL ==> steps == 0)
        && (owed >= 0.0 ==> 0.0 <= accumulator && steps as real <= owed / FRAME_INTERVAL < steps as real + 1.0)
        && renders == old(renders) + 1
    {
      var deltaTime := now - lastFrameTime;
      lastFrameTime := now;
      if deltaTime > STALL_LIMIT {
        accumulator := 0.0;
        return 0;
      }
      accumulator := accumulator + deltaTime;
      ghost var owed := accumulator;
      steps := 0;
      while accumulator >= FRAME_INTERVAL
        invariant accumulator == owed - FRAME_INTERVAL * steps as real
        invariant steps > 0 ==> accumulator >= 0.0
        invariant world.NpcsValid() && lastFrameTime == now && renders == old(renders)
        decreases accumulator.Floor
      {
        Step(ground, platform);
        accumulator := accumulator - FRAME_INTERVAL;
        steps := steps + 1;
      }
      OwedSteps(owed, accumulator, steps);
      renders := renders + 1;
    }

    /** One fixed step: `world.update(frameInterval / 1000)`. */
    method Step(ground: seq<seq<GroundTile>>, platform: Platform)
      requires world.NpcsValid()
      modifies world.npcs`frame, world`attackEvents, world`soundEvents, world`played
      ensures world.NpcsValid()
    {
      world.Update(FRAME_INTERVAL / 1000.0, ground, platform);
    }

    /** The first part of `updateGameState`: the players that are not online leave
        the scene and the roster. */
    method RemoveOffline(online: seq<string>)
      requires world.Valid()
      modifies world`players, world.scene
      ensures world.players == OnlineOnly(old(world.players), online)
      ensures world.scene.objects == old(world.scene.objects) - Offline(old(world.players), online)
      ensures world.scene.added == old(world.scene.added)
      ensures world.Valid()
    {
      var ps := world.players;
      for i := 0 to |ps|
        invariant world.scene.objects == old(world.scene.objects) - Offline(ps[..i], online)
        invariant world.scene.added == old(world.scene.added)
      {
        assert ps[..i + 1] == ps[..i] + [ps[i]];
        if !IsOnline(ps[i].entityID, online) {
          world.scene.Remove(ps[i]);
          assert Offline(ps[..i + 1], online) == Offline(ps[..i], online) + {ps[i]};
        } else {
          assert Offline(ps[..i + 1], online) == Offline(ps[..i], online);
        }
      }
      assert ps[..|ps|] == ps;
      world.players := OnlineOnly(ps, online);
      OnlineOnlyDistinct(ps, online);
    }

    /** One player DTO: the first player with its id takes it over, or a new player
        takes it and joins the roster. */
    method TakePlayer(d: Transfer.PlayerDto) returns (joined: seq<ClientPlayer>)
      requires world.PlayersValid()
      modifies world`players, world.players`state
      ensures Entries(world.players) == TookPlayer(old(Entries(world.players)), d, Merged, INITIAL_PLAYER)
      ensures world.PlayersValid()
      ensures world.players == old(world.players) + joined
      ensures forall j {:trigger joined[j]} :: 0 <= j < |joined| ==> fresh(joined[j])
    {
      EntriesDistinct(world);
      ghost var e0 := Entries(world.players);
      var k := FirstWithId(Entries(world.players), d.entityID);
      if k < |world.players| {
        MergeInto(world.players[k], k, d);
        joined := [];
        assert world.players == world.players + [];
      } else {
        var p := JoinPlayer(d);
        joined := [p];
      }
      TookPlayerValid(world, e0, d);
    }

    /** The first player with the DTO's id, at place `k`, takes it over. */
    method MergeInto(p: ClientPlayer, k: nat, d: Transfer.PlayerDto)
      requires world.PlayersValid() && k < |world.players| && world.players[k] == p
      requires k == FirstWithId(Entries(world.players), d.entityID)
      modifies p`state
      ensures Entries(world.players) == TookPlayer(old(Entries(world.players)), d, Merged, INITIAL_PLAYER)
    {
      ghost var e0 := Entries(world.players);
      p.Update(d);
      forall j | 0 <= j < |world.players| && j != k
        ensures Entries(world.players)[j] == e0[j]
      {
        assert world.players[j] != world.players[k] by {
          assert world.players[j].entityID != world.players[k].entityID;
        }
      }
      assert Entries(world.players) == e0[k := Member(p.entityID, Merged(e0[k].state, d))];
    }

    /** No player has the DTO's id: a new player takes it over and joins the roster. */
    method JoinPlayer(d: Transfer.PlayerDto) returns (p: ClientPlayer)
      modifies world`players
      ensures fresh(p) && world.players == old(world.players) + [p]
      ensures Entries(world.players) == old(Entries(world.players)) + [Member(d.entityID, Merged(INITIAL_PLAYER, d))]
    {
      ghost var e0 := Entries(world.players);
      ghost var ps0 := world.players;
      p := new ClientPlayer(d.entityID);
      p.Update(d);
      assert Entries(ps0) == e0;
      EntriesSnoc(ps0, p);
      world.players := world.players + [p];
    }

    /** The players loop of `updateGameState`: the DTOs are taken in order, and a
        player that joined for one DTO is found by the later ones. */
    method UpdatePlayers(dtos: seq<Transfer.PlayerDto>)
      requires world.PlayersValid()
      modifies world`players, world.players`state
      ensures world.PlayersValid()
      ensures Entries(world.players) == JoinedPlayers(old(Entries(world.players)), dtos, Merged, INITIAL_PLAYER)
    {
      ghost var ps0 := world.players;
      ghost var e0 := Entries(world.players);
      ghost var es := e0;
      for i := 0 to |dtos|
        invariant world.PlayersValid()
        invariant forall j :: 0 <= j < |world.players| ==> world.players[j] in ps0 || fresh(world.players[j])
        invariant Entries(world.players) == es
        invariant es == JoinedPlayers(e0, dtos[..i], Merged, INITIAL_PLAYER)
      {
        var joined := TakePlayer(dtos[i]);
        JoinedPlayersStep(e0, dtos, i, Merged, INITIAL_PLAYER);
        es := TookPlayer(es, dtos[i], Merged, INITIAL_PLAYER);
      }
      JoinedPlayersWhole(e0, dtos, Merged, INITIAL_PLAYER);
    }

    /** `npcMap`: every NPC's id sent to its place in the list; of two NPCs with one
        id, the later one is kept. */
    method NpcMap() returns (index: map<Option<string>, nat>)
      ensures index == LastById(IdsOf(world.npcs, NpcId))
    {
      ghost var ids := IdsOf(world.npcs, NpcId);
      index := map[];
      for i := 0 to |world.npcs|
        invariant index == LastById(ids[..i])
      {
        LastByIdStep(ids, i);
        index := index[world.npcs[i].entityID := i];
      }
      assert ids[..|world.npcs|] == ids;
    }

    /** The NPC the map holds for the DTO's id, at place `k`, takes it over. */
    method RefreshNpc(n: ClientNpc, k: nat, d: Transfer.NpcDto)
      requires world.NpcsValid() && k < |world.npcs| && world.npcs[k] == n
      modifies n`snapshot, n`frame, n`isAddedToScene, world.scene
      ensures world.npcs == old(world.npcs) && world.NpcsValid()
      ensures NpcEntries(world.npcs) == old(NpcEntries(world.npcs))[k := Member(n.entityID, Refreshed(old(StateOf(n)), d))]
    {
      ghost var e0 := NpcEntries(world.npcs);
      ghost var added0: seq<object> := world.scene.added;
      n.Update(d);
      forall j | 0 <= j < |world.npcs| && j != k
        ensures NpcEntries(world.npcs)[j] == e0[j]
        ensures world.npcs[j].AddedOnce()
      {
        assert world.npcs[j] != n;
        assert multiset(world.scene.added)[world.npcs[j] as object] == multiset(added0)[world.npcs[j] as object];
      }
      assert NpcEntries(world.npcs) == e0[k := Member(n.entityID, Refreshed(e0[k].state, d))];
    }

    /** No NPC the map holds has the DTO's id: a new NPC takes it over and joins. */
    method SpawnNpc(d: Transfer.NpcDto, ghost ns0: seq<ClientNpc>) returns (n: ClientNpc)
      requires world.NpcsValid() && Extends(world.npcs, ns0)
      modifies world`npcs, world.scene
      ensures fresh(n) && world.npcs == old(world.npcs) + [n]
      ensures world.NpcsValid() && Extends(world.npcs, ns0)
      ensures NpcEntries(world.npcs) == old(NpcEntries(world.npcs)) + [Member(d.entityID, Refreshed(NEW_NPC, d))]
    {
      ghost var e0 := NpcEntries(world.npcs);
      ghost var ns1 := world.npcs;
      ghost var added0: seq<object> := world.scene.added;
      n := NewNpc(d);
      world.npcs := world.npcs + [n];
      forall j | 0 <= j < |ns1|
        ensures ns1[j] != n && ns1[j].scene == world.scene && ns1[j].AddedOnce()
      {
        assert multiset(world.scene.added)[ns1[j] as object] == multiset(added0)[ns1[j] as object];
      }
      NpcsValidSnoc(world, ns1, n);
      assert NpcEntries(ns1) == e0;
      NpcEntriesSnoc(ns1, n);
    }

    /** `new Npc(world, id)` followed by `update(d)`. */
    method NewNpc(d: Transfer.NpcDto) returns (n: ClientNpc)
      modifies world.scene
      ensures fresh(n) && n.entityID == d.entityID && n.scene == world.scene
      ensures StateOf(n) == Refreshed(NEW_NPC, d)
      ensures world.scene.added == old(world.scene.added) + [n] && n.AddedOnce()
    {
      n := new ClientNpc(d.entityID, world.scene);
      n.Update(d);
    }

    /** The NPCs loop of `updateGameState`: the map is built first, so an NPC that
        joined for one DTO is not found by a later DTO with the same id. */
    method UpdateNpcs(dtos: seq<Transfer.NpcDto>)
      requires world.NpcsValid()
      modifies world`npcs, world.npcs`snapshot, world.npcs`frame, world.npcs`isAddedToScene, world.scene
      ensures world.NpcsValid()
      ensures NpcEntries(world.npcs)
        == JoinedNpcs(old(NpcEntries(world.npcs)), LastById(old(IdsOf(world.npcs, NpcId))), dtos, Refreshed, NEW_NPC)
    {
      ghost var ns0 := world.npcs;
      ghost var e0 := NpcEntries(world.npcs);
      var index := NpcMap();
      ghost var es := e0;
      for i := 0 to |dtos|
        invariant world.NpcsValid()
        invariant Extends(world.npcs, ns0)
        invariant NpcEntries(world.npcs) == es
        invariant es == JoinedNpcs(e0, index, dtos[..i], Refreshed, NEW_NPC)
      {
        var d := dtos[i];
        JoinedNpcsStep(e0, index, dtos, i, Refreshed, NEW_NPC);
        if d.entityID in index {
          var k := index[d.entityID];
          RefreshNpc(world.npcs[k], k, d);
        } else {
          var n := SpawnNpc(d, ns0);
        }
        es := TookNpc(es, index, d, Refreshed, NEW_NPC);
      }
      JoinedNpcsWhole(e0, index, dtos, Refreshed, NEW_NPC);
    }

    /** The chat filter and the per-tick lists of `updateGameState`: the messages
        sent since login by the player called `name` or to everyone, then the tick's
        events and the item list `items`, stored as it is given: `None` leaves the
        world's item list `undefined`. Nothing else changes. */
    method TakeMessages(g: GameWorld.GameState, name: Option<string>, items: Option<seq<Transfer.ItemDto>>)
      requires world.Valid()
      modifies world`chatMessages, world`attackEvents, world`soundEvents, world`talkEvents, world`items
      ensures world.chatMessages == KeptChat(OrEmpty(g.chatMessages), loginTime, name)
      ensures world.attackEvents == OrEmpty(g.attackEvents) && world.soundEvents == OrEmpty(g.soundEvents)
      ensures world.talkEvents == OrEmpty(g.talkEvents)
      ensures world.items.None? <==> items.None?
      ensures items.Some? ==> world.items == Some(WireItems(items.value))
      ensures world.Valid() && world.players == old(world.players) && world.npcs == old(world.npcs)
      ensures Entries(world.players) == old(Entries(world.players)) && NpcEntries(world.npcs) == old(NpcEntries(world.npcs))
    {
      world.chatMessages, world.attackEvents, world.soundEvents, world.talkEvents, world.items :=
        KeptChat(OrEmpty(g.chatMessages), loginTime, name), OrEmpty(g.attackEvents), OrEmpty(g.soundEvents),
        OrEmpty(g.talkEvents), if items.Some? then Some(WireItems(items.value)) else None;
    }

    /** `updateGameState`, with an absent list read as an empty one: the players that
        went offline leave, then the players, the NPCs, the chat and the tick's lists
        are taken over, and the world's item list is never left `undefined`. */
    method UpdateGameState(g: GameWorld.GameState)
      requires world.Valid()
      modifies world`players, world.players`state, world`npcs, world.npcs`snapshot, world.npcs`frame,
               world.npcs`isAddedToScene, world.scene
      modifies world`chatMessages, world`attackEvents, world`soundEvents, world`talkEvents, world`items
      ensures world.Valid()
      ensures Entries(world.players)
        == JoinedPlayers(old(Entries(OnlineOnly(world.players, g.onlinePlayers))), OrEmpty(g.players), Merged, INITIAL_PLAYER)
      ensures NpcEntries(world.npcs)
        == JoinedNpcs(old(NpcEntries(world.npcs)), LastById(old(IdsOf(world.npcs, NpcId))), OrEmpty(g.npcs), Refreshed, NEW_NPC)
      ensures world.chatMessages
        == KeptChat(OrEmpty(g.chatMessages), loginTime, CurrentName(Entries(world.players), world.currentPlayerID))
      ensures world.attackEvents == OrEmpty(g.attackEvents) && world.soundEvents == OrEmpty(g.soundEvents)
      ensures world.talkEvents == OrEmpty(g.talkEvents) && world.items == Some(WireItems(OrEmpty(g.items)))
    {
      TakeRosters(g.onlinePlayers, OrEmpty(g.players), OrEmpty(g.npcs));
      TakeMessages(g, CurrentName(Entries(world.players), world.currentPlayerID), Some(OrEmpty(g.items)));
    }

    /** The players, then the NPCs, of `updateGameState`. */
    method TakeRosters(online: seq<string>, players: seq<Transfer.PlayerDto>, npcs: seq<Transfer.NpcDto>)
      requires world.Valid()
      modifies world`players, world.players`state, world`npcs, world.npcs`snapshot, world.npcs`frame,
               world.npcs`isAddedToScene, world.scene
      ensures world.Valid()
      ensures Entries(world.players)
        == JoinedPlayers(old(Entries(OnlineOnly(world.players, online))), players, Merged, INITIAL_PLAYER)
      ensures NpcEntries(world.npcs)
        == JoinedNpcs(old(NpcEntries(world.npcs)), LastById(old(IdsOf(world.npcs, NpcId))), npcs, Refreshed, NEW_NPC)
    {
      TakePlayers(online, players);
      TakeNpcs(npcs);
    }

    /** The players part of `updateGameState`: the offline players leave, then the
        player DTOs are taken. */
    method LeaveAndJoin(online: seq<string>, dtos: seq<Transfer.PlayerDto>)
      requires world.Valid()
      modifies world`players, world.players`state, world.scene
      ensures world.Valid()
      ensures Entries(world.players)
        == JoinedPlayers(old(Entries(OnlineOnly(world.players, online))), dtos, Merged, INITIAL_PLAYER)
    {
      ghost var ps0 := world.players;
      ghost var e0 := Entries(OnlineOnly(ps0, online));
      OnlineOnlyMembers(ps0, online);
      RemoveOffline(online);
      assert forall p :: p in world.players ==> p in ps0;
      assert Entries(world.players) == e0;
      label before:
      UpdatePlayers(dtos);
      assert world.npcs == old@before(world.npcs) && world.scene.added == old@before(world.scene.added);
      assert forall i :: 0 <= i < |world.npcs| ==> world.npcs[i].isAddedToScene == old@before(world.npcs[i].isAddedToScene);
      assert world.NpcsValid();
    }

    /** The players part of `updateGameState`; the NPCs are left as they were. */
    method TakePlayers(online: seq<string>, dtos: seq<Transfer.PlayerDto>)
      requires world.Valid()
      modifies world`players, world.players`state, world.scene
      ensures world.Valid() && world.npcs == old(world.npcs)
      ensures NpcEntries(world.npcs) == old(NpcEntries(world.npcs))
      ensures Entries(world.players)
        == JoinedPlayers(old(Entries(OnlineOnly(world.players, online))), dtos, Merged, INITIAL_PLAYER)
    {
      LeaveAndJoin(online, dtos);
    }

    /** The NPCs part of `updateGameState`; the players are left as they were. */
    method TakeNpcs(dtos: seq<Transfer.NpcDto>)
      requires world.Valid()
      modifies world`npcs, world.npcs`snapshot, world.npcs`frame, world.npcs`isAddedToScene, world.scene
      ensures world.Valid() && world.players == old(world.players)
      ensures Entries(world.players) == old(Entries(world.players))
      ensures NpcEntries(world.npcs)
        == JoinedNpcs(old(NpcEntries(world.npcs)), LastById(old(IdsOf(world.npcs, NpcId))), dtos, Refreshed, NEW_NPC)
    {
      UpdateNpcs(dtos);
    }

    /** `updateGameState` as written. The players, the NPCs and the chat are read
        without a guard, so an absent one throws and the update stops there:
        `completed` says whether it got to the end. At the end the item list is stored
        as it arrived, `undefined` when the message has none. */
    method UpdateGameStateAsWritten(g: GameWorld.GameState) returns (completed: bool)
      requires world.Valid()
      modifies world`players, world.players`state, world`npcs, world.npcs`snapshot, world.npcs`frame,
               world.npcs`isAddedToScene, world.scene
      modifies world`chatMessages, world`attackEvents, world`soundEvents, world`talkEvents, world`items
      ensures world.Valid()
      ensures completed == CompletesAsWritten(g)
      ensures g.players.None? ==> world.npcs == old(world.npcs)
      ensures !completed ==> world.chatMessages == old(world.chatMessages) && world.attackEvents == old(world.attackEvents)
      ensures completed ==> (world.items.None? <==> g.items.None?)
    {
      if g.players.None? {
        RemoveOffline(g.onlinePlayers);
        return false;
      }
      TakePlayers(g.onlinePlayers, g.players.value);
      completed := RestAsWritten(g);
    }

    /** What `updateGameState` as written does after the players: the NPCs, then the
        chat and the tick's lists, stopping at the first of the two that is absent. */
    method RestAsWritten(g: GameWorld.GameState) returns (completed: bool)
      requires world.Valid()
      modifies world`npcs, world.npcs`snapshot, world.npcs`frame, world.npcs`isAddedToScene, world.scene
      modifies world`chatMessages, world`attackEvents, world`soundEvents, world`talkEvents, world`items
      ensures world.Valid()
      ensures completed == (g.npcs.Some? && g.chatMessages.Some?)
      ensures !completed ==> world.chatMessages == old(world.chatMessages) && world.attackEvents == old(world.attackEvents)
      ensures completed ==> (world.items.None? <==> g.items.None?)
    {
      if g.npcs.None? {
        return false;
      }
      TakeNpcs(g.npcs.value);
      if g.chatMessages.None? {
        return false;
      }
      TakeMessages(g, CurrentName(Entries(world.players), world.currentPlayerID), g.items);
      return true;
    }
  }
}
