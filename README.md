# 3d-mmo game server and client, modelled in Dafny

This project models the core of a small browser MMO. The Java game server keeps the authoritative world, and every 600 ms tick it sends each connected player the changes of that tick. The TypeScript client takes those changes over and animates them at 50 frames per second. A small website form creates accounts.

The model covers:

- **Server entities** (`entities.dfy`, `player.dfy`, `npc.dfy`, `items.dfy`, `movement.dfy`, `events.dfy`).
  - Combatants move one tile at a time along a path, attack, and gain experience.
  - Every change raises a `*Changed` flag.
  - The player's inventory is two parallel arrays: swap, add, drop, unwield, eat and remove, with the wielded slots following the items.
  - NPCs tick through interaction, dying, death, respawn, wandering and attacking.
- **Path-finding and the tile map** (`astar.dfy`, `pathnode.dfy`, `tiles.dfy`).
  - A* with an octile distance and no corner cutting.
  - The layered collision lookup.
  - The ring search for the closest walkable tile.
  - The chunk arithmetic, with Java's truncating division.
- **The tick bookkeeping** (`world.dfy`, `dto.dfy`).
  - The connection slots and the online names.
  - Each player's share of the action queue.
  - The delta DTOs, gated on the change flags.
  - Dropping DTOs that carry only an id, and nulling empty lists.
  - Clearing events and flags after sending.
- **The client synchronisation layer** (`client_game.dfy`, `client_world.dfy`, `client_npc.dfy`, `client_player.dfy`, `client_item.dfy`, `client_scene.dfy`, `client_tiles.dfy`, `client_geometry.dfy`).
  - The fixed-step game loop with its stall reset.
  - Roster reconciliation for players and NPCs.
  - The field-wise player and item merges.
  - The NPC death latch, attack-event consumption and walking.
  - Sound playback and the NPC click menu.
  - Item-mesh reconciliation.
  - Tile heights and slopes.
  - Angle wrapping and tile rounding.
- **Utilities** (`experience.dfy`, `account.dfy`): the experience curve and the account form validator.

Code that works by changing state is modelled as classes whose methods are proved against specification functions on values. The properties the game relies on are proved as lemmas about those functions: round trips, permutations, partitions, idempotence and "nothing else changes". Shared definitions live in `common.dfy`: optional values for Java `null` and TypeScript `undefined`, directions, positions and 32-bit arithmetic.

Behaviour of the code a reader may not expect, which the model follows:

- An NPC's client `update` overwrites every snapshot field. It does not merge field by field, so a field the server leaves out becomes `undefined` (`ClientNpcs.FromDto`).
- When an NPC starts an attack, it removes all of its own attack events from the shared list, not just one (`ClientNpcs.AttackConsumesEvents`).
- A dead or dying NPC returns before the attack logic runs, so its attack events stay in the list (`ClientNpcs.DeathComesFirst`).
- NPCs are never removed from the client's list. Only players that went offline are removed (`ClientGame.JoinedNpcs`, `ClientGame.Client.RemoveOffline`).
- A weapon or shield index of 0 is a real inventory slot in the client's `Player.update`. It is not read as "nothing" (`ClientPlayers.WieldsFromNewInventory`).
- NPC motion on the client follows `nextTileDirection`. It does not interpolate from the previous tick's position, which the NPC DTO does not carry.

## Model

| member | source | states |
|---|---|---|
| AccountForm.MatchesUsernamePattern | website/src/App.tsx:28 | the pattern `^[a-zA-Z0-9_]*$` matches exactly when every character is a letter, a digit or an underscore |
| AccountForm.JsLength | website/src/App.tsx:23 | a string's `length` counts UTF-16 code units: between one and two per character, and exactly one per character when none lies outside the Basic Multilingual Plane |
| AccountForm.Validate | website/src/App.tsx:21-41 | no message exactly when all four rules hold, with lengths in UTF-16 code units; otherwise the message of the first failing check in the order username length, username characters, password length, confirmation |
| AccountForm.AstralCountsTwice | website/src/App.tsx:23-36 | a four-character password with one astral character has length 5 and is accepted, and such a username fails on its characters rather than its length |
| AccountForm.ErrorMessage | website/src/App.tsx:9-11 | only error code 2 has a message, "Username is already taken"; every other code gives `undefined` |
| AccountForm.CreateAccount | website/src/App.tsx:21-59 | the credentials are posted exactly when every rule holds, lengths counted in UTF-16 code units as `length` does; a failed rule only sets its message; a successful reply marks the account created and closes the form; a failed reply sets the code's message; a thrown request sets the generic failure message |
| Events.TickEvents.constructor | g8e/app/src/main/java/com/g8e/gameserver/World.java:54-59 | the world's chat, attack and sound lists start empty |
| Events.TickEvents.AddSound | g8e/app/src/main/java/com/g8e/gameserver/models/entities/Combatant.java:116-120 | `tickSoundEvents.add` appends exactly one sound and leaves the other lists alone |
| Events.TickEvents.AddAttack | g8e/app/src/main/java/com/g8e/gameserver/models/entities/Combatant.java:122 | `tickAttackEvents.add` appends exactly one attack event and leaves the other lists alone |
| Events.TickEvents.AddChat | g8e/app/src/main/java/com/g8e/gameserver/World.java:111-114 | `addChatMessage` appends exactly one message and leaves the event lists alone |
| Items.Item.constructor | g8e/app/src/main/java/com/g8e/gameserver/models/objects/Item.java:22-28 | a new item is one of its type, has no position, name or unique id yet, and has all five change flags raised |
| Items.Item.ClearChangedFlags | g8e/app/src/main/java/com/g8e/gameserver/models/objects/Item.java:30-36 | all five change flags are lowered and no field value changes |
| Items.Item.SetAmount | g8e/app/src/main/java/com/g8e/gameserver/models/objects/Item.java:46-49 | the amount is replaced and exactly the amount flag is added; the new view is `Applied` to that setter call |
| Items.Item.SetWorldX | g8e/app/src/main/java/com/g8e/gameserver/models/objects/Item.java:103-107 | the x coordinate is replaced and exactly the x flag is added; the new view is `Applied` to that setter call |
| Items.Item.SetWorldY | g8e/app/src/main/java/com/g8e/gameserver/models/objects/Item.java:113-116 | the y coordinate is replaced and exactly the y flag is added; the new view is `Applied` to that setter call |
| Items.Item.SetItemID | g8e/app/src/main/java/com/g8e/gameserver/models/objects/Item.java:63-65 | the type changes and no flag is raised, so the change is not sent until another flag goes up; the new view is `Applied` to that setter call |
| Items.Item.SetStackable | g8e/app/src/main/java/com/g8e/gameserver/models/objects/Item.java:55-57 | only the stackable field changes; no flag; the new view is `Applied` to that setter call |
| Items.Item.SetWieldable | g8e/app/src/main/java/com/g8e/gameserver/models/objects/Item.java:87-89 | only the wieldable field changes; no flag; the new view is `Applied` to that setter call |
| Items.Item.SetName | g8e/app/src/main/java/com/g8e/gameserver/models/objects/Item.java:71-73 | only the name changes; no flag; the new view is `Applied` to that setter call |
| Items.Item.SetUniqueID | g8e/app/src/main/java/com/g8e/gameserver/models/objects/Item.java:95-97 | only the unique id changes; its flag is not raised again; the new view is `Applied` to that setter call |
| Items.Applied | g8e/app/src/main/java/com/g8e/gameserver/models/objects/Item.java:46-116 | any one setter call keeps every raised flag and raises at most one more; each setter method ensures its new view is this one |
| Items.SettersOnlyRaise | g8e/app/src/main/java/com/g8e/gameserver/models/objects/Item.java:16-20 | over any sequence of setter calls the flags only accumulate, and the unique id flag never comes back once lowered |
| Items.Item.SetIsDeleted | g8e/app/src/main/java/com/g8e/gameserver/models/entities/Player.java:265 | only the deleted mark changes; no flag; the new view is `Applied` to that setter call |
| Movement.StepOffset | g8e/app/src/main/java/com/g8e/gameserver/models/entities/Entity.java:179-188 | a step moves at most one tile, and moves exactly one tile exactly for the four orthogonal directions |
| Movement.GetDirection | g8e/app/src/main/java/com/g8e/gameserver/models/entities/Entity.java:275-296 | a direction comes back exactly for a one-tile orthogonal delta, and it is the direction whose step is that delta |
| Movement.GetDirectionOfStep | g8e/app/src/main/java/com/g8e/gameserver/models/entities/Entity.java:275-296 | `getDirection` of a direction's own step gives that direction back |
| Movement.DirectionTowardsTile | g8e/app/src/main/java/com/g8e/gameserver/models/entities/Entity.java:166-177 | always an orthogonal direction: left or right exactly when the x coordinates differ that way, up or down by y otherwise, the same tile counting as down |
| Movement.StepTowardsTileApproaches | g8e/app/src/main/java/com/g8e/gameserver/models/entities/Entity.java:166-188 | a step in the direction towards a different tile shortens the Manhattan distance to it by exactly one |
| Movement.FacingTowards | g8e/app/src/main/java/com/g8e/gameserver/models/entities/Combatant.java:59-67 | no facing change exactly on the same tile; otherwise the direction towards the tile |
| Movement.OneStepAwayIsAdjacent | g8e/app/src/main/java/com/g8e/gameserver/models/entities/Npc.java:166-175 | one step away holds exactly at Manhattan distance 1 |
| Movement.WanderAreaIsSquare | g8e/app/src/main/java/com/g8e/gameserver/models/entities/Entity.java:99-108 | a target is inside the wander area exactly when it lies in the square of half-width `wanderRange` around the spawn point |
| PathNodes.NodeHashSeparatesTiles | g8e/app/src/main/java/com/g8e/gameserver/pathfinding/PathNode.java:35-38 | on maps under 31 rows and 69,000,000 columns, equal hashes mean the same tile |
| PathNodes.NodeHashCollides | g8e/app/src/main/java/com/g8e/gameserver/pathfinding/PathNode.java:35-38 | the tiles (0, 31) and (1, 0) share a hash although they are different nodes |
| PathNodes.PathNode.constructor | g8e/app/src/main/java/com/g8e/gameserver/pathfinding/PathNode.java:11-18 | a new node holds its tile and parent, with all costs 0 |
| PathNodes.PathNode.CalculateCosts | g8e/app/src/main/java/com/g8e/gameserver/pathfinding/PathNode.java:20-23 | `h` becomes the Manhattan distance to the target and `f` becomes `g + h`; the tile, `g` and the parent are kept |
| PathNodes.PathNode.Equals | g8e/app/src/main/java/com/g8e/gameserver/pathfinding/PathNode.java:25-33 | equal exactly to a non-null node on the same tile |
| PathNodes.PathNode.HashCode | g8e/app/src/main/java/com/g8e/gameserver/pathfinding/PathNode.java:35-38 | the hash is `31 * x + y` in Java's 32-bit arithmetic |
| PathNodes.EqualNodesHashAlike | g8e/app/src/main/java/com/g8e/gameserver/pathfinding/PathNode.java:25-38 | nodes that are equal hash alike |
| PathNodes.EqualsSymmetric | g8e/app/src/main/java/com/g8e/gameserver/pathfinding/PathNode.java:25-33 | equality of nodes is symmetric |
| Tiles.GetCollisionByXandY | g8e/app/src/main/java/com/g8e/gameserver/tile/TileManager.java:115-137 | the answer is `Collides`: off the map blocks, and on it the first of layers 3, 2, 1 holding a tile decides, an empty cell being free |
| Tiles.ClosestWalkableUnique | g8e/app/src/main/java/com/g8e/gameserver/tile/TileManager.java:38-63 | the closest walkable tile is determined: two answers for the same centre are equal |
| Tiles.GetClosestWalkableTile | g8e/app/src/main/java/com/g8e/gameserver/tile/TileManager.java:38-63 | the result is walkable, no tile on a smaller ring around the centre is, and no walkable tile comes before it in the ring's scan order |
| Tiles.ScanRing | g8e/app/src/main/java/com/g8e/gameserver/tile/TileManager.java:43-58 | a hit is the first walkable tile of ring `d` in column-then-row order; no hit means ring `d` has no walkable tile |
| Tiles.ScanColumn | g8e/app/src/main/java/com/g8e/gameserver/tile/TileManager.java:44-57 | a hit is the topmost walkable ring tile of the column; no hit means the column's ring tiles are all blocked |
| Tiles.JavaDiv | g8e/app/src/main/java/com/g8e/gameserver/tile/TileManager.java:69-71 | Java's integer division truncates towards zero: the quotient has the sign of the dividend (or is 0), and quotient times divisor lies within one divisor of the dividend on the side of zero |
| Tiles.JavaRem | g8e/app/src/main/java/com/g8e/gameserver/tile/TileManager.java:81 | Java's remainder: quotient times divisor plus remainder gives the dividend, and the remainder takes the dividend's sign |
| Tiles.ChunkOf | g8e/app/src/main/java/com/g8e/gameserver/tile/TileManager.java:65-76 | every tile of the map lies in a chunk numbered from 0; on a map of whole chunks the number is below the number of chunks, and its remainder and quotient by the chunks per row are the tile's column and row divided by 20 |
| Tiles.NeighborChunks | g8e/app/src/main/java/com/g8e/gameserver/tile/TileManager.java:78-98 | `null` exactly when the map is narrower than a chunk; otherwise eight numbers |
| Tiles.NeighborChunksSurround | g8e/app/src/main/java/com/g8e/gameserver/tile/TileManager.java:78-98 | for a chunk on the map the k-th neighbour is the chunk at the k-th of the eight offsets, row by row |
| Tiles.NeighborChunksUnfiltered | g8e/app/src/main/java/com/g8e/gameserver/tile/TileManager.java:78-98 | the neighbours are not filtered: chunk 0 of a one-chunk map gets the numbers -2, -1, 0, -1, 1, 0, 1, 2 |
| Tiles.TileAt | g8e/app/src/main/java/com/g8e/gameserver/tile/TileManager.java:101-113 | a tile exactly on the map where layer 1 or layer 2 holds one; the layer-1 tile is preferred |
| Tiles.TileAtAgreesWithCollision | g8e/app/src/main/java/com/g8e/gameserver/tile/TileManager.java:101-137 | where no object lies and exactly one ground layer holds a tile, the tile found and the collision lookup agree |
| Pathfinding.Distance | g8e/app/src/main/java/com/g8e/gameserver/pathfinding/AStar.java:119-128 | the octile distance scaled by ten lies between 10 and 14 times the larger axis difference, and is 0 exactly on the same tile |
| Pathfinding.DistanceSymmetric | g8e/app/src/main/java/com/g8e/gameserver/pathfinding/AStar.java:119-128 | the distance is the same in both directions |
| Pathfinding.DirectionsAreOffsets | g8e/app/src/main/java/com/g8e/gameserver/pathfinding/AStar.java:91-94 | the eight directions tried are exactly the offsets of the surrounding tiles, none twice |
| Pathfinding.NeighborsIn | g8e/app/src/main/java/com/g8e/gameserver/pathfinding/AStar.java:96-114 | a tile is listed exactly when it is reached by one of the given directions that the blocking and corner rules admit |
| Pathfinding.NeighborsAreSteps | g8e/app/src/main/java/com/g8e/gameserver/pathfinding/AStar.java:88-117 | the neighbours of a tile are exactly the tiles one admitted move away |
| Pathfinding.GetNeighbors | g8e/app/src/main/java/com/g8e/gameserver/pathfinding/AStar.java:88-117 | the loop lists the admitted neighbours in direction order, and a tile is listed exactly when it is one move away |
| Pathfinding.Ancestry | g8e/app/src/main/java/com/g8e/gameserver/pathfinding/AStar.java:130-138 | the parent chain ends at the tile and starts at a root |
| Pathfinding.AncestryIsPath | g8e/app/src/main/java/com/g8e/gameserver/pathfinding/AStar.java:45-79 | when every parent link is a move and the start is the only root, the parent chain of any tile reached is a path of moves from the start |
| Pathfinding.Reversed | g8e/app/src/main/java/com/g8e/gameserver/pathfinding/AStar.java:136 | the reversed list has the same length with its elements back to front |
| Pathfinding.ConstructPath | g8e/app/src/main/java/com/g8e/gameserver/pathfinding/AStar.java:130-138 | collecting the parents from the goal and reversing gives the parent chain from the root to the goal |
| Pathfinding.PollCheapest | g8e/app/src/main/java/com/g8e/gameserver/pathfinding/AStar.java:48 | the tile taken has the least estimate `f` of the open list |
| Pathfinding.ListsAdmit | g8e/app/src/main/java/com/g8e/gameserver/pathfinding/AStar.java:68-78 | a tile new to the search joining the open list keeps the open list free of repeats and of closed tiles |
| Pathfinding.TreeAdmit | g8e/app/src/main/java/com/g8e/gameserver/pathfinding/AStar.java:72 | hanging a new tile below a tile already reached by an admitted move keeps the parent links a tree rooted at the start |
| Pathfinding.Expand | g8e/app/src/main/java/com/g8e/gameserver/pathfinding/AStar.java:60-81 | after the neighbour loop the search invariant still holds, the closed set is unchanged, every open tile stays open, and every neighbour is open or closed |
| Pathfinding.ListsClose | g8e/app/src/main/java/com/g8e/gameserver/pathfinding/AStar.java:48-55 | closing the polled tile keeps the open and closed lists disjoint and free of repeats |
| Pathfinding.TreeOnMap | g8e/app/src/main/java/com/g8e/gameserver/pathfinding/AStar.java:101 | every tile the search reaches, other than the start, is on the map |
| Pathfinding.Visit | g8e/app/src/main/java/com/g8e/gameserver/pathfinding/AStar.java:48-81 | one round closes exactly the polled tile, keeps the invariant and keeps every move out of a closed tile landing on an open or closed one, and leaves fewer tiles of the map unclosed |
| Pathfinding.StepsStayIn | g8e/app/src/main/java/com/g8e/gameserver/pathfinding/AStar.java:55-79 | a path of moves that starts in a set of tiles closed under moves never leaves it |
| Pathfinding.EnclosedUnreachable | g8e/app/src/main/java/com/g8e/gameserver/pathfinding/AStar.java:47-85 | a set holding the start and every move out of its tiles, but not a tile, proves that no path of moves reaches that tile |
| Pathfinding.NothingFound | g8e/app/src/main/java/com/g8e/gameserver/pathfinding/AStar.java:33-43 | with the goal out of reach, the empty path is a correct answer: the free target, or every closest walkable tile to a blocked one, is out of reach too |
| Pathfinding.Exhausted | g8e/app/src/main/java/com/g8e/gameserver/pathfinding/AStar.java:47-85 | once the open list is empty and the goal was never closed, no path of moves leads from the start to the goal |
| Pathfinding.FindPath | g8e/app/src/main/java/com/g8e/gameserver/pathfinding/AStar.java:21-86 | the search ends; a path found starts at the start, moves only by admitted steps, and ends at the target, or at the closest walkable tile when the target blocks; the empty path comes back only when no path of moves leads from the start to that goal; a free target equal to the start gives the one-tile path |
| Entities.Located | g8e/app/src/main/java/com/g8e/gameserver/models/entities/Entity.java:267-273 | the entity stands on the given tile, and both coordinate flags are raised even for a coordinate that keeps its value |
| Entities.Stepped | g8e/app/src/main/java/com/g8e/gameserver/models/entities/Entity.java:179-188 | the entity moves exactly one tile for an orthogonal direction and stays put for a diagonal or `NONE`, landing on the tile one step away in that direction; the skills are untouched |
| Entities.Stopped | g8e/app/src/main/java/com/g8e/gameserver/models/entities/Entity.java:303-307 | no target tile and no new one, next direction `NONE`; position and path kept |
| Entities.TargetCleared | g8e/app/src/main/java/com/g8e/gameserver/models/entities/Combatant.java:161-165 | no targeted entity and no target tile; the next direction and position are kept |
| Entities.AroundTarget | g8e/app/src/main/java/com/g8e/gameserver/models/entities/Entity.java:110-117 | the four tiles tried around the target, each one orthogonal step from it |
| Entities.GetPositionOneTileAwayFromTarget | g8e/app/src/main/java/com/g8e/gameserver/models/entities/Entity.java:110-146 | the answer is `null` exactly when none of the four tiles around the target is on the map and free, and otherwise one of them that is free and no farther from the entity than any other free one; only a tie is left to the coin |
| Entities.Retargeted | g8e/app/src/main/java/com/g8e/gameserver/models/entities/Entity.java:148-164 | a target that is gone is dropped; a target seen on the same tile as last time changes nothing; a target that moved is remembered and the tile chosen beside it becomes the new target tile |
| Entities.AlongPath | g8e/app/src/main/java/com/g8e/gameserver/models/entities/Entity.java:251-256 | the first node is dropped, and the next direction and the facing both point from the next node to the one after it; position and target kept |
| Entities.PathFinished | g8e/app/src/main/java/com/g8e/gameserver/models/entities/Entity.java:258-263 | the last step leaves no next direction, no target tile and no path; position and new target kept |
| Entities.Pursued | g8e/app/src/main/java/com/g8e/gameserver/models/entities/Entity.java:200-248 | no target does nothing; a new target takes the path found, or stops when it has fewer than two nodes; only a player reaching the last node picks up its target item; the position never changes here |
| Entities.TowardsTarget | g8e/app/src/main/java/com/g8e/gameserver/models/entities/Entity.java:190-249 | walking towards a target never changes the skills |
| Entities.FollowingAdvancesOneNode | g8e/app/src/main/java/com/g8e/gameserver/models/entities/Entity.java:190-256 | an entity on an orthogonal path moves onto the next node each tick and keeps following the rest; on the last node it drops the path and the target |
| Entities.DiagonalStepStalls | g8e/app/src/main/java/com/g8e/gameserver/models/entities/Entity.java:218-221 | a diagonal path step gives no direction, so the entity does not move on that tick |
| Entities.CountersTicked | g8e/app/src/main/java/com/g8e/gameserver/models/entities/Player.java:1163-1179 | each positive counter goes down by one; a run-out damage counter resets the damage marker to -1; a run-out combat counter ends combat; position and dying state kept |
| Entities.CountersStayNonNegative | g8e/app/src/main/java/com/g8e/gameserver/models/entities/Npc.java:177-193 | counters that start non-negative stay non-negative |
| Entities.Respawned | g8e/app/src/main/java/com/g8e/gameserver/models/entities/Npc.java:233-248 | back on the spawn tile at full hitpoints, with no target, item, path, step, goal or combat and every counter at rest; skills and dying state kept |
| Entities.Cleared | g8e/app/src/main/java/com/g8e/gameserver/models/entities/Npc.java:236-247 | no target, item, path, step, goal or combat, counters at rest; position and hitpoints kept |
| Entities.GainedXp | g8e/app/src/main/java/com/g8e/gameserver/models/entities/Player.java:311-316 | the new experience is the sum when that stays within 200,000,000, and 200,000,000 otherwise |
| Entities.GainedXpAsWritten | g8e/app/src/main/java/com/g8e/gameserver/models/entities/Player.java:311-316 | the source's 32-bit sum followed by the cap: always a 32-bit value at most 200,000,000 |
| Entities.GainedXpAsWrittenWraps | g8e/app/src/main/java/com/g8e/gameserver/models/entities/Player.java:311-316 | a skill at the cap gaining 1,947,483,648 experience falls to -2,147,483,648 as written, and stays at the cap as intended |
| Entities.GainedXpAgreesBelowCap | g8e/app/src/main/java/com/g8e/gameserver/models/entities/Player.java:311-316 | wherever the sum fits a Java `int`, the source's arithmetic and the intended one agree |
| Entities.LevelUpSounds | g8e/app/src/main/java/com/g8e/gameserver/models/entities/Player.java:326-346 | exactly the four combat skills have a level-up sound, played privately for the player and interrupting |
| Entities.SkillGained | g8e/app/src/main/java/com/g8e/gameserver/models/entities/Player.java:310-316 | only the gaining skill changes, to its capped sum, and the skills flag is raised |
| Entities.LevelUpAnnounced | g8e/app/src/main/java/com/g8e/gameserver/models/entities/Player.java:318-347 | something is announced exactly when the uncapped total is at a higher level than before; then one congratulation and the skill's sound are appended; attack events are untouched |
| Entities.GainAnnouncedIffLevelCrossed | g8e/app/src/main/java/com/g8e/gameserver/models/entities/Player.java:310-318 | more experience never lowers the level, and a gain is silent exactly when the level stays the same |
| Entities.StyleSkill | g8e/app/src/main/java/com/g8e/gameserver/models/entities/Combatant.java:96-102 | a style trains a skill exactly for "attack", "strength" and "defence", and it is one of the first three skills |
| Entities.CombatXpAdded | g8e/app/src/main/java/com/g8e/gameserver/models/entities/Combatant.java:93-105 | a hit of positive damage adds four times the damage to the style's skill and the damage to hitpoints, capped; other skills unchanged; a hit of zero changes nothing; sounds only appended |
| Entities.Faced | g8e/app/src/main/java/com/g8e/gameserver/models/entities/Combatant.java:59-67 | the attacker turns towards the target's tile and keeps its facing on the same tile |
| Entities.PlayerKilled | g8e/app/src/main/java/com/g8e/gameserver/models/entities/Player.java:1207-1212 | the player is dying, has no target tile and no next step; position and hitpoints kept |
| Entities.Swung | g8e/app/src/main/java/com/g8e/gameserver/models/entities/Combatant.java:59-74 | the attacker faces the target and its cooldown is the weapon's attack speed, or 4 without weapon data |
| Entities.Hit | g8e/app/src/main/java/com/g8e/gameserver/models/entities/Combatant.java:85-110 | hitpoints drop by the damage in Java `int` arithmetic and stop at zero; the damage is shown for one tick and the target is in combat for 20 |
| Entities.Downed | g8e/app/src/main/java/com/g8e/gameserver/models/entities/Combatant.java:124-143 | the fallen target is dying with no next step; a player is killed |
| Entities.HitLogged | g8e/app/src/main/java/com/g8e/gameserver/models/entities/Combatant.java:112-143 | exactly one attack event is appended; the swing sound comes first, then one death sound for an NPC or two for a player; only a killed player gets a chat message |
| Entities.AttackOutcome | g8e/app/src/main/java/com/g8e/gameserver/models/entities/Combatant.java:45-57 | an attack on oneself, during the cooldown or on a dying target changes nothing |
| Entities.AttackHitsTarget | g8e/app/src/main/java/com/g8e/gameserver/models/entities/Combatant.java:85-143 | the target loses the damage down to zero, shows it, is in combat for 20 ticks, and is dying exactly when the damage reached its hitpoints, then no longer stepping |
| Entities.AttackSwingsAttacker | g8e/app/src/main/java/com/g8e/gameserver/models/entities/Combatant.java:59-146 | the attacker faces the target, cools down for the weapon's speed, waits two ticks before following, and drops its target exactly after a kill |
| Entities.AttackLogsOneEvent | g8e/app/src/main/java/com/g8e/gameserver/models/entities/Combatant.java:112-143 | a hit adds exactly one attack event, keeps the earlier sounds in front and adds the swing sound |
| Entities.Combatant.constructor | g8e/app/src/main/java/com/g8e/gameserver/models/entities/Entity.java:71-80 | a new entity stands on its tile, respawns at its spawn tile, faces down with no next step, with a wander range of 5 and an interaction range of 1, and every flag raised |
| Entities.Combatant.SetWanderRange | g8e/app/src/main/java/com/g8e/gameserver/models/entities/Entity.java:309-312 | stores the value and raises its own change flag; nothing else changes |
| Entities.Combatant.SetInteractionRange | g8e/app/src/main/java/com/g8e/gameserver/models/entities/Entity.java:314-317 | stores the value and raises its own change flag; nothing else changes |
| Entities.Combatant.SetTargetItemID | g8e/app/src/main/java/com/g8e/gameserver/models/entities/Entity.java:319-322 | stores the value and raises its own change flag; nothing else changes |
| Entities.Combatant.SetWorldX | g8e/app/src/main/java/com/g8e/gameserver/models/entities/Entity.java:324-327 | stores the value and raises its own change flag; nothing else changes |
| Entities.Combatant.SetWorldY | g8e/app/src/main/java/com/g8e/gameserver/models/entities/Entity.java:329-332 | stores the value and raises its own change flag; nothing else changes |
| Entities.Combatant.SetTargetTile | g8e/app/src/main/java/com/g8e/gameserver/models/entities/Entity.java:334-337 | stores the value and raises its own change flag; nothing else changes |
| Entities.Combatant.SetNextTileDirection | g8e/app/src/main/java/com/g8e/gameserver/models/entities/Entity.java:339-342 | stores the value and raises its own change flag; nothing else changes |
| Entities.Combatant.SetFacingDirection | g8e/app/src/main/java/com/g8e/gameserver/models/entities/Entity.java:344-347 | stores the value and raises its own change flag; nothing else changes |
| Entities.Combatant.SetNewTargetTile | g8e/app/src/main/java/com/g8e/gameserver/models/entities/Entity.java:349-352 | stores the value and raises its own change flag; nothing else changes |
| Entities.Combatant.SetIsDying | g8e/app/src/main/java/com/g8e/gameserver/models/entities/Entity.java:354-357 | stores the value and raises its own change flag; nothing else changes |
| Entities.Combatant.SetFollowCounter | g8e/app/src/main/java/com/g8e/gameserver/models/entities/Entity.java:359-362 | stores the value and raises its own change flag; nothing else changes |
| Entities.Combatant.SetInteractionTargetID | g8e/app/src/main/java/com/g8e/gameserver/models/entities/Entity.java:364-367 | stores the value and raises its own change flag; nothing else changes |
| Entities.Combatant.SetGoalAction | g8e/app/src/main/java/com/g8e/gameserver/models/entities/Entity.java:369-372 | stores the value and raises its own change flag; nothing else changes |
| Entities.Combatant.SetTargetEntityLastPosition | g8e/app/src/main/java/com/g8e/gameserver/models/entities/Entity.java:374-377 | stores the value and raises its own change flag; nothing else changes |
| Entities.Combatant.SetDyingCounter | g8e/app/src/main/java/com/g8e/gameserver/models/entities/Entity.java:379-382 | stores the value and raises its own change flag; nothing else changes |
| Entities.Combatant.SetCurrentPath | g8e/app/src/main/java/com/g8e/gameserver/models/entities/Entity.java:384-387 | stores the value and raises its own change flag; nothing else changes |
| Entities.Combatant.SetTargetedEntityID | g8e/app/src/main/java/com/g8e/gameserver/models/entities/Combatant.java:179-182 | stores the value and raises its own change flag; nothing else changes |
| Entities.Combatant.SetSkills | g8e/app/src/main/java/com/g8e/gameserver/models/entities/Combatant.java:184-187 | stores the value and raises its own change flag; nothing else changes |
| Entities.Combatant.SetCurrentHitpoints | g8e/app/src/main/java/com/g8e/gameserver/models/entities/Combatant.java:189-192 | stores the value and raises its own change flag; nothing else changes |
| Entities.Combatant.SetLastDamageDealt | g8e/app/src/main/java/com/g8e/gameserver/models/entities/Combatant.java:194-197 | stores the value and raises its own change flag; nothing else changes |
| Entities.Combatant.SetLastDamageDealtCounter | g8e/app/src/main/java/com/g8e/gameserver/models/entities/Combatant.java:199-202 | stores the value and raises its own change flag; nothing else changes |
| Entities.Combatant.SetAttackTickCounter | g8e/app/src/main/java/com/g8e/gameserver/models/entities/Combatant.java:204-207 | stores the value and raises its own change flag; nothing else changes |
| Entities.Combatant.SetIsInCombatCounter | g8e/app/src/main/java/com/g8e/gameserver/models/entities/Combatant.java:209-212 | stores the value and raises its own change flag; nothing else changes |
| Entities.Combatant.SetAttackStyle | g8e/app/src/main/java/com/g8e/gameserver/models/entities/Combatant.java:214-217 | stores the value and raises its own change flag; nothing else changes |
| Entities.Combatant.SetWeapon | g8e/app/src/main/java/com/g8e/gameserver/models/entities/Combatant.java:219-222 | stores the value and raises its own change flag; nothing else changes |
| Entities.Combatant.SetShield | g8e/app/src/main/java/com/g8e/gameserver/models/entities/Combatant.java:224-227 | stores the value and raises its own change flag; nothing else changes |
| Entities.Combatant.SetIsInCombat | g8e/app/src/main/java/com/g8e/gameserver/models/entities/Combatant.java:229-232 | stores the value and raises its own change flag; nothing else changes |
| Entities.Combatant.Move | g8e/app/src/main/java/com/g8e/gameserver/models/entities/Entity.java:267-273 | the entity is `Located` on the tile |
| Entities.Combatant.MoveToNextTile | g8e/app/src/main/java/com/g8e/gameserver/models/entities/Entity.java:179-188 | the new state is `Stepped`: one tile in an orthogonal direction, none otherwise |
| Entities.Combatant.StopAllMovement | g8e/app/src/main/java/com/g8e/gameserver/models/entities/Entity.java:303-307 | the new state is `Stopped` |
| Entities.Combatant.ClearTarget | g8e/app/src/main/java/com/g8e/gameserver/models/entities/Combatant.java:161-165 | the new state is `TargetCleared` |
| Entities.Combatant.MoveAlongPath | g8e/app/src/main/java/com/g8e/gameserver/models/entities/Entity.java:251-256 | the new state is `AlongPath` |
| Entities.Combatant.MoveAlongPathLast | g8e/app/src/main/java/com/g8e/gameserver/models/entities/Entity.java:258-263 | the new state is `PathFinished` |
| Entities.Combatant.IsTargetTileNotWithinWanderArea | g8e/app/src/main/java/com/g8e/gameserver/models/entities/Entity.java:99-108 | true exactly when there is a current target tile outside the wander square around the spawn tile |
| Entities.Combatant.IsOneStepAwayFromTarget | g8e/app/src/main/java/com/g8e/gameserver/models/entities/Player.java:244-253 | true exactly when the target exists and is at Manhattan distance 1 |
| Entities.Combatant.SetAttackTargetTile | g8e/app/src/main/java/com/g8e/gameserver/models/entities/Entity.java:148-164 | the new state is `Retargeted`, with the tile beside a target that moved one that `GetPositionOneTileAwayFromTarget` may answer |
| Entities.Combatant.MoveTowardsTarget | g8e/app/src/main/java/com/g8e/gameserver/models/entities/Entity.java:190-249 | the new state and the item picked up are `TowardsTarget`, given answers of the tile chooser and of `findPath` that their contracts allow (`TowardsTargetAnswers`) |
| Entities.Combatant.PursueTarget | g8e/app/src/main/java/com/g8e/gameserver/models/entities/Entity.java:200-248 | the new state and the item picked up are `Pursued`, given a path that `findPath` may return for a new target tile (`Pathfinding.PathFound`) |
| Entities.Combatant.TickCounters | g8e/app/src/main/java/com/g8e/gameserver/models/entities/Player.java:1163-1179 | the new state is `CountersTicked` |
| Entities.Combatant.Respawn | g8e/app/src/main/java/com/g8e/gameserver/models/entities/Npc.java:233-248 | the new state is `Respawned` at the spawn tile with the level of the hitpoints experience |
| Entities.Combatant.ClearState | g8e/app/src/main/java/com/g8e/gameserver/models/entities/Npc.java:236-247 | the new state is `Cleared` |
| Entities.Combatant.ClearChangedFlags | g8e/app/src/main/java/com/g8e/gameserver/models/entities/Npc.java:38-82 | every flag is lowered and no value changes |
| Entities.Combatant.AddXp | g8e/app/src/main/java/com/g8e/gameserver/models/entities/Player.java:301-351 | a negative amount is refused and changes nothing; zero changes nothing; a positive amount gives `XpAdded`: the capped skill and, on a level-up, the congratulation and the sound |
| Entities.Combatant.KillPlayer | g8e/app/src/main/java/com/g8e/gameserver/models/entities/Player.java:1207-1212 | the new state is `PlayerKilled`, and exactly the death message is appended to the chat |
| Entities.Combatant.Swing | g8e/app/src/main/java/com/g8e/gameserver/models/entities/Combatant.java:59-74 | the new state is `Swung` |
| Entities.Combatant.TakeHit | g8e/app/src/main/java/com/g8e/gameserver/models/entities/Combatant.java:85-110 | the new state is `Hit` |
| Entities.Combatant.GainCombatXp | g8e/app/src/main/java/com/g8e/gameserver/models/entities/Combatant.java:93-105 | the new state and events are `CombatXpAdded` |
| Entities.Combatant.AttackEntity | g8e/app/src/main/java/com/g8e/gameserver/models/entities/Combatant.java:45-159 | the attacker's state, the target's state and the tick's events become `AttackOutcome`, whose properties are the three `Attack*` lemmas |
| Entities.Combatant.GoDown | g8e/app/src/main/java/com/g8e/gameserver/models/entities/Combatant.java:124-143 | the new state is `Downed`; a player also gets exactly the death message |
| Entities.Combatant.ConcludeAttack | g8e/app/src/main/java/com/g8e/gameserver/models/entities/Combatant.java:112-146 | the attacker, the target and the events become `Concluded` |
| Players.FirstSlotOf | g8e/app/src/main/java/com/g8e/gameserver/models/entities/Player.java:1068-1076 | -1 exactly when the value is not held; otherwise a slot holding it with no earlier slot holding it |
| Players.Exchanged | g8e/app/src/main/java/com/g8e/gameserver/models/entities/Player.java:546-554 | the two slots trade values and every other slot keeps its own |
| Players.Follow | g8e/app/src/main/java/com/g8e/gameserver/models/entities/Player.java:556-572 | a wielded index on one of the swapped slots moves to the other; any other index stays |
| Players.Reequipped | g8e/app/src/main/java/com/g8e/gameserver/models/entities/Player.java:556-572 | weapon and shield follow their items; only an index that moved raises its flag; nothing else changes |
| Players.ExchangedIsPermutation | g8e/app/src/main/java/com/g8e/gameserver/models/entities/Player.java:546-554 | a swap neither creates nor loses an item |
| Players.SwapTwiceRestores | g8e/app/src/main/java/com/g8e/gameserver/models/entities/Player.java:531-578 | swapping the same two slots again restores the inventory and the wielded indices |
| Players.SwapKeepsEquipment | g8e/app/src/main/java/com/g8e/gameserver/models/entities/Player.java:546-572 | after a swap the wielded index still points at the item it pointed at before |
| Players.Addition | g8e/app/src/main/java/com/g8e/gameserver/models/entities/Player.java:887-951 | the item is added exactly when it is known and there is room: to its first stack without passing `Integer.MAX_VALUE`, or one at a time into the first empty slot; otherwise nothing changes; the full-stack message exactly when the stack would overflow, the no-space message exactly when an empty slot was needed and there is none |
| Players.AdditionUsesOneSlot | g8e/app/src/main/java/com/g8e/gameserver/models/entities/Player.java:887-951 | a successful addition takes exactly one empty slot for an item not already stacked and none for one added to its stack |
| Players.Fed | g8e/app/src/main/java/com/g8e/gameserver/models/entities/Player.java:969-985 | hitpoints rise by the heal in `int` arithmetic and never above the hitpoints level; the attack delay becomes 4 |
| Players.EatingNeverHurts | g8e/app/src/main/java/com/g8e/gameserver/models/entities/Player.java:973-981 | from at most full health, food never lowers the hitpoints |
| Players.Disarmed | g8e/app/src/main/java/com/g8e/gameserver/models/entities/Player.java:1098-1106 | a weapon or shield wielded from the dropped slot is unwielded; only their flags can go up |
| Players.Unwielded | g8e/app/src/main/java/com/g8e/gameserver/models/entities/Player.java:1150-1157 | the weapon when it is wielded from the slot, else the shield when it is, else nothing |
| Players.Removal | g8e/app/src/main/java/com/g8e/gameserver/models/entities/Player.java:461-482 | only the first slot holding the item changes: emptied for amount 0 or when the stack runs out, reduced otherwise; nothing changes when the item is not held |
| Players.AdditionKeepsTidy | g8e/app/src/main/java/com/g8e/gameserver/models/entities/Player.java:887-951 | an empty slot still has amount 0 after an addition |
| Players.RemovalKeepsTidy | g8e/app/src/main/java/com/g8e/gameserver/models/entities/Player.java:461-482 | an empty slot still has amount 0 after a removal |
| Players.ExchangedKeepsTidy | g8e/app/src/main/java/com/g8e/gameserver/models/entities/Player.java:546-554 | an empty slot still has amount 0 after a swap |
| Players.AddThenRemoveRestores | g8e/app/src/main/java/com/g8e/gameserver/models/entities/Player.java:461-490 | removing the whole stack of an item just added to a tidy inventory where it was not held gives the inventory back |
| Players.Scattered | g8e/app/src/main/java/com/g8e/gameserver/models/entities/Player.java:1218-1229 | at most one ground item per slot, all at the player's tile and none for an empty slot |
| Players.ScatteredKeepsEveryItem | g8e/app/src/main/java/com/g8e/gameserver/models/entities/Player.java:1218-1229 | nothing is lost on death: each id lies on the ground exactly as often as it occupied a slot, and the empty id never does |
| Players.SpawnedIDs | g8e/app/src/main/java/com/g8e/gameserver/models/entities/Player.java:1218-1229 | one id per ground item |
| Players.PlayerReset | g8e/app/src/main/java/com/g8e/gameserver/models/entities/Player.java:1214-1251 | nothing wielded, back at the spawn tile at full hitpoints, no target, path or combat; skills and dying state kept |
| Players.Revived | g8e/app/src/main/java/com/g8e/gameserver/models/entities/Player.java:1181-1187 | after the reset the player is alive again with dying counter 0 |
| Players.PlayerTicked | g8e/app/src/main/java/com/g8e/gameserver/models/entities/Player.java:1163-1190 | a living player only ticks its counters; a dying one counts up, and after more than five ticks it is revived at the spawn with full hitpoints |
| Players.DyingLastsSixTicks | g8e/app/src/main/java/com/g8e/gameserver/models/entities/Player.java:1181-1187 | a dying player stays dying, its counter rising by one per tick, until the counter reaches five |
| Players.RevivedOnSixthTick | g8e/app/src/main/java/com/g8e/gameserver/models/entities/Player.java:1181-1187 | on the tick after that the player is alive at its spawn with full hitpoints |
| Players.PlayerTickedTimes | g8e/app/src/main/java/com/g8e/gameserver/models/entities/Player.java:1163-1190 | ticking never changes the skills |
| Players.Told | g8e/app/src/main/java/com/g8e/gameserver/models/entities/Player.java:900-940 | one chat line exactly when there is a message |
| Players.InventoryTouched | g8e/app/src/main/java/com/g8e/gameserver/models/entities/Player.java:576-577 | exactly the given flags are added |
| Players.LoadedSlots | g8e/app/src/main/java/com/g8e/gameserver/models/entities/Player.java:1199-1204 | copying saved slots into new ones of a fixed size throws exactly when the saved array is longer; otherwise the saved values come first and the rest hold the fill value |
| Players.SaveThenLoadRestores | g8e/app/src/main/java/com/g8e/gameserver/models/entities/Player.java:1199-1204 | an inventory of 12 slots loads back unchanged |
| Players.ResetThenLoadFailsAsWritten | g8e/app/src/main/java/com/g8e/gameserver/models/entities/Player.java:1230-1231 | as written, the 20 empty slots saved by the reset do not fit the 12 of the next login, so loading throws |
| Players.ResetThenLoadRestores | g8e/app/src/main/java/com/g8e/gameserver/models/entities/Player.java:1199-1204 | the 12 empty slots of the corrected reset load back unchanged |
| Players.Login | g8e/app/src/main/java/com/g8e/gameserver/models/entities/Player.java:72-93 | no player is made exactly when a saved inventory, amount or quest array is longer than its 12 or 10 new slots; otherwise the player holds the loaded arrays, the saved position and skills |
| Players.Player.constructor | g8e/app/src/main/java/com/g8e/gameserver/models/entities/Player.java:72-93 | the player stands where it was saved, respawns at (0, 0), has the saved skills, the loaded inventory, amounts and quests, full hitpoints for its hitpoints experience, attack style "attack", and every flag raised |
| Players.Player.ClearChangedFlags | g8e/app/src/main/java/com/g8e/gameserver/models/entities/Player.java:108-159 | every flag of the player and of its body is lowered and no value changes |
| Players.Player.SetInfluence | g8e/app/src/main/java/com/g8e/gameserver/models/entities/Player.java:1253-1256 | stores the value and raises its own flag only |
| Players.Player.SetSkinColor | g8e/app/src/main/java/com/g8e/gameserver/models/entities/Player.java:1258-1261 | stores the value and raises its own flag only |
| Players.Player.SetHairColor | g8e/app/src/main/java/com/g8e/gameserver/models/entities/Player.java:1263-1266 | stores the value and raises its own flag only |
| Players.Player.SetShirtColor | g8e/app/src/main/java/com/g8e/gameserver/models/entities/Player.java:1268-1271 | stores the value and raises its own flag only |
| Players.Player.SetPantsColor | g8e/app/src/main/java/com/g8e/gameserver/models/entities/Player.java:1273-1276 | stores the value and raises its own flag only |
| Players.Player.SlotOf | g8e/app/src/main/java/com/g8e/gameserver/models/entities/Player.java:1068-1076 | the scan returns `FirstSlotOf` the inventory |
| Players.Player.GetEmptyInventorySlot | g8e/app/src/main/java/com/g8e/gameserver/models/entities/Player.java:1068-1076 | -1 exactly when no slot is empty; otherwise the first empty slot |
| Players.Player.HandleSwapInventorySlots | g8e/app/src/main/java/com/g8e/gameserver/models/entities/Player.java:531-578 | an out-of-range slot or a swap of a slot with itself changes nothing; otherwise items and amounts are `Exchanged`, the equipment is `Reequipped` and both inventory flags are raised |
| Players.Player.AddItemToInventory | g8e/app/src/main/java/com/g8e/gameserver/models/entities/Player.java:887-951 | the inventory becomes that of `Addition`, whose message goes to the player's chat; both inventory flags are raised exactly on success |
| Players.Player.Tell | g8e/app/src/main/java/com/g8e/gameserver/models/entities/Player.java:900-903 | exactly one chat message is appended |
| Players.Player.AddStackable | g8e/app/src/main/java/com/g8e/gameserver/models/entities/Player.java:894-927 | the stackable branch gives the `Addition` result |
| Players.Player.AddSingle | g8e/app/src/main/java/com/g8e/gameserver/models/entities/Player.java:928-945 | the non-stackable branch gives the `Addition` result |
| Players.Player.EatItem | g8e/app/src/main/java/com/g8e/gameserver/models/entities/Player.java:953-987 | a slot out of range or not holding food changes nothing; otherwise the slot is emptied, the body is `Fed`, and the player is told and hears it; no inventory flag |
| Players.Player.Heal | g8e/app/src/main/java/com/g8e/gameserver/models/entities/Player.java:973-985 | the body becomes `Fed` |
| Players.Player.DropItem | g8e/app/src/main/java/com/g8e/gameserver/models/entities/Player.java:1086-1129 | an out-of-range or empty slot changes nothing; the equipment is unwielded even when the item is unknown; a known item leaves the slot as one ground item at the player's tile, with no item lost or made |
| Players.Player.Disarm | g8e/app/src/main/java/com/g8e/gameserver/models/entities/Player.java:1098-1106 | the body becomes `Disarmed` |
| Players.Player.LetGo | g8e/app/src/main/java/com/g8e/gameserver/models/entities/Player.java:1115-1128 | the slot is emptied, the ground item is returned, the drop sound is played and both flags raised |
| Players.Player.UnwieldItem | g8e/app/src/main/java/com/g8e/gameserver/models/entities/Player.java:1131-1160 | only a slot in range holding a known wieldable item is considered, and the body becomes `Unwielded` |
| Players.Player.RemoveItemFromInventory | g8e/app/src/main/java/com/g8e/gameserver/models/entities/Player.java:461-485 | the inventory becomes that of `Removal` and only the item flag is raised |
| Players.Player.ResetPlayer | g8e/app/src/main/java/com/g8e/gameserver/models/entities/Player.java:1214-1251 | every occupied slot is left on the ground (`Scattered`), the inventory becomes 12 empty slots (the corrected size, paired in Findings), and the body is `PlayerReset` |
| Players.Player.EmptyInventory | g8e/app/src/main/java/com/g8e/gameserver/models/entities/Player.java:1230-1231 | 12 new empty slots that the next login loads back (20 as written, paired in Findings), both inventory flags raised |
| Players.Player.Scatter | g8e/app/src/main/java/com/g8e/gameserver/models/entities/Player.java:1218-1229 | the loop returns `Scattered` of the inventory |
| Players.Player.Revive | g8e/app/src/main/java/com/g8e/gameserver/models/entities/Player.java:1181-1187 | the reset, then the body is `Revived` |
| Players.Player.TakeItem | g8e/app/src/main/java/com/g8e/gameserver/models/entities/Player.java:255-270 | a missing item is announced as gone; otherwise it is added as by `Addition` and, on success, marked deleted with a pick-up sound |
| Npcs.DropSpawn | g8e/app/src/main/java/com/g8e/gameserver/models/entities/Npc.java:205-220 | a positive amount spawns that many of the rolled item, any other a single one, on the given tile |
| Npcs.Dropped | g8e/app/src/main/java/com/g8e/gameserver/models/entities/Npc.java:200-222 | one ground item per roll that yielded a drop, first roll first, all on the NPC's tile |
| Npcs.NpcTicked | g8e/app/src/main/java/com/g8e/gameserver/models/entities/Npc.java:177-231 | the shared counters tick; a dying NPC's counter rises by one; the NPC dies exactly when that counter passes five, and is then back on its spawn with full hitpoints, no target, not in combat and not dying |
| Npcs.NpcReset | g8e/app/src/main/java/com/g8e/gameserver/models/entities/Npc.java:223-226 | the end of dying: back on the spawn with full hitpoints, no target, not in combat, no longer dying and the counter at 0 |
| Npcs.NpcTickedTimes | g8e/app/src/main/java/com/g8e/gameserver/models/entities/Npc.java:177-231 | repeated ticks never change the NPC's skills |
| Npcs.NpcDyingLastsSixTicks | g8e/app/src/main/java/com/g8e/gameserver/models/entities/Npc.java:195-197 | an NPC that is dying stays dying, its counter rising one per tick, as long as the counter stays within five |
| Npcs.NpcDiesOnSixthTick | g8e/app/src/main/java/com/g8e/gameserver/models/entities/Npc.java:195-228 | the tick that takes the counter past five ends dying: the NPC is back on its spawn with full hitpoints |
| Npcs.NpcTickedTimesStep | g8e/app/src/main/java/com/g8e/gameserver/models/entities/Npc.java:177-231 | one more tick continues the sequence of ticks |
| Npcs.NpcDiesNow | g8e/app/src/main/java/com/g8e/gameserver/models/entities/Npc.java:197-228 | a dying NPC whose counter is at five dies on the next tick and is reset at its spawn |
| Npcs.Interacted | g8e/app/src/main/java/com/g8e/gameserver/models/entities/Npc.java:88-117 | the interaction target is dropped when missing, dying or outside the square of the interaction range; otherwise the NPC faces it and stops where it stands |
| Npcs.DeadWhileCounting | g8e/app/src/main/java/com/g8e/gameserver/models/entities/Npc.java:123-130 | a dead NPC stays dead while its respawn counter is within the respawn time, counting one per tick |
| Npcs.BackAfterRespawnTime | g8e/app/src/main/java/com/g8e/gameserver/models/entities/Npc.java:123-130 | a dead NPC is alive again, counter reset, on the tick after its respawn time has elapsed |
| Npcs.Wandered | g8e/app/src/main/java/com/g8e/gameserver/models/entities/Npc.java:132-142 | a targetless NPC may take a new wander tile; a target tile outside the wander area drops the target and picks again; position and current target tile do not change |
| Npcs.Advanced | g8e/app/src/main/java/com/g8e/gameserver/models/entities/Npc.java:144-152 | an NPC with a target waits out its follow delay, counting it down; otherwise it moves towards its target |
| Npcs.WaitingFollowerStays | g8e/app/src/main/java/com/g8e/gameserver/models/entities/Npc.java:144-146 | a waiting follower does not move, and its delay drops by one |
| Npcs.Turned | g8e/app/src/main/java/com/g8e/gameserver/models/entities/Npc.java:159-160 | the NPC stops where it stands and faces the given tile |
| Npcs.Struck | g8e/app/src/main/java/com/g8e/gameserver/models/entities/Npc.java:154-163 | the attack's outcome for both sides and the events, after which the attacker stops in place and faces its target |
| Npcs.Acted | g8e/app/src/main/java/com/g8e/gameserver/models/entities/Npc.java:88-152 | an NPC with an interaction target only handles it; a dying NPC does nothing; any other counts towards respawn, wanders and walks, and only that case goes on to the attack |
| Npcs.Npc.constructor | g8e/app/src/main/java/com/g8e/gameserver/models/entities/Npc.java:23-36 | the NPC stands at and respawns at its tile, with the static data's skills and respawn time and full hitpoints; every flag raised |
| Npcs.Npc.ClearChangedFlags | g8e/app/src/main/java/com/g8e/gameserver/models/entities/Npc.java:38-82 | every flag of the NPC and its body is lowered and nothing else changes |
| Npcs.Npc.ResetNpc | g8e/app/src/main/java/com/g8e/gameserver/models/entities/Npc.java:233-248 | the body is reset at its spawn with full hitpoints and cleared targets, path and combat |
| Npcs.Npc.UpdateCounters | g8e/app/src/main/java/com/g8e/gameserver/models/entities/Npc.java:177-231 | the body becomes the ticked one; an NPC that dies this tick becomes dead and leaves its drops on the tile where it died |
| Npcs.Npc.Die | g8e/app/src/main/java/com/g8e/gameserver/models/entities/Npc.java:224-227 | reset at the spawn, no longer dying, dead, with its dying counter at 0 |
| Npcs.Npc.Interact | g8e/app/src/main/java/com/g8e/gameserver/models/entities/Npc.java:88-117 | the state becomes that of the interaction branch |
| Npcs.Npc.CountRespawn | g8e/app/src/main/java/com/g8e/gameserver/models/entities/Npc.java:123-130 | the dead flag and respawn counter advance as the respawn wait says; no flag is raised |
| Npcs.Npc.Wander | g8e/app/src/main/java/com/g8e/gameserver/models/entities/Npc.java:132-142 | the body becomes that of the wander step |
| Npcs.Npc.Advance | g8e/app/src/main/java/com/g8e/gameserver/models/entities/Npc.java:144-152 | the body becomes that of the follow step, given answers of the tile chooser and of `findPath` that their contracts allow |
| Npcs.Npc.Strike | g8e/app/src/main/java/com/g8e/gameserver/models/entities/Npc.java:154-175 | with a target one orthogonal step away the NPC attacks it, stops and faces it; otherwise nothing changes |
| Npcs.Npc.Prepare | g8e/app/src/main/java/com/g8e/gameserver/models/entities/Npc.java:85-152 | the update up to the attack: drops only on the tick the NPC dies, then the branch of the interaction, dying or walking step |
| Npcs.Npc.Act | g8e/app/src/main/java/com/g8e/gameserver/models/entities/Npc.java:88-152 | the NPC's state after the interaction, dying or walking branch |
| Npcs.Npc.Update | g8e/app/src/main/java/com/g8e/gameserver/models/entities/Npc.java:85-164 | a full tick: counters and drops, then the interaction, dying or walking branch, and an attack only for a walking NPC one step from a present target; the walking step takes answers of the tile chooser and of `findPath` that their contracts allow (`ActAnswers`) |
| Npcs.Npc.Turn | g8e/app/src/main/java/com/g8e/gameserver/models/entities/Npc.java:159-160 | the NPC stops and faces the given tile |
| Transfer.Gate | g8e/app/src/main/java/com/g8e/gameserver/network/dataTransferModels/DTOPlayer.java:44-46 | a field copied under a flag is present exactly when the flag is raised, and then holds the value |
| Transfer.GateNullable | g8e/app/src/main/java/com/g8e/gameserver/network/dataTransferModels/DTOPlayer.java:82-84 | a field copied under a flag from a value that may be null holds that value when the flag is raised and is null otherwise |
| Transfer.PlayerDelta | g8e/app/src/main/java/com/g8e/gameserver/network/dataTransferModels/DTOPlayer.java:41-112 | the id always; every other field present exactly when its change flag is raised, holding the current value; the last-tick tile when either coordinate changed; never a path |
| Transfer.PlayerDeltaEmptyIffQuiet | g8e/app/src/main/java/com/g8e/gameserver/network/dataTransferModels/DTOPlayer.java:139-164 | an incremental player DTO carries only its id exactly when no reported field changed (or the one that changed became null) |
| Transfer.PlayerFull | g8e/app/src/main/java/com/g8e/gameserver/network/dataTransferModels/DTOPlayer.java:114-137 | every field of the player whatever the flags say, without path and last-tick tile; never only an id |
| Transfer.PlayerDeltaOfNewIsFull | g8e/app/src/main/java/com/g8e/gameserver/network/dataTransferModels/DTOPlayer.java:41-137 | with every flag raised, as on a new player, the incremental DTO is the full one plus the last-tick tile |
| Transfer.NpcDelta | g8e/app/src/main/java/com/g8e/gameserver/network/dataTransferModels/DTONpc.java:24-88 | the id always, every other field present exactly when its flag is raised; the DTO carries only its id exactly when the NPC is quiet |
| Transfer.NpcFull | g8e/app/src/main/java/com/g8e/gameserver/network/dataTransferModels/DTONpc.java:64-75 | all ten fields of the NPC whatever the flags say; never only an id |
| Transfer.NpcDeltaOfNewIsFull | g8e/app/src/main/java/com/g8e/gameserver/network/dataTransferModels/DTONpc.java:24-75 | with every flag raised, as on a new NPC, the incremental DTO equals the full one |
| Transfer.ItemDelta | g8e/app/src/main/java/com/g8e/gameserver/network/dataTransferModels/DTOItem.java:14-36 | the id always; type, amount and coordinates exactly when their flags are raised; the deletion mark only as true, and only for a deleted item; carries only its id exactly when nothing reported changed |
| Transfer.ItemFullAsWritten | g8e/app/src/main/java/com/g8e/gameserver/network/dataTransferModels/DTOItem.java:38-44 | as written, the full item DTO's coordinates are the coordinate change flags (0 or 1), not the coordinates |
| Transfer.ItemFullAsWrittenMisplaces | g8e/app/src/main/java/com/g8e/gameserver/network/dataTransferModels/DTOItem.java:42-43 | a new item lying at (7, 3) is sent to a new connection as lying at (1, 1) |
| Transfer.ItemFull | g8e/app/src/main/java/com/g8e/gameserver/network/dataTransferModels/DTOItem.java:38-44 | the corrected full item DTO: id, type, amount and the item's own coordinates |
| Transfer.ItemFullIsDeltaOfNew | g8e/app/src/main/java/com/g8e/gameserver/network/dataTransferModels/DTOItem.java:14-53 | the corrected full DTO of an item is never empty and equals the incremental DTO once all the item's flags are raised |
| GameWorld.IndexOf | g8e/app/src/main/java/com/g8e/gameserver/World.java:81-97 | -1 exactly when the value is absent; otherwise an index holding it with no earlier occurrence |
| GameWorld.IndexOfFirst | g8e/app/src/main/java/com/g8e/gameserver/World.java:81-97 | an occurrence with none before it is the index found |
| GameWorld.ConnectedHolds | g8e/app/src/main/java/com/g8e/gameserver/World.java:61-62 | a name is among the connected names exactly when some slot holds it |
| GameWorld.ConnectedTally | g8e/app/src/main/java/com/g8e/gameserver/World.java:61-62 | the connected names, counted, are the names in the slots, counted |
| GameWorld.TallyUpdate | g8e/app/src/main/java/com/g8e/gameserver/World.java:83-93 | putting a connection in a slot trades the slot's old name for the new one in the count |
| GameWorld.ConnectedUpdate | g8e/app/src/main/java/com/g8e/gameserver/World.java:83-93 | filling or freeing one slot changes the connected names by exactly that slot's old and new name |
| GameWorld.ConnectedNone | g8e/app/src/main/java/com/g8e/gameserver/World.java:61 | with every slot free nobody is connected |
| GameWorld.RemoveFirst | g8e/app/src/main/java/com/g8e/gameserver/World.java:94 | removing a name from the online list takes out one occurrence, if any, and leaves an absent name's list alone |
| GameWorld.Added | g8e/app/src/main/java/com/g8e/gameserver/World.java:80-88 | the lowest free slot takes the connection and its name joins the end of the online list; with every slot taken nothing changes |
| GameWorld.AddedMirrors | g8e/app/src/main/java/com/g8e/gameserver/World.java:80-88 | adding a connection keeps the online list naming exactly the connected slots, as many times |
| GameWorld.RemovedMirrors | g8e/app/src/main/java/com/g8e/gameserver/World.java:90-98 | removing a connection keeps the online list naming exactly the connected slots, as many times |
| GameWorld.RemovedUndoesAdded | g8e/app/src/main/java/com/g8e/gameserver/World.java:80-98 | a new connection that found a free slot is undone, slots and online list, by removing it |
| GameWorld.ActionsOf | g8e/app/src/main/java/com/g8e/gameserver/World.java:123-125 | a player is handed exactly the queued actions carrying its id |
| GameWorld.Unclaimed | g8e/app/src/main/java/com/g8e/gameserver/World.java:133-137 | the queue keeps exactly the actions of no present player |
| GameWorld.ActionsOfAppend | g8e/app/src/main/java/com/g8e/gameserver/World.java:123-125 | a player's actions keep their queue order |
| GameWorld.ActionsPartition | g8e/app/src/main/java/com/g8e/gameserver/World.java:122-137 | every queued action of a player is either handed to it or stays queued, never both, and none is lost |
| GameWorld.PrunedChangesOnlyEmpty | g8e/app/src/main/java/com/g8e/gameserver/World.java:215-234 | pruning nulls only empty lists, and leaves the player id and the online list alone |
| GameWorld.PrunedIdempotent | g8e/app/src/main/java/com/g8e/gameserver/World.java:215-234 | a pruned state has no empty list; a null-safe prune run again on its result changes nothing, which is what makes the corrected `Deliver` send every recipient the same state |
| GameWorld.PrunedAsWritten | g8e/app/src/main/java/com/g8e/gameserver/World.java:215-234 | `removeEmptyCollections` as written: it throws exactly when one of the eight lists is null, and otherwise nulls the empty ones |
| GameWorld.PrunedAllPresent | g8e/app/src/main/java/com/g8e/gameserver/World.java:215-234 | with every list present, the pruned state still has every list exactly when none was empty |
| GameWorld.DeliveredSettled | g8e/app/src/main/java/com/g8e/gameserver/World.java:187-205 | a pruned state with every list present is sent unchanged to every remaining recipient |
| GameWorld.DeliveredAsWrittenCases | g8e/app/src/main/java/com/g8e/gameserver/World.java:187-207 | the sending loop as written gets to the end exactly with no recipient, with one and every list present, or with more and moreover no list empty; then every recipient gets the pruned state, otherwise at most the first does |
| GameWorld.SecondRecipientThrows | g8e/app/src/main/java/com/g8e/gameserver/World.java:187-234 | two players online and a tick without a trade request: only the first player is sent the state, and the loop stops |
| GameWorld.KeepNonEmptySelects | g8e/app/src/main/java/com/g8e/gameserver/World.java:167-179 | every DTO sent says something and comes from an entity; every entity whose DTO says something is sent |
| GameWorld.PlayerUpdatesSelect | g8e/app/src/main/java/com/g8e/gameserver/World.java:167-170 | a player's DTO is sent exactly when the player is not quiet, and no id-only DTO is sent |
| GameWorld.NpcUpdatesSelect | g8e/app/src/main/java/com/g8e/gameserver/World.java:171-174 | an NPC's DTO is sent exactly when the NPC is not quiet, and no id-only DTO is sent |
| GameWorld.ItemUpdatesSelect | g8e/app/src/main/java/com/g8e/gameserver/World.java:176-179 | an item's DTO is sent exactly when it carries more than the id |
| GameWorld.Recipients | g8e/app/src/main/java/com/g8e/gameserver/World.java:187-192 | the recipients are exactly the connected names that belong to a player |
| GameWorld.Addressed | g8e/app/src/main/java/com/g8e/gameserver/World.java:187-205 | each recipient, in order, gets the same state |
| GameWorld.RecipientsPrefix | g8e/app/src/main/java/com/g8e/gameserver/World.java:187-192 | the recipients among the first slots come first among all recipients |
| GameWorld.World.constructor | g8e/app/src/main/java/com/g8e/gameserver/World.java:51-62 | every slot free, nobody online, nothing queued, no entities, empty event lists |
| GameWorld.World.FindSlot | g8e/app/src/main/java/com/g8e/gameserver/World.java:81-82 | the first slot holding the value, or -1 |
| GameWorld.World.AddConnection | g8e/app/src/main/java/com/g8e/gameserver/World.java:80-88 | slots and online list become those of adding the connection; the online list still mirrors the slots; nothing else changes |
| GameWorld.World.RemoveConnection | g8e/app/src/main/java/com/g8e/gameserver/World.java:90-98 | slots and online list become those of removing the connection; the online list still mirrors the slots; nothing else changes |
| GameWorld.World.GetEntityByID | g8e/app/src/main/java/com/g8e/gameserver/World.java:256-270 | null exactly when no player and no NPC has the id; otherwise the first player with it, else the first NPC with it |
| GameWorld.World.TakeTickActions | g8e/app/src/main/java/com/g8e/gameserver/World.java:122-137 | each player, in order, is handed its queued actions in queue order; afterwards the queue holds exactly the actions of absent players |
| GameWorld.World.PlayerViews | g8e/app/src/main/java/com/g8e/gameserver/World.java:167-168 | one view per player, in order, of what its DTO is built from |
| GameWorld.World.NpcViews | g8e/app/src/main/java/com/g8e/gameserver/World.java:171-172 | one view per NPC, in order |
| GameWorld.World.ItemViews | g8e/app/src/main/java/com/g8e/gameserver/World.java:176-177 | one view per item, in order |
| GameWorld.World.Deliver | g8e/app/src/main/java/com/g8e/gameserver/World.java:187-207 | corrected, with a null-safe prune: each connection that belongs to a player, in slot order, is sent the state with its empty lists nulled |
| GameWorld.World.DeliverAsWritten | g8e/app/src/main/java/com/g8e/gameserver/World.java:187-207 | as written: the messages and the outcome of the loop whose prune throws on a list an earlier prune nulled, as `DeliveredAsWritten` computes them |
| GameWorld.World.Compose | g8e/app/src/main/java/com/g8e/gameserver/World.java:166-207 | corrected: the tick's messages, that is the event lists, the DTOs worth sending, the chat and the online list, pruned and sent to every player's connection |
| GameWorld.World.ClearTickEvents | g8e/app/src/main/java/com/g8e/gameserver/World.java:209-212 | the four event lists are emptied; the chat and everything else are kept |
| GameWorld.World.SendGameState | g8e/app/src/main/java/com/g8e/gameserver/World.java:166-213 | corrected: every player's connection gets the pruned state of the tick, then the four event lists are emptied and the chat kept |
| GameWorld.World.SendGameStateAsWritten | g8e/app/src/main/java/com/g8e/gameserver/World.java:166-213 | as written: the messages of the loop as written; it completes exactly as `DeliveryCompletes` says, and the four event lists are emptied when it does and kept when it does not |
| GameWorld.World.ComposeAsWritten | g8e/app/src/main/java/com/g8e/gameserver/World.java:166-207 | as written: the messages and outcome of the sending loop on the tick's views of the players, NPCs and items, with the loop completing exactly as `DeliveryCompletes` says |
| GameWorld.World.ClearPlayerFlags | g8e/app/src/main/java/com/g8e/gameserver/World.java:153-155 | every player's change flags are lowered and nothing else about it changes |
| GameWorld.LoweredPlayers | g8e/app/src/main/java/com/g8e/gameserver/World.java:153-155 | the players' states after `clearChangedFlags`: the same length, and each body state and profile with its change flags emptied and nothing else different |
| GameWorld.World.ClearNpcFlags | g8e/app/src/main/java/com/g8e/gameserver/World.java:157-159 | every NPC's change flags are lowered and nothing else about it changes |
| GameWorld.World.ClearItemFlags | g8e/app/src/main/java/com/g8e/gameserver/World.java:161-163 | every item's change flags are lowered and nothing else about it changes |
| GameWorld.World.CleanUpData | g8e/app/src/main/java/com/g8e/gameserver/World.java:150-164 | the chat is emptied and every player, NPC and item lowers its change flags, the other event lists kept |
| GameWorld.World.EndTick | g8e/app/src/main/java/com/g8e/gameserver/World.java:143-164 | corrected end of the tick: every player gets the pruned state, the four event lists and the chat are emptied, and every player's body and profile change flags are lowered with the rest of each player's state kept |
| GameWorld.World.EndTickAsWritten | g8e/app/src/main/java/com/g8e/gameserver/World.java:143-147 | as written: the messages and outcome of the loop as written; when it completes the four event lists and the chat are emptied and every player's body and profile change flags are lowered; when it throws the chat, the four event lists, the players, the NPCs and the items are left as they were, because the catch skips the clears and `cleanUpData` |
| GameWorld.World.FinishTick | g8e/app/src/main/java/com/g8e/gameserver/World.java:150-164 | `cleanUpData` as seen from the player list: the chat is emptied and every player's body and profile change flags are lowered, the other event lists kept |
| ExperienceCurve.ScaledRoot | client/src/util/ExperienceCurve.ts:8 | the fixed-point factor `300 * 2^(r / 7)` for one of the seven residues is never below 300 |
| ExperienceCurve.Growth | client/src/util/ExperienceCurve.ts:8 | the power-of-two growth term of a level is never below 300 |
| ExperienceCurve.DeltaAtLeast301 | client/src/util/ExperienceCurve.ts:7-8 | each level from 1 up adds at least 301 to the running total |
| ExperienceCurve.BuildLevelTable | client/src/util/ExperienceCurve.ts:2-14 | the loop builds 99 entries, entry `i` being a quarter of the running total of the growth of levels 1 to `i + 1`, floored |
| ExperienceCurve.AccumulatedGrowth | client/src/util/ExperienceCurve.ts:6-11 | the running total grows by at least 301 per level |
| ExperienceCurve.LevelTable | client/src/util/ExperienceCurve.ts:2-14 | the table has 99 entries, each the floored quarter of the running total |
| ExperienceCurve.LevelExperienceIncreasing | client/src/util/ExperienceCurve.ts:6-11 | every entry of the table is positive and below each later entry |
| ExperienceCurve.LevelTableWellFormed | client/src/util/ExperienceCurve.ts:2-14 | the built table is positive and strictly increasing, so the level search below applies to it |
| ExperienceCurve.LevelFrom | client/src/util/ExperienceCurve.ts:17-22 | the search from an index returns a level between 1 and that index plus two, capped at 99 |
| ExperienceCurve.LevelByExp | client/src/util/ExperienceCurve.ts:16-23 | every amount of experience, negative included, has a level between 1 and 99 |
| ExperienceCurve.LevelFromBounds | client/src/util/ExperienceCurve.ts:17-22 | the search returns 1 exactly when every scanned entry exceeds the experience; a higher level's entry has been reached and the next one has not |
| ExperienceCurve.LevelByExpCharacterised | client/src/util/ExperienceCurve.ts:16-23 | level 1 exactly below the first entry; the returned level's start has been reached and, below 99, the next level's start has not |
| ExperienceCurve.LevelByExpMonotonic | client/src/util/ExperienceCurve.ts:16-23 | more experience never gives a lower level |
| ExperienceCurve.GetLevelByExp | client/src/util/ExperienceCurve.ts:16-23 | the descending loop returns the level of the search |
| ExperienceCurve.GetExpForLevel | client/src/util/ExperienceCurve.ts:25-31 | fails exactly outside levels 1 to 99; level 1 starts at 0 experience |
| ExperienceCurve.LevelOfExpForLevel | client/src/util/ExperienceCurve.ts:16-31 | round trip: the experience at which a level starts has exactly that level |
| ExperienceCurve.CalculateExperienceDifference | client/src/util/ExperienceCurve.ts:33-40 | fails exactly below level 2; otherwise at least 75 |
| ExperienceCurve.ExperienceDifferenceMatchesTable | client/src/util/ExperienceCurve.ts:6-40 | the difference formula is the distance between consecutive table entries, up to the one unit that flooring the running total loses |
| ExperienceCurve.GetExperienceUntilNextLevel | client/src/util/ExperienceCurve.ts:42-47 | fails exactly at level 99; otherwise a positive amount which, added, reaches exactly the next level |
| ExperienceCurve.NextLevelAhead | client/src/util/ExperienceCurve.ts:16-47 | the start of the next level lies above the experience and has the next level |
| ClientGeometry.Trunc | client/src/entity/entity.ts:85 | the integer part of a real, rounding toward zero on both sides of 0 |
| ClientGeometry.RemTurn | client/src/entity/entity.ts:85 | the remainder by a full turn has the sign of the dividend and lies within one turn |
| ClientGeometry.WrapAngleRange | client/src/entity/entity.ts:84-88 | a wrapped angle lies in [-PI, PI) and differs from the input by whole turns |
| ClientGeometry.WrapAngleFixes | client/src/entity/entity.ts:84-88 | an angle already in [-PI, PI) is left alone |
| ClientGeometry.WrapAngleIdempotent | client/src/entity/entity.ts:84-92 | wrapping twice is wrapping once |
| ClientGeometry.SameTurnSameAngle | client/src/entity/entity.ts:84-88 | two angles in [-PI, PI) a whole number of turns apart are equal |
| ClientGeometry.WrapAngleOfTurns | client/src/entity/entity.ts:84-88 | angles whole turns apart wrap to the same angle |
| ClientGeometry.YawFromFacing | client/src/entity/entity.ts:94-105 | down, up, right and left face yaw 0, PI, PI/2 and -PI/2; every other direction has no yaw |
| ClientGeometry.Clamp | client/src/entity/npcs/Npc.ts:79 | a clamped value lies within the bounds, and a value already within them is kept |
| ClientGeometry.TurnToward | client/src/entity/npcs/Npc.ts:70-80 | a yaw that is a number and a direction that has a yaw give a yaw, anything else gives none |
| ClientGeometry.TurnTowardBounded | client/src/entity/npcs/Npc.ts:70-80 | one frame turns the wrapped yaw by at most `TURN_SPEED * dt`, along the shorter way, and lands exactly on the wanted yaw when it is within that reach |
| ClientGeometry.WorldToTile | client/src/entity/entity.ts:72-77 | the tile of a coordinate is the nearest one, within half a tile |
| ClientGeometry.TileToWorld | client/src/entity/entity.ts:79-82 | round trip: the world coordinate of a tile is read back as that tile |
| ClientGeometry.WorldToTileRoundsHalfUp | client/src/entity/entity.ts:72-77 | a point halfway between two tiles belongs to the upper one |
| ClientGeometry.Plus | client/src/entity/npcs/Npc.ts:209 | a sum is a number exactly when both operands are |
| ClientGeometry.Minus | client/src/entity/npcs/Npc.ts:197 | a difference is a number exactly when both operands are |
| ClientGeometry.Times | client/src/entity/npcs/Npc.ts:189-193 | a product is a number exactly when both operands are |
| ClientGeometry.FromInt | client/src/entity/npcs/Npc.ts:148-149 | an undefined coordinate read as a number is not a number |
| ClientGeometry.NumToTile | client/src/entity/entity.ts:72-77 | a tile exactly for a coordinate that is a number, and then the nearest one |
| ClientGeometry.SquaredDistance | client/src/entity/npcs/Npc.ts:197-198 | a squared distance that is a number is never negative |
| ClientGeometry.Length | client/src/entity/npcs/Npc.ts:198 | a length exactly when the squared length is a number |
| ClientGeometry.LengthWithin | client/src/entity/npcs/Npc.ts:200 | a length is within a bound exactly when its square is within the bound's square |
| ClientNpcs.EntityIndexAsWrittenIsLost | client/src/entity/npcs/Npc.ts:26 | as written, the NPC's type index read from the snapshot is always undefined, although the server's DTO carries it under another name |
| ClientNpcs.FromDto | client/src/entity/npcs/Npc.ts:18-27 | every snapshot field is overwritten from the DTO, so a field the DTO leaves out becomes undefined; the chunk, which the DTO never has, always does; the type index is taken from the DTO's own field |
| ClientNpcs.DeathLatch | client/src/entity/npcs/Npc.ts:29-37 | the first dying snapshot starts the death timer; a later one leaves it running; one that is not dying revives the NPC and resets its pose; the walk and attack state are never touched |
| ClientNpcs.DeltaWithoutDyingRevives | client/src/entity/npcs/Npc.ts:35-37 | a server update whose dying flag did not change leaves `isDying` out, and the client then revives an NPC it holds dead |
| ClientNpcs.AttacksBy | client/src/entity/npcs/Npc.ts:115 | exactly the events whose attacker is this NPC |
| ClientNpcs.WithoutAttacker | client/src/entity/npcs/Npc.ts:121 | exactly the events whose attacker is not this NPC |
| ClientNpcs.WithoutAttackerAppend | client/src/entity/npcs/Npc.ts:121 | removing an attacker's events keeps the others in order |
| ClientNpcs.AttackFiltersPartition | client/src/entity/npcs/Npc.ts:115-121 | every event is either this NPC's or kept, never both |
| ClientNpcs.WithoutAbsentAttacker | client/src/entity/npcs/Npc.ts:115-121 | with no event of this attacker the list is unchanged |
| ClientNpcs.StepTileIsOneStep | client/src/entity/npcs/Npc.ts:145-164 | the server's step tile is one straight step from a known tile, or the tile itself for any other direction |
| ClientNpcs.NextTargetStepsToward | client/src/entity/npcs/Npc.ts:177-194 | the next tile to walk to is at most one tile away on each axis, and one tile nearer on each axis where the NPC is not level with the target |
| ClientNpcs.DeathComesFirst | client/src/entity/npcs/Npc.ts:81-113 | a dead NPC neither attacks nor walks: the attack list, the attack timer and the walk state are untouched; the death timer runs down while positive, then the corpse pose is held |
| ClientNpcs.AttackConsumesEvents | client/src/entity/npcs/Npc.ts:115-143 | a living NPC with an attack of its own and no attack running starts one and removes all its events, keeping the rest; otherwise the list is untouched and a running attack counts down |
| ClientNpcs.WalkStopsAtTarget | client/src/entity/npcs/Npc.ts:196-204 | within `STOP_RADIUS` of the tile it walks to, the NPC lands on it and looks for the next one |
| ClientNpcs.AdvanceReaches | client/src/entity/npcs/Npc.ts:206-209 | a step at least as long as the way left lands exactly on the target |
| ClientNpcs.ScaledBack | client/src/entity/npcs/Npc.ts:206-209 | a coordinate's difference, normalised and scaled back by the same length, lands on the target |
| ClientNpcs.SettleSnapsDrift | client/src/entity/npcs/Npc.ts:216-230 | standing still, a model more than `DRIFT_LIMIT` from the server's tile is put back on it and stops walking; otherwise it stays |
| ClientNpcs.SettleWithoutPositionKeepsPlace | client/src/entity/npcs/Npc.ts:217-230 | standing still with an undefined server position, the drift is not a number and the model is never put back |
| ClientNpcs.ClientNpc.constructor | client/src/entity/npcs/Npc.ts:13-16 | the entity defaults, nothing running, at the origin, at rest, limbs built, not yet in the scene |
| ClientNpcs.ClientNpc.ResetPose | client/src/entity/entity.ts:56-70 | with limbs, every rotation is zeroed and the death state cleared; without, nothing changes |
| ClientNpcs.ClientNpc.Latch | client/src/entity/npcs/Npc.ts:29-37 | the frame fields become those of the death latch |
| ClientNpcs.ClientNpc.Update | client/src/entity/npcs/Npc.ts:18-43 | the snapshot fields come from the DTO, the death latch is applied, and the model joins the scene exactly once, on the first update |
| ClientNpcs.ClientNpc.WalkFrame | client/src/entity/npcs/Npc.ts:145-215 | the frame becomes that of one walking frame |
| ClientNpcs.ClientNpc.ApproachTarget | client/src/entity/npcs/Npc.ts:196-215 | the frame becomes that of landing on, or moving toward, the tile walked to |
| ClientNpcs.ClientNpc.SettleFrame | client/src/entity/npcs/Npc.ts:216-236 | the frame becomes that of standing still |
| ClientNpcs.ClientNpc.Collapse | client/src/entity/npcs/Npc.ts:81-100 | the frame becomes that of one frame of falling |
| ClientNpcs.ClientNpc.Swing | client/src/entity/npcs/Npc.ts:124-143 | the frame becomes that of one frame of attacking |
| ClientNpcs.ClientNpc.DrawNpc | client/src/entity/npcs/Npc.ts:55-238 | one frame: turn, then fall or lie dead, else start or play an attack, else walk or stand, with the attack list it leaves |
| ClientTiles.Trim | client/src/tile/TileManager.ts:32 | the text without the leading and trailing white space and line terminators of ECMAScript: never longer, and neither ending is one of them |
| ClientTiles.TrimStripsBlanks | client/src/tile/TileManager.ts:32 | the trimmed text is a slice of the text with nothing but white space or line terminators before and after it, so nothing inside is lost |
| ClientTiles.BlankBefore | client/src/tile/TileManager.ts:32 | a blank in front of the text moves the kept slice one further on and keeps it amid blanks |
| ClientTiles.BlankAfter | client/src/tile/TileManager.ts:32 | a blank after the text keeps the kept slice where it was and amid blanks |
| ClientTiles.Split | client/src/tile/TileManager.ts:33-34 | at least one piece, and no piece holds the separator |
| ClientTiles.SplitJoin | client/src/tile/TileManager.ts:33-34 | splitting loses nothing: the pieces joined with the separator give the text back |
| ClientTiles.SplitWithoutSeparator | client/src/tile/TileManager.ts:33-34 | text without the separator is its own only piece |
| ClientTiles.ParseCsv | client/src/tile/TileManager.ts:27-35 | one row per line of the trimmed text, and one cell per comma-separated piece of that line |
| ClientTiles.ParseCsvCell | client/src/tile/TileManager.ts:31-34 | each cell is the number read from the matching piece of the text |
| ClientTiles.RowTilesMembers | client/src/tile/TileManager.ts:82-100 | a row lays exactly one tile at each of its cells that has a material, at the layer's height |
| ClientTiles.GridTilesMembers | client/src/tile/TileManager.ts:81-101 | a grid lays exactly one tile at each cell that has a material, at the layer's height, and nothing else |
| ClientTiles.FlattenMembers | client/src/tile/TileManager.ts:40-41 | every tile of every ground group is visited |
| ClientTiles.HighestAt | client/src/tile/TileManager.ts:38-48 | at least 0 and every tile's height at that place; 0 or the height of one of them |
| ClientTiles.HighestAtSnoc | client/src/tile/TileManager.ts:41-45 | one more tile raises the maximum to its height only when it stands at that place |
| ClientTiles.NumTileHeight | client/src/tile/TileManager.ts:37-49 | a coordinate that is not a number matches no tile, and the height is never below 0 |
| ClientTiles.TileHeightCovers | client/src/tile/TileManager.ts:37-49 | the height at a place is never below that of any ground tile there, in any group |
| ClientTiles.TileHeightWithoutTiles | client/src/tile/TileManager.ts:37-49 | the height is 0 where no ground tile lies |
| ClientTiles.NeighboursOfLowerLayer | client/src/tile/TileManager.ts:151-161 | only the lower layer's tiles decide the neighbours |
| ClientTiles.SlopeTileAdvanced | client/src/tile/TileManager.ts:167-220 | a corner drops by a layer exactly when an edge or the diagonal next to it has lower ground, and stays level otherwise |
| ClientTiles.StampedKeys | client/src/tile/TileManager.ts:96-97 | laying a group's tiles adds exactly their keys, each with a flat tile, and leaves every other key as it was |
| ClientTiles.TileManager.constructor | client/src/tile/TileManager.ts:11 | no ground groups and no tiles |
| ClientTiles.TileManager.GetTileHeight | client/src/tile/TileManager.ts:37-49 | the running maximum over every child of every ground group is the height at that place |
| ClientTiles.TileManager.SetupGround | client/src/tile/TileManager.ts:74-105 | one new ground group holding a tile on each cell with a material at `layer * LAYER_HEIGHT`, and each such tile kept flat under its key |
| ClientTiles.TileManager.ApplySlopes | client/src/tile/TileManager.ts:144-165 | every upper-layer tile gets the corner depths its lower-layer neighbours call for; other tiles, the keys and the ground groups are left alone |
| ClientItems.FromWire | g8e/app/src/main/java/com/g8e/gameserver/network/dataTransferModels/DTOItem.java:9-10 | a coordinate the server leaves null arrives undefined, never null; a coordinate arrives exactly when the DTO has it |
| ClientItems.AppliedTakesDefinedFields | client/src/item/Item.ts:12-32 | each field is overwritten exactly when the snapshot defines it, an explicit null coordinate included, and kept otherwise |
| ClientItems.AppliedIdempotent | client/src/item/Item.ts:12-32 | applying the same snapshot twice is the same as applying it once |
| ClientItems.WireItemKeepsCoordinates | client/src/item/Item.ts:25-31 | an item updated from the server never loses coordinates it had, because the server leaves unchanged ones out |
| ClientItems.ClientItem.constructor | client/src/item/Item.ts:4-10 | an empty id and -1 in every other field |
| ClientItems.ClientItem.Update | client/src/item/Item.ts:12-32 | the item's fields become those of the snapshot applied to them |
| ClientItems.LootMesh.constructor | client/src/world/ItemRenderer.ts:43-56 | a mesh remembering the item id it was made for |
| ClientItems.RenderableIdsSnoc | client/src/world/ItemRenderer.ts:16-20 | one more item adds its id to the drawn ids exactly when it can be drawn |
| ClientItems.WireItemRenderable | client/src/world/ItemRenderer.ts:17-18 | a server item is drawn exactly when its DTO carries a non-empty id and both coordinates, which it does only on the tick they changed |
| ClientItems.GoneStep | client/src/world/ItemRenderer.ts:33-40 | visiting one more id adds its mesh to those removed exactly when it was not seen |
| ClientItems.ItemRenderer.constructor | client/src/world/ItemRenderer.ts:9-11 | no meshes |
| ClientItems.ItemRenderer.Update | client/src/world/ItemRenderer.ts:13-41 | afterwards exactly the drawn items have meshes; a kept id keeps its mesh, a new one gets a fresh mesh, and the mesh of an item no longer drawn leaves the scene; the rest of the scene is untouched |
| ClientItems.ItemRenderer.Render | client/src/world/ItemRenderer.ts:13-16 | given the world's item list: an undefined one throws before anything changes; otherwise afterwards exactly the drawn items have meshes |
| ClientItems.ItemRenderer.AddSeen | client/src/world/ItemRenderer.ts:16-30 | the seen ids are exactly the drawn ones; each gets a mesh, reusing its old one, and only the new meshes join the scene |
| ClientItems.ItemRenderer.See | client/src/world/ItemRenderer.ts:17-27 | a drawn item without a mesh gets a fresh one in the map and the scene; anything else changes nothing |
| ClientItems.ItemRenderer.AddMesh | client/src/world/ItemRenderer.ts:24-26 | the new mesh is put in the map and the scene |
| ClientItems.ItemRenderer.RemoveUnseen | client/src/world/ItemRenderer.ts:33-40 | exactly the meshes of ids not seen leave the scene and the map; the others stay |
| ClientItems.ItemRenderer.RemoveMesh | client/src/world/ItemRenderer.ts:35-38 | one mesh leaves the scene and the map |
| ClientPlayers.Slot | client/src/entity/player/Player.ts:43 | the inventory entry at an index, undefined exactly outside the list |
| ClientPlayers.MergedTakesDefinedFields | client/src/entity/player/Player.ts:32-36 | each plain field is taken from the snapshot exactly when it defines it, and kept otherwise |
| ClientPlayers.MergedWeapon | client/src/entity/player/Player.ts:38-58 | an absent weapon or shield keeps the stored one and calls nothing; -1 unwields and stores -1; any other index wields the item in that slot of the new inventory and stores the index, weapon first |
| ClientPlayers.WieldsFromNewInventory | client/src/entity/player/Player.ts:34-46 | wielding a slot of a snapshot that brings its own inventory wields from that new inventory |
| ClientPlayers.MergedTwice | client/src/entity/player/Player.ts:29-58 | taking the same snapshot twice leaves the same fields as taking it once; only the wield calls repeat |
| ClientPlayers.ClientPlayer.constructor | client/src/entity/player/Player.ts:10-15 | empty strings and lists, nothing wielded, no calls made |
| ClientPlayers.ClientPlayer.Update | client/src/entity/player/Player.ts:29-58 | the player's state becomes the snapshot merged into it |
| ClientPlayers.ClientPlayer.TakeOver | client/src/entity/player/Player.ts:32-36 | the plain fields are taken over where the snapshot defines them; nothing else changes |
| ClientPlayers.ClientPlayer.WieldWeapon | client/src/entity/player/Player.ts:38-47 | the weapon index and the calls made follow the weapon handling |
| ClientPlayers.ClientPlayer.WieldShield | client/src/entity/player/Player.ts:49-58 | the shield index and the calls made follow the shield handling |
| ClientScene.Scene.constructor | client/src/world/World.ts:122 | an empty scene with no add calls |
| ClientScene.Scene.Add | client/src/world/ItemRenderer.ts:26 | the object is in the scene and the call is recorded; nothing else changes |
| ClientScene.Scene.Remove | client/src/world/ItemRenderer.ts:35 | the object is out of the scene; the record of add calls is kept |
| ClientWorlds.AudibleMembers | client/src/world/World.ts:257-267 | exactly the global sounds and the current player's own are played |
| ClientWorlds.AudibleAppend | client/src/world/World.ts:261-267 | the sounds are played in the order they came |
| ClientWorlds.DrawnInOrder | client/src/world/World.ts:312 | one new frame per NPC, each NPC drawing with the attack list the ones before it left |
| ClientWorlds.InfoByIndex | client/src/managers/EntitiesManager.ts:36-38 | an entry with the index when there is one, null exactly when none has it; an undefined index matches none |
| ClientWorlds.InfoByIndexFirst | client/src/managers/EntitiesManager.ts:36-38 | the entry found is the first one with the index |
| ClientWorlds.NpcMenu | client/src/world/World.ts:381-418 | talking exactly when the type is talkable, attacking exactly when it is of type 2, in that order, and examining always, last |
| ClientWorlds.ExamineText | client/src/world/World.ts:416 | the examine text when there is one, else 'No data'; never empty |
| ClientWorlds.ChosenFromMenu | client/src/world/World.ts:381-418 | each option sends the request its label names, for the NPC it was built for; talking and attacking close the menu, examining sends a non-empty private chat line and keeps it open |
| ClientWorlds.World.constructor | client/src/world/World.ts:36-54 | no current player, entities, items, chat or events; no menu and nothing sent or played |
| ClientWorlds.World.PlaySoundEvents | client/src/world/World.ts:257-267 | the sound list is emptied and exactly its audible sounds are played, in order |
| ClientWorlds.World.Slots | client/src/world/World.ts:312 | one entry per NPC, in order, holding what its frame depends on |
| ClientWorlds.World.DrawNpcs | client/src/world/World.ts:307-313 | every NPC draws one frame, in order, each taking its attacks out of the list the ones before it left; snapshots are untouched |
| ClientWorlds.World.DrawOne | client/src/world/World.ts:312 | one NPC's frame and the attack list it leaves |
| ClientWorlds.World.Update | client/src/world/World.ts:242-255 | the NPCs draw their frames; while loading the sounds are kept, otherwise they are played and the list emptied |
| ClientWorlds.World.Send | client/src/world/World.ts:377 | a request goes out exactly when the actions exist |
| ClientWorlds.World.OnNpcClick | client/src/world/World.ts:364-419 | nothing right after a menu closed; otherwise a menu next to the mouse, empty with a 'No data' chat line for an unknown type, with the type's options for a known one |
| ClientWorlds.World.ChooseOption | client/src/world/World.ts:388-417 | the chosen option's request goes out when the actions exist, and talking or attacking closes the menu |
| ClientWorlds.NpcMenuAsWrittenNoData | client/src/world/World.ts:375-379 | with the type index read as written, every NPC click opens the empty menu with 'No data'; with the index the server sends, a known type gets its options |
| ClientGame.OnlineOnlyMembers | client/src/client/Client.ts:262 | a player stays exactly when its id is in the online list, and none is added |
| ClientGame.OnlineOnlyFrom | client/src/client/Client.ts:262 | every player that stays was in the list before |
| ClientGame.OnlineOnlyDistinct | client/src/client/Client.ts:262 | removing the offline players keeps the players' ids distinct |
| ClientGame.FirstWithId | client/src/client/Client.ts:265 | the first player with the id, or past the end exactly when none has it |
| ClientGame.TookPlayerIds | client/src/client/Client.ts:264-276 | one DTO keeps every player's id and place, adds a player exactly when none has its id, and keeps the ids distinct |
| ClientGame.JoinedPlayersIds | client/src/client/Client.ts:264-276 | the players only grow: earlier ones keep their ids and places, a player joins for each new id and no other, and the ids stay distinct |
| ClientGame.TookPlayerStates | client/src/client/Client.ts:264-276 | one DTO updates the player with its id and no other, or a new player made from it alone joins |
| ClientGame.JoinedPlayersStates | client/src/client/Client.ts:264-276 | every player ends as the fold of `update` over the DTOs with its id, from its old state or from a new player's |
| ClientGame.PlayerDtosForAbsent | client/src/client/Client.ts:264-276 | an id no DTO carries gets no update |
| ClientGame.LastById | client/src/client/Client.ts:281-284 | the map holds exactly the NPCs' ids, each sent to the last place holding it |
| ClientGame.JoinedNpcs | client/src/client/Client.ts:286-299 | NPCs are never removed |
| ClientGame.Spawned | client/src/client/Client.ts:293-297 | one new NPC per DTO |
| ClientGame.JoinedNpcsNew | client/src/client/Client.ts:286-299 | the NPCs that join are one new NPC for each DTO whose id the map built before did not hold, in order, so two such DTOs with one id make two NPCs |
| ClientGame.JoinedNpcsOld | client/src/client/Client.ts:286-299 | earlier NPCs keep their places and ids; the one the map holds for an id takes every DTO with that id in order, and any earlier NPC with the same id is left as it was |
| ClientGame.KeptChatMembers | client/src/client/Client.ts:301-312 | exactly the messages sent at or after login by the current player or to everyone stay, and none is added |
| ClientGame.CurrentName | client/src/client/Client.ts:307 | there is a name exactly when some player has the current id |
| ClientGame.CurrentNameOfPlayer | client/src/client/Client.ts:307 | with distinct ids, the name is that of the one player with the current id |
| ClientGame.WireItems | client/src/client/Client.ts:317 | each item of the message is read as the client reads one item, in order |
| ClientGame.QuietItemsArriveAbsent | client/src/client/Client.ts:317 | a tick with no item changes reaches the client with no item list, so the update as written stores undefined |
| ClientGame.QuietTickStopsUpdate | client/src/client/Client.ts:264-301 | a tick whose player list was empty reaches the client without one, so the update as written stops before the NPCs and the chat |
| ClientGame.Client.constructor | client/src/client/Client.ts:22-28 | nothing owed, nothing rendered, the login time kept |
| ClientGame.Client.GameLoop | client/src/client/Client.ts:211-234 | a gap over 250 ms drops the time owed and renders nothing; otherwise one 20 ms world step per whole 20 ms owed, less than one step left owed, and one render |
| ClientGame.Client.Step | client/src/client/Client.ts:228 | a world step keeps the NPCs valid |
| ClientGame.Client.RemoveOffline | client/src/client/Client.ts:256-262 | the players not online leave the scene and the list; the online ones stay, in order, with distinct ids |
| ClientGame.Client.TakePlayer | client/src/client/Client.ts:264-276 | one DTO updates the first player with its id, or a fresh player made from it joins at the end; ids stay distinct |
| ClientGame.Client.MergeInto | client/src/client/Client.ts:275 | the matching player takes the DTO over and every other player is unchanged |
| ClientGame.Client.JoinPlayer | client/src/client/Client.ts:266-272 | a fresh player made from the DTO alone joins at the end |
| ClientGame.Client.UpdatePlayers | client/src/client/Client.ts:264-276 | the players end as the roster fold over the DTOs, in order, with distinct ids |
| ClientGame.Client.NpcMap | client/src/client/Client.ts:281-284 | the map sends each NPC id to the last place holding it |
| ClientGame.Client.RefreshNpc | client/src/client/Client.ts:287-291 | the NPC the map found takes the DTO over and the others are unchanged |
| ClientGame.Client.SpawnNpc | client/src/client/Client.ts:293-297 | a fresh NPC made from the DTO joins at the end and is added to the scene once |
| ClientGame.Client.NewNpc | client/src/client/Client.ts:295-296 | a fresh NPC with the DTO's id, updated from it and added to the scene |
| ClientGame.Client.UpdateNpcs | client/src/client/Client.ts:280-299 | the NPCs end as the roster fold over the DTOs with the map built before them |
| ClientGame.Client.TakeMessages | client/src/client/Client.ts:301-317 | the kept chat, then the tick's events; the item list is stored as given, left undefined exactly when none is given; players and NPCs unchanged |
| ClientGame.Client.UpdateGameState | client/src/client/Client.ts:252-318 | offline players leave, then the players, the NPCs, the chat and the tick's lists are taken as the folds and filters above state; an absent item list is stored as an empty one, never undefined |
| ClientGame.Client.TakeRosters | client/src/client/Client.ts:256-299 | the players as their fold over the online ones, then the NPCs as theirs |
| ClientGame.Client.LeaveAndJoin | client/src/client/Client.ts:256-276 | the offline players leave, then the players fold over the DTOs |
| ClientGame.Client.TakePlayers | client/src/client/Client.ts:256-276 | the players part, leaving the NPCs as they were |
| ClientGame.Client.TakeNpcs | client/src/client/Client.ts:280-299 | the NPCs part, leaving the players as they were |
| ClientGame.Client.UpdateGameStateAsWritten | client/src/client/Client.ts:252-318 | the update gets to the end exactly when the players, the NPCs and the chat are all present; without the players the NPCs are untouched, and when it stops the chat and events are kept; when it gets to the end the world's item list is undefined exactly when the message has none |
| ClientGame.Client.RestAsWritten | client/src/client/Client.ts:280-317 | after the players, it gets to the end exactly when the NPCs and the chat are present, and stopping keeps the chat and events; at the end the item list is stored as it arrived, undefined when absent |

## Left out

- Rendering and asset code is not modelled: meshes, limb builders, materials, trees, the camera, the HUD and health bars, item previews and the item bobbing. The client scene is reduced to the objects added to it and removed from it.
- The inherited `super.update` and `super.draw` of the client player are not part of this model, and neither is the position interpolation in the client entity base class. `ClientPlayers.ClientPlayer.Update` models only the part after them.
- Adding a player's model to the scene would happen in the base-class `update`, which is not part of this model. Removing an offline player's model is modelled as removing the player object from the scene.
- Floating point is read as exact real arithmetic. Trigonometry and square roots are parameters: the death collapse easing, the attack swing and the gait.
- The experience curve is built with fixed-point arithmetic at 24 fractional bits instead of `Math.pow` and `Math.floor` on doubles. The table's properties are proved for every well-formed table.
- Network I/O, JSON dispatch, compression, the login and ping sockets, the asset and cache loaders, and the browser Cache API are not modelled.
- `requestAnimationFrame` scheduling is not modelled. Neither are the `world === null` guards in `Client`: the client always has a world here.
- The database saves that follow inventory and experience changes are not modelled. Neither are the item and quest managers: their answers, such as stackability, heal amounts and attack speeds, are parameters.
- Concurrency and timing are not modelled: the server's tick sleep loop, the delayed logout of a player in combat, and the 400 ms retaliation an NPC target schedules after being hit.
- Randomness is passed in as values rather than modelled: the NPC id, the wander roll and wander tile, the drop tables, and the random dialogue.
- `Npcs.Npc.constructor`: the exception thrown when an NPC's static data is missing is not modelled.
- Shop buying and selling is commented out in the source and not modelled. `CombatUtils` damage is not part of this model: damage is an input. Neither is the server's `ExperienceUtils`: levels are looked up in the experience table, given as a parameter.
- Dialogue UI and the other modal flows are not modelled: `Interaction`, `Man`, `NpcInteraction`.
- The server's `gameTick` is composed only from the sending of the game state on (`GameWorld.World.EndTick`, `GameWorld.World.EndTickAsWritten`). Its other parts are modelled separately: handing out actions and entity updates. `itemsManager.updateDespawnTimers`, `enqueueAction` and `addPlayer` are not modelled.
- `Pathfinding.PollCheapest`: Java's `PriorityQueue` breaks ties between equal costs in an unspecified order. The model takes the first cheapest node inserted, so paths among equal-cost alternatives may differ from the source's.
- `Tiles.GetClosestWalkableTile`: requires the map to have a walkable tile, because the source's search never ends on a map without one.
- `Pathfinding.FindPath`: requires a walkable tile when the target collides, for the same reason.
- `Pathfinding.FindPath`: optimality of the path is not claimed. The decrease-key branch of the source never fires, because each neighbour is a fresh node.
- `Entities.GetPositionOneTileAwayFromTarget`: compares squared distances instead of the `Math.sqrt` doubles of the source. The two orders agree, ties included, while the squared distances stay far below 2^50, which covers any map of realistic size. The `Math.random()` coin at each tile is a parameter.
- `ClientTiles.TileManager.ApplySlopes`: the source runs it from a one-second `setTimeout` in the tile manager's constructor, whether or not the CSV layers have finished loading by then. The model applies it to whatever layers have been laid when it is called; the timer and the race with the loads are not modelled.
- `AccountForm.JsLength`: a JavaScript string may hold a lone surrogate, which a Dafny string cannot. The model counts only strings of whole characters.
- `Entities.Combatant.AttackEntity`: requires a damage of at most a quarter of `Integer.MAX_VALUE`, so that the experience `4 * damage` fits a Java `int`. It also requires a player attacker to have an attack style and its combat skills, where the source would throw.
- `Entities.Combatant.AddXp`: requires a skill index inside the skills array, where the source would throw an index error.
- `Npcs.Npc.Update`: requires the NPC's target not to be its own body. Aliasing between the attacker and the target is not modelled.
- `ClientGame.Client.GameLoop`: its contract states the steps taken, the time left owed and the renders. It does not state the world's state after the steps.
- `ClientGame.Client.UpdateGameState`: reads an absent player, NPC, chat or item list as an empty one. The code as written stops at the first absent list, as `ClientGame.Client.UpdateGameStateAsWritten` models. The NPC map's values stand for places in the NPC list.
- Undefined event lists in the client world are read as empty lists.
- `GameWorld.World.Deliver`, `GameWorld.World.Compose` and `GameWorld.World.SendGameState` send every player the same state, as a null-safe prune would; the loop as written, which stops at the second player, is `GameWorld.World.DeliverAsWritten` and `GameWorld.World.SendGameStateAsWritten` (see "## Findings").
- `GameWorld.World.EndTick` and `GameWorld.World.EndTickAsWritten` state the lowered body and profile change flags of the players only; those of the NPCs and items are stated by `GameWorld.World.CleanUpData`, which both reach through `GameWorld.World.FinishTick`.
- Code with no logic is not modelled: data holders, `.d.ts` type files, and the website's build configuration and entry point.

## Findings

| source | as written | input that shows it | evidently intended | confidence | as-written member | corrected member |
|---|---|---|---|---|---|---|
| g8e/app/src/main/java/com/g8e/gameserver/models/entities/Player.java:311-316 | the new experience is the 32-bit sum of the skill's experience and the gain, and only then capped at 200,000,000 | a skill at 200,000,000 gaining 1,947,483,648 wraps to -2,147,483,648 | the experience never leaves 0..200,000,000: add without wrapping, then cap | not executed | Entities.GainedXpAsWrittenWraps | Entities.GainedXp |
| g8e/app/src/main/java/com/g8e/gameserver/network/dataTransferModels/DTOItem.java:42-43 | the full item DTO takes `worldX`/`worldY` from the item's change flags | a new item lying at (7, 3) is sent to a joining player as lying at (1, 1) | the item's own coordinates | not executed | Transfer.ItemFullAsWrittenMisplaces | Transfer.ItemFull |
| client/src/entity/npcs/Npc.ts:26 | the NPC's type index is read from `entityIndex`, which the server's NPC DTO never has: it sends `npcIndex` | any NPC click: the menu is empty and the chat says 'No data' | read the index the DTO carries | not executed | ClientNpcs.EntityIndexAsWrittenIsLost | ClientNpcs.FromDto |
| client/src/client/Client.ts:264-317 | the players, NPCs and chat lists are dereferenced unguarded, and the item list is stored even when undefined, while the server nulls every empty list | a tick in which no player changed: the update stops before the NPCs and the chat; a tick in which no item changed: the world's item list becomes undefined and the item renderer's loop throws | treat an absent list as empty | not executed | ClientGame.QuietTickStopsUpdate, ClientGame.QuietItemsArriveAbsent, ClientItems.ItemRenderer.Render | ClientGame.Client.UpdateGameState |
| g8e/app/src/main/java/com/g8e/gameserver/models/entities/Player.java:1230-1231 | `resetPlayer` replaces the inventory by 20-slot arrays and saves them, while the login copies the saved arrays into 12 new slots | a player who has died once logs in again: the copy of 20 saved slots into 12 throws and the player is never made | reset to 12 empty slots, which the next login loads back (`Players.ResetThenLoadRestores`) | not executed | Players.ResetThenLoadFailsAsWritten | Players.Player.EmptyInventory |
| g8e/app/src/main/java/com/g8e/gameserver/World.java:187-234 | the prune runs on the one shared game state once per player connection, and its `isEmpty` tests dereference lists an earlier prune nulled | two players online and a tick without a trade request: the second prune throws, so the second player is sent nothing, and the catch in `gameTick` skips the four clears and `cleanUpData` | a null-safe prune (or one prune before the loop), so every player gets the same state | not executed | GameWorld.SecondRecipientThrows, GameWorld.World.DeliverAsWritten, GameWorld.World.SendGameStateAsWritten, GameWorld.World.EndTickAsWritten | GameWorld.World.Deliver, GameWorld.World.SendGameState, GameWorld.World.EndTick |
