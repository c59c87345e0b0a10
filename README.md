# FMC-Beta core, modelled in Dafny

This project models the server-side game logic of the FMC-Beta voxel game:

- **Terrain generator.**
  - The coarse lattice of terrain-shape samples is interpolated into a 16 x 24 x 16 density volume.
  - The volume is turned into a 16 x 16 x 16 chunk of blocks by the column scan: top, mid, bottom, sand, surface liquid, sub-surface liquid and air.
  - An all-air chunk is collapsed into a uniform chunk.
  - Each chunk column gets a feature seed.
- **Server settings file.** It is made of `name = value` lines and `#` comments. A default file is written when none exists.
- **Day/night clock.** It includes its four chat-settable times of day.
- **Chat.** This covers `/time` and `/gamemode` commands, said text and join/leave announcements.
- **Players.**
  - The hotbar of nine item slots and its interface messages.
  - The respawn search for two air blocks.
  - The switch between movement plugins on a game-mode change.
- **The player's hand.** For a right click this means interacting with an entity, placing the held block or using the held item.
- **Dropped items.** A player picks them up into the hotbar.

Each part is one module:

| module | what it models |
|---|---|
| `TerrainLayout` | the chunk, volume and lattice index layouts |
| `Interpolation` | the accumulator-based interpolation loops |
| `Materializer` | the column scan |
| `FeatureSeed` | the feature seed |
| `ChunkGeneration` | the generation of one chunk |
| `ServerSettings` | the settings file |
| `Skybox` | the day/night clock |
| `Chat` | chat commands and messages |
| `Items` | item stacks and the per-item use buffer |
| `Players` | the hotbar, the respawn search and the movement plugins |
| `HotbarInterface` | the hotbar's interface messages |
| `Hand` | the right-click decision and its effects |
| `DroppedItems` | picking up dropped items |

Code that loops or updates state is modelled as methods with loop invariants, and classes stand for the components the source mutates: `Hotbar`, `Clock`, `ItemUses`, `HandInteractions` and the movement-plugin record. Each method is proved against a specification function. The properties the game relies on are then proved as lemmas about those functions:

- the interpolation is exactly trilinear;
- the block roles follow depth and world height;
- a settings file loads line by line, and a later line wins;
- commands are never broadcast;
- picking up items conserves them, and leaves items on the ground only when the hotbar is full.

Densities are real numbers. Integer widths appear only where the source relies on them: the u64 feature seed and the `u32::MAX` transfer limit.

Two details of the column scan decide the block roles near the surface:

- The halo pre-scan counts solid cells upward from y = 16 (src/world/terrain_generation.rs:259-272).
- A liquid cell sets the depth counter to 1 (src/world/terrain_generation.rs:280-287). The solid cell directly under a liquid is therefore sand, never a top block.

## Model

| member | source | states |
|---|---|---|
| TerrainLayout.VolumeCell | src/world/terrain_generation.rs:426 | the decoded cell lies in the 16 x 24 x 16 volume and encodes back to the index |
| TerrainLayout.ChunkCell | src/players/mod.rs:288-289 | `BlockPosition::from(usize)`: the decoded block lies in the chunk and encodes back to the index |
| TerrainLayout.LatticeLayout | src/world/terrain_generation.rs:238-240 | the compression layout, built from `INTERPOLATION_WIDTH`/`INTERPOLATION_HEIGHT`, and `interpolate`'s `index` (line 388), built from its `WIDTH`/`HEIGHT`/`DEPTH`, use the same strides (20 and 4), so they agree; the index is below 100 and one-to-one |
| TerrainLayout.VolumeIndexBijective | src/world/terrain_generation.rs:426 | the volume layout is a bijection between the cells and [0, 6144) |
| TerrainLayout.ChunkIndexBijective | src/world/terrain_generation.rs:309 | the chunk layout is a bijection between the blocks and [0, 4096) |
| TerrainLayout.ColumnSpan | src/players/mod.rs:282 | a column's 16 blocks are exactly the 16 consecutive indices from its y = 0 block, which the chunks-of-16 scan relies on |
| Interpolation.CellDensityIsTrilinear | src/world/terrain_generation.rs:396-437 | the incremental accumulators compute exactly the trilinear interpolation of the cell's eight corners |
| Interpolation.InterpolatedAtLattice | src/world/terrain_generation.rs:396-427 | at a lattice point the volume holds the coarse sample itself |
| Interpolation.CellEdgesMeet | src/world/terrain_generation.rs:400-437 | ramping an edge for its full length reaches the neighbouring lattice point, so adjacent cells agree |
| Interpolation.CellDensitySlice | src/world/terrain_generation.rs:409-418 | within a slice, the back and front rows are the x-ramps between the edge accumulators |
| Interpolation.CellDensityEdges | src/world/terrain_generation.rs:400-418 | at x and z offsets 0 and 4 the density is the matching edge accumulator |
| Interpolation.CellDensityEdgesStart | src/world/terrain_generation.rs:400-408 | the four vertical edges start at the cell's lower corners |
| Interpolation.CellDensityEdgesStep | src/world/terrain_generation.rs:430-435 | one vertical step moves each edge by an eighth of its rise |
| Interpolation.CellDensityRow | src/world/terrain_generation.rs:419-431 | within a row the density is the z-ramp from back to front |
| Interpolation.CellDensitySign | src/world/terrain_generation.rs:396-437 | inside a cell the density has the sign that all eight corners share |
| Interpolation.VolumeSign | src/world/terrain_generation.rs:382-444 | when every lattice sample is at most 0 (or every one is positive), so is every density of the volume |
| Interpolation.IterationWritesEachCellOnce | src/world/terrain_generation.rs:393-427 | the six nested loops and the volume cells correspond one to one, and each iteration writes a cell not written before |
| Interpolation.FillRow | src/world/terrain_generation.rs:424-428 | the `z_index` loop writes its row with the interpolated densities and keeps every earlier cell |
| Interpolation.FillSlice | src/world/terrain_generation.rs:409-438 | the `x_index` loop writes its 4 x 4 slice |
| Interpolation.FillLatticeCell | src/world/terrain_generation.rs:396-438 | the `y_index` loop writes the whole lattice cell |
| Interpolation.FillLatticeColumn | src/world/terrain_generation.rs:395-439 | the `y_noise` loop writes the column of cells above a lattice point |
| Interpolation.Interpolate | src/world/terrain_generation.rs:382-444 | every cell of the volume receives the trilinear interpolation of its lattice cell |
| Materializer.PreScanCountsSolidRun | src/world/terrain_generation.rs:259-272 | the halo scan yields the run of solid cells above the start, or 1 when the cell ending the run is at or below world height 0 |
| Materializer.InitialLayerMeaning | src/world/terrain_generation.rs:256-272 | the depth of the chunk's top cell is the run of solid halo cells above it (at most 8), or 1 under liquid |
| Materializer.RoleBySign | src/world/terrain_generation.rs:280-290 | a cell is solid exactly when its density is positive; otherwise it is surface liquid at height 0, sub-surface liquid below 0 and air above 0 |
| Materializer.SolidRoleByDepth | src/world/terrain_generation.rs:291-306 | a solid cell is bottom below depth 3 (tested before sand), sand below height 2, else top, mid or bottom by depth 0, 1-2 or 3 |
| Materializer.LayerUpdate | src/world/terrain_generation.rs:280-306 | the depth below a cell is 0 after air, 1 after liquid and one more after a solid cell |
| Materializer.BottomContinuesDown | src/world/terrain_generation.rs:291-293 | a bottom block is followed downward by bottom blocks for the rest of its solid run |
| Materializer.TopStartsRun | src/world/terrain_generation.rs:298-299 | a top block is the chunk's top cell reached with depth 0, or lies directly under air |
| Materializer.BelowLiquidIsSand | src/world/terrain_generation.rs:280-296 | the solid cell directly below a liquid is sand |
| Materializer.AirAboveGround | src/world/terrain_generation.rs:280-290 | above world height 0, a volume with no positive density becomes an all-air chunk |
| Materializer.SolidWherePositive | src/world/terrain_generation.rs:291-306 | a volume with only positive densities yields only the biome's solid layer blocks |
| Materializer.ScanHalo | src/world/terrain_generation.rs:256-272 | the pre-scan loop computes the initial depth of the column |
| Materializer.FillColumn | src/world/terrain_generation.rs:255-311 | one column is written with its terrain blocks and no other block is touched |
| Materializer.FillSlab | src/world/terrain_generation.rs:254-312 | one x slab is written with its terrain blocks and nothing outside it changes |
| Materializer.Materialize | src/world/terrain_generation.rs:250-312 | the materializer fills the dense chunk with the terrain block of every cell |
| FeatureSeed.PackFields | src/world/terrain_generation.rs:359-361 | the packed u64 holds x modulo 2^32 in its high half and z modulo 2^32 in its low half |
| FeatureSeed.PackInjective | src/world/terrain_generation.rs:359-361 | distinct i32 chunk columns pack to distinct values |
| FeatureSeed.ChunkSeed | src/world/terrain_generation.rs:359-361 | the wrapping product of the packed position and the world seed is a u64 |
| ChunkGeneration.IsUniformAir | src/world/terrain_generation.rs:42-48 | the early-exit loop answers true exactly when every block is air |
| ChunkGeneration.GenerateTerrain | src/world/terrain_generation.rs:192-313 | terrain generation is interpolation followed by the materializer |
| ChunkGeneration.GenerateChunk | src/world/terrain_generation.rs:26-60 | the chunk is air above the height cap, air when the terrain is all air, and otherwise the terrain with features applied using the column's seed |
| ChunkGeneration.DispatchCases | src/world/terrain_generation.rs:29-56 | uniform air exactly when above the cap or all air; dense exactly when some block is not air, with features run on the terrain |
| ChunkGeneration.EmptyChunkIsAir | src/world/terrain_generation.rs:31-53 | above height 0, all non-positive samples give uniform air and no features |
| ChunkGeneration.SolidChunkIsDense | src/world/terrain_generation.rs:42-56 | below the cap, all positive samples give a dense chunk with its features |
| ServerSettings.SplitOnce | src/settings.rs:60 | `split_once` fails exactly when the separator is absent; otherwise it splits at its first occurrence |
| ServerSettings.SplitOnceAt | src/settings.rs:60-66 | splitting at a separator absent from the left part gives back the two parts |
| ServerSettings.TrimStartDropsLeadingWhitespace | src/settings.rs:67-68 | `trim_start` removes a whitespace prefix and leaves a result that starts with non-whitespace |
| ServerSettings.TrimEndDropsTrailingWhitespace | src/settings.rs:67-68 | `trim_end` removes a whitespace suffix and leaves a result that ends with non-whitespace |
| ServerSettings.TrimKeepsCore | src/settings.rs:67-68 | `trim` keeps exactly the text between leading and trailing whitespace |
| ServerSettings.ErrorStops | src/settings.rs:60-90 | once a line fails, loading stops with that error |
| ServerSettings.Load | src/settings.rs:39-95 | a missing file gives the defaults and writes the default file; otherwise the file's lines are applied in order |
| ServerSettings.LineWithoutSeparator | src/settings.rs:55-66 | a comment changes nothing; any other line without `=` is an error naming its line |
| ServerSettings.AssignmentLine | src/settings.rs:60-91 | a `name = value` line sets the named setting from the trimmed value, or fails for an unknown name or a bad value |
| ServerSettings.RenderDistanceFixed | src/settings.rs:70-91 | no line changes the render distance, so every successful load keeps 16 |
| ServerSettings.CommentsOnlyLoadDefault | src/settings.rs:55-58 | a file of comments only loads as the defaults |
| ServerSettings.LoadPrefixExtends | src/settings.rs:52-92 | the result after n lines does not depend on the lines after them |
| ServerSettings.LaterLineWins | src/settings.rs:71-73 | a `world-name` line appended to a file that loads sets the world name and keeps the rest |
| ServerSettings.LinesOfTwo | src/settings.rs:50-53 | two lines joined by a newline read back as those two lines; only the first, which ended at the newline, loses a trailing carriage return |
| ServerSettings.DefaultFileLoadsDefault | src/settings.rs:99-106 | the default file holds comments only, so it loads back as the defaults |
| Skybox.SecondsToNanos | src/skybox.rs:28 | `Duration::from_secs_f32` gives the whole number of nanoseconds nearest a non-negative time, a tie going to the even one |
| Skybox.TimesOfDayOrdered | src/skybox.rs:15-19 | sunrise, noon, sunset and midnight fall at 0, 300, 600 and 900 seconds, in order, within the 1200-second day |
| Skybox.Clock.constructor | src/skybox.rs:21-24 | a new clock starts at time 0 |
| Skybox.Clock.SetSunrise | src/skybox.rs:27-29 | the clock is set to 0 |
| Skybox.Clock.SetSunset | src/skybox.rs:31-33 | the clock is set to 600 seconds |
| Skybox.Clock.SetNoon | src/skybox.rs:35-37 | the clock is set to 300 seconds |
| Skybox.Clock.SetMidnight | src/skybox.rs:39-41 | the clock is set to 900 seconds |
| Skybox.Clock.Tick | src/skybox.rs:45 | the frame's time is added, so the clock never runs backwards |
| Items.Take | src/players/hand.rs:577 | the assumed contract of fmc's `take`, called here: taking n items removes min(n, size), keeps the capacity, forgets the item of an emptied stack and keeps stacks valid |
| Items.TransferConserves | src/items/dropped_items.rs:125 | a transfer conserves the item count and keeps both stacks valid; it moves items only into an empty stack or one of the same item, and stops only at the limit, an empty source or a full destination |
| Items.ItemUses.constructor | src/items/mod.rs:26-27 | a new use buffer is empty |
| Items.ItemUses.Push | src/items/mod.rs:34-36 | the player is appended after the earlier entries |
| Items.ItemUses.Read | src/items/mod.rs:30-32 | draining yields every entry in push order and leaves the buffer empty |
| Items.PushThenRead | src/items/mod.rs:29-36 | draining after a series of pushes yields exactly the pushed players in order |
| Chat.StripPrefix | src/chat.rs:40-48 | `strip_prefix` succeeds exactly when the text starts with the prefix and returns the rest |
| Chat.Classify | src/chat.rs:39-55 | text is said exactly when it does not start with `/` |
| Chat.TimeCommand | src/chat.rs:40-47 | `/time` followed by sunrise, noon, sunset or midnight selects that setter; any other argument is unrecognised and does nothing |
| Chat.GameModeCommand | src/chat.rs:48-53 | `/gamemode 0` gives Survival and `/gamemode 1` Creative; any other argument is unrecognised and does nothing |
| Chat.Handle | src/chat.rs:28-63 | one message never adds or removes players from the game-mode map |
| Chat.HandleChatMessages | src/chat.rs:22-65 | the clock, the game modes and the updates sent are those of handling the messages in order |
| Chat.IgnoredMessage | src/chat.rs:29-36 | input for another interface, or from a non-player, changes nothing |
| Chat.OnlySaidTextIsSent | src/chat.rs:39-62 | every update sent is the history line of some message said by a player; commands are never broadcast |
| Chat.SaidTextIsBroadcast | src/chat.rs:56-62 | said text is added to the history as the player's bracketed name and the text, with nothing else changing |
| Chat.SendConnectionMessages | src/chat.rs:71-99 | exactly one history line is sent per connection event, in order |
| Chat.ConnectionTextNamesPlayer | src/chat.rs:83-93 | the announcement starts with the player's name, and joining and leaving read differently |
| Players.Hotbar.constructor | src/players/mod.rs:62-69 | a new hotbar has nine empty slots, and the first is in hand |
| Players.Hotbar.HeldItemStack | src/players/mod.rs:72-74 | the held stack is one of the hotbar's slots |
| Players.Hotbar.SetHeldItemStack | src/players/mod.rs:76-79 | only the equipped slot changes; every other slot and the index are kept |
| Players.FindSpawn | src/players/mod.rs:277-296 | an air chunk spawns the player at its origin; otherwise the first pair of consecutive air blocks, in storage order, gives the spawn, and `None` means no such pair exists |
| Players.SpawnBetweenAir | src/players/mod.rs:282-291 | the spawn block and the block above it are air in the same column |
| Players.Switch | src/players/mod.rs:342-362 | the recorded plugin, if any, is disabled before the new mode's plugin is enabled |
| Players.MovementPlugins.constructor | src/players/mod.rs:339 | no plugin is recorded at first |
| Players.MovementPlugins.OnGameModeUpdate | src/players/mod.rs:336-364 | the record and the messages are those of applying the game-mode changes in order |
| Players.SecondSwitchDisablesFirst | src/players/mod.rs:342-362 | a second change disables exactly the plugin the first enabled and records the new one |
| HotbarInterface.InitializeInterface | src/players/hotbar.rs:20-30 | every new player receives exactly one update making the hotbar visible |
| HotbarInterface.ItemBoxes | src/players/hotbar.rs:34-48 | one box per slot, in slot order: empty for an empty slot, otherwise the item id and the stack size |
| HotbarInterface.SendServerUpdates | src/players/hotbar.rs:32-52 | each changed hotbar's player receives boxes that describe its slots |
| HotbarInterface.EquipItem | src/players/hotbar.rs:53-71 | events are handled in order until one for another interface; an index above 8 disconnects the player, any other is equipped, and the slots are untouched |
| HotbarInterface.EquippedStaysInRange | src/players/hotbar.rs:63-69 | the equipped slot always stays within the nine slots |
| HotbarInterface.ForeignEventEndsBatch | src/players/hotbar.rs:59-61 | nothing after an event for another interface is handled |
| HotbarInterface.SingleEquipEvent | src/players/hotbar.rs:63-69 | a refused index disconnects and changes nothing; an accepted one equips exactly that slot |
| Hand.BlockPlacement | src/players/hand.rs:628-673 | placement needs a solid block and an item bound to a placeable block; it goes into the target when that is replaceable, otherwise into the loaded, replaceable neighbour on the clicked face, and every such case does place |
| Hand.HandInteractions.constructor | src/players/hand.rs:37-40 | a new interaction buffer is empty |
| Hand.HandInteractions.Read | src/players/hand.rs:43-45 | draining yields every player in order and empties the buffer |
| Hand.HandInteractions.Push | src/players/hand.rs:47-49 | the player is appended after the earlier entries |
| Hand.FirstInteractable | src/players/hand.rs:511-522 | `None` exactly when no target has an entity with `HandInteractions`; otherwise the entity of the first target that has one, whether the target is an entity or a block |
| Hand.FirstHardBlock | src/players/hand.rs:528-538 | a targeted block that has hardness with no hard block target before it, and `None` exactly when there is none |
| Hand.Decide | src/players/hand.rs:507-622 | interact exactly when an entity is first, else place a block exactly when a placement exists, else use the item exactly when it is registered |
| Hand.HandleRightClick | src/players/hand.rs:479-626 | a block update and one item taken from the held stack exactly when a block is placed; the player is pushed to exactly the interacted entity, or to the used item's buffer; nothing else changes |
| Hand.FirstInteractableIsFirst | src/players/hand.rs:511-522 | the entity found is that of the first target whose entity is interactable |
| DroppedItems.HasCapacity | src/items/dropped_items.rs:108-120 | the capacity loop answers true exactly when some slot has room for the dropped item |
| DroppedItems.StepFacts | src/items/dropped_items.rs:124-126 | one slot transfer conserves items, leaves an ineligible slot alone and fills an eligible one unless the drop runs out |
| DroppedItems.FillConserves | src/items/dropped_items.rs:123-147 | a fill pass conserves the total item count and keeps every stack valid |
| DroppedItems.FillEffect | src/items/dropped_items.rs:123-147 | a fill pass leaves ineligible slots alone; while items remain, each eligible slot ends full of the dropped item |
| DroppedItems.FillNoProgress | src/items/dropped_items.rs:123-147 | a pass that moves no item found every eligible slot already full |
| DroppedItems.FillSlots | src/items/dropped_items.rs:123-131 | the slot loop computes the fill pass on the hotbar and keeps the equipped index |
| DroppedItems.PickUpItem | src/items/dropped_items.rs:105-152 | without room nothing changes; otherwise same-item slots are filled first, then empty slots |
| DroppedItems.PickUpConserves | src/items/dropped_items.rs:105-152 | picking up one stack conserves items and keeps every stack valid |
| DroppedItems.PickUpKeepsOtherItems | src/items/dropped_items.rs:123-147 | slots holding another item are never changed |
| DroppedItems.PickUpLeavesOnlyWhenFull | src/items/dropped_items.rs:122-152 | items stay on the ground only when every slot is occupied and every same-item slot is full |
| DroppedItems.PickUpProgress | src/items/dropped_items.rs:105-120 | items are picked up exactly when the hotbar has room, and then a non-empty drop shrinks |
| DroppedItems.PickUpItems | src/items/dropped_items.rs:98-155 | the item loop updates the hotbar, the dropped stacks and the despawn list as the pickup scan does |
| DroppedItems.PickUpFromConserves | src/items/dropped_items.rs:98-155 | the scan conserves the items of the hotbar and the ground together |
| DroppedItems.PickUpFromKeepsFarItems | src/items/dropped_items.rs:100-104 | stacks that are not near the player stay as they were |
| DroppedItems.PickUpFromDespawns | src/items/dropped_items.rs:133-136 | the despawn list only grows, by indices of near stacks the scan left empty, each once and in increasing order |
| DroppedItems.PickUpFromDespawnsEmptied | src/items/dropped_items.rs:133-136 | conversely, every stack that the scan empties has its index in the despawn list |

## Left out

- Noise sampling and `Earth::new` (src/world/terrain_generation.rs:64-190) are not modelled. The noise library is outside the repository, so the lattice of terrain-shape samples is an input.
- The float arithmetic that compresses the samples (src/world/terrain_generation.rs:222-246) is not modelled. Only its index layout is.
- Floating-point rounding is not modelled. Densities are exact reals.
- `carve_caves` is not modelled, because nothing calls it.
- Biomes, blueprints and the random generator are not modelled. The biome is its block ids, and the feature pass is the `features` parameter applied to the seed and the terrain.
- ServerSettings: the `DefaultHasher` of the world seed is a parameter; the std hash is not reproduced.
- ServerSettings.Load: opening the file is its `file` parameter, and the default file is returned instead of written. The panics on an unknown setting, a missing `=` or a bad value become `Err` values. The panic of `line.unwrap()` (src/settings.rs:53) on a read error or invalid UTF-8 is not modelled, since the file is given as already decoded text, and neither is the panic of the `unwrap` on writing the default file (src/settings.rs:105).
- Networking is not modelled. Sending a message means being returned in a sequence.
- The sky-angle message, sounds, particles and item models are not modelled.
- Skybox.Clock.Tick: `Duration` overflow after about 584 years is not modelled.
- Players.FindSpawn models the search within one chunk. The search ends at the latest at the first chunk above the height cap, which generation makes uniform air (src/world/terrain_generation.rs:31-33) and which then ends the loop (src/players/mod.rs:277-278), provided no edit has changed that chunk. The loop over chunks is not modelled.
- Hand.HandleRightClick models one click by one player. The loop over the frame's clicks is not modelled.
- Hand.HandleRightClick requires every registered item's entity to have `ItemUses`, because the source unwraps that lookup.
- Hand.BlockPlacement: the rotation (`block_state`) of a placed block is not modelled.
- Hand.BlockPlacement: the overlap test with entities is not modelled. Its `continue` only moves on to the next entity, so it never blocks placement.
- `get_first_block`, `transfer_to`, `take`, `is_empty` and `remaining_capacity` come from the fmc library, which is outside the repository. The first three are modelled by the contracts that `FirstHardBlock`, `Items.Transfer` and `Items.Take` assume; the last two by the definitions `Items.IsEmpty` (size 0) and `Items.RemainingCapacity` (capacity minus size).
- A uniform chunk of fmc stores a single block, so `chunks_exact(Chunk::SIZE)` (src/players/mod.rs:282) yields no column of it. Players.FindSpawn relies on this layout, which is assumed: a uniform chunk that is not air gives `None`.
- `BlockPosition::from(usize)` also comes from the fmc library. The chunk layout `x * 256 + z * 16 + y` it implies is assumed.
- Item equality is the item id.
- HotbarInterface.SendServerUpdates and Players.MovementPlugins.OnGameModeUpdate take the changed hotbars and game modes as parameters. Which writes mark a component changed is not modelled. In the code, `held_item_stack_mut` marks the hotbar changed on every place or use attempt (src/players/hand.rs:541, 610), so all of its boxes are sent again (src/players/hotbar.rs:32). Assigning the game mode a player already has (src/chat.rs:50-51) also marks it changed, so `on_gamemode_update` disables and re-enables the same plugin (src/players/mod.rs:338).
- Hand.Target: the optional block entity of a block target is a field of the target, looked up by the ray cast that is not part of this model.
- FeatureSeed.Pack: the bitwise or of the shifted x and the z bits is written as an addition, since the shifted value has its low 32 bits clear; that equality of or and addition on u64 is not proved.
- Item properties in the hotbar boxes are not modelled: durability and description.
- HotbarInterface.EquipItem requires every event's player to have a hotbar, because the source unwraps that lookup.
- Chat.SendConnectionMessages requires every event's entity to have a username, because the source unwraps that lookup.
- DroppedItems.PickUpItems models one player picking up the near stacks of one chunk. A stack emptied by one player is despawned immediately; the source defers despawning when several players pick up in the same frame.
- DroppedItems: item velocity, scale and `manage_item_models` are not modelled. They are floats and rendering.
