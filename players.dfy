/** Players (src/players/mod.rs): game mode, the hotbar, the respawn search and the
    movement-plugin switch. */
module Players {
  import opened Wrappers
  import opened Items
  import opened TerrainLayout
  import ChunkGeneration
  import Materializer

  datatype GameMode = Survival | Creative

  const HOTBAR_SLOTS: nat := 9

  /** `Hotbar`: the player's item slots and the index of the one in hand. */
  class Hotbar {
    var items: seq<ItemStack>
    var equippedItem: nat

    /** `Hotbar::default()`: nine empty slots, the first one in hand. */
    constructor ()
      ensures |items| == HOTBAR_SLOTS && equippedItem == 0
      ensures forall i :: 0 <= i < |items| ==> items[i] == EmptyStack()
    {
      items := seq(HOTBAR_SLOTS, _ => EmptyStack());
      equippedItem := 0;
    }

    predicate EquippedInRange()
      reads this
    {
      equippedItem < |items|
    }

    /** `held_item_stack`: the stack in the equipped slot. */
    function HeldItemStack(): (s: ItemStack)
      reads this
      requires EquippedInRange()
      ensures s in items
    {
      items[equippedItem]
    }

    /** Writing through `held_item_stack_mut`: the equipped slot gets `s`, every other slot and
        the equipped index stay as they were. */
    method SetHeldItemStack(s: ItemStack)
      requires EquippedInRange()
      modifies this
      ensures equippedItem == old(equippedItem) && |items| == |old(items)|
      ensures items[equippedItem] == s
      ensures forall i :: 0 <= i < |items| && i != equippedItem ==> items[i] == old(items)[i]
    {
      items := items[equippedItem := s];
    }
  }

  /** A block position in world coordinates (fmc's `BlockPosition`). */
  datatype BlockPosition = BlockPosition(x: int, y: int, z: int)

  function ChunkOrigin(position: ChunkGeneration.ChunkPosition): BlockPosition {
    BlockPosition(position.x, position.y, position.z)
  }

  /** Blocks `j - 1` and `j` of column `i` (the `i`-th run of 16 consecutive blocks) are
      both air. */
  predicate AirPair(blocks: seq<Materializer.BlockId>, air: Materializer.BlockId, i: nat, j: nat)
    requires |blocks| == CHUNK_LEN && i < 256 && j < SIZE
  {
    1 <= j && blocks[i * 16 + j - 1] == air && blocks[i * 16 + j] == air
  }

  /** No air pair comes before column `i`, or before row `j` within it. */
  predicate NoAirPairBefore(blocks: seq<Materializer.BlockId>, air: Materializer.BlockId, i: nat, j: nat)
    requires |blocks| == CHUNK_LEN && i <= 256 && j <= SIZE
  {
    && (forall i', j' :: 0 <= i' < i && 0 <= j' < SIZE ==> !AirPair(blocks, air, i', j'))
    && (i < 256 ==> forall j' :: 0 <= j' < j ==> !AirPair(blocks, air, i, j'))
  }

  /** The spawn for an air pair found at column `i`, row `j`: the lower of the two blocks. */
  function SpawnAt(position: ChunkGeneration.ChunkPosition, i: nat, j: nat): BlockPosition
    requires i < 256 && j < SIZE
  {
    var c := ChunkCell(i * 16 + j);
    BlockPosition(position.x + c.x, position.y + c.y - 1, position.z + c.z)
  }

  /** The search of `respawn_players` in one loaded chunk: an air chunk spawns the player at
      its origin; otherwise the first column (in storage order) holding two consecutive air
      blocks, and the first such pair in it, gives the spawn. `None` sends the search to the
      chunk above. */
  method FindSpawn(chunk: ChunkGeneration.Chunk, position: ChunkGeneration.ChunkPosition, air: Materializer.BlockId)
    returns (spawn: Option<BlockPosition>)
    requires chunk.Dense? ==> |chunk.blocks| == CHUNK_LEN
    ensures chunk.Uniform? ==> spawn == if chunk.block == air then Some(ChunkOrigin(position)) else None
    ensures chunk.Dense? && spawn.None? ==> NoAirPairBefore(chunk.blocks, air, 256, 0)
    ensures chunk.Dense? && spawn.Some? ==>
      exists i, j :: 0 <= i < 256 && 0 <= j < SIZE && AirPair(chunk.blocks, air, i, j) &&
        NoAirPairBefore(chunk.blocks, air, i, j) && spawn.value == SpawnAt(position, i, j)
  {
    if chunk.Uniform? {
      // A uniform chunk stores a single block, so it has no full column to scan.
      if chunk.block == air {
        return Some(ChunkOrigin(position));
      }
      return None;
    }
    var blocks := chunk.blocks;
    var i := 0;
    while i < 256
      invariant i <= 256
      invariant NoAirPairBefore(blocks, air, i, 0)
    {
      var count := 0;
      var j := 0;
      while j < SIZE
        invariant j <= SIZE
        invariant NoAirPairBefore(blocks, air, i, j)
        invariant count == 1 <==> 1 <= j && blocks[i * 16 + j - 1] == air
        invariant count == 0 || count == 1
      {
        var block := blocks[i * 16 + j];
        if count == 0 && block == air {
          count := count + 1;
        } else if count == 1 && block == air {
          assert AirPair(blocks, air, i, j);
          return Some(SpawnAt(position, i, j));
        } else {
          count := 0;
        }
        j := j + 1;
      }
      i := i + 1;
    }
    return None;
  }

  /** The spawn lies in the scanned column, one row below the second air block, so the
      spawn block and the block above it are air and belong to the same column. */
  lemma SpawnBetweenAir(blocks: seq<Materializer.BlockId>, air: Materializer.BlockId, position: ChunkGeneration.ChunkPosition, i: nat, j: nat)
    requires |blocks| == CHUNK_LEN && i < 256 && j < SIZE && AirPair(blocks, air, i, j)
    ensures var s := SpawnAt(position, i, j);
      var x, z := s.x - position.x, s.z - position.z;
      && 0 <= x < SIZE && 0 <= z < SIZE && s.y - position.y == j - 1
      && blocks[ChunkIndex(x, j - 1, z)] == air && blocks[ChunkIndex(x, j, z)] == air
  {
    var k := i * 16 + j;
    var c := ChunkCell(k);
    assert c.y == j && c.x * 256 + c.z * 16 == i * 16 by {
      assert ChunkIndex(c.x, c.y, c.z) == k;
    }
    assert ChunkIndex(c.x, j - 1, c.z) == k - 1 && ChunkIndex(c.x, j, c.z) == k;
  }

  datatype PluginMessage = Enable(name: string) | Disable(name: string)

  /** The client plugin that moves a player in each game mode. */
  function MovementPlugin(mode: GameMode): string {
    match mode
      case Creative => "creative"
      case Survival => "movement"
  }

  /** The messages for one game-mode change of `player`: the recorded plugin, if any, is
      disabled before the new one is enabled. */
  function Switch(player: Entity, recorded: Option<string>, mode: GameMode): (msgs: seq<(Entity, PluginMessage)>)
    ensures |msgs| == if recorded.Some? then 2 else 1
    ensures msgs[|msgs| - 1] == (player, Enable(MovementPlugin(mode)))
    ensures recorded.Some? ==> msgs[0] == (player, Disable(recorded.value))
  {
    (if recorded.Some? then [(player, Disable(recorded.value))] else []) + [(player, Enable(MovementPlugin(mode)))]
  }

  /** The effect of the changed game modes, in order, on the recorded plugins, and the
      messages sent. */
  function SwitchAll(recorded: map<Entity, Option<string>>, changed: seq<(Entity, GameMode)>)
    : (map<Entity, Option<string>>, seq<(Entity, PluginMessage)>)
  {
    if changed == [] then (recorded, [])
    else
      var (before, sent) := SwitchAll(recorded, changed[..|changed| - 1]);
      var (player, mode) := changed[|changed| - 1];
      var previous := if player in before then before[player] else None;
      (before[player := Some(MovementPlugin(mode))], sent + Switch(player, previous, mode))
  }

  /** The `Local` map of `on_gamemode_update`: the movement plugin last enabled for each
      player. */
  class MovementPlugins {
    var recorded: map<Entity, Option<string>>

    constructor ()
      ensures recorded == map[]
    {
      recorded := map[];
    }

    /** `on_gamemode_update` for the players whose game mode changed; returns the plugin
        messages sent, with their recipients. */
    method OnGameModeUpdate(changed: seq<(Entity, GameMode)>) returns (sent: seq<(Entity, PluginMessage)>)
      modifies this
      ensures (recorded, sent) == SwitchAll(old(recorded), changed)
    {
      sent := [];
      var i := 0;
      while i < |changed|
        invariant i <= |changed|
        invariant (recorded, sent) == SwitchAll(old(recorded), changed[..i])
      {
        var (player, mode) := changed[i];
        assert changed[..i + 1][..i] == changed[..i];
        ghost var sentBefore, recordedBefore := sent, recorded;
        ghost var msgs := Switch(player, if player in recorded then recorded[player] else None, mode);
        if player !in recorded {
          recorded := recorded[player := None];
        }
        var current := recorded[player];
        recorded := recorded[player := None];
        if current.Some? {
          sent := sent + [(player, Disable(current.value))];
        }
        var name := MovementPlugin(mode);
        sent := sent + [(player, Enable(name))];
        recorded := recorded[player := Some(name)];
        assert sent == sentBefore + msgs;
        assert recorded == recordedBefore[player := Some(MovementPlugin(mode))];
        i := i + 1;
      }
      assert changed[..|changed|] == changed;
    }
  }

  /** Two changes in a row for one player: the second disables exactly the plugin the first
      enabled, then enables its own. */
  lemma SecondSwitchDisablesFirst(recorded: map<Entity, Option<string>>, player: Entity, first: GameMode, second: GameMode)
    ensures var (after, sent) := SwitchAll(recorded, [(player, first), (player, second)]);
      && after[player] == Some(MovementPlugin(second))
      && |sent| >= 2 && sent[|sent| - 2..] == [(player, Disable(MovementPlugin(first))), (player, Enable(MovementPlugin(second)))]
  {
    var changed := [(player, first), (player, second)];
    assert changed[..1] == [(player, first)];
  }
}
