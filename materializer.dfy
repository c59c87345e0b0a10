/** The column materializer of `generate_terrain` (src/world/terrain_generation.rs:250-312):
    turns the sign of each interpolated density into a biome block, threading a `layer`
    depth counter down each column. */
module Materializer {
  import opened TerrainLayout

  type BlockId = nat

  /** The layer role a cell is given; the biome maps each role to a block id. */
  datatype Role = Top | Mid | Bottom | Sand | SurfaceLiquid | SubSurfaceLiquid | Air {
    predicate IsSolid() { this in {Top, Mid, Bottom, Sand} }
    predicate IsLiquid() { this == SurfaceLiquid || this == SubSurfaceLiquid }
  }

  /** The block ids of a biome (the external biome table supplies them). */
  datatype Biome = Biome(
    topLayerBlock: BlockId,
    midLayerBlock: BlockId,
    bottomLayerBlock: BlockId,
    sand: BlockId,
    surfaceLiquid: BlockId,
    subSurfaceLiquid: BlockId,
    air: BlockId)

  function BlockOf(biome: Biome, role: Role): BlockId {
    match role
    case Top => biome.topLayerBlock
    case Mid => biome.midLayerBlock
    case Bottom => biome.bottomLayerBlock
    case Sand => biome.sand
    case SurfaceLiquid => biome.surfaceLiquid
    case SubSurfaceLiquid => biome.subSurfaceLiquid
    case Air => biome.air
  }

  /** The role of one cell of the downward scan reached with depth counter `layer`. */
  function Classify(density: real, height: int, layer: nat): Role {
    if density <= 0.0 then
      if height == 0 then SurfaceLiquid
      else if height < 0 then SubSurfaceLiquid
      else Air
    else if layer > 3 then Bottom
    else if height < 2 then Sand
    else if layer < 1 then Top
    else if layer < 3 then Mid
    else Bottom
  }

  /** The depth counter the scan carries to the cell below: 1 after liquid, 0 after air, one
      more after a solid cell. */
  function NextLayer(density: real, height: int, layer: nat): nat {
    if density <= 0.0 then (if height <= 0 then 1 else 0) else layer + 1
  }

  /** The halo pre-scan from `y` upward: counts solid cells until the first non-solid one,
      which resets the counter to 1 when it lies at or below world height 0. */
  function PreScan(column: seq<real>, chunkY: int, y: nat, layer: nat): nat
    requires |column| == CHUNK_HEIGHT
    decreases CHUNK_HEIGHT - y
  {
    if y >= CHUNK_HEIGHT then layer
    else if column[y] <= 0.0 then (if chunkY + y <= 0 then 1 else layer)
    else PreScan(column, chunkY, y + 1, layer + 1)
  }

  /** The depth the first cell of the chunk starts with. */
  function InitialLayer(column: seq<real>, chunkY: int): nat
    requires |column| == CHUNK_HEIGHT
  {
    PreScan(column, chunkY, SIZE, 0)
  }

  /** Number of consecutive solid cells from `y` upward, within the column. */
  function SolidRun(column: seq<real>, y: nat): (n: nat)
    requires |column| == CHUNK_HEIGHT
    ensures y + n <= CHUNK_HEIGHT || n == 0
    decreases CHUNK_HEIGHT - y
  {
    if y >= CHUNK_HEIGHT || column[y] <= 0.0 then 0 else 1 + SolidRun(column, y + 1)
  }

  /** The halo pre-scan yields the number of solid cells directly above the chunk (at most 8),
      or 1 when the first non-solid cell above them is at or below world height 0. */
  lemma {:induction false} PreScanCountsSolidRun(column: seq<real>, chunkY: int, y: nat, layer: nat)
    requires |column| == CHUNK_HEIGHT && y <= CHUNK_HEIGHT
    ensures SolidRun(column, y) <= CHUNK_HEIGHT - y
    ensures var run := SolidRun(column, y);
      PreScan(column, chunkY, y, layer) ==
        if y + run < CHUNK_HEIGHT && chunkY + y + run <= 0 then 1 else layer + run
    decreases CHUNK_HEIGHT - y
  {
    if y < CHUNK_HEIGHT && column[y] > 0.0 {
      PreScanCountsSolidRun(column, chunkY, y + 1, layer + 1);
    }
  }

  lemma InitialLayerMeaning(column: seq<real>, chunkY: int)
    requires |column| == CHUNK_HEIGHT
    ensures var run := SolidRun(column, SIZE);
      run <= 8 &&
      InitialLayer(column, chunkY) == if SIZE + run < CHUNK_HEIGHT && chunkY + SIZE + run <= 0 then 1 else run
  {
    PreScanCountsSolidRun(column, chunkY, SIZE, 0);
  }

  /** The counter with which the downward scan reaches cell y of the chunk when it reaches the
      top cell with `top`: below the top cell, whatever the cell above produced. */
  function LayerAt(column: seq<real>, chunkY: int, top: nat, y: nat): nat
    requires |column| == CHUNK_HEIGHT && y < SIZE
    decreases SIZE - y
  {
    if y == SIZE - 1 then top
    else NextLayer(column[y + 1], chunkY + y + 1, LayerAt(column, chunkY, top, y + 1))
  }

  /** The role of cell y of the chunk: its classification under the counter it is reached with. */
  function RoleAt(column: seq<real>, chunkY: int, top: nat, y: nat): Role
    requires |column| == CHUNK_HEIGHT && y < SIZE
  {
    Classify(column[y], chunkY + y, LayerAt(column, chunkY, top, y))
  }

  /** Liquid and air only where the density is not positive, and then exactly by world height:
      surface liquid at 0, sub-surface liquid below 0, air above 0. */
  lemma RoleBySign(column: seq<real>, chunkY: int, top: nat, y: nat)
    requires |column| == CHUNK_HEIGHT && y < SIZE
    ensures var role := RoleAt(column, chunkY, top, y);
      && (role == SurfaceLiquid <==> column[y] <= 0.0 && chunkY + y == 0)
      && (role == SubSurfaceLiquid <==> column[y] <= 0.0 && chunkY + y < 0)
      && (role == Air <==> column[y] <= 0.0 && chunkY + y > 0)
      && (role.IsSolid() <==> column[y] > 0.0)
  {
  }

  /** The role of a solid cell by depth: deeper than 3 is bottom (checked before sand); otherwise
      below world height 2 is sand; otherwise depth 0 is top, 1-2 mid, 3 bottom. */
  lemma SolidRoleByDepth(column: seq<real>, chunkY: int, top: nat, y: nat)
    requires |column| == CHUNK_HEIGHT && y < SIZE && column[y] > 0.0
    ensures var role := RoleAt(column, chunkY, top, y);
      var depth := LayerAt(column, chunkY, top, y);
      && (depth > 3 ==> role == Bottom)
      && (depth <= 3 && chunkY + y < 2 ==> role == Sand)
      && (depth <= 3 && chunkY + y >= 2 ==>
            role == (if depth == 0 then Top else if depth < 3 then Mid else Bottom))
  {
  }

  /** The counter below a cell: 0 after air, 1 after liquid, one more after a solid cell. */
  lemma LayerUpdate(column: seq<real>, chunkY: int, top: nat, y: nat)
    requires |column| == CHUNK_HEIGHT && 0 < y < SIZE
    ensures var role := RoleAt(column, chunkY, top, y);
      LayerAt(column, chunkY, top, y - 1) ==
        if role == Air then 0 else if role.IsLiquid() then 1 else LayerAt(column, chunkY, top, y) + 1
  {
  }

  /** Scanning down, a bottom block is followed by bottom blocks for the rest of its solid run. */
  lemma {:induction false} BottomContinuesDown(column: seq<real>, chunkY: int, top: nat, y: nat, y': nat)
    requires |column| == CHUNK_HEIGHT && y' < y < SIZE
    requires RoleAt(column, chunkY, top, y) == Bottom
    requires forall k :: y' <= k < y ==> column[k] > 0.0
    ensures RoleAt(column, chunkY, top, y') == Bottom
    decreases y - y'
  {
    assert column[y - 1] > 0.0;
    if y' < y - 1 {
      BottomContinuesDown(column, chunkY, top, y - 1, y');
    }
  }

  /** A top block starts its run: it is the top cell of the chunk, reached with counter 0, or
      the cell above it is air. In particular the solid cell below a liquid is never top. */
  lemma TopStartsRun(column: seq<real>, chunkY: int, top: nat, y: nat)
    requires |column| == CHUNK_HEIGHT && y < SIZE
    requires RoleAt(column, chunkY, top, y) == Top
    ensures (y == SIZE - 1 && top == 0) ||
      (y + 1 < SIZE && RoleAt(column, chunkY, top, y + 1) == Air)
  {
  }

  /** The solid cell directly below a liquid is sand: liquid leaves the counter at 1 and lies at
      or below world height 0. */
  lemma BelowLiquidIsSand(column: seq<real>, chunkY: int, top: nat, y: nat)
    requires |column| == CHUNK_HEIGHT && y + 1 < SIZE && column[y] > 0.0
    requires RoleAt(column, chunkY, top, y + 1).IsLiquid()
    ensures RoleAt(column, chunkY, top, y) == Sand
  {
  }

  /** Cells n .. SIZE-1 of the column starting at `base` of `blocks` hold their blocks. */
  ghost predicate Scanned(blocks: seq<BlockId>, base: nat, n: nat, column: seq<real>, chunkY: int, biome: Biome, top: nat)
    requires |column| == CHUNK_HEIGHT
  {
    base + SIZE <= |blocks| &&
    forall y :: n <= y < SIZE ==> blocks[base + y] == BlockOf(biome, RoleAt(column, chunkY, top, y))
  }

  /** Writing the block of cell n-1 extends the scanned part of the column by one cell. */
  lemma ScannedStep(blocks: seq<BlockId>, base: nat, n: nat, column: seq<real>, chunkY: int, biome: Biome, top: nat)
    requires |column| == CHUNK_HEIGHT && 0 < n <= SIZE
    requires Scanned(blocks, base, n, column, chunkY, biome, top)
    ensures Scanned(blocks[base + n - 1 := BlockOf(biome, RoleAt(column, chunkY, top, n - 1))],
      base, n - 1, column, chunkY, biome, top)
  {
  }

  /** The 24 densities of column (x, z) of the interpolated volume, indexed by y. */
  function ColumnOf(volume: seq<real>, x: nat, z: nat): (column: seq<real>)
    requires |volume| == VOLUME_LEN && x < SIZE && z < SIZE
    ensures |column| == CHUNK_HEIGHT
  {
    // The column's densities are stored contiguously, y fastest.
    volume[VolumeIndex(x, 0, z)..VolumeIndex(x, 0, z) + CHUNK_HEIGHT]
  }

  /** The block the materializer puts at chunk-local cell `c`. */
  function TerrainBlock(volume: seq<real>, chunkY: int, biome: Biome, c: Cell): BlockId
    requires |volume| == VOLUME_LEN && InChunk(c.x, c.y, c.z)
  {
    var column := ColumnOf(volume, c.x, c.z);
    BlockOf(biome, RoleAt(column, chunkY, InitialLayer(column, chunkY), c.y))
  }

  /** The dense block array the materializer produces. */
  function TerrainBlocks(volume: seq<real>, chunkY: int, biome: Biome): (blocks: seq<BlockId>)
    requires |volume| == VOLUME_LEN
    ensures |blocks| == CHUNK_LEN
  {
    seq(CHUNK_LEN, i requires 0 <= i < CHUNK_LEN => TerrainBlock(volume, chunkY, biome, ChunkCell(i)))
  }

  /** Where no density is positive and the chunk lies above world height 0, every block is the
      biome's air. */
  lemma AirAboveGround(volume: seq<real>, chunkY: int, biome: Biome)
    requires |volume| == VOLUME_LEN && chunkY >= 1
    requires forall i :: 0 <= i < VOLUME_LEN ==> volume[i] <= 0.0
    ensures forall i :: 0 <= i < CHUNK_LEN ==> TerrainBlocks(volume, chunkY, biome)[i] == biome.air
  {
    forall i | 0 <= i < CHUNK_LEN
      ensures TerrainBlocks(volume, chunkY, biome)[i] == biome.air
    {
      var c := ChunkCell(i);
      var column := ColumnOf(volume, c.x, c.z);
      assert column[c.y] == volume[VolumeIndex(c.x, c.y, c.z)];
    }
  }

  /** Where every density is positive, every block is one of the biome's solid layers. */
  lemma SolidWherePositive(volume: seq<real>, chunkY: int, biome: Biome)
    requires |volume| == VOLUME_LEN
    requires forall i :: 0 <= i < VOLUME_LEN ==> volume[i] > 0.0
    ensures forall i :: 0 <= i < CHUNK_LEN ==>
      TerrainBlocks(volume, chunkY, biome)[i] in {biome.topLayerBlock, biome.midLayerBlock, biome.bottomLayerBlock, biome.sand}
  {
    forall i | 0 <= i < CHUNK_LEN
      ensures TerrainBlocks(volume, chunkY, biome)[i] in
        {biome.topLayerBlock, biome.midLayerBlock, biome.bottomLayerBlock, biome.sand}
    {
      var c := ChunkCell(i);
      var column := ColumnOf(volume, c.x, c.z);
      assert column[c.y] == volume[VolumeIndex(c.x, c.y, c.z)];
    }
  }

  /** The halo pre-scan loop of `generate_terrain` for column (x, z). */
  method ScanHalo(volume: seq<real>, chunkY: int, x: nat, z: nat) returns (layer: nat)
    requires |volume| == VOLUME_LEN && x < SIZE && z < SIZE
    ensures layer == InitialLayer(ColumnOf(volume, x, z), chunkY)
  {
    ghost var column := ColumnOf(volume, x, z);
    layer := 0;
    var y: nat := SIZE;
    while y < CHUNK_HEIGHT
      invariant SIZE <= y <= CHUNK_HEIGHT
      invariant PreScan(column, chunkY, y, layer) == InitialLayer(column, chunkY)
    {
      var density := volume[VolumeIndex(x, y, z)];
      if density <= 0.0 {
        if chunkY + y <= 0 {
          // For water
          layer := 1;
        }
        return;
      } else {
        layer := layer + 1;
      }
      y := y + 1;
    }
  }

  /** One iteration of the x/z loops of `generate_terrain`: the halo pre-scan, then the
      top-down scan writing the 16 blocks of column (x, z). */
  method FillColumn(out: array<BlockId>, volume: seq<real>, chunkY: int, biome: Biome, x: nat, z: nat)
    requires out.Length == CHUNK_LEN && |volume| == VOLUME_LEN && x < SIZE && z < SIZE
    modifies out
    ensures forall i :: 0 <= i < CHUNK_LEN && !(ChunkIndex(x, 0, z) <= i < ChunkIndex(x, 0, z) + SIZE) ==>
      out[i] == old(out[i])
    ensures forall y {:trigger TerrainBlock(volume, chunkY, biome, Cell(x, y, z))} :: 0 <= y < SIZE ==>
      out[ChunkIndex(x, y, z)] == TerrainBlock(volume, chunkY, biome, Cell(x, y, z))
  {
    ghost var column := ColumnOf(volume, x, z);
    // Find how deep we are from above the chunk.
    var layer := ScanHalo(volume, chunkY, x, z);
    ghost var top := layer;

    var base := ChunkIndex(x, 0, z);
    var n: nat := SIZE;
    while n > 0
      invariant n <= SIZE
      invariant n > 0 ==> layer == LayerAt(column, chunkY, top, n - 1)
      invariant Scanned(out[..], base, n, column, chunkY, biome, top)
      invariant forall i :: 0 <= i < CHUNK_LEN && !(base + n <= i < base + SIZE) ==> out[i] == old(out[i])
    {
      var y := n - 1;
      var blockHeight := chunkY + y;
      var density := volume[VolumeIndex(x, y, z)];
      assert density == column[y] && layer == LayerAt(column, chunkY, top, y);
      var block := BlockOf(biome, Classify(density, blockHeight, layer));
      layer := NextLayer(density, blockHeight, layer);
      assert block == BlockOf(biome, RoleAt(column, chunkY, top, y));
      ghost var before := out[..];
      out[base + y] := block;
      assert out[..] == before[base + y := block];
      ScannedStep(before, base, n, column, chunkY, biome, top);
      n := y;
    }
    forall y | 0 <= y < SIZE
      ensures out[ChunkIndex(x, y, z)] == TerrainBlock(volume, chunkY, biome, Cell(x, y, z))
    {
      assert out[..][base + y] == BlockOf(biome, RoleAt(column, chunkY, top, y));
      assert ChunkIndex(x, y, z) == base + y;
    }
  }

  /** One iteration of the x loop of `generate_terrain`: the columns of slab x, in order of z. */
  method FillSlab(out: array<BlockId>, volume: seq<real>, chunkY: int, biome: Biome, x: nat)
    requires out.Length == CHUNK_LEN && |volume| == VOLUME_LEN && x < SIZE
    modifies out
    ensures forall i :: 0 <= i < CHUNK_LEN && !(ChunkIndex(x, 0, 0) <= i < ChunkIndex(x + 1, 0, 0)) ==>
      out[i] == old(out[i])
    ensures forall y: nat, z: nat {:trigger TerrainBlock(volume, chunkY, biome, Cell(x, y, z))} ::
      y < SIZE && z < SIZE ==>
      out[ChunkIndex(x, y, z)] == TerrainBlock(volume, chunkY, biome, Cell(x, y, z))
  {
    for z := 0 to SIZE
      invariant forall i :: 0 <= i < CHUNK_LEN && !(ChunkIndex(x, 0, 0) <= i < ChunkIndex(x, 0, z)) ==>
        out[i] == old(out[i])
      invariant forall y': nat, z': nat {:trigger TerrainBlock(volume, chunkY, biome, Cell(x, y', z'))} ::
        y' < SIZE && z' < z ==>
        out[ChunkIndex(x, y', z')] == TerrainBlock(volume, chunkY, biome, Cell(x, y', z'))
    {
      FillColumn(out, volume, chunkY, biome, x, z);
    }
  }

  /** The materializer loops of `generate_terrain` fill the dense chunk with `TerrainBlocks`. */
  method Materialize(volume: seq<real>, chunkY: int, biome: Biome) returns (blocks: seq<BlockId>)
    requires |volume| == VOLUME_LEN
    ensures blocks == TerrainBlocks(volume, chunkY, biome)
  {
    var out := new BlockId[CHUNK_LEN](_ => 0);
    for x := 0 to SIZE
      invariant forall x': nat, y': nat, z': nat {:trigger TerrainBlock(volume, chunkY, biome, Cell(x', y', z'))} ::
        x' < x && y' < SIZE && z' < SIZE ==>
        out[ChunkIndex(x', y', z')] == TerrainBlock(volume, chunkY, biome, Cell(x', y', z'))
    {
      FillSlab(out, volume, chunkY, biome, x);
    }
    blocks := out[..];
    forall i | 0 <= i < CHUNK_LEN
      ensures blocks[i] == TerrainBlocks(volume, chunkY, biome)[i]
    {
      var c := ChunkCell(i);
      assert out[ChunkIndex(c.x, c.y, c.z)] == TerrainBlock(volume, chunkY, biome, Cell(c.x, c.y, c.z));
    }
  }
}
