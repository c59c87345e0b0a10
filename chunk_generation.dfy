/** `generate_chunk` of the `Earth` terrain generator (src/world/terrain_generation.rs:27-58):
    the height cap, terrain generation, collapsing an all-air result and the feature pass. */
module ChunkGeneration {
  import opened TerrainLayout
  import opened Interpolation
  import opened Materializer
  import opened FeatureSeed

  datatype ChunkPosition = ChunkPosition(x: int, y: int, z: int)

  /** A chunk is stored either as one block repeated or as its dense block array. */
  datatype Chunk = Uniform(block: BlockId) | Dense(blocks: seq<BlockId>)

  predicate AllAir(blocks: seq<BlockId>, air: BlockId) {
    forall i :: 0 <= i < |blocks| ==> blocks[i] == air
  }

  /** The early-exit uniformity loop of `generate_chunk`. */
  method IsUniformAir(blocks: seq<BlockId>, air: BlockId) returns (uniform: bool)
    ensures uniform <==> AllAir(blocks, air)
  {
    uniform := true;
    var i := 0;
    while i < |blocks|
      invariant 0 <= i <= |blocks|
      invariant uniform && forall j :: 0 <= j < i ==> blocks[j] == air
    {
      if blocks[i] != air {
        uniform := false;
        break;
      }
      i := i + 1;
    }
  }

  /** The blocks `generate_terrain` produces from the compressed lattice of terrain-shape
      samples: interpolation followed by the column materializer. */
  function Terrain(lattice: seq<real>, chunkY: int, biome: Biome): (blocks: seq<BlockId>)
    requires |lattice| == LATTICE_LEN
    ensures |blocks| == CHUNK_LEN
  {
    TerrainBlocks(InterpolatedVolume(lattice), chunkY, biome)
  }

  /** The chunk `generate_chunk` returns. `features` stands for the biome's blueprints applied
      with a random generator seeded by the chunk's feature seed. */
  function Generated(lattice: seq<real>, pos: ChunkPosition, biome: Biome, air: BlockId, worldSeed: U64,
                     features: (nat, seq<BlockId>) -> seq<BlockId>): Chunk
    requires |lattice| == LATTICE_LEN
  {
    if MAX_HEIGHT < pos.y then Uniform(air)
    else
      var blocks := Terrain(lattice, pos.y, biome);
      if AllAir(blocks, air) then Uniform(air)
      else Dense(features(ChunkSeed(pos.x, pos.z, worldSeed), blocks))
  }

  method GenerateTerrain(lattice: seq<real>, chunkY: int, biome: Biome) returns (blocks: seq<BlockId>)
    requires |lattice| == LATTICE_LEN
    ensures blocks == Terrain(lattice, chunkY, biome)
  {
    var volume := Interpolate(lattice);
    blocks := Materialize(volume, chunkY, biome);
  }

  method GenerateChunk(lattice: seq<real>, pos: ChunkPosition, biome: Biome, air: BlockId, worldSeed: U64,
                       features: (nat, seq<BlockId>) -> seq<BlockId>) returns (chunk: Chunk)
    requires |lattice| == LATTICE_LEN
    ensures chunk == Generated(lattice, pos, biome, air, worldSeed, features)
  {
    if MAX_HEIGHT < pos.y {
      // Guaranteed to be air: nothing is generated.
      return Uniform(air);
    }
    var blocks := GenerateTerrain(lattice, pos.y, biome);
    var uniform := IsUniformAir(blocks, air);
    if uniform {
      return Uniform(air);
    }
    var seed := ChunkSeed(pos.x, pos.z, worldSeed);
    chunk := Dense(features(seed, blocks));
  }

  /** A chunk is collapsed to uniform air exactly when it lies above the height cap or its
      terrain is all air; features run (on the terrain, with the chunk's seed) exactly when
      neither holds. */
  lemma DispatchCases(lattice: seq<real>, pos: ChunkPosition, biome: Biome, air: BlockId, worldSeed: U64,
                      features: (nat, seq<BlockId>) -> seq<BlockId>)
    requires |lattice| == LATTICE_LEN
    ensures var chunk := Generated(lattice, pos, biome, air, worldSeed, features);
      && (chunk == Uniform(air) <==> MAX_HEIGHT < pos.y || AllAir(Terrain(lattice, pos.y, biome), air))
      && (chunk.Dense? <==>
            pos.y <= MAX_HEIGHT && exists i :: 0 <= i < CHUNK_LEN && Terrain(lattice, pos.y, biome)[i] != air)
      && (chunk.Dense? ==> chunk.blocks == features(ChunkSeed(pos.x, pos.z, worldSeed), Terrain(lattice, pos.y, biome)))
  {
  }

  /** A chunk above world height 0 whose terrain samples are all at most 0 is uniform air
      (given that the biome's air is the registry's air), so no features run on it. */
  lemma {:induction false} EmptyChunkIsAir(lattice: seq<real>, pos: ChunkPosition, biome: Biome, air: BlockId,
                                           worldSeed: U64, features: (nat, seq<BlockId>) -> seq<BlockId>)
    requires |lattice| == LATTICE_LEN && pos.y >= 1 && biome.air == air
    requires forall i :: 0 <= i < LATTICE_LEN ==> lattice[i] <= 0.0
    ensures Generated(lattice, pos, biome, air, worldSeed, features) == Uniform(air)
  {
    VolumeSign(lattice, true);
    AirAboveGround(InterpolatedVolume(lattice), pos.y, biome);
  }

  /** A chunk at or below the height cap whose terrain samples are all positive is dense and
      gets its features, provided no solid layer of the biome is the air block. */
  lemma {:induction false} SolidChunkIsDense(lattice: seq<real>, pos: ChunkPosition, biome: Biome, air: BlockId,
                                             worldSeed: U64, features: (nat, seq<BlockId>) -> seq<BlockId>)
    requires |lattice| == LATTICE_LEN && pos.y <= MAX_HEIGHT
    requires air !in {biome.topLayerBlock, biome.midLayerBlock, biome.bottomLayerBlock, biome.sand}
    requires forall i :: 0 <= i < LATTICE_LEN ==> lattice[i] > 0.0
    ensures Generated(lattice, pos, biome, air, worldSeed, features) ==
      Dense(features(ChunkSeed(pos.x, pos.z, worldSeed), Terrain(lattice, pos.y, biome)))
  {
    VolumeSign(lattice, false);
    SolidWherePositive(InterpolatedVolume(lattice), pos.y, biome);
    assert Terrain(lattice, pos.y, biome)[0] != air;
  }
}
