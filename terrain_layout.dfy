/** Constants and index layouts shared by the terrain generator (src/world/terrain_generation.rs):
    the coarse density lattice, the interpolated density volume and the chunk's block array. */
module TerrainLayout {
  /** `Chunk::SIZE`: edge length of a chunk. */
  const SIZE: nat := 16
  /** `CHUNK_HEIGHT`: the chunk's height plus the 8-block halo of density above it. */
  const CHUNK_HEIGHT: nat := SIZE + 8
  /** `MAX_HEIGHT`: chunks whose y coordinate is above this are never generated. */
  const MAX_HEIGHT: int := 120
  /** `WIDTH_FACTOR` and `HEIGHT_FACTOR`: blocks per lattice step horizontally and vertically. */
  const WIDTH_FACTOR: nat := 4
  const HEIGHT_FACTOR: nat := 8
  /** Lattice samples per horizontal axis and per column (`INTERPOLATION_WIDTH`/`_HEIGHT`). */
  const INTERPOLATION_WIDTH: nat := SIZE / WIDTH_FACTOR + 1
  const INTERPOLATION_HEIGHT: nat := SIZE / HEIGHT_FACTOR + 2
  /** Number of coarse lattice samples (5 x 4 x 5). */
  const LATTICE_LEN: nat := 100
  /** Number of interpolated densities (16 x 24 x 16). */
  const VOLUME_LEN: nat := 6144
  /** Number of blocks in a dense chunk (16 x 16 x 16). */
  const CHUNK_LEN: nat := 4096

  /** The lattice cells per axis that `interpolate` walks (its WIDTH, HEIGHT and DEPTH). */
  const WIDTH: nat := SIZE / 4
  const HEIGHT: nat := CHUNK_HEIGHT / 8
  const DEPTH: nat := SIZE / 4

  datatype Cell = Cell(x: nat, y: nat, z: nat)

  /** The lattice index used when the samples are compressed in `generate_terrain`. */
  function CompressionIndex(x: nat, y: nat, z: nat): nat {
    x * (INTERPOLATION_WIDTH * INTERPOLATION_HEIGHT) + z * INTERPOLATION_HEIGHT + y
  }

  /** The lattice index `index(x, y, z)` of `interpolate`, built from its own WIDTH/HEIGHT/DEPTH. */
  function LatticeIndex(x: nat, y: nat, z: nat): nat {
    x * (DEPTH + 1) * (HEIGHT + 1) + z * (HEIGHT + 1) + y
  }

  predicate InLattice(x: nat, y: nat, z: nat) {
    x < INTERPOLATION_WIDTH && y < INTERPOLATION_HEIGHT && z < INTERPOLATION_WIDTH
  }

  /** Where density (x, y, z) of the interpolated volume is stored; the same formula is used
      by `interpolate` when writing and by the materializer when reading. */
  function VolumeIndex(x: nat, y: nat, z: nat): nat {
    // SIZE * CHUNK_HEIGHT == 384, CHUNK_HEIGHT == 24
    x * 384 + z * 24 + y
  }

  predicate InVolume(x: nat, y: nat, z: nat) {
    x < SIZE && y < CHUNK_HEIGHT && z < SIZE
  }

  /** The cell stored at volume index `i`. */
  function VolumeCell(i: nat): (c: Cell)
    requires i < VOLUME_LEN
    ensures InVolume(c.x, c.y, c.z) && VolumeIndex(c.x, c.y, c.z) == i
  {
    var column := i % 384;
    Cell(i / 384, column % 24, column / 24)
  }

  /** Block (x, y, z) of a dense chunk; y varies fastest, so each run of SIZE consecutive
      blocks is one vertical column. */
  function ChunkIndex(x: nat, y: nat, z: nat): nat {
    // SIZE * SIZE == 256
    x * 256 + z * 16 + y
  }

  predicate InChunk(x: nat, y: nat, z: nat) {
    x < SIZE && y < SIZE && z < SIZE
  }

  /** The chunk-local block position of chunk index `i` (fmc's `BlockPosition::from(usize)`). */
  function ChunkCell(i: nat): (c: Cell)
    requires i < CHUNK_LEN
    ensures InChunk(c.x, c.y, c.z) && ChunkIndex(c.x, c.y, c.z) == i
  {
    var column := i % 256;
    Cell(i / 256, column % 16, column / 16)
  }

  /** The two lattice layouts agree, stay below 5*4*5 = 100, and are one-to-one. */
  lemma LatticeLayout(x: nat, y: nat, z: nat, x': nat, y': nat, z': nat)
    requires InLattice(x, y, z) && InLattice(x', y', z')
    ensures INTERPOLATION_WIDTH * INTERPOLATION_HEIGHT == (DEPTH + 1) * (HEIGHT + 1) == 20
    ensures INTERPOLATION_HEIGHT == HEIGHT + 1 == 4 && INTERPOLATION_WIDTH == WIDTH + 1 == DEPTH + 1
    ensures CompressionIndex(x, y, z) == LatticeIndex(x, y, z) < LATTICE_LEN == 100
    ensures LatticeIndex(x, y, z) == LatticeIndex(x', y', z') ==> x == x' && y == y' && z == z'
  {
  }

  /** The volume layout is a bijection between the 16 x 24 x 16 cells and [0, 6144). */
  lemma VolumeIndexBijective(x: nat, y: nat, z: nat)
    requires InVolume(x, y, z)
    ensures VolumeIndex(x, y, z) < VOLUME_LEN == 6144
    ensures VolumeCell(VolumeIndex(x, y, z)) == Cell(x, y, z)
  {
    var column := z * 24 + y;
    assert VolumeIndex(x, y, z) / 384 == x && VolumeIndex(x, y, z) % 384 == column;
    assert column / 24 == z && column % 24 == y;
  }

  /** The chunk layout is a bijection between the 16 x 16 x 16 cells and [0, 4096). */
  lemma ChunkIndexBijective(x: nat, y: nat, z: nat)
    requires InChunk(x, y, z)
    ensures ChunkIndex(x, y, z) < CHUNK_LEN == 4096
    ensures ChunkCell(ChunkIndex(x, y, z)) == Cell(x, y, z)
  {
    var column := z * 16 + y;
    assert ChunkIndex(x, y, z) / 256 == x && ChunkIndex(x, y, z) % 256 == column;
    assert column / 16 == z && column % 16 == y;
  }

  /** The blocks of column (x, z) are the SIZE consecutive indices starting at its y = 0 block. */
  lemma ColumnSpan(x: nat, z: nat, i: nat)
    requires x < SIZE && z < SIZE && i < CHUNK_LEN
    ensures ChunkCell(i).x == x && ChunkCell(i).z == z <==>
      ChunkIndex(x, 0, z) <= i < ChunkIndex(x, 0, z) + SIZE
  {
    var base := ChunkIndex(x, 0, z);
    if base <= i < base + SIZE {
      ChunkIndexBijective(x, i - base, z);
    }
  }
}
