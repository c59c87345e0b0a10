/** `interpolate` (src/world/terrain_generation.rs:382-444): reconstructs the 16 x 24 x 16
    density volume from the 5 x 4 x 5 lattice by stepping accumulators across each lattice cell.
    Densities are modelled as reals; f32 rounding is not modelled. */
module Interpolation {
  import opened TerrainLayout

  /** The value of an accumulator that starts at `start` and has been increased by `inc` `k` times. */
  function Ramp(start: real, inc: real, k: nat): real {
    start + (k as real) * inc
  }

  lemma RampNext(start: real, inc: real, k: nat)
    ensures Ramp(start, inc, k) + inc == Ramp(start, inc, k + 1)
  {
  }

  /** The coarse sample at lattice point (xn, yn, zn). */
  function Corner(noise: seq<real>, xn: nat, yn: nat, zn: nat): real
    requires |noise| == LATTICE_LEN && xn <= WIDTH && yn <= HEIGHT && zn <= DEPTH
  {
    noise[LatticeIndex(xn, yn, zn)]
  }

  /** The four edge accumulators of lattice cell (xn, yn, zn) after yi vertical steps. */
  function Edges(noise: seq<real>, xn: nat, yn: nat, zn: nat, yi: nat): (real, real, real, real)
    requires |noise| == LATTICE_LEN && xn < WIDTH && yn < HEIGHT && zn < DEPTH
  {
    var backLeft := Corner(noise, xn, yn, zn);
    var frontLeft := Corner(noise, xn, yn, zn + 1);
    var backRight := Corner(noise, xn + 1, yn, zn);
    var frontRight := Corner(noise, xn + 1, yn, zn + 1);
    (Ramp(backLeft, (Corner(noise, xn, yn + 1, zn) - backLeft) * 0.125, yi),
     Ramp(frontLeft, (Corner(noise, xn, yn + 1, zn + 1) - frontLeft) * 0.125, yi),
     Ramp(backRight, (Corner(noise, xn + 1, yn + 1, zn) - backRight) * 0.125, yi),
     Ramp(frontRight, (Corner(noise, xn + 1, yn + 1, zn + 1) - frontRight) * 0.125, yi))
  }

  /** The density `interpolate` stores for offset (xi, yi, zi) inside lattice cell (xn, yn, zn):
      the four vertical edges are ramped by 1/8 per block, then the back and front edges by 1/4
      per block along x, then the row by 1/4 per block along z. */
  function CellDensity(noise: seq<real>, xn: nat, yn: nat, zn: nat, xi: nat, yi: nat, zi: nat): real
    requires |noise| == LATTICE_LEN && xn < WIDTH && yn < HEIGHT && zn < DEPTH
  {
    var (bl, fl, br, fr) := Edges(noise, xn, yn, zn, yi);
    var back := Ramp(bl, (br - bl) * 0.25, xi);
    var front := Ramp(fl, (fr - fl) * 0.25, xi);
    Ramp(back, (front - back) * 0.25, zi)
  }


  /** The density of block (x, y, z) of the volume. */
  function Interpolated(noise: seq<real>, x: nat, y: nat, z: nat): real
    requires |noise| == LATTICE_LEN && InVolume(x, y, z)
  {
    CellDensity(noise, x / 4, y / 8, z / 4, x % 4, y % 8, z % 4)
  }

  /** The whole volume `interpolate` returns, in volume layout. */
  function InterpolatedVolume(noise: seq<real>): (volume: seq<real>)
    requires |noise| == LATTICE_LEN
    ensures |volume| == VOLUME_LEN
  {
    seq(VOLUME_LEN, i requires 0 <= i < VOLUME_LEN =>
      Interpolated(noise, VolumeCell(i).x, VolumeCell(i).y, VolumeCell(i).z))
  }

  /** Linear interpolation from `a` to `b` at fraction `t`. */
  function Lerp(a: real, b: real, t: real): real {
    a + t * (b - a)
  }

  /** Textbook trilinear interpolation of the eight corners of lattice cell (xn, yn, zn) at
      fractions xi/4, yi/8, zi/4: an independent reference for what `interpolate` computes. */
  function Trilinear(noise: seq<real>, xn: nat, yn: nat, zn: nat, xi: nat, yi: nat, zi: nat): real
    requires |noise| == LATTICE_LEN && xn < WIDTH && yn < HEIGHT && zn < DEPTH
  {
    var tx, ty, tz := xi as real / 4.0, yi as real / 8.0, zi as real / 4.0;
    var back := Lerp(Lerp(Corner(noise, xn, yn, zn), Corner(noise, xn, yn + 1, zn), ty),
                     Lerp(Corner(noise, xn + 1, yn, zn), Corner(noise, xn + 1, yn + 1, zn), ty), tx);
    var front := Lerp(Lerp(Corner(noise, xn, yn, zn + 1), Corner(noise, xn, yn + 1, zn + 1), ty),
                      Lerp(Corner(noise, xn + 1, yn, zn + 1), Corner(noise, xn + 1, yn + 1, zn + 1), ty), tx);
    Lerp(back, front, tz)
  }

  /** Stepping an accumulator k times by (b - a) / n lands at fraction k / n between a and b. */
  lemma RampIsLerp(a: real, b: real, k: nat, n: real)
    requires n > 0.0
    ensures Ramp(a, (b - a) * (1.0 / n), k) == Lerp(a, b, k as real / n)
  {
    calc {
      Ramp(a, (b - a) * (1.0 / n), k);
      a + (k as real) * ((b - a) * (1.0 / n));
      a + ((k as real) * (1.0 / n)) * (b - a);
      { assert (k as real) * (1.0 / n) == k as real / n; }
      Lerp(a, b, k as real / n);
    }
  }

  /** The incremental scheme of `interpolate` computes exactly trilinear interpolation. */
  lemma {:induction false} CellDensityIsTrilinear(noise: seq<real>, xn: nat, yn: nat, zn: nat, xi: nat, yi: nat, zi: nat)
    requires |noise| == LATTICE_LEN && xn < WIDTH && yn < HEIGHT && zn < DEPTH
    ensures CellDensity(noise, xn, yn, zn, xi, yi, zi) == Trilinear(noise, xn, yn, zn, xi, yi, zi)
  {
    var c000, c010 := Corner(noise, xn, yn, zn), Corner(noise, xn, yn + 1, zn);
    var c001, c011 := Corner(noise, xn, yn, zn + 1), Corner(noise, xn, yn + 1, zn + 1);
    var c100, c110 := Corner(noise, xn + 1, yn, zn), Corner(noise, xn + 1, yn + 1, zn);
    var c101, c111 := Corner(noise, xn + 1, yn, zn + 1), Corner(noise, xn + 1, yn + 1, zn + 1);
    RampIsLerp(c000, c010, yi, 8.0);
    RampIsLerp(c001, c011, yi, 8.0);
    RampIsLerp(c100, c110, yi, 8.0);
    RampIsLerp(c101, c111, yi, 8.0);
    var bl := Ramp(c000, (c010 - c000) * 0.125, yi);
    var fl := Ramp(c001, (c011 - c001) * 0.125, yi);
    var br := Ramp(c100, (c110 - c100) * 0.125, yi);
    var fr := Ramp(c101, (c111 - c101) * 0.125, yi);
    RampIsLerp(bl, br, xi, 4.0);
    RampIsLerp(fl, fr, xi, 4.0);
    var back := Ramp(bl, (br - bl) * 0.25, xi);
    var front := Ramp(fl, (fr - fl) * 0.25, xi);
    RampIsLerp(back, front, zi, 4.0);
  }

  /** At a lattice point the volume holds the coarse sample itself. */
  lemma InterpolatedAtLattice(noise: seq<real>, xn: nat, yn: nat, zn: nat)
    requires |noise| == LATTICE_LEN && xn < WIDTH && yn < HEIGHT && zn < DEPTH
    ensures InVolume(4 * xn, 8 * yn, 4 * zn)
    ensures Interpolated(noise, 4 * xn, 8 * yn, 4 * zn) == noise[LatticeIndex(xn, yn, zn)]
  {
    assert (4 * xn) / 4 == xn && (4 * xn) % 4 == 0;
    assert (8 * yn) / 8 == yn && (8 * yn) % 8 == 0;
    assert (4 * zn) / 4 == zn && (4 * zn) % 4 == 0;
    assert Interpolated(noise, 4 * xn, 8 * yn, 4 * zn) == CellDensity(noise, xn, yn, zn, 0, 0, 0);
  }

  /** Interpolation is continuous across lattice cells: ramping any edge for its full length
      reaches the sample at the far end, which the neighbouring cell starts from. */
  lemma {:induction false} CellEdgesMeet(noise: seq<real>, xn: nat, yn: nat, zn: nat)
    requires |noise| == LATTICE_LEN && xn < WIDTH && yn < HEIGHT && zn < DEPTH
    ensures CellDensity(noise, xn, yn, zn, 0, 8, 0) == Corner(noise, xn, yn + 1, zn)
    ensures CellDensity(noise, xn, yn, zn, 4, 0, 0) == Corner(noise, xn + 1, yn, zn)
    ensures CellDensity(noise, xn, yn, zn, 0, 0, 4) == Corner(noise, xn, yn, zn + 1)
  {
    CellDensityIsTrilinear(noise, xn, yn, zn, 0, 8, 0);
    CellDensityIsTrilinear(noise, xn, yn, zn, 4, 0, 0);
    CellDensityIsTrilinear(noise, xn, yn, zn, 0, 0, 4);
  }

  /** An accumulator stepped n times by (b - a) / n ends at b (n = 4 and n = 8 are the steps
      `interpolate` takes). */
  lemma RampEnds(a: real, b: real)
    ensures Ramp(a, (b - a) * 0.25, 0) == a && Ramp(a, (b - a) * 0.25, 4) == b
    ensures Ramp(a, (b - a) * 0.125, 8) == b
  {
  }

  /** Within a slice (fixed yi) the corners of rows z = 0 and z = 4 are ramped along x. */
  lemma {:induction false} CellDensitySlice(noise: seq<real>, xn: nat, yn: nat, zn: nat, xi: nat, yi: nat)
    requires |noise| == LATTICE_LEN && xn < WIDTH && yn < HEIGHT && zn < DEPTH
    ensures CellDensity(noise, xn, yn, zn, xi, yi, 0) ==
      Ramp(CellDensity(noise, xn, yn, zn, 0, yi, 0),
           (CellDensity(noise, xn, yn, zn, 4, yi, 0) - CellDensity(noise, xn, yn, zn, 0, yi, 0)) * 0.25, xi)
    ensures CellDensity(noise, xn, yn, zn, xi, yi, 4) ==
      Ramp(CellDensity(noise, xn, yn, zn, 0, yi, 4),
           (CellDensity(noise, xn, yn, zn, 4, yi, 4) - CellDensity(noise, xn, yn, zn, 0, yi, 4)) * 0.25, xi)
  {
    var (bl, fl, br, fr) := Edges(noise, xn, yn, zn, yi);
    var back, front := Ramp(bl, (br - bl) * 0.25, xi), Ramp(fl, (fr - fl) * 0.25, xi);
    assert CellDensity(noise, xn, yn, zn, xi, yi, 0) == back;
    assert CellDensity(noise, xn, yn, zn, 0, yi, 0) == bl;
    assert CellDensity(noise, xn, yn, zn, 4, yi, 0) == br by {
      RampEnds(bl, br);
    }
    assert CellDensity(noise, xn, yn, zn, xi, yi, 4) == front by {
      RampEnds(back, front);
    }
    assert CellDensity(noise, xn, yn, zn, 0, yi, 4) == fl by {
      RampEnds(bl, fl);
    }
    assert CellDensity(noise, xn, yn, zn, 4, yi, 4) == fr by {
      RampEnds(bl, br);
      RampEnds(fl, fr);
      RampEnds(br, fr);
    }
  }

  /** At x and z offsets 0 and 4 the density is the value of the matching edge accumulator. */
  lemma CellDensityEdges(noise: seq<real>, xn: nat, yn: nat, zn: nat, yi: nat)
    requires |noise| == LATTICE_LEN && xn < WIDTH && yn < HEIGHT && zn < DEPTH
    ensures var (bl, fl, br, fr) := Edges(noise, xn, yn, zn, yi);
      && CellDensity(noise, xn, yn, zn, 0, yi, 0) == bl
      && CellDensity(noise, xn, yn, zn, 0, yi, 4) == fl
      && CellDensity(noise, xn, yn, zn, 4, yi, 0) == br
      && CellDensity(noise, xn, yn, zn, 4, yi, 4) == fr
  {
  }

  /** The four vertical edges of a lattice cell start at their lower corners. */
  lemma CellDensityEdgesStart(noise: seq<real>, xn: nat, yn: nat, zn: nat)
    requires |noise| == LATTICE_LEN && xn < WIDTH && yn < HEIGHT && zn < DEPTH
    ensures CellDensity(noise, xn, yn, zn, 0, 0, 0) == Corner(noise, xn, yn, zn)
    ensures CellDensity(noise, xn, yn, zn, 0, 0, 4) == Corner(noise, xn, yn, zn + 1)
    ensures CellDensity(noise, xn, yn, zn, 4, 0, 0) == Corner(noise, xn + 1, yn, zn)
    ensures CellDensity(noise, xn, yn, zn, 4, 0, 4) == Corner(noise, xn + 1, yn, zn + 1)
  {
  }

  /** One vertical step moves each edge of a lattice cell by 1/8 of its rise. */
  lemma {:induction false} CellDensityEdgesStep(noise: seq<real>, xn: nat, yn: nat, zn: nat, yi: nat)
    requires |noise| == LATTICE_LEN && xn < WIDTH && yn < HEIGHT && zn < DEPTH
    ensures CellDensity(noise, xn, yn, zn, 0, yi + 1, 0) == CellDensity(noise, xn, yn, zn, 0, yi, 0) +
      (Corner(noise, xn, yn + 1, zn) - Corner(noise, xn, yn, zn)) * 0.125
    ensures CellDensity(noise, xn, yn, zn, 0, yi + 1, 4) == CellDensity(noise, xn, yn, zn, 0, yi, 4) +
      (Corner(noise, xn, yn + 1, zn + 1) - Corner(noise, xn, yn, zn + 1)) * 0.125
    ensures CellDensity(noise, xn, yn, zn, 4, yi + 1, 0) == CellDensity(noise, xn, yn, zn, 4, yi, 0) +
      (Corner(noise, xn + 1, yn + 1, zn) - Corner(noise, xn + 1, yn, zn)) * 0.125
    ensures CellDensity(noise, xn, yn, zn, 4, yi + 1, 4) == CellDensity(noise, xn, yn, zn, 4, yi, 4) +
      (Corner(noise, xn + 1, yn + 1, zn + 1) - Corner(noise, xn + 1, yn, zn + 1)) * 0.125
  {
    CellDensityEdges(noise, xn, yn, zn, yi);
    CellDensityEdges(noise, xn, yn, zn, yi + 1);
    var (bl, fl, br, fr) := Edges(noise, xn, yn, zn, yi);
    RampNext(Corner(noise, xn, yn, zn), (Corner(noise, xn, yn + 1, zn) - Corner(noise, xn, yn, zn)) * 0.125, yi);
    RampNext(Corner(noise, xn, yn, zn + 1), (Corner(noise, xn, yn + 1, zn + 1) - Corner(noise, xn, yn, zn + 1)) * 0.125, yi);
    RampNext(Corner(noise, xn + 1, yn, zn), (Corner(noise, xn + 1, yn + 1, zn) - Corner(noise, xn + 1, yn, zn)) * 0.125, yi);
    RampNext(Corner(noise, xn + 1, yn, zn + 1), (Corner(noise, xn + 1, yn + 1, zn + 1) - Corner(noise, xn + 1, yn, zn + 1)) * 0.125, yi);
  }

  /** Within a row (fixed xi, yi) the density is ramped along z from z = 0 to z = 4. */
  lemma {:induction false} CellDensityRow(noise: seq<real>, xn: nat, yn: nat, zn: nat, xi: nat, yi: nat, zi: nat)
    requires |noise| == LATTICE_LEN && xn < WIDTH && yn < HEIGHT && zn < DEPTH
    ensures CellDensity(noise, xn, yn, zn, xi, yi, zi) ==
      Ramp(CellDensity(noise, xn, yn, zn, xi, yi, 0),
           (CellDensity(noise, xn, yn, zn, xi, yi, 4) - CellDensity(noise, xn, yn, zn, xi, yi, 0)) * 0.25, zi)
  {
    var c000, c010 := Corner(noise, xn, yn, zn), Corner(noise, xn, yn + 1, zn);
    var c001, c011 := Corner(noise, xn, yn, zn + 1), Corner(noise, xn, yn + 1, zn + 1);
    var c100, c110 := Corner(noise, xn + 1, yn, zn), Corner(noise, xn + 1, yn + 1, zn);
    var c101, c111 := Corner(noise, xn + 1, yn, zn + 1), Corner(noise, xn + 1, yn + 1, zn + 1);
    var bl := Ramp(c000, (c010 - c000) * 0.125, yi);
    var fl := Ramp(c001, (c011 - c001) * 0.125, yi);
    var br := Ramp(c100, (c110 - c100) * 0.125, yi);
    var fr := Ramp(c101, (c111 - c101) * 0.125, yi);
    var back, front := Ramp(bl, (br - bl) * 0.25, xi), Ramp(fl, (fr - fl) * 0.25, xi);
    RampEnds(back, front);
  }

  /** Stepping at most the full length of an edge stays between its end points, so the sign
      of both end points is kept. */
  lemma RampSign(a: real, b: real, k: nat, n: nat)
    requires (n == 4 && k <= 4) || (n == 8 && k <= 8)
    ensures var r := Ramp(a, (b - a) * (if n == 4 then 0.25 else 0.125), k);
      (a <= 0.0 && b <= 0.0 ==> r <= 0.0) && (a > 0.0 && b > 0.0 ==> r > 0.0)
  {
    assert k == 0 || k == 1 || k == 2 || k == 3 || k == 4 || k == 5 || k == 6 || k == 7 || k == 8;
  }

  /** The eight corners of lattice cell (xn, yn, zn) are all at most 0 (`negative`) or all above 0. */
  predicate CornersSigned(noise: seq<real>, xn: nat, yn: nat, zn: nat, negative: bool)
    requires |noise| == LATTICE_LEN && xn < WIDTH && yn < HEIGHT && zn < DEPTH
  {
    && (Corner(noise, xn, yn, zn) <= 0.0 <==> negative)
    && (Corner(noise, xn, yn + 1, zn) <= 0.0 <==> negative)
    && (Corner(noise, xn, yn, zn + 1) <= 0.0 <==> negative)
    && (Corner(noise, xn, yn + 1, zn + 1) <= 0.0 <==> negative)
    && (Corner(noise, xn + 1, yn, zn) <= 0.0 <==> negative)
    && (Corner(noise, xn + 1, yn + 1, zn) <= 0.0 <==> negative)
    && (Corner(noise, xn + 1, yn, zn + 1) <= 0.0 <==> negative)
    && (Corner(noise, xn + 1, yn + 1, zn + 1) <= 0.0 <==> negative)
  }

  /** Inside a lattice cell the interpolated density has the sign its eight corners share. */
  lemma {:induction false} CellDensitySign(noise: seq<real>, xn: nat, yn: nat, zn: nat, xi: nat, yi: nat, zi: nat, negative: bool)
    requires |noise| == LATTICE_LEN && xn < WIDTH && yn < HEIGHT && zn < DEPTH
    requires xi <= 4 && yi <= 8 && zi <= 4
    requires CornersSigned(noise, xn, yn, zn, negative)
    ensures CellDensity(noise, xn, yn, zn, xi, yi, zi) <= 0.0 <==> negative
  {
    var (bl, fl, br, fr) := Edges(noise, xn, yn, zn, yi);
    EdgesSign(noise, xn, yn, zn, yi, negative);
    SliceSign(bl, fl, br, fr, xi, zi, negative);
  }

  /** The four edge accumulators keep the sign the corners share. */
  lemma EdgesSign(noise: seq<real>, xn: nat, yn: nat, zn: nat, yi: nat, negative: bool)
    requires |noise| == LATTICE_LEN && xn < WIDTH && yn < HEIGHT && zn < DEPTH && yi <= 8
    requires CornersSigned(noise, xn, yn, zn, negative)
    ensures var (bl, fl, br, fr) := Edges(noise, xn, yn, zn, yi);
      (bl <= 0.0 <==> negative) && (fl <= 0.0 <==> negative) &&
      (br <= 0.0 <==> negative) && (fr <= 0.0 <==> negative)
  {
    RampSign(Corner(noise, xn, yn, zn), Corner(noise, xn, yn + 1, zn), yi, 8);
    RampSign(Corner(noise, xn, yn, zn + 1), Corner(noise, xn, yn + 1, zn + 1), yi, 8);
    RampSign(Corner(noise, xn + 1, yn, zn), Corner(noise, xn + 1, yn + 1, zn), yi, 8);
    RampSign(Corner(noise, xn + 1, yn, zn + 1), Corner(noise, xn + 1, yn + 1, zn + 1), yi, 8);
  }


  /** Ramping the four signed edge values along x and then z keeps their common sign. */
  lemma SliceSign(bl: real, fl: real, br: real, fr: real, xi: nat, zi: nat, negative: bool)
    requires xi <= 4 && zi <= 4
    requires (bl <= 0.0 <==> negative) && (fl <= 0.0 <==> negative)
    requires (br <= 0.0 <==> negative) && (fr <= 0.0 <==> negative)
    ensures var back, front := Ramp(bl, (br - bl) * 0.25, xi), Ramp(fl, (fr - fl) * 0.25, xi);
      Ramp(back, (front - back) * 0.25, zi) <= 0.0 <==> negative
  {
    var back, front := Ramp(bl, (br - bl) * 0.25, xi), Ramp(fl, (fr - fl) * 0.25, xi);
    RampSign(bl, br, xi, 4);
    RampSign(fl, fr, xi, 4);
    RampSign(back, front, zi, 4);
  }



  /** When every lattice sample is at most 0 (or every one is above 0), so is every density of
      the interpolated volume. */
  lemma VolumeSign(noise: seq<real>, negative: bool)
    requires |noise| == LATTICE_LEN
    requires forall i :: 0 <= i < LATTICE_LEN ==> (noise[i] <= 0.0 <==> negative)
    ensures forall i :: 0 <= i < VOLUME_LEN ==> (InterpolatedVolume(noise)[i] <= 0.0 <==> negative)
  {
    forall i | 0 <= i < VOLUME_LEN
      ensures InterpolatedVolume(noise)[i] <= 0.0 <==> negative
    {
      var c := VolumeCell(i);
      var xn, yn, zn := c.x / 4, c.y / 8, c.z / 4;
      assert CornersSigned(noise, xn, yn, zn, negative);
      CellDensitySign(noise, xn, yn, zn, c.x % 4, c.y % 8, c.z % 4, negative);
    }
  }

  /** Loop counters of `interpolate`: x_noise, z_noise, y_noise, y_index, x_index, z_index. */
  datatype Progress = Progress(xn: nat, zn: nat, yn: nat, yi: nat, xi: nat, zi: nat)

  /** Cells already written when the loops of `interpolate` are at counters `p`. The loops run
      in the order of `Progress`, so this is a lexicographic comparison, stated on block
      coordinates. */
  predicate Written(c: Cell, p: Progress) {
    c.x < 4 * p.xn ||
    (c.x < 4 * p.xn + 4 &&
      (c.z < 4 * p.zn ||
        (c.z < 4 * p.zn + 4 &&
          (c.y < 8 * p.yn + p.yi ||
            (c.y == 8 * p.yn + p.yi &&
              (c.x < 4 * p.xn + p.xi || (c.x == 4 * p.xn + p.xi && c.z < 4 * p.zn + p.zi)))))))
  }

  predicate InIterationSpace(p: Progress) {
    p.xn < WIDTH && p.zn < DEPTH && p.yn < HEIGHT && p.yi < 8 && p.xi < 4 && p.zi < 4
  }

  /** The cell the innermost statement of `interpolate` writes at counters `p`. */
  function CurrentCell(p: Progress): Cell {
    Cell(4 * p.xn + p.xi, 8 * p.yn + p.yi, 4 * p.zn + p.zi)
  }

  /** The counters at which cell `c` is written. */
  function ProgressOf(c: Cell): Progress {
    Progress(c.x / 4, c.z / 4, c.y / 8, c.y % 8, c.x % 4, c.z % 4)
  }

  /** The iterations of `interpolate` and the cells of the volume are in one-to-one
      correspondence, and each iteration writes a cell no earlier iteration wrote: every
      cell is written exactly once. */
  lemma IterationWritesEachCellOnce(p: Progress, c: Cell)
    ensures InIterationSpace(p) ==>
      InVolume(CurrentCell(p).x, CurrentCell(p).y, CurrentCell(p).z) && ProgressOf(CurrentCell(p)) == p
    ensures InVolume(c.x, c.y, c.z) ==> InIterationSpace(ProgressOf(c)) && CurrentCell(ProgressOf(c)) == c
    ensures InIterationSpace(p) ==> !Written(CurrentCell(p), p) && Written(CurrentCell(p), p.(zi := p.zi + 1))
  {
  }

  /** Every cell written by counters `p` holds its interpolated density. */
  ghost predicate Done(s: seq<real>, noise: seq<real>, p: Progress)
    requires |noise| == LATTICE_LEN
  {
    |s| == VOLUME_LEN &&
    forall i {:trigger VolumeCell(i)} :: 0 <= i < VOLUME_LEN && Written(VolumeCell(i), p) ==>
      s[i] == Interpolated(noise, VolumeCell(i).x, VolumeCell(i).y, VolumeCell(i).z)
  }

  /** Before the first iteration no cell is written, so any volume satisfies `Done`. */
  lemma DoneStart(s: seq<real>, noise: seq<real>)
    requires |noise| == LATTICE_LEN && |s| == VOLUME_LEN
    ensures Done(s, noise, Progress(0, 0, 0, 0, 0, 0))
  {
  }

  /** Moving to counters `q` that cover no cell beyond those of `p` keeps `Done`. */
  lemma DoneCovers(s: seq<real>, noise: seq<real>, p: Progress, q: Progress)
    requires |noise| == LATTICE_LEN && Done(s, noise, p)
    requires forall c: Cell :: InVolume(c.x, c.y, c.z) && Written(c, q) ==> Written(c, p)
    ensures Done(s, noise, q)
  {
    forall i | 0 <= i < VOLUME_LEN && Written(VolumeCell(i), q)
      ensures s[i] == Interpolated(noise, VolumeCell(i).x, VolumeCell(i).y, VolumeCell(i).z)
    {
      var c := VolumeCell(i);
      assert InVolume(c.x, c.y, c.z) && Written(c, q);
    }
  }

  /** The density the innermost statement writes at counters `p` is the interpolated density
      of the cell it writes. */
  lemma InterpolatedAtCell(noise: seq<real>, p: Progress)
    requires |noise| == LATTICE_LEN && InIterationSpace(p)
    ensures InVolume(CurrentCell(p).x, CurrentCell(p).y, CurrentCell(p).z)
    ensures Interpolated(noise, CurrentCell(p).x, CurrentCell(p).y, CurrentCell(p).z) ==
      CellDensity(noise, p.xn, p.yn, p.zn, p.xi, p.yi, p.zi)
  {
    var c := CurrentCell(p);
    assert c.x / 4 == p.xn && c.x % 4 == p.xi;
    assert c.y / 8 == p.yn && c.y % 8 == p.yi;
    assert c.z / 4 == p.zn && c.z % 4 == p.zi;
  }

  /** Advancing the innermost counter adds exactly the current cell to the written ones. */
  lemma WrittenStep(c: Cell, p: Progress)
    ensures Written(c, p.(zi := p.zi + 1)) && c != CurrentCell(p) ==> Written(c, p)
  {
  }

  /** Writing the density of the cell the counters point at advances the innermost counter. */
  lemma DoneStep(s: seq<real>, s': seq<real>, noise: seq<real>, p: Progress, q: Progress)
    requires |noise| == LATTICE_LEN && Done(s, noise, p)
    requires p.xn < WIDTH && p.zn < DEPTH && p.yn < HEIGHT && p.yi < 8 && p.xi < 4 && p.zi < 4
    requires q == p.(zi := p.zi + 1)
    requires InVolume(4 * p.xn + p.xi, 8 * p.yn + p.yi, 4 * p.zn + p.zi)
    requires s' == s[VolumeIndex(4 * p.xn + p.xi, 8 * p.yn + p.yi, 4 * p.zn + p.zi) :=
                     CellDensity(noise, p.xn, p.yn, p.zn, p.xi, p.yi, p.zi)]
    ensures Done(s', noise, q)
  {
    var cur := CurrentCell(p);
    var k := VolumeIndex(cur.x, cur.y, cur.z);
    VolumeIndexBijective(cur.x, cur.y, cur.z);
    InterpolatedAtCell(noise, p);
    forall i | 0 <= i < VOLUME_LEN && Written(VolumeCell(i), q)
      ensures s'[i] == Interpolated(noise, VolumeCell(i).x, VolumeCell(i).y, VolumeCell(i).z)
    {
      if i != k {
        WrittenStep(VolumeCell(i), p);
      }
    }
  }


  /** The `z_index` loop: writes the row of cells at x = 4 * xn + xi, y = 8 * yn + yi. */
  method FillRow(out: array<real>, noise: seq<real>, p: Progress, back: real, front: real)
    requires |noise| == LATTICE_LEN && out.Length == VOLUME_LEN
    requires p.xn < WIDTH && p.zn < DEPTH && p.yn < HEIGHT && p.yi < 8 && p.xi < 4 && p.zi == 0
    requires back == CellDensity(noise, p.xn, p.yn, p.zn, p.xi, p.yi, 0)
    requires front == CellDensity(noise, p.xn, p.yn, p.zn, p.xi, p.yi, 4)
    requires Done(out[..], noise, p)
    modifies out
    ensures Done(out[..], noise, p.(xi := p.xi + 1))
  {
    // WIDTH == 4
    var x := p.xn * 4 + p.xi;
    var y := p.yn * 8 + p.yi;
    var bottomIncrement := (front - back) * 0.25;
    var density := back;
    for zIndex := 0 to DEPTH
      invariant density == Ramp(back, bottomIncrement, zIndex)
      invariant Done(out[..], noise, p.(zi := zIndex))
    {
      var z := p.zn * 4 + zIndex;
      CellDensityRow(noise, p.xn, p.yn, p.zn, p.xi, p.yi, zIndex);
      ghost var before := out[..];
      var k := VolumeIndex(x, y, z);
      out[k] := density;
      DoneStep(before, out[..], noise, p.(zi := zIndex), p.(zi := zIndex + 1));
      RampNext(back, bottomIncrement, zIndex);
      density := density + bottomIncrement;
    }
    DoneCovers(out[..], noise, p.(zi := DEPTH), p.(xi := p.xi + 1));
  }

  /** The `x_index` loop: writes the 4 x 4 slice of cells at y = 8 * yn + yi. */
  method FillSlice(out: array<real>, noise: seq<real>, p: Progress,
                   backLeft: real, frontLeft: real, backRight: real, frontRight: real)
    requires |noise| == LATTICE_LEN && out.Length == VOLUME_LEN
    requires p.xn < WIDTH && p.zn < DEPTH && p.yn < HEIGHT && p.yi < 8 && p.xi == 0 && p.zi == 0
    requires backLeft == CellDensity(noise, p.xn, p.yn, p.zn, 0, p.yi, 0)
    requires frontLeft == CellDensity(noise, p.xn, p.yn, p.zn, 0, p.yi, 4)
    requires backRight == CellDensity(noise, p.xn, p.yn, p.zn, 4, p.yi, 0)
    requires frontRight == CellDensity(noise, p.xn, p.yn, p.zn, 4, p.yi, 4)
    requires Done(out[..], noise, p)
    modifies out
    ensures Done(out[..], noise, p.(yi := p.yi + 1))
  {
    var backIncrement := (backRight - backLeft) * 0.25;
    var frontIncrement := (frontRight - frontLeft) * 0.25;
    var back := backLeft;
    var front := frontLeft;
    for xIndex := 0 to WIDTH
      invariant back == Ramp(backLeft, backIncrement, xIndex)
      invariant front == Ramp(frontLeft, frontIncrement, xIndex)
      invariant Done(out[..], noise, p.(xi := xIndex))
    {
      CellDensitySlice(noise, p.xn, p.yn, p.zn, xIndex, p.yi);
      FillRow(out, noise, p.(xi := xIndex), back, front);
      RampNext(backLeft, backIncrement, xIndex);
      RampNext(frontLeft, frontIncrement, xIndex);
      back := back + backIncrement;
      front := front + frontIncrement;
    }
    DoneCovers(out[..], noise, p.(xi := WIDTH), p.(yi := p.yi + 1));
  }

  /** The `y_index` loop for one lattice cell: reads the cell's eight corners and writes its
      4 x 8 x 4 block of cells. */
  method FillLatticeCell(out: array<real>, noise: seq<real>, xNoise: nat, zNoise: nat, yNoise: nat)
    requires |noise| == LATTICE_LEN && out.Length == VOLUME_LEN
    requires xNoise < WIDTH && zNoise < DEPTH && yNoise < HEIGHT
    requires Done(out[..], noise, Progress(xNoise, zNoise, yNoise, 0, 0, 0))
    modifies out
    ensures Done(out[..], noise, Progress(xNoise, zNoise, yNoise + 1, 0, 0, 0))
  {
    var backLeft := noise[LatticeIndex(xNoise, yNoise, zNoise)];
    var frontLeft := noise[LatticeIndex(xNoise, yNoise, zNoise + 1)];
    var backRight := noise[LatticeIndex(xNoise + 1, yNoise, zNoise)];
    var frontRight := noise[LatticeIndex(xNoise + 1, yNoise, zNoise + 1)];
    var backLeftIncrement := (noise[LatticeIndex(xNoise, yNoise + 1, zNoise)] - backLeft) * 0.125;
    var frontLeftIncrement := (noise[LatticeIndex(xNoise, yNoise + 1, zNoise + 1)] - frontLeft) * 0.125;
    var backRightIncrement := (noise[LatticeIndex(xNoise + 1, yNoise + 1, zNoise)] - backRight) * 0.125;
    var frontRightIncrement := (noise[LatticeIndex(xNoise + 1, yNoise + 1, zNoise + 1)] - frontRight) * 0.125;
    CellDensityEdgesStart(noise, xNoise, yNoise, zNoise);
    for yIndex := 0 to 8
      invariant backLeft == CellDensity(noise, xNoise, yNoise, zNoise, 0, yIndex, 0)
      invariant frontLeft == CellDensity(noise, xNoise, yNoise, zNoise, 0, yIndex, 4)
      invariant backRight == CellDensity(noise, xNoise, yNoise, zNoise, 4, yIndex, 0)
      invariant frontRight == CellDensity(noise, xNoise, yNoise, zNoise, 4, yIndex, 4)
      invariant Done(out[..], noise, Progress(xNoise, zNoise, yNoise, yIndex, 0, 0))
    {
      FillSlice(out, noise, Progress(xNoise, zNoise, yNoise, yIndex, 0, 0),
                backLeft, frontLeft, backRight, frontRight);
      CellDensityEdgesStep(noise, xNoise, yNoise, zNoise, yIndex);
      backLeft := backLeft + backLeftIncrement;
      frontLeft := frontLeft + frontLeftIncrement;
      backRight := backRight + backRightIncrement;
      frontRight := frontRight + frontRightIncrement;
    }
    DoneCovers(out[..], noise, Progress(xNoise, zNoise, yNoise, 8, 0, 0),
               Progress(xNoise, zNoise, yNoise + 1, 0, 0, 0));
  }

  /** The `y_noise` loop: writes the 4 x 24 x 4 column of cells above lattice point (xn, zn). */
  method FillLatticeColumn(out: array<real>, noise: seq<real>, xNoise: nat, zNoise: nat)
    requires |noise| == LATTICE_LEN && out.Length == VOLUME_LEN
    requires xNoise < WIDTH && zNoise < DEPTH
    requires Done(out[..], noise, Progress(xNoise, zNoise, 0, 0, 0, 0))
    modifies out
    ensures Done(out[..], noise, Progress(xNoise, zNoise + 1, 0, 0, 0, 0))
  {
    for yNoise := 0 to HEIGHT
      invariant Done(out[..], noise, Progress(xNoise, zNoise, yNoise, 0, 0, 0))
    {
      FillLatticeCell(out, noise, xNoise, zNoise, yNoise);
    }
    DoneCovers(out[..], noise, Progress(xNoise, zNoise, HEIGHT, 0, 0, 0),
               Progress(xNoise, zNoise + 1, 0, 0, 0, 0));
  }

  /** Once the outermost counter has passed the last lattice column, every cell holds the
      trilinear interpolation of the lattice cell it lies in. */
  lemma DoneAll(s: seq<real>, noise: seq<real>)
    requires |noise| == LATTICE_LEN && Done(s, noise, Progress(WIDTH, 0, 0, 0, 0, 0))
    ensures s == InterpolatedVolume(noise)
    ensures forall x: nat, y: nat, z: nat :: InVolume(x, y, z) ==>
      s[VolumeIndex(x, y, z)] == Trilinear(noise, x / 4, y / 8, z / 4, x % 4, y % 8, z % 4)
  {
    forall i | 0 <= i < VOLUME_LEN
      ensures s[i] == InterpolatedVolume(noise)[i]
    {
      var c := VolumeCell(i);
      assert InVolume(c.x, c.y, c.z) && Written(c, Progress(WIDTH, 0, 0, 0, 0, 0));
    }
    forall x: nat, y: nat, z: nat | InVolume(x, y, z)
      ensures s[VolumeIndex(x, y, z)] == Trilinear(noise, x / 4, y / 8, z / 4, x % 4, y % 8, z % 4)
    {
      VolumeIndexBijective(x, y, z);
      assert Written(Cell(x, y, z), Progress(WIDTH, 0, 0, 0, 0, 0));
      CellDensityIsTrilinear(noise, x / 4, y / 8, z / 4, x % 4, y % 8, z % 4);
    }
  }

  /** Every cell of the 16 x 24 x 16 volume receives the trilinear interpolation of the lattice
      cell it lies in. */
  method Interpolate(noise: seq<real>) returns (result: seq<real>)
    requires |noise| == LATTICE_LEN
    ensures result == InterpolatedVolume(noise)
    ensures forall x: nat, y: nat, z: nat :: InVolume(x, y, z) ==>
      result[VolumeIndex(x, y, z)] == Trilinear(noise, x / 4, y / 8, z / 4, x % 4, y % 8, z % 4)
  {
    var out := new real[VOLUME_LEN](_ => 0.0);
    DoneStart(out[..], noise);
    for xNoise := 0 to WIDTH
      invariant Done(out[..], noise, Progress(xNoise, 0, 0, 0, 0, 0))
    {
      for zNoise := 0 to DEPTH
        invariant Done(out[..], noise, Progress(xNoise, zNoise, 0, 0, 0, 0))
      {
        FillLatticeColumn(out, noise, xNoise, zNoise);
      }
      DoneCovers(out[..], noise, Progress(xNoise, DEPTH, 0, 0, 0, 0),
                 Progress(xNoise + 1, 0, 0, 0, 0, 0));
    }
    result := out[..];
    DoneAll(result, noise);
  }
}
