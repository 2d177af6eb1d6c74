/**
 * Synthesis of the elevation and moisture grids (app.py, the first pass over
 * the cells). The noise sampler pnoise2 and the square root are supplied by
 * the caller; the island shaping around them is modelled exactly.
 */
module Terrain {
  /** The generation parameters chosen on the sliders. */
  datatype Params = Params(
    worldSize: nat,
    noiseScale: real,
    islandBias: real,
    cityCount: nat,
    temperatureBias: real,
    seed: int)

  /** What the sliders guarantee and the divisions need: a non-empty world and a positive scale. */
  predicate ValidParams(p: Params) {
    p.worldSize > 0 && p.noiseScale > 0.0
  }

  /** A coherent-noise sampler called as pnoise2(x, y, octaves, base). */
  type Noise = (real, real, int, int) -> real

  /** A square root, applied to the squared distance from the centre of the map. */
  type Root = real -> real

  ghost predicate NonNegativeRoot(root: Root) {
    forall v :: 0.0 <= v ==> 0.0 <= root(v)
  }

  const ElevationOctaves: int := 5
  const MoistureOctaves: int := 4
  /** How far the moisture field is shifted in noise space from the elevation field. */
  const MoistureShift: real := 100.0

  /** Noise-space coordinate of a cell coordinate. */
  function NoiseCoord(p: Params, v: nat): real
    requires ValidParams(p)
  {
    v as real / p.noiseScale
  }

  /** Offset of a cell coordinate from the centre, as a fraction of the world size. */
  function CentreOffset(p: Params, v: nat): real
    requires ValidParams(p)
  {
    v as real / p.worldSize as real - 0.5
  }

  /** Squared distance of cell (x, y) from the centre of the map. */
  function SquaredCentreDistance(p: Params, x: nat, y: nat): real
    requires ValidParams(p)
  {
    CentreOffset(p, x) * CentreOffset(p, x) + CentreOffset(p, y) * CentreOffset(p, y)
  }

  /** Distance of cell (x, y) from the centre of the map. */
  function CentreDistance(p: Params, root: Root, x: nat, y: nat): real
    requires ValidParams(p)
  {
    root(SquaredCentreDistance(p, x, y))
  }

  /** The raw elevation sample of a cell, before island shaping. */
  function RawElevation(p: Params, noise: Noise, x: nat, y: nat): real
    requires ValidParams(p)
  {
    noise(NoiseCoord(p, x), NoiseCoord(p, y), ElevationOctaves, p.seed)
  }

  /** The shaped elevation of a cell: the raw sample lowered by distance times island bias. */
  function Elevation(p: Params, noise: Noise, root: Root, x: nat, y: nat): (e: real)
    requires ValidParams(p)
    ensures NonNegativeRoot(root) && 0.0 <= p.islandBias ==> e <= RawElevation(p, noise, x, y)
  {
    ShapingLowers(p, root, x, y);
    RawElevation(p, noise, x, y) - CentreDistance(p, root, x, y) * p.islandBias
  }

  /** The moisture of a cell, sampled from the shifted noise field. */
  function Moisture(p: Params, noise: Noise, x: nat, y: nat): real
    requires ValidParams(p)
  {
    noise(NoiseCoord(p, x) + MoistureShift, NoiseCoord(p, y) + MoistureShift, MoistureOctaves, p.seed)
  }

  /** A square is never negative. */
  lemma SquareNonNegative(a: real)
    ensures 0.0 <= a * a
  {
    if a < 0.0 {
      assert a * a == (-a) * (-a);
    }
  }

  /** Scaling a non-negative distance by a larger bias gives a larger product. */
  lemma ScaleMonotone(d: real, b1: real, b2: real)
    requires 0.0 <= d && b1 <= b2
    ensures d * b1 <= d * b2
  {
    assert d * b2 - d * b1 == d * (b2 - b1);
  }

  /** The distance from the centre is never negative. */
  lemma DistanceNonNegative(p: Params, root: Root, x: nat, y: nat)
    requires ValidParams(p) && NonNegativeRoot(root)
    ensures 0.0 <= CentreDistance(p, root, x, y)
  {
    SquareNonNegative(CentreOffset(p, x));
    SquareNonNegative(CentreOffset(p, y));
    assert 0.0 <= SquaredCentreDistance(p, x, y);
  }

  /** For a non-negative bias, the shaping term subtracted from the raw sample is never negative. */
  lemma ShapingLowers(p: Params, root: Root, x: nat, y: nat)
    requires ValidParams(p)
    ensures NonNegativeRoot(root) && 0.0 <= p.islandBias ==> 0.0 <= CentreDistance(p, root, x, y) * p.islandBias
  {
    if NonNegativeRoot(root) && 0.0 <= p.islandBias {
      DistanceNonNegative(p, root, x, y);
      ScaleMonotone(CentreDistance(p, root, x, y), 0.0, p.islandBias);
    }
  }

  /**
   * Island shaping is monotone in the bias: raising island_bias lowers or keeps
   * the elevation of every cell, and leaves its moisture alone.
   */
  lemma IslandShapingMonotone(p: Params, noise: Noise, root: Root, bias: real, x: nat, y: nat)
    requires ValidParams(p) && NonNegativeRoot(root) && p.islandBias <= bias
    ensures Elevation(p.(islandBias := bias), noise, root, x, y) <= Elevation(p, noise, root, x, y)
    ensures Moisture(p.(islandBias := bias), noise, x, y) == Moisture(p, noise, x, y)
  {
    var q := p.(islandBias := bias);
    assert SquaredCentreDistance(q, x, y) == SquaredCentreDistance(p, x, y);
    assert CentreDistance(q, root, x, y) == CentreDistance(p, root, x, y);
    assert RawElevation(q, noise, x, y) == RawElevation(p, noise, x, y);
    DistanceNonNegative(p, root, x, y);
    ScaleMonotone(CentreDistance(p, root, x, y), p.islandBias, bias);
  }

  /** With no island bias the elevation is the raw noise sample. */
  lemma NoBiasNoShaping(p: Params, noise: Noise, root: Root, x: nat, y: nat)
    requires ValidParams(p) && p.islandBias == 0.0
    ensures Elevation(p, noise, root, x, y) == RawElevation(p, noise, x, y)
  {
  }

  /**
   * The body of the synthesis pass for cell (x, y): two noise samples, the
   * distance from the centre, and the island shaping of the elevation.
   */
  method SampleCell(p: Params, noise: Noise, root: Root, x: nat, y: nat) returns (elev: real, moist: real)
    requires ValidParams(p)
    ensures elev == Elevation(p, noise, root, x, y) && moist == Moisture(p, noise, x, y)
  {
    var nx := x as real / p.noiseScale;
    var ny := y as real / p.noiseScale;
    elev := noise(nx, ny, ElevationOctaves, p.seed);
    moist := noise(nx + MoistureShift, ny + MoistureShift, MoistureOctaves, p.seed);
    var dx := x as real / p.worldSize as real - 0.5;
    var dy := y as real / p.worldSize as real - 0.5;
    var distance := root(dx * dx + dy * dy);
    assert dx * dx + dy * dy == SquaredCentreDistance(p, x, y);
    elev := elev - distance * p.islandBias;
  }

  /** The inner loop of the synthesis pass: fills column x of both grids. */
  method SynthesizeColumn(p: Params, noise: Noise, root: Root, elevation: array2<real>, moisture: array2<real>, x: nat)
    requires ValidParams(p) && x < p.worldSize
    requires elevation.Length0 == elevation.Length1 == p.worldSize
    requires moisture.Length0 == moisture.Length1 == p.worldSize
    requires elevation != moisture
    modifies elevation, moisture
    ensures forall j :: 0 <= j < p.worldSize ==>
      elevation[x, j] == Elevation(p, noise, root, x, j) && moisture[x, j] == Moisture(p, noise, x, j)
    ensures forall i, j :: 0 <= i < p.worldSize && 0 <= j < p.worldSize && i != x ==>
      elevation[i, j] == old(elevation[i, j]) && moisture[i, j] == old(moisture[i, j])
  {
    for y := 0 to p.worldSize
      invariant forall j :: 0 <= j < y ==>
        elevation[x, j] == Elevation(p, noise, root, x, j) && moisture[x, j] == Moisture(p, noise, x, j)
      invariant forall i, j :: 0 <= i < p.worldSize && 0 <= j < p.worldSize && i != x ==>
        elevation[i, j] == old(elevation[i, j]) && moisture[i, j] == old(moisture[i, j])
    {
      var elev, moist := SampleCell(p, noise, root, x, y);
      elevation[x, y] := elev;
      moisture[x, y] := moist;
    }
  }

  /**
   * The synthesis pass: fills both grids cell by cell with the shaped
   * elevation and the moisture sample.
   */
  method Synthesize(p: Params, noise: Noise, root: Root, elevation: array2<real>, moisture: array2<real>)
    requires ValidParams(p)
    requires elevation.Length0 == elevation.Length1 == p.worldSize
    requires moisture.Length0 == moisture.Length1 == p.worldSize
    requires elevation != moisture
    modifies elevation, moisture
    ensures forall x, y :: 0 <= x < p.worldSize && 0 <= y < p.worldSize ==>
      elevation[x, y] == Elevation(p, noise, root, x, y) && moisture[x, y] == Moisture(p, noise, x, y)
  {
    for x := 0 to p.worldSize
      invariant forall i, j :: 0 <= i < x && 0 <= j < p.worldSize ==>
        elevation[i, j] == Elevation(p, noise, root, i, j) && moisture[i, j] == Moisture(p, noise, i, j)
    {
      SynthesizeColumn(p, noise, root, elevation, moisture, x);
    }
  }
}
