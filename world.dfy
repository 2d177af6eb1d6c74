/**
 * One press of "Generate World" (app.py, from the new image to the city
 * pass): terrain synthesis, the biome render and city placement run in turn
 * on fresh buffers, and the picture they leave behind as a value.
 */
module World {
  import opened Biomes
  import opened Rasters
  import opened Terrain
  import opened Render
  import opened Cities

  /** The biome of cell (x, y): its temperature is its elevation plus the temperature bias. */
  function BiomeAt(p: Params, noise: Noise, root: Root, x: nat, y: nat): (b: Biome)
    requires ValidParams(p)
    ensures InRegion(b, Elevation(p, noise, root, x, y), Moisture(p, noise, x, y),
                     Elevation(p, noise, root, x, y) + p.temperatureBias)
  {
    var elev := Elevation(p, noise, root, x, y);
    GetBiome(elev, Moisture(p, noise, x, y), elev + p.temperatureBias)
  }

  /** The first k pixels of column x after the biome render. */
  function RenderedColumn(p: Params, noise: Noise, root: Root, x: nat, k: nat): (c: seq<Rgb>)
    requires ValidParams(p)
    ensures |c| == k
    ensures forall j {:trigger c[j]} :: 0 <= j < k ==> c[j] == Colour(BiomeAt(p, noise, root, x, j))
  {
    if k == 0 then [] else RenderedColumn(p, noise, root, x, k - 1) + [Colour(BiomeAt(p, noise, root, x, k - 1))]
  }

  /** The first k columns of the picture after the biome render. */
  function RenderedColumns(p: Params, noise: Noise, root: Root, k: nat): (r: Raster)
    requires ValidParams(p)
    ensures |r| == k
    ensures forall i {:trigger r[i]} :: 0 <= i < k ==> r[i] == RenderedColumn(p, noise, root, i, p.worldSize)
  {
    if k == 0 then [] else RenderedColumns(p, noise, root, k - 1) + [RenderedColumn(p, noise, root, k - 1, p.worldSize)]
  }

  /** The picture after the biome render: every cell shows the colour of its biome. */
  function RenderedWorld(p: Params, noise: Noise, root: Root): (r: Raster)
    requires ValidParams(p)
    ensures IsRaster(r) && |r| == p.worldSize
    ensures forall i, j {:trigger r[i][j]} :: 0 <= i < p.worldSize && 0 <= j < p.worldSize ==>
      r[i][j] == Colour(BiomeAt(p, noise, root, i, j))
  {
    RenderedColumns(p, noise, root, p.worldSize)
  }

  /**
   * Generates a world: the image starts black, the terrain grids start at
   * zero, and the three passes run in order. The picture that comes out is
   * the rendered world with the cities of the given draws stamped on it.
   */
  method GenerateWorld(p: Params, noise: Noise, root: Root, draws: seq<Point>)
    returns (pixels: array2<Rgb>, placed: nat)
    requires ValidParams(p)
    requires ValidDraws(draws, p.worldSize) && 200 * p.cityCount <= |draws|
    ensures fresh(pixels)
    ensures pixels.Length0 == pixels.Length1 == p.worldSize
    ensures var o := PlaceAll(RenderedWorld(p, noise, root), draws, p.cityCount);
      Snapshot(pixels) == o.raster && placed == o.placed
  {
    var n := p.worldSize;
    pixels := new Rgb[n, n]((i, j) => Rgb(0, 0, 0));
    var elevation := new real[n, n]((i, j) => 0.0);
    var moisture := new real[n, n]((i, j) => 0.0);
    Synthesize(p, noise, root, elevation, moisture);
    RenderBiomes(elevation, moisture, p.temperatureBias, pixels);
    RasterEq(Snapshot(pixels), RenderedWorld(p, noise, root));
    placed := PlaceCities(pixels, draws, p.cityCount);
  }

  /** Every pixel of a generated world shows either its cell's biome or a city. */
  lemma GeneratedPixels(p: Params, noise: Noise, root: Root, draws: seq<Point>, x: nat, y: nat)
    requires ValidParams(p)
    requires ValidDraws(draws, p.worldSize) && 200 * p.cityCount <= |draws|
    requires x < p.worldSize && y < p.worldSize
    ensures var r := PlaceAll(RenderedWorld(p, noise, root), draws, p.cityCount).raster;
      r[x][y] == Colour(BiomeAt(p, noise, root, x, y)) || r[x][y] == CityColour
  {
    CellsCityOrOriginal(RenderedWorld(p, noise, root), draws, p.cityCount, x, y);
  }

  /** A world whose every cell lies below the ocean line has no city and is left as rendered. */
  lemma SunkenWorldHasNoCity(p: Params, noise: Noise, root: Root, draws: seq<Point>)
    requires ValidParams(p)
    requires ValidDraws(draws, p.worldSize) && 200 * p.cityCount <= |draws|
    requires forall x: nat, y: nat :: x < p.worldSize && y < p.worldSize ==> Elevation(p, noise, root, x, y) < -0.2
    ensures PlaceAll(RenderedWorld(p, noise, root), draws, p.cityCount)
         == Outcome(RenderedWorld(p, noise, root), 0, 200 * p.cityCount)
  {
    var w := RenderedWorld(p, noise, root);
    forall i, j | 0 <= i < |w| && 0 <= j < |w[i]|
      ensures w[i][j] == Colour(Ocean)
    {
      ClassificationExact(Ocean, Elevation(p, noise, root, i, j), Moisture(p, noise, i, j),
                          Elevation(p, noise, root, i, j) + p.temperatureBias);
    }
    AllOceanPlacesNoCity(w, draws, p.cityCount);
  }

  /** A world with no cell below the ocean line gets every city, each on its first draw. */
  lemma RisenWorldPlacesEveryCity(p: Params, noise: Noise, root: Root, draws: seq<Point>)
    requires ValidParams(p)
    requires ValidDraws(draws, p.worldSize) && 200 * p.cityCount <= |draws|
    requires forall x: nat, y: nat :: x < p.worldSize && y < p.worldSize ==> Elevation(p, noise, root, x, y) >= -0.2
    ensures PlaceAll(RenderedWorld(p, noise, root), draws, p.cityCount).placed == p.cityCount
    ensures PlaceAll(RenderedWorld(p, noise, root), draws, p.cityCount).next == p.cityCount
  {
    var w := RenderedWorld(p, noise, root);
    forall i, j | 0 <= i < |w| && 0 <= j < |w[i]|
      ensures w[i][j] != Colour(Ocean)
    {
      var b := BiomeAt(p, noise, root, i, j);
      assert b != Ocean;
      ColourInjective(b, Ocean);
    }
    NoOceanPlacesEveryCity(w, draws, p.cityCount);
  }
}
