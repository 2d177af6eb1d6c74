/** The biome render pass (app.py, the second pass over the cells). */
module Render {
  import opened Biomes

  /**
   * Paints every cell with the colour of its biome, using the cell's elevation
   * plus the temperature bias as its temperature. No cell is left unpainted.
   */
  method RenderBiomes(elevation: array2<real>, moisture: array2<real>, temperatureBias: real, pixels: array2<Rgb>)
    requires elevation.Length0 == elevation.Length1
    requires moisture.Length0 == moisture.Length1 == elevation.Length0
    requires pixels.Length0 == pixels.Length1 == elevation.Length0
    modifies pixels
    ensures forall x, y :: 0 <= x < pixels.Length0 && 0 <= y < pixels.Length1 ==>
      pixels[x, y] == Colour(GetBiome(elevation[x, y], moisture[x, y], elevation[x, y] + temperatureBias))
  {
    var n := elevation.Length0;
    for x := 0 to n
      invariant forall i, j :: 0 <= i < x && 0 <= j < n ==>
        pixels[i, j] == Colour(GetBiome(elevation[i, j], moisture[i, j], elevation[i, j] + temperatureBias))
    {
      for y := 0 to n
        invariant forall i, j :: 0 <= i < x && 0 <= j < n ==>
          pixels[i, j] == Colour(GetBiome(elevation[i, j], moisture[i, j], elevation[i, j] + temperatureBias))
        invariant forall j :: 0 <= j < y ==>
          pixels[x, j] == Colour(GetBiome(elevation[x, j], moisture[x, j], elevation[x, j] + temperatureBias))
      {
        var elev := elevation[x, y];
        var moist := moisture[x, y];
        var temp := elev + temperatureBias;
        var biome := GetBiome(elev, moist, temp);
        pixels[x, y] := Colour(biome);
      }
    }
  }
}
