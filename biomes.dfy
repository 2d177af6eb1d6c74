/**
 * The biome classifier and the fixed colour table of the map generator
 * (app.py, BIOMES and get_biome).
 */
module Biomes {
  import opened Wrappers

  /** One 8-bit channel of an RGB pixel. */
  type Channel = c: int | 0 <= c < 256

  datatype Rgb = Rgb(r: Channel, g: Channel, b: Channel)

  /** The seven keys of the BIOMES table. */
  datatype Biome = Ocean | Beach | Tundra | Desert | Grassland | Forest | Mountain

  /** The BIOMES table: the colour each biome is painted with. */
  function Colour(b: Biome): (c: Rgb)
    ensures c != Rgb(178, 34, 34)
  {
    match b
    case Ocean => Rgb(54, 86, 168)
    case Beach => Rgb(238, 214, 175)
    case Tundra => Rgb(220, 240, 240)
    case Desert => Rgb(237, 201, 175)
    case Grassland => Rgb(124, 189, 107)
    case Forest => Rgb(34, 139, 34)
    case Mountain => Rgb(120, 120, 120)
  }

  /** The colour a settlement stamp paints. */
  const CityColour: Rgb := Rgb(178, 34, 34)

  /**
   * Reads a pixel back as a biome. The contract makes it the exact inverse
   * of the colour table, so no two biomes share a colour.
   */
  function BiomeOfColour(c: Rgb): (r: Option<Biome>)
    ensures forall b :: Colour(b) == c <==> r == Some(b)
  {
    if c == Colour(Ocean) then Some(Ocean)
    else if c == Colour(Beach) then Some(Beach)
    else if c == Colour(Tundra) then Some(Tundra)
    else if c == Colour(Desert) then Some(Desert)
    else if c == Colour(Grassland) then Some(Grassland)
    else if c == Colour(Forest) then Some(Forest)
    else if c == Colour(Mountain) then Some(Mountain)
    else None
  }

  /** Distinct biomes are painted in distinct colours. */
  lemma ColourInjective(b1: Biome, b2: Biome)
    ensures Colour(b1) == Colour(b2) ==> b1 == b2
  {
    var r := BiomeOfColour(Colour(b1));
  }

  /** A settlement stamp is never mistaken for a biome, in particular not for ocean. */
  lemma CityColourIsNoBiome()
    ensures BiomeOfColour(CityColour) == None
    ensures CityColour != Colour(Ocean)
  {
  }

  /** Elevation between the beach band and the mountain threshold. */
  predicate Lowland(elev: real) {
    -0.15 <= elev <= 0.45
  }

  /**
   * The region of the (elevation, moisture, temperature) space each biome
   * covers, written as bands rather than as a cascade of tests.
   */
  predicate InRegion(b: Biome, elev: real, moisture: real, temp: real) {
    match b
    case Ocean => elev < -0.2
    case Beach => -0.2 <= elev < -0.15
    case Mountain => elev > 0.45
    case Tundra => Lowland(elev) && temp < -0.1
    case Desert => Lowland(elev) && temp >= -0.1 && moisture < -0.2
    case Grassland => Lowland(elev) && temp >= -0.1 && -0.2 <= moisture < 0.2
    case Forest => Lowland(elev) && temp >= -0.1 && moisture >= 0.2
  }

  /** get_biome: the first matching rule of the priority cascade wins. */
  function GetBiome(elev: real, moisture: real, temp: real): (b: Biome)
    ensures InRegion(b, elev, moisture, temp)
  {
    if elev < -0.2 then Ocean
    else if elev < -0.15 then Beach
    else if elev > 0.45 then Mountain
    else if temp < -0.1 then Tundra
    else if moisture < -0.2 then Desert
    else if moisture < 0.2 then Grassland
    else Forest
  }

  /** The regions do not overlap: a point lies in the region of at most one biome. */
  lemma RegionsDisjoint(b1: Biome, b2: Biome, elev: real, moisture: real, temp: real)
    requires InRegion(b1, elev, moisture, temp) && InRegion(b2, elev, moisture, temp)
    ensures b1 == b2
  {
  }

  /**
   * Classification is total and exact: every input triple maps to exactly one
   * biome, the one whose region contains it.
   */
  lemma ClassificationExact(b: Biome, elev: real, moisture: real, temp: real)
    ensures GetBiome(elev, moisture, temp) == b <==> InRegion(b, elev, moisture, temp)
  {
    if InRegion(b, elev, moisture, temp) {
      RegionsDisjoint(b, GetBiome(elev, moisture, temp), elev, moisture, temp);
    }
  }

  /** The elevation rules preempt temperature and moisture. */
  lemma ElevationRulesDominate(elev: real, moisture: real, temp: real)
    ensures elev < -0.2 ==> GetBiome(elev, moisture, temp) == Ocean
    ensures -0.2 <= elev < -0.15 ==> GetBiome(elev, moisture, temp) == Beach
    ensures elev > 0.45 ==> GetBiome(elev, moisture, temp) == Mountain
  {
  }

  /** A cold lowland cell is tundra whatever its moisture. */
  lemma ColdLowlandIsTundra(elev: real, moisture: real, temp: real)
    requires Lowland(elev) && temp < -0.1
    ensures GetBiome(elev, moisture, temp) == Tundra
  {
  }

  /**
   * On warm lowland the biome depends only on moisture: desert below -0.2,
   * grassland below 0.2, forest otherwise.
   */
  lemma WarmLowlandFollowsMoisture(elev: real, moisture: real, temp: real, elev': real, temp': real)
    requires Lowland(elev) && Lowland(elev') && temp >= -0.1 && temp' >= -0.1
    ensures GetBiome(elev, moisture, temp) == GetBiome(elev', moisture, temp')
    ensures GetBiome(elev, moisture, temp) ==
      if moisture < -0.2 then Desert else if moisture < 0.2 then Grassland else Forest
  {
  }
}
