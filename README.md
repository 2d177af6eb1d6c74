# FantasyMapGenerator world generation, modelled in Dafny

This project models the world generator in `app.py`, the MythicMap fantasy world generator. One press of "Generate World" does four things in turn:

- It synthesises an elevation grid and a moisture grid from two noise fields. Elevation is lowered with distance from the map centre ("island shaping").
- It classifies every cell into one of seven biomes with a fixed priority cascade, and paints the cell in that biome's colour.
- It drops `city_count` cities onto the picture. Each city gets at most 200 random draws. The first draw that does not land on the ocean colour gets a 7×7 city-coloured square, clipped to the picture. A city whose 200 draws all land on ocean is skipped silently.
- It shows the picture.

The modules follow those steps:

- `Biomes` (biomes.dfy): the colour table, the city colour and the biome classifier. Each biome is also described by its own region of (elevation, moisture, temperature) space, and the classifier is proved to pick exactly the region the cell lies in.
- `Rasters` (rasters.dfy): the picture as a value (`seq<seq<Rgb>>`, indexed `[x][y]`) and the value of a pixel buffer (`array2<Rgb>`) at a given moment.
- `Terrain` (terrain.dfy): generation parameters, the per-cell elevation and moisture, and the synthesis pass over both grids.
- `Render` (render.dfy): the biome render pass, which fills the pixel buffer in place.
- `Cities` (cities.dfy): the stamp, the bounded retry for one city and the loop over all cities. They are methods on the pixel buffer, each proved against a function on picture values (`Stamped`, `CityStep`, `PlaceAll`).
- `World` (world.dfy): the whole generation on fresh buffers, and facts about its outcome from end to end.
- `Wrappers` (wrappers.dfy): `Option`.

`random.randint` is replaced by a sequence of draws supplied by the caller. Each draw is an `(x, y)` pair on the picture, and the draws are used in order. A city placed on its `a`-th attempt uses `a + 1` draws. A city that is skipped uses all 200.

## Model

| member | source | states |
|---|---|---|
| Biomes.Colour | app.py:22-30 | the BIOMES table: the colour each of the seven biomes is painted with, none of which is the city colour (178, 34, 34) |
| Biomes.BiomeOfColour | app.py:22-30 | the colour table can be inverted: a colour maps to `Some(b)` exactly when it is `b`'s colour, and to `None` when no biome has it |
| Biomes.ColourInjective | app.py:22-30 | no two biomes share a colour |
| Biomes.CityColourIsNoBiome | app.py:93-97 | the city colour (178, 34, 34) is no biome's colour, and in particular it is not the ocean colour |
| Biomes.GetBiome | app.py:33-47 | the classifier's result is a biome whose region contains the input triple, so the classifier is total |
| Biomes.RegionsDisjoint | app.py:33-47 | the seven regions do not overlap: a triple lies in at most one |
| Biomes.ClassificationExact | app.py:33-47 | for every biome `b`, the classifier returns `b` if and only if the triple lies in `b`'s region |
| Biomes.ElevationRulesDominate | app.py:34-39 | elevation below -0.2 is ocean, elevation in [-0.2, -0.15) is beach, and elevation above 0.45 is mountain, whatever the moisture and temperature |
| Biomes.ColdLowlandIsTundra | app.py:41-42 | for elevation in [-0.15, 0.45], a temperature below -0.1 gives tundra whatever the moisture |
| Biomes.WarmLowlandFollowsMoisture | app.py:43-47 | for elevation in [-0.15, 0.45] and temperature at least -0.1, the biome depends only on moisture: below -0.2 is desert, below 0.2 is grassland, otherwise forest |
| Terrain.Elevation | app.py:64-71 | a cell's shaped elevation: the raw elevation sample minus its distance from the centre times the island bias, so with a non-negative root and bias it never exceeds the raw sample |
| Terrain.Moisture | app.py:65 | a cell's moisture: the 4-octave noise sample at the cell's noise coordinates shifted by 100, with the same seed |
| Terrain.ShapingLowers | app.py:68-71 | with a non-negative root and a non-negative island bias, the term island shaping subtracts is never negative |
| Terrain.DistanceNonNegative | app.py:68-70 | a cell's distance from the map centre is never negative, given a square root that returns non-negative values |
| Terrain.IslandShapingMonotone | app.py:64-71 | raising the island bias lowers or keeps every cell's elevation and leaves its moisture unchanged |
| Terrain.NoBiasNoShaping | app.py:71 | with island bias 0 the elevation is the raw elevation noise sample |
| Terrain.SampleCell | app.py:61-71 | one cell's computation gives that cell's shaped elevation and its moisture |
| Terrain.SynthesizeColumn | app.py:59-74 | the inner loop fills column x of both grids with that column's elevations and moistures and changes no other column |
| Terrain.Synthesize | app.py:58-74 | after the synthesis pass every cell of both grids holds its elevation and its moisture |
| Render.RenderBiomes | app.py:77-84 | after the render pass every pixel holds the colour of the biome of its elevation, its moisture and its elevation plus the temperature bias; no pixel is left unset |
| Cities.IsOcean | app.py:93 | the ocean test of one draw: the pixel under it is exactly the ocean colour |
| Cities.StampColumn | app.py:94-97 | one column after a stamp: cells within three of the centre in both axes take the city colour, the others keep their colour, and the length does not change |
| Cities.StampColumns | app.py:94-97 | the first k columns after a stamp are the stamped columns of the picture |
| Cities.Stamped | app.py:94-97 | a stamp gives the city colour to exactly the in-picture cells with offsets -3..3 in both axes; every other cell is unchanged and the size is kept |
| Cities.FirstLand | app.py:89-93 | finds the first draw in a range that is not on ocean, if there is one: the draws before it are on ocean, and `None` means every draw in the range is on ocean |
| Cities.FirstLandIsFirst | app.py:89-93 | when every draw before k lands on ocean and draw k does not, the search returns k |
| Cities.CityStep | app.py:88-99 | a city is placed exactly when one of its 200 draws is off the ocean; then the first such draw is stamped and the later draws are left unused; otherwise all 200 draws are used and the picture is unchanged |
| Cities.PlaceAll | app.py:87-99 | after all the cities, the picture keeps its size, at most `city_count` cities are placed, and at most 200 × `city_count` draws are used in all |
| Cities.DrawsPerCity | app.py:87-93 | each further city uses at least one draw and at most 200 |
| Cities.CellsCityOrOriginal | app.py:87-99 | after city placement every pixel is either its colour before placement or the city colour |
| Cities.LandStaysLand | app.py:93-97 | a pixel that was not ocean before city placement is not ocean after it |
| Cities.CityStepOnOcean | app.py:89-99 | on an all-ocean picture a city is skipped, the picture is unchanged, and all 200 draws are used |
| Cities.CityStepFirstDrawOnLand | app.py:90-98 | when the first draw is off the ocean, the city is placed and only that draw is used |
| Cities.AllOceanPlacesNoCity | app.py:87-99 | on an all-ocean picture no city is placed, no pixel changes, and exactly 200 draws are used per city |
| Cities.NoOceanPlacesEveryCity | app.py:87-99 | on a picture without ocean every city is placed, each on its first draw |
| Cities.Stamp | app.py:94-97 | stamps the buffer in place: the in-picture cells within three of the centre take the city colour and no other pixel changes; the buffer then holds `Stamped` of its old contents |
| Cities.FindLand | app.py:88-99 | the retry loop over at most 200 draws changes nothing and returns the first draw whose pixel is not ocean, or `None` when all 200 land on ocean, exactly as `FirstLand` says |
| Cities.PlaceCity | app.py:88-99 | one city leaves the buffer, the placed flag and the next unused draw exactly as `CityStep` says |
| Cities.PlaceCities | app.py:87-99 | the city loop leaves the buffer as `PlaceAll` of its old contents, and returns how many cities it placed |
| World.BiomeAt | app.py:79-83 | a cell's biome lies in the region of its shaped elevation, its moisture and its elevation plus the temperature bias |
| World.RenderedColumn | app.py:77-84 | column x of the rendered picture holds the colour of each of its cells' biomes |
| World.RenderedColumns | app.py:77-84 | the first k columns of the rendered picture are the rendered columns |
| World.RenderedWorld | app.py:77-84 | the rendered picture is world_size × world_size and every pixel shows its cell's biome colour |
| World.GenerateWorld | app.py:50-99 | starting from a black image and zeroed grids, generation produces a fresh world_size × world_size picture that is the rendered world with the cities of the given draws stamped on it |
| World.GeneratedPixels | app.py:50-99 | every pixel of a generated world shows either its cell's biome colour or the city colour |
| World.SunkenWorldHasNoCity | app.py:58-99 | if every cell's elevation is below -0.2, no city is placed, the picture is exactly the rendered world, and all the draws are used |
| World.RisenWorldPlacesEveryCity | app.py:58-99 | if no cell's elevation is below -0.2, every city is placed on its first draw |

## Left out

- The Streamlit page: configuration, title, sliders, the seed input, the button, showing the image and the download button. These are UI and I/O. The slider values become the fields of `Params`.
- `noise.pnoise2` is a foreign library call. It is a parameter `noise` of the model, called with the noise coordinates, the octave count and the seed. Nothing is assumed about its values.
- `np.sqrt` is a parameter `root`. The only thing assumed about it is that its values are never negative, and only for the island-shaping lemmas.
- Floating point: thresholds, divisions and `elev + temperature_bias` are exact real arithmetic. A float that rounds onto a threshold (for example 0.45 as a double) may be classified differently than the decimal value.
- `random.randint` is replaced by the caller's draw sequence. That sequence must hold at least 200 draws per city, so the generator never runs out of draws.
- `Image.new` and `img.load()` become an `array2<Rgb>` that starts black. `img.tobytes()` is not modelled; PNG encoding is not part of this model.
- PlaceCities and GenerateWorld return how many cities were placed. The source does not count them; the count makes a skipped city observable.
- Cities.PlaceCity: the source stamps inside the retry loop and then breaks. The model runs the loop as `FindLand` and stamps after it returns. Nothing is written before the stamp, so the outcome is the same.
- Terrain.SynthesizeColumn: the synthesis pass's inner `y` loop is a method of its own, with the same writes as the source.
- Terrain.IslandShapingMonotone states a non-strict decrease. A strict decrease at cells off the centre would need assumptions about the square root beyond non-negativity, and the root is a parameter.
