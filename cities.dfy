/**
 * Settlement placement (app.py, the city loop): up to 200 random draws per
 * city, the first draw that does not land on ocean gets a 7x7 stamp clipped
 * to the picture, and a city whose draws all land on ocean is skipped.
 * The random number generator is replaced by a sequence of draws consumed in
 * order.
 */
module Cities {
  import opened Wrappers
  import opened Biomes
  import opened Rasters

  /** How many draws one city may use before it is given up. */
  const MaxAttempts: nat := 200
  /** Half the side of the square stamp: offsets -3..3 in both axes. */
  const StampRadius: int := 3

  /** One draw of random.randint for x and then for y. */
  datatype Point = Point(x: nat, y: nat)

  /** Every draw lies on an n x n picture, as randint(0, n - 1) guarantees. */
  predicate ValidDraws(draws: seq<Point>, n: nat) {
    forall k :: 0 <= k < |draws| ==> draws[k].x < n && draws[k].y < n
  }

  /** The pixel under a draw is exactly the ocean colour. */
  predicate IsOcean(r: Raster, p: Point)
    requires IsRaster(r) && p.x < |r| && p.y < |r|
  {
    r[p.x][p.y] == Colour(Ocean)
  }

  /** Cell (i, j) lies within the square stamp centred at (x, y). */
  predicate InStamp(x: int, y: int, i: int, j: int) {
    -StampRadius <= i - x <= StampRadius && -StampRadius <= j - y <= StampRadius
  }

  /** Column i of a picture after a stamp centred at (x, y). */
  function StampColumn(col: seq<Rgb>, x: int, y: int, i: int): (c: seq<Rgb>)
    ensures |c| == |col|
    ensures forall j {:trigger c[j]} :: 0 <= j < |col| ==> c[j] == if InStamp(x, y, i, j) then CityColour else col[j]
  {
    if col == [] then []
    else
      var j := |col| - 1;
      StampColumn(col[..j], x, y, i) + [if InStamp(x, y, i, j) then CityColour else col[j]]
  }

  /** The first k columns of a picture after a stamp centred at (x, y). */
  function StampColumns(r: Raster, x: int, y: int, k: nat): (s: Raster)
    requires k <= |r|
    ensures |s| == k
    ensures forall i {:trigger s[i]} :: 0 <= i < k ==> s[i] == StampColumn(r[i], x, y, i)
  {
    if k == 0 then [] else StampColumns(r, x, y, k - 1) + [StampColumn(r[k - 1], x, y, k - 1)]
  }

  /**
   * The picture after a stamp centred at (x, y): the pixels of the picture
   * within three cells of the centre in both axes take the city colour, all
   * others keep theirs, and the size does not change.
   */
  function Stamped(r: Raster, x: int, y: int): (s: Raster)
    requires IsRaster(r)
    ensures IsRaster(s) && |s| == |r|
    ensures forall i, j {:trigger s[i][j]} :: 0 <= i < |r| && 0 <= j < |r| ==>
      s[i][j] == if InStamp(x, y, i, j) then CityColour else r[i][j]
  {
    StampColumns(r, x, y, |r|)
  }

  /**
   * The first draw in [from, stop) whose pixel is not ocean, if there is one.
   */
  function FirstLand(r: Raster, draws: seq<Point>, from: nat, stop: nat): (k: Option<nat>)
    requires IsRaster(r) && ValidDraws(draws, |r|) && from <= stop <= |draws|
    ensures k.Some? ==> from <= k.value < stop && !IsOcean(r, draws[k.value])
    ensures k.Some? ==> forall d {:trigger IsOcean(r, draws[d])} :: from <= d < k.value ==> IsOcean(r, draws[d])
    ensures k.None? <==> forall d {:trigger IsOcean(r, draws[d])} :: from <= d < stop ==> IsOcean(r, draws[d])
    decreases stop - from
  {
    if from == stop then None
    else if !IsOcean(r, draws[from]) then Some(from)
    else FirstLand(r, draws, from + 1, stop)
  }

  /**
   * The search finds exactly the first draw off the ocean: when every draw
   * from `from` up to k is on ocean and draw k is not, the result is k.
   */
  lemma {:induction false} FirstLandIsFirst(r: Raster, draws: seq<Point>, from: nat, stop: nat, k: nat)
    requires IsRaster(r) && ValidDraws(draws, |r|) && from <= k < stop <= |draws|
    requires forall d {:trigger IsOcean(r, draws[d])} :: from <= d < k ==> IsOcean(r, draws[d])
    requires !IsOcean(r, draws[k])
    ensures FirstLand(r, draws, from, stop) == Some(k)
    decreases k - from
  {
    if from < k {
      assert IsOcean(r, draws[from]);
      FirstLandIsFirst(r, draws, from + 1, stop, k);
    }
  }

  /** The picture after one city, whether it was placed, and the first unused draw. */
  datatype Step = Step(raster: Raster, placed: bool, next: nat)

  /**
   * One city, starting at draw `next`: it is placed exactly when one of its
   * 200 draws lands off the ocean; then the first such draw is the centre
   * of the stamp and the draws after it are left unused. Otherwise all 200
   * draws are used and the picture is unchanged.
   */
  function CityStep(r: Raster, draws: seq<Point>, next: nat): (s: Step)
    requires IsRaster(r) && ValidDraws(draws, |r|) && next + MaxAttempts <= |draws|
    ensures IsRaster(s.raster) && |s.raster| == |r|
    ensures s.placed <==> exists d {:trigger IsOcean(r, draws[d])} :: next <= d < next + MaxAttempts && !IsOcean(r, draws[d])
    ensures s.placed ==>
      && next < s.next <= next + MaxAttempts
      && !IsOcean(r, draws[s.next - 1])
      && (forall d {:trigger IsOcean(r, draws[d])} :: next <= d < s.next - 1 ==> IsOcean(r, draws[d]))
      && s.raster == Stamped(r, draws[s.next - 1].x, draws[s.next - 1].y)
    ensures !s.placed ==> s.next == next + MaxAttempts && s.raster == r
  {
    match FirstLand(r, draws, next, next + MaxAttempts)
    case Some(d) => Step(Stamped(r, draws[d].x, draws[d].y), true, d + 1)
    case None => Step(r, false, next + MaxAttempts)
  }

  /** The picture after some cities, how many were placed, and the first unused draw. */
  datatype Outcome = Outcome(raster: Raster, placed: nat, next: nat)

  /**
   * The first `cities` cities, one after the other. At most one stamp per city,
   * each placed city uses at least one draw and no city uses more than 200.
   */
  function PlaceAll(r: Raster, draws: seq<Point>, cities: nat): (o: Outcome)
    requires IsRaster(r) && ValidDraws(draws, |r|) && 200 * cities <= |draws|
    ensures IsRaster(o.raster) && |o.raster| == |r|
    ensures o.placed <= cities && o.placed <= o.next <= 200 * cities
    decreases cities
  {
    if cities == 0 then Outcome(r, 0, 0)
    else
      var o := PlaceAll(r, draws, cities - 1);
      var s := CityStep(o.raster, draws, o.next);
      Outcome(s.raster, o.placed + (if s.placed then 1 else 0), s.next)
  }

  /** One more city: the outcome after c + 1 cities is one city step after the outcome after c. */
  lemma PlaceAllStep(r: Raster, draws: seq<Point>, c: nat)
    requires IsRaster(r) && ValidDraws(draws, |r|) && 200 * (c + 1) <= |draws|
    ensures var o := PlaceAll(r, draws, c);
      var s := CityStep(o.raster, draws, o.next);
      PlaceAll(r, draws, c + 1) == Outcome(s.raster, o.placed + (if s.placed then 1 else 0), s.next)
  {
  }

  /** Each further city uses at least one draw and at most 200. */
  lemma DrawsPerCity(r: Raster, draws: seq<Point>, c: nat)
    requires IsRaster(r) && ValidDraws(draws, |r|) && 200 * (c + 1) <= |draws|
    ensures PlaceAll(r, draws, c).next < PlaceAll(r, draws, c + 1).next <= PlaceAll(r, draws, c).next + MaxAttempts
  {
    PlaceAllStep(r, draws, c);
  }

  /** Every pixel ends up either as it was or in the city colour. */
  lemma {:induction false} CellsCityOrOriginal(r: Raster, draws: seq<Point>, cities: nat, i: nat, j: nat)
    requires IsRaster(r) && ValidDraws(draws, |r|) && 200 * cities <= |draws|
    requires i < |r| && j < |r|
    ensures PlaceAll(r, draws, cities).raster[i][j] in {r[i][j], CityColour}
  {
    if cities > 0 {
      var c: nat := cities - 1;
      CellsCityOrOriginal(r, draws, c, i, j);
      var o := PlaceAll(r, draws, c);
      var s := CityStep(o.raster, draws, o.next);
      assert s.raster[i][j] == o.raster[i][j] || s.raster[i][j] == CityColour;
      PlaceAllStep(r, draws, c);
    }
  }

  /** A pixel that is not ocean never becomes ocean: stamps only add land. */
  lemma LandStaysLand(r: Raster, draws: seq<Point>, cities: nat, i: nat, j: nat)
    requires IsRaster(r) && ValidDraws(draws, |r|) && 200 * cities <= |draws|
    requires i < |r| && j < |r| && r[i][j] != Colour(Ocean)
    ensures PlaceAll(r, draws, cities).raster[i][j] != Colour(Ocean)
  {
    CellsCityOrOriginal(r, draws, cities, i, j);
    CityColourIsNoBiome();
  }

  /** Every pixel of the picture is ocean. */
  predicate AllOcean(r: Raster) {
    forall i, j :: 0 <= i < |r| && 0 <= j < |r[i]| ==> r[i][j] == Colour(Ocean)
  }

  /** No pixel of the picture is ocean. */
  predicate NoOcean(r: Raster) {
    forall i, j :: 0 <= i < |r| && 0 <= j < |r[i]| ==> r[i][j] != Colour(Ocean)
  }

  /** On an all-ocean picture one city is skipped after using all its draws. */
  lemma CityStepOnOcean(r: Raster, draws: seq<Point>, next: nat)
    requires IsRaster(r) && ValidDraws(draws, |r|) && next + MaxAttempts <= |draws|
    requires AllOcean(r)
    ensures CityStep(r, draws, next) == Step(r, false, next + MaxAttempts)
  {
  }

  /** A city whose first draw lands off the ocean is placed there, using one draw. */
  lemma CityStepFirstDrawOnLand(r: Raster, draws: seq<Point>, next: nat)
    requires IsRaster(r) && ValidDraws(draws, |r|) && next + MaxAttempts <= |draws|
    requires !IsOcean(r, draws[next])
    ensures CityStep(r, draws, next).placed && CityStep(r, draws, next).next == next + 1
  {
  }

  /** A picture that is all ocean gets no city, keeps every pixel, and uses all 200 draws per city. */
  lemma {:induction false} AllOceanPlacesNoCity(r: Raster, draws: seq<Point>, cities: nat)
    requires IsRaster(r) && ValidDraws(draws, |r|) && 200 * cities <= |draws|
    requires AllOcean(r)
    ensures PlaceAll(r, draws, cities) == Outcome(r, 0, 200 * cities)
  {
    if cities > 0 {
      var c: nat := cities - 1;
      AllOceanPlacesNoCity(r, draws, c);
      CityStepOnOcean(r, draws, 200 * c);
      PlaceAllStep(r, draws, c);
    }
  }

  /** A picture without ocean places every city, each on its first draw. */
  lemma {:induction false} NoOceanPlacesEveryCity(r: Raster, draws: seq<Point>, cities: nat)
    requires IsRaster(r) && ValidDraws(draws, |r|) && 200 * cities <= |draws|
    requires NoOcean(r)
    ensures PlaceAll(r, draws, cities).placed == cities
    ensures PlaceAll(r, draws, cities).next == cities
  {
    if cities > 0 {
      var c: nat := cities - 1;
      NoOceanPlacesEveryCity(r, draws, c);
      var o := PlaceAll(r, draws, c);
      var p := draws[c];
      assert r[p.x][p.y] != Colour(Ocean);
      LandStaysLand(r, draws, c, p.x, p.y);
      assert !IsOcean(o.raster, p);
      CityStepFirstDrawOnLand(o.raster, draws, o.next);
      PlaceAllStep(r, draws, c);
    }
  }

  /**
   * Stamps a city centred at (x, y): every pixel of the picture within three
   * cells in both axes takes the city colour; no other pixel changes.
   */
  method Stamp(pixels: array2<Rgb>, x: int, y: int)
    requires pixels.Length0 == pixels.Length1
    modifies pixels
    ensures forall i, j :: 0 <= i < pixels.Length0 && 0 <= j < pixels.Length1 ==>
      pixels[i, j] == if InStamp(x, y, i, j) then CityColour else old(pixels[i, j])
    ensures Snapshot(pixels) == Stamped(old(Snapshot(pixels)), x, y)
  {
    ghost var before := Snapshot(pixels);
    var n := pixels.Length0;
    for dx := -3 to 4
      invariant forall i, j :: 0 <= i < n && 0 <= j < n ==>
        pixels[i, j] == if InStamp(x, y, i, j) && i < x + dx then CityColour else old(pixels[i, j])
    {
      for dy := -3 to 4
        invariant forall i, j :: 0 <= i < n && 0 <= j < n ==>
          pixels[i, j] ==
            if InStamp(x, y, i, j) && (i < x + dx || (i == x + dx && j < y + dy)) then CityColour
            else old(pixels[i, j])
      {
        if 0 <= x + dx < n && 0 <= y + dy < n {
          pixels[x + dx, y + dy] := CityColour;
        }
      }
    }
    RasterEq(Snapshot(pixels), Stamped(before, x, y));
  }

  /**
   * The retry loop of one city: draws until a draw lands off the ocean, at
   * most 200 times, and returns the index of that draw, or None when every
   * draw landed on ocean. It reads the picture and changes nothing.
   */
  method FindLand(pixels: array2<Rgb>, draws: seq<Point>, next: nat) returns (found: Option<nat>)
    requires pixels.Length0 == pixels.Length1
    requires ValidDraws(draws, pixels.Length0) && next + MaxAttempts <= |draws|
    ensures found == FirstLand(Snapshot(pixels), draws, next, next + MaxAttempts)
  {
    ghost var start := Snapshot(pixels);
    assert IsRaster(start) && ValidDraws(draws, |start|);
    var attempts := 0;
    while attempts < MaxAttempts
      invariant attempts <= MaxAttempts
      invariant forall d {:trigger IsOcean(start, draws[d])} :: next <= d < next + attempts ==> IsOcean(start, draws[d])
    {
      var p := draws[next + attempts];
      assert pixels[p.x, p.y] == start[p.x][p.y];
      if pixels[p.x, p.y] != Colour(Ocean) {
        FirstLandIsFirst(start, draws, next, next + MaxAttempts, next + attempts);
        return Some(next + attempts);
      }
      attempts := attempts + 1;
    }
    return None;
  }

  /**
   * Places one city: the retry loop finds the first draw off the ocean, and
   * the city is stamped there. Returns whether it stamped and the first
   * unused draw.
   */
  method PlaceCity(pixels: array2<Rgb>, draws: seq<Point>, next: nat) returns (placed: bool, after: nat)
    requires pixels.Length0 == pixels.Length1
    requires ValidDraws(draws, pixels.Length0) && next + MaxAttempts <= |draws|
    modifies pixels
    ensures CityStep(old(Snapshot(pixels)), draws, next) == Step(Snapshot(pixels), placed, after)
  {
    var found := FindLand(pixels, draws, next);
    if found.Some? {
      var p := draws[found.value];
      Stamp(pixels, p.x, p.y);
      placed, after := true, found.value + 1;
    } else {
      placed, after := false, next + MaxAttempts;
    }
  }

  /**
   * Places `cityCount` cities one after the other, each with its own budget of
   * 200 draws, and returns how many were stamped.
   */
  method PlaceCities(pixels: array2<Rgb>, draws: seq<Point>, cityCount: nat) returns (placed: nat)
    requires pixels.Length0 == pixels.Length1
    requires ValidDraws(draws, pixels.Length0) && 200 * cityCount <= |draws|
    modifies pixels
    ensures var o := PlaceAll(old(Snapshot(pixels)), draws, cityCount);
      Snapshot(pixels) == o.raster && placed == o.placed
  {
    ghost var start := Snapshot(pixels);
    var next := 0;
    placed := 0;
    for c := 0 to cityCount
      invariant PlaceAll(start, draws, c) == Outcome(Snapshot(pixels), placed, next)
    {
      var ok;
      ok, next := PlaceCity(pixels, draws, next);
      PlaceAllStep(start, draws, c);
      if ok {
        placed := placed + 1;
      }
    }
  }
}
