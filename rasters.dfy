/**
 * The picture as a value: a square grid of pixels indexed [x][y], and the
 * value held by a pixel buffer (array2) at a given moment.
 */
module Rasters {
  import opened Biomes

  type Raster = seq<seq<Rgb>>

  /** Every column is as long as there are columns: a world_size x world_size picture. */
  predicate IsRaster(r: Raster) {
    forall i :: 0 <= i < |r| ==> |r[i]| == |r|
  }

  /** The first k pixels of column i of a pixel buffer. */
  ghost function ColumnOf(a: array2<Rgb>, i: nat, k: nat): (c: seq<Rgb>)
    requires i < a.Length0 && k <= a.Length1
    reads a
    ensures |c| == k
    ensures forall j {:trigger c[j]} :: 0 <= j < k ==> c[j] == a[i, j]
  {
    if k == 0 then [] else ColumnOf(a, i, k - 1) + [a[i, k - 1]]
  }

  /** The first k columns of a pixel buffer. */
  ghost function ColumnsOf(a: array2<Rgb>, k: nat): (r: Raster)
    requires k <= a.Length0
    reads a
    ensures |r| == k
    ensures forall i {:trigger r[i]} :: 0 <= i < k ==> r[i] == ColumnOf(a, i, a.Length1)
  {
    if k == 0 then [] else ColumnsOf(a, k - 1) + [ColumnOf(a, k - 1, a.Length1)]
  }

  /** The contents of a pixel buffer, column by column. */
  ghost function Snapshot(a: array2<Rgb>): (r: Raster)
    reads a
    ensures |r| == a.Length0
    ensures forall i {:trigger r[i]} :: 0 <= i < |r| ==> |r[i]| == a.Length1
    ensures forall i, j {:trigger r[i][j]} :: 0 <= i < a.Length0 && 0 <= j < a.Length1 ==> r[i][j] == a[i, j]
  {
    ColumnsOf(a, a.Length0)
  }

  /** Two pictures with the same size and the same pixels are equal. */
  lemma RasterEq(a: Raster, b: Raster)
    requires |a| == |b| && IsRaster(a) && IsRaster(b)
    requires forall i, j :: 0 <= i < |a| && 0 <= j < |a| ==> a[i][j] == b[i][j]
    ensures a == b
  {
    forall i | 0 <= i < |a|
      ensures a[i] == b[i]
    {
      assert forall j :: 0 <= j < |a| ==> a[i][j] == b[i][j];
    }
  }
}
