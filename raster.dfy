/** The four bands of one clipped scene, the NDVI computed from them cell by
    cell, and the NaN-aware statistics of each (download_and_process, lines 78-121). */
module Raster {
  import opened Common
  import opened NanStats

  /** A digital number of one band. The analytic surface-reflectance product is
      unsigned, so a cell value is never negative. */
  type DN = nat
  type Grid = seq<seq<DN>>

  predicate HasShape<T>(g: seq<seq<T>>, height: nat, width: nat) {
    |g| == height && forall i :: 0 <= i < height ==> |g[i]| == width
  }

  /** Bands 1 to 4 of a scene file, in the file's order. */
  datatype Image = Image(blue: Grid, green: Grid, red: Grid, nir: Grid)

  /** What a raster read yields: four bands of one shape with at least one pixel. */
  predicate WellFormed(im: Image) {
    |im.blue| > 0 && |im.blue[0]| > 0 &&
    HasShape(im.blue, |im.blue|, |im.blue[0]|) &&
    HasShape(im.green, |im.blue|, |im.blue[0]|) &&
    HasShape(im.red, |im.blue|, |im.blue[0]|) &&
    HasShape(im.nir, |im.blue|, |im.blue[0]|)
  }

  type Scene = im: Image | WellFormed(im) witness Image([[0]], [[0]], [[0]], [[0]])

  function Height(s: Scene): nat { |s.blue| }
  function Width(s: Scene): nat { |s.blue[0]| }

  /** One NDVI cell, `(nir - red) / (nir + red)`; NaN (None) where the denominator is zero. */
  function NdviCell(nir: DN, red: DN): (v: Option<real>)
    ensures v.None? <==> nir + red == 0
    ensures v.Some? ==> v.value * (nir + red) as real == (nir - red) as real
    ensures v.Some? ==> -1.0 <= v.value <= 1.0
    ensures v.Some? ==> (0.0 < v.value <==> red < nir)
  {
    if nir + red == 0 then None
    else
      var d := (nir + red) as real;
      RatioBounds((nir - red) as real, d);
      Some((nir - red) as real / d)
  }

  lemma RatioBounds(a: real, d: real)
    requires 0.0 < d && -d <= a <= d
    ensures (a / d) * d == a
    ensures -1.0 <= a / d <= 1.0
    ensures 0.0 < a / d <==> 0.0 < a
  {
  }

  /** The element-wise NDVI array of two bands of one shape. */
  function NdviGrid(nir: Grid, red: Grid, height: nat, width: nat): (g: seq<seq<Option<real>>>)
    requires HasShape(nir, height, width) && HasShape(red, height, width)
    ensures HasShape(g, height, width)
    ensures forall i, j :: 0 <= i < height && 0 <= j < width ==> g[i][j] == NdviCell(nir[i][j], red[i][j])
  {
    seq(height, i requires 0 <= i < height =>
      seq(width, j requires 0 <= j < width => NdviCell(nir[i][j], red[i][j])))
  }

  /** All cells of a grid, row after row (what NumPy reduces over). */
  function Flatten<T>(g: seq<seq<T>>): seq<T> {
    if g == [] then [] else g[0] + Flatten(g[1..])
  }

  /** A cell is in the flattened grid exactly when it is in one of its rows. */
  lemma {:induction false} FlattenMembers<T(!new)>(g: seq<seq<T>>)
    ensures forall x :: x in Flatten(g) <==> exists i :: 0 <= i < |g| && x in g[i]
  {
    if g != [] {
      FlattenMembers(g[1..]);
      assert forall i :: 1 <= i < |g| ==> g[i] == g[1..][i - 1];
    }
  }

  /** A band's values as cells of a float array. */
  function BandCells(g: Grid): Cells {
    var f := Flatten(g);
    seq(|f|, k requires 0 <= k < |f| => Some(f[k] as real))
  }

  function NdviCells(s: Scene): Cells {
    Flatten(NdviGrid(s.nir, s.red, Height(s), Width(s)))
  }

  /** The five arrays a statistics row summarises, in the row's order. */
  datatype Measure = Ndvi | Red | Blue | Green | Nir

  function MeasureCells(s: Scene, m: Measure): Cells {
    match m
    case Ndvi => NdviCells(s)
    case Red => BandCells(s.red)
    case Blue => BandCells(s.blue)
    case Green => BandCells(s.green)
    case Nir => BandCells(s.nir)
  }

  /** `nanmean`, `nanmin`, `nanmax` of one of the five arrays. */
  function Stats(s: Scene, m: Measure): Summary {
    Reduce(MeasureCells(s, m))
  }

  /** Every band statistic is defined (a scene has a pixel and band values are never NaN),
      is a value some pixel holds, and `min <= mean <= max`. */
  lemma {:induction false} BandStatsDefined(s: Scene, m: Measure)
    requires m != Ndvi
    ensures Stats(s, m).mean.Some? && Stats(s, m).min.Some? && Stats(s, m).max.Some?
    ensures Stats(s, m).min.value <= Stats(s, m).mean.value <= Stats(s, m).max.value
    ensures 0.0 <= Stats(s, m).min.value
  {
    var g := match m case Red => s.red case Blue => s.blue case Green => s.green case _ => s.nir;
    assert MeasureCells(s, m) == BandCells(g);
    assert |Flatten(g)| >= |g[0]| > 0;
    var c := BandCells(g);
    assert c[0] in c;
    ReduceSpec(c);
    var lo := Stats(s, m).min;
    assert lo in c;
    var k :| 0 <= k < |c| && c[k] == lo;
  }

  /** The NDVI statistics are all undefined exactly when every pixel has `nir + red == 0`. */
  lemma {:induction false} NdviUndefinedIff(s: Scene)
    ensures Stats(s, Ndvi).mean.None? <==>
              forall i, j :: 0 <= i < Height(s) && 0 <= j < Width(s) ==> s.nir[i][j] + s.red[i][j] == 0
  {
    var g := NdviGrid(s.nir, s.red, Height(s), Width(s));
    FlattenMembers(g);
    ReduceSpec(NdviCells(s));
    if forall i, j :: 0 <= i < Height(s) && 0 <= j < Width(s) ==> s.nir[i][j] + s.red[i][j] == 0 {
      forall c | c in NdviCells(s) ensures c.None? {
        var i :| 0 <= i < |g| && c in g[i];
        var j :| 0 <= j < |g[i]| && g[i][j] == c;
      }
    } else {
      var i, j :| 0 <= i < Height(s) && 0 <= j < Width(s) && s.nir[i][j] + s.red[i][j] != 0;
      assert g[i][j] in g[i];
      assert g[i][j] in NdviCells(s);
    }
  }

  /** Defined NDVI statistics lie in [-1, 1]. */
  lemma {:induction false} NdviStatsBounded(s: Scene)
    ensures var r := Stats(s, Ndvi);
            r.mean.Some? ==> r.min.Some? && r.max.Some? && -1.0 <= r.min.value <= r.mean.value <= r.max.value <= 1.0
  {
    var g := NdviGrid(s.nir, s.red, Height(s), Width(s));
    var r := Stats(s, Ndvi);
    ReduceSpec(NdviCells(s));
    if r.mean.Some? {
      FlattenMembers(g);
      forall c | c in NdviCells(s) && c.Some? ensures -1.0 <= c.value <= 1.0 {
        var i :| 0 <= i < |g| && c in g[i];
        var j :| 0 <= j < |g[i]| && g[i][j] == c;
      }
      assert r.min in NdviCells(s) && r.max in NdviCells(s);
    }
  }

  /** A 2x2 scene whose red and near-infrared bands are all zero: every NDVI cell is NaN,
      so all three NDVI statistics are undefined. */
  lemma ZeroRedAndNirGiveUndefinedNdvi(blue: Grid, green: Grid)
    requires HasShape(blue, 2, 2) && HasShape(green, 2, 2)
    ensures var s: Scene := Image(blue, green, [[0, 0], [0, 0]], [[0, 0], [0, 0]]);
            Stats(s, Ndvi) == Summary(None, None, None)
  {
    var s: Scene := Image(blue, green, [[0, 0], [0, 0]], [[0, 0], [0, 0]]);
    NdviUndefinedIff(s);
    ReduceSpec(NdviCells(s));
  }
}
