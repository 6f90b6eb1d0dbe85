/** The main view's ROI list, read from the `roi_shapes` GeoJSON feature
    collection: each Polygon or MultiPolygon feature becomes an ROI placed
    at the mean of all its vertices, with the y axis flipped about 688. */
module RoiShapes {
  import opened Common
  import opened Geometry

  /** A feature geometry. Coordinates are `[x, y]` pairs. */
  datatype Shape =
    | Polygon(rings: seq<seq<Point>>)
    | MultiPolygon(polygons: seq<seq<seq<Point>>>)
    | OtherShape(typeName: string)

  /** `feature.properties`; a property that is absent is `None`. */
  datatype Props = Props(name: Option<string>, score: Option<real>, interactions: Option<seq<string>>)

  /** `geometry` is `None` when the feature has no geometry or the geometry
      has no `coordinates`; `properties` is `None` when the feature has none. */
  datatype Feature = Feature(geometry: Option<Shape>, properties: Option<Props>)

  /** An extracted ROI; `center` is `None` for the NaN pair of a geometry without vertices. */
  datatype Roi = Roi(id: string, center: Option<Point>, score: real, interactions: seq<string>, raw: Props)

  /** What the `map` callback does with one feature: return `null`, return
      an ROI, or throw (reading a property of an absent `properties`), which
      rejects the whole promise chain. */
  datatype Outcome = Dropped | Made(roi: Roi) | Throws

  const FlipAxis: real := 688.0

  /** `allCoords.flat()`: the vertices of a Polygon or MultiPolygon. */
  function Vertices(s: Shape): Option<seq<Point>> {
    match s
    case Polygon(rings) => Some(Flatten(rings))
    case MultiPolygon(polys) => Some(Flatten(Flatten(polys)))
    case OtherShape(_) => None
  }

  /** `[cx / count, 688 - cy / count]`. */
  function FlippedCentroid(ps: seq<Point>): Option<Point> {
    match Centroid(ps)
    case None => None
    case Some(c) => Some(Point(c.x, FlipAxis - c.y))
  }

  /** `feature.properties.name || \`ROI_${index}\``: an absent or empty name falls back. */
  function RoiId(p: Props, index: nat): string {
    if p.name.Some? && p.name.value != "" then p.name.value else "ROI_" + NatToString(index)
  }

  function ExtractFeature(f: Feature, index: nat): Outcome {
    if f.geometry.None? then Dropped
    else
      match Vertices(f.geometry.value)
      case None => Dropped
      case Some(ps) =>
        if f.properties.None? then Throws
        else
          var p := f.properties.value;
          Made(Roi(
            RoiId(p, index),
            FlippedCentroid(ps),
            if p.score.Some? then p.score.value else 0.0,
            if p.interactions.Some? then p.interactions.value else [],
            p))
  }

  /** `features.map(...).filter(Boolean)`, the index being the feature's
      position in the collection; `None` when some callback throws. */
  function ExtractRois(fs: seq<Feature>): Option<seq<Roi>> {
    if fs == [] then Some([])
    else
      match ExtractRois(fs[..|fs| - 1])
      case None => None
      case Some(rs) =>
        match ExtractFeature(fs[|fs| - 1], |fs| - 1)
        case Throws => None
        case Dropped => Some(rs)
        case Made(r) => Some(rs + [r])
  }

  /** The positions of the features that become ROIs. */
  function KeptIndices(fs: seq<Feature>): seq<nat> {
    if fs == [] then []
    else
      KeptIndices(fs[..|fs| - 1]) +
      if ExtractFeature(fs[|fs| - 1], |fs| - 1).Made? then [|fs| - 1] else []
  }

  ghost predicate StrictlyIncreasing(xs: seq<nat>) {
    forall i, j :: 0 <= i < j < |xs| ==> xs[i] < xs[j]
  }

  // ---------------------------------------------------------------------
  // One feature.
  // ---------------------------------------------------------------------

  /** A feature becomes an ROI exactly when it has a Polygon or MultiPolygon
      geometry with coordinates and has properties; it throws when only the
      properties are missing. */
  lemma ExtractFeatureCases(f: Feature, index: nat)
    ensures ExtractFeature(f, index).Made? <==>
      f.geometry.Some? && (f.geometry.value.Polygon? || f.geometry.value.MultiPolygon?) && f.properties.Some?
    ensures ExtractFeature(f, index).Throws? <==>
      f.geometry.Some? && (f.geometry.value.Polygon? || f.geometry.value.MultiPolygon?) && f.properties.None?
  {
  }

  /** The ROI's fields: the name or the positional fallback, the score or 0,
      the interactions or `[]`, and the properties kept verbatim. */
  lemma ExtractedFields(f: Feature, index: nat)
    requires ExtractFeature(f, index).Made?
    ensures var r := ExtractFeature(f, index).roi; var p := f.properties.value;
      && r.raw == p
      && (p.name.Some? && p.name.value != "" ==> r.id == p.name.value)
      && (p.name.None? || p.name.value == "" ==> r.id == "ROI_" + NatToString(index))
      && r.score == (if p.score.Some? then p.score.value else 0.0)
      && r.interactions == (if p.interactions.Some? then p.interactions.value else [])
  {
  }

  /** The centre is the mean of every vertex of every ring (of every polygon),
      with the y coordinate flipped: `count` copies of `x` add up to the sum
      of the x coordinates and `count` copies of `688 - y` to that of the y
      coordinates. A geometry without vertices gives the NaN centre. */
  lemma ExtractedCenter(f: Feature, index: nat)
    requires ExtractFeature(f, index).Made?
    ensures var ps := Vertices(f.geometry.value).value; var c := ExtractFeature(f, index).roi.center;
      && (c.Some? <==> |ps| > 0)
      && (c.Some? ==> Times(|ps|, c.value.x) == SumPoints(ps).x)
      && (c.Some? ==> Times(|ps|, FlipAxis - c.value.y) == SumPoints(ps).y)
  {
  }

  /** A MultiPolygon's vertices are those of all its polygons' rings. */
  lemma MultiPolygonVertices(polys: seq<seq<seq<Point>>>, p: Point)
    ensures p in Vertices(MultiPolygon(polys)).value <==>
      exists i, j :: 0 <= i < |polys| && 0 <= j < |polys[i]| && p in polys[i][j]
  {
    var rings := Flatten(polys);
    FlattenMembers(rings, p);
    if p in Flatten(rings) {
      var k :| 0 <= k < |rings| && p in rings[k];
      FlattenMembers(polys, rings[k]);
      var i :| 0 <= i < |polys| && rings[k] in polys[i];
      var j :| 0 <= j < |polys[i]| && polys[i][j] == rings[k];
    }
    if exists i, j :: 0 <= i < |polys| && 0 <= j < |polys[i]| && p in polys[i][j] {
      var i, j :| 0 <= i < |polys| && 0 <= j < |polys[i]| && p in polys[i][j];
      FlattenMembers(polys, polys[i][j]);
      var k :| 0 <= k < |rings| && rings[k] == polys[i][j];
    }
  }

  /** A centre lies inside any box that holds all vertices, mirrored in y. */
  lemma ExtractedCenterInBox(f: Feature, index: nat, lo: Point, hi: Point)
    requires ExtractFeature(f, index).Made?
    requires InBox(Vertices(f.geometry.value).value, lo, hi)
    requires |Vertices(f.geometry.value).value| > 0
    ensures var c := ExtractFeature(f, index).roi.center.value;
      lo.x <= c.x <= hi.x && FlipAxis - hi.y <= c.y <= FlipAxis - lo.y
  {
    CentroidInBox(Vertices(f.geometry.value).value, lo, hi);
  }

  /** Two unnamed features at different positions get different fallback ids. */
  lemma FallbackIdsDistinct(p: Props, q: Props, i: nat, j: nat)
    requires p.name.None? || p.name.value == ""
    requires q.name.None? || q.name.value == ""
    requires i != j
    ensures RoiId(p, i) != RoiId(q, j)
  {
    if RoiId(p, i) == RoiId(q, j) {
      var a := NatToString(i);
      var b := NatToString(j);
      assert "ROI_" + a == "ROI_" + b;
      assert a == ("ROI_" + a)[4..];
      assert b == ("ROI_" + b)[4..];
      NatToStringInjective(i, j);
    }
  }

  // ---------------------------------------------------------------------
  // The whole collection.
  // ---------------------------------------------------------------------

  /** The extraction fails exactly when some feature's callback throws. */
  lemma {:induction false} ExtractRoisFails(fs: seq<Feature>)
    ensures ExtractRois(fs).None? <==> exists i :: 0 <= i < |fs| && ExtractFeature(fs[i], i).Throws?
  {
    if fs != [] {
      var p := fs[..|fs| - 1];
      ExtractRoisFails(p);
      if exists i :: 0 <= i < |p| && ExtractFeature(p[i], i).Throws? {
        var i :| 0 <= i < |p| && ExtractFeature(p[i], i).Throws?;
        assert fs[i] == p[i];
      }
      if exists i :: 0 <= i < |fs| && ExtractFeature(fs[i], i).Throws? {
        var i :| 0 <= i < |fs| && ExtractFeature(fs[i], i).Throws?;
        if i < |p| {
          assert fs[i] == p[i];
        }
      }
    }
  }

  /** On success the ROIs are, in collection order, exactly the features that
      are not dropped, each extracted at its own position in the collection. */
  lemma ExtractRoisOrder(fs: seq<Feature>)
    requires ExtractRois(fs).Some?
    ensures var rs := ExtractRois(fs).value; var ks := KeptIndices(fs);
      && |rs| == |ks| <= |fs|
      && StrictlyIncreasing(ks)
      && (forall k :: 0 <= k < |ks| ==> ks[k] < |fs| && ExtractFeature(fs[ks[k]], ks[k]) == Made(rs[k]))
      && (forall i :: 0 <= i < |fs| && ExtractFeature(fs[i], i).Made? ==> i in ks)
  {
    var rs := ExtractRois(fs).value;
    var ks := KeptIndices(fs);
    KeptIndicesIncreasing(fs);
    ExtractRoisLength(fs);
    forall k | 0 <= k < |ks| ensures ExtractFeature(fs[ks[k]], ks[k]) == Made(rs[k]) {
      ExtractRoisAt(fs, k);
    }
    forall i | 0 <= i < |fs| && ExtractFeature(fs[i], i).Made? ensures i in ks {
      KeptComplete(fs, i);
    }
  }

  /** The kept indices are positions of the collection, in increasing order. */
  lemma {:induction false} KeptIndicesIncreasing(fs: seq<Feature>)
    decreases |fs|, 1
    ensures |KeptIndices(fs)| <= |fs|
    ensures forall k :: 0 <= k < |KeptIndices(fs)| ==> KeptIndices(fs)[k] < |fs|
    ensures StrictlyIncreasing(KeptIndices(fs))
  {
    if fs != [] {
      KeptIndicesIncreasingStep(fs);
    }
  }

  lemma KeptIndicesIncreasingStep(fs: seq<Feature>)
    requires fs != []
    decreases |fs|, 0
    ensures |KeptIndices(fs)| <= |fs|
    ensures forall k :: 0 <= k < |KeptIndices(fs)| ==> KeptIndices(fs)[k] < |fs|
    ensures StrictlyIncreasing(KeptIndices(fs))
  {
    KeptIndicesIncreasing(fs[..|fs| - 1]);
  }

  /** One ROI per kept feature. */
  lemma {:induction false} ExtractRoisLength(fs: seq<Feature>)
    requires ExtractRois(fs).Some?
    decreases |fs|, 1
    ensures |ExtractRois(fs).value| == |KeptIndices(fs)|
  {
    if fs != [] {
      ExtractRoisLengthStep(fs);
    }
  }

  lemma ExtractRoisLengthStep(fs: seq<Feature>)
    requires fs != [] && ExtractRois(fs).Some?
    decreases |fs|, 0
    ensures |ExtractRois(fs).value| == |KeptIndices(fs)|
  {
    ExtractRoisLength(fs[..|fs| - 1]);
  }

  /** The `k`-th ROI is the extraction of the `k`-th kept feature. */
  lemma {:induction false} ExtractRoisAt(fs: seq<Feature>, k: nat)
    requires ExtractRois(fs).Some? && k < |KeptIndices(fs)|
    decreases |fs|, 1
    ensures |ExtractRois(fs).value| == |KeptIndices(fs)|
    ensures KeptIndices(fs)[k] < |fs|
    ensures ExtractFeature(fs[KeptIndices(fs)[k]], KeptIndices(fs)[k]) == Made(ExtractRois(fs).value[k])
  {
    ExtractRoisAtStep(fs, k);
  }

  lemma ExtractRoisAtStep(fs: seq<Feature>, k: nat)
    requires ExtractRois(fs).Some? && k < |KeptIndices(fs)|
    decreases |fs|, 0
    ensures |ExtractRois(fs).value| == |KeptIndices(fs)|
    ensures KeptIndices(fs)[k] < |fs|
    ensures ExtractFeature(fs[KeptIndices(fs)[k]], KeptIndices(fs)[k]) == Made(ExtractRois(fs).value[k])
  {
    var p := fs[..|fs| - 1];
    ExtractRoisLength(fs);
    ExtractRoisLength(p);
    KeptIndicesIncreasing(p);
    var ks0 := KeptIndices(p);
    if k < |ks0| {
      ExtractRoisAt(p, k);
      assert KeptIndices(fs)[k] == ks0[k];
      assert ExtractRois(fs).value[k] == ExtractRois(p).value[k];
      assert fs[ks0[k]] == p[ks0[k]];
    } else {
      assert KeptIndices(fs)[k] == |fs| - 1;
    }
  }

  /** Every feature that is made into a ROI is kept. */
  lemma {:induction false} KeptComplete(fs: seq<Feature>, i: nat)
    requires i < |fs| && ExtractFeature(fs[i], i).Made?
    decreases |fs|, 1
    ensures i in KeptIndices(fs)
  {
    KeptCompleteStep(fs, i);
  }

  lemma KeptCompleteStep(fs: seq<Feature>, i: nat)
    requires i < |fs| && ExtractFeature(fs[i], i).Made?
    decreases |fs|, 0
    ensures i in KeptIndices(fs)
  {
    var p := fs[..|fs| - 1];
    if i < |fs| - 1 {
      assert fs[i] == p[i];
      KeptComplete(p, i);
    }
  }

  /** What the `roi_shapes` request delivers: a failure (network, HTTP status
      or invalid JSON), or a body whose `features` is an array or is not. */
  datatype ShapesResponse = ShapesFailed | ShapesBody(features: Option<seq<Feature>>)

  /** The `rois` state after the request settles. */
  function RoisAfterLoad(current: seq<Roi>, resp: ShapesResponse): seq<Roi> {
    match resp
    case ShapesFailed => []
    case ShapesBody(None) => current
    case ShapesBody(Some(fs)) =>
      match ExtractRois(fs)
      case None => []
      case Some(rs) => rs
  }

  /** A body without a feature array leaves the list alone; otherwise the list
      is replaced wholesale, and it is empty exactly when the request failed,
      a callback threw, or no feature has a polygonal geometry and properties. */
  lemma RoisAfterLoadCases(current: seq<Roi>, resp: ShapesResponse)
    ensures resp == ShapesBody(None) ==> RoisAfterLoad(current, resp) == current
    ensures resp.ShapesBody? && resp.features.Some? ==>
      var fs := resp.features.value;
      (RoisAfterLoad(current, resp) == [] <==>
        (exists i :: 0 <= i < |fs| && ExtractFeature(fs[i], i).Throws?) ||
        (forall i :: 0 <= i < |fs| ==> !ExtractFeature(fs[i], i).Made?))
    ensures resp == ShapesFailed ==> RoisAfterLoad(current, resp) == []
  {
    if resp.ShapesBody? && resp.features.Some? {
      var fs := resp.features.value;
      ExtractRoisFails(fs);
      if ExtractRois(fs).Some? {
        ExtractRoisEmpty(fs);
      }
    }
  }

  /** A successful extraction is empty exactly when no feature is made into a ROI. */
  lemma ExtractRoisEmpty(fs: seq<Feature>)
    requires ExtractRois(fs).Some?
    ensures ExtractRois(fs).value == [] <==> forall i :: 0 <= i < |fs| ==> !ExtractFeature(fs[i], i).Made?
  {
    ExtractRoisLength(fs);
    if KeptIndices(fs) != [] {
      ExtractRoisAt(fs, 0);
    }
    forall i | 0 <= i < |fs| && ExtractFeature(fs[i], i).Made? ensures i in KeptIndices(fs) {
      KeptComplete(fs, i);
    }
  }
}
