/** The label-geometry generator: for every non-empty ROI of a segmentation
    file, a hollow circle around the ROI's centroid, keyed `ROI_<n>`, and
    `n` stem rectangles below it, keyed `ROI_<n><k>`, so that the n-th ROI
    carries n stems. */
module HollowCircles {
  import opened Common
  import opened Assoc
  import opened Geometry

  /** A vertex after rounding: `[round(x), round(y)]`. */
  datatype Vertex = Vertex(x: int, y: int)

  /** Python's `round` on a number: to the nearest integer, ties to even. */
  function RoundHalfEven(v: real): int {
    var f := v.Floor;
    var frac := v - f as real;
    if frac < 0.5 then f
    else if frac > 0.5 then f + 1
    else if f % 2 == 0 then f else f + 1
  }

  /** Rounding moves a value by at most one half, breaks ties towards an even
      integer, and keeps integers. */
  lemma RoundFacts(v: real)
    ensures -0.5 <= RoundHalfEven(v) as real - v <= 0.5
    ensures (RoundHalfEven(v) as real - v == 0.5 || v - RoundHalfEven(v) as real == 0.5) ==> RoundHalfEven(v) % 2 == 0
    ensures v == v.Floor as real ==> RoundHalfEven(v) == v.Floor
  {
  }

  /** Shifting by an even integer shifts the rounded value by the same amount. */
  lemma RoundShiftEven(v: real, j: int)
    ensures RoundHalfEven(v + (2 * j) as real) == RoundHalfEven(v) + 2 * j
  {
    assert (v + (2 * j) as real).Floor == v.Floor + 2 * j;
  }

  // ---------------------------------------------------------------------
  // Circles.
  // ---------------------------------------------------------------------

  /** `[round(cx + r·cos(2πi/n)), round(cy + r·sin(2πi/n))]` for centre,
      radius `r`, step `i` and step count `n`; the trigonometry is a parameter. */
  type CirclePoint = (Point, int, nat, nat) -> Vertex

  /** The points of steps `0..n` on the circle of radius `r`. */
  function Ring(pt: CirclePoint, c: Point, r: int, n: nat): (ring: seq<Vertex>)
    ensures |ring| == n + 1
    ensures forall i :: 0 <= i <= n ==> ring[i] == pt(c, r, i, n)
  {
    seq(n + 1, i requires 0 <= i <= n => pt(c, r, i, n))
  }

  /** `create_circle_polygon`: `num_points + 1` points, one per step, the
      last step returning to angle 2π. A step count of 0 divides by zero. */
  method CreateCirclePolygon(pt: CirclePoint, c: Point, radius: int, numPoints: nat) returns (polygon: seq<Vertex>)
    requires numPoints > 0
    ensures |polygon| == numPoints + 1
    ensures forall i :: 0 <= i <= numPoints ==> polygon[i] == pt(c, radius, i, numPoints)
  {
    polygon := [];
    for i := 0 to numPoints + 1
      invariant polygon == Ring(pt, c, radius, numPoints)[..i]
    {
      polygon := polygon + [pt(c, radius, i, numPoints)];
    }
  }

  /** The outer ring followed by the inner ring in reverse, so the two are
      traversed in opposite directions. */
  function HollowCircle(pt: CirclePoint, c: Point, radius: int, strokeWidth: int, n: nat): seq<Vertex> {
    Ring(pt, c, radius + strokeWidth / 2, n) + Reverse(Ring(pt, c, radius - strokeWidth / 2, n))
  }

  /** `create_hollow_circle_polygon`. */
  method CreateHollowCirclePolygon(pt: CirclePoint, c: Point, radius: int, strokeWidth: int, numPoints: nat)
    returns (hollow: seq<Vertex>)
    requires numPoints > 0
    ensures hollow == HollowCircle(pt, c, radius, strokeWidth, numPoints)
  {
    // `//` by a positive divisor is floor division, which `/` agrees with.
    var outerRadius := radius + strokeWidth / 2;
    var outerPolygon: seq<Vertex> := [];
    for i := 0 to numPoints + 1
      invariant outerPolygon == Ring(pt, c, outerRadius, numPoints)[..i]
    {
      outerPolygon := outerPolygon + [pt(c, outerRadius, i, numPoints)];
    }
    var innerRadius := radius - strokeWidth / 2;
    var innerPolygon: seq<Vertex> := [];
    for i := 0 to numPoints + 1
      invariant innerPolygon == Ring(pt, c, innerRadius, numPoints)[..i]
    {
      innerPolygon := innerPolygon + [pt(c, innerRadius, i, numPoints)];
    }
    assert outerPolygon == Ring(pt, c, outerRadius, numPoints);
    assert innerPolygon == Ring(pt, c, innerRadius, numPoints);
    hollow := outerPolygon + Reverse(innerPolygon);
  }

  /** A hollow circle has `2·(n + 1)` points: the outer ring at radius
      `radius + stroke//2` step by step, then the inner ring at radius
      `radius - stroke//2` from the last step back to the first. */
  lemma HollowCircleShape(pt: CirclePoint, c: Point, radius: int, strokeWidth: int, n: nat)
    ensures var h := HollowCircle(pt, c, radius, strokeWidth, n);
      && |h| == 2 * (n + 1)
      && (forall i :: 0 <= i <= n ==> h[i] == pt(c, radius + strokeWidth / 2, i, n))
      && (forall j :: n < j < |h| ==> h[j] == pt(c, radius - strokeWidth / 2, 2 * n + 1 - j, n))
      && (radius + strokeWidth / 2) - (radius - strokeWidth / 2) == 2 * (strokeWidth / 2)
  {
    var inner := Ring(pt, c, radius - strokeWidth / 2, n);
    var h := HollowCircle(pt, c, radius, strokeWidth, n);
    forall j | n < j < |h| ensures h[j] == pt(c, radius - strokeWidth / 2, 2 * n + 1 - j, n) {
      ReverseAt(inner, j - (n + 1));
    }
  }

  // ---------------------------------------------------------------------
  // Stems.
  // ---------------------------------------------------------------------

  /** `-(total - 1) / 2 * spacing + (k - 1) * spacing`, in true division. */
  function StemOffset(stemNumber: int, totalStems: int, spacing: int): real {
    -((totalStems - 1) as real) / 2.0 * (spacing as real) + ((stemNumber - 1) * spacing) as real
  }

  function StemX(c: Point, stemNumber: int, totalStems: int, spacing: int): int {
    RoundHalfEven(c.x + StemOffset(stemNumber, totalStems, spacing))
  }

  /** The stems sit 400 below the circle centre. */
  function StemY(c: Point): int {
    RoundHalfEven(c.y + 400.0)
  }

  /** `create_stem_polygon_with_offset`: a closed rectangle, corners in the
      order top-left, top-right, bottom-right, bottom-left, top-left. */
  function StemPolygon(c: Point, stemNumber: int, totalStems: int, stemWidth: int, stemHeight: int, spacing: int): seq<Vertex> {
    var x := StemX(c, stemNumber, totalStems, spacing);
    var y := StemY(c);
    var hw := stemWidth / 2;
    var hh := stemHeight / 2;
    [Vertex(x - hw, y - hh), Vertex(x + hw, y - hh), Vertex(x + hw, y + hh), Vertex(x - hw, y + hh), Vertex(x - hw, y - hh)]
  }

  /** Five points, the last repeating the first; the sides are axis-aligned,
      `2·(width//2)` wide and `2·(height//2)` high, centred on the stem's position. */
  lemma StemPolygonShape(c: Point, k: int, total: int, w: int, h: int, spacing: int)
    ensures var s := StemPolygon(c, k, total, w, h, spacing);
      && |s| == 5 && s[0] == s[4]
      && s[0].y == s[1].y && s[1].x == s[2].x && s[2].y == s[3].y && s[3].x == s[0].x
      && s[1].x - s[0].x == 2 * (w / 2) && s[2].y - s[1].y == 2 * (h / 2)
      && s[0].x + s[1].x == 2 * StemX(c, k, total, spacing)
      && s[1].y + s[2].y == 2 * StemY(c)
  {
  }

  /** The offsets are symmetric about the centre: stem `k` and stem
      `total + 1 - k` are mirror images, and neighbouring stems are one
      spacing apart. */
  lemma StemOffsetSymmetric(k: int, total: int, spacing: int)
    ensures StemOffset(k, total, spacing) + StemOffset(total + 1 - k, total, spacing) == 0.0
    ensures StemOffset(k + 1, total, spacing) - StemOffset(k, total, spacing) == spacing as real
  {
    var t := total as real;
    var s := spacing as real;
    var kk := k as real;
    assert ((k - 1) * spacing) as real == (kk - 1.0) * s;
    assert ((total + 1 - k - 1) * spacing) as real == (t - kk) * s;
    assert ((k + 1 - 1) * spacing) as real == kk * s;
  }

  /** With a spacing divisible by four every offset is an even integer, so
      rounding keeps the symmetry exactly: the mirrored stems' x positions
      add up to twice the rounded centre and neighbours differ by the spacing. */
  lemma StemXSymmetric(c: Point, k: int, total: int, spacing: int)
    requires spacing % 4 == 0
    ensures StemX(c, k, total, spacing) + StemX(c, total + 1 - k, total, spacing) == 2 * RoundHalfEven(c.x)
    ensures StemX(c, k + 1, total, spacing) - StemX(c, k, total, spacing) == spacing
  {
    var q := spacing / 4;
    var m := 2 * k - total - 1;
    StemXShifted(c, k, total, spacing);
    StemXShifted(c, total + 1 - k, total, spacing);
    StemXShifted(c, k + 1, total, spacing);
    MirroredShifts(m, q, 2 * (total + 1 - k) - total - 1, 2 * (k + 1) - total - 1);
  }

  lemma MirroredShifts(m: int, q: int, mirror: int, next: int)
    requires mirror == -m && next == m + 2
    ensures 2 * (m * q) + 2 * (mirror * q) == 0
    ensures 2 * (next * q) - 2 * (m * q) == 4 * q
  {
    assert mirror * q == -(m * q);
    assert next * q == m * q + 2 * q;
  }

  /** With a spacing of `4q`, stem `k` sits an even `2·(2k - total - 1)·q`
      from the rounded centre. */
  lemma StemXShifted(c: Point, k: int, total: int, spacing: int)
    requires spacing % 4 == 0
    ensures StemX(c, k, total, spacing) == RoundHalfEven(c.x) + 2 * ((2 * k - total - 1) * (spacing / 4))
  {
    var q := spacing / 4;
    assert spacing == 4 * q;
    EvenOffset(k, total, q);
    RoundShiftEven(c.x, (2 * k - total - 1) * q);
  }

  lemma EvenOffset(k: int, total: int, q: int)
    ensures StemOffset(k, total, 4 * q) == (2 * ((2 * k - total - 1) * q)) as real
  {
    var t := total as real;
    var qq := q as real;
    var kk := k as real;
    assert ((k - 1) * (4 * q)) as real == (kk - 1.0) * 4.0 * qq;
    assert (2 * ((2 * k - total - 1) * q)) as real == 2.0 * (2.0 * kk - t - 1.0) * qq;
  }

  // ---------------------------------------------------------------------
  // The segmentation file.
  // ---------------------------------------------------------------------

  /** A value of the input dictionary: a list of `[x, y]` pairs, or a list of
      rings of them (`[[[x, y], ...], ...]`). */
  datatype RoiEntry = Pairs(points: seq<Point>) | Rings(rings: seq<seq<Point>>)

  /** What an entry contributes: nothing (an empty list is skipped), the
      points to average, or an exception (a list whose first ring is empty
      leaves that empty list to be indexed). */
  datatype Coords = Skip | Use(points: seq<Point>) | Fails

  function EntryCoords(e: RoiEntry): (r: Coords)
    ensures r.Use? ==> |r.points| > 0
    ensures r.Skip? <==> (e.Pairs? && e.points == []) || (e.Rings? && e.rings == [])
    ensures e.Rings? && r.Use? ==> r.points == e.rings[0]
  {
    match e
    case Pairs(ps) => if ps == [] then Skip else Use(ps)
    case Rings(rs) => if rs == [] then Skip else if rs[0] != [] then Use(rs[0]) else Fails
  }

  function CircleKey(n: nat): string {
    "ROI_" + NatToString(n)
  }

  function StemKey(n: nat, k: nat): string {
    "ROI_" + (NatToString(n) + NatToString(k))
  }

  type Output = AList<seq<Vertex>>

  /** The constants `process_roi_file` passes. */
  const Radius: int := 200
  const StrokeWidth: int := 25
  const NumPoints: nat := 64
  const StemWidth: int := 50
  const StemHeight: int := 200
  const Spacing: int := 100

  /** The dictionary after stems `1..k` of ROI `n` are written. */
  function Stems(out: Output, n: nat, k: nat, c: Point): Output {
    if k == 0 then out
    else Put(Stems(out, n, k - 1, c), StemKey(n, k), StemPolygon(c, k, n, StemWidth, StemHeight, Spacing))
  }

  /** The dictionary built so far and the counter `roi_count`, which names the next ROI. */
  datatype Progress = Progress(out: Output, roiCount: nat)

  function AddRoi(p: Progress, pt: CirclePoint, c: Point): Progress {
    var n := p.roiCount;
    var out := Put(p.out, CircleKey(n), HollowCircle(pt, c, Radius, StrokeWidth, NumPoints));
    Progress(Stems(out, n, n, c), n + 1)
  }

  /** One iteration of the loop over the input entries; `None` when the entry throws. */
  function Step(p: Progress, e: RoiEntry, pt: CirclePoint): Option<Progress> {
    match EntryCoords(e)
    case Skip => Some(p)
    case Fails => None
    case Use(ps) => Some(AddRoi(p, pt, Centroid(ps).value))
  }

  /** The loop over the input entries, in dictionary order; `None` when an entry throws. */
  function Process(rois: AList<RoiEntry>, pt: CirclePoint): Option<Progress> {
    if rois == [] then Some(Progress([], 1))
    else
      match Process(rois[..|rois| - 1], pt)
      case None => None
      case Some(p) => Step(p, rois[|rois| - 1].1, pt)
  }

  lemma {:induction false} ProcessFailureSticks(rois: AList<RoiEntry>, i: nat, pt: CirclePoint)
    requires i <= |rois| && Process(rois[..i], pt).None?
    ensures Process(rois, pt).None?
  {
    if i < |rois| {
      var p := rois[..|rois| - 1];
      assert p[..i] == rois[..i];
      ProcessFailureSticks(p, i, pt);
    } else {
      assert rois[..i] == rois;
    }
  }

  /** `process_roi_file` without the file I/O: the new dictionary and the
      number of ROIs, or `None` when the loop throws. */
  method ProcessRoiFile(rois: AList<RoiEntry>, pt: CirclePoint) returns (result: Option<(Output, nat)>)
    ensures result.None? <==> Process(rois, pt).None?
    ensures result.Some? ==> result.value == (Process(rois, pt).value.out, Process(rois, pt).value.roiCount - 1)
  {
    var newFormat: Output := [];
    var roiCount: nat := 1;
    for i := 0 to |rois|
      invariant Process(rois[..i], pt) == Some(Progress(newFormat, roiCount))
      invariant roiCount >= 1
    {
      assert rois[..i + 1][..i] == rois[..i];
      var coords := EntryCoords(rois[i].1);
      if coords.Fails? {
        ProcessFailureSticks(rois, i + 1, pt);
        return None;
      }
      if coords.Use? {
        var center := Centroid(coords.points).value;
        var hollowCircle := CreateHollowCirclePolygon(pt, center, Radius, StrokeWidth, NumPoints);
        newFormat := Put(newFormat, CircleKey(roiCount), hollowCircle);
        ghost var withCircle := newFormat;
        for stemNum := 1 to roiCount + 1
          invariant newFormat == Stems(withCircle, roiCount, stemNum - 1, center)
        {
          newFormat := Put(newFormat, StemKey(roiCount, stemNum), StemPolygon(center, stemNum, roiCount, StemWidth, StemHeight, Spacing));
        }
        roiCount := roiCount + 1;
      }
    }
    assert rois[..|rois|] == rois;
    result := Some((newFormat, roiCount - 1));
  }

  // ---------------------------------------------------------------------
  // Properties of the loop.
  // ---------------------------------------------------------------------

  function CountUsed(rois: AList<RoiEntry>): nat {
    if rois == [] then 0
    else CountUsed(rois[..|rois| - 1]) + if EntryCoords(rois[|rois| - 1].1).Use? then 1 else 0
  }

  /** The loop fails exactly when some entry throws; otherwise the count it
      returns is the number of non-empty entries. */
  lemma {:induction false} ProcessCount(rois: AList<RoiEntry>, pt: CirclePoint)
    decreases |rois|, 1
    ensures Process(rois, pt).None? <==> exists i :: 0 <= i < |rois| && EntryCoords(rois[i].1).Fails?
    ensures Process(rois, pt).Some? ==> Process(rois, pt).value.roiCount == CountUsed(rois) + 1
  {
    if rois != [] {
      ProcessCountStep(rois, pt);
    }
  }

  lemma ProcessCountStep(rois: AList<RoiEntry>, pt: CirclePoint)
    requires rois != []
    decreases |rois|, 0
    ensures Process(rois, pt).None? <==> exists i :: 0 <= i < |rois| && EntryCoords(rois[i].1).Fails?
    ensures Process(rois, pt).Some? ==> Process(rois, pt).value.roiCount == CountUsed(rois) + 1
  {
    var q := rois[..|rois| - 1];
    ProcessCount(q, pt);
    forall i | 0 <= i < |q| ensures q[i] == rois[i] {
    }
  }

  lemma ProcessRoiCount(rois: AList<RoiEntry>, pt: CirclePoint)
    requires Process(rois, pt).Some?
    ensures Process(rois, pt).value.roiCount == CountUsed(rois) + 1
  {
    ProcessCount(rois, pt);
  }

  /** The keys as written: ROI `n`'s circle, then its stems `1..n`. */
  datatype KeyName = CircleName(n: nat) | StemName(n: nat, k: nat)

  function KeyString(name: KeyName): string {
    match name
    case CircleName(n) => CircleKey(n)
    case StemName(n, k) => StemKey(n, k)
  }

  function KeyStrings(names: seq<KeyName>): (r: seq<string>)
    ensures |r| == |names|
    ensures forall i :: 0 <= i < |names| ==> r[i] == KeyString(names[i])
  {
    seq(|names|, i requires 0 <= i < |names| => KeyString(names[i]))
  }

  lemma KeyStringsAppend(a: seq<KeyName>, b: seq<KeyName>)
    ensures KeyStrings(a + b) == KeyStrings(a) + KeyStrings(b)
  {
  }

  /** The names written for ROIs `1..n`, repeats of their strings included. */
  function WrittenNames(n: nat): seq<KeyName> {
    if n == 0 then [] else WrittenNames(n - 1) + [CircleName(n)] + StemNames(n, n)
  }

  function StemNames(n: nat, k: nat): seq<KeyName> {
    if k == 0 then [] else StemNames(n, k - 1) + [StemName(n, k)]
  }

  /** The dictionary holds the keys written for ROIs `1..roiCount - 1`,
      each at the place where it was first written. */
  predicate KeysWritten(p: Progress) {
    p.roiCount >= 1 && Keys(p.out) == Union([], KeyStrings(WrittenNames(p.roiCount - 1)))
  }

  /** The output's keys are the written keys with each kept at its first writing. */
  lemma {:induction false} ProcessKeys(rois: AList<RoiEntry>, pt: CirclePoint)
    requires Process(rois, pt).Some?
    ensures KeysWritten(Process(rois, pt).value)
  {
    if rois == [] {
      assert Process(rois, pt).value == Progress([], 1);
    } else {
      var q := rois[..|rois| - 1];
      var p := Process(q, pt).value;
      assert Process(rois, pt) == Step(p, rois[|rois| - 1].1, pt);
      ProcessKeys(q, pt);
      StepKeys(p, rois[|rois| - 1].1, pt);
    }
  }

  lemma StepKeys(p: Progress, e: RoiEntry, pt: CirclePoint)
    requires KeysWritten(p)
    ensures Step(p, e, pt).Some? ==> KeysWritten(Step(p, e, pt).value)
  {
    var coords := EntryCoords(e);
    if coords.Use? {
      AddRoiKeys(p, pt, Centroid(coords.points).value);
    }
  }

  lemma AddRoiKeys(p: Progress, pt: CirclePoint, c: Point)
    requires p.roiCount >= 1
    requires Keys(p.out) == Union([], KeyStrings(WrittenNames(p.roiCount - 1)))
    ensures Keys(AddRoi(p, pt, c).out) == Union([], KeyStrings(WrittenNames(p.roiCount)))
  {
    AddedKeys(p.out, p.roiCount, HollowCircle(pt, c, Radius, StrokeWidth, NumPoints), c);
  }

  lemma AddedKeys(out: Output, n: nat, v: seq<Vertex>, c: Point)
    requires n >= 1
    requires Keys(out) == Union([], KeyStrings(WrittenNames(n - 1)))
    ensures Keys(Stems(Put(out, CircleKey(n), v), n, n, c)) == Union([], KeyStrings(WrittenNames(n)))
  {
    var out' := Put(out, CircleKey(n), v);
    var w := KeyStrings(WrittenNames(n - 1));
    var sk := KeyStrings(StemNames(n, n));
    PutKeys(out, CircleKey(n), v);
    StemsKeys(out', n, n, c);
    WrittenKeyStrings(n);
    UnionStep(w, CircleKey(n), sk);
  }

  lemma WrittenKeyStrings(n: nat)
    requires n >= 1
    ensures KeyStrings(WrittenNames(n)) == KeyStrings(WrittenNames(n - 1)) + [CircleKey(n)] + KeyStrings(StemNames(n, n))
  {
    var w := WrittenNames(n - 1);
    var c := [CircleName(n)];
    var sk := StemNames(n, n);
    assert WrittenNames(n) == w + c + sk;
    KeyStringsAppend(w + c, sk);
    KeyStringsAppend(w, c);
    assert KeyStrings(c) == [CircleKey(n)];
  }

  lemma UnionStep(w: seq<string>, x: string, sk: seq<string>)
    ensures Union(AppendNew(Union([], w), x), sk) == Union([], w + [x] + sk)
  {
    UnionSnoc([], w, x);
    UnionAppend([], w + [x], sk);
  }

  lemma {:induction false} StemsKeys(out: Output, n: nat, k: nat, c: Point)
    decreases k, 1
    ensures Keys(Stems(out, n, k, c)) == Union(Keys(out), KeyStrings(StemNames(n, k)))
  {
    if k > 0 {
      StemsKeysStep(out, n, k, c);
    }
  }

  lemma StemsKeysStep(out: Output, n: nat, k: nat, c: Point)
    requires k > 0
    decreases k, 0
    ensures Keys(Stems(out, n, k, c)) == Union(Keys(out), KeyStrings(StemNames(n, k)))
  {
    StemsKeys(out, n, k - 1, c);
    PutKeys(Stems(out, n, k - 1, c), StemKey(n, k), StemPolygon(c, k, n, StemWidth, StemHeight, Spacing));
    KeyStringsAppend(StemNames(n, k - 1), [StemName(n, k)]);
    UnionSnoc(Keys(out), KeyStrings(StemNames(n, k - 1)), StemKey(n, k));
  }

  function KeyCount(n: nat): nat {
    if n == 0 then 0 else KeyCount(n - 1) + 1 + n
  }

  /** `N + N(N+1)/2` in closed form. */
  lemma {:induction false} KeyCountClosedForm(n: nat)
    ensures 2 * KeyCount(n) == n * (n + 3)
  {
    if n > 0 {
      KeyCountClosedForm(n - 1);
      assert (n - 1) * (n + 2) + 2 + 2 * n == n * (n + 3);
    }
  }

  lemma {:induction false} WrittenNamesLength(n: nat)
    ensures |WrittenNames(n)| == KeyCount(n)
  {
    if n > 0 {
      WrittenNamesLength(n - 1);
      StemNamesLength(n, n);
    }
  }

  lemma {:induction false} StemNamesLength(n: nat, k: nat)
    ensures |StemNames(n, k)| == k
  {
    if k > 0 {
      StemNamesLength(n, k - 1);
    }
  }

  /** A name of ROI `n`: its circle, or one of its stems `1..n`. */
  predicate WellFormed(name: KeyName) {
    1 <= name.n && (name.StemName? ==> 1 <= name.k <= name.n)
  }

  lemma {:induction false} StemNamesMembers(n: nat, k: nat, x: KeyName)
    ensures x in StemNames(n, k) <==> x.StemName? && x.n == n && 1 <= x.k <= k
  {
    if k > 0 {
      StemNamesMembers(n, k - 1, x);
    }
  }

  lemma {:induction false} WrittenNamesMembers(n: nat, x: KeyName)
    decreases n, 1
    ensures x in WrittenNames(n) <==> WellFormed(x) && x.n <= n
  {
    if n > 0 {
      WrittenNamesMembersStep(n, x);
    }
  }

  /** ROI `n` adds its circle and its stems to the names of ROIs below it. */
  lemma WrittenNamesMembersStep(n: nat, x: KeyName)
    requires n > 0
    decreases n, 0
    ensures x in WrittenNames(n) <==> WellFormed(x) && x.n <= n
  {
    WrittenNamesMembers(n - 1, x);
    StemNamesMembers(n, n, x);
  }

  lemma {:induction false} StemNamesNoDup(n: nat, k: nat)
    ensures NoDup(StemNames(n, k))
  {
    if k > 0 {
      StemNamesNoDup(n, k - 1);
      StemNamesMembers(n, k - 1, StemName(n, k));
      NoDupConcat(StemNames(n, k - 1), [StemName(n, k)]);
    }
  }

  /** Names of ROIs below `n`, then ROI `n`'s circle, then stems of ROI `n`,
      each part free of repeats, repeat nothing. */
  lemma NoDupRoiNames(w: seq<KeyName>, sk: seq<KeyName>, n: nat)
    requires NoDup(w) && NoDup(sk)
    requires forall x :: x in w ==> x.n < n
    requires forall x :: x in sk ==> x.StemName? && x.n == n
    ensures NoDup(w + [CircleName(n)] + sk)
  {
    NoDupConcat(w, [CircleName(n)]);
    NoDupConcat(w + [CircleName(n)], sk);
  }

  lemma {:induction false} WrittenNamesNoDup(n: nat)
    decreases n, 1
    ensures NoDup(WrittenNames(n))
  {
    if n > 0 {
      WrittenNamesNoDupStep(n);
    }
  }

  lemma WrittenNamesNoDupStep(n: nat)
    requires n > 0
    decreases n, 0
    ensures NoDup(WrittenNames(n))
  {
    var w := WrittenNames(n - 1);
    var sk := StemNames(n, n);
    WrittenNamesNoDup(n - 1);
    StemNamesNoDup(n, n);
    WrittenNamesBounded(n - 1);
    StemNamesBounded(n, n);
    NoDupRoiNames(w, sk, n);
  }

  lemma StemNamesBounded(n: nat, k: nat)
    ensures forall x :: x in StemNames(n, k) ==> x.StemName? && x.n == n && 1 <= x.k <= k
  {
    forall x | x in StemNames(n, k) ensures x.StemName? && x.n == n && 1 <= x.k <= k {
      StemNamesMembers(n, k, x);
    }
  }

  /** Every name written for ROIs `1..n` is well formed and at most `n`. */
  lemma WrittenNamesBounded(n: nat)
    ensures forall x :: x in WrittenNames(n) ==> WellFormed(x) && x.n <= n
  {
    forall x | x in WrittenNames(n) ensures WellFormed(x) && x.n <= n {
      WrittenNamesMembers(n, x);
    }
  }

  lemma StripPrefix(a: string, b: string)
    requires "ROI_" + a == "ROI_" + b
    ensures a == b
  {
    assert a == ("ROI_" + a)[4..];
    assert b == ("ROI_" + b)[4..];
  }

  /** Up to ten ROIs the numerals never run into each other: a key string
      determines the name it was written for. */
  lemma KeyStringInjective(a: KeyName, b: KeyName)
    requires WellFormed(a) && WellFormed(b) && a.n <= 10 && b.n <= 10
    ensures KeyString(a) == KeyString(b) ==> a == b
  {
    if a.CircleName? && b.CircleName? {
      if KeyString(a) == KeyString(b) {
        StripPrefix(NatToString(a.n), NatToString(b.n));
        NatToStringInjective(a.n, b.n);
      }
    } else if a.StemName? && b.StemName? {
      StemKeyInjective(a.n, a.k, b.n, b.k);
    } else if a.CircleName? {
      CircleNotStem(a.n, b.n, b.k);
    } else {
      CircleNotStem(b.n, a.n, a.k);
    }
  }

  /** The key strings of ROIs up to ten, digit by digit. */
  lemma SmallKeys(n: nat, k: nat)
    requires 1 <= k <= n <= 10
    ensures n < 10 ==> StemKey(n, k) == "ROI_" + [DigitChar(n), DigitChar(k)]
    ensures n == 10 ==> |StemKey(n, k)| >= 7 && StemKey(n, k)[6..] == NatToString(k)
    ensures n < 10 ==> CircleKey(n) == "ROI_" + [DigitChar(n)]
    ensures n == 10 ==> CircleKey(n) == "ROI_" + [DigitChar(1), DigitChar(0)]
  {
    TwoDigitNumeral(10);
  }

  lemma CircleNotStem(m: nat, n: nat, k: nat)
    requires 1 <= m <= 10 && 1 <= k <= n <= 10
    ensures CircleKey(m) != StemKey(n, k)
  {
    SmallKeys(m, 1);
    SmallKeys(n, k);
    if m == 10 && n < 10 {
      assert CircleKey(m)[5] == DigitChar(0) && StemKey(n, k)[5] == DigitChar(k);
    } else {
      assert |CircleKey(m)| != |StemKey(n, k)|;
    }
  }

  lemma StemKeyInjective(n: nat, k: nat, n': nat, k': nat)
    requires 1 <= k <= n <= 10 && 1 <= k' <= n' <= 10
    ensures StemKey(n, k) == StemKey(n', k') ==> n == n' && k == k'
  {
    SmallKeys(n, k);
    SmallKeys(n', k');
    if n < 10 && n' < 10 {
      assert StemKey(n, k)[4] == DigitChar(n) && StemKey(n', k')[4] == DigitChar(n');
      assert StemKey(n, k)[5] == DigitChar(k) && StemKey(n', k')[5] == DigitChar(k');
    } else if n == 10 && n' == 10 {
      ParseNatToString(k);
      ParseNatToString(k');
    } else {
      assert |StemKey(n, k)| != |StemKey(n', k')|;
    }
  }

  lemma KeyStringsNoDup(names: seq<KeyName>)
    requires NoDup(names)
    requires forall x :: x in names ==> WellFormed(x) && x.n <= 10
    ensures NoDup(KeyStrings(names))
  {
    var r := KeyStrings(names);
    forall i, j | 0 <= i < j < |r| ensures r[i] != r[j] {
      assert names[i] in names && names[j] in names;
      KeyStringInjective(names[i], names[j]);
    }
  }

  /** With at most ten ROIs written no key string repeats. */
  lemma WrittenKeysDistinct(n: nat)
    requires n <= 10
    ensures NoDup(KeyStrings(WrittenNames(n)))
  {
    WrittenNamesNoDup(n);
    WrittenNamesBounded(n);
    KeyStringsNoDup(WrittenNames(n));
  }

  /** ... so the key list is the written one and has one entry per written key. */
  lemma DistinctUpToTen(ks: seq<string>, n: nat)
    requires n <= 10 && ks == Union([], KeyStrings(WrittenNames(n)))
    ensures ks == KeyStrings(WrittenNames(n)) && |ks| == KeyCount(n)
  {
    var w := KeyStrings(WrittenNames(n));
    WrittenKeysDistinct(n);
    assert [] + w == w;
    UnionOfFresh([], w);
    WrittenNamesLength(n);
  }

  lemma ProgressUpToTen(p: Progress)
    requires KeysWritten(p) && p.roiCount <= 11
    ensures Keys(p.out) == KeyStrings(WrittenNames(p.roiCount - 1)) && |p.out| == KeyCount(p.roiCount - 1)
  {
    var n := p.roiCount - 1;
    var ks := Keys(p.out);
    DistinctUpToTen(ks, n);
    assert |ks| == |p.out|;
  }

  /** With at most ten non-empty ROIs no key is written twice: the output
      has one entry per written key, `N + N(N+1)/2` in all, in writing order. */
  lemma OutputUpToTen(rois: AList<RoiEntry>, pt: CirclePoint)
    requires Process(rois, pt).Some? && CountUsed(rois) <= 10
    ensures var n := CountUsed(rois); var out := Process(rois, pt).value.out;
      && Keys(out) == KeyStrings(WrittenNames(n))
      && |out| == KeyCount(n)
  {
    var p := Process(rois, pt).value;
    var n := CountUsed(rois);
    ProcessRoiCount(rois, pt);
    ProcessKeys(rois, pt);
    ProgressUpToTen(p);
    SameRoiCount(p.roiCount - 1, n);
  }

  lemma SameRoiCount(a: nat, b: nat)
    requires a == b
    ensures WrittenNames(a) == WrittenNames(b) && KeyCount(a) == KeyCount(b)
  {
  }

  /** The eleventh circle key is the first ROI's first stem key. */
  lemma EleventhCollides()
    ensures CircleKey(11) == StemKey(1, 1)
  {
    TwoDigitNumeral(11);
  }

  /** From eleven ROIs written on, a key string repeats. */
  lemma WrittenKeysRepeat(n: nat)
    requires n >= 11
    ensures !NoDup(KeyStrings(WrittenNames(n)))
  {
    var a, b := StemName(1, 1), CircleName(11);
    WrittenNamesMembers(n, a);
    WrittenNamesMembers(n, b);
    EleventhCollides();
    RepeatedString(WrittenNames(n), a, b);
  }

  /** Two different names in the list with the same string repeat a key string. */
  lemma RepeatedString(names: seq<KeyName>, a: KeyName, b: KeyName)
    requires a in names && b in names && a != b
    requires KeyString(a) == KeyString(b)
    ensures !NoDup(KeyStrings(names))
  {
    var i :| 0 <= i < |names| && names[i] == a;
    var j :| 0 <= j < |names| && names[j] == b;
    assert i != j;
    SameStringAt(names, i, j);
  }

  lemma SameStringAt(names: seq<KeyName>, i: nat, j: nat)
    requires i < |names| && j < |names| && i != j
    requires KeyString(names[i]) == KeyString(names[j])
    ensures !NoDup(KeyStrings(names))
  {
    var r := KeyStrings(names);
    assert r[i] == r[j];
    if i < j {
      RepeatBreaksNoDup(r, i, j);
    } else {
      RepeatBreaksNoDup(r, j, i);
    }
  }

  /** ... and so the key list is short of one entry per written key. */
  lemma CollisionFromEleven(ks: seq<string>, n: nat)
    requires n >= 11 && ks == Union([], KeyStrings(WrittenNames(n)))
    ensures |ks| < KeyCount(n)
  {
    WrittenKeysRepeat(n);
    UnionDropsRepeat([], KeyStrings(WrittenNames(n)));
    WrittenNamesLength(n);
  }

  lemma ProgressFromEleven(p: Progress)
    requires KeysWritten(p) && p.roiCount >= 12
    ensures |p.out| < KeyCount(p.roiCount - 1)
  {
    CollisionFromEleven(Keys(p.out), p.roiCount - 1);
  }

  /** From eleven non-empty ROIs on, a key is written twice, so fewer than
      `N + N(N+1)/2` entries survive: `ROI_11` replaces ROI 1's first stem. */
  lemma OutputFromEleven(rois: AList<RoiEntry>, pt: CirclePoint)
    requires Process(rois, pt).Some? && CountUsed(rois) >= 11
    ensures |Process(rois, pt).value.out| < KeyCount(CountUsed(rois))
  {
    var p := Process(rois, pt).value;
    ProcessRoiCount(rois, pt);
    ProcessKeys(rois, pt);
    ProgressFromEleven(p);
    SameRoiCount(p.roiCount - 1, CountUsed(rois));
  }
}
