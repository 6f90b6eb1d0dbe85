/** Planar points and the arithmetic mean ("centroid") the components take
    of a polygon's vertices. */
module Geometry {
  import opened Common

  datatype Point = Point(x: real, y: real)

  /** `Array.prototype.flat()` with depth one. */
  function Flatten<T>(ss: seq<seq<T>>): seq<T> {
    if ss == [] then [] else ss[0] + Flatten(ss[1..])
  }

  /** Flattening keeps the elements: `x` is in the result exactly when it is in one of the parts. */
  lemma {:induction false} FlattenMembers<T>(ss: seq<seq<T>>, x: T)
    ensures x in Flatten(ss) <==> exists i :: 0 <= i < |ss| && x in ss[i]
  {
    if ss != [] {
      FlattenMembers(ss[1..], x);
      if x in Flatten(ss[1..]) {
        var i :| 0 <= i < |ss[1..]| && x in ss[1..][i];
        assert x in ss[i + 1];
      }
      if exists i :: 0 <= i < |ss| && x in ss[i] {
        var i :| 0 <= i < |ss| && x in ss[i];
        if i > 0 {
          assert x in ss[1..][i - 1];
        }
      }
    }
  }

  function TotalLength<T>(ss: seq<seq<T>>): nat {
    if ss == [] then 0 else |ss[0]| + TotalLength(ss[1..])
  }

  lemma {:induction false} FlattenLength<T>(ss: seq<seq<T>>)
    ensures |Flatten(ss)| == TotalLength(ss)
  {
    if ss != [] {
      FlattenLength(ss[1..]);
    }
  }

  /** `reduce((acc, [x, y]) => [acc[0] + x, acc[1] + y], [0, 0])`. */
  function SumPoints(ps: seq<Point>): Point {
    if ps == [] then Point(0.0, 0.0)
    else var s := SumPoints(ps[1..]); Point(ps[0].x + s.x, ps[0].y + s.y)
  }

  /** `n` copies of `r` added up: `n * r` stated without nonlinear arithmetic. */
  function Times(n: nat, r: real): real {
    if n == 0 then 0.0 else Times(n - 1, r) + r
  }

  lemma {:induction false} TimesIsProduct(n: nat, r: real)
    ensures Times(n, r) == n as real * r
  {
    if n > 0 {
      TimesIsProduct(n - 1, r);
    }
  }

  lemma {:induction false} TimesStrictlyMonotone(n: nat, a: real, b: real)
    requires n > 0 && a < b
    ensures Times(n, a) < Times(n, b)
  {
    if n > 1 {
      TimesStrictlyMonotone(n - 1, a, b);
    }
  }

  /** The mean of the points; `None` stands for the NaN pair that the
      division by an empty length yields. The mean is the value whose
      `|ps|` copies add up to the sum of the points. */
  function Centroid(ps: seq<Point>): (c: Option<Point>)
    ensures c.Some? <==> |ps| > 0
    ensures c.Some? ==> Times(|ps|, c.value.x) == SumPoints(ps).x
    ensures c.Some? ==> Times(|ps|, c.value.y) == SumPoints(ps).y
  {
    if ps == [] then None
    else
      var s := SumPoints(ps);
      var n := |ps| as real;
      TimesIsProduct(|ps|, s.x / n);
      TimesIsProduct(|ps|, s.y / n);
      Some(Point(s.x / n, s.y / n))
  }

  ghost predicate InBox(ps: seq<Point>, lo: Point, hi: Point) {
    forall i :: 0 <= i < |ps| ==> lo.x <= ps[i].x <= hi.x && lo.y <= ps[i].y <= hi.y
  }

  lemma {:induction false} SumInBox(ps: seq<Point>, lo: Point, hi: Point)
    requires InBox(ps, lo, hi)
    ensures Times(|ps|, lo.x) <= SumPoints(ps).x <= Times(|ps|, hi.x)
    ensures Times(|ps|, lo.y) <= SumPoints(ps).y <= Times(|ps|, hi.y)
  {
    if ps != [] {
      assert InBox(ps[1..], lo, hi) by {
        forall i | 0 <= i < |ps[1..]|
          ensures lo.x <= ps[1..][i].x <= hi.x && lo.y <= ps[1..][i].y <= hi.y
        {
          assert ps[1..][i] == ps[i + 1];
        }
      }
      SumInBox(ps[1..], lo, hi);
    }
  }

  /** The centroid of points inside an axis-aligned box lies inside that box. */
  lemma CentroidInBox(ps: seq<Point>, lo: Point, hi: Point)
    requires |ps| > 0 && InBox(ps, lo, hi)
    ensures var c := Centroid(ps).value; lo.x <= c.x <= hi.x && lo.y <= c.y <= hi.y
  {
    SumInBox(ps, lo, hi);
    var c := Centroid(ps).value;
    var n := |ps|;
    if c.x < lo.x { TimesStrictlyMonotone(n, c.x, lo.x); }
    if hi.x < c.x { TimesStrictlyMonotone(n, hi.x, c.x); }
    if c.y < lo.y { TimesStrictlyMonotone(n, c.y, lo.y); }
    if hi.y < c.y { TimesStrictlyMonotone(n, hi.y, c.y); }
  }

  /** The centroid of a single point is that point. */
  lemma CentroidOfOne(p: Point)
    ensures Centroid([p]) == Some(p)
  {
    assert SumPoints([p]) == Point(p.x + 0.0, p.y + 0.0);
  }
}
