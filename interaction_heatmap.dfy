/** The interaction-heatmap overlay: for each active interaction group that
    has a heatmap, the grid drawn upside down, min-max normalised (and then
    square-rooted to lift small values), with a four-stop colorscale in the
    group's colour. */
module InteractionOverlay {
  import opened Common
  import opened Assoc
  import opened Geometry

  type Grid = seq<seq<real>>

  /** `interactionHeatmapResult.heatmaps`, keyed `group_<id>`; an absent or
      null heatmap is a missing key. */
  datatype HeatmapResult = HeatmapResult(heatmaps: AList<Grid>)

  /** A Plotly trace: the normalised grid, the `[position, colour]` stops and
      the display name (`None` when the group has no name). */
  datatype Trace = Trace(z: Grid, colorscale: seq<(real, string)>, name: Option<string>)

  /** `Object.entries(activeGroups).filter(([group, isActive]) => isActive)`, keys only. */
  function ActiveIds(activeGroups: AList<bool>): seq<string> {
    if activeGroups == [] then []
    else
      ActiveIds(activeGroups[..|activeGroups| - 1]) +
      (if activeGroups[|activeGroups| - 1].1 then [activeGroups[|activeGroups| - 1].0] else [])
  }

  /** The groups kept are exactly the flagged ones, in entry order. */
  lemma {:induction false} ActiveIdsFacts(activeGroups: AList<bool>, id: string)
    ensures |ActiveIds(activeGroups)| <= |activeGroups|
    ensures id in ActiveIds(activeGroups) <==> exists i :: 0 <= i < |activeGroups| && activeGroups[i] == (id, true)
  {
    if activeGroups != [] {
      var p := activeGroups[..|activeGroups| - 1];
      ActiveIdsFacts(p, id);
      if exists i :: 0 <= i < |p| && p[i] == (id, true) {
        var i :| 0 <= i < |p| && p[i] == (id, true);
        assert activeGroups[i] == p[i];
      }
      if exists i :: 0 <= i < |activeGroups| && activeGroups[i] == (id, true) {
        var i :| 0 <= i < |activeGroups| && activeGroups[i] == (id, true);
        if i < |p| {
          assert activeGroups[i] == p[i];
        }
      }
    }
  }

  /** `Math.min(...xs)` on a non-empty list. */
  function MinOf(xs: seq<real>): (m: real)
    requires |xs| > 0
    ensures m in xs && forall x :: x in xs ==> m <= x
  {
    if |xs| == 1 then xs[0]
    else
      var rest := MinOf(xs[1..]);
      assert xs == [xs[0]] + xs[1..];
      if xs[0] <= rest then xs[0] else rest
  }

  /** `Math.max(...xs)` on a non-empty list. */
  function MaxOf(xs: seq<real>): (m: real)
    requires |xs| > 0
    ensures m in xs && forall x :: x in xs ==> x <= m
  {
    if |xs| == 1 then xs[0]
    else
      var rest := MaxOf(xs[1..]);
      assert xs == [xs[0]] + xs[1..];
      if xs[0] >= rest then xs[0] else rest
  }

  /** `(v - min) / range`, the value before the square root. */
  function Scaled(v: real, lo: real, hi: real): real
    requires hi - lo > 0.0
  {
    (v - lo) / (hi - lo)
  }

  /** A cell: 0 on a flat grid, else the square root (`root`) of the scaled value. */
  function Cell(v: real, lo: real, hi: real, root: real -> real): real {
    if hi - lo <= 0.0 then 0.0 else root(Scaled(v, lo, hi))
  }

  /** The grid's minimum and maximum; for a grid without cells no cell is
      computed and the bounds are immaterial. */
  function Lo(g: Grid): real {
    var flat := Flatten(g);
    if flat == [] then 0.0 else MinOf(flat)
  }

  function Hi(g: Grid): real {
    var flat := Flatten(g);
    if flat == [] then 0.0 else MaxOf(flat)
  }

  /** `groupData.slice().reverse().map(row => row.map(cell))`. */
  function Normalize(g: Grid, root: real -> real): Grid {
    var lo, hi := Lo(g), Hi(g);
    var rev := Reverse(g);
    seq(|rev|, i requires 0 <= i < |rev| => seq(|rev[i]|, j requires 0 <= j < |rev[i]| => Cell(rev[i][j], lo, hi, root)))
  }

  /** The output has the input's shape with the rows in reverse order: row
      `i` of the output is computed cell by cell from row `|g| - 1 - i`. */
  lemma NormalizeShape(g: Grid, root: real -> real)
    ensures var z := Normalize(g, root);
      && |z| == |g|
      && forall i :: 0 <= i < |g| ==>
           |z[i]| == |g[|g| - 1 - i]| &&
           forall j :: 0 <= j < |z[i]| ==> z[i][j] == Cell(g[|g| - 1 - i][j], Lo(g), Hi(g), root)
  {
    forall i | 0 <= i < |g| ensures Reverse(g)[i] == g[|g| - 1 - i] {
      ReverseAt(g, i);
    }
  }

  /** Every cell of the grid lies between the bounds. */
  lemma CellInBounds(g: Grid, i: nat, j: nat)
    requires i < |g| && j < |g[i]|
    ensures Lo(g) <= g[i][j] <= Hi(g)
  {
    FlattenMembers(g, g[i][j]);
  }

  /** A flat grid (`max - min <= 0`) normalises to all zeros. */
  lemma FlatGridIsZero(g: Grid, root: real -> real)
    requires Hi(g) - Lo(g) <= 0.0
    ensures forall i, j :: 0 <= i < |Normalize(g, root)| && 0 <= j < |Normalize(g, root)[i]| ==> Normalize(g, root)[i][j] == 0.0
  {
  }

  /** Otherwise the scaled value of each cell lies in [0, 1]. */
  lemma ScaledInUnit(g: Grid, i: nat, j: nat)
    requires i < |g| && j < |g[i]| && Hi(g) - Lo(g) > 0.0
    ensures 0.0 <= Scaled(g[i][j], Lo(g), Hi(g)) <= 1.0
  {
    CellInBounds(g, i, j);
    DivideInUnit(g[i][j] - Lo(g), Hi(g) - Lo(g));
  }

  lemma DivideInUnit(a: real, d: real)
    requires d > 0.0 && 0.0 <= a <= d
    ensures 0.0 <= a / d <= 1.0
  {
  }

  /** Scaling is monotone, sends the minimum to 0 and the maximum to 1. */
  lemma ScaledOrder(v: real, w: real, lo: real, hi: real)
    requires hi - lo > 0.0
    ensures v <= w ==> Scaled(v, lo, hi) <= Scaled(w, lo, hi)
    ensures Scaled(lo, lo, hi) == 0.0 && Scaled(hi, lo, hi) == 1.0
  {
    if v <= w {
      DivideMonotone(v - lo, w - lo, hi - lo);
    }
    assert (hi - lo) / (hi - lo) == 1.0;
  }

  lemma DivideMonotone(a: real, b: real, d: real)
    requires d > 0.0 && a <= b
    ensures a / d <= b / d
  {
    assert b / d - a / d == (b - a) / d;
  }

  /** The minimum and maximum are attained, so some cell scales to 0 and some to 1. */
  lemma ExtremesAttained(g: Grid)
    requires Flatten(g) != []
    ensures exists i, j :: 0 <= i < |g| && 0 <= j < |g[i]| && g[i][j] == Lo(g)
    ensures exists i, j :: 0 <= i < |g| && 0 <= j < |g[i]| && g[i][j] == Hi(g)
  {
    FlattenMembers(g, Lo(g));
    FlattenMembers(g, Hi(g));
    var i :| 0 <= i < |g| && Lo(g) in g[i];
    var j :| 0 <= j < |g[i]| && g[i][j] == Lo(g);
    var i' :| 0 <= i' < |g| && Hi(g) in g[i'];
    var j' :| 0 <= j' < |g[i']| && g[i'][j'] == Hi(g);
  }

  /** With a square root that maps [0, 1] into [0, 1], every output cell lies in [0, 1]. */
  lemma NormalizedInUnit(g: Grid, root: real -> real)
    requires forall x :: 0.0 <= x <= 1.0 ==> 0.0 <= root(x) <= 1.0
    ensures forall i, j :: 0 <= i < |Normalize(g, root)| && 0 <= j < |Normalize(g, root)[i]| ==>
      0.0 <= Normalize(g, root)[i][j] <= 1.0
  {
    var z := Normalize(g, root);
    NormalizeShape(g, root);
    forall i, j | 0 <= i < |z| && 0 <= j < |z[i]| ensures 0.0 <= z[i][j] <= 1.0 {
      if Hi(g) - Lo(g) > 0.0 {
        ScaledInUnit(g, |g| - 1 - i, j);
      }
    }
  }

  /** `groupColors[groupId] + suffix`; an unknown group's colour reads `undefined`. */
  function ColorOf(groupColors: AList<string>, id: string): string {
    match Lookup(groupColors, id)
    case Some(c) => c
    case None => "undefined"
  }

  function Colorscale(color: string): seq<(real, string)> {
    [(0.0, "rgba(0, 0, 0, 0)"), (0.3, color + "30"), (0.6, color + "60"), (1.0, color)]
  }

  /** The trace for one active group, or `None` when it has no heatmap. */
  function TraceFor(result: HeatmapResult, id: string, groupColors: AList<string>,
                    groupNames: AList<string>, root: real -> real): Option<Trace> {
    match Lookup(result.heatmaps, "group_" + id)
    case None => None
    case Some(g) => Some(Trace(Normalize(g, root), Colorscale(ColorOf(groupColors, id)), Lookup(groupNames, id)))
  }

  /** `activeGroupsList.map(...).filter(Boolean)`. */
  function Traces(result: HeatmapResult, ids: seq<string>, groupColors: AList<string>,
                  groupNames: AList<string>, root: real -> real): seq<Trace> {
    if ids == [] then []
    else
      Traces(result, ids[..|ids| - 1], groupColors, groupNames, root) +
        match TraceFor(result, ids[|ids| - 1], groupColors, groupNames, root)
        case None => []
        case Some(t) => [t]
  }

  /** The ids of the groups that have a heatmap, in order. */
  function WithData(result: HeatmapResult, ids: seq<string>): seq<string> {
    if ids == [] then []
    else
      WithData(result, ids[..|ids| - 1]) +
      (if Lookup(result.heatmaps, "group_" + ids[|ids| - 1]).Some? then [ids[|ids| - 1]] else [])
  }

  /** The traces are those of the groups with data, one each and in order,
      so there are at most as many as active groups. */
  lemma TracesFacts(result: HeatmapResult, ids: seq<string>, groupColors: AList<string>,
                    groupNames: AList<string>, root: real -> real)
    ensures var ts := Traces(result, ids, groupColors, groupNames, root); var ks := WithData(result, ids);
      && |ts| == |ks| <= |ids|
      && (forall k :: 0 <= k < |ks| ==> ks[k] in ids && Some(ts[k]) == TraceFor(result, ks[k], groupColors, groupNames, root))
      && (forall id :: id in ids && Lookup(result.heatmaps, "group_" + id).Some? ==> id in ks)
  {
    var ks := WithData(result, ids);
    TracesLength(result, ids, groupColors, groupNames, root);
    forall k | 0 <= k < |ks|
      ensures ks[k] in ids && Some(Traces(result, ids, groupColors, groupNames, root)[k]) == TraceFor(result, ks[k], groupColors, groupNames, root)
    {
      TracesAt(result, ids, groupColors, groupNames, root, k);
    }
    forall id | id in ids && Lookup(result.heatmaps, "group_" + id).Some? ensures id in ks {
      WithDataComplete(result, ids, id);
    }
  }

  /** One trace per group with data, and no more traces than active groups. */
  lemma {:induction false} TracesLength(result: HeatmapResult, ids: seq<string>, groupColors: AList<string>,
                                        groupNames: AList<string>, root: real -> real)
    decreases |ids|, 1
    ensures |Traces(result, ids, groupColors, groupNames, root)| == |WithData(result, ids)| <= |ids|
  {
    if ids != [] {
      TracesLengthStep(result, ids, groupColors, groupNames, root);
    }
  }

  lemma TracesLengthStep(result: HeatmapResult, ids: seq<string>, groupColors: AList<string>,
                         groupNames: AList<string>, root: real -> real)
    requires ids != []
    decreases |ids|, 0
    ensures |Traces(result, ids, groupColors, groupNames, root)| == |WithData(result, ids)| <= |ids|
  {
    TracesLength(result, ids[..|ids| - 1], groupColors, groupNames, root);
  }

  /** The `k`-th trace is the trace of the `k`-th group with data. */
  lemma {:induction false} TracesAt(result: HeatmapResult, ids: seq<string>, groupColors: AList<string>,
                                    groupNames: AList<string>, root: real -> real, k: nat)
    requires k < |WithData(result, ids)|
    decreases |ids|, 1
    ensures |Traces(result, ids, groupColors, groupNames, root)| == |WithData(result, ids)|
    ensures WithData(result, ids)[k] in ids
    ensures Some(Traces(result, ids, groupColors, groupNames, root)[k]) == TraceFor(result, WithData(result, ids)[k], groupColors, groupNames, root)
  {
    TracesAtStep(result, ids, groupColors, groupNames, root, k);
  }

  lemma TracesAtStep(result: HeatmapResult, ids: seq<string>, groupColors: AList<string>,
                     groupNames: AList<string>, root: real -> real, k: nat)
    requires k < |WithData(result, ids)|
    decreases |ids|, 0
    ensures |Traces(result, ids, groupColors, groupNames, root)| == |WithData(result, ids)|
    ensures WithData(result, ids)[k] in ids
    ensures Some(Traces(result, ids, groupColors, groupNames, root)[k]) == TraceFor(result, WithData(result, ids)[k], groupColors, groupNames, root)
  {
    var p := ids[..|ids| - 1];
    var ts := Traces(result, ids, groupColors, groupNames, root);
    var ks := WithData(result, ids);
    TracesLength(result, p, groupColors, groupNames, root);
    TracesLength(result, ids, groupColors, groupNames, root);
    if k < |WithData(result, p)| {
      TracesAt(result, p, groupColors, groupNames, root, k);
      assert ks[k] == WithData(result, p)[k];
      assert ts[k] == Traces(result, p, groupColors, groupNames, root)[k];
    } else {
      assert ks[k] == ids[|ids| - 1];
    }
  }

  /** Every active group with a heatmap is among the groups with data. */
  lemma {:induction false} WithDataComplete(result: HeatmapResult, ids: seq<string>, id: string)
    requires id in ids && Lookup(result.heatmaps, "group_" + id).Some?
    decreases |ids|, 1
    ensures id in WithData(result, ids)
  {
    WithDataCompleteStep(result, ids, id);
  }

  lemma WithDataCompleteStep(result: HeatmapResult, ids: seq<string>, id: string)
    requires id in ids && Lookup(result.heatmaps, "group_" + id).Some?
    decreases |ids|, 0
    ensures id in WithData(result, ids)
  {
    var p := ids[..|ids| - 1];
    if id != ids[|ids| - 1] {
      assert id in p;
      WithDataComplete(result, p, id);
    }
  }

  /** Every trace is the normalised grid of some group with data, in that group's colour. */
  lemma TracesOwned(result: HeatmapResult, ids: seq<string>, groupColors: AList<string>,
                    groupNames: AList<string>, root: real -> real)
    ensures forall t :: t in Traces(result, ids, groupColors, groupNames, root) ==> exists id ::
      && id in ids && Lookup(result.heatmaps, "group_" + id).Some?
      && t.z == Normalize(Lookup(result.heatmaps, "group_" + id).value, root)
      && t.colorscale == Colorscale(ColorOf(groupColors, id))
  {
    var ts := Traces(result, ids, groupColors, groupNames, root);
    var ks := WithData(result, ids);
    TracesLength(result, ids, groupColors, groupNames, root);
    forall t | t in ts ensures exists id ::
      && id in ids && Lookup(result.heatmaps, "group_" + id).Some?
      && t.z == Normalize(Lookup(result.heatmaps, "group_" + id).value, root)
      && t.colorscale == Colorscale(ColorOf(groupColors, id))
    {
      var k :| 0 <= k < |ts| && ts[k] == t;
      TracesAt(result, ids, groupColors, groupNames, root, k);
      assert ks[k] in ids;
    }
  }

  /** The overlay traces, or `None` when nothing is drawn. */
  function OverlayData(result: Option<HeatmapResult>, activeGroups: AList<bool>, groupColors: AList<string>,
                       groupNames: AList<string>, root: real -> real): Option<seq<Trace>> {
    if result.None? then None
    else
      var ids := ActiveIds(activeGroups);
      if ids == [] then None
      else
        var ts := Traces(result.value, ids, groupColors, groupNames, root);
        if ts == [] then None else Some(ts)
  }

  /** Nothing is drawn exactly when there is no result, no group is active,
      or no active group has a heatmap; otherwise every trace belongs to an
      active group with data, is that group's normalised grid and carries
      the four-stop scale in its colour. */
  lemma OverlayDataFacts(result: Option<HeatmapResult>, activeGroups: AList<bool>, groupColors: AList<string>,
                         groupNames: AList<string>, root: real -> real)
    ensures var o := OverlayData(result, activeGroups, groupColors, groupNames, root); var ids := ActiveIds(activeGroups);
      && (o.None? <==> result.None? || forall id :: id in ids ==> Lookup(result.value.heatmaps, "group_" + id).None?)
      && (o.Some? ==>
           && |o.value| <= |ActiveIds(activeGroups)| <= |activeGroups|
           && forall t :: t in o.value ==> exists id ::
                && id in ids && Lookup(result.value.heatmaps, "group_" + id).Some?
                && t.z == Normalize(Lookup(result.value.heatmaps, "group_" + id).value, root)
                && t.colorscale == Colorscale(ColorOf(groupColors, id)))
  {
    var ids := ActiveIds(activeGroups);
    ActiveIdsFacts(activeGroups, "");
    if result.Some? {
      TracesLength(result.value, ids, groupColors, groupNames, root);
      TracesEmpty(result.value, ids, groupColors, groupNames, root);
      TracesOwned(result.value, ids, groupColors, groupNames, root);
    }
  }

  /** No trace is drawn exactly when no active group has a heatmap. */
  lemma TracesEmpty(result: HeatmapResult, ids: seq<string>, groupColors: AList<string>,
                    groupNames: AList<string>, root: real -> real)
    ensures Traces(result, ids, groupColors, groupNames, root) == [] <==>
      forall id :: id in ids ==> Lookup(result.heatmaps, "group_" + id).None?
  {
    var ks := WithData(result, ids);
    TracesLength(result, ids, groupColors, groupNames, root);
    if ks != [] {
      TracesAt(result, ids, groupColors, groupNames, root, 0);
    }
    forall id | id in ids && Lookup(result.heatmaps, "group_" + id).Some? ensures id in ks {
      WithDataComplete(result, ids, id);
    }
  }
}
