/** The ROI navigator: a single-choice selection of an interaction type, the
    list of top ROIs loaded for it, a cyclic cursor over that list, and the
    camera request it sends to the main view. */
module RoiNavigator {
  import opened Common
  import opened Geometry
  import opened Assoc
  import opened VitessceConfig
  import opened ConfigProperties
  import opened MainView

  /** The interaction types the navigator offers, in display order. */
  const NavigatorGroups: seq<string> :=
    ["B-cell infiltration", "T-cell maturation", "Inflammatory zone", "Oxidative stress regulation"]

  // ---------------------------------------------------------------------
  // URL resolution.
  // ---------------------------------------------------------------------

  /** The characters JavaScript's `\s` matches: the ASCII tab, line feed,
      vertical tab, form feed, carriage return and space, the Unicode space
      separators, the line and paragraph separators, and the byte-order mark. */
  predicate IsSpace(c: char) {
    c == ' ' || c == '\t' || c == '\n' || c == '\r' || c == '\U{000B}' || c == '\U{000C}'
    || c == '\U{00A0}' || c == '\U{1680}' || '\U{2000}' <= c <= '\U{200A}'
    || c == '\U{2028}' || c == '\U{2029}' || c == '\U{202F}' || c == '\U{205F}'
    || c == '\U{3000}' || c == '\U{FEFF}'
  }

  predicate NoSpace(s: string) {
    forall i :: 0 <= i < |s| ==> !IsSpace(s[i])
  }

  /** `replace(/\s+/g, '_')`, scanning left to right; `inRun` says the previous
      character was whitespace, so a further one joins its run. */
  function SlugFrom(s: string, inRun: bool): string {
    if s == [] then []
    else if IsSpace(s[0]) then (if inRun then [] else "_") + SlugFrom(s[1..], true)
    else [s[0]] + SlugFrom(s[1..], false)
  }

  function Slug(s: string): string {
    SlugFrom(s, false)
  }

  /** The file name has no whitespace, is no longer than the name, and is
      the name itself when the name has no whitespace. */
  lemma {:induction false} SlugFromFacts(s: string, inRun: bool)
    ensures NoSpace(SlugFrom(s, inRun))
    ensures |SlugFrom(s, inRun)| <= |s|
    ensures NoSpace(s) ==> SlugFrom(s, inRun) == s
  {
    if s != [] {
      SlugFromFacts(s[1..], IsSpace(s[0]));
      if NoSpace(s) {
        assert NoSpace(s[1..]) by {
          forall i | 0 <= i < |s[1..]| ensures !IsSpace(s[1..][i]) {
            assert s[1..][i] == s[i + 1];
          }
        }
      }
    }
  }

  /** A run of whitespace between two words becomes exactly one underscore. */
  lemma {:induction false} SlugRun(a: string, run: string, b: string)
    requires NoSpace(a) && |run| > 0 && (forall i :: 0 <= i < |run| ==> IsSpace(run[i]))
    requires b == [] || !IsSpace(b[0])
    ensures Slug(a + run + b) == a + "_" + SlugFrom(b, false)
  {
    SlugPrefix(a, run + b);
    assert a + run + b == a + (run + b);
    SlugRunFrom(run, b, false);
  }

  lemma {:induction false} SlugPrefix(a: string, rest: string)
    requires NoSpace(a)
    ensures SlugFrom(a + rest, false) == a + SlugFrom(rest, false)
  {
    if a != [] {
      assert (a + rest)[0] == a[0] && !IsSpace(a[0]);
      assert (a + rest)[1..] == a[1..] + rest;
      assert NoSpace(a[1..]) by {
        forall i | 0 <= i < |a[1..]| ensures !IsSpace(a[1..][i]) {
          assert a[1..][i] == a[i + 1];
        }
      }
      SlugPrefix(a[1..], rest);
      assert SlugFrom(a + rest, false) == [a[0]] + SlugFrom(a[1..] + rest, false);
      assert a == [a[0]] + a[1..];
    } else {
      assert a + rest == rest;
    }
  }

  lemma {:induction false} SlugRunFrom(run: string, b: string, inRun: bool)
    requires |run| > 0 && (forall i :: 0 <= i < |run| ==> IsSpace(run[i]))
    requires b == [] || !IsSpace(b[0])
    ensures SlugFrom(run + b, inRun) == (if inRun then [] else "_") + SlugFrom(b, false)
  {
    assert (run + b)[0] == run[0];
    assert (run + b)[1..] == run[1..] + b;
    if |run| > 1 {
      SlugRunFrom(run[1..], b, true);
    } else {
      assert run[1..] + b == b;
      if b != [] {
        assert SlugFrom(b, true) == [b[0]] + SlugFrom(b[1..], false);
      }
    }
  }

  /** The file name for a two-word interaction type joins the words with one underscore. */
  lemma SlugTwoWords(a: string, run: string, b: string)
    requires NoSpace(a) && NoSpace(b) && b != [] && |run| > 0
    requires forall i :: 0 <= i < |run| ==> IsSpace(run[i])
    ensures Slug(a + run + b) == a + "_" + b
  {
    SlugRun(a, run, b);
    SlugFromFacts(b, false);
  }

  /** A no-break space separates words like an ASCII space does. */
  lemma NoBreakSpaceSlug()
    ensures Slug("T\U{00A0}B") == "T_B"
  {
    assert "T\U{00A0}B" == "T" + "\U{00A0}" + "B";
    SlugTwoWords("T", "\U{00A0}", "B");
  }

  /** Where the page is served from: `window.location.hostname` and the
      build-time `VITE_API_BASE_URL`, if set. */
  datatype Site = Site(hostname: string, apiBaseEnv: Option<string>)

  predicate IsLocalhost(site: Site) {
    site.hostname == "localhost" || site.hostname == "127.0.0.1"
  }

  /** `import.meta.env.VITE_API_BASE_URL || 'http://localhost:5000'`. */
  function ApiBaseUrl(site: Site): string {
    if site.apiBaseEnv.Some? && site.apiBaseEnv.value != "" then site.apiBaseEnv.value else "http://localhost:5000"
  }

  function TopRoiUrl(site: Site, interactionType: string): string {
    var f := Slug(interactionType);
    if IsLocalhost(site) then ApiBaseUrl(site) + "/api/top5_roi_" + f + ".json"
    else "./data/top5_roi_" + f + ".json"
  }

  /** On a local host the file is fetched from the API base, elsewhere from
      the static `data` directory; either way the file name is the slug of
      the interaction type. */
  lemma TopRoiUrlShape(site: Site, interactionType: string)
    ensures var u := TopRoiUrl(site, interactionType); var tail := "top5_roi_" + Slug(interactionType) + ".json";
      && (IsLocalhost(site) ==> u == ApiBaseUrl(site) + "/api/" + tail)
      && (!IsLocalhost(site) ==> u == "./data/" + tail)
      && NoSpace(Slug(interactionType))
  {
    SlugFromFacts(interactionType, false);
  }

  // ---------------------------------------------------------------------
  // The top-ROI file.
  // ---------------------------------------------------------------------

  datatype Position = Position(x: Option<real>, y: Option<real>, z: Option<real>)

  /** One entry of `top_rois`. `position` or `combinedScore` being `None`
      makes the extraction throw. A `roiId` of `None` or `Some(0)` is falsy. */
  datatype RawRoi = RawRoi(roiId: Option<nat>, position: Option<Position>, combinedScore: Option<real>)

  /** An ROI as the navigator holds it. The tooltip `ROI_<id> Score: <score>`
      is kept as the pair it is printed from. */
  datatype NavRoi = NavRoi(
    tooltip: (nat, real), x: Option<real>, y: Option<real>, z: real, score: real,
    interactions: seq<string>, roiId: nat, raw: RawRoi)

  /** `data.top_rois || []`: absent or falsy, some other non-array value, or an array. */
  datatype TopRois = Missing | NotArray | Rows(rows: seq<RawRoi>)

  datatype TopRoisResponse = TopRoisFailed | TopRoisBody(topRois: TopRois)

  const MaxShown: nat := 4

  /** The `map` callback for the entry at `index`; `None` when it throws. */
  function ExtractRow(r: RawRoi, index: nat, interactionType: string): Option<NavRoi> {
    if r.position.None? || r.combinedScore.None? then None
    else
      var id := if r.roiId.Some? && r.roiId.value != 0 then r.roiId.value else index + 1;
      var p := r.position.value;
      Some(NavRoi((id, r.combinedScore.value), p.x, p.y,
        if p.z.Some? then p.z.value else 0.0,
        r.combinedScore.value, [interactionType], id, r))
  }

  /** `slice(0, 4).map(...)` on the rows `rows[..n]`; `None` when a callback throws. */
  function ExtractRows(rows: seq<RawRoi>, interactionType: string): Option<seq<NavRoi>> {
    if rows == [] then Some([])
    else
      match ExtractRows(rows[..|rows| - 1], interactionType)
      case None => None
      case Some(rs) =>
        match ExtractRow(rows[|rows| - 1], |rows| - 1, interactionType)
        case None => None
        case Some(r) => Some(rs + [r])
  }

  function ExtractTop(rows: seq<RawRoi>, interactionType: string): Option<seq<NavRoi>> {
    ExtractRows(if |rows| <= MaxShown then rows else rows[..MaxShown], interactionType)
  }

  /** A successful extraction maps the rows one to one and in order: each
      ROI is the row at its own index, with the fallback id `index + 1`, z
      defaulting to 0, and the interaction type as its only interaction. */
  lemma {:induction false} ExtractRowsFacts(rows: seq<RawRoi>, t: string)
    ensures ExtractRows(rows, t).Some? <==>
      forall i :: 0 <= i < |rows| ==> rows[i].position.Some? && rows[i].combinedScore.Some?
    ensures ExtractRows(rows, t).Some? ==>
      var rs := ExtractRows(rows, t).value;
      && |rs| == |rows|
      && forall i :: 0 <= i < |rows| ==>
           && Some(rs[i]) == ExtractRow(rows[i], i, t)
           && rs[i].raw == rows[i]
           && rs[i].interactions == [t]
           && rs[i].roiId == (if rows[i].roiId.Some? && rows[i].roiId.value != 0 then rows[i].roiId.value else i + 1)
           && rs[i].z == (if rows[i].position.value.z.Some? then rows[i].position.value.z.value else 0.0)
  {
    if rows != [] {
      var p := rows[..|rows| - 1];
      ExtractRowsFacts(p, t);
      forall i | 0 <= i < |p| ensures rows[i] == p[i] {
      }
    }
  }

  /** At most four ROIs, taken from the front of the file in file order. */
  lemma ExtractTopFacts(rows: seq<RawRoi>, t: string)
    ensures ExtractTop(rows, t).Some? ==>
      var rs := ExtractTop(rows, t).value;
      && |rs| == (if |rows| <= MaxShown then |rows| else MaxShown)
      && forall i :: 0 <= i < |rs| ==> rs[i].raw == rows[i]
  {
    var shown := if |rows| <= MaxShown then rows else rows[..MaxShown];
    ExtractRowsFacts(shown, t);
  }

  /** The `rois` state once the request for `t` settles. */
  function RoisAfterTopLoad(current: seq<NavRoi>, resp: TopRoisResponse, t: string): seq<NavRoi> {
    match resp
    case TopRoisFailed => []
    case TopRoisBody(Missing) => []
    case TopRoisBody(NotArray) => current
    case TopRoisBody(Rows(rows)) =>
      match ExtractTop(rows, t)
      case None => []
      case Some(rs) => rs
  }

  /** A failed request, a missing list or a malformed row empties the list;
      a non-array `top_rois` leaves it unchanged; otherwise it is replaced by
      the extracted top rows. */
  lemma RoisAfterTopLoadCases(current: seq<NavRoi>, resp: TopRoisResponse, t: string)
    ensures resp == TopRoisBody(NotArray) ==> RoisAfterTopLoad(current, resp, t) == current
    ensures resp == TopRoisFailed || resp == TopRoisBody(Missing) ==> RoisAfterTopLoad(current, resp, t) == []
    ensures resp.TopRoisBody? && resp.topRois.Rows? ==>
      var rs := RoisAfterTopLoad(current, resp, t);
      |rs| <= MaxShown && forall i :: 0 <= i < |rs| ==> i < |resp.topRois.rows| && rs[i].raw == resp.topRois.rows[i]
  {
    if resp.TopRoisBody? && resp.topRois.Rows? {
      ExtractTopFacts(resp.topRois.rows, t);
    }
  }

  // ---------------------------------------------------------------------
  // Selection and cursor.
  // ---------------------------------------------------------------------

  function Without(s: seq<string>, g: string): (r: seq<string>)
    ensures |r| <= |s|
    ensures forall x :: x in r <==> x in s && x != g
  {
    if s == [] then [] else (if s[0] == g then [] else [s[0]]) + Without(s[1..], g)
  }

  /** `selectedGroups.includes(group) ? filter(g => g !== group) : [group]`. */
  function Toggled(s: seq<string>, g: string): seq<string> {
    if g in s then Without(s, g) else [g]
  }

  /** Toggling unselects a selected group and otherwise selects it alone, so
      at most one group is ever selected. */
  lemma ToggledFacts(s: seq<string>, g: string)
    ensures g !in s ==> Toggled(s, g) == [g]
    ensures g in s ==> g !in Toggled(s, g) && forall x :: x in Toggled(s, g) ==> x in s
    ensures |s| <= 1 ==> |Toggled(s, g)| <= 1
    ensures |s| <= 1 && g in s ==> Toggled(s, g) == []
  {
  }

  function NextIndex(i: nat, n: nat): nat
    requires n > 0
  {
    (i + 1) % n
  }

  function PrevIndex(i: nat, n: nat): nat
    requires n > 0
  {
    (i - 1 + n) % n
  }

  /** The cursor is a number, or NaN once a move was made over an empty
      list: `(i + 1) % 0` is NaN in JavaScript, and every later move keeps it
      NaN until a toggle resets it to 0. */
  datatype Cursor = Index(i: nat) | NotANumber

  function NextCursor(c: Cursor, n: nat): Cursor {
    if c.NotANumber? || n == 0 then NotANumber else Index(NextIndex(c.i, n))
  }

  function PrevCursor(c: Cursor, n: nat): Cursor {
    if c.NotANumber? || n == 0 then NotANumber else Index(PrevIndex(c.i, n))
  }

  /** A move over an empty list loses the cursor for good; over a non-empty
      list a numeric cursor stays numeric and lands in range. */
  lemma CursorMoves(c: Cursor, n: nat)
    ensures NextCursor(c, n).NotANumber? <==> c.NotANumber? || n == 0
    ensures PrevCursor(c, n).NotANumber? <==> c.NotANumber? || n == 0
    ensures NextCursor(NextCursor(c, 0), n) == NotANumber && PrevCursor(PrevCursor(c, 0), n) == NotANumber
    ensures c.Index? && n > 0 ==> NextCursor(c, n).i < n && PrevCursor(c, n).i < n
  {
    if c.Index? && n > 0 {
      CursorSteps(c.i, n);
    }
  }

  lemma ModOfSmall(k: int, n: int)
    requires 0 <= k < n
    ensures k % n == k
  {
  }

  /** Both moves land in range, and a step inside the list moves by one. */
  lemma CursorSteps(i: nat, n: nat)
    requires n > 0
    ensures NextIndex(i, n) < n && PrevIndex(i, n) < n
    ensures i < n - 1 ==> NextIndex(i, n) == i + 1
    ensures 0 < i < n ==> PrevIndex(i, n) == i - 1
  {
    if i < n - 1 {
      ModOfSmall(i + 1, n);
    }
    if 0 < i < n {
      assert i - 1 + n == (i - 1) + n;
      ModOfSmall(i - 1, n);
    }
  }

  /** Both moves wrap around at the ends, and a one-element list stands still. */
  lemma CursorWraps(i: nat, n: nat)
    requires n > 0
    ensures NextIndex(n - 1, n) == 0
    ensures PrevIndex(0, n) == n - 1
    ensures n == 1 ==> NextIndex(i, n) == 0 && PrevIndex(i, n) == 0
  {
    ModOfSmall(n - 1, n);
  }

  /** Inside the list the two moves undo each other. */
  lemma CursorInverse(i: nat, n: nat)
    requires i < n
    ensures PrevIndex(NextIndex(i, n), n) == i
    ensures NextIndex(PrevIndex(i, n), n) == i
  {
    CursorSteps(i, n);
    CursorWraps(i, n);
    if i < n - 1 {
      CursorSteps(i + 1, n);
    }
    if 0 < i {
      CursorSteps(i - 1, n);
    }
  }

  // ---------------------------------------------------------------------
  // The camera request.
  // ---------------------------------------------------------------------

  const ImageHeight: real := 5508.0
  const Scale: real := 8.0

  function ViewX(x: real): real { x * Scale }
  function ViewY(y: real): real { ImageHeight - y * Scale }

  /** The transform is invertible, flips the y axis and fixes the centre row. */
  lemma ViewTransformFacts(x: real, y: real, x': real, y': real)
    ensures ViewX(x) / Scale == x
    ensures (ImageHeight - ViewY(y)) / Scale == y
    ensures y < y' ==> ViewY(y') < ViewY(y)
    ensures x < x' ==> ViewX(x) < ViewX(x')
    ensures ViewY(ImageHeight / (2.0 * Scale)) == ImageHeight / 2.0
  {
  }

  /** The request `handleSetView` emits for an ROI, if any. */
  function SetViewRequest(roi: Option<NavRoi>): Option<ViewRequest> {
    if roi.Some? && roi.value.x.Some? && roi.value.y.Some? then
      var r := roi.value;
      Some(ViewRequest(None, true, Some(ViewX(r.x.value)), Some(ViewY(r.y.value)), Some(-1.0),
        if |r.interactions| > 0 then Some(r.interactions[0]) else None, true))
    else None
  }

  /** A request is sent exactly for an ROI with both coordinates; it asks for
      a refreshed configuration at zoom -1 centred on the ROI's image position. */
  lemma SetViewRequestFacts(roi: Option<NavRoi>)
    ensures SetViewRequest(roi).Some? <==> roi.Some? && roi.value.x.Some? && roi.value.y.Some?
    ensures SetViewRequest(roi).Some? ==>
      var v := SetViewRequest(roi).value;
      && v.refreshConfig && v.selectedGroups.None? && v.spatialZoom == Some(-1.0)
      && v.spatialTargetX.value / Scale == roi.value.x.value
      && (ImageHeight - v.spatialTargetY.value) / Scale == roi.value.y.value
  {
  }

  /** The request `toggleGroup` emits. */
  function ToggleRequest(selected: seq<string>): ViewRequest {
    ViewRequest(Some(selected), true, Some(5454.0), Some(2600.0), Some(-3.0), None, false)
  }

  /** Whatever the toggle, the main view then installs the image-only
      configuration centred on (5454, 2600) at zoom -3, and adopts the new selection. */
  lemma ToggleRequestInstalls(selected: seq<string>)
    ensures var c := SetViewConfig(ToggleRequest(selected)); var cs := c.coordinationSpace;
      && cs.spatialTargetX == [("A", Num(5454.0))]
      && cs.spatialTargetY == [("A", Num(2600.0))]
      && cs.spatialZoom == [("A", Num(-3.0))]
      && c.datasets == [Dataset("bv", "Blood Vessel", [ImageFile])]
  {
    SetViewConfigFacts(ToggleRequest(selected));
  }

  /** Two of the offered interaction types are not in the overlay table, so
      compiling them gives the image-only file list; the other two get their overlay. */
  lemma NavigatorGroupsCompile(i: nat)
    requires i < |NavigatorGroups|
    ensures var g := NavigatorGroups[i];
      (Lookup(InteractionToRoi, g).None? <==> i == 1 || i == 3) &&
      (Lookup(InteractionToRoi, g).None? ==> Compile([g]).datasets == [Dataset("bv", "Blood Vessel", [ImageFile])]) &&
      (Lookup(InteractionToRoi, g).Some? ==> |Compile([g]).datasets[0].files| == 2)
  {
    GroupTableCases(NavigatorGroups[i]);
    SingleSelectionFiles(NavigatorGroups[i]);
  }

  /** Selecting one interaction type lists the image file, plus its overlay file when the table knows it. */
  lemma SingleSelectionFiles(g: string)
    ensures Lookup(InteractionToRoi, g).None? ==> Compile([g]).datasets == [Dataset("bv", "Blood Vessel", [ImageFile])]
    ensures Lookup(InteractionToRoi, g).Some? ==> |Compile([g]).datasets[0].files| == 2
  {
    SingleKnownFiles(g);
    CompileIsBuilt([g]);
    BuiltFiles([g]);
  }

  lemma SingleKnownFiles(g: string)
    ensures var files := [ImageFile] + SegmentationFiles(KnownGroups([g]));
      && (Lookup(InteractionToRoi, g).None? ==> files == [ImageFile])
      && (Lookup(InteractionToRoi, g).Some? ==> |files| == 2)
  {
    assert [g][..0] == [];
    KnownGroupsStep([g]);
    if Lookup(InteractionToRoi, g).None? {
      assert SegmentationFiles(KnownGroups([g])) == [];
    }
  }

  /** `computeCentroid`: the plain mean of the flattened points, no flip. */
  function ComputeCentroid(allCoords: seq<seq<Point>>): Option<Point> {
    Centroid(Flatten(allCoords))
  }

  /** The navigator's centroid is the mean of every point of every ring. */
  lemma ComputeCentroidFacts(allCoords: seq<seq<Point>>)
    ensures var c := ComputeCentroid(allCoords); var ps := Flatten(allCoords);
      && (c.Some? <==> TotalLength(allCoords) > 0)
      && (c.Some? ==> Times(|ps|, c.value.x) == SumPoints(ps).x && Times(|ps|, c.value.y) == SumPoints(ps).y)
  {
    FlattenLength(allCoords);
  }

  // ---------------------------------------------------------------------
  // The component state.
  // ---------------------------------------------------------------------

  class RoiSelector {
    var rois: seq<NavRoi>
    var currentIndex: Cursor
    var selectedGroups: seq<string>

    /** At most one interaction type is selected. */
    ghost predicate Valid()
      reads this
    {
      |selectedGroups| <= 1
    }

    constructor ()
      ensures Valid() && rois == [] && currentIndex == Index(0) && selectedGroups == []
    {
      rois := [];
      currentIndex := Index(0);
      selectedGroups := [];
    }

    /** `filteredRois[currentIndex] || {}`. */
    function CurrentRoi(): (r: Option<NavRoi>)
      reads this
      ensures r.Some? <==> currentIndex.Index? && currentIndex.i < |rois|
      ensures r.Some? ==> r.value == rois[currentIndex.i]
    {
      if currentIndex.Index? && currentIndex.i < |rois| then Some(rois[currentIndex.i]) else None
    }

    /** `toggleGroup`: update the selection, reset the cursor, start loading
        the ROIs of the new selection (the URL returned) and ask the main
        view for a refreshed configuration. The list itself changes only
        when the response arrives. */
    method ToggleGroup(group: string, site: Site) returns (fetchUrl: Option<string>, view: ViewRequest)
      requires Valid()
      modifies this
      ensures Valid()
      ensures selectedGroups == Toggled(old(selectedGroups), group)
      ensures currentIndex == Index(0) && rois == old(rois)
      ensures fetchUrl == if |selectedGroups| > 0 then Some(TopRoiUrl(site, selectedGroups[0])) else None
      ensures view == ToggleRequest(selectedGroups)
    {
      ToggledFacts(selectedGroups, group);
      var newSelectedGroups: seq<string>;
      if group in selectedGroups {
        newSelectedGroups := Without(selectedGroups, group);
      } else {
        newSelectedGroups := [group];
      }
      selectedGroups := newSelectedGroups;
      currentIndex := Index(0);
      if |newSelectedGroups| > 0 {
        fetchUrl := Some(TopRoiUrl(site, newSelectedGroups[0]));
      } else {
        fetchUrl := None;
      }
      view := ViewRequest(Some(newSelectedGroups), true, Some(5454.0), Some(2600.0), Some(-3.0), None, false);
    }

    /** The fetch for interaction type `t` settles with `resp`. */
    method ReceiveTopRois(resp: TopRoisResponse, t: string)
      modifies this
      ensures rois == RoisAfterTopLoad(old(rois), resp, t)
      ensures currentIndex == old(currentIndex) && selectedGroups == old(selectedGroups)
    {
      match resp {
        case TopRoisFailed =>
          rois := [];
        case TopRoisBody(Missing) =>
          rois := [];
        case TopRoisBody(NotArray) =>
        case TopRoisBody(Rows(rows)) =>
          var extracted := ExtractTop(rows, t);
          if extracted.Some? {
            rois := extracted.value;
          } else {
            rois := [];
          }
      }
    }

    /** `next`: the cursor moves forward cyclically and lands in range;
        over an empty list it becomes NaN. */
    method Next()
      modifies this
      ensures rois == old(rois) && selectedGroups == old(selectedGroups)
      ensures currentIndex == NextCursor(old(currentIndex), |rois|)
      ensures old(currentIndex).Index? && |rois| > 0 ==> currentIndex.Index? && currentIndex.i < |rois|
    {
      if currentIndex.NotANumber? || |rois| == 0 {
        currentIndex := NotANumber;
      } else {
        CursorSteps(currentIndex.i, |rois|);
        currentIndex := Index((currentIndex.i + 1) % |rois|);
      }
    }

    /** `prev`: the cursor moves backward cyclically and lands in range;
        over an empty list it becomes NaN. */
    method Prev()
      modifies this
      ensures rois == old(rois) && selectedGroups == old(selectedGroups)
      ensures currentIndex == PrevCursor(old(currentIndex), |rois|)
      ensures old(currentIndex).Index? && |rois| > 0 ==> currentIndex.Index? && currentIndex.i < |rois|
    {
      if currentIndex.NotANumber? || |rois| == 0 {
        currentIndex := NotANumber;
      } else {
        CursorSteps(currentIndex.i, |rois|);
        currentIndex := Index((currentIndex.i - 1 + |rois|) % |rois|);
      }
    }

    /** `handleSetView`: the request for the current ROI, if it has a position. */
    method SetView() returns (view: Option<ViewRequest>)
      ensures view == SetViewRequest(CurrentRoi())
      ensures view.Some? ==> currentIndex.Index? && currentIndex.i < |rois| && view.value.spatialTargetX == Some(rois[currentIndex.i].x.value * 8.0)
    {
      var current := CurrentRoi();
      if current.Some? && current.value.x.Some? && current.value.y.Some? {
        var roiX := current.value.x.value * 8.0;
        var roiY := 5508.0 - current.value.y.value * 8.0;
        var group := if |current.value.interactions| > 0 then Some(current.value.interactions[0]) else None;
        view := Some(ViewRequest(None, true, Some(roiX), Some(roiY), Some(-1.0), group, true));
      } else {
        view := None;
      }
    }
  }
}
