/** The configuration compiler of the main view: from the list of selected
    interaction-group names to a Vitessce configuration (a coordination
    space, the dataset's file list and a two-panel layout), and the
    "Set View" override that rewrites the camera of a freshly compiled
    image-only configuration. JavaScript objects are insertion-ordered
    association lists, because the layout lists are `Object.keys` of the
    coordination maps. */
module VitessceConfig {
  import opened Common
  import opened Assoc

  /** A JSON value stored in a coordination map. Numbers are reals. */
  datatype Value = Str(s: string) | Num(n: real) | Flag(b: bool) | Ints(xs: seq<int>) | Strs(ss: seq<string>)

  // ---------------------------------------------------------------------
  // The two static tables.
  // ---------------------------------------------------------------------

  datatype ChannelInfo = ChannelInfo(id: string, color: seq<int>, window: seq<int>, targetC: int)

  const Cd31 := ChannelInfo("cd31", [0, 255, 0], [300, 20000], 19)
  const Cd20 := ChannelInfo("cd20", [255, 255, 0], [1000, 7000], 27)
  const Cd11b := ChannelInfo("cd11b", [255, 0, 255], [700, 6000], 37)
  const Cd4 := ChannelInfo("cd4", [0, 255, 255], [1638, 10000], 25)
  const Cd11c := ChannelInfo("cd11c", [128, 0, 128], [370, 1432], 42)
  /** `IMAGE_CHANNELS`, in table order. */
  const ImageChannels: AList<ChannelInfo> := [("CD31", Cd31), ("CD20", Cd20), ("CD11b", Cd11b), ("CD4", Cd4), ("CD11c", Cd11c)]

  /** The channel list written out literally in the meta scopes and the layout. */
  const ChannelNames: seq<string> := ["CD31", "CD20", "CD11b", "CD4", "CD11c"]

  datatype GroupInfo = GroupInfo(file: string, obsType: string, color: seq<int>, strokeWidth: int)

  const BCell := GroupInfo("roi_segmentation_B-cell_infiltration.json", "ROI_B-cell", [255, 180, 180], 16)
  const Inflammatory := GroupInfo("roi_segmentation_Inflammatory_zone.json", "ROI_Inflammatory", [180, 255, 180], 16)
  const TCellEntry := GroupInfo("roi_segmentation_T-cell_entry_site.json", "ROI_T-cell", [180, 180, 255], 16)
  const Oxidative := GroupInfo("roi_segmentation_Oxidative_stress_niche.json", "ROI_Oxidative", [255, 255, 180], 16)

  /** `INTERACTION_TO_ROI`, in table order. */
  const InteractionToRoi: AList<GroupInfo> := [
    ("B-cell infiltration", BCell),
    ("Inflammatory zone", Inflammatory),
    ("T-cell entry site", TCellEntry),
    ("Oxidative stress niche", Oxidative)
  ]

  /** `INTERACTION_TO_ROI[group]`, case by case. */
  lemma GroupTableCases(name: string)
    ensures Lookup(InteractionToRoi, name) ==
      if name == "B-cell infiltration" then Some(BCell)
      else if name == "Inflammatory zone" then Some(Inflammatory)
      else if name == "T-cell entry site" then Some(TCellEntry)
      else if name == "Oxidative stress niche" then Some(Oxidative)
      else None
  {
    var t := InteractionToRoi;
    assert Lookup(t, name) == if name == t[0].0 then Some(t[0].1) else Lookup(t[1..], name);
    var t1 := t[1..];
    assert t1 == [t[1], t[2], t[3]];
    assert Lookup(t1, name) == if name == t[1].0 then Some(t[1].1) else Lookup(t1[1..], name);
    var t2 := t1[1..];
    assert t2 == [t[2], t[3]];
    assert Lookup(t2, name) == if name == t[2].0 then Some(t[2].1) else Lookup(t2[1..], name);
    var t3 := t2[1..];
    assert t3 == [t[3]];
    assert Lookup(t3, name) == if name == t[3].0 then Some(t[3].1) else Lookup(t3[1..], name);
    assert t3[1..] == [];
  }

  /** The table's observation types are distinct, and none of them names a
      channel or one of the fixed scopes "A" and "image". */
  lemma KnownGroupFacts(name: string)
    requires Lookup(InteractionToRoi, name).Some?
    ensures var g := Lookup(InteractionToRoi, name).value;
      && g.obsType !in ChannelNames && g.obsType != "A" && g.obsType != "image"
      && forall other :: Lookup(InteractionToRoi, other).Some? ==>
           (Lookup(InteractionToRoi, other).value.obsType == g.obsType <==> other == name)
  {
    GroupTableCases(name);
    forall other | Lookup(InteractionToRoi, other).Some?
      ensures Lookup(InteractionToRoi, other).value.obsType == Lookup(InteractionToRoi, name).value.obsType <==> other == name
    {
      GroupTableCases(other);
    }
  }

  lemma ChannelTableKeys()
    ensures Keys(ImageChannels) == ChannelNames
    ensures NoDup(ChannelNames)
    ensures "A" !in ChannelNames && "image" !in ChannelNames
  {
    var t := ImageChannels;
    assert t[1..] == [t[1], t[2], t[3], t[4]];
    assert t[1..][1..] == [t[2], t[3], t[4]];
    assert t[1..][1..][1..] == [t[3], t[4]];
    assert t[1..][1..][1..][1..] == [t[4]];
    assert t[1..][1..][1..][1..][1..] == [];
  }

  // ---------------------------------------------------------------------
  // The configuration object.
  // ---------------------------------------------------------------------

  /** `metaCoordinationScopes.metaA`. */
  datatype MetaScopes = MetaScopes(
    imageLayer: seq<string>,
    spatialChannelVisible: seq<string>,
    spatialChannelOpacity: seq<string>,
    spatialChannelColor: seq<string>,
    spatialLayerOpacity: seq<string>,
    spatialLayerVisible: seq<string>,
    spatialSegmentationFilled: seq<string>,
    spatialSegmentationStrokeWidth: seq<string>,
    tooltipsVisible: seq<string>)

  /** `metaCoordinationScopesBy.metaA.imageChannel`: channel name to scope name. */
  datatype ChannelBindings = ChannelBindings(
    spatialTargetC: AList<string>,
    spatialChannelColor: AList<string>,
    spatialChannelVisible: AList<string>,
    spatialChannelOpacity: AList<string>,
    spatialChannelWindow: AList<string>)

  /** `metaCoordinationScopesBy.metaA`. */
  datatype MetaScopesBy = MetaScopesBy(imageLayer: AList<AList<Value>>, imageChannel: ChannelBindings)

  /** The coordination space: one scope-to-value map per coordination type.
      `tooltipsVisible` is the type named by the library constant
      `CoordinationType.TOOLTIPS_VISIBLE`. */
  datatype CoordinationSpace = CoordinationSpace(
    dataset: AList<Value>,
    imageLayer: AList<Value>,
    imageChannel: AList<Value>,
    spatialChannelColor: AList<Value>,
    spatialChannelOpacity: AList<Value>,
    spatialChannelVisible: AList<Value>,
    spatialChannelWindow: AList<Value>,
    spatialTargetC: AList<Value>,
    spatialLayerOpacity: AList<Value>,
    spatialLayerVisible: AList<Value>,
    spatialRenderingMode: AList<Value>,
    spatialTargetX: AList<Value>,
    spatialTargetY: AList<Value>,
    spatialTargetZ: AList<Value>,
    spatialZoom: AList<Value>,
    spatialTargetResolution: AList<Value>,
    spatialTargetT: AList<Value>,
    photometricInterpretation: AList<Value>,
    spatialSegmentationFilled: AList<Value>,
    spatialSegmentationStrokeWidth: AList<Value>,
    tooltipsVisible: AList<Value>,
    meta: MetaScopes,
    metaBy: MetaScopesBy)

  /** A file of the dataset; `obsType` is its `coordinationValues.obsType`, if any. */
  datatype FileDef = FileDef(fileType: string, url: string, obsType: Option<string>)

  datatype Dataset = Dataset(uid: string, name: string, files: seq<FileDef>)

  /** A panel's `coordinationScopes`. */
  datatype PanelScopes = PanelScopes(
    metaCoordinationScopes: seq<string>,
    metaCoordinationScopesBy: seq<string>,
    spatialTargetX: string,
    spatialTargetY: string,
    spatialTargetZ: string,
    spatialZoom: string,
    spatialTargetResolution: string,
    spatialTargetT: string,
    spatialRenderingMode: string,
    spatialChannelVisible: seq<string>,
    spatialChannelOpacity: seq<string>,
    spatialChannelColor: seq<string>,
    spatialLayerOpacity: seq<string>,
    spatialLayerVisible: seq<string>,
    spatialSegmentationFilled: seq<string>,
    spatialSegmentationStrokeWidth: seq<string>,
    tooltipsVisible: seq<string>)

  datatype Panel = Panel(component: string, scopes: PanelScopes, x: int, y: int, w: int, h: int)

  datatype Config = Config(
    version: string,
    name: string,
    description: string,
    datasets: seq<Dataset>,
    initStrategy: string,
    coordinationSpace: CoordinationSpace,
    layout: seq<Panel>)

  const Dummy := "__dummy__"
  const ApiBase := "http://localhost:5000/api/"

  const ImageFile := FileDef("image.ome-zarr",
    "https://lsp-public-data.s3.amazonaws.com/biomedvis-challenge-2025/Dataset1-LSP13626-melanoma-in-situ/0",
    None)

  function SegmentationFile(g: GroupInfo): FileDef {
    FileDef("obsSegmentations.json", ApiBase + g.file, Some(g.obsType))
  }

  /** The coordination space before any channel or group is added. */
  function InitialSpace(): CoordinationSpace {
    CoordinationSpace(
      dataset := [("A", Str("bv"))],
      imageLayer := [("image", Str("image"))],
      imageChannel := [],
      spatialChannelColor := [("A", Ints([255, 100, 100]))],
      spatialChannelOpacity := [("image", Num(1.0))],
      spatialChannelVisible := [],
      spatialChannelWindow := [],
      spatialTargetC := [],
      spatialLayerOpacity := [("image", Num(1.0))],
      spatialLayerVisible := [("image", Flag(true))],
      spatialRenderingMode := [("image", Str("3D"))],
      spatialTargetX := [("A", Num(5454.0))],
      spatialTargetY := [("A", Num(1600.0))],
      spatialTargetZ := [("A", Num(0.0))],
      spatialZoom := [("A", Num(-3.0))],
      spatialTargetResolution := [("image", Num(3.0))],
      spatialTargetT := [("image", Num(0.0))],
      photometricInterpretation := [("image", Str("BlackIsZero"))],
      spatialSegmentationFilled := [],
      spatialSegmentationStrokeWidth := [],
      tooltipsVisible := [],
      meta := MetaScopes(
        imageLayer := ["image"],
        spatialChannelVisible := ChannelNames,
        spatialChannelOpacity := ChannelNames,
        spatialChannelColor := [],
        spatialLayerOpacity := ["image"],
        spatialLayerVisible := ["image"],
        spatialSegmentationFilled := [],
        spatialSegmentationStrokeWidth := [],
        tooltipsVisible := []),
      metaBy := MetaScopesBy(
        imageLayer := [
          ("imageChannel", [("image", Strs(ChannelNames))]),
          ("spatialLayerVisible", [("image", Str("image"))]),
          ("spatialLayerOpacity", [("image", Str("image"))]),
          ("spatialRenderingMode", [("image", Str("3D"))]),
          ("spatialTargetResolution", [("image", Str("image"))]),
          ("spatialTargetT", [("image", Str("image"))]),
          ("photometricInterpretation", [("image", Str("image"))])
        ],
        imageChannel := ChannelBindings([], [], [], [], [])))
  }

  // ---------------------------------------------------------------------
  // The compiler, as a fold over the two loops of the source.
  // ---------------------------------------------------------------------

  /** One iteration of the channel loop. */
  function AddChannel(cs: CoordinationSpace, name: string, ch: ChannelInfo): CoordinationSpace {
    var b := cs.metaBy.imageChannel;
    cs.(imageChannel := Put(cs.imageChannel, name, Str(Dummy)),
        spatialChannelColor := Put(cs.spatialChannelColor, name, Ints(ch.color)),
        spatialChannelOpacity := Put(cs.spatialChannelOpacity, name, Num(1.0)),
        spatialChannelVisible := Put(cs.spatialChannelVisible, name, Flag(true)),
        spatialChannelWindow := Put(cs.spatialChannelWindow, name, Ints(ch.window)),
        spatialTargetC := Put(cs.spatialTargetC, name, Num(ch.targetC as real)),
        metaBy := cs.metaBy.(imageChannel := ChannelBindings(
          Put(b.spatialTargetC, name, name),
          Put(b.spatialChannelColor, name, name),
          Put(b.spatialChannelVisible, name, name),
          Put(b.spatialChannelOpacity, name, name),
          Put(b.spatialChannelWindow, name, name))),
        meta := cs.meta.(spatialChannelColor := cs.meta.spatialChannelColor + [name]))
  }

  function AddChannels(cs: CoordinationSpace, chs: AList<ChannelInfo>): CoordinationSpace {
    if chs == [] then cs
    else
      var last := chs[|chs| - 1];
      AddChannel(AddChannels(cs, chs[..|chs| - 1]), last.0, last.1)
  }

  /** The compiler's state during the group loop. */
  datatype Build = Build(space: CoordinationSpace, files: seq<FileDef>)

  /** One iteration of the group loop: an unknown name changes nothing. */
  function AddGroup(b: Build, group: string): Build {
    match Lookup(InteractionToRoi, group)
    case None => b
    case Some(g) =>
      var cs := b.space;
      var o := g.obsType;
      Build(
        cs.(spatialSegmentationFilled := Put(cs.spatialSegmentationFilled, o, Flag(false)),
            spatialSegmentationStrokeWidth := Put(cs.spatialSegmentationStrokeWidth, o, Num(g.strokeWidth as real)),
            spatialLayerOpacity := Put(cs.spatialLayerOpacity, o, Num(0.5)),
            spatialLayerVisible := Put(cs.spatialLayerVisible, o, Flag(true)),
            tooltipsVisible := Put(cs.tooltipsVisible, o, Flag(true)),
            spatialChannelColor := Put(cs.spatialChannelColor, o, Ints(g.color)),
            meta := cs.meta.(
              spatialSegmentationFilled := cs.meta.spatialSegmentationFilled + [o],
              spatialSegmentationStrokeWidth := cs.meta.spatialSegmentationStrokeWidth + [o],
              spatialLayerOpacity := cs.meta.spatialLayerOpacity + [o],
              spatialLayerVisible := cs.meta.spatialLayerVisible + [o],
              tooltipsVisible := cs.meta.tooltipsVisible + [o],
              spatialChannelColor := cs.meta.spatialChannelColor + [o])),
        b.files + [SegmentationFile(g)])
  }

  function AddGroups(b: Build, groups: seq<string>): Build {
    if groups == [] then b
    else AddGroup(AddGroups(b, groups[..|groups| - 1]), groups[|groups| - 1])
  }

  /** The coordination space once every channel is in. */
  function ChannelSpace(): CoordinationSpace {
    AddChannels(InitialSpace(), ImageChannels)
  }

  function Join(parts: seq<string>, sep: string): string {
    if parts == [] then ""
    else if |parts| == 1 then parts[0]
    else parts[0] + sep + Join(parts[1..], sep)
  }

  /** The scope lists both panels share, read off the coordination space. */
  function ScopesOf(cs: CoordinationSpace): PanelScopes {
    PanelScopes(
      metaCoordinationScopes := ["metaA"],
      metaCoordinationScopesBy := ["metaA"],
      spatialTargetX := "A",
      spatialTargetY := "A",
      spatialTargetZ := "A",
      spatialZoom := "A",
      spatialTargetResolution := "image",
      spatialTargetT := "image",
      spatialRenderingMode := "image",
      spatialChannelVisible := ChannelNames,
      spatialChannelOpacity := Keys(cs.spatialChannelOpacity),
      spatialChannelColor := ChannelNames,
      spatialLayerOpacity := Keys(cs.spatialLayerOpacity),
      spatialLayerVisible := Keys(cs.spatialLayerVisible),
      spatialSegmentationFilled := Keys(cs.spatialSegmentationFilled),
      spatialSegmentationStrokeWidth := Keys(cs.spatialSegmentationStrokeWidth),
      tooltipsVisible := Keys(cs.tooltipsVisible))
  }

  /** The final object literal of the compiler. */
  function Assemble(groups: seq<string>, cs: CoordinationSpace, files: seq<FileDef>): Config {
    var scopes := ScopesOf(cs);
    Config(
      version := "1.0.16",
      name := "BioMedVis Challenge - " + (if |groups| > 0 then Join(groups, ", ") else "Image Only"),
      description := "Dynamic config with selected interaction types: " + (if |groups| > 0 then Join(groups, ", ") else "None"),
      datasets := [Dataset("bv", "Blood Vessel", files)],
      initStrategy := "auto",
      coordinationSpace := cs,
      layout := [Panel("spatialBeta", scopes, 2, 0, 10, 12), Panel("layerControllerBeta", scopes, 0, 0, 2, 8)])
  }

  /** The value of `generateVitessceConfig(groups)`. */
  function Compile(groups: seq<string>): Config {
    var b := AddGroups(Build(ChannelSpace(), [ImageFile]), groups);
    Assemble(groups, b.space, b.files)
  }

  /** The body of the channel `forEach`: one assignment per coordination
      map, then the five bindings and the meta-scope push. */
  method ChannelIteration(cs0: CoordinationSpace, chName: string, ch: ChannelInfo) returns (cs: CoordinationSpace)
    ensures cs == AddChannel(cs0, chName, ch)
  {
    cs := cs0;
    cs := cs.(imageChannel := Put(cs.imageChannel, chName, Str(Dummy)));
    cs := cs.(spatialChannelColor := Put(cs.spatialChannelColor, chName, Ints(ch.color)));
    cs := cs.(spatialChannelOpacity := Put(cs.spatialChannelOpacity, chName, Num(1.0)));
    cs := cs.(spatialChannelVisible := Put(cs.spatialChannelVisible, chName, Flag(true)));
    cs := cs.(spatialChannelWindow := Put(cs.spatialChannelWindow, chName, Ints(ch.window)));
    cs := cs.(spatialTargetC := Put(cs.spatialTargetC, chName, Num(ch.targetC as real)));
    var bindings := cs.metaBy.imageChannel;
    bindings := bindings.(spatialTargetC := Put(bindings.spatialTargetC, chName, chName));
    bindings := bindings.(spatialChannelColor := Put(bindings.spatialChannelColor, chName, chName));
    bindings := bindings.(spatialChannelVisible := Put(bindings.spatialChannelVisible, chName, chName));
    bindings := bindings.(spatialChannelOpacity := Put(bindings.spatialChannelOpacity, chName, chName));
    bindings := bindings.(spatialChannelWindow := Put(bindings.spatialChannelWindow, chName, chName));
    cs := cs.(metaBy := cs.metaBy.(imageChannel := bindings));
    cs := cs.(meta := cs.meta.(spatialChannelColor := cs.meta.spatialChannelColor + [chName]));
  }

  /** The body of the group `forEach`: a name missing from the table is
      skipped, a known one gets its six scopes, six meta-scope pushes and
      its segmentation file. */
  method GroupIteration(cs0: CoordinationSpace, files0: seq<FileDef>, group: string) returns (cs: CoordinationSpace, files: seq<FileDef>)
    ensures Build(cs, files) == AddGroup(Build(cs0, files0), group)
  {
    cs, files := cs0, files0;
    var found := Lookup(InteractionToRoi, group);
    if found.Some? {
      var roiInfo := found.value;
      var obsType := roiInfo.obsType;
      cs := cs.(spatialSegmentationFilled := Put(cs.spatialSegmentationFilled, obsType, Flag(false)));
      cs := cs.(spatialSegmentationStrokeWidth := Put(cs.spatialSegmentationStrokeWidth, obsType, Num(roiInfo.strokeWidth as real)));
      cs := cs.(spatialLayerOpacity := Put(cs.spatialLayerOpacity, obsType, Num(0.5)));
      cs := cs.(spatialLayerVisible := Put(cs.spatialLayerVisible, obsType, Flag(true)));
      cs := cs.(tooltipsVisible := Put(cs.tooltipsVisible, obsType, Flag(true)));
      cs := cs.(spatialChannelColor := Put(cs.spatialChannelColor, obsType, Ints(roiInfo.color)));
      var meta := cs.meta;
      meta := meta.(spatialSegmentationFilled := meta.spatialSegmentationFilled + [obsType]);
      meta := meta.(spatialSegmentationStrokeWidth := meta.spatialSegmentationStrokeWidth + [obsType]);
      meta := meta.(spatialLayerOpacity := meta.spatialLayerOpacity + [obsType]);
      meta := meta.(spatialLayerVisible := meta.spatialLayerVisible + [obsType]);
      meta := meta.(tooltipsVisible := meta.tooltipsVisible + [obsType]);
      meta := meta.(spatialChannelColor := meta.spatialChannelColor + [obsType]);
      cs := cs.(meta := meta);
      files := files + [SegmentationFile(roiInfo)];
    }
  }

  /** The channel `forEach` over a channel table. */
  method ChannelLoop(cs0: CoordinationSpace, chs: AList<ChannelInfo>) returns (cs: CoordinationSpace)
    ensures cs == AddChannels(cs0, chs)
  {
    cs := cs0;
    var i := 0;
    while i < |chs|
      invariant i <= |chs|
      invariant cs == AddChannels(cs0, chs[..i])
    {
      cs := ChannelIteration(cs, chs[i].0, chs[i].1);
      assert chs[..i + 1][..i] == chs[..i];
      i := i + 1;
    }
    assert chs[..i] == chs;
  }

  /** The group `forEach` over the selected names. */
  method GroupLoop(cs0: CoordinationSpace, files0: seq<FileDef>, groups: seq<string>) returns (cs: CoordinationSpace, files: seq<FileDef>)
    ensures Build(cs, files) == AddGroups(Build(cs0, files0), groups)
  {
    cs, files := cs0, files0;
    var j := 0;
    while j < |groups|
      invariant j <= |groups|
      invariant Build(cs, files) == AddGroups(Build(cs0, files0), groups[..j])
    {
      cs, files := GroupIteration(cs, files, groups[j]);
      assert groups[..j + 1][..j] == groups[..j];
      j := j + 1;
    }
    assert groups[..j] == groups;
  }

  /** `generateVitessceConfig`: the two `forEach` loops fill a local
      coordination space and file list in place, and the result is the
      object literal built from them. */
  method GenerateVitessceConfig(selectedGroups: seq<string>) returns (config: Config)
    ensures config == Compile(selectedGroups)
  {
    var cs := ChannelLoop(InitialSpace(), ImageChannels);
    var files;
    cs, files := GroupLoop(cs, [ImageFile], selectedGroups);
    config := Assemble(selectedGroups, cs, files);
  }
}
