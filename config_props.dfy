/** What the configuration compiler guarantees: the channel and overlay
    entries it writes, the meta-scope lists it appends to, the files it
    lists, that unknown group names leave no trace, and that every scope
    a layout panel refers to exists in the coordination space. */
module ConfigProperties {
  import opened Common
  import opened Assoc
  import opened VitessceConfig

  // ---------------------------------------------------------------------
  // Reference definitions over the input list.
  // ---------------------------------------------------------------------

  /** The table entries of the known names, in input order, repeats kept. */
  function KnownGroups(groups: seq<string>): seq<GroupInfo> {
    if groups == [] then []
    else
      KnownGroups(groups[..|groups| - 1]) +
      match Lookup(InteractionToRoi, groups[|groups| - 1])
      case Some(g) => [g]
      case None => []
  }

  /** The input with the names unknown to the table removed. */
  function KnownNames(groups: seq<string>): seq<string> {
    if groups == [] then []
    else
      var last := groups[|groups| - 1];
      KnownNames(groups[..|groups| - 1]) +
      if Lookup(InteractionToRoi, last).Some? then [last] else []
  }

  function ObsTypes(gs: seq<GroupInfo>): (r: seq<string>)
    ensures |r| == |gs|
    ensures forall i :: 0 <= i < |gs| ==> r[i] == gs[i].obsType
  {
    seq(|gs|, i requires 0 <= i < |gs| => gs[i].obsType)
  }

  function SegmentationFiles(gs: seq<GroupInfo>): (r: seq<FileDef>)
    ensures |r| == |gs|
    ensures forall i :: 0 <= i < |gs| ==> r[i] == SegmentationFile(gs[i])
  {
    seq(|gs|, i requires 0 <= i < |gs| => SegmentationFile(gs[i]))
  }

  lemma ObsTypesSnoc(gs: seq<GroupInfo>, g: GroupInfo)
    ensures ObsTypes(gs + [g]) == ObsTypes(gs) + [g.obsType]
  {
  }

  /** One step of `KnownGroups`, spelled out. */
  lemma KnownGroupsStep(groups: seq<string>)
    requires groups != []
    ensures var p := groups[..|groups| - 1];
      match Lookup(InteractionToRoi, groups[|groups| - 1])
      case None => KnownGroups(groups) == KnownGroups(p)
      case Some(g) =>
        && KnownGroups(groups) == KnownGroups(p) + [g]
        && ObsTypes(KnownGroups(groups)) == ObsTypes(KnownGroups(p)) + [g.obsType]
  {
    var p := groups[..|groups| - 1];
    match Lookup(InteractionToRoi, groups[|groups| - 1])
    case None =>
    case Some(g) => ObsTypesSnoc(KnownGroups(p), g);
  }

  const TableGroups: seq<GroupInfo> := [BCell, Inflammatory, TCellEntry, Oxidative]

  // ---------------------------------------------------------------------
  // Naming the maps each loop writes, so one lemma covers all of them.
  // ---------------------------------------------------------------------

  /** The six coordination types the channel loop assigns per channel. */
  datatype ChannelField = ImageChannelF | ChannelColorF | ChannelOpacityF | ChannelVisibleF | ChannelWindowF | TargetCF

  function ChannelMap(cs: CoordinationSpace, f: ChannelField): AList<Value> {
    match f
    case ImageChannelF => cs.imageChannel
    case ChannelColorF => cs.spatialChannelColor
    case ChannelOpacityF => cs.spatialChannelOpacity
    case ChannelVisibleF => cs.spatialChannelVisible
    case ChannelWindowF => cs.spatialChannelWindow
    case TargetCF => cs.spatialTargetC
  }

  /** The value the channel loop assigns to a channel under `f`. */
  function ChannelValue(f: ChannelField, ch: ChannelInfo): Value {
    match f
    case ImageChannelF => Str(Dummy)
    case ChannelColorF => Ints(ch.color)
    case ChannelOpacityF => Num(1.0)
    case ChannelVisibleF => Flag(true)
    case ChannelWindowF => Ints(ch.window)
    case TargetCF => Num(ch.targetC as real)
  }

  /** The five per-channel bindings of `metaCoordinationScopesBy.metaA.imageChannel`. */
  datatype BindingField = TargetCB | ColorB | VisibleB | OpacityB | WindowB

  function BindingMap(cs: CoordinationSpace, f: BindingField): AList<string> {
    var b := cs.metaBy.imageChannel;
    match f
    case TargetCB => b.spatialTargetC
    case ColorB => b.spatialChannelColor
    case VisibleB => b.spatialChannelVisible
    case OpacityB => b.spatialChannelOpacity
    case WindowB => b.spatialChannelWindow
  }

  /** The six coordination types the group loop assigns per overlay. */
  datatype GroupField = FilledF | StrokeWidthF | LayerOpacityF | LayerVisibleF | TooltipsF | GroupColorF

  function GroupMap(cs: CoordinationSpace, f: GroupField): AList<Value> {
    match f
    case FilledF => cs.spatialSegmentationFilled
    case StrokeWidthF => cs.spatialSegmentationStrokeWidth
    case LayerOpacityF => cs.spatialLayerOpacity
    case LayerVisibleF => cs.spatialLayerVisible
    case TooltipsF => cs.tooltipsVisible
    case GroupColorF => cs.spatialChannelColor
  }

  /** The meta-scope list of `metaA` the group loop appends to under `f`. */
  function GroupMeta(cs: CoordinationSpace, f: GroupField): seq<string> {
    match f
    case FilledF => cs.meta.spatialSegmentationFilled
    case StrokeWidthF => cs.meta.spatialSegmentationStrokeWidth
    case LayerOpacityF => cs.meta.spatialLayerOpacity
    case LayerVisibleF => cs.meta.spatialLayerVisible
    case TooltipsF => cs.meta.tooltipsVisible
    case GroupColorF => cs.meta.spatialChannelColor
  }

  /** The value the group loop assigns to an overlay under `f`. */
  function GroupValue(f: GroupField, g: GroupInfo): Value {
    match f
    case FilledF => Flag(false)
    case StrokeWidthF => Num(g.strokeWidth as real)
    case LayerOpacityF => Num(0.5)
    case LayerVisibleF => Flag(true)
    case TooltipsF => Flag(true)
    case GroupColorF => Ints(g.color)
  }

  /** The coordination-space fields neither loop writes. */
  function Untouched(cs: CoordinationSpace): CoordinationSpace {
    cs.(imageChannel := [], spatialChannelColor := [], spatialChannelOpacity := [],
        spatialChannelVisible := [], spatialChannelWindow := [], spatialTargetC := [],
        spatialLayerOpacity := [], spatialLayerVisible := [],
        spatialSegmentationFilled := [], spatialSegmentationStrokeWidth := [], tooltipsVisible := [],
        meta := MetaScopes([], [], [], [], [], [], [], [], []),
        metaBy := cs.metaBy.(imageChannel := ChannelBindings([], [], [], [], [])))
  }

  // ---------------------------------------------------------------------
  // The channel loop.
  // ---------------------------------------------------------------------

  lemma ChannelStep(cs: CoordinationSpace, name: string, ch: ChannelInfo)
    ensures forall f :: ChannelMap(AddChannel(cs, name, ch), f) == Put(ChannelMap(cs, f), name, ChannelValue(f, ch))
    ensures forall f :: BindingMap(AddChannel(cs, name, ch), f) == Put(BindingMap(cs, f), name, name)
    ensures AddChannel(cs, name, ch).meta.spatialChannelColor == cs.meta.spatialChannelColor + [name]
    ensures Untouched(AddChannel(cs, name, ch)) == Untouched(cs)
    ensures AddChannel(cs, name, ch).meta.(spatialChannelColor := cs.meta.spatialChannelColor) == cs.meta
    ensures forall f :: f != GroupColorF ==> GroupMap(AddChannel(cs, name, ch), f) == GroupMap(cs, f)
  {
  }

  /** Each channel map ends up with the channel names appended to its keys, first occurrence kept. */
  lemma {:induction false} ChannelLoopKeys(cs: CoordinationSpace, chs: AList<ChannelInfo>, f: ChannelField)
    ensures Keys(ChannelMap(AddChannels(cs, chs), f)) == Union(Keys(ChannelMap(cs, f)), Keys(chs))
  {
    if chs != [] {
      var p := chs[..|chs| - 1];
      var e := chs[|chs| - 1];
      assert chs == p + [e];
      ChannelLoopKeys(cs, p, f);
      KeysSnoc(p, e);
      ChannelStep(AddChannels(cs, p), e.0, e.1);
      PutKeys(ChannelMap(AddChannels(cs, p), f), e.0, ChannelValue(f, e.1));
      UnionSnoc(Keys(ChannelMap(cs, f)), Keys(p), e.0);
    }
  }

  /** The loop appends every channel name to `metaA.spatialChannelColor`... */
  lemma {:induction false} ChannelLoopMetaColor(cs: CoordinationSpace, chs: AList<ChannelInfo>)
    ensures AddChannels(cs, chs).meta.spatialChannelColor == cs.meta.spatialChannelColor + Keys(chs)
  {
    if chs != [] {
      var p := chs[..|chs| - 1];
      var e := chs[|chs| - 1];
      assert chs == p + [e];
      ChannelLoopMetaColor(cs, p);
      KeysSnoc(p, e);
    }
  }

  /** ... and changes no other meta-scope list ... */
  lemma {:induction false} ChannelLoopMetaRest(cs: CoordinationSpace, chs: AList<ChannelInfo>)
    ensures AddChannels(cs, chs).meta.(spatialChannelColor := cs.meta.spatialChannelColor) == cs.meta
  {
    if chs != [] {
      ChannelLoopMetaRest(cs, chs[..|chs| - 1]);
    }
  }

  /** ... no field outside the channel maps ... */
  lemma {:induction false} ChannelLoopUntouched(cs: CoordinationSpace, chs: AList<ChannelInfo>)
    ensures Untouched(AddChannels(cs, chs)) == Untouched(cs)
  {
    if chs != [] {
      ChannelLoopUntouched(cs, chs[..|chs| - 1]);
    }
  }

  /** ... and no overlay map but the colour map. */
  lemma {:induction false} ChannelLoopGroupMap(cs: CoordinationSpace, chs: AList<ChannelInfo>, f: GroupField)
    requires f != GroupColorF
    ensures GroupMap(AddChannels(cs, chs), f) == GroupMap(cs, f)
  {
    if chs != [] {
      ChannelLoopGroupMap(cs, chs[..|chs| - 1], f);
    }
  }

  /** With distinct channel names, every channel reads back the values of its own table entry. */
  lemma {:induction false} ChannelLoopLookups(cs: CoordinationSpace, chs: AList<ChannelInfo>, i: nat)
    requires NoDup(Keys(chs)) && i < |chs|
    ensures forall f :: Lookup(ChannelMap(AddChannels(cs, chs), f), chs[i].0) == Some(ChannelValue(f, chs[i].1))
    ensures forall f :: Lookup(BindingMap(AddChannels(cs, chs), f), chs[i].0) == Some(chs[i].0)
  {
    var p := chs[..|chs| - 1];
    var e := chs[|chs| - 1];
    assert chs == p + [e];
    var q := AddChannels(cs, p);
    var k := chs[i].0;
    ChannelStep(q, e.0, e.1);
    if i < |chs| - 1 {
      assert Keys(chs)[i] != Keys(chs)[|chs| - 1];
      KeysSnoc(p, e);
      assert NoDup(Keys(p));
      ChannelLoopLookups(cs, p, i);
    }
    forall f ensures Lookup(ChannelMap(AddChannels(cs, chs), f), k) == Some(ChannelValue(f, chs[i].1)) {
      PutLookup(ChannelMap(q, f), e.0, ChannelValue(f, e.1), k);
    }
    forall f ensures Lookup(BindingMap(AddChannels(cs, chs), f), k) == Some(k) {
      PutLookup(BindingMap(q, f), e.0, e.0, k);
    }
  }

  lemma ChannelSpaceKeysUnion(f: ChannelField)
    ensures Keys(ChannelMap(ChannelSpace(), f)) == Union(Keys(ChannelMap(InitialSpace(), f)), ChannelNames)
  {
    ChannelTableKeys();
    ChannelLoopKeys(InitialSpace(), ImageChannels, f);
  }

  lemma NoDupCons<T>(x: T, s: seq<T>)
    requires x !in s && NoDup(s)
    ensures NoDup([x] + s)
  {
  }

  /** The channel names are new to every initial key list of the channel maps. */
  lemma ChannelNamesAreFresh()
    ensures Union([], ChannelNames) == ChannelNames
    ensures Union(["image"], ChannelNames) == ["image"] + ChannelNames
    ensures Union(["A"], ChannelNames) == ["A"] + ChannelNames
  {
    ChannelTableKeys();
    UnionOfFresh([], ChannelNames);
    assert [] + ChannelNames == ChannelNames;
    NoDupCons("image", ChannelNames);
    UnionOfFresh(["image"], ChannelNames);
    NoDupCons("A", ChannelNames);
    UnionOfFresh(["A"], ChannelNames);
  }

  lemma InitialChannelKeys(f: ChannelField)
    ensures Keys(ChannelMap(InitialSpace(), f)) ==
      match f
      case ChannelOpacityF => ["image"]
      case ChannelColorF => ["A"]
      case _ => []
  {
  }

  /** The key lists of the channel maps once the channel loop is done. */
  lemma ChannelSpaceKeys(f: ChannelField)
    ensures Keys(ChannelMap(ChannelSpace(), f)) ==
      match f
      case ChannelOpacityF => ["image"] + ChannelNames
      case ChannelColorF => ["A"] + ChannelNames
      case _ => ChannelNames
  {
    ChannelNamesAreFresh();
    InitialChannelKeys(f);
    ChannelSpaceKeysUnion(f);
  }

  /** After the channel loop `metaA.spatialChannelColor` lists the channels. */
  lemma ChannelSpaceMetaColor()
    ensures ChannelSpace().meta.spatialChannelColor == ChannelNames
  {
    ChannelTableKeys();
    ChannelLoopMetaColor(InitialSpace(), ImageChannels);
  }

  /** Everything else the channel loop leaves as the initial literal has it. */
  lemma ChannelSpaceMeta()
    ensures ChannelSpace().meta.(spatialChannelColor := []) == InitialSpace().meta
  {
    ChannelLoopMetaRest(InitialSpace(), ImageChannels);
  }

  lemma ChannelSpaceGroupMeta(f: GroupField)
    requires f != GroupColorF
    ensures GroupMeta(ChannelSpace(), f) == GroupMeta(InitialSpace(), f)
  {
    ChannelSpaceMeta();
  }

  lemma ChannelSpaceUntouched()
    ensures Untouched(ChannelSpace()) == Untouched(InitialSpace())
  {
    ChannelLoopUntouched(InitialSpace(), ImageChannels);
  }

  lemma ChannelSpaceGroupMap(f: GroupField)
    requires f != GroupColorF
    ensures GroupMap(ChannelSpace(), f) == GroupMap(InitialSpace(), f)
  {
    ChannelLoopGroupMap(InitialSpace(), ImageChannels, f);
  }

  /** Every channel of the table reads back its own values and bindings. */
  lemma ChannelSpaceLookups(i: nat)
    requires i < |ImageChannels|
    ensures forall f :: Lookup(ChannelMap(ChannelSpace(), f), ImageChannels[i].0) == Some(ChannelValue(f, ImageChannels[i].1))
    ensures forall f :: Lookup(BindingMap(ChannelSpace(), f), ImageChannels[i].0) == Some(ImageChannels[i].0)
  {
    ChannelTableKeys();
    ChannelLoopLookups(InitialSpace(), ImageChannels, i);
  }

  // ---------------------------------------------------------------------
  // The group loop.
  // ---------------------------------------------------------------------

  /** Every entry of the table is one of the four overlays. */
  lemma TableGroupMember(name: string)
    ensures Lookup(InteractionToRoi, name).Some? ==> Lookup(InteractionToRoi, name).value in TableGroups
  {
    GroupTableCases(name);
  }

  /** The four observation types are pairwise distinct ... */
  lemma TableObsTypesDistinct()
    ensures forall g1, g2 :: g1 in TableGroups && g2 in TableGroups && g1.obsType == g2.obsType ==> g1 == g2
  {
    assert |BCell.obsType| == 10 && |Inflammatory.obsType| == 16;
    assert |TCellEntry.obsType| == 10 && |Oxidative.obsType| == 13;
    assert BCell.obsType[4] == 'B' && TCellEntry.obsType[4] == 'T';
  }

  /** ... and longer than every channel name and the fixed scopes "A" and "image". */
  lemma TableObsTypesFresh()
    ensures forall g :: g in TableGroups ==> g.obsType !in ChannelNames && g.obsType != "A" && g.obsType != "image"
  {
    assert forall g :: g in TableGroups ==> |g.obsType| >= 10;
    assert forall n :: n in ChannelNames ==> |n| <= 5;
  }

  lemma KnownGroupsInTable(groups: seq<string>)
    ensures forall g :: g in KnownGroups(groups) ==> g in TableGroups
  {
    if groups != [] {
      KnownGroupsInTable(groups[..|groups| - 1]);
      TableGroupMember(groups[|groups| - 1]);
    }
  }

  /** An unknown name changes nothing. */
  lemma GroupStepSkip(b: Build, name: string)
    requires Lookup(InteractionToRoi, name).None?
    ensures AddGroup(b, name) == b
  {
  }

  /** A known name writes its value under its observation type in each overlay map ... */
  lemma GroupStepMap(b: Build, name: string, g: GroupInfo, f: GroupField)
    requires Lookup(InteractionToRoi, name) == Some(g)
    ensures GroupMap(AddGroup(b, name).space, f) == Put(GroupMap(b.space, f), g.obsType, GroupValue(f, g))
  {
  }

  /** ... pushes its observation type onto each overlay meta-scope list ... */
  lemma GroupStepMeta(b: Build, name: string, g: GroupInfo, f: GroupField)
    requires Lookup(InteractionToRoi, name) == Some(g)
    ensures GroupMeta(AddGroup(b, name).space, f) == GroupMeta(b.space, f) + [g.obsType]
  {
  }

  /** ... and appends its segmentation file. */
  lemma GroupStepFiles(b: Build, name: string, g: GroupInfo)
    requires Lookup(InteractionToRoi, name) == Some(g)
    ensures AddGroup(b, name).files == b.files + [SegmentationFile(g)]
  {
  }

  /** One iteration writes no field outside the overlay maps and lists, */
  lemma GroupStepUntouched(b: Build, name: string)
    ensures Untouched(AddGroup(b, name).space) == Untouched(b.space)
    ensures AddGroup(b, name).space.metaBy == b.space.metaBy
  {
  }

  /** no channel map but the shared colour map, */
  lemma GroupStepChannelMap(b: Build, name: string, f: ChannelField)
    requires f != ChannelColorF
    ensures ChannelMap(AddGroup(b, name).space, f) == ChannelMap(b.space, f)
  {
  }

  /** no binding map, */
  lemma GroupStepBindingMap(b: Build, name: string, f: BindingField)
    ensures BindingMap(AddGroup(b, name).space, f) == BindingMap(b.space, f)
  {
  }

  /** and none of the image layer's and channels' meta-scope lists. */
  lemma GroupStepFixedMeta(b: Build, name: string)
    ensures var m := AddGroup(b, name).space.meta;
      && m.imageLayer == b.space.meta.imageLayer
      && m.spatialChannelVisible == b.space.meta.spatialChannelVisible
      && m.spatialChannelOpacity == b.space.meta.spatialChannelOpacity
  {
  }

  /** The group loop leaves the untouched fields and the bindings alone ... */
  lemma {:induction false} GroupLoopUntouched(b: Build, groups: seq<string>)
    decreases |groups|, 1
    ensures Untouched(AddGroups(b, groups).space) == Untouched(b.space)
    ensures AddGroups(b, groups).space.metaBy == b.space.metaBy
  {
    if groups != [] {
      GroupLoopUntouchedStep(b, groups);
    }
  }

  lemma GroupLoopUntouchedStep(b: Build, groups: seq<string>)
    requires groups != []
    decreases |groups|, 0
    ensures Untouched(AddGroups(b, groups).space) == Untouched(b.space)
    ensures AddGroups(b, groups).space.metaBy == b.space.metaBy
  {
    var p := groups[..|groups| - 1];
    GroupLoopUntouched(b, p);
    GroupStepUntouched(AddGroups(b, p), groups[|groups| - 1]);
  }

  /** ... every channel map but the colour map ... */
  lemma {:induction false} GroupLoopChannelMap(b: Build, groups: seq<string>, f: ChannelField)
    requires f != ChannelColorF
    decreases |groups|, 1
    ensures ChannelMap(AddGroups(b, groups).space, f) == ChannelMap(b.space, f)
  {
    if groups != [] {
      GroupLoopChannelMapStep(b, groups, f);
    }
  }

  lemma GroupLoopChannelMapStep(b: Build, groups: seq<string>, f: ChannelField)
    requires f != ChannelColorF && groups != []
    decreases |groups|, 0
    ensures ChannelMap(AddGroups(b, groups).space, f) == ChannelMap(b.space, f)
  {
    var p := groups[..|groups| - 1];
    GroupLoopChannelMap(b, p, f);
    GroupStepChannelMap(AddGroups(b, p), groups[|groups| - 1], f);
  }

  /** ... every binding map ... */
  lemma {:induction false} GroupLoopBindingMap(b: Build, groups: seq<string>, f: BindingField)
    decreases |groups|, 1
    ensures BindingMap(AddGroups(b, groups).space, f) == BindingMap(b.space, f)
  {
    if groups != [] {
      GroupLoopBindingMapStep(b, groups, f);
    }
  }

  lemma GroupLoopBindingMapStep(b: Build, groups: seq<string>, f: BindingField)
    requires groups != []
    decreases |groups|, 0
    ensures BindingMap(AddGroups(b, groups).space, f) == BindingMap(b.space, f)
  {
    var p := groups[..|groups| - 1];
    GroupLoopBindingMap(b, p, f);
    GroupStepBindingMap(AddGroups(b, p), groups[|groups| - 1], f);
  }

  /** ... and the image layer's and channels' meta-scope lists. */
  lemma {:induction false} GroupLoopFixedMeta(b: Build, groups: seq<string>)
    decreases |groups|, 1
    ensures var m := AddGroups(b, groups).space.meta;
      && m.imageLayer == b.space.meta.imageLayer
      && m.spatialChannelVisible == b.space.meta.spatialChannelVisible
      && m.spatialChannelOpacity == b.space.meta.spatialChannelOpacity
  {
    if groups != [] {
      GroupLoopFixedMetaStep(b, groups);
    }
  }

  lemma GroupLoopFixedMetaStep(b: Build, groups: seq<string>)
    requires groups != []
    decreases |groups|, 0
    ensures var m := AddGroups(b, groups).space.meta;
      && m.imageLayer == b.space.meta.imageLayer
      && m.spatialChannelVisible == b.space.meta.spatialChannelVisible
      && m.spatialChannelOpacity == b.space.meta.spatialChannelOpacity
  {
    var p := groups[..|groups| - 1];
    GroupLoopFixedMeta(b, p);
    GroupStepFixedMeta(AddGroups(b, p), groups[|groups| - 1]);
  }

  /** One segmentation file per known name, in input order, after the image file. */
  lemma {:induction false} GroupLoopFiles(b: Build, groups: seq<string>)
    decreases |groups|, 1
    ensures AddGroups(b, groups).files == b.files + SegmentationFiles(KnownGroups(groups))
  {
    if groups != [] {
      GroupLoopFilesStep(b, groups);
    }
  }

  lemma GroupLoopFilesStep(b: Build, groups: seq<string>)
    requires groups != []
    decreases |groups|, 0
    ensures AddGroups(b, groups).files == b.files + SegmentationFiles(KnownGroups(groups))
  {
    var p := groups[..|groups| - 1];
    var last := groups[|groups| - 1];
    GroupLoopFiles(b, p);
    KnownGroupsStep(groups);
    match Lookup(InteractionToRoi, last)
    case None =>
      GroupStepSkip(AddGroups(b, p), last);
    case Some(g) =>
      GroupStepFiles(AddGroups(b, p), last, g);
      assert SegmentationFiles(KnownGroups(groups)) == SegmentationFiles(KnownGroups(p)) + [SegmentationFile(g)];
  }

  /** Each overlay meta-scope list gets the observation type of every known name appended, repeats kept. */
  lemma {:induction false} GroupLoopMeta(b: Build, groups: seq<string>, f: GroupField)
    decreases |groups|, 1
    ensures GroupMeta(AddGroups(b, groups).space, f) == GroupMeta(b.space, f) + ObsTypes(KnownGroups(groups))
  {
    if groups != [] {
      GroupLoopMetaStep(b, groups, f);
    }
  }

  lemma GroupLoopMetaStep(b: Build, groups: seq<string>, f: GroupField)
    requires groups != []
    decreases |groups|, 0
    ensures GroupMeta(AddGroups(b, groups).space, f) == GroupMeta(b.space, f) + ObsTypes(KnownGroups(groups))
  {
    var p := groups[..|groups| - 1];
    var last := groups[|groups| - 1];
    GroupLoopMeta(b, p, f);
    KnownGroupsStep(groups);
    match Lookup(InteractionToRoi, last)
    case None =>
      GroupStepSkip(AddGroups(b, p), last);
    case Some(g) =>
      GroupStepMeta(AddGroups(b, p), last, g, f);
  }

  /** Each overlay map's keys get the observation types appended, first occurrence kept. */
  lemma {:induction false} GroupLoopKeys(b: Build, groups: seq<string>, f: GroupField)
    decreases |groups|, 1
    ensures Keys(GroupMap(AddGroups(b, groups).space, f)) == Union(Keys(GroupMap(b.space, f)), ObsTypes(KnownGroups(groups)))
  {
    if groups != [] {
      GroupLoopKeysStep(b, groups, f);
    }
  }

  lemma GroupLoopKeysStep(b: Build, groups: seq<string>, f: GroupField)
    requires groups != []
    decreases |groups|, 0
    ensures Keys(GroupMap(AddGroups(b, groups).space, f)) == Union(Keys(GroupMap(b.space, f)), ObsTypes(KnownGroups(groups)))
  {
    var p := groups[..|groups| - 1];
    var last := groups[|groups| - 1];
    var q := AddGroups(b, p);
    GroupLoopKeys(b, p, f);
    KnownGroupsStep(groups);
    match Lookup(InteractionToRoi, last)
    case None =>
      GroupStepSkip(q, last);
    case Some(g) =>
      GroupStepMap(q, last, g, f);
      PutKeys(GroupMap(q.space, f), g.obsType, GroupValue(f, g));
      UnionSnoc(Keys(GroupMap(b.space, f)), ObsTypes(KnownGroups(p)), g.obsType);
  }

  /** A scope that is not the observation type of a known name reads as before the loop. */
  lemma {:induction false} GroupLoopOther(b: Build, groups: seq<string>, f: GroupField, k: string)
    requires k !in ObsTypes(KnownGroups(groups))
    decreases |groups|, 1
    ensures Lookup(GroupMap(AddGroups(b, groups).space, f), k) == Lookup(GroupMap(b.space, f), k)
  {
    if groups != [] {
      GroupLoopOtherStep(b, groups, f, k);
    }
  }

  lemma GroupLoopOtherStep(b: Build, groups: seq<string>, f: GroupField, k: string)
    requires groups != [] && k !in ObsTypes(KnownGroups(groups))
    decreases |groups|, 0
    ensures Lookup(GroupMap(AddGroups(b, groups).space, f), k) == Lookup(GroupMap(b.space, f), k)
  {
    var p := groups[..|groups| - 1];
    var last := groups[|groups| - 1];
    var q := AddGroups(b, p);
    KnownGroupsStep(groups);
    match Lookup(InteractionToRoi, last)
    case None =>
      GroupStepSkip(q, last);
      GroupLoopOther(b, p, f, k);
    case Some(g) =>
      GroupLoopOther(b, p, f, k);
      GroupStepMap(q, last, g, f);
      PutLookup(GroupMap(q.space, f), g.obsType, GroupValue(f, g), k);
  }

  /** Every known overlay reads back its own table values. */
  lemma {:induction false} GroupLoopEntered(b: Build, groups: seq<string>, f: GroupField, i: nat)
    requires i < |KnownGroups(groups)|
    decreases |groups|, 1
    ensures Lookup(GroupMap(AddGroups(b, groups).space, f), KnownGroups(groups)[i].obsType) ==
      Some(GroupValue(f, KnownGroups(groups)[i]))
  {
    GroupLoopEnteredStep(b, groups, f, i);
  }

  lemma GroupLoopEnteredStep(b: Build, groups: seq<string>, f: GroupField, i: nat)
    requires i < |KnownGroups(groups)|
    decreases |groups|, 0
    ensures Lookup(GroupMap(AddGroups(b, groups).space, f), KnownGroups(groups)[i].obsType) ==
      Some(GroupValue(f, KnownGroups(groups)[i]))
  {
    var p := groups[..|groups| - 1];
    var last := groups[|groups| - 1];
    var q := AddGroups(b, p);
    var h := KnownGroups(groups)[i];
    KnownGroupsStep(groups);
    match Lookup(InteractionToRoi, last)
    case None =>
      GroupStepSkip(q, last);
      GroupLoopEntered(b, p, f, i);
    case Some(g) =>
      GroupStepMap(q, last, g, f);
      PutLookup(GroupMap(q.space, f), g.obsType, GroupValue(f, g), h.obsType);
      if i < |KnownGroups(p)| {
        assert h == KnownGroups(p)[i];
        GroupLoopEntered(b, p, f, i);
        KnownGroupsInTable(groups);
        TableGroupMember(last);
        TableObsTypesDistinct();
        assert h in KnownGroups(groups);
      }
  }

  /** Unknown names change nothing: dropping them first gives the same build. */
  lemma {:induction false} GroupLoopSkipsUnknown(b: Build, groups: seq<string>)
    decreases |groups|, 1
    ensures AddGroups(b, groups) == AddGroups(b, KnownNames(groups))
  {
    if groups != [] {
      GroupLoopSkipsUnknownStep(b, groups);
    }
  }

  lemma GroupLoopSkipsUnknownStep(b: Build, groups: seq<string>)
    requires groups != []
    decreases |groups|, 0
    ensures AddGroups(b, groups) == AddGroups(b, KnownNames(groups))
  {
    var p := groups[..|groups| - 1];
    var last := groups[|groups| - 1];
    GroupLoopSkipsUnknown(b, p);
    assert AddGroups(b, groups) == AddGroup(AddGroups(b, p), last);
    if Lookup(InteractionToRoi, last).Some? {
      var k := KnownNames(p) + [last];
      assert KnownNames(groups) == k;
      assert k[..|k| - 1] == KnownNames(p);
      assert AddGroups(b, k) == AddGroup(AddGroups(b, KnownNames(p)), last);
    } else {
      GroupStepSkip(AddGroups(b, p), last);
      assert KnownNames(groups) == KnownNames(p) + [] == KnownNames(p);
    }
  }

  /** The known names and their table entries line up one to one. */
  lemma {:induction false} KnownAligned(groups: seq<string>)
    ensures |KnownGroups(groups)| == |KnownNames(groups)|
    ensures forall i :: 0 <= i < |KnownNames(groups)| ==>
      Lookup(InteractionToRoi, KnownNames(groups)[i]) == Some(KnownGroups(groups)[i])
  {
    if groups != [] {
      KnownAligned(groups[..|groups| - 1]);
    }
  }

  /** Distinct known names have distinct observation types. */
  lemma DistinctNamesDistinctObsTypes(groups: seq<string>)
    requires NoDup(KnownNames(groups))
    ensures NoDup(ObsTypes(KnownGroups(groups)))
  {
    KnownAligned(groups);
    var ns := KnownNames(groups);
    var os := ObsTypes(KnownGroups(groups));
    forall i, j | 0 <= i < j < |os| ensures os[i] != os[j] {
      KnownGroupFacts(ns[i]);
      assert Lookup(InteractionToRoi, ns[j]).Some?;
      assert ns[i] != ns[j];
    }
  }

  // ---------------------------------------------------------------------
  // The compiled configuration.
  // ---------------------------------------------------------------------

  /** The build state after both loops. */
  function Built(groups: seq<string>): Build {
    AddGroups(Build(ChannelSpace(), [ImageFile]), groups)
  }

  lemma CompileIsBuilt(groups: seq<string>)
    ensures Compile(groups).coordinationSpace == Built(groups).space
    ensures Compile(groups).datasets == [Dataset("bv", "Blood Vessel", Built(groups).files)]
  {
  }

  /** The group loop keeps the channel entries of every scope that is not an observation type it writes. */
  lemma GroupLoopKeepsChannel(b: Build, groups: seq<string>, name: string, f: ChannelField)
    requires name !in ObsTypes(KnownGroups(groups))
    ensures Lookup(ChannelMap(AddGroups(b, groups).space, f), name) == Lookup(ChannelMap(b.space, f), name)
  {
    if f == ChannelColorF {
      GroupLoopKeepsColor(b, groups, name);
    } else {
      GroupLoopChannelMap(b, groups, f);
    }
  }

  /** The shared colour map is the one channel map the group loop writes, under its observation types only. */
  lemma GroupLoopKeepsColor(b: Build, groups: seq<string>, name: string)
    requires name !in ObsTypes(KnownGroups(groups))
    ensures Lookup(AddGroups(b, groups).space.spatialChannelColor, name) == Lookup(b.space.spatialChannelColor, name)
  {
    GroupLoopOther(b, groups, GroupColorF, name);
    ColorLookupKept(b.space, AddGroups(b, groups).space, name);
  }

  lemma ColorLookupKept(cs0: CoordinationSpace, cs1: CoordinationSpace, name: string)
    requires Lookup(GroupMap(cs1, GroupColorF), name) == Lookup(GroupMap(cs0, GroupColorF), name)
    ensures Lookup(cs1.spatialChannelColor, name) == Lookup(cs0.spatialChannelColor, name)
  {
  }

  /** No channel name is the observation type of a selected overlay. */
  lemma ChannelNameNotObsType(groups: seq<string>, i: nat)
    requires i < |ImageChannels|
    ensures ImageChannels[i].0 !in ObsTypes(KnownGroups(groups))
  {
    ChannelTableKeys();
    assert ImageChannels[i].0 == ChannelNames[i];
    KnownGroupsInTable(groups);
    TableObsTypesFresh();
  }

  /** Every channel of the table gets `"__dummy__"`, its colour, opacity 1,
      visibility, its window and its target plane, and is bound to the
      scope of its own name, whatever the selection. */
  lemma CompileChannelEntries(groups: seq<string>, i: nat)
    requires i < |ImageChannels|
    ensures var cs := Compile(groups).coordinationSpace;
      && (forall f :: Lookup(ChannelMap(cs, f), ImageChannels[i].0) == Some(ChannelValue(f, ImageChannels[i].1)))
      && (forall f :: Lookup(BindingMap(cs, f), ImageChannels[i].0) == Some(ImageChannels[i].0))
  {
    var b := Build(ChannelSpace(), [ImageFile]);
    ChannelSpaceLookups(i);
    ChannelNameNotObsType(groups, i);
    forall f ensures Lookup(ChannelMap(Compile(groups).coordinationSpace, f), ImageChannels[i].0) ==
      Lookup(ChannelMap(ChannelSpace(), f), ImageChannels[i].0)
    {
      GroupLoopKeepsChannel(b, groups, ImageChannels[i].0, f);
    }
    forall f ensures BindingMap(Compile(groups).coordinationSpace, f) == BindingMap(ChannelSpace(), f) {
      GroupLoopBindingMap(b, groups, f);
    }
  }

  /** Every known selected overlay gets unfilled segmentation, its stroke
      width, layer opacity 0.5, visibility, tooltips and its colour. */
  lemma CompileGroupEntries(groups: seq<string>, i: nat, f: GroupField)
    requires i < |KnownGroups(groups)|
    ensures Lookup(GroupMap(Compile(groups).coordinationSpace, f), KnownGroups(groups)[i].obsType) ==
      Some(GroupValue(f, KnownGroups(groups)[i]))
  {
    GroupLoopEntered(Build(ChannelSpace(), [ImageFile]), groups, f, i);
  }

  /** `metaA.spatialChannelColor` is the channel names in table order, then
      the observation type of each known selected name in input order. */
  lemma CompileMetaChannelColor(groups: seq<string>)
    ensures Compile(groups).coordinationSpace.meta.spatialChannelColor == ChannelNames + ObsTypes(KnownGroups(groups))
  {
    CompileIsBuilt(groups);
    BuiltMetaChannelColor(groups);
  }

  lemma GroupLoopMetaColor(b: Build, groups: seq<string>)
    ensures AddGroups(b, groups).space.meta.spatialChannelColor == b.space.meta.spatialChannelColor + ObsTypes(KnownGroups(groups))
  {
    GroupLoopMeta(b, groups, GroupColorF);
  }

  lemma BuiltMetaChannelColor(groups: seq<string>)
    ensures Built(groups).space.meta.spatialChannelColor == ChannelNames + ObsTypes(KnownGroups(groups))
  {
    ChannelSpaceMetaColor();
    GroupLoopMetaColor(Build(ChannelSpace(), [ImageFile]), groups);
  }

  /** The overlay meta-scope lists: their fixed start, then one observation
      type per known selected name, repeats kept. */
  lemma CompileMetaScopes(groups: seq<string>, f: GroupField)
    ensures GroupMeta(Compile(groups).coordinationSpace, f) ==
      match f
      case GroupColorF => ChannelNames + ObsTypes(KnownGroups(groups))
      case LayerOpacityF => ["image"] + ObsTypes(KnownGroups(groups))
      case LayerVisibleF => ["image"] + ObsTypes(KnownGroups(groups))
      case _ => ObsTypes(KnownGroups(groups))
  {
    if f == GroupColorF {
      CompileMetaChannelColor(groups);
    } else {
      ChannelSpaceGroupMeta(f);
      GroupLoopMeta(Build(ChannelSpace(), [ImageFile]), groups, f);
    }
  }

  /** Names missing from the table leave no trace in the coordination space,
      the files or the layout. */
  lemma CompileSkipsUnknown(groups: seq<string>)
    ensures Compile(groups).coordinationSpace == Compile(KnownNames(groups)).coordinationSpace
    ensures Compile(groups).datasets == Compile(KnownNames(groups)).datasets
    ensures Compile(groups).layout == Compile(KnownNames(groups)).layout
  {
    GroupLoopSkipsUnknown(Build(ChannelSpace(), [ImageFile]), groups);
  }

  lemma FileListShape(gs: seq<GroupInfo>)
    ensures var files := [ImageFile] + SegmentationFiles(gs);
      forall k :: 0 <= k < |gs| ==>
        && files[k + 1].fileType == "obsSegmentations.json"
        && files[k + 1].url == ApiBase + gs[k].file
        && files[k + 1].obsType == Some(gs[k].obsType)
  {
    var files := [ImageFile] + SegmentationFiles(gs);
    forall k | 0 <= k < |gs| ensures files[k + 1] == SegmentationFile(gs[k]) {
      assert files[k + 1] == SegmentationFiles(gs)[k];
    }
  }

  lemma BuiltFiles(groups: seq<string>)
    ensures Built(groups).files == [ImageFile] + SegmentationFiles(KnownGroups(groups))
    ensures |Built(groups).files| == 1 + |KnownNames(groups)|
  {
    GroupLoopFiles(Build(ChannelSpace(), [ImageFile]), groups);
    KnownAligned(groups);
  }

  /** The image file, then one segmentation file per known selected name in
      input order, each served from the API base with its own observation type. */
  lemma CompileFiles(groups: seq<string>)
    ensures |Compile(groups).datasets| == 1
    ensures var files := Compile(groups).datasets[0].files;
      && files == [ImageFile] + SegmentationFiles(KnownGroups(groups))
      && |files| == 1 + |KnownNames(groups)|
      && files[0] == ImageFile
      && forall k :: 0 <= k < |KnownGroups(groups)| ==>
           && files[k + 1].fileType == "obsSegmentations.json"
           && files[k + 1].url == ApiBase + KnownGroups(groups)[k].file
           && files[k + 1].obsType == Some(KnownGroups(groups)[k].obsType)
  {
    CompileIsBuilt(groups);
    BuiltFiles(groups);
    FileListShape(KnownGroups(groups));
  }

  lemma InitialGroupKeys(f: GroupField)
    requires f != GroupColorF
    ensures Keys(GroupMap(InitialSpace(), f)) == if f == LayerOpacityF || f == LayerVisibleF then ["image"] else []
  {
  }

  /** The key lists of the overlay maps: their fixed start, then each
      observation type of a known selected name, first occurrence kept. */
  lemma CompileKeys(groups: seq<string>, f: GroupField)
    ensures Keys(GroupMap(Compile(groups).coordinationSpace, f)) ==
      Union(match f
            case GroupColorF => ["A"] + ChannelNames
            case LayerOpacityF => ["image"]
            case LayerVisibleF => ["image"]
            case _ => [],
            ObsTypes(KnownGroups(groups)))
  {
    GroupLoopKeys(Build(ChannelSpace(), [ImageFile]), groups, f);
    if f == GroupColorF {
      ChannelSpaceKeys(ChannelColorF);
      assert GroupMap(ChannelSpace(), f) == ChannelMap(ChannelSpace(), ChannelColorF);
    } else {
      ChannelSpaceGroupMap(f);
      InitialGroupKeys(f);
    }
  }

  /** The fixed part of the coordination space: the camera defaults, the
      dataset scope and the image layer's settings are the same for every selection. */
  lemma CompileFixedScopes(groups: seq<string>)
    ensures var cs := Compile(groups).coordinationSpace;
      && Untouched(cs) == Untouched(InitialSpace())
      && cs.spatialTargetX == [("A", Num(5454.0))]
      && cs.spatialTargetY == [("A", Num(1600.0))]
      && cs.spatialZoom == [("A", Num(-3.0))]
      && cs.dataset == [("A", Str("bv"))]
      && cs.meta.imageLayer == ["image"]
      && cs.meta.spatialChannelVisible == ChannelNames
      && cs.meta.spatialChannelOpacity == ChannelNames
  {
    ChannelSpaceUntouched();
    ChannelSpaceMeta();
    GroupLoopUntouched(Build(ChannelSpace(), [ImageFile]), groups);
    GroupLoopFixedMeta(Build(ChannelSpace(), [ImageFile]), groups);
    assert Untouched(InitialSpace()).spatialTargetX == [("A", Num(5454.0))];
  }

  /** Both panels of the layout list the same scopes, read off the coordination space. */
  lemma CompileLayoutPanels(groups: seq<string>)
    ensures var c := Compile(groups);
      && |c.layout| == 2
      && c.layout[0].scopes == c.layout[1].scopes == ScopesOf(c.coordinationSpace)
  {
    var b := Built(groups);
    CompileIsBuilt(groups);
    AssembleLayout(groups, b.space, b.files);
  }

  /** The hard-coded channel lists of the layout are exactly the channel
      keys of the visibility map, and every channel has a colour and an
      opacity entry. */
  lemma CompileLayoutChannels(groups: seq<string>)
    ensures var c := Compile(groups); var cs := c.coordinationSpace;
      && c.layout[0].scopes.spatialChannelVisible == Keys(cs.spatialChannelVisible)
      && c.layout[0].scopes.spatialChannelColor == ChannelNames
      && (forall n :: n in ChannelNames ==> n in Keys(cs.spatialChannelColor) && n in Keys(cs.spatialChannelOpacity))
  {
    var b := Built(groups);
    CompileIsBuilt(groups);
    AssembleLayout(groups, b.space, b.files);
    BuiltChannelKeys(groups, ChannelVisibleF);
    BuiltChannelKeys(groups, ChannelOpacityF);
    BuiltColorKeys(groups);
  }

  /** Every scope the panels name for the camera and the image layer exists. */
  lemma CompileLayoutCamera(groups: seq<string>)
    ensures var c := Compile(groups); var cs := c.coordinationSpace;
      && c.layout[0].scopes.spatialTargetX in Keys(cs.spatialTargetX)
      && c.layout[0].scopes.spatialTargetY in Keys(cs.spatialTargetY)
      && c.layout[0].scopes.spatialTargetZ in Keys(cs.spatialTargetZ)
      && c.layout[0].scopes.spatialZoom in Keys(cs.spatialZoom)
      && c.layout[0].scopes.spatialTargetResolution in Keys(cs.spatialTargetResolution)
      && c.layout[0].scopes.spatialTargetT in Keys(cs.spatialTargetT)
      && c.layout[0].scopes.spatialRenderingMode in Keys(cs.spatialRenderingMode)
  {
    var b := Built(groups);
    CompileIsBuilt(groups);
    AssembleLayout(groups, b.space, b.files);
    BuiltUntouched(groups);
    CameraScopes(b.space);
  }

  /** Both panels of the layout list the scopes read off the coordination space. */
  lemma AssembleLayout(groups: seq<string>, cs: CoordinationSpace, files: seq<FileDef>)
    ensures var c := Assemble(groups, cs, files);
      && |c.layout| == 2
      && c.layout[0].scopes == c.layout[1].scopes == ScopesOf(cs)
      && c.coordinationSpace == cs
  {
  }

  /** The camera scopes of a space that agrees with the initial one outside the loops' fields. */
  lemma CameraScopes(cs: CoordinationSpace)
    requires Untouched(cs) == Untouched(InitialSpace())
    ensures Keys(cs.spatialTargetX) == Keys(cs.spatialTargetY) == Keys(cs.spatialTargetZ) == Keys(cs.spatialZoom) == ["A"]
    ensures Keys(cs.spatialTargetResolution) == Keys(cs.spatialTargetT) == Keys(cs.spatialRenderingMode) == ["image"]
  {
    assert cs.spatialTargetX == Untouched(cs).spatialTargetX;
    assert cs.spatialTargetY == Untouched(cs).spatialTargetY;
    assert cs.spatialTargetZ == Untouched(cs).spatialTargetZ;
    assert cs.spatialZoom == Untouched(cs).spatialZoom;
    assert cs.spatialTargetResolution == Untouched(cs).spatialTargetResolution;
    assert cs.spatialTargetT == Untouched(cs).spatialTargetT;
    assert cs.spatialRenderingMode == Untouched(cs).spatialRenderingMode;
  }

  /** Both loops leave the fields outside their reach as the initial space has them. */
  lemma BuiltUntouched(groups: seq<string>)
    ensures Untouched(Built(groups).space) == Untouched(InitialSpace())
  {
    ChannelSpaceUntouched();
    GroupLoopUntouched(Build(ChannelSpace(), [ImageFile]), groups);
  }

  /** The shared colour map keeps a key per channel. */
  lemma BuiltColorKeys(groups: seq<string>)
    ensures forall n :: n in ChannelNames ==> n in Keys(Built(groups).space.spatialChannelColor)
  {
    ChannelSpaceKeys(ChannelColorF);
    GroupLoopColorKeys(Build(ChannelSpace(), [ImageFile]), groups);
  }

  /** The group loop removes no key of the shared colour map. */
  lemma GroupLoopColorKeys(b: Build, groups: seq<string>)
    ensures forall n :: n in Keys(b.space.spatialChannelColor) ==> n in Keys(AddGroups(b, groups).space.spatialChannelColor)
  {
    GroupLoopKeys(b, groups, GroupColorF);
    ColorKeysKept(b.space, AddGroups(b, groups).space, ObsTypes(KnownGroups(groups)));
  }

  lemma ColorKeysKept(cs0: CoordinationSpace, cs1: CoordinationSpace, os: seq<string>)
    requires Keys(GroupMap(cs1, GroupColorF)) == Union(Keys(GroupMap(cs0, GroupColorF)), os)
    ensures forall n :: n in Keys(cs0.spatialChannelColor) ==> n in Keys(cs1.spatialChannelColor)
  {
  }

  /** The channel maps other than the shared colour map have the keys the channel loop gave them. */
  lemma BuiltChannelKeys(groups: seq<string>, f: ChannelField)
    requires f != ChannelColorF
    ensures Keys(ChannelMap(Built(groups).space, f)) == Keys(ChannelMap(ChannelSpace(), f))
    ensures Keys(ChannelMap(Built(groups).space, f)) == if f == ChannelOpacityF then ["image"] + ChannelNames else ChannelNames
  {
    GroupLoopChannelMap(Build(ChannelSpace(), [ImageFile]), groups, f);
    ChannelSpaceKeys(f);
  }

  /** Every scope a meta-scope list names exists in the coordination space. */
  lemma CompileMetaScopesExist(groups: seq<string>, f: GroupField)
    ensures var cs := Compile(groups).coordinationSpace;
      forall s :: s in GroupMeta(cs, f) ==> s in Keys(GroupMap(cs, f))
  {
    CompileMetaScopes(groups, f);
    CompileKeys(groups, f);
  }

  lemma FreshObsTypes(os: seq<string>)
    requires NoDup(os) && "image" !in os
    ensures Union([], os) == os
    ensures Union(["image"], os) == ["image"] + os
    ensures NoDup(["image"] + os)
  {
    UnionOfFresh([], os);
    assert [] + os == os;
    NoDupCons("image", os);
    UnionOfFresh(["image"], os);
  }

  /** With no known name repeated, an overlay map's key list is its meta-scope list. */
  lemma KeysMatchMeta(groups: seq<string>, f: GroupField)
    requires NoDup(KnownNames(groups)) && f != GroupColorF
    ensures Keys(GroupMap(Compile(groups).coordinationSpace, f)) == GroupMeta(Compile(groups).coordinationSpace, f)
    ensures NoDup(GroupMeta(Compile(groups).coordinationSpace, f))
  {
    var os := ObsTypes(KnownGroups(groups));
    DistinctNamesDistinctObsTypes(groups);
    KnownGroupsInTable(groups);
    TableObsTypesFresh();
    assert "image" !in os;
    FreshObsTypes(os);
    CompileKeys(groups, f);
    CompileMetaScopes(groups, f);
  }

  /** With no known name repeated, each overlay list of the layout is exactly
      the corresponding meta-scope list, and none repeats a scope. */
  lemma CompileLayoutMatchesMeta(groups: seq<string>)
    requires NoDup(KnownNames(groups))
    ensures var cs := Compile(groups).coordinationSpace; var sc := Compile(groups).layout[0].scopes;
      && sc.spatialSegmentationFilled == cs.meta.spatialSegmentationFilled
      && sc.spatialSegmentationStrokeWidth == cs.meta.spatialSegmentationStrokeWidth
      && sc.tooltipsVisible == cs.meta.tooltipsVisible
      && sc.spatialLayerOpacity == cs.meta.spatialLayerOpacity
      && sc.spatialLayerVisible == cs.meta.spatialLayerVisible
      && NoDup(cs.meta.spatialSegmentationFilled)
      && NoDup(cs.meta.spatialLayerOpacity)
  {
    KeysMatchMeta(groups, FilledF);
    KeysMatchMeta(groups, StrokeWidthF);
    KeysMatchMeta(groups, TooltipsF);
    KeysMatchMeta(groups, LayerOpacityF);
    KeysMatchMeta(groups, LayerVisibleF);
  }

  /** The compiler does not de-duplicate: a known name selected twice is
      pushed twice onto every overlay meta-scope list and adds a second
      segmentation file, while its coordination key appears once. */
  lemma RepeatedSelectionIsNotDeduplicated(name: string)
    requires Lookup(InteractionToRoi, name).Some?
    ensures var o := Lookup(InteractionToRoi, name).value.obsType;
      var c := Compile([name, name]); var cs := c.coordinationSpace;
      && cs.meta.spatialSegmentationFilled == [o, o]
      && Keys(cs.spatialSegmentationFilled) == [o]
      && c.layout[0].scopes.spatialSegmentationFilled == [o]
      && |c.datasets[0].files| == 3
  {
    var groups := [name, name];
    var g := Lookup(InteractionToRoi, name).value;
    KnownTwice(name, g);
    UnionTwice(g.obsType);
    CompileMetaScopes(groups, FilledF);
    CompileKeys(groups, FilledF);
    CompileFiles(groups);
  }

  /** A known name selected twice is known twice. */
  lemma KnownTwice(name: string, g: GroupInfo)
    requires Lookup(InteractionToRoi, name) == Some(g)
    ensures KnownGroups([name, name]) == [g, g]
    ensures KnownNames([name, name]) == [name, name]
    ensures ObsTypes(KnownGroups([name, name])) == [g.obsType, g.obsType]
  {
    assert [name, name][..1] == [name];
    assert [name][..0] == [];
    KnownGroupsStep([name]);
    KnownGroupsStep([name, name]);
    assert KnownNames([name]) == [name];
  }

  /** Adding the same key twice to no keys gives that key once. */
  lemma UnionTwice<T(!new)>(o: T)
    ensures Union([], [o, o]) == [o]
  {
    var os := [o, o];
    assert os[..1] == [o];
    assert os[..1][..0] == [];
    assert Union([], os[..1]) == [o];
  }

  /** A selection with no known name compiles to the image-only configuration:
      no overlay scope and only the image file. */
  lemma CompileImageOnly(groups: seq<string>)
    requires KnownNames(groups) == []
    ensures var c := Compile(groups); var cs := c.coordinationSpace;
      && c.datasets == [Dataset("bv", "Blood Vessel", [ImageFile])]
      && Keys(cs.spatialSegmentationFilled) == []
      && Keys(cs.tooltipsVisible) == []
      && Keys(cs.spatialLayerOpacity) == ["image"]
      && cs.meta.spatialChannelColor == ChannelNames
      && cs.meta.spatialSegmentationFilled == []
  {
    KnownAligned(groups);
    assert KnownGroups(groups) == [];
    var os := ObsTypes(KnownGroups(groups));
    assert os == [];
    CompileFiles(groups);
    CompileKeys(groups, FilledF);
    CompileKeys(groups, TooltipsF);
    CompileKeys(groups, LayerOpacityF);
    CompileMetaChannelColor(groups);
    CompileMetaScopes(groups, FilledF);
    assert ChannelNames + os == ChannelNames;
    assert [ImageFile] + SegmentationFiles(KnownGroups(groups)) == [ImageFile];
  }

  /** The title and description list the selection as given, unknown names
      included, joined by ", "; an empty selection reads "Image Only" and "None". */
  lemma CompileTitle(groups: seq<string>)
    ensures groups == [] ==> Compile(groups).name == "BioMedVis Challenge - Image Only"
    ensures groups == [] ==> Compile(groups).description == "Dynamic config with selected interaction types: None"
    ensures |groups| > 0 ==> Compile(groups).name == "BioMedVis Challenge - " + Join(groups, ", ")
    ensures |groups| > 0 ==> Compile(groups).description == "Dynamic config with selected interaction types: " + Join(groups, ", ")
    ensures |groups| == 1 ==> Compile(groups).name == "BioMedVis Challenge - " + groups[0]
    ensures |groups| == 1 ==> Compile(groups).description == "Dynamic config with selected interaction types: " + groups[0]
  {
    AssembleTitle(groups, Built(groups).space, Built(groups).files);
    if |groups| > 0 {
      AssembleNamed(groups, Built(groups).space, Built(groups).files);
    }
    if |groups| == 1 {
      JoinOne(groups, ", ");
    }
  }

  /** `join(", ")` puts the separator between neighbours and nowhere else:
      one name reads as itself, and appending a name appends the separator
      and the name. */
  lemma {:induction false} JoinSnoc(parts: seq<string>, p: string, sep: string)
    requires parts != []
    ensures Join([p], sep) == p
    ensures Join(parts + [p], sep) == Join(parts, sep) + sep + p
  {
    var q := parts + [p];
    assert q[1..] == parts[1..] + [p];
    if |parts| > 1 {
      JoinSnoc(parts[1..], p, sep);
      assert Join(q, sep) == parts[0] + sep + (Join(parts[1..], sep) + sep + p);
    } else {
      assert q[1..] == [p];
    }
  }

  lemma AssembleTitle(groups: seq<string>, cs: CoordinationSpace, files: seq<FileDef>)
    ensures groups == [] ==> Assemble(groups, cs, files).name == "BioMedVis Challenge - Image Only"
    ensures groups == [] ==> Assemble(groups, cs, files).description == "Dynamic config with selected interaction types: None"
  {
  }

  lemma AssembleNamed(groups: seq<string>, cs: CoordinationSpace, files: seq<FileDef>)
    requires |groups| > 0
    ensures Assemble(groups, cs, files).name == "BioMedVis Challenge - " + Join(groups, ", ")
    ensures Assemble(groups, cs, files).description == "Dynamic config with selected interaction types: " + Join(groups, ", ")
  {
  }

  lemma JoinOne(parts: seq<string>, sep: string)
    requires |parts| == 1
    ensures Join(parts, sep) == parts[0]
  {
  }
}
