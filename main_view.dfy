/** The main view's "Set View" handler: a request from the ROI navigator may
    ask for a fresh image-only configuration with the camera moved, and may
    carry a new group selection. */
module MainView {
  import opened Common
  import opened Assoc
  import opened VitessceConfig
  import opened ConfigProperties

  /** The object the navigator passes to `onSetView`; an absent property is `None`. */
  datatype ViewRequest = ViewRequest(
    selectedGroups: Option<seq<string>>,
    refreshConfig: bool,
    spatialTargetX: Option<real>,
    spatialTargetY: Option<real>,
    spatialZoom: Option<real>,
    currentROIGroup: Option<string>,
    useSegmentationFile: bool)

  /** `obj.A = v` on a camera map when `v` is defined. */
  function SetCamera(m: AList<Value>, v: Option<real>): AList<Value> {
    if v.Some? then Put(m, "A", Num(v.value)) else m
  }

  /** The configuration the handler installs: the image-only compilation
      with the defined camera fields written over. */
  function SetViewConfig(view: ViewRequest): Config {
    var c := Compile([]);
    var cs := c.coordinationSpace;
    c.(coordinationSpace := cs.(
      spatialTargetX := SetCamera(cs.spatialTargetX, view.spatialTargetX),
      spatialTargetY := SetCamera(cs.spatialTargetY, view.spatialTargetY),
      spatialZoom := SetCamera(cs.spatialZoom, view.spatialZoom)))
  }

  function Or(v: Option<real>, default: real): real {
    if v.Some? then v.value else default
  }

  lemma SetCameraReads(m: AList<Value>, d: real, v: Option<real>)
    requires m == [("A", Num(d))]
    ensures SetCamera(m, v) == [("A", Num(Or(v, d)))]
  {
  }

  /** The installed configuration shows only the image, keeps every compiled
      scope, and has each camera field at the requested value where one is
      given and at the compiled default (5454, 1600, -3) where not. */
  lemma SetViewConfigFacts(view: ViewRequest)
    ensures var c := SetViewConfig(view); var cs := c.coordinationSpace;
      && cs.spatialTargetX == [("A", Num(Or(view.spatialTargetX, 5454.0)))]
      && cs.spatialTargetY == [("A", Num(Or(view.spatialTargetY, 1600.0)))]
      && cs.spatialZoom == [("A", Num(Or(view.spatialZoom, -3.0)))]
      && c.datasets == [Dataset("bv", "Blood Vessel", [ImageFile])]
      && Keys(cs.spatialSegmentationFilled) == []
      && c.layout == Compile([]).layout
      && c.name == "BioMedVis Challenge - Image Only"
  {
    var empty: seq<string> := [];
    var c0 := Compile(empty);
    CompileFixedScopes(empty);
    CompileImageOnly(empty);
    CompileTitle(empty);
    SetCameraReads(c0.coordinationSpace.spatialTargetX, 5454.0, view.spatialTargetX);
    SetCameraReads(c0.coordinationSpace.spatialTargetY, 1600.0, view.spatialTargetY);
    SetCameraReads(c0.coordinationSpace.spatialZoom, -3.0, view.spatialZoom);
  }

  /** The fields the handler reads: the camera override, the refresh flag
      and the selection. The ROI group and the segmentation flag are ignored. */
  lemma SetViewIgnoresGroupHint(view: ViewRequest, group: Option<string>, flag: bool)
    ensures SetViewConfig(view.(currentROIGroup := group, useSegmentationFile := flag)) == SetViewConfig(view)
  {
  }

  /** The main view's state that `handleSetView` updates. */
  class MainViewState {
    var config: Option<Config>
    var configKey: int
    var selectedGroups: seq<string>

    constructor ()
      ensures config == None && configKey == 0 && selectedGroups == []
    {
      config := None;
      configKey := 0;
      selectedGroups := [];
    }

    /** `handleSetView`: with `refreshConfig`, compile the image-only
        configuration, overwrite the defined camera fields, install it and
        bump the key; then adopt a selection that differs from the current one. */
    method HandleSetView(view: ViewRequest)
      modifies this
      ensures view.refreshConfig ==> config == Some(SetViewConfig(view)) && configKey == old(configKey) + 1
      ensures !view.refreshConfig ==> config == old(config) && configKey == old(configKey)
      ensures selectedGroups == if view.selectedGroups.Some? then view.selectedGroups.value else old(selectedGroups)
    {
      if view.refreshConfig {
        var newConfig := GenerateVitessceConfig([]);
        var cs := newConfig.coordinationSpace;
        if view.spatialTargetX.Some? {
          cs := cs.(spatialTargetX := Put(cs.spatialTargetX, "A", Num(view.spatialTargetX.value)));
        }
        if view.spatialTargetY.Some? {
          cs := cs.(spatialTargetY := Put(cs.spatialTargetY, "A", Num(view.spatialTargetY.value)));
        }
        if view.spatialZoom.Some? {
          cs := cs.(spatialZoom := Put(cs.spatialZoom, "A", Num(view.spatialZoom.value)));
        }
        newConfig := newConfig.(coordinationSpace := cs);
        config := Some(newConfig);
        configKey := configKey + 1;
      }
      if view.selectedGroups.Some? && view.selectedGroups.value != selectedGroups {
        selectedGroups := view.selectedGroups.value;
      }
    }
  }
}
