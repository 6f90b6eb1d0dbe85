# BioMedVis ROI explorer — a Dafny model of its core

The application shows a multiplexed tissue image in Vitessce and overlays
regions of interest (ROIs) for four kinds of cell–cell interaction. This
project models its small, deterministic transformations and proves what
they promise:

- **Configuration compiler** (`generateVitessceConfig`): takes the selected
  interaction groups and produces a Vitessce configuration. That is a
  coordination space, a list of files (the OME-Zarr image plus one
  segmentation file per known group) and a two-panel layout whose scope
  lists are read off the coordination maps. JavaScript objects are modelled
  as insertion-ordered association lists (`Assoc`), because the order of
  `Object.keys` shows up in the layout. JavaScript lists integer-like keys
  first, in ascending order, and other keys in insertion order. Every key
  the compiler writes is a non-numeric string. The only integer-like keys in
  the core are the group ids 1 to 4 of `activeGroups`, which are inserted in
  ascending order, so insertion order is the order JavaScript gives. The method keeps the source's loops
  and is proved equal to a fold (`Compile`). The lemmas in
  `ConfigProperties` are about that fold.
- **Main view "Set View"** (`handleSetView` in the main view): compiles
  the image-only configuration, overwrites the camera fields that are given,
  bumps the configuration key and adopts a new selection.
- **GeoJSON ROI extraction** (the `roi_shapes` effect): turns polygon and
  multipolygon features into ROIs. Each ROI's centroid has its y axis
  flipped at 688, its id falls back to `ROI_<index>` and its score falls
  back to 0.
- **ROI navigator** (`ROISelector`): a class holding the selection, the
  cursor and the ROI list. It covers:
  - single-selection toggling;
  - the URL of an interaction type's top-ROI file;
  - extraction of at most four ROIs;
  - cyclic next/prev;
  - the camera request for the current ROI (x·8, 5508 − y·8).
- **Hollow-circle labels** (`create_hollow_circles_with_labels.py`):
  - circle and hollow-circle rings, over an abstract point function;
  - stem rectangles placed symmetrically, using Python's round-half-even;
  - the loop that numbers the non-empty ROIs and writes `ROI_n` plus the
    stem keys `ROI_nk`. The keys are distinct for up to ten ROIs and collide
    from the eleventh on (`ROI_11` is both circle 11 and stem 1 of ROI 1).
- **Interaction heatmap overlay** (`InteractionHeatmap`): filters to the
  active groups and drops groups without data. It reverses the rows,
  min–max normalises them with a guard for a flat range, and builds a
  4-stop colour scale (`Math.sqrt` is a parameter).
- **Channel heatmap colours** (`HeatmapResults`): the 5-stop
  `rgbToColorscale` ramp, the fallback scale and the reversed rows.

Two behaviours of the code are worth knowing:
- **Meta lists are not de-duplicated:** a group selected twice is pushed
  twice onto every meta list, while its map key appears once.
  `ConfigProperties.RepeatedSelectionIsNotDeduplicated` shows it.
- **ROI responses carry no generation counter:** nothing discards a stale
  response, and the model has no such guard either.

## Model

| member | source | states |
|---|---|---|
| Common.NatToString | frontend/src/components/Original.jsx:342 | The decimal numeral of an index used in `ROI_${index}` ids: non-empty, all digits, one digit exactly below 10 |
| Common.TwoDigitNumeral | backend/create_hollow_circles_with_labels.py:115 | A number from 10 to 99 is written as its tens digit then its units digit |
| Common.ParseNatToString | frontend/src/components/Original.jsx:342 | Reading the numeral back gives the number, so numerals are a faithful encoding |
| Common.NatToStringInjective | frontend/src/components/Original.jsx:342 | Distinct indexes give distinct numerals |
| Common.Reverse | frontend/src/components/InteractionHeatmap.jsx:106 | `slice().reverse()` keeps the length |
| Common.ReverseAt | frontend/src/components/HeatmapResults.jsx:82 | Element k of the reversed copy is element \|s\|−1−k of the original |
| Common.ReverseInvolutive | frontend/src/components/HeatmapResults.jsx:82 | Reversing twice gives back the input, so no rows are lost or changed |
| Common.AppendNew | frontend/src/components/Original.jsx:141-148 | Assigning a key to a JS object adds it to the key order only when it is new; membership is the old keys plus the new one, and duplicate-freedom is kept |
| Common.Union | frontend/src/components/Original.jsx:192-199 | The key order after several assignments holds exactly the old and the assigned keys, with no duplicate added |
| Common.UnionAppend | frontend/src/components/Original.jsx:135-166 | Assigning keys in two batches gives the same key order as one batch |
| Common.UnionDropsRepeat | frontend/src/components/Original.jsx:151-156 | A repeated key makes the key list shorter than the number of assignments |
| Common.UnionOfFresh | frontend/src/components/Original.jsx:151-156 | Distinct fresh keys are appended in assignment order |
| Assoc.Keys | frontend/src/components/Original.jsx:192-199 | `Object.keys` lists the keys in insertion order, which is JavaScript's order for the non-numeric keys the compiler writes |
| Assoc.Lookup | frontend/src/components/Original.jsx:136 | A lookup succeeds exactly when the key is present |
| Assoc.PutKeys | frontend/src/components/Original.jsx:108-113 | `obj[k] = v` appends k to the key order only when it is new |
| Assoc.PutLookup | frontend/src/components/Original.jsx:108-113 | After `obj[k] = v`, k reads v and every other key reads what it read before |
| Assoc.PutFresh | frontend/src/components/Original.jsx:141-148 | Assigning a fresh key appends the entry at the end |
| Geometry.FlattenMembers | frontend/src/components/Original.jsx:332-338 | `flat()` holds exactly the points of the parts |
| Geometry.FlattenLength | frontend/src/components/ROISelector.jsx:25-29 | `flat()` has as many points as the parts together |
| Geometry.Centroid | frontend/src/components/ROISelector.jsx:25-29 | The mean exists exactly for a non-empty list, and n times each coordinate of the mean is the sum of that coordinate |
| Geometry.CentroidInBox | frontend/src/components/Original.jsx:337-339 | The mean of points inside an axis-aligned box lies in the box |
| Geometry.CentroidOfOne | frontend/src/components/ROISelector.jsx:25-29 | The mean of a single point is that point |
| VitessceConfig.GroupTableCases | frontend/src/components/Original.jsx:17-42 | `INTERACTION_TO_ROI` knows exactly the four named groups, with their files, obs types, colours and stroke widths |
| VitessceConfig.KnownGroupFacts | frontend/src/components/Original.jsx:17-42 | Each known group has its own obs type, and no obs type names a channel or the scopes "A" and "image" |
| VitessceConfig.ChannelTableKeys | frontend/src/components/Original.jsx:8-14 | `IMAGE_CHANNELS` lists CD31, CD20, CD11b, CD4 and CD11c once each, in this order |
| VitessceConfig.ChannelIteration | frontend/src/components/Original.jsx:107-124 | One channel iteration writes the channel's entries into every map and pushes its name onto the colour meta list |
| VitessceConfig.GroupIteration | frontend/src/components/Original.jsx:135-166 | One group iteration skips an unknown group; for a known one it writes the overlay entries, pushes the meta lists and appends the segmentation file |
| VitessceConfig.ChannelLoop | frontend/src/components/Original.jsx:107-124 | The channel loop processes the channels in table order |
| VitessceConfig.GroupLoop | frontend/src/components/Original.jsx:135-166 | The group loop processes the selected names in input order |
| VitessceConfig.GenerateVitessceConfig | frontend/src/components/Original.jsx:45-230 | The imperative compiler builds exactly the configuration that the fold `Compile` describes |
| ConfigProperties.KnownGroupsStep | frontend/src/components/Original.jsx:135-137 | The known groups of a selection grow by one exactly when the last name is in the table |
| ConfigProperties.ChannelLoopLookups | frontend/src/components/Original.jsx:107-124 | After the channel loop each channel reads its own value in every map, and every binding map binds it to itself |
| ConfigProperties.ChannelLoopMetaColor | frontend/src/components/Original.jsx:123 | The channel loop appends the channel names, in order, to the colour meta list |
| ConfigProperties.GroupLoopFiles | frontend/src/components/Original.jsx:158-164 | The group loop appends one segmentation file per known group, in input order |
| ConfigProperties.GroupLoopMeta | frontend/src/components/Original.jsx:151-156 | The group loop appends each known group's obs type, repeats included, to every overlay meta list |
| ConfigProperties.GroupLoopKeys | frontend/src/components/Original.jsx:141-148 | The keys of each overlay map after the loop are the old keys united with the obs types |
| ConfigProperties.GroupLoopEntered | frontend/src/components/Original.jsx:141-148 | The obs type of every known group maps to that group's value |
| ConfigProperties.GroupLoopSkipsUnknown | frontend/src/components/Original.jsx:136 | Running the loop on a selection equals running it on the selection's known names alone |
| ConfigProperties.DistinctNamesDistinctObsTypes | frontend/src/components/Original.jsx:17-42 | Distinct known names give distinct obs types |
| ConfigProperties.CompileChannelEntries | frontend/src/components/Original.jsx:107-120 | In the compiled space every channel has image channel "__dummy__", its colour, opacity 1.0, visible true, its window and target C, and each binding map points it to itself |
| ConfigProperties.CompileGroupEntries | frontend/src/components/Original.jsx:141-148 | In the compiled space every known group's obs type has filled false, the table's stroke width, layer opacity 0.5, visible true, tooltips true and the table's colour |
| ConfigProperties.CompileMetaChannelColor | frontend/src/components/Original.jsx:123-156 | The colour meta list is the channel names in table order, then the known groups' obs types in input order |
| ConfigProperties.CompileMetaScopes | frontend/src/components/Original.jsx:151-156 | Every overlay meta list is its fixed prefix followed by the known groups' obs types |
| ConfigProperties.CompileSkipsUnknown | frontend/src/components/Original.jsx:135-136 | Space, files and layout are the same as if the unknown names were absent |
| ConfigProperties.CompileFiles | frontend/src/components/Original.jsx:127-164 | There is one dataset whose files number 1 + the known groups: the OME-Zarr image first, then per known group a segmentation file at `http://localhost:5000/api/` + its file with its obs type |
| ConfigProperties.CompileKeys | frontend/src/components/Original.jsx:141-148 | The keys of each overlay map are its initial keys united with the known obs types |
| ConfigProperties.CompileFixedScopes | frontend/src/components/Original.jsx:47-104 | Camera, dataset and the other scopes the loops never touch keep their initial values (target 5454/1600, zoom −3.0, dataset "bv") |
| ConfigProperties.CompileLayoutPanels | frontend/src/components/Original.jsx:179-226 | The layout has two panels, and both carry the same scopes, read from the compiled space |
| ConfigProperties.CompileLayoutChannels | frontend/src/components/Original.jsx:179-226 | The visible-channel scope list is the key list of its map, the hard-coded channel colour list equals the channel names, and every channel has a colour and an opacity entry |
| ConfigProperties.CompileLayoutCamera | frontend/src/components/Original.jsx:185-191 | Every camera and image-layer scope that a panel names (target X, Y and Z, zoom, resolution, time and rendering mode) is a key of its map |
| ConfigProperties.CompileMetaScopesExist | frontend/src/components/Original.jsx:151-156 | Every scope in a meta list is a key of its map |
| ConfigProperties.KeysMatchMeta | frontend/src/components/Original.jsx:151-156 | For distinct selected names each overlay map's key list equals its meta list, which has no duplicates |
| ConfigProperties.CompileLayoutMatchesMeta | frontend/src/components/Original.jsx:179-226 | For distinct selected names the panel scope lists for filled, stroke width, tooltips, layer opacity and layer visibility equal the meta lists, which have no duplicates |
| ConfigProperties.RepeatedSelectionIsNotDeduplicated | frontend/src/components/Original.jsx:151-156 | A known group selected twice is pushed twice onto the meta list, while its map key and its panel scope appear once; the file list has three entries |
| ConfigProperties.CompileImageOnly | frontend/src/components/Original.jsx:127-132 | With no known group there is only the image file, no overlay keys, and the colour meta list is just the channels |
| ConfigProperties.CompileTitle | frontend/src/components/Original.jsx:170-171 | For an empty selection the name is "… - Image Only" and the description ends in "None"; otherwise both end in the selected names joined by ", ", unknown names included, so a single group is named as itself |
| ConfigProperties.JoinSnoc | frontend/src/components/Original.jsx:170-171 | `join(", ")` of one name is that name, and appending a name appends the separator and the name |
| MainView.SetCameraReads | frontend/src/components/Original.jsx:364-378 | A camera field is overwritten when given and keeps its default otherwise |
| MainView.SetViewConfigFacts | frontend/src/components/Original.jsx:364-378 | The override config has the given camera values or the defaults 5454/1600/−3.0, only the image file, no overlays, and the image-only layout and name |
| MainView.SetViewIgnoresGroupHint | frontend/src/components/Original.jsx:359-378 | The ROI group hint and the segmentation flag do not change the installed configuration |
| MainView.MainViewState.constructor | frontend/src/components/Original.jsx:233-248 | No configuration, key 0 and an empty selection at start |
| MainView.MainViewState.HandleSetView | frontend/src/components/Original.jsx:359-413 | With refresh the override config is installed and the key bumped, and without it nothing changes; a given selection is adopted |
| RoiShapes.ExtractFeatureCases | frontend/src/components/Original.jsx:322-349 | A feature yields an ROI exactly when it has a Polygon or MultiPolygon geometry and properties; a polygon without properties throws; anything else is dropped |
| RoiShapes.ExtractedFields | frontend/src/components/Original.jsx:342-347 | The ROI's id is the name, or `ROI_<index>` when the name is missing or empty; the score falls back to 0 and the interactions to [] |
| RoiShapes.ExtractedCenter | frontend/src/components/Original.jsx:337-339 | The centre exists exactly when there are vertices; its x is the mean x and its y is 688 minus the mean y |
| RoiShapes.MultiPolygonVertices | frontend/src/components/Original.jsx:329-333 | A multipolygon's vertices are exactly the points of all its rings |
| RoiShapes.ExtractedCenterInBox | frontend/src/components/Original.jsx:337-339 | A shape inside a box has its centre inside the box, with the y range flipped |
| RoiShapes.FallbackIdsDistinct | frontend/src/components/Original.jsx:342 | Fallback ids of different features differ |
| RoiShapes.ExtractRoisFails | frontend/src/components/Original.jsx:322-356 | The whole extraction fails (and the catch clears the list) exactly when some feature throws |
| RoiShapes.ExtractRoisOrder | frontend/src/components/Original.jsx:322-349 | The ROIs are the extracted features in source order: the kept indexes increase, each ROI comes from its feature, and every extractable feature is kept |
| RoiShapes.ExtractRoisEmpty | frontend/src/components/Original.jsx:322-349 | The list is empty exactly when no feature is extractable |
| RoiShapes.RoisAfterLoadCases | frontend/src/components/Original.jsx:312-357 | A body without features leaves the list unchanged; a failed request clears it; with features it becomes empty exactly when some feature throws or none is extractable |
| RoiNavigator.SlugFromFacts | frontend/src/components/ROISelector.jsx:90 | The file-name slug has none of the characters JavaScript's `\s` matches (ASCII and Unicode whitespace), is no longer than its input, and leaves a name without whitespace unchanged |
| RoiNavigator.SlugRun | frontend/src/components/ROISelector.jsx:90 | A run of whitespace becomes a single "_" |
| RoiNavigator.SlugTwoWords | frontend/src/components/ROISelector.jsx:90 | Two words separated by whitespace become word_word |
| RoiNavigator.NoBreakSpaceSlug | frontend/src/components/ROISelector.jsx:90 | A no-break space (U+00A0) counts as whitespace, as it does for `\s` |
| RoiNavigator.TopRoiUrlShape | frontend/src/components/ROISelector.jsx:94-105 | Locally the URL is `<base>/api/top5_roi_<slug>.json`; hosted it is `./data/top5_roi_<slug>.json` |
| RoiNavigator.ExtractRowsFacts | frontend/src/components/ROISelector.jsx:136-161 | Extraction succeeds exactly when every row has a position and a score; each ROI keeps its row, has interactions [type], roi_id falling back to index+1 when falsy, and z falling back to 0 |
| RoiNavigator.ExtractTopFacts | frontend/src/components/ROISelector.jsx:133 | At most four ROIs are kept, the first rows in source order |
| RoiNavigator.RoisAfterTopLoadCases | frontend/src/components/ROISelector.jsx:121-169 | A non-array `top_rois` leaves the list unchanged, a failure or a missing field clears it, and rows replace it with at most four ROIs in order |
| RoiNavigator.Without | frontend/src/components/ROISelector.jsx:251-254 | The filtered selection holds exactly the other groups |
| RoiNavigator.ToggledFacts | frontend/src/components/ROISelector.jsx:251-259 | Toggling an unselected group gives exactly [group]; toggling a selected one removes it; at most one group stays selected |
| RoiNavigator.CursorSteps | frontend/src/components/ROISelector.jsx:293-309 | next and prev land in [0, n), and inside the list they move by one |
| RoiNavigator.CursorWraps | frontend/src/components/ROISelector.jsx:293-309 | next wraps from the last to the first, prev from the first to the last, and a one-element list stands still |
| RoiNavigator.CursorInverse | frontend/src/components/ROISelector.jsx:293-309 | Inside the list next and prev undo each other |
| RoiNavigator.CursorMoves | frontend/src/components/ROISelector.jsx:293-309 | A move over an empty list makes the cursor NaN for good; over a non-empty list a numeric cursor stays numeric and in range |
| RoiNavigator.ViewTransformFacts | frontend/src/components/ROISelector.jsx:211-212 | The camera transform can be inverted, is monotone in x, flips the y axis and maps the centre row to the image's centre |
| RoiNavigator.SetViewRequestFacts | frontend/src/components/ROISelector.jsx:208-239 | A request is made exactly when the current ROI has x and y; it asks for a refresh with zoom −1.0 at the transformed position and carries no selection |
| RoiNavigator.ToggleRequestInstalls | frontend/src/components/ROISelector.jsx:282-288 | The request sent after a toggle installs camera 5454/2600/−3.0 and only the image file |
| RoiNavigator.NavigatorGroupsCompile | frontend/src/components/ROISelector.jsx:35-40 | Of the offered names, 'T-cell maturation' and 'Oxidative stress regulation' are unknown to the compiler and yield an image-only file list; the others add one segmentation file |
| RoiNavigator.ComputeCentroidFacts | frontend/src/components/ROISelector.jsx:25-29 | The centroid exists exactly when there is a point, and it is the mean of the flattened points |
| RoiNavigator.RoiSelector.constructor | frontend/src/components/ROISelector.jsx:8-10 | No ROIs, cursor 0 and no selection at start |
| RoiNavigator.RoiSelector.CurrentRoi | frontend/src/components/ROISelector.jsx:195 | The current ROI is `rois[currentIndex]` when the cursor is a number in range, and `{}` otherwise |
| RoiNavigator.RoiSelector.ToggleGroup | frontend/src/components/ROISelector.jsx:243-291 | The selection becomes the toggled one and stays at most one group; the cursor resets to 0; the new selection's URL is fetched and the toggle's view request is sent |
| RoiNavigator.RoiSelector.ReceiveTopRois | frontend/src/components/ROISelector.jsx:109-169 | The list becomes what the response dictates; cursor and selection are unchanged |
| RoiNavigator.RoiSelector.Next | frontend/src/components/ROISelector.jsx:293-300 | The cursor becomes `(i + 1) % n`, in range for a non-empty list, and NaN for an empty one |
| RoiNavigator.RoiSelector.Prev | frontend/src/components/ROISelector.jsx:302-309 | The cursor becomes `(i − 1 + n) % n`, in range for a non-empty list, and NaN for an empty one |
| RoiNavigator.RoiSelector.SetView | frontend/src/components/ROISelector.jsx:208-239 | The request for the current ROI, with its x scaled by 8 |
| HollowCircles.RoundFacts | backend/create_hollow_circles_with_labels.py:53-62 | `round` picks the nearest integer, breaks ties to the even one, and fixes integers |
| HollowCircles.RoundShiftEven | backend/create_hollow_circles_with_labels.py:62 | Shifting by an even integer shifts the rounded value by the same amount |
| HollowCircles.Ring | backend/create_hollow_circles_with_labels.py:6-17 | A ring has num_points+1 points, point i at angle step i |
| HollowCircles.CreateCirclePolygon | backend/create_hollow_circles_with_labels.py:6-17 | The loop returns num_points+1 points, point i at angle step i |
| HollowCircles.CreateHollowCirclePolygon | backend/create_hollow_circles_with_labels.py:19-44 | The loops build the outer ring followed by the reversed inner ring |
| HollowCircles.HollowCircleShape | backend/create_hollow_circles_with_labels.py:19-44 | A hollow circle has 2·(num_points+1) points: the outer ring at radius + stroke//2, then the inner ring at radius − stroke//2 backwards |
| HollowCircles.StemPolygonShape | backend/create_hollow_circles_with_labels.py:65-74 | The stem is a closed 5-point axis-aligned rectangle of width 2·(w//2) and height 2·(h//2), centred at (stem_x, stem_y) |
| HollowCircles.StemOffsetSymmetric | backend/create_hollow_circles_with_labels.py:59-60 | The offsets of stems k and total+1−k cancel, and consecutive stems are `spacing` apart |
| HollowCircles.StemXSymmetric | backend/create_hollow_circles_with_labels.py:59-62 | For a spacing divisible by 4 the rounded stem x positions are symmetric about the rounded centre and `spacing` apart |
| HollowCircles.EntryCoords | backend/create_hollow_circles_with_labels.py:97-103 | An empty entry is skipped, a nested `[[[x, y], ...]]` entry is unwrapped to its first ring, and a used entry has points |
| HollowCircles.ProcessFailureSticks | backend/create_hollow_circles_with_labels.py:95-122 | Once an entry fails, the whole file fails |
| HollowCircles.ProcessRoiFile | backend/create_hollow_circles_with_labels.py:78-130 | The imperative loop fails exactly when the fold fails, and otherwise returns its output and a count of roi_count − 1 |
| HollowCircles.ProcessCount | backend/create_hollow_circles_with_labels.py:94-122 | Processing fails exactly when some entry fails; otherwise roi_count is one more than the number of non-empty entries |
| HollowCircles.ProcessKeys | backend/create_hollow_circles_with_labels.py:115-120 | The output's keys are exactly those written for the first n ROIs: `ROI_n`, then `ROI_nk` for k = 1..n |
| HollowCircles.KeyCountClosedForm | backend/create_hollow_circles_with_labels.py:115-120 | n ROIs write n + n(n+1)/2 keys |
| HollowCircles.WrittenNamesMembers | backend/create_hollow_circles_with_labels.py:115-120 | The key names written for n ROIs are exactly the circle names up to n and the stem names k ≤ m ≤ n |
| HollowCircles.WrittenKeysDistinct | backend/create_hollow_circles_with_labels.py:115-120 | For up to ten ROIs the written key strings are distinct |
| HollowCircles.OutputUpToTen | backend/create_hollow_circles_with_labels.py:115-130 | For up to ten ROIs the output holds every written key once, n + n(n+1)/2 entries |
| HollowCircles.EleventhCollides | backend/create_hollow_circles_with_labels.py:115-119 | `ROI_11` is both the eleventh circle and stem 1 of ROI 1 |
| HollowCircles.WrittenKeysRepeat | backend/create_hollow_circles_with_labels.py:115-120 | From eleven ROIs on, a key string is written twice |
| HollowCircles.OutputFromEleven | backend/create_hollow_circles_with_labels.py:115-130 | From eleven ROIs on, the output has fewer entries than keys written, so one is overwritten |
| InteractionOverlay.ActiveIdsFacts | frontend/src/components/InteractionHeatmap.jsx:90 | The active list holds exactly the groups whose flag is true and is no longer than the flags |
| InteractionOverlay.MinOf | frontend/src/components/InteractionHeatmap.jsx:101 | `Math.min` of the values is one of them and at most each of them |
| InteractionOverlay.MaxOf | frontend/src/components/InteractionHeatmap.jsx:102 | `Math.max` of the values is one of them and at least each of them |
| InteractionOverlay.NormalizeShape | frontend/src/components/InteractionHeatmap.jsx:106-113 | The output has the input's shape with the rows reversed, each cell normalised from the matching input cell |
| InteractionOverlay.CellInBounds | frontend/src/components/InteractionHeatmap.jsx:101-102 | Every cell lies between the grid's min and max |
| InteractionOverlay.FlatGridIsZero | frontend/src/components/InteractionHeatmap.jsx:103-108 | When max − min ≤ 0 every output cell is 0 |
| InteractionOverlay.ScaledInUnit | frontend/src/components/InteractionHeatmap.jsx:109 | With a positive range the pre-sqrt value is in [0, 1] |
| InteractionOverlay.ScaledOrder | frontend/src/components/InteractionHeatmap.jsx:109 | The pre-sqrt value is monotone, 0 at the minimum and 1 at the maximum |
| InteractionOverlay.ExtremesAttained | frontend/src/components/InteractionHeatmap.jsx:101-102 | For a non-empty grid some cell is the minimum and some cell is the maximum |
| InteractionOverlay.NormalizedInUnit | frontend/src/components/InteractionHeatmap.jsx:100-113 | If the root maps [0, 1] into [0, 1], every output cell is in [0, 1] |
| InteractionOverlay.TracesFacts | frontend/src/components/InteractionHeatmap.jsx:94-128 | One trace per active group with data, in order; each comes from its group, and no group with data is dropped |
| InteractionOverlay.TracesOwned | frontend/src/components/InteractionHeatmap.jsx:94-128 | Every trace's matrix is the normalised data of an active group, and its colour scale is built from that group's colour |
| InteractionOverlay.TracesEmpty | frontend/src/components/InteractionHeatmap.jsx:94-128 | There are no traces exactly when no active group has data |
| InteractionOverlay.OverlayDataFacts | frontend/src/components/InteractionHeatmap.jsx:90-130 | Nothing is drawn exactly when the result is null or no active group has data; otherwise there are at most as many traces as active groups, each from its group |
| HeatmapColors.ColorscaleStops | frontend/src/components/HeatmapResults.jsx:5-14 | Five stops at 0, 0.1, 0.3, 0.6 and 1, increasing: transparent black, the colour over 2, 1.5 and 1.2 with alphas 0.4, 0.6 and 0.8, then the colour with alpha 1 |
| HeatmapColors.ColorscaleGrows | frontend/src/components/HeatmapResults.jsx:9-12 | For non-negative components each channel and the alpha are nondecreasing along the stops |
| HeatmapColors.FallbackStops | frontend/src/components/HeatmapResults.jsx:84-91 | The fallback scale has five increasing stops at the same positions and alphas, starting transparent |
| HeatmapColors.HeatmapPlotsFacts | frontend/src/components/HeatmapResults.jsx:27-91 | Nothing is rendered exactly for a null result; otherwise there is one plot per channel, titled by the channel, with its rows reversed on a copy, a channel with an image-channel entry gets `rgbToColorscale` of that entry's colour, and a channel without one gets the fallback scale |
| HeatmapColors.AppUsesFallback | frontend/src/components/Original.jsx:476-489 | The main view never passes image channels, so every plot uses the fallback scale |

## Left out

- I/O is not modelled: every `fetch`, the POST of the configuration to the backend, `window.lastConfig`, `console.log`, and the DOM and resize handling of `adjustROISize`. Responses become a parameter (`ShapesResponse`, `TopRoisResponse`).
- JSON reading and writing, directory handling and `main()`'s loop over files in the label generator are not modelled. `ProcessRoiFile` takes the parsed entries.
- React scheduling is not modelled, in particular the `selectedGroups` effect that later regenerates the configuration after `handleSetView`. Nor is the race between overlapping `loadROIData` responses: the code has no guard against it, and none is modelled.
- Trigonometry in the label generator is an abstract point function `pt(centre, radius, i, n)`. The model states counts, order and radii only.
- InteractionOverlay.Normalize: `Math.sqrt` is a parameter `root`. Properties are proved for the value before the root, or under stated assumptions on `root`.
- RoiNavigator.ExtractRow: the tooltip text built with `toFixed(3)` is not modelled; the ROI keeps its raw row.
- RoiNavigator.RawRoi: `roi_id` is modelled as an optional natural number, with 0 as its only falsy value. A string or non-integer `roi_id`, which `roi.roi_id || (index + 1)` would keep as written, cannot be represented.
- Colour strings (`rgba(...)`, hex colour plus alpha suffix) are kept as records of reals, or as the concatenated string for the overlay.
- Floating-point rounding is not modelled: coordinates and heatmap values are mathematical reals.
- `handleGroupToggle` (flipping one flag of `activeGroups`) and the other event handlers of the main view are not modelled: they only log or flip a flag. The flags are the `activeGroups` input of `InteractionOverlay.OverlayData`.
- Vitessce, Plotly and all JSX markup are not modelled.
