# Dope-sheet keyframe operators and game-engine world settings

This project models two parts of Blender in Dafny.

**The dope-sheet keyframe operators** (`action_edit.c`). Each operator asks the
animation-channel filter for a list of channels and then edits the F-Curve of
every channel in list order. The model covers these operators:

- the keyframe-extent fold behind "set preview range" and "view all";
- key insertion, including the insert scope and the keying flags;
- duplicate, delete and clean;
- sampling between pairs of selected keys;
- extrapolation, interpolation and handle type;
- snapping and mirroring, with the NLA time-mapping bracket around each channel;
- snapping the current frame to the average time of the selected keys.

Every modelled operator's `exec` wrapper is modelled too, and each is
cancelled without an editor context. On grease-pencil data, clean, sample,
extrapolation, interpolation and handle type pass through, and insert is
cancelled. Duplicate, delete, snap and mirror run on grease-pencil data with
the curve filter dropped. The view, preview-range and current-frame snap
operators make no grease-pencil check.

**The game engine's world settings** (`BlenderWorldInfo`). This is a class whose
constructor reads a World data block and whose setters overwrite one group of
fields at a time. The getters read the fields back.

Modules:

- `Anim`: keys, F-Curves, scenes, markers, the editor context and the channel
  filter. It also holds `Floor`/`Ceiling`/`RoundFrame` (C `floor`, `ceil` and
  `(int)floor(x + 0.5f)`) and `InsertVert`, a stand-in for inserting one vertex
  into a curve.
- `KeyframeRange`: `get_keyframe_extents`, the preview-range operator and the
  view-all operator.
- `KeyframeSample`: the sample scan on one curve. It is proved equal to a
  pair-based specification (`ApplyPairs`).
- `KeyframeEdit`: insert, duplicate, delete, clean, sample, extrapolation,
  interpolation, handle type, snap and mirror.
- `FrameSnap`: `bezt_calc_average` and the current-frame snap.
- `GameWorld`: class `BlenderWorldInfo`.

The per-key algorithms these operators call are defined elsewhere in Blender.
They enter the model as function parameters, so every result is stated for any
such algorithm:

- `calcRange`: `calc_fcurve_range`;
- `frameInv`: `get_action_frame_inv`;
- `evaluate`: `evaluate_fcurve`;
- `duplicate`, `delete` and `clean`: the curve-level algorithms;
- `ipo`, `handles`, `snap` and `mirror`: the `ANIM_editkeyframes_*` callbacks;
- `freeCheck`: the callback that checks for free handles;
- `nlaMap`: `ANIM_nla_mapping_apply_fcurve` on one key time;
- `toSrgb`: `linearrgb_to_srgb_v3_v3`.

The channel filter is an `AnimContext` holding the editor's channels in display
order and a predicate `passes(bits, channel)`. `Filter` keeps, in order, the
channels that pass the requested filter bits.

## Model

All source paths are under `source/blender/editors/space_action/` (`action_edit.c`)
or `source/gameengine/Converter/` (`BlenderWorldInfo.cpp`); the table gives them in full.

| member | source | states |
|---|---|---|
| Anim.RoundFrame | source/blender/editors/space_action/action_edit.c:163-165 | `(int)floor(x + 0.5)` is the whole frame within half a frame of x: x - 0.5 < r <= x + 0.5 |
| Anim.Floor | source/blender/editors/space_action/action_edit.c:707 | C `floor`: the greatest whole number not above x |
| Anim.Ceiling | source/blender/editors/space_action/action_edit.c:706 | C `ceil`: the least whole number not below x |
| Anim.FilterSeq | source/blender/editors/space_action/action_edit.c:102-103 | the filtered list holds only channels of the editor, and only those passing the filter bits |
| Anim.FilterSeqComplete | source/blender/editors/space_action/action_edit.c:102-103 | every channel of the editor that passes the filter bits is in the filtered list |
| Anim.FilterSeqAppend | source/blender/editors/space_action/action_edit.c:102-103 | filtering keeps display order: the filter of two lists one after the other is the filter of the first followed by the filter of the second |
| Anim.FilterDistinct | source/blender/editors/space_action/action_edit.c:102-103 | when the editor lists each curve once, so does every filtered list, so the per-channel loops edit each curve once |
| Anim.MapKeys | source/blender/editors/space_action/action_edit.c:980-990 | the bezier-key loop applies the callback to every key, keeping their number and order |
| Anim.InsertVertSorted | source/blender/editors/space_action/action_edit.c:410 | inserting a vertex into a time-ordered curve keeps it time-ordered |
| Anim.InsertVertTimes | source/blender/editors/space_action/action_edit.c:410 | after inserting a vertex at t, the curve's key times are the old ones plus t |
| KeyframeRange.Ranges | source/blender/editors/space_action/action_edit.c:112-123 | one range per filtered channel, in list order: the curve's range, passed through the inverse NLA mapping when the channel has an NLA owner |
| KeyframeRange.GetKeyframeExtents | source/blender/editors/space_action/action_edit.c:95-144 | the loop's min/max equal `Extents`: the MIN2/MAX2 fold from the seeds 999999999 and -999999999 over the channel ranges; with no filtered channel, the scene's (sfra, efra), or (-5, 100) without a scene |
| KeyframeRange.FoldMinBelow | source/blender/editors/space_action/action_edit.c:105-128 | the folded minimum is at most the seed and at most every range start |
| KeyframeRange.FoldMinAttained | source/blender/editors/space_action/action_edit.c:105-128 | the folded minimum is the seed or one of the range starts |
| KeyframeRange.FoldMaxAbove | source/blender/editors/space_action/action_edit.c:105-128 | the folded maximum is at least the seed and at least every range end |
| KeyframeRange.FoldMaxAttained | source/blender/editors/space_action/action_edit.c:105-128 | the folded maximum is the seed or one of the range ends |
| KeyframeRange.ExtentsOfChannels | source/blender/editors/space_action/action_edit.c:105-128 | with channels present, the extents bound every channel's (NLA-mapped) range, and each end is a channel's value unless a seed wins |
| KeyframeRange.ExtentsOrdered | source/blender/editors/space_action/action_edit.c:105-128 | with channels present and every channel range ordered, min <= max |
| KeyframeRange.PreviewRangeExec | source/blender/editors/space_action/action_edit.c:148-171 | cancelled exactly when there is no context or no scene, and then nothing changes; otherwise psfra/pefra become the extents rounded with `floor(x + 0.5)` |
| KeyframeRange.PaddedView | source/blender/editors/space_action/action_edit.c:202-210 | the padded x-range is 1.2 times the extents' width, centred on them (same midpoint), and contains them when ordered; ymax is 0 and ymin is minus the mask height |
| KeyframeRange.ViewAllExec | source/blender/editors/space_action/action_edit.c:190-218 | cancelled exactly without a context; otherwise the view rectangle becomes the padded extents and the mask stays |
| KeyframeSample.Cache | source/blender/editors/space_action/action_edit.c:710-716 | the cache holds `range` entries: frame sfra + n, with the curve evaluated there before any insertion |
| KeyframeSample.SamplePairKeys | source/blender/editors/space_action/action_edit.c:706-721 | returns range = ceil(end - start), at least 0 when the pair is in time order; the curve becomes `SampleOne` of the pair: unchanged when range is 0 or negative (an end key before its start key), otherwise the frames floor(start) + n for n < range are each evaluated on the curve before any is inserted, then inserted in order |
| KeyframeSample.SampleOneShift | source/blender/editors/space_action/action_edit.c:719-728 | when both keys of a pair lie on whole frames and no whole-frame key lies strictly between them, sampling the pair adds exactly range - 1 keys (none when range is 0), all in front of the end key, so the end key and everything after it shift by that count unchanged |
| KeyframeSample.ApplyPairsSorted | source/blender/editors/space_action/action_edit.c:696-741 | sampling any pairs keeps a time-ordered curve time-ordered |
| KeyframeSample.SampleScanPair | source/blender/editors/space_action/action_edit.c:699-734 | the pair branch: the pair is sampled, and the index jumps by range - 1 (only when range is not 0) to the end key, which becomes the next start |
| KeyframeSample.ScanStep | source/blender/editors/space_action/action_edit.c:698-740 | one body of the scan keeps the scan invariant: the curve so far is the pair-based specification on the selected keys seen so far, and the keys from the current start on are untouched |
| KeyframeSample.SampleCurve | source/blender/editors/space_action/action_edit.c:696-741 | the scan, whose loop bound re-reads the growing key count, leaves the curve equal to `ApplyPairs` over the consecutive pairs of the original selected keys; the curve grows by range - 1 keys per pair and stays time-ordered |
| KeyframeEdit.EditChannels | source/blender/editors/space_action/action_edit.c:1151-1163 | the per-channel loop, on any list: each listed curve ends with its edit applied once per channel that lists it, in list order (EditedKeys); with no curve listed twice, each curve's keys become one edit of its keys before the loop |
| KeyframeEdit.EditedUnlisted | source/blender/editors/space_action/action_edit.c:478-483 | a curve that no channel of the list names keeps its keys through the loop |
| KeyframeEdit.EditedOnce | source/blender/editors/space_action/action_edit.c:478-483 | when no curve is listed twice, the loop's result for a listed curve is exactly one edit of its keys |
| KeyframeEdit.EditedPerListing | source/blender/editors/space_action/action_edit.c:478-483 | an edit that ignores the channel (duplicate, delete, clean, interpolation, handles) runs on a curve once per channel that lists it |
| KeyframeEdit.InsertFilter | source/blender/editors/space_action/action_edit.c:384-386 | the curve filter, plus SEL exactly for scope 2 and ACTGROUPED exactly for scope 3, and nothing else |
| KeyframeEdit.KeyingFlags | source/blender/editors/space_action/action_edit.c:390-392 | INSERTKEY_MATRIX exactly when auto-keying with matrix is on, INSERTKEY_NEEDED exactly when "insert needed" is on |
| KeyframeEdit.RequestsCover | source/blender/editors/space_action/action_edit.c:406-408 | every insertkey call is at the current frame with the keying flags, and each channel with an owning ID has a call naming that ID, the curve's group, path and index |
| KeyframeEdit.InsertChannel | source/blender/editors/space_action/action_edit.c:406-410 | a channel with an ID produces exactly its one insertkey call (ID, group, path, index, cfra, flags) and its keys become insertkey's result for that call; any other channel makes no call and gets a key at cfra with the curve's current value |
| KeyframeEdit.EditedInsertTimes | source/blender/editors/space_action/action_edit.c:396-411 | a curve listed only by channels without an owning ID gains exactly the current frame as a key time, however many channels list it |
| KeyframeEdit.InsertChannels | source/blender/editors/space_action/action_edit.c:396-411 | the insertion loop, on any list: the insertkey calls in list order, and each curve's keys with one insertion step (insertkey's result or a key inserted at cfra) per channel that lists it; with no curve listed twice, exactly one step |
| KeyframeEdit.InsertActionKeys | source/blender/editors/space_action/action_edit.c:373-414 | with the scope's filter and the auto-key flags, every filtered channel is keyed at the scene's current frame: channels with an ID through insertkey (the call and its result on the keys), the others directly; a curve listed only by channels without an ID gains exactly the current frame as a key time, however often it is listed |
| KeyframeEdit.InsertKeyExec | source/blender/editors/space_action/action_edit.c:418-442 | cancelled exactly without a context or on grease-pencil data, making no calls and changing no curve; otherwise finished, with the insertkey calls and every filtered curve's keys as insert_action_keys gives them, once per listing |
| KeyframeEdit.DuplicateActionKeys | source/blender/editors/space_action/action_edit.c:464-487 | every curve of the edit filter goes through duplication once per channel that lists it (exactly once when no curve is listed twice) |
| KeyframeEdit.DuplicateExec | source/blender/editors/space_action/action_edit.c:491-509 | cancelled exactly without a context; otherwise duplicates as duplicate_action_keys does and finishes; only the curves' keys may change |
| KeyframeEdit.DeleteActionKeys | source/blender/editors/space_action/action_edit.c:541-564 | every curve of the edit filter goes through deletion once per channel that lists it (exactly once when no curve is listed twice) |
| KeyframeEdit.DeleteExec | source/blender/editors/space_action/action_edit.c:568-586 | cancelled exactly without a context; otherwise deletes as delete_action_keys does and finishes; only the curves' keys may change |
| KeyframeEdit.CleanActionKeys | source/blender/editors/space_action/action_edit.c:605-621 | every selected curve is cleaned with the threshold once per channel that lists it (exactly once when no curve is listed twice) |
| KeyframeEdit.CleanExec | source/blender/editors/space_action/action_edit.c:625-649 | cancelled without a context, pass-through on grease pencil (both leave the curves alone), otherwise cleans as clean_action_keys does |
| KeyframeEdit.SampleActionKeys | source/blender/editors/space_action/action_edit.c:677-749 | every filtered curve ends as the pair-based sampling of its original keys, time-ordered |
| KeyframeEdit.SampleExec | source/blender/editors/space_action/action_edit.c:753-773 | cancelled without a context, pass-through on grease pencil (both leave the curves alone), otherwise samples, leaving each curve's keys the pair-based sampling of its original keys, in time order |
| KeyframeEdit.SetExpoActionKeys | source/blender/editors/space_action/action_edit.c:802-820 | every filtered curve's extrapolation becomes the mode and its keys do not change |
| KeyframeEdit.ExpoExec | source/blender/editors/space_action/action_edit.c:824-848 | cancelled without a context, pass-through on grease pencil (no extrapolation changes), otherwise sets the extrapolation |
| KeyframeEdit.SetIpoActionKeys | source/blender/editors/space_action/action_edit.c:879-898 | every key of every filtered curve goes through the interpolation callback for the mode, once per channel that lists the curve |
| KeyframeEdit.IpoExec | source/blender/editors/space_action/action_edit.c:902-926 | cancelled without a context, pass-through on grease pencil (both leave the curves alone), otherwise sets the interpolation as setipo_action_keys does |
| KeyframeEdit.AnyKey | source/blender/editors/space_action/action_edit.c:980 | the check loop answers true exactly when some key passes the check |
| KeyframeEdit.HandleKeys | source/blender/editors/space_action/action_edit.c:973-990 | a direct handle type applies its setter to every key; toggling applies one setter to all keys of a curve: the free setter when some key passes the check, the aligned setter when none does |
| KeyframeEdit.SetHandlesActionKeys | source/blender/editors/space_action/action_edit.c:959-996 | every filtered curve gets its handles set, per key for a direct type and per curve when toggling, once per channel that lists the curve |
| KeyframeEdit.HandleTypeExec | source/blender/editors/space_action/action_edit.c:1000-1024 | cancelled without a context, pass-through on grease pencil (both leave the curves alone), otherwise sets the handles as sethandles_action_keys does |
| KeyframeEdit.Bracketed | source/blender/editors/space_action/action_edit.c:1151-1162 | without an NLA owner a key is the callback's result; with one, the callback sees the key in scene time and its result is mapped back; when the two mappings undo each other, a key the callback leaves alone comes back unchanged |
| KeyframeEdit.SnapActionKeys | source/blender/editors/space_action/action_edit.c:1128-1165 | every channel of the edit filter is snapped with the mode's callback inside its own NLA bracket, with the scene and f1 = 0 as edit data; a curve listed by several channels is snapped through each channel's bracket in list order |
| KeyframeEdit.SnapExec | source/blender/editors/space_action/action_edit.c:1169-1191 | cancelled exactly without a context; otherwise snaps as snap_action_keys does and finishes; only the curves' keys may change |
| KeyframeEdit.FirstSelected | source/blender/editors/space_action/action_edit.c:1244-1249 | the index of the first selected marker in list order, or none exactly when no marker is selected |
| KeyframeEdit.FindFirstSelectedMarker | source/blender/editors/space_action/action_edit.c:1244-1249 | the search loop with its break finds exactly FirstSelected |
| KeyframeEdit.MirrorData | source/blender/editors/space_action/action_edit.c:1236-1256 | in marker mode, f1 is the frame of the first selected marker, and there is no edit data exactly when no marker is selected; other modes use f1 = 0 |
| KeyframeEdit.MirrorActionKeys | source/blender/editors/space_action/action_edit.c:1223-1280 | in marker mode with no selected marker, no curve changes; otherwise every channel of the edit filter is mirrored inside its own NLA bracket, so a curve listed twice is mirrored twice |
| KeyframeEdit.MirrorExec | source/blender/editors/space_action/action_edit.c:1284-1306 | cancelled exactly without a context; otherwise mirrors as mirror_action_keys does and finishes; only the curves' keys may change |
| FrameSnap.CalcAverage | source/blender/editors/space_action/action_edit.c:1051-1086 | the loops accumulate the sum and the number of keys whose f2 is selected, over all filtered curves |
| FrameSnap.AverageWithin | source/blender/editors/space_action/action_edit.c:1091-1093 | with at least one selected key, sum / count lies between the earliest and the latest selected key time |
| FrameSnap.SnappedFrameWithin | source/blender/editors/space_action/action_edit.c:1091-1093 | the frame picked lies between the rounded earliest and the rounded latest selected key time |
| FrameSnap.CfraSnapExec | source/blender/editors/space_action/action_edit.c:1066-1100 | cancelled exactly without a context; with a selected key, CFRA becomes floor(sum / count + 0.5); with none, CFRA does not change |
| GameWorld.BlenderWorldInfo.constructor | source/gameengine/Converter/BlenderWorldInfo.cpp:67-89 | hasWorld is whether a world is given; with one, hasMist is exactly the WO_MIST bit of its mode, the mist scalars are copied verbatim, mist and background colours come from the horizon colour and ambient from the ambient colour, each converted when colour management is on |
| GameWorld.BlenderWorldInfo.SetBackColor | source/gameengine/Converter/BlenderWorldInfo.cpp:171-176 | the three background getters (lines 106-119) return r, g and b; the other colours and all scalars are unchanged |
| GameWorld.BlenderWorldInfo.SetMistType | source/gameengine/Converter/BlenderWorldInfo.cpp:178-181 | the mist-type getter (lines 136-139) returns the argument; every other field is unchanged |
| GameWorld.BlenderWorldInfo.SetUseMist | source/gameengine/Converter/BlenderWorldInfo.cpp:183-186 | hasMist (lines 101-104) returns the argument; every other field is unchanged |
| GameWorld.BlenderWorldInfo.SetMistStart | source/gameengine/Converter/BlenderWorldInfo.cpp:188-191 | the mist-start getter (lines 141-144) returns the argument; every other field is unchanged |
| GameWorld.BlenderWorldInfo.SetMistDistance | source/gameengine/Converter/BlenderWorldInfo.cpp:193-196 | the mist-distance getter (lines 146-149) returns the argument; every other field is unchanged |
| GameWorld.BlenderWorldInfo.SetMistIntensity | source/gameengine/Converter/BlenderWorldInfo.cpp:198-201 | the mist-intensity getter (lines 151-154) returns the argument; every other field is unchanged |
| GameWorld.BlenderWorldInfo.SetMistColor | source/gameengine/Converter/BlenderWorldInfo.cpp:202-207 | the three mist-colour getters (lines 156-169) return r, g and b; the other colours and all scalars are unchanged |
| GameWorld.BlenderWorldInfo.SetAmbientColor | source/gameengine/Converter/BlenderWorldInfo.cpp:209-214 | the three ambient getters (lines 121-134) return r, g and b; the other colours and all scalars are unchanged |

The getters of `BlenderWorldInfo` (`HasWorld`, `HasMist`, `BackColorRed` … `MistColorBlue`) are
plain field reads. They appear in the contracts of the constructor and the setters above.

## Left out

- External algorithms. The following are not part of this model and enter only as parameters, with no assumed contract except where stated:
  - `ANIM_animdata_filter`, beyond "an order-preserving selection of the editor's channels";
  - `calc_fcurve_range`, `get_action_frame_inv`, `evaluate_fcurve`;
  - the curve-level delete, duplicate and clean;
  - the `ANIM_editkeyframes_*` callbacks;
  - `ANIM_nla_mapping_apply_fcurve`, modelled as a per-key time map;
  - `linearrgb_to_srgb_v3_v3`.
- `insertkey`: its code is not part of this model. The model records each call (ID, group, path, index, frame, flags) and takes its effect on the keys as a parameter `insertKey`, applied to the listed channel's own curve. That `insertkey` resolves the ID, path and index back to that same curve is assumed, not proved.
- KeyframeEdit.InsertChannel: for a channel with an owning ID, promises only that the keys become `insertKey`'s result for that channel's request, not that a key at the current frame appears, because `insertkey` may decline (INSERTKEY_NEEDED) and its code is not modelled.
- KeyframeEdit.InsertChannels: for a channel with an owning ID, promises only that the keys become `insertKey`'s result for that channel's request, not that a key at the current frame appears, because `insertkey` may decline (INSERTKEY_NEEDED) and its code is not modelled.
- KeyframeEdit.InsertActionKeys: for a channel with an owning ID, promises only that the keys become `insertKey`'s result for that channel's request, not that a key at the current frame appears, because `insertkey` may decline (INSERTKEY_NEEDED) and its code is not modelled.
- KeyframeEdit.InsertKeyExec: for a channel with an owning ID, promises only that the keys become `insertKey`'s result for that channel's request, not that a key at the current frame appears, because `insertkey` may decline (INSERTKEY_NEEDED) and its code is not modelled.
- `insert_vert_fcurve`: its code is not part of this model either. `InsertVert` stands in for it. It inserts in time order, replaces a key at exactly the same time and makes the new key fully selected. The real function matches times with a small threshold, which the stand-in does not.
- KeyframeSample.SampleCurve, KeyframeSample.ScanStep, KeyframeSample.SampleScanPair, KeyframeEdit.SampleActionKeys and KeyframeEdit.SampleExec require (as `SampleReady`) that the keys are in time order, that every selected key lies on a whole frame and that no unselected key on a whole frame lies strictly inside a selected pair. The scan's index compensation silently assumes that each pair adds exactly range - 1 keys. This condition makes that true for the `InsertVert` stand-in only. The real `insert_vert_fcurve` matches times within a threshold. With it, an unselected key very close to a sampled frame, such as 3.005 inside a selected pair 1..5, is replaced rather than added, and the scan's index then shifts. Curves that break the condition, and this threshold effect, are not covered.
- Anim.MapKeys: models `ANIM_fcurve_keys_bezier_loop` as visiting every key. It does not model a key callback that stops the loop early by returning nonzero. The setter callbacks these operators pass (interpolation, handle type, snap, mirror) never do so.
- `calchandles_fcurve` (handle recalculation after sampling, snapping, mirroring and setting handles): handle positions are not modelled.
- Key times and values are reals. Single-precision rounding is not modelled, including the `999999999.0f` seed, which is not exactly representable in a float.
- BEZSELECTED (the sample scan) is read as "f1, f2 or f3 selected". The macro is not part of this model.
- Grease-pencil layers: their branches in the source are stubs or commented out. Grease-pencil data changes only the filter bits.
- The handle-type toggle: `HandleMode.ToggleHandles` and `HandleKeys` model its branch (mode -1). The operator's enum (line 954) offers no toggle entry, so the operator itself never produces it.
- Copy and paste (`copy_action_keys`, `paste_action_keys` and their operators): these functions have no return statement, so their result is undefined.
- Operator registration, RNA properties, notifiers, `UI_view2d_sync`, redraw tags, the transform started after duplication, and memory allocation and freeing.
- KeyframeEdit.MirrorActionKeys, KeyframeEdit.MirrorExec: require a scene in marker mode, because the source dereferences `ac->scene` there without a check.
- KeyframeEdit.InsertActionKeys, KeyframeEdit.InsertKeyExec: require a scene, because CFRA reads the scene's current frame.
- FrameSnap.CfraSnapExec: requires a scene when some key is selected, because CFRA is then written.
- KeyframeSample.ScanStep: requires `SampleReady` of the original curve, for the reason given above; a curve with a selected key off a whole frame, which the source's loop body handles without fault, is not covered.
- KeyframeSample.SampleScanPair: requires `SampleReady` of the original curve, for the reason given above; a curve with a selected key off a whole frame is not covered.
- KeyframeEdit.SampleActionKeys: requires the editor context to list each curve at most once (`WellFormed`). The source samples a curve once per channel that lists it, such as an action shared by two owners. A second sampling starts from the already sampled keys, and the model does not prove that those still meet `SampleReady`. So a curve listed twice is not covered.
- KeyframeEdit.SampleExec: on data other than grease pencil, requires each curve to be listed at most once (`WellFormed`), for the reason given for SampleActionKeys.
- GameWorld.BlenderWorldInfo.constructor: without a world, the source leaves every other field uninitialised; the model leaves them unspecified. Colour management is a flag passed in, in place of `BKE_scene_check_color_management_enabled`.
- `WO_MIST` is taken as bit 0 of the world mode; the DNA header that defines it is not part of this model.
