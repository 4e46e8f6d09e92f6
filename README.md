# VisualizationMarkers bookkeeping, in Dafny

This project models the bookkeeping core of `VisualizationMarkers` from Isaac Orbit's
`markers/visualization_markers.py`. A marker group owns one USD `PointInstancer`. Its
prototypes are the marker configs of a `VisualizationMarkersCfg`, registered in
dictionary order. Each `visualize` call rewrites the instancer's per-instance arrays:
positions, orientations, scales and proto indices.

Files and modules:

- `errors.dfy` (`Errors`): `Option`, `Result`, and one `Error` constructor per exception the code raises.
- `arrays.dfy` (`Arrays`): a stand-in for the NumPy/Torch arguments. `NdArray` carries a `shape: seq<nat>` plus the array's rows, and it always agrees with that shape. Element values are opaque (`Scalar`, a raw bit pattern). This module also holds the quaternion reordering (w, x, y, z) → (x, y, z, w) and its inverse.
- `markers_config.dfy` (`MarkersConfig`): `MarkerCfg` is a closed variant, `PrimMarker(primType)` | `FileMarker(primType, usdPath)`. The marker dictionary is an ordered sequence with distinct keys. The module holds the per-config checks of `_add_markers_prototypes`, the first-failure rule, and prototype paths.
- `visualization_markers.dfy` (`Markers`): the class `VisualizationMarkers`. The instancer's attributes are fields of the class. The module also holds `Visualized`, a pure function that restates `visualize` step by step as the source runs it. The method `Visualize` is proved equal to it, and the lemmas after the class state what the source promises about it.
- `markers_examples.dfy` (`MarkersExamples`): client code replaying the usage from the class docstring and the documented call sequences. It is proved from the contracts alone.

Construction in the source is `__init__`, which raises on bad input. Here it is the static
method `Create`, which returns a `Result`. It builds a fresh, empty instancer (`Define`,
standing for `define_prim`). It then runs the prototype loop (`AddMarkersPrototypes`) and
seeds one instance. On failure the object is dropped, as the raising constructor drops it.

The class invariant `Valid()` states one fact the source does not write down. The
self-tracked `_count` always equals the length of the proto-indices attribute. That length
is the instance count USD reports. So the counter cannot drift from the instancer through
any path this class offers. `Count` states this equality.

The code and its documentation disagree in one place, and the model follows the code.
The docstring of `visualize` (line 299) says a call with every argument `None` raises.
The code raises only when `_count != 0`. Once `marker_indices=[]` has brought the count
to 0, the same call returns silently (`AllNoneCall`, `NoArgumentsCall`). The docstring
also says a `marker_indices` of the wrong length raises (lines 275-276). The code does not
check that length; any such error would come from USD, which is outside this model.

## Model

| member | source | states |
|---|---|---|
| `MarkersConfig.CheckMarker` | source/extensions/omni.isaac.orbit/omni/isaac/orbit/markers/visualization_markers.py:378-394 | a config is accepted iff a plain marker's prim type is not `Xform`, or a file marker's file exists and its prim type is `Xform`; each rejection carries its own error, and a file marker's missing file is reported before its prim type is looked at |
| `MarkersConfig.AcceptedPrefix` | source/extensions/omni.isaac.orbit/omni/isaac/orbit/markers/visualization_markers.py:374-394 | the loop gets through exactly the configs before the first rejected one: all of those pass, and the one it stops at fails |
| `MarkersConfig.FirstError` | source/extensions/omni.isaac.orbit/omni/isaac/orbit/markers/visualization_markers.py:374-394 | the prototype loop raises iff some config is rejected, and then it raises the error of the first rejected config in dictionary order |
| `MarkersConfig.PrototypePathInjective` | source/extensions/omni.isaac.orbit/omni/isaac/orbit/markers/visualization_markers.py:396 | `prim_path + "/" + name` gives different paths for different names |
| `MarkersConfig.PrototypeIndexUnique` | source/extensions/omni.isaac.orbit/omni/isaac/orbit/markers/visualization_markers.py:101-105 | with unique dictionary keys, prototype index i selects the i-th key's prim and no other index selects it |
| `Markers.VisualizationMarkers.Define` | source/extensions/omni.isaac.orbit/omni/isaac/orbit/markers/visualization_markers.py:172-178 | a newly defined instancer is visible and has no prototypes, no per-instance values and a count of 0 |
| `Markers.VisualizationMarkers.Create` | source/extensions/omni.isaac.orbit/omni/isaac/orbit/markers/visualization_markers.py:158-189 | an empty marker dictionary fails with `EmptyMarkers`; otherwise construction fails exactly when the prototype loop raises, with that error; on success the group is valid and visible, has `num_prototypes == len(markers)`, proto indices `[0]`, positions `[origin]` and count 1 |
| `Markers.VisualizationMarkers.AddMarkersPrototypes` | source/extensions/omni.isaac.orbit/omni/isaac/orbit/markers/visualization_markers.py:371-421 | returns the loop's first error, and appends the path `prim_path/name` of each config accepted before it, in dictionary order, to the prototypes relationship |
| `Markers.VisualizationMarkers.NumPrototypes` | source/extensions/omni.isaac.orbit/omni/isaac/orbit/markers/visualization_markers.py:209-212 | the number of configured markers equals the number of registered prototype targets, and is positive |
| `Markers.VisualizationMarkers.Count` | source/extensions/omni.isaac.orbit/omni/isaac/orbit/markers/visualization_markers.py:214-219 | the self-tracked count equals the instancer's instance count, the length of its proto indices |
| `Markers.VisualizationMarkers.IsVisible` | source/extensions/omni.isaac.orbit/omni/isaac/orbit/markers/visualization_markers.py:239-245 | visible iff the visibility attribute is not the `invisible` token |
| `Markers.VisualizationMarkers.SetVisibility` | source/extensions/omni.isaac.orbit/omni/isaac/orbit/markers/visualization_markers.py:225-237 | afterwards `IsVisible()` returns the flag given; nothing else changes |
| `Markers.VisualizationMarkers.Visualize` | source/extensions/omni.isaac.orbit/omni/isaac/orbit/markers/visualization_markers.py:247-365 | the new attributes, the new count and the error raised are exactly those of the step-by-step `Visualized`; the invariant is kept |
| `Markers.VisualizeKeepsInvariant` | source/extensions/omni.isaac.orbit/omni/isaac/orbit/markers/visualization_markers.py:305-365 | whatever the arguments and the outcome, stored rows keep widths 3 / 4 / 3 and the count stays the number of proto indices |
| `Markers.HiddenVisualizeIsNoOp` | source/extensions/omni.isaac.orbit/omni/isaac/orbit/markers/visualization_markers.py:301-303 | on a hidden instancer the call succeeds and the count and all four arrays are unchanged |
| `Markers.ShapeErrorNamesFirstBadArgument` | source/extensions/omni.isaac.orbit/omni/isaac/orbit/markers/visualization_markers.py:308-353 | each argument is checked on its own (translations and scales rank 2 width 3, orientations rank 2 width 4, indices rank 1); the error names the first failing argument in call order and the shape it received |
| `Markers.VisualizeFailsExactly` | source/extensions/omni.isaac.orbit/omni/isaac/orbit/markers/visualization_markers.py:305-365 | a visible call raises iff some shape check fails or, with no indices, the count would become 0 while it is not 0; that last case raises the zero-count error |
| `Markers.ErrorKeepsCountAndIndices` | source/extensions/omni.isaac.orbit/omni/isaac/orbit/markers/visualization_markers.py:344-365 | a call that raises leaves `_count` and the proto indices as they were |
| `Markers.EachArrayReplacedOnceReached` | source/extensions/omni.isaac.orbit/omni/isaac/orbit/markers/visualization_markers.py:307-342 | each float array is replaced in full by its argument once its own check is reached and passed, and stays written if a later check fails; otherwise, and whenever its argument is `None`, it is untouched |
| `Markers.OrientationsStoredAsXyzw` | source/extensions/omni.isaac.orbit/omni/isaac/orbit/markers/visualization_markers.py:319-331 | the stored orientations have one row per input row, each the input's (w, x, y, z) reordered to (x, y, z, w), and reordering back gives the input |
| `Markers.CountIsLastSupplied` | source/extensions/omni.isaac.orbit/omni/isaac/orbit/markers/visualization_markers.py:305-365 | after a successful visible call the count is the leading dimension of the last non-`None` argument in the order translations, orientations, scales, marker_indices; with none it stays and was 0 |
| `Markers.ProtoIndicesRules` | source/extensions/omni.isaac.orbit/omni/isaac/orbit/markers/visualization_markers.py:344-363 | given indices are stored verbatim; without them the proto indices are kept when the count is unchanged and become that many zeros when it changed to a non-zero value |
| `Markers.AllNoneCall` | source/extensions/omni.isaac.orbit/omni/isaac/orbit/markers/visualization_markers.py:344-361 | a call without arguments raises the zero-count error when the count is not 0, and otherwise succeeds without change |
| `Arrays.MatrixRows` | source/extensions/omni.isaac.orbit/omni/isaac/orbit/markers/visualization_markers.py:312-317 | an array that passed the (M, width) check has M rows of `width` elements each |
| `Arrays.VectorValues` | source/extensions/omni.isaac.orbit/omni/isaac/orbit/markers/visualization_markers.py:346-357 | the values of an (M,) index array, M of them, each equal to the corresponding element |
| `Arrays.Zeros` | source/extensions/omni.isaac.orbit/omni/isaac/orbit/markers/visualization_markers.py:362-363 | `[0] * n`: n entries, all prototype 0 |
| `Arrays.WxyzToXyzw` | source/extensions/omni.isaac.orbit/omni/isaac/orbit/markers/visualization_markers.py:325-327 | the reordered quaternion is (x, y, z, w) of the input (w, x, y, z) |
| `Arrays.WxyzToXyzwPermutes` | source/extensions/omni.isaac.orbit/omni/isaac/orbit/markers/visualization_markers.py:325-327 | the reordering is a permutation of the four components |
| `Arrays.QuaternionRoundTrip` | source/extensions/omni.isaac.orbit/omni/isaac/orbit/markers/visualization_markers.py:325-327 | reordering to (x, y, z, w) and back, or back and forth, gives the quaternion unchanged |
| `Arrays.ToXyzw` | source/extensions/omni.isaac.orbit/omni/isaac/orbit/markers/visualization_markers.py:325-329 | one reordered row per input row, each of width 4 |
| `Arrays.OrientationRoundTrip` | source/extensions/omni.isaac.orbit/omni/isaac/orbit/markers/visualization_markers.py:325-329 | the row-wise reordering of an (M, 4) array is a bijection whose inverse is the reverse reordering |
| `Arrays.IdentityQuaternion` | source/extensions/omni.isaac.orbit/omni/isaac/orbit/markers/visualization_markers.py:325-329 | the identity rotation (1, 0, 0, 0) is stored as (0, 0, 0, 1) |
| `MarkersExamples.NewTwoSpheres` | source/extensions/omni.isaac.orbit/omni/isaac/orbit/markers/visualization_markers.py:118-133 | the docstring's two-sphere config constructs a visible group with 2 prototypes and one instance of prototype 0 at the origin |
| `MarkersExamples.DocstringUsage` | source/extensions/omni.isaac.orbit/omni/isaac/orbit/markers/visualization_markers.py:135-152 | 24 translations give 24 instances of prototype 0; indices alone then switch prototypes and keep the 24 translations as positions; every call succeeds |
| `MarkersExamples.CountChangesResetIndices` | source/extensions/omni.isaac.orbit/omni/isaac/orbit/markers/visualization_markers.py:265-295 | orientations with an unchanged count keep explicit indices; three translations after five reset the indices to `[0, 0, 0]` |
| `MarkersExamples.NoArgumentsCall` | source/extensions/omni.isaac.orbit/omni/isaac/orbit/markers/visualization_markers.py:344-365 | a call without arguments on a new group raises the zero-count error; after `marker_indices=[]` the same call succeeds with count 0 |
| `MarkersExamples.HiddenMarkersIgnoreUpdates` | source/extensions/omni.isaac.orbit/omni/isaac/orbit/markers/visualization_markers.py:256-259 | while hidden, a call with translations and indices succeeds and changes neither count nor positions |
| `MarkersExamples.WrongOrientationWidth` | source/extensions/omni.isaac.orbit/omni/isaac/orbit/markers/visualization_markers.py:322-324 | orientations of shape (4, 3) are rejected with that shape; the translations before them stay written and the count stays |
| `MarkersExamples.ConstructionErrors` | source/extensions/omni.isaac.orbit/omni/isaac/orbit/markers/visualization_markers.py:378-392 | empty config, an `Xform` plain marker, a file marker with a missing file, and an existing file with a non-`Xform` prim type each fail with their own error |
| `MarkersExamples.FileMarkerAccepted` | source/extensions/omni.isaac.orbit/omni/isaac/orbit/markers/visualization_markers.py:384-421 | an `Xform` file marker whose file exists is registered at `prim_path/name` |

## Left out

- USD and Omniverse calls are not modelled beyond their effect on the instancer's attributes. These are `define_prim`, `create_prim`, the `ChangePropertyCommand` that hides prototypes from secondary rays, `set_prim_visibility` on prototypes, `PreviewSurface`/`GeometryPrim` materials and the `Vt.*FromNumpy` conversions. They create prims and set properties on a stage this model does not represent.
- `MarkerCfg` fields `visible`, `scale`, `color` and `attributes` are left out. They only go to those USD calls.
- `get_next_free_path` is not modelled; `Create` takes the already resolved path as input. Path uniqueness depends on a stage outside the model.
- `check_file_path` is the injected predicate `fileExists`. Filesystem access is outside the model.
- Torch-to-NumPy conversion and `np.array` of a list are not modelled. They are device and library plumbing; the model receives the resulting array.
- Float element values are opaque (`Scalar`). So is the narrowing of orientations to half precision by `Vt.QuathArray`. Only shapes and the order of quaternion components are modelled.
- Stage side effects of a failed construction are left out: prims created for configs before the rejected one, and the instancer prim itself. `AddMarkersPrototypes` still appends those configs' targets before it returns the error.
- Cross-array length consistency and the range of `marker_indices` against `num_prototypes` are not modelled. The code checks neither; the docstring leaves length mismatches to USD.
- Markers.ShapeErrorNamesFirstBadArgument: a rank-0 or rank-1 float argument makes the source raise `IndexError` (it reads `shape[1]` before the rank), and other bad shapes raise `ValueError`. Both are one `BadShape` error here.
- `MakeVisible` also makes hidden ancestors visible in USD. The model keeps only the instancer's own visibility token.
- Markers.VisualizationMarkers.NumPrototypes: the source keeps the caller's config object by reference and reads `len(cfg.markers)` at each call, so if the caller later adds or removes dictionary entries, `num_prototypes` no longer matches the registered prototypes and can drop to 0. The model stores a copy of the config as an immutable value, so mutation of `cfg.markers` after construction is not modelled.
- `__str__` and the `MISSING` defaults of the config class are left out: formatting and config-class plumbing.
