# scan2mesh in Dafny

scan2mesh turns RGB-D captures of a physical object into a textured 3D mesh
asset. The pipeline runs in stages: plan, capture, preprocess, reconstruct,
optimize, package and report. A Streamlit GUI drives the stages through
session records. This project models the deterministic decision logic of the
pipeline and proves properties of it:

- **Quality gates.** `PreprocessQualityGate.validate` checks preprocess
  metrics against fail and warn thresholds. The GUI report service
  evaluates eight gates, recommends an action for each failing or warning
  gate, and derives an overall status. The report renders as Markdown and
  as a JSON dict. The modules are `PreprocessGate`, `ReportService` and
  `ReportSessions`.
- **Session state machines.** The optimize, reconstruct and package
  services advance a session through a fixed stage order until the
  session is complete. The package service skips the archive stage for
  directory output. The modules are `OptimizeSessions`, `OptimizeService`,
  `ReconstructSessions`, `ReconstructService`, `PackageSessions` and
  `PackageService`.
- **Session aggregation.** The capture and preprocess services append a
  frame and recompute counts and means. The modules are `CaptureSessions`,
  `CaptureService`, `PreprocessSessions` and `PreprocessService`.
- **Config-hash canonicalisation.** A recursive filter drops volatile keys
  and datetimes from a JSON-like tree before hashing. The modules are
  `Json` and `ConfigHash`.
- **Input validation and record invariants.** This covers the CLI
  validators and the field constraints of the config, capture,
  scan-object and profile records. The modules are `CliValidators`,
  `Names`, `ProjectConfigs`, `CaptureModels`, `ScanObjects` and `Profiles`.
- **Viewpoint planning.** The planner fills a grid of azimuths and
  elevation levels. The modules are `CapturePlans` and
  `CapturePlanService`.
- **Depth-image ratios.** Valid-depth ratio, occupancy and depth
  statistics are counts over the pixels of a depth image. The module is
  `ImageService`.
- **Asset optimizer decisions.** These are axis normalisation, the scale
  decision table, the bounding box and the LOD no-op branch. The module is
  `AssetOptimizerStage`.
- **Object store queries and updates.** The module is `ObjectService`.

Shared helpers:

- `Common` holds the Option and Result types.
- `Format` holds Python's integer and float formatting.
- `Timestamps` holds `strftime` and `isoformat`.
- `Stats` holds sums, means and counts.

The model takes the form of the code it models:

- Code that computes values is written as datatypes and functions.
- Code that changes state step by step is written as methods with loops.
  Examples are the Markdown and JSON builders, gate evaluation, the
  recommendation loop, `run_all_stages`, the viewpoint grid and
  `_generate_notes`.
- Objects that update their own fields are written as classes:
  - `PreprocessQualityGate` keeps its reason and suggestion lists;
  - the object store keeps a map of listings;
  - `AssetOptimizer` loads its configuration lazily.

Python floats are modelled as exact rationals (`real`). Python `int` is
unbounded, as Dafny's is.

## Model

| member | source | states |
|---|---|---|
| CliValidators.ValidateObjectNameAsWritten | src/scan2mesh/cli/validators.py:12-39 | The validator as written, using Python's `re.match`: an accepted name is returned unchanged, has 1 to 100 characters, and matches the pattern, where `$` also matches just before one final newline. |
| CliValidators.TrailingNewlineAccepted | src/scan2mesh/cli/validators.py:30-33 | "ball\n" is accepted by the validator as written, although it does not match the name pattern. |
| CliValidators.ValidateObjectName | src/scan2mesh/cli/validators.py:12-39 | The corrected validator: an accepted name is returned unchanged, has 1 to 100 pattern characters and no path traversal. An empty or an over-long name is refused with the source's message. |
| CliValidators.ValidateObjectNameAccepts | src/scan2mesh/cli/validators.py:24-39 | Every name of 1 to 100 pattern characters is accepted. So the explicit path-separator check never fires. |
| CliValidators.ValidateObjectNameAsWrittenAccepts | src/scan2mesh/cli/validators.py:24-39 | The validator as written accepts every name of 1 to 100 characters that `re.match` accepts. |
| CliValidators.NoTraversalWithNewline | src/scan2mesh/cli/validators.py:36 | A trailing newline cannot create "..", "/" or "\\", so the traversal check does not catch the newline hole. |
| CliValidators.CorrectedIsStricter | src/scan2mesh/cli/validators.py:12-39 | Whatever the corrected validator accepts, the validator as written accepts with the same result. |
| CliValidators.ValidateClassId | src/scan2mesh/cli/validators.py:42-57 | Accepted exactly when 0 <= class_id <= 9999, and then returned unchanged. |
| CliValidators.ValidateDimension | src/scan2mesh/cli/validators.py:86-107 | None passes as None. A present value is accepted exactly when it lies in (0, 10000], and then it is returned unchanged. |
| CliValidators.FirstForbiddenPrefix | src/scan2mesh/cli/validators.py:78-81 | Returns None exactly when the path starts with no prefix in the list. Otherwise it returns a listed prefix that the path starts with. |
| CliValidators.ValidateProjectDir | src/scan2mesh/cli/validators.py:60-83 | No argument gives the projects directory under cwd, with no doubled separator when cwd is the root. A given directory is accepted exactly when its resolved path starts with none of the seven system prefixes, and the resolved path is then returned. |
| CliValidators.DefaultProjectsDir | src/scan2mesh/cli/validators.py:72-73 | Without an argument the default is cwd/projects: "/projects" for the root directory, "/home/user/projects" for a home directory. |
| Common.JoinPath | src/scan2mesh/cli/validators.py:73 | `Path(d) / name` as text: the result starts with the directory and ends with the name, with one separator between them unless the directory already ends in one. An empty name leaves the directory as it is. The result ends in "/" exactly when the name does. |
| CliValidators.PrefixTestIsTextual | src/scan2mesh/cli/validators.py:78-81 | The test compares text, not path components: "/variables" is refused because it starts with "/var", while "/home/user/scans" is accepted. |
| Names.NoDotNoDoubleDot | src/scan2mesh/models/config.py:124 | A string without '.' never contains "..". |
| Names.PatternExcludesTraversal | src/scan2mesh/models/config.py:109-128 | A string of pattern characters never fails the path-traversal test. |
| ProjectConfigs.DefaultCoordinateSystem | src/scan2mesh/models/config.py:11-24 | The defaults Z, Y and bottom_center satisfy the axis patterns. |
| ProjectConfigs.NewCoordinateSystem | src/scan2mesh/models/config.py:20-21 | Accepted exactly when both axes are X, Y or Z. A rejection names up_axis exactly when the up axis is the bad one. |
| ProjectConfigs.DefaultOutputPreset | src/scan2mesh/models/config.py:37-40 | Texture 2048, meters, and LOD limits [100000, 30000, 10000], which strictly decrease. The preset is valid. |
| ProjectConfigs.NewOutputPreset | src/scan2mesh/models/config.py:39 | Accepted exactly when 256 <= texture_resolution <= 4096. Otherwise the only failing field is texture_resolution. |
| ProjectConfigs.NewScaleInfo | src/scan2mesh/models/config.py:55-88 | Accepted exactly when the method, the dimension (>= 0), the dimension type and the uncertainty are all allowed values. Uncertainty defaults to "medium". Failing fields are named from the four. |
| ProjectConfigs.NewProjectConfig | src/scan2mesh/models/config.py:108-139 | Accepted exactly when the object name is valid, 0 <= class_id <= 9999 and every tag has 1 to 50 characters. schema_version is "1.0". |
| ProjectConfigs.ProjectNameTraversalCheckRedundant | src/scan2mesh/models/config.py:109-128 | A name that matches the field pattern always passes the traversal validator as well. |
| Json.Put | src/scan2mesh/utils/hash.py:61-75 | `result[key] = value`: the keys afterwards are the old keys plus `key`, and a new key is appended at the end. |
| Json.PutEntries | src/scan2mesh/utils/hash.py:61-75 | After the assignment, every entry is either the new one or an old one. |
| Json.PutDistinct | src/scan2mesh/utils/hash.py:61-75 | Assigning into a dict whose keys are distinct keeps them distinct. |
| Json.GetPut | src/scan2mesh/utils/hash.py:61-75 | Reading a key right after assigning it gives the assigned value. Other keys are unaffected. |
| ConfigHash.PrepareValue | src/scan2mesh/utils/hash.py:59-75 | The stored value is a datetime exactly when the input was one, and never a model. A list keeps its length. |
| ConfigHash.PrepareItems | src/scan2mesh/utils/hash.py:67-70 | The comprehension keeps the length, keeps every non-dict item unchanged, and maps dicts to dicts. |
| ConfigHash.PrepareEntries | src/scan2mesh/utils/hash.py:43-77 | The result has distinct keys, and they are exactly the keys of the entries that are not skipped. It holds no volatile key, no datetime and no model. |
| ConfigHash.KeptEntry | src/scan2mesh/utils/hash.py:71-75 | Every entry that is not skipped appears in the result under its own key, with its value filtered recursively. |
| ConfigHash.PrepareDataForHash | src/scan2mesh/utils/hash.py:43-77 | The loop with `continue` computes exactly the fold `PrepareEntries` over the input dict. |
| ConfigHash.PrepareKeptValue | src/scan2mesh/utils/hash.py:59-75 | The branches of the loop body compute `PrepareValue`. |
| ConfigHash.PrepareList | src/scan2mesh/utils/hash.py:67-70 | The comprehension loop computes `PrepareItems`. |
| ConfigHash.PutKeepsClean | src/scan2mesh/utils/hash.py:52-77 | Storing a clean, non-volatile entry keeps the result clean. |
| ConfigHash.PreparedIsClean | src/scan2mesh/utils/hash.py:43-77 | Every filtered dict is clean at every depth the filter reaches. |
| ConfigHash.PreparedValueIsClean | src/scan2mesh/utils/hash.py:59-75 | Every stored value is clean. |
| ConfigHash.PreparedItemsAreClean | src/scan2mesh/utils/hash.py:67-70 | Every dict inside a filtered list is clean. |
| ConfigHash.CleanIsFixedPoint | src/scan2mesh/utils/hash.py:43-77 | The filter leaves a clean dict unchanged. |
| ConfigHash.CleanValueIsFixedPoint | src/scan2mesh/utils/hash.py:59-75 | The filter leaves a clean value unchanged. |
| ConfigHash.CleanItemsAreFixedPoint | src/scan2mesh/utils/hash.py:67-70 | The filter leaves a clean list unchanged. |
| ConfigHash.PrepareIdempotent | src/scan2mesh/utils/hash.py:43-77 | Filtering twice gives the same result as filtering once. |
| ConfigHash.Stable | src/scan2mesh/utils/hash.py:54-57 | The entries kept at the top level are unskipped entries of the input, in order. |
| ConfigHash.PrepareDependsOnlyOnStable | src/scan2mesh/utils/hash.py:54-64 | Dropping the volatile keys and datetimes first does not change the result. |
| ConfigHash.CalculateConfigHash | src/scan2mesh/utils/hash.py:9-40 | A hash is produced exactly when the filtered data is JSON-serialisable. It is the first 16 characters of the digest of the filtered data. |
| ConfigHash.TimestampsDoNotAffectHash | src/scan2mesh/utils/hash.py:12-19 | Two configurations with the same stable entries filter to the same data and so get the same hash, whatever their timestamps. |
| ScanObjects.PipelineStagesEnumerated | src/scan2mesh_gui/models/scan_object.py:10-20 | All eight stages are listed once each, and their string values are distinct. |
| ScanObjects.QualityStatusesEnumerated | src/scan2mesh_gui/models/scan_object.py:23-29 | All four statuses are listed once each, and their string values are distinct. |
| ScanObjects.NewScanObject | src/scan2mesh_gui/models/scan_object.py:32-73 | Accepted exactly when the name has 1 to 100 pattern characters, the display name has 1 to 200 characters, 0 <= class_id <= 9999 and the dimension type is allowed. A new object starts at INIT and PENDING, with no project path and both timestamps equal. |
| Profiles.ValidateTags | src/scan2mesh_gui/models/profile.py:27-36 | Accepted exactly when there are at most 20 tags of at most 50 characters each, and then returned unchanged. Too many tags gives the count message; otherwise a refusal gives the length message. |
| Profiles.NewProfile | src/scan2mesh_gui/models/profile.py:9-36 | Accepted exactly when the name has 1 to 100 characters without path traversal and the tags pass. The record keeps its arguments and gets one timestamp for both fields. |
| Profiles.ProfileNamesAreFreeText | src/scan2mesh_gui/models/profile.py:13-36 | A profile name with a space and an empty tag is accepted. |
| Profiles.ProfileNamesRefuseTraversal | src/scan2mesh_gui/models/profile.py:19-25 | "a/b" and "a..b" are refused as profile names. |
| CaptureModels.NewCameraIntrinsics | src/scan2mesh/models/capture.py:15-36 | Accepted exactly when width, height, fx, fy and depth_scale are positive and cx, cy are non-negative. The record keeps every argument. A rejection names depth_scale exactly when it is the failing field. |
| CaptureModels.NewFrameQuality | src/scan2mesh/models/capture.py:39-54 | Accepted exactly when all three ratios lie in [0, 1]. is_keyframe defaults to false. |
| CaptureModels.NewViewPoint | src/scan2mesh/models/capture.py:81-98 | Accepted exactly when index >= 0, azimuth is in [0, 360), elevation is in [-90, 90], distance > 0 and order >= 0. The record keeps every argument. |
| CaptureModels.NewCapturePlan | src/scan2mesh/models/capture.py:109-126 | Accepted exactly when min_required_frames > 0 and the recommended distance is > 0. The record keeps its viewpoints and notes. |
| CaptureModels.NewCaptureMetrics | src/scan2mesh/models/capture.py:129-156 | Accepted exactly when both counts are >= 0, the five ratios lie in [0, 1] and the duration is >= 0. An accepted record keeps every argument. gate_status defaults to "pending" and gate_reasons to empty. |
| CaptureModels.DefaultFramesMetadata | src/scan2mesh/models/capture.py:194-205 | No frames, a total of 0 and no keyframe ids. |
| CapturePlans.Azimuths | src/scan2mesh_gui/models/capture_plan.py:53 | The set of azimuths is exactly the viewpoints' azimuths, with nothing else. It has at most one element per viewpoint and is empty exactly for no viewpoints. |
| CapturePlans.Elevations | src/scan2mesh_gui/models/capture_plan.py:60 | The set of elevations is exactly the viewpoints' elevations, with nothing else. It has at most one element per viewpoint and is empty exactly for no viewpoints. |
| CapturePlans.CapturePlan.AzimuthPositions | src/scan2mesh_gui/models/capture_plan.py:48-53 | The count is the number of distinct azimuths among the viewpoints. It is at most the number of viewpoints, and 0 exactly when there is none. |
| CapturePlans.CapturePlan.ElevationLevels | src/scan2mesh_gui/models/capture_plan.py:55-60 | The count is the number of distinct elevations among the viewpoints. It is at most the number of viewpoints, and 0 exactly when there is none. |
| CapturePlans.NewCapturePlan | src/scan2mesh_gui/models/capture_plan.py:31-41 | Accepted exactly when min_required_frames >= 1 and the distance > 0. A rejection names min_required_frames exactly when it is the failing field. |
| CaptureSessions.DefaultMetrics | src/scan2mesh_gui/models/capture_session.py:32-45 | All means, the coverage and both counts are 0. |
| CaptureSessions.CaptureSession.Progress | src/scan2mesh_gui/models/capture_session.py:63-68 | Progress lies in [0, 1]. It is 1 exactly when num_frames >= target_keyframes, and 0 exactly when there are no frames. |
| PreprocessSessions.DefaultMetrics | src/scan2mesh_gui/models/preprocess_session.py:48-59 | Both means and both counts are 0. |
| PreprocessSessions.PreprocessSession.Progress | src/scan2mesh_gui/models/preprocess_session.py:83-88 | Progress lies in [0, 1]. It is 1 exactly when the session is complete, and 0 exactly when there is nothing to mask or nothing masked yet. |
| ObjectService.CountStatus | src/scan2mesh_gui/services/object_service.py:114-115 | The number of objects with a given status never exceeds the number of objects. |
| ObjectService.StatusCountsSum | src/scan2mesh_gui/services/object_service.py:108-116 | The PASS, WARN, FAIL and PENDING counts add up to the number of objects. |
| ObjectService.FilteredSpec | src/scan2mesh_gui/services/object_service.py:25-32 | Filtering keeps an object exactly when it matches every filter that is given. The kept objects stay in their original order. With no filter the listing is unchanged. |
| ObjectService.Find | src/scan2mesh_gui/services/object_service.py:34-36 | A found object is in the listing and has the requested id. A miss means no object in the listing has that id. |
| ObjectService.WithoutId | src/scan2mesh_gui/services/object_service.py:77 | Dropping an id keeps exactly the objects with other ids and keeps the ids unique. |
| ObjectService.Saved | src/scan2mesh_gui/services/object_service.py:77 | After a save the object comes first in the listing and is what a lookup of its id finds. The ids stay unique. |
| ObjectService.ApplyUpdateSpec | src/scan2mesh_gui/services/object_service.py:61-78 | An update with no arguments only refreshes updated_at. A None argument never clears an optional attribute. A given stage is stored, an absent name is kept, and updated_at is always the new time. |
| ObjectService.UpdateSkipsValidation | src/scan2mesh_gui/services/object_service.py:72-74 | Attribute assignment is not validated: from a valid object, an update can produce a name containing a path separator that the constructor would refuse. |
| ObjectService.ObjectStore.constructor | src/scan2mesh_gui/services/object_service.py:13-16 | The store starts with the given per-profile listings, whose ids are unique. |
| ObjectService.ObjectStore.ListObjects | src/scan2mesh_gui/services/object_service.py:18-32 | The result holds exactly the objects of the profile that match the given stage and status filters, in listing order. With no filter it is the whole listing. |
| ObjectService.ObjectStore.GetObjectCount | src/scan2mesh_gui/services/object_service.py:104-106 | The count is the length of the unfiltered listing. |
| ObjectService.ObjectStore.GetStatusCounts | src/scan2mesh_gui/services/object_service.py:108-116 | Every status has an entry, and each entry counts the objects with that status. The four entries add up to the object count. |
| ObjectService.ObjectStore.UpdateStage | src/scan2mesh_gui/services/object_service.py:84-102 | A missing object gives None and leaves the store unchanged. Otherwise the stage is set, the status is set only when given, updated_at is refreshed, and only that profile's listing changes, to the listing after the save. |
| ObjectService.ObjectStore.UpdateObject | src/scan2mesh_gui/services/object_service.py:61-78 | A missing object gives None and leaves the store unchanged. Otherwise the result is the object with the update applied, saved into that profile's listing only. |
| CaptureService.StartSession | src/scan2mesh_gui/services/capture_service.py:37-61 | A target below 1 is rejected, naming target_keyframes. Otherwise the session is running with no frames, default metrics, the given ids and target, and the current time as its start. |
| CaptureService.BlurScore | src/scan2mesh_gui/services/capture_service.py:136-155 | The score is a ratio. It is 0 exactly for a variance of at most 100 and 1 exactly for at least 500. It reaches the keyframe threshold 0.5 exactly when the variance is at least 300. |
| CaptureService.CalculateQuality | src/scan2mesh_gui/services/capture_service.py:103-134 | An empty depth image is an error (the ratio divides by zero). Otherwise the depth ratio is the share of positive pixels and the blur score comes from the variance. The frame is a keyframe exactly when the ratio is at least 0.6 and the variance at least 300. |
| CaptureService.KeyframeMonotone | src/scan2mesh_gui/services/capture_service.py:124-128 | A keyframe has a depth ratio of at least 0.6 and a blur score of at least 0.5, a frame exactly at both thresholds is one, and raising either value keeps a keyframe a keyframe. |
| CaptureService.DepthRatios | src/scan2mesh_gui/services/capture_service.py:222 | One ratio per frame, each between 0 and 1. |
| CaptureService.BlurScores | src/scan2mesh_gui/services/capture_service.py:223 | One blur score per frame, each between 0 and 1. |
| CaptureService.KeyframeFlags | src/scan2mesh_gui/services/capture_service.py:224 | One keyframe flag per frame. |
| CaptureService.UpdateMetrics | src/scan2mesh_gui/services/capture_service.py:204-239 | No frames give the default metrics. The frame count is the number of frames, and the keyframe count is the number of flagged frames, which is at most the frame count. Coverage lies in [0, 0.9] and is 0.9 exactly when the target is reached. The two means are the means of the frame values. |
| CaptureService.RatioBelowOne | src/scan2mesh_gui/services/capture_service.py:231 | The min(1.0, frames/target) cap bites exactly when the frame count reaches the target. |
| CaptureService.StopSession | src/scan2mesh_gui/services/capture_service.py:241-261 | Only is_running changes, to false. A stopped session can proceed exactly when it is complete. |
| CaptureService.AddFrameToSession | src/scan2mesh_gui/services/capture_service.py:263-300 | The frame is appended at the end, the metrics are recomputed from the new frame list, and nothing else changes. |
| CaptureService.AddFrameCounts | src/scan2mesh_gui/services/capture_service.py:263-300 | Adding a frame counts one more frame, and one more keyframe exactly when the new frame is a keyframe. |
| CaptureService.AddFrameDepthMean | src/scan2mesh_gui/services/capture_service.py:263-300 | After a frame is added, the depth mean times the new frame count equals the old frames' ratio total plus the new frame's ratio. |
| CaptureService.QualityAgreesWithImageService | src/scan2mesh_gui/services/capture_service.py:117-122 | The GUI's depth ratio equals the core image service's, and for a colour image so does the blur score. |
| ImageService.Clip01 | src/scan2mesh/services/image.py:64 | The result lies in [0, 1]. It is the value itself inside that range and the nearer bound outside it. |
| ImageService.ShapeRepr | src/scan2mesh/services/image.py:40 | The repr of a shape is parenthesised, and a one-element shape keeps its trailing comma, as in "(4,)". |
| ImageService.CalculateBlurScore | src/scan2mesh/services/image.py:21-64 | An empty array, or a shape other than (H, W, 3), is refused, and the message says "Image is empty" exactly for the empty array. Any other refusal names the expected shape and ends with the repr of the shape it got. Otherwise the score lies in [0, 1]. It is 0 exactly when the Laplacian variance is at most 100 and 1 exactly when it is at least 500. |
| ImageService.Flatten | src/scan2mesh/services/image.py:108-109 | The row-major pixel list has one entry per pixel. Its positive entries are the image's positive pixels. |
| ImageService.CountPositiveConcat | src/scan2mesh/services/image.py:109 | Counting nonzero pixels over two concatenated runs adds the two counts. |
| ImageService.CalculateDepthValidRatio | src/scan2mesh/services/image.py:91-111 | An empty image is refused. Otherwise the ratio is the nonzero-pixel count over the pixel count, and it lies in [0, 1]. |
| ImageService.PositiveCountExtremes | src/scan2mesh/services/image.py:109 | An all-positive image has every pixel counted. An all-zero image has none counted. |
| ImageService.AllPixelsValid | src/scan2mesh/services/image.py:91-111 | A non-empty image with every pixel positive has valid ratio exactly 1. |
| ImageService.NoPixelValid | src/scan2mesh/services/image.py:91-111 | A non-empty all-zero image has valid ratio exactly 0. |
| ImageService.CountInRange | src/scan2mesh/services/image.py:139-142 | The number of pixels strictly between the two depths is at most the pixel count. |
| ImageService.InRangeArePositive | src/scan2mesh/services/image.py:139-142 | With a non-negative minimum depth, every in-range pixel is a nonzero pixel. |
| ImageService.EstimateObjectOccupancy | src/scan2mesh/services/image.py:113-145 | An empty image is refused. Otherwise the occupancy is the count of pixels strictly between the two depths over the pixel count, and it lies in [0, 1]. |
| ImageService.QuotientMonotone | src/scan2mesh/services/image.py:91-145 | Both ratios divide by the same pixel count, so the order of the counts carries over to the ratios. |
| ImageService.OccupancyWithinValidRatio | src/scan2mesh/services/image.py:91-145 | With a non-negative minimum depth, the occupancy never exceeds the valid ratio. |
| ImageService.ValidDepths | src/scan2mesh/services/image.py:172-173 | depth[depth > 0] holds one entry per positive pixel, every entry is positive, and every entry is a pixel of the image. |
| ImageService.AsReals | src/scan2mesh/services/image.py:186 | The conversion to floats keeps each value and the length. |
| ImageService.MinOf | src/scan2mesh/services/image.py:188 | The minimum is one of the values and no value is smaller. |
| ImageService.MaxOf | src/scan2mesh/services/image.py:189 | The maximum is one of the values and no value is larger. |
| ImageService.SquaredDeviations | src/scan2mesh/services/image.py:187 | One non-negative squared deviation per value. |
| ImageService.Square | src/scan2mesh/services/image.py:187 | A square is never negative. |
| ImageService.NonNegativeSum | src/scan2mesh/services/image.py:187 | A sum of non-negative values is non-negative, so the variance is too. |
| ImageService.ValidStatistics | src/scan2mesh/services/image.py:184-190 | For positive depths: 0 < min <= mean <= max, where min and max are the smallest and largest depth and mean is their mean. The spread is non-negative. |
| ImageService.CalculateDepthStatistics | src/scan2mesh/services/image.py:147-190 | All five values are 0 when the image has no positive pixel, including an empty image. Otherwise the valid ratio is the positive share, in (0, 1], and the rest are the statistics of the positive pixels only. |
| CapturePlanService.PresetConfig | src/scan2mesh_gui/services/capture_plan_service.py:19-23 | Every preset has 6 azimuth positions and asks for at least one frame. |
| CapturePlanService.GetPresetInfo | src/scan2mesh_gui/services/capture_plan_service.py:154-173 | The keyframe count is azimuth positions times elevation levels, taken from the preset table: 18, 36 and 72 keyframes for quick, standard and high quality. |
| CapturePlanService.FloatMod360 | src/scan2mesh_gui/services/capture_plan_service.py:114 | Python's float `% 360` lands in [0, 360) and leaves an angle already in that range unchanged. |
| CapturePlanService.DivModRow | src/scan2mesh_gui/services/capture_plan_service.py:108-125 | The running index of position a on level e is e*n + a, and it decodes back to level e and position a. |
| CapturePlanService.RowIndexBelow | src/scan2mesh_gui/services/capture_plan_service.py:108-111 | Every level's indices end within the grid's n * levels. |
| CapturePlanService.GridPrefixAppend | src/scan2mesh_gui/services/capture_plan_service.py:111-125 | Appending the next position, once it passes its field checks, extends a valid grid prefix by one point. |
| CapturePlanService.GenerateViewpoints | src/scan2mesh_gui/services/capture_plan_service.py:77-127 | Zero azimuth positions fail on the division. Otherwise the call succeeds exactly when every grid point passes the ViewPoint checks. It then returns n * levels points, level by level, each with its running index as index and order, the given distance and the grid's rounded angles. |
| CapturePlanService.AddLevel | src/scan2mesh_gui/services/capture_plan_service.py:111-125 | The inner loop appends the n positions of level e to a valid prefix, or fails only when one of that level's points fails its checks. |
| CapturePlanService.RoundTenthsWithin | src/scan2mesh_gui/services/capture_plan_service.py:119-120 | round(x, 1) stays within the tenths that bound x. |
| CapturePlanService.AzimuthStepBound | src/scan2mesh_gui/services/capture_plan_service.py:106-114 | With fewer than 3600 positions, the shifted azimuth before rounding lies in [0, 359.95). |
| CapturePlanService.AzimuthInRange | src/scan2mesh_gui/services/capture_plan_service.py:106-119 | With fewer than 3600 positions, every rounded azimuth lies in [0, 360). |
| CapturePlanService.ElevationInRange | src/scan2mesh_gui/services/capture_plan_service.py:96-120 | Every rounded grid elevation lies in [-90, 60]. |
| CapturePlanService.GridValid | src/scan2mesh_gui/services/capture_plan_service.py:77-127 | With fewer than 3600 azimuth positions, every grid point passes its checks exactly when the distance is positive or the grid is empty. |
| CapturePlanService.PointValidAt | src/scan2mesh_gui/services/capture_plan_service.py:116-124 | With fewer than 3600 positions and a positive distance, each grid point passes the ViewPoint checks. |
| CapturePlanService.LevelBelow | src/scan2mesh_gui/services/capture_plan_service.py:108-111 | An index inside the grid lies on one of its levels. |
| CapturePlanService.GenerateNotes | src/scan2mesh_gui/services/capture_plan_service.py:129-152 | The three general tips come first, then the preset's notes: one for quick and standard, two for high quality. |
| CapturePlanService.GeneratePlan | src/scan2mesh_gui/services/capture_plan_service.py:41-75 | Generation fails exactly when the distance is not positive. Otherwise the plan has the preset, the distance, one viewpoint per preset keyframe, the viewpoints being exactly the preset's grid that GenerateViewpoints builds, the preset's minimum frame count, the notes and the current time. |
| CapturePlanService.LevelAngleBounds | src/scan2mesh_gui/services/capture_plan_service.py:236-237 | Each truncated level angle lies in [0, 150]. The first is 0 and the last is 150. |
| CapturePlanService.LevelAngleIncreasing | src/scan2mesh_gui/services/capture_plan_service.py:236-237 | Truncated angles never decrease along the levels. With at most 151 levels they strictly increase. |
| CapturePlanService.UnitStep | src/scan2mesh_gui/services/capture_plan_service.py:236 | With at most 150 steps over 150 degrees, each step is at least one degree. |
| CapturePlanService.ElevationAngles | src/scan2mesh_gui/services/capture_plan_service.py:229-237 | A single level gives [75]. Otherwise there is one angle per level, running from 0 to 150, each in [0, 150], in non-decreasing order, and strictly increasing for at most 151 levels. |
| CapturePlanService.GetElevationAngles | src/scan2mesh_gui/services/capture_plan_service.py:219-237 | Each preset shows one angle per elevation level, from 0 to 150. |
| CapturePlanService.PlanFilePath | src/scan2mesh_gui/services/capture_plan_service.py:185-192 | A path containing ".." is refused. Otherwise the plan file is capture_plan.json inside the given directory, joined as pathlib joins, with no doubled separator. |
| PreprocessGate.EvaluateShape | src/scan2mesh/gates/preprocess.py:39-103 | There is one suggestion per reason. PASS holds exactly when there is no reason. FAIL holds exactly when some fail check fires, and then there is a single reason. Otherwise the reasons are the warn reasons in check order. |
| PreprocessGate.NoOutputFramesFailsFirst | src/scan2mesh/gates/preprocess.py:42-49 | Zero output frames give FAIL with exactly the reason no_output_frames and its suggestion, whatever the other metrics are. |
| PreprocessGate.FailReasonIsFirstFiringCheck | src/scan2mesh/gates/preprocess.py:42-77 | A FAIL names only the first fail check that fires, in the order: no output frames, valid-frames ratio, minimum mask area, mean mask area. |
| PreprocessGate.WarnIff | src/scan2mesh/gates/preprocess.py:79-101 | WARN holds exactly when no fail check fires and the valid-frames ratio or the minimum mask area is below its warn threshold. |
| PreprocessGate.ExactlyAtThresholdsPasses | src/scan2mesh/gates/preprocess.py:82-91 | With the default thresholds, metrics exactly at 0.9 valid ratio and 0.15 minimum mask area pass, because the comparisons are strict. |
| PreprocessGate.ValidRatioMonotone | src/scan2mesh/gates/preprocess.py:52-82 | Raising the valid-frames ratio never makes the status worse. |
| PreprocessGate.PreprocessQualityGate.constructor | src/scan2mesh/gates/preprocess.py:25-28 | A new gate has empty reason and suggestion lists. |
| PreprocessGate.PreprocessQualityGate.Validate | src/scan2mesh/gates/preprocess.py:30-103 | The returned status and the two lists left in the gate are exactly the evaluation of the metrics. Earlier calls do not matter, because the lists are reset first. |
| PreprocessGate.PreprocessQualityGate.CheckFailures | src/scan2mesh/gates/preprocess.py:42-77 | Validation stops at this phase exactly when some fail check fires. Only the first firing check's reason and suggestion are recorded. Otherwise both lists stay empty. |
| PreprocessGate.PreprocessQualityGate.CheckWarnings | src/scan2mesh/gates/preprocess.py:79-103 | Each firing warn check records its reason and suggestion in check order. The status is WARN exactly when one fired, and PASS otherwise. |
| PreprocessGate.PreprocessQualityGate.GetSuggestions | src/scan2mesh/gates/preprocess.py:105-111 | Returns the recorded suggestions as a separate value, so changing it leaves the gate unchanged. |
| PreprocessGate.PreprocessQualityGate.GetReasons | src/scan2mesh/gates/preprocess.py:113-119 | Returns the recorded reasons as a separate value, so changing it leaves the gate unchanged. |
| PreprocessService.StartSession | src/scan2mesh_gui/services/preprocess_service.py:38-62 | The new session keeps the captured frames, has nothing masked yet, is running with default metrics, starts at the current time, reports progress 0 and cannot proceed. |
| PreprocessService.ClampEdgeQuality | src/scan2mesh_gui/services/preprocess_service.py:247 | The edge score is a ratio. It is the combined score itself inside [0, 1] and the nearer bound outside. |
| PreprocessService.CalculateMaskQuality | src/scan2mesh_gui/services/preprocess_service.py:179-209 | An empty mask is an error (division by zero). Otherwise the area ratio is the share of positive mask pixels. The mask is valid exactly when between 5% and 80% of its pixels are set, bounds included, and the edge score is at least 0.3. |
| PreprocessService.ScaledBounds | src/scan2mesh_gui/services/preprocess_service.py:194-201 | Comparing the area ratio with 0.05 and 0.8 is the same as comparing the pixel count with the scaled bounds. |
| PreprocessService.ApplyDepthMask | src/scan2mesh_gui/services/preprocess_service.py:266-280 | The result has the depth image's shape. Each depth pixel survives where the mask is positive and is 0 elsewhere. |
| PreprocessService.ApplyMask | src/scan2mesh_gui/services/preprocess_service.py:249-264 | The result has the colour image's shape. Each pixel keeps all three channels where the mask is positive and is black elsewhere. |
| PreprocessService.ApplyDepthMaskIdempotent | src/scan2mesh_gui/services/preprocess_service.py:266-280 | Masking an already masked depth image with the same mask changes nothing. |
| PreprocessService.ApplyDepthMaskExtremes | src/scan2mesh_gui/services/preprocess_service.py:266-280 | An everywhere-positive mask keeps the depth image. A nowhere-positive mask clears it. |
| PreprocessService.AreaRatios | src/scan2mesh_gui/services/preprocess_service.py:354 | One area ratio per masked frame, each in [0, 1]. |
| PreprocessService.EdgeQualities | src/scan2mesh_gui/services/preprocess_service.py:355 | One edge score per masked frame, each in [0, 1]. |
| PreprocessService.ValidFlags | src/scan2mesh_gui/services/preprocess_service.py:356 | One validity flag per masked frame. |
| PreprocessService.UpdateMetrics | src/scan2mesh_gui/services/preprocess_service.py:336-366 | No masked frames give the default metrics. The processed count is the number of masked frames, and the valid count is the number of valid masks, which is at most the processed count. The two means are the means of the frame values. |
| PreprocessService.StopSession | src/scan2mesh_gui/services/preprocess_service.py:368-388 | Only is_running changes, to false. A stopped session can proceed exactly when it is complete. |
| PreprocessService.AddMaskedFrameToSession | src/scan2mesh_gui/services/preprocess_service.py:390-427 | The frame is appended at the end, the metrics are recomputed from the new list, and nothing else changes. |
| PreprocessService.AddMaskedFrameCounts | src/scan2mesh_gui/services/preprocess_service.py:390-427 | Adding a masked frame counts one more processed frame, and one more valid frame exactly when its mask is valid. |
| PreprocessService.MaskingAllCompletes | src/scan2mesh_gui/services/preprocess_service.py:390-427 | Masking every captured frame in turn, starting from a fresh session, leaves exactly those masked frames and completes the session. |
| PreprocessService.AddAllFrames | src/scan2mesh_gui/services/preprocess_service.py:390-427 | Adding frames one by one appends them in order and never changes the captured frames. |
| OptimizeSessions.IndexOf | src/scan2mesh_gui/models/optimize_session.py:22-30 | Every stage appears in STAGE_ORDER exactly once, at the returned index, so index() never raises. |
| OptimizeSessions.StageOrderEnumerates | src/scan2mesh_gui/models/optimize_session.py:22-30 | STAGE_ORDER has seven entries, from IDLE to COMPLETE. It lists every stage, and no stage twice. |
| OptimizeSessions.StageProgress | src/scan2mesh_gui/services/optimize_service.py:121-141 | Progress lies in [0, 1]. It is 0 exactly at IDLE and 1 exactly at COLLISION_MESH or COMPLETE. Every working stage reports its index over 5. |
| OptimizeSessions.StageProgressMonotone | src/scan2mesh_gui/services/optimize_service.py:121-141 | Progress never decreases along STAGE_ORDER. |
| OptimizeSessions.DefaultOptimizeMetrics | src/scan2mesh_gui/models/optimize_session.py:33-63 | The defaults: scale factor 1, no LOD triangles, a (0, 0) texture and a zero bounding box. |
| OptimizeSessions.OptimizeSession.Progress | src/scan2mesh_gui/models/optimize_session.py:92-111 | The session's progress lies in [0, 1]. It is 0 exactly when idle and 1 exactly when complete or at the collision-mesh stage. |
| OptimizeSessions.OptimizeSession.StageDisplayName | src/scan2mesh_gui/models/optimize_session.py:123-135 | Every stage has a non-empty display name. |
| OptimizeService.StartSession | src/scan2mesh_gui/services/optimize_service.py:27-67 | The new session is idle and running, has no output directory, default metrics and the current time as its start, and keeps the input counts and the three LOD targets. |
| OptimizeService.AssetDir | src/scan2mesh_gui/services/optimize_service.py:100-102 | The directory starts with the projects directory and ends in "asset". For a projects directory and an object id without trailing separators it is exactly projects + "/" + object_id + "/asset". |
| OptimizeService.AssetDirUnderRoot | src/scan2mesh_gui/services/optimize_service.py:100-102 | Under "/" the asset directory is "/obj/asset", with a single leading separator, and under "/data/projects" it is "/data/projects/obj/asset". |
| OptimizeService.MockTextureSide | src/scan2mesh_gui/services/optimize_service.py:213-219 | The texture side is 2048 exactly above 50000 input triangles and 512 exactly at or below 20000. |
| OptimizeService.GenerateMockMetrics | src/scan2mesh_gui/services/optimize_service.py:171-245 | For draws within their ranges, the LOD counts are at least 1000, 500 and 100 and the collision count at least 32. Each LOD exceeds the previous one only by its jitter, or sits at its floor. The texture is square at the size the input count selects. The output size is 50 bytes per LOD triangle plus 3 bytes per texel. The scale factor is non-negative. |
| OptimizeService.AdvanceStage | src/scan2mesh_gui/services/optimize_service.py:69-119 | COMPLETE is a fixed point. Any other stage moves to the next one in STAGE_ORDER, and nothing else changes until COMPLETE is entered. Entering COMPLETE stops the session, stores the simulated metrics and sets the output directory to `AssetDir`, the pathlib join of projects, object_id and "asset". |
| OptimizeService.StopSession | src/scan2mesh_gui/services/optimize_service.py:143-169 | Only is_running changes, to false. A stopped session can proceed exactly when it is complete. |
| OptimizeService.RunAllStages | src/scan2mesh_gui/services/optimize_service.py:247-273 | The result is always COMPLETE. A complete session comes back unchanged. Any other session ends as one advance out of the collision-mesh stage would leave it. |
| OptimizeService.SixAdvancesComplete | src/scan2mesh_gui/services/optimize_service.py:69-119 | Six advances bring a session at any stage to COMPLETE. |
| ReconstructSessions.IndexOf | src/scan2mesh_gui/models/reconstruct_session.py:21-29 | Every stage appears in STAGE_ORDER exactly once, at the returned index, so index() never raises. |
| ReconstructSessions.StageOrderEnumerates | src/scan2mesh_gui/models/reconstruct_session.py:21-29 | STAGE_ORDER has seven entries, from IDLE to COMPLETE. It lists every stage, and no stage twice. |
| ReconstructSessions.StageProgress | src/scan2mesh_gui/services/reconstruct_service.py:101-121 | Progress lies in [0, 1]. It is 0 exactly at IDLE and 1 exactly at TEXTURE_MAPPING or COMPLETE. Every working stage reports its index over 5. |
| ReconstructSessions.StageProgressMonotone | src/scan2mesh_gui/services/reconstruct_service.py:101-121 | Progress never decreases along STAGE_ORDER. |
| ReconstructSessions.DefaultReconstructMetrics | src/scan2mesh_gui/models/reconstruct_session.py:32-50 | The defaults: no vertices or triangles, not watertight, zero coverage, no keyframes used and no tracking loss. |
| ReconstructSessions.ReconstructSession.Progress | src/scan2mesh_gui/models/reconstruct_session.py:73-91 | The session's progress lies in [0, 1]. It is 0 exactly when idle and 1 exactly when complete or at texture mapping. |
| ReconstructSessions.ReconstructSession.StageDisplayName | src/scan2mesh_gui/models/reconstruct_session.py:103-115 | Every stage has a non-empty display name. |
| ReconstructService.StartSession | src/scan2mesh_gui/services/reconstruct_service.py:27-52 | The new session is idle and running, has no mesh path, default metrics and the current time as its start, and keeps the ids and the input frame count. |
| ReconstructService.MeshPath | src/scan2mesh_gui/services/reconstruct_service.py:82-87 | The path starts with the projects directory and ends in "mesh.ply". For a projects directory and an object id without trailing separators it is exactly projects + "/" + object_id + "/recon/mesh.ply". |
| ReconstructService.MeshPathUnderRoot | src/scan2mesh_gui/services/reconstruct_service.py:82-87 | Under "/" the mesh path is "/obj/recon/mesh.ply", with a single leading separator. |
| ReconstructService.KeyframesUsed | src/scan2mesh_gui/services/reconstruct_service.py:175 | int(frames * 0.95) never exceeds the frame count. |
| ReconstructService.BaseCoverage | src/scan2mesh_gui/services/reconstruct_service.py:170 | The coverage before jitter lies in [0.7, 0.95]. It reaches 0.95 exactly from 36 input frames on. |
| ReconstructService.GenerateMockMetrics | src/scan2mesh_gui/services/reconstruct_service.py:146-190 | For draws within their ranges: at least 27000 vertices and 50000 triangles. The texture is square, 2048 exactly above 30 frames and 1024 otherwise. The file size is 100 bytes per vertex plus 20 per triangle. Coverage lies in [0.5, 1]. Keyframes used plus tracking loss equals the input frames. The mesh is watertight exactly when the roll exceeds 0.2, and it has at most 3 holes. |
| ReconstructService.AdvanceStage | src/scan2mesh_gui/services/reconstruct_service.py:54-99 | COMPLETE is a fixed point. Any other stage moves to the next one in STAGE_ORDER, and nothing else changes until COMPLETE is entered. Entering COMPLETE stops the session, stores the simulated metrics and sets the mesh path to `MeshPath`, the pathlib join of projects, object_id, "recon" and "mesh.ply". |
| ReconstructService.StopSession | src/scan2mesh_gui/services/reconstruct_service.py:123-144 | Only is_running changes, to false. A stopped session can proceed exactly when it is complete. |
| ReconstructService.RunAllStages | src/scan2mesh_gui/services/reconstruct_service.py:192-218 | The result is always COMPLETE. A complete session comes back unchanged. Any other session ends stopped, able to proceed, and carrying the simulated metrics, as one advance out of texture mapping would leave it. |
| ReconstructService.AdvanceKeepsRun | src/scan2mesh_gui/services/reconstruct_service.py:214-216 | One step of the loop either only moves the session on, or completes it exactly as advancing from texture mapping does. |
| PackageSessions.IndexOf | src/scan2mesh_gui/models/package_session.py:20-26 | Every stage appears in STAGE_ORDER exactly once, at the returned index, so index() never raises. |
| PackageSessions.StageOrderEnumerates | src/scan2mesh_gui/models/package_session.py:20-26 | STAGE_ORDER has five entries, from IDLE to COMPLETE. It lists every stage, and no stage twice. |
| PackageSessions.DefaultPackageConfig | src/scan2mesh_gui/models/package_session.py:29-43 | The default configuration is a zip in ./output that includes everything except the source files. |
| PackageSessions.DefaultPackageMetrics | src/scan2mesh_gui/models/package_session.py:46-59 | The default metrics have no files, zero size, no compressed size and an empty output path. |
| PackageSessions.StageProgress | src/scan2mesh_gui/models/package_session.py:78-96 | Progress lies in [0, 1]. It is 0 exactly at IDLE and 1 exactly at CREATING_ARCHIVE or COMPLETE. Every working stage reports its index over 3. |
| PackageSessions.PackageSession.Progress | src/scan2mesh_gui/models/package_session.py:78-96 | The session's progress lies in [0, 1]. It is 0 exactly when idle and 1 exactly when complete or creating the archive. |
| PackageSessions.PackageSession.StageDisplayName | src/scan2mesh_gui/models/package_session.py:108-118 | Every stage has a non-empty display name. |
| PackageService.StartSession | src/scan2mesh_gui/services/package_service.py:28-55 | The new session is idle and running, has the given configuration, default metrics and the current time as its start, and keeps the object id and name. |
| PackageService.AddMeshFiles | src/scan2mesh_gui/services/package_service.py:144-162 | The LOD0, LOD1, LOD2 and collision files are listed in flag order for the flags that are set. The total adds exactly their drawn sizes. |
| PackageService.AddSupportFiles | src/scan2mesh_gui/services/package_service.py:164-179 | The manifest, report, two preview files and source archive are appended in flag order for the flags that are set. The total adds exactly their drawn sizes. |
| PackageService.GenerateMockMetrics | src/scan2mesh_gui/services/package_service.py:130-201 | The metrics hold the file list, its length as the file count, and the total of the drawn sizes. There is a compressed size for a zip only. The output path is output_dir/name_timestamp, with ".zip" for a zip. |
| PackageService.AdvanceStage | src/scan2mesh_gui/services/package_service.py:57-105 | COMPLETE is a fixed point. Any other stage moves to the next one in STAGE_ORDER, except that a "directory" package skips CREATING_ARCHIVE and goes straight to COMPLETE. Entering COMPLETE stops the session and stores the simulated metrics. Any other move changes only the stage. |
| PackageService.StopSession | src/scan2mesh_gui/services/package_service.py:107-128 | Only is_running changes, to false. A stopped session can proceed exactly when it is complete. |
| PackageService.RunAllStages | src/scan2mesh_gui/services/package_service.py:203-229 | The result is always COMPLETE, for any output format. A complete session comes back unchanged. Any other session ends stopped with the simulated metrics and is otherwise as it began. |
| PackageService.DirectoryNeverArchives | src/scan2mesh_gui/services/package_service.py:77-82 | Advancing a "directory" package never enters CREATING_ARCHIVE. |
| PackageService.ZipVisitsArchive | src/scan2mesh_gui/services/package_service.py:74-82 | Any other format goes from GENERATING_MANIFEST to CREATING_ARCHIVE, still running. |
| PackageService.OutputPathZipIff | src/scan2mesh_gui/services/package_service.py:189-193 | The output path ends in ".zip" exactly when the format is "zip". |
| PackageService.OutputPathReadsBack | src/scan2mesh_gui/services/package_service.py:188-193 | The output path is output_dir + "/" + object_name + "_", then fifteen stamp characters, then ".zip" for a zip only. The stamp reads back as the current time. |
| PackageService.CompressedSizeBounds | src/scan2mesh_gui/services/package_service.py:181-186 | A compressed size exists exactly for a zip. It lies between 40% of the total, rounded down, and 60% of it. |
| PackageService.ScaleBetween | src/scan2mesh_gui/services/package_service.py:185-186 | Scaling a total by a ratio between two bounds lands between the totals scaled by the bounds. |
| PackageService.FloorBetween | src/scan2mesh_gui/services/package_service.py:185-186 | Rounding down a value between 40% and 60% of a total keeps it non-negative, within 60% of the total, and above 40% of it minus one. |
| PackageService.FilesCount | src/scan2mesh_gui/services/package_service.py:144-196 | The file count is the number of flags set, plus one for the second preview file. |
| PackageService.DefaultPackage | src/scan2mesh_gui/services/package_service.py:130-201 | The default configuration lists the three LODs, the collision mesh, the manifest, the report and the two previews, in that order. It is zipped, and its total lies between 10655000 and 17963000 bytes. |
| AssetOptimizerStage.LodLimitsDescending | src/scan2mesh/stages/optimize.py:67 | LOD_LIMITS has three budgets, strictly decreasing from the finest level. |
| AssetOptimizerStage.ExtremesAttained | src/scan2mesh/stages/optimize.py:170-171 | The per-axis minimum bounds every vertex from below and the maximum from above, and some vertex attains each. |
| AssetOptimizerStage.MinBelowMax | src/scan2mesh/stages/optimize.py:170-171 | The per-axis minimum never exceeds the maximum. |
| AssetOptimizerStage.Extent | src/scan2mesh/stages/optimize.py:222-224 | The size along an axis, max minus min, is never negative. |
| AssetOptimizerStage.Shift | src/scan2mesh/stages/optimize.py:181 | Subtracting a translation subtracts it on every axis. |
| AssetOptimizerStage.Translate | src/scan2mesh/stages/optimize.py:181-188 | vertices - t keeps the vertex count and shifts each vertex by t. |
| AssetOptimizerStage.Scale | src/scan2mesh/stages/optimize.py:244 | vertices * f keeps the vertex count and stretches each vertex by f. |
| AssetOptimizerStage.TranslateBounds | src/scan2mesh/stages/optimize.py:170-188 | Translating moves every per-axis minimum and maximum by the translation. |
| AssetOptimizerStage.TranslateSum | src/scan2mesh/stages/optimize.py:183-184 | Translating moves each coordinate sum by the vertex count times the translation. |
| AssetOptimizerStage.ScalePreservesOrder | src/scan2mesh/stages/optimize.py:228-244 | A positive factor keeps the order of two values, so max(dx, dy) picks the same axis after scaling. |
| AssetOptimizerStage.ExtremesUnique | src/scan2mesh/stages/optimize.py:170-171 | A bound that holds for every vertex and is attained by one is the minimum, or the maximum. |
| AssetOptimizerStage.ScaledCoordBounds | src/scan2mesh/stages/optimize.py:244 | Per-axis bounds on every vertex carry over, scaled, to the scaled mesh. |
| AssetOptimizerStage.ScaledCoord | src/scan2mesh/stages/optimize.py:244 | Each coordinate of a scaled vertex is the original coordinate times the factor. |
| AssetOptimizerStage.ScaleBounds | src/scan2mesh/stages/optimize.py:222-244 | A positive factor scales the per-axis minimum and maximum. |
| AssetOptimizerStage.NormalizedBottomCenter | src/scan2mesh/stages/optimize.py:170-188 | For any origin except "centroid" (including unknown values), the mesh then stands on z = 0 and is centred in x and y. Its size along every axis is unchanged. |
| AssetOptimizerStage.NormalizedCentroid | src/scan2mesh/stages/optimize.py:182-184 | With origin "centroid" the vertex mean moves to the origin. |
| AssetOptimizerStage.SelectedDimension | src/scan2mesh/stages/optimize.py:222-238 | The dimension the known size refers to is never negative. |
| AssetOptimizerStage.Select | src/scan2mesh/stages/optimize.py:227-238 | The selected dimension is one of the three extents, chosen by type: the larger of x and y for "diameter", absent or unknown types, x for width, z for height, and y for length or depth. |
| AssetOptimizerStage.Scaled | src/scan2mesh/stages/optimize.py:198-259 | An empty mesh or missing scale information gives the mesh back as "high". Only the known-dimension path changes the vertices, and then the uncertainty is "low". The RealSense depth-scale method keeps the mesh as "medium". A known dimension whose selected extent is 0 keeps the mesh as "high". Any other method keeps the mesh with the scale information's own uncertainty. |
| AssetOptimizerStage.ScaleExtent | src/scan2mesh/stages/optimize.py:222-244 | A positive factor scales the size along every axis. |
| AssetOptimizerStage.ScaledDifference | src/scan2mesh/stages/optimize.py:224-244 | The arithmetic step: a difference of scaled bounds is the scaled difference. |
| AssetOptimizerStage.ScaledSelect | src/scan2mesh/stages/optimize.py:227-244 | Scaling all three extents by a positive factor scales the selected one. |
| AssetOptimizerStage.ScaleSelectedDimension | src/scan2mesh/stages/optimize.py:222-244 | A positive factor scales the selected dimension of the mesh. |
| AssetOptimizerStage.RatioCancels | src/scan2mesh/stages/optimize.py:241-244 | Multiplying the current dimension by target/current gives the target. |
| AssetOptimizerStage.KnownDimensionIsMet | src/scan2mesh/stages/optimize.py:220-249 | On the known-dimension path with positive sizes, the scaled mesh measures exactly the known size, converted to metres, along the selected dimension, and the uncertainty is "low". |
| AssetOptimizerStage.BoundingBox | src/scan2mesh/stages/optimize.py:547-569 | No vertices give zeros. Otherwise the box holds the per-axis sizes, which are non-negative, and the oriented box equals the axis-aligned one. |
| AssetOptimizerStage.BoundingBoxTranslationInvariant | src/scan2mesh/stages/optimize.py:547-569 | Moving the origin leaves the bounding box unchanged. |
| AssetOptimizerStage.LodWithinBudget | src/scan2mesh/stages/optimize.py:345-368 | A mesh within the triangle budget comes back unchanged. Over the budget the mesh library decides, which the model leaves open (None). |
| AssetOptimizerStage.AssetOptimizer.constructor | src/scan2mesh/stages/optimize.py:73-90 | The configuration, output preset and scale information all start unset. |
| AssetOptimizerStage.AssetOptimizer.LoadConfig | src/scan2mesh/stages/optimize.py:96-107 | A successful load fills all three fields from the stored configuration. A failure becomes "Failed to load project configuration: ..." and leaves the fields as they were. |
| AssetOptimizerStage.AssetOptimizer.GetOutputPreset | src/scan2mesh/stages/optimize.py:109-115 | The preset is the stored configuration's, loaded on first use. It fails exactly when loading fails, and a configuration already loaded is kept. |
| AssetOptimizerStage.AssetOptimizer.GetScaleInfo | src/scan2mesh/stages/optimize.py:117-122 | The scale information, possibly None, is the stored configuration's, loaded on first use. It fails exactly when loading fails. |
| AssetOptimizerStage.AssetOptimizer.NormalizeAxes | src/scan2mesh/stages/optimize.py:144-196 | An empty mesh comes back unchanged without reading the configuration. Otherwise the call fails exactly when loading fails, and translates to the origin the output preset names. |
| AssetOptimizerStage.AssetOptimizer.ApplyScale | src/scan2mesh/stages/optimize.py:198-259 | An empty mesh comes back as "high" without reading the configuration. Otherwise the call fails exactly when loading fails, and scales as the stored scale information says. |
| ReportSessions.PriorityValue | src/scan2mesh_gui/models/report_session.py:12-17 | an action priority's string value is one of "high", "medium", "low" |
| ReportSessions.StatusLabel | src/scan2mesh_gui/models/report_session.py:273-278 | the gate table and heading show one of the words PASS, WARN, FAIL, PENDING |
| ReportSessions.PriorityMarker | src/scan2mesh_gui/models/report_session.py:291-295 | each recommendation is marked [HIGH], [MEDIUM] or [LOW] |
| ReportSessions.CaptureLines | src/scan2mesh_gui/models/report_session.py:190-200 | the capture section is written exactly when a capture summary is present |
| ReportSessions.PreprocessLines | src/scan2mesh_gui/models/report_session.py:202-212 | the preprocess section is written exactly when a preprocess summary is present |
| ReportSessions.ReconstructLines | src/scan2mesh_gui/models/report_session.py:214-228 | the reconstruction section is written exactly when a reconstruction summary is present |
| ReportSessions.OptimizeLines | src/scan2mesh_gui/models/report_session.py:230-245 | the optimization section is written exactly when an optimization summary is present |
| ReportSessions.PackageLines | src/scan2mesh_gui/models/report_session.py:247-262 | the package section is written exactly when a package summary is present; it has a "Compressed Size" line, with one decimal and " MB", exactly when a compressed size is set |
| ReportSessions.GateRows | src/scan2mesh_gui/models/report_session.py:272-281 | one table row per gate |
| ReportSessions.GateRowsAt | src/scan2mesh_gui/models/report_session.py:272-281 | row `i` is the row of gate `i`, so the rows keep the gate order |
| ReportSessions.GateLinesShape | src/scan2mesh_gui/models/report_session.py:264-282 | the gate table is there exactly when gates are; it is the four header lines, one row per gate in order, and a blank line |
| ReportSessions.ActionLines | src/scan2mesh_gui/models/report_session.py:290-296 | one line per recommendation |
| ReportSessions.ActionLinesAt | src/scan2mesh_gui/models/report_session.py:290-296 | line `i` renders recommendation `i`, so the lines keep the recommendation order |
| ReportSessions.RecommendationLineMarker | src/scan2mesh_gui/models/report_session.py:296 | every recommendation line begins with "- ", the priority's marker and the bold target stage |
| ReportSessions.RecommendationLinesShape | src/scan2mesh_gui/models/report_session.py:284-297 | the recommendation section is there exactly when recommendations are; it is a heading, one line per recommendation in order, each opening with its priority's marker, and a blank line |
| ReportSessions.AppendGateSection | src/scan2mesh_gui/models/report_session.py:264-282 | the loop that appends one row per gate leaves the lines followed by the gate section |
| ReportSessions.AppendRecommendationSection | src/scan2mesh_gui/models/report_session.py:284-297 | the loop that appends one line per recommendation leaves the lines followed by the recommendation section |
| ReportSessions.JoinLinesEndsWithLast | src/scan2mesh_gui/models/report_session.py:305 | text joined with newlines ends with the last line |
| ReportSessions.JoinLinesStartsWithFirst | src/scan2mesh_gui/models/report_session.py:305 | text joined with newlines begins with the first line |
| ReportSessions.JoinLinesCounts | src/scan2mesh_gui/models/report_session.py:305 | The joined text is as long as the lines together plus one newline between each pair. It holds the lines' own newlines plus exactly `len(lines) - 1` more. |
| ReportSessions.ReportSession.HeadLines | src/scan2mesh_gui/models/report_session.py:176-188 | the report opens with eleven fixed lines, the first being the title with the display name |
| ReportSessions.ReportSession.MarkdownLines | src/scan2mesh_gui/models/report_session.py:176-303 | the line list is at least fourteen lines long, opens with the title and closes with the three footer lines |
| ReportSessions.ReportSession.ToMarkdown | src/scan2mesh_gui/models/report_session.py:170-305 | the step-by-step construction yields the section-by-section lines joined with newlines; the text starts with the title and ends with "*Generated by scan2mesh GUI*" |
| ReportSessions.ReportSession.ToJsonDict | src/scan2mesh_gui/models/report_session.py:307-358 | the dict holds each key once: the seven fixed keys, a `*_metrics` key exactly for each summary present, and the two lists; `quality_gates` holds one dict per gate and `recommendations` one per recommendation |
| ReportSessions.ReportSession.PresentMetricKeys | src/scan2mesh_gui/models/report_session.py:323-336 | only the five `*_metrics` keys can be added for the summaries |
| ReportSessions.ReportSession.MetricKeyPresence | src/scan2mesh_gui/models/report_session.py:323-336 | each `*_metrics` key is in the dict if and only if its summary is present |
| ReportSessions.ReportSession.MetricEntriesKeys | src/scan2mesh_gui/models/report_session.py:323-336 | the summary entries carry distinct keys, exactly those of the present summaries |
| ReportSessions.ReportSession.JsonEntriesKeys | src/scan2mesh_gui/models/report_session.py:313-356 | the dict's keys are distinct and are the fixed keys, the present metric keys and the two list keys |
| ReportSessions.ReportSession.JsonEntriesLists | src/scan2mesh_gui/models/report_session.py:338-356 | looking up `quality_gates` and `recommendations` gives the lists of gate and recommendation dicts |
| ReportSessions.OptionalEntry | src/scan2mesh_gui/models/report_session.py:323-336 | an optional insertion adds its key exactly when there is a value |
| ReportSessions.AppendPresent | src/scan2mesh_gui/models/report_session.py:323-336 | `if value: result[key] = value` adds one entry exactly when the value is present |
| ReportSessions.AppendFresh | src/scan2mesh_gui/models/report_session.py:323-336 | inserting under a key the dict lacks keeps the keys distinct and adds just that key |
| ReportSessions.GateDicts | src/scan2mesh_gui/models/report_session.py:338-347 | one dict per gate, in order, with the status as its string value |
| ReportSessions.RecommendationDicts | src/scan2mesh_gui/models/report_session.py:349-356 | one dict per recommendation, in order, with the priority as its string value |
| ReportService.DefaultThresholds | src/scan2mesh_gui/models/config.py:17-26 | the default thresholds are 0.7/0.5 for depth, 0.6/0.4 for blur, 0.7/0.5 for coverage and 10 keyframes, each warn level above its fail level |
| ReportService.EvaluateThreshold | src/scan2mesh_gui/services/report_service.py:477-494 | FAIL exactly below the fail level, WARN exactly from the fail level up to (not including) the warn level, PASS exactly when the value reaches both levels; never PENDING |
| ReportService.EvaluateThresholdMonotone | src/scan2mesh_gui/services/report_service.py:477-494 | a larger metric value never earns a worse status |
| ReportService.EvaluateThresholdNoWarnBand | src/scan2mesh_gui/services/report_service.py:477-494 | with the warn level at or below the fail level, no value warns |
| ReportService.KeyframesGate | src/scan2mesh_gui/services/report_service.py:181-199 | Minimum Keyframes passes exactly when the count reaches the minimum and fails otherwise, with the count as value and ">= minimum" as threshold |
| ReportService.RatioGate | src/scan2mesh_gui/services/report_service.py:202-248 | a ratio gate's status is the threshold evaluation of its value; its value has two decimals; its threshold is the fail level; its reason matches the status |
| ReportService.DepthGate | src/scan2mesh_gui/services/report_service.py:202-216 | Depth Valid Ratio is evaluated against the depth warn and fail levels |
| ReportService.BlurGate | src/scan2mesh_gui/services/report_service.py:218-232 | Blur Score is evaluated against the blur warn and fail levels |
| ReportService.CoverageGate | src/scan2mesh_gui/services/report_service.py:234-248 | Coverage is evaluated against the coverage warn and fail levels |
| ReportService.CaptureGates | src/scan2mesh_gui/services/report_service.py:180-248 | a capture summary yields four gates, in the order keyframes, depth, blur, coverage |
| ReportService.MaskRatio | src/scan2mesh_gui/services/report_service.py:252-257 | the mask ratio is valid masks over processed frames, or 0 with no frames |
| ReportService.MaskRatioBands | src/scan2mesh_gui/services/report_service.py:258-264 | the ratio reaches 0.9 (0.7) exactly when there are frames and ten times the valid masks reach nine (seven) times the frames |
| ReportService.MaskGate | src/scan2mesh_gui/services/report_service.py:250-278 | Mask Validity passes from nine valid masks in ten, warns from seven in ten and fails otherwise, in particular when no frame was processed |
| ReportService.WatertightGate | src/scan2mesh_gui/services/report_service.py:282-301 | Mesh Watertight passes exactly for a watertight mesh and otherwise only warns |
| ReportService.TrackingLossRatio | src/scan2mesh_gui/services/report_service.py:303-309 | the tracking-loss ratio is lost frames over keyframes used, or 0 with no keyframes |
| ReportService.TrackingLossBands | src/scan2mesh_gui/services/report_service.py:310-316 | the ratio is at most 5% (15%) exactly when there are no keyframes or twenty times the lost frames are at most one (three) times the keyframes |
| ReportService.TrackingGate | src/scan2mesh_gui/services/report_service.py:303-329 | Tracking Quality passes up to 5% lost frames, warns up to 15% and fails beyond, with the lost-frame count as value |
| ReportService.ReconstructGates | src/scan2mesh_gui/services/report_service.py:280-329 | a reconstruction summary yields the watertight gate then the tracking gate, and the watertight gate never fails |
| ReportService.LodGate | src/scan2mesh_gui/services/report_service.py:331-357 | LOD Generation passes exactly when all three LOD levels have triangles and fails otherwise |
| ReportService.Names | src/scan2mesh_gui/services/report_service.py:160-359 | the names of a gate list, one per gate, in order |
| ReportService.NamesAppend | src/scan2mesh_gui/services/report_service.py:160-359 | the names of appended gate lists are the appended names |
| ReportService.KnownAndSettledAppend | src/scan2mesh_gui/services/report_service.py:160-359 | lists of known, settled gates stay so when appended |
| ReportService.CaptureSection | src/scan2mesh_gui/services/report_service.py:180-248 | a present capture summary adds four gates, an absent one none |
| ReportService.PreprocessSection | src/scan2mesh_gui/services/report_service.py:250-278 | a present preprocess summary adds one gate, an absent one none |
| ReportService.ReconstructSection | src/scan2mesh_gui/services/report_service.py:280-329 | a present reconstruction summary adds two gates, an absent one none |
| ReportService.OptimizeSection | src/scan2mesh_gui/services/report_service.py:331-357 | a present optimization summary adds one gate, an absent one none |
| ReportService.CaptureSectionNamed | src/scan2mesh_gui/services/report_service.py:180-248 | the capture section's gates are known and settled and carry the four capture names in order |
| ReportService.PreprocessSectionNamed | src/scan2mesh_gui/services/report_service.py:250-278 | the preprocess section's gate is known, settled and named Mask Validity |
| ReportService.ReconstructSectionNamed | src/scan2mesh_gui/services/report_service.py:280-329 | the reconstruction section's gates are known, settled and named Mesh Watertight then Tracking Quality |
| ReportService.OptimizeSectionNamed | src/scan2mesh_gui/services/report_service.py:331-357 | the optimization section's gate is known, settled and named LOD Generation |
| ReportService.ExpectedGates | src/scan2mesh_gui/services/report_service.py:160-359 | a report has 4, 1, 2 and 1 gates for the capture, preprocess, reconstruction and optimization summaries present, so at most eight |
| ReportService.AppendCaptureGates | src/scan2mesh_gui/services/report_service.py:180-248 | the four appends leave the list followed by the capture section |
| ReportService.AppendPreprocessGate | src/scan2mesh_gui/services/report_service.py:250-278 | the append leaves the list followed by the preprocess section |
| ReportService.AppendReconstructGates | src/scan2mesh_gui/services/report_service.py:280-329 | the two appends leave the list followed by the reconstruction section |
| ReportService.AppendOptimizeGate | src/scan2mesh_gui/services/report_service.py:331-357 | the append leaves the list followed by the optimization section |
| ReportService.EvaluateQualityGates | src/scan2mesh_gui/services/report_service.py:160-359 | the gates appended step by step are the expected gates, section by section |
| ReportService.ExpectedGatesSettled | src/scan2mesh_gui/services/report_service.py:160-359 | every gate a report can hold has a known name and a PASS, WARN or FAIL status |
| ReportService.ExpectedGateNames | src/scan2mesh_gui/services/report_service.py:160-359 | the gate names come in the fixed section order: capture, preprocess, reconstruction, optimization |
| ReportService.GateKindOf | src/scan2mesh_gui/services/report_service.py:524-576 | a gate name has a kind exactly when it is one of the eight known gate names |
| ReportService.KindPriorities | src/scan2mesh_gui/services/report_service.py:524-573 | a failing gate's priority is more urgent than its warning priority; a warning is never HIGH; a failure is HIGH except for Mask Validity and Mesh Watertight |
| ReportService.ActionTable | src/scan2mesh_gui/services/report_service.py:524-576 | the action table has a row exactly for the known gate names |
| ReportService.TargetStage | src/scan2mesh_gui/services/report_service.py:581-595 | the four capture gates target Capture, Mask Validity targets Preprocess, Mesh Watertight and Tracking Quality target Reconstruct, LOD Generation targets Optimize, and any other name Unknown |
| ReportService.ActionForGate | src/scan2mesh_gui/services/report_service.py:520-596 | no action for an unknown gate; otherwise the failing or the warning text and priority of its row, aimed at its stage |
| ReportService.PriorityBands | src/scan2mesh_gui/services/report_service.py:520-596 | for every known gate the failing action is more urgent than the warning one, warnings are never HIGH, and failures are HIGH except for masks and watertightness |
| ReportService.GateRecommendation | src/scan2mesh_gui/services/report_service.py:374-382 | a gate yields an action exactly when it fails or warns and its name is known |
| ReportService.OptionToSeq | src/scan2mesh_gui/services/report_service.py:377-382 | a found action appends one element, a missing one none |
| ReportService.Recommendations | src/scan2mesh_gui/services/report_service.py:361-384 | never more actions than gates |
| ReportService.GenerateRecommendations | src/scan2mesh_gui/services/report_service.py:361-384 | the loop over the gates builds the actions of the gates in gate order |
| ReportService.RecommendationsStep | src/scan2mesh_gui/services/report_service.py:374-382 | one more gate appends its own action, if any, at the end |
| ReportService.RecommendationsAppend | src/scan2mesh_gui/services/report_service.py:361-384 | recommending over two gate lists recommends over each in turn, so actions keep the order of their gates |
| ReportService.CountStatus | src/scan2mesh_gui/services/report_service.py:400-414 | a status count never exceeds the number of gates |
| ReportService.CountStatusPositive | src/scan2mesh_gui/services/report_service.py:400-410 | a status count is positive exactly when some gate has that status |
| ReportService.RecommendationsCount | src/scan2mesh_gui/services/report_service.py:361-384 | when every gate name is known, there is exactly one action per failing or warning gate |
| ReportService.CalculateOverallStatus | src/scan2mesh_gui/services/report_service.py:386-416 | PENDING exactly without gates; FAIL exactly when a gate fails; WARN exactly when none fails and one warns; PASS exactly when there are gates and none fails or warns; the FAIL and WARN messages carry the counts |
| ReportService.ExtractCaptureMetrics | src/scan2mesh_gui/services/report_service.py:41-60 | no summary without a session; otherwise the session's keyframe count, depth and blur means and coverage |
| ReportService.ExtractPreprocessMetrics | src/scan2mesh_gui/services/report_service.py:62-81 | no summary without a session; otherwise the session's processed and valid counts and its means |
| ReportService.ExtractReconstructMetrics | src/scan2mesh_gui/services/report_service.py:83-106 | no summary without a session; otherwise every field is the session's figure: mesh counts, watertightness, holes, coverage, keyframes, tracking loss and texture resolution |
| ReportService.ExtractOptimizeMetrics | src/scan2mesh_gui/services/report_service.py:108-132 | no summary without a session; otherwise every field is the session's figure: scale factor, repairs, LOD and collision triangle counts, texture resolution and bounding box |
| ReportService.ExtractPackageMetrics | src/scan2mesh_gui/services/report_service.py:134-158 | no summary without a session; the compressed size is present exactly when the session reported one; the file count and output path are the session's |
| ReportService.PackageSizesInMb | src/scan2mesh_gui/services/report_service.py:148-151 | the sizes are the byte counts divided by 1024 * 1024 |
| ReportService.GenerateReport | src/scan2mesh_gui/services/report_service.py:418-475 | the report carries the object's identity, the extracted summaries, the gates they yield, the actions those gates call for and the overall status and message they add up to |
| ReportService.AssessQuality | src/scan2mesh_gui/services/report_service.py:447-459 | gates, actions and overall status are computed from the summaries in that order |
| ReportService.ReportPendingIff | src/scan2mesh_gui/services/report_service.py:386-398 | a report stays PENDING exactly when none of the capture, preprocess, reconstruction and optimization summaries is present |
| ReportService.NoIssuesMeansAllPass | src/scan2mesh_gui/services/report_service.py:374-416 | among settled gates, no failing and no warning gate means every gate passed and nothing is recommended |
| ReportService.ReportPassHasNoActions | src/scan2mesh_gui/services/report_service.py:418-475 | every gate of a PASS report passed and the report recommends nothing |
| ReportService.ReportActionsMatchIssues | src/scan2mesh_gui/services/report_service.py:418-475 | a report has exactly one action per failing or warning gate, so a FAIL or WARN report has at least one |
| ReportService.KnownGatesActionCount | src/scan2mesh_gui/services/report_service.py:361-384 | among known, settled gates, the actions number the failing plus the warning gates |
| Stats.MeanTimesCount | src/scan2mesh_gui/services/capture_service.py:226-227 | `sum(xs) / len(xs)` times the count gives back the sum |
| Stats.MeanBounds | src/scan2mesh_gui/services/capture_service.py:226-227 | the mean of per-frame ratios within bounds stays within the same bounds |
| Stats.PositiveRatio | src/scan2mesh_gui/services/preprocess_service.py:192-194 | the share of positive pixels in a non-empty image lies in [0, 1] |
| Format.NatToStringRoundTrip | src/scan2mesh_gui/models/report_session.py:195 | the decimal rendering of a count reads back as the same count |
| Format.RoundHalfEven | src/scan2mesh_gui/models/report_session.py:196 | the rounding behind `:.2f` lands within half a unit of the exact value |
| Format.RoundTo | src/scan2mesh_gui/services/optimize_service.py:235 | `round(x, places)` is a whole number of the last place, at most half of one away from x. |
| Format.RoundToNonNegative | src/scan2mesh_gui/services/optimize_service.py:235 | Rounding a non-negative number never gives a negative one. |
| Format.DecimalsNeeded | src/scan2mesh_gui/services/report_service.py:213 | The count of decimals `str` needs: from the start value on, the first count that writes the number exactly, and no smaller count does; 17 if none does. |
| Format.FixedReadsBack | src/scan2mesh_gui/models/report_session.py:196 | `f"{x:.Nf}"` starts with "-" exactly for a negative number, and its digits, point dropped, are within half a unit of the magnitude counted in the last place. |
| Format.FixedExact | src/scan2mesh_gui/models/report_session.py:196 | For a number written exactly with N decimals, `f"{x:.Nf}"` has its point N digits from the end, and its digits read back as exactly that number. |
| Format.PointDigitsReadBack | src/scan2mesh_gui/models/report_session.py:196 | A count of last places written with its point reads back as the count, and the point sits `places` digits from the end. |
| Format.Percent1ReadsBack | src/scan2mesh/gates/preprocess.py:55 | `f"{x:.1%}"` ends in "%", has one digit after its point, and its digits are within half a unit of a thousand times the magnitude. |
| Format.FloatReprReadsBack | src/scan2mesh_gui/services/report_service.py:213 | `str(x)` of a number with a finite short decimal writes it exactly, with as few decimals as needed but at least one, and "-" exactly for a negative number. |
| Format.GroupedNatReadsBack | src/scan2mesh_gui/models/report_session.py:219 | `f"{n:,}"` puts a comma exactly at every fourth place from the end, and with the commas dropped its digits read back as n. |
| Format.GroupedReadsBack | src/scan2mesh_gui/models/report_session.py:219 | `f"{i:,}"` starts with "-" exactly for a negative number, and the rest is the grouped magnitude, reading back as its absolute value. |
| Timestamps.Pad2 | src/scan2mesh_gui/models/report_session.py:180 | Two-digit padding reads back as the value, and is exactly two digits below 100. |
| Timestamps.Pad4 | src/scan2mesh_gui/models/report_session.py:180 | Four-digit year padding reads back as the value, and is exactly four digits below 10000. |
| Timestamps.Pad6 | src/scan2mesh_gui/models/report_session.py:320 | Six-digit microsecond padding reads back as the value, and is exactly six digits below a million. |
| Timestamps.ReportStampReadsBack | src/scan2mesh_gui/models/report_session.py:180 | `strftime("%Y-%m-%d %H:%M:%S")` is 19 characters with its separators in place, and each field reads back as the datetime's field. |
| Timestamps.IsoFormatReadsBack | src/scan2mesh_gui/models/report_session.py:320 | `isoformat()` has the same layout with "T" between date and time. It is 26 characters, ending in a point and six microsecond digits, exactly when the microseconds are not zero, and 19 otherwise. |
| Timestamps.FileStampReadsBack | src/scan2mesh_gui/services/package_service.py:189 | `strftime("%Y%m%d_%H%M%S")` is eight date digits, "_" and six time digits, each field reading back as the datetime's field. |

## Left out

- Floating point: every float is its exact rational value. Rounding error in divisions, `round` and `int(x * 0.95)` is not modelled. `f"{x:.Nf}"` rounds the exact value half-to-even.
- Format.FloatRepr: writes `str(x)` as the shortest exact decimal, with ".0" for whole numbers. It does not produce the exponent forms (`1e-05`, `1e+16`) or the 17-digit approximations of inexact binary values.
- Timestamps.ReportStamp: `strftime` pads the year to four digits. Years before 1000 and platform-specific padding are not distinguished.
- Paths: `Path.resolve()` and path normalisation are a function parameter. Joining a directory and a name (`Path(d) / name`, including the asset directory and the mesh path) is textual: it adds a "/" unless the directory ends in one, and an empty name leaves the directory unchanged. The package output path is an f-string and always inserts "/". Other pathlib normalisation of the directory text, such as a doubled or trailing separator inside it, is not modelled. The forbidden-directory check is the plain string prefix test that the source performs on the resolved text.
- SHA-256 and the canonical `json.dumps` of `calculate_config_hash` are an opaque digest function parameter. A `json.dumps` failure on a value that cannot be serialised is modelled as no hash.
- I/O: the following are not part of this model, because they are storage, file or network I/O:
  - file and JSON storage;
  - `ObjectService.create_object`, `delete_object` and the store's constructor arguments;
  - `save_frame`, `save_masked_frame` and `load_plan`;
  - `save_plan` beyond its path check.
- ObjectService.ObjectUpdate: `update_object(**kwargs)` with a key that is an attribute but not a model field makes pydantic's `setattr` raise. The update record has only the fields, so this error is not modelled.
- ObjectService.Find: models `get_object` as a lookup over the stored listing, without reading storage.
- Hardware and rendering are not part of this model:
  - cameras and the device service;
  - `capture_frame` and `process_frame`;
  - `_generate_mask`;
  - the Streamlit pages.
- Numeric libraries: OpenCV, Open3D and trimesh calls are not modelled. This covers:
  - the Laplacian behind the blur score, which the model takes as a given variance;
  - the contour-based edge quality, a given value;
  - `repair_mesh`, simplification, `generate_collision`, `generate_preview` and `_calculate_hole_area_ratio`.
- AssetOptimizerStage.LodWithinBudget: models only the branch of `generate_lod` where the mesh is already within budget. Decimation, the branch that returns None, is a library call.
- ImageService.CalculateDepthStatistics: reports the variance of the valid depths instead of `std_depth_mm`. The square root of a rational is not a rational.
- PreprocessService.ApplyMask: requires the mask and the image to have the same shape. numpy broadcasting errors on other shapes are not modelled.
- PreprocessService.ApplyDepthMask: requires the mask and the depth image to have the same shape. On other shapes `np.where` broadcasts or raises, and neither is modelled. This can happen when only the depth file fails to load: a 480×640 zero depth image then meets a colour image of another size.
- CapturePlanService.GenerateViewpoints: the ranges of the generated azimuths are proved for fewer than 3600 azimuth positions per level. Every preset uses 6. With 3600 or more, the last azimuth of an odd level rounds to 360.0, and `ViewPoint` would reject it.
- Report summaries: the pydantic range checks on the summary records (`ge=0`, `le=1`) are types (`nat`, `Ratio`) where the model needs them. The other fields are plain reals.
- ReportSessions.ReportSession.ToJsonDict: each `result[key] = value` becomes an appended entry. This is exact because every key is new to the dict, and the model proves that.
- Session progress: the `ValueError` branch of `progress` for a stage missing from `STAGE_ORDER` cannot happen, because every stage is listed.
- Randomness and clocks:
  - `uuid4` ids and `datetime.now()` are parameters;
  - the random draws of every `generate_mock_metrics` are a record of draws within the source's ranges.
- Gate stubs: the capture, reconstruct and asset gates and the pipeline orchestrator only raise or glue stages together. They are not part of this model.
- Preprocess thresholds: the gate's threshold constants are not in `gates/thresholds.py`. They are a parameter record, with the values the unit tests fix.

## Findings

| source | as written | input that shows it | evidently intended | confidence | as-written member | corrected member |
|---|---|---|---|---|---|---|
| src/scan2mesh/cli/validators.py:30-33 | `re.match(r"^[a-zA-Z0-9_-]+$", name)`: Python's `$` also matches before one final newline, so a name ending in "\n" is accepted and returned with the newline | "ball\n" | accept only names made entirely of letters, digits, `_` and `-` (as `re.fullmatch`, and as the pydantic pattern of the same name elsewhere, do) | not executed | CliValidators.ValidateObjectNameAsWritten, CliValidators.TrailingNewlineAccepted | CliValidators.ValidateObjectName, CliValidators.ValidateObjectNameAccepts, CliValidators.CorrectedIsStricter |
