# Occupancy detection pipeline: a Dafny model

This project models the core of an occupancy-detection application for the
OpenCV AI kit (a depth camera running a neural network). The application has
five parts, each modelled here:

- **The capture loop** (`DepthAI.capture`). Each poll of the camera delivers
  network packets and data packets.
  - A network packet replaces the current result list. The new list is the
    longest prefix of its entries that are real detections (`id != -1`) at or
    above the confidence threshold.
  - A `previewout` data packet that carries a frame yields the frame and a
    detection batch.
  - The batch holds one depth-aware record per current result whose fields
    all convert. Entries that do not convert are dropped.
  - Batches are numbered by a frame counter that starts at 0.
- **Detection records and batches** (`PyDetectionBox`, `PyDepthDetectionBox`).
  - Typed setters: int32 ids, a uint32 frame id, `None`-to-`''` labels, and a
    class id taken with `int()` that falls back to `-1` on `TypeError`.
  - Serialisation to ordered name-value pairs. It parses back.
  - Batches whose data only grows at the end.
- **The pipeline configuration** (`DepthAIConfig`).
  - The choice of command file and the model files.
  - Engine allocation for dual-camera inference, with shave and slice counts
    rounded down to even numbers.
  - Compilation of the network blob: the compiled-blob name scheme, the
    per-engine split, the download, and the fallback to the default blob.
  - The board-profile lookup and its fallback path, and the merge order of
    the configuration layers.
  - The `video` stream added or removed for recording, the stream names, and
    the object-tracker switch.
- **Model file names** (`get_model_files`).
- **Data-river helpers**.
  - File URIs.
  - Registration of tag groups and thing classes from `<name>.json` files.
  - Tag writes with and without a flow.
  - The JSON properties of a thing, with the precondition decorator that
    guards them.

Modules:

| module | file | models |
|---|---|---|
| `Wrappers` | wrappers.dfy | `Option`, `Result`, `Outcome` |
| `Decimal` | decimal.dfy | `str()` of integers and its inverse, used by the compiled-blob names |
| `PyValues` | py_values.dfy | Python values, `int()`, `float()`, indexing and the exceptions they raise |
| `Paths` | paths.dfy | `os.path.join` and `PurePath.with_suffix('.json')` on POSIX paths; ASCII `str.upper()` |
| `DetectionBox` | detection_box.dfy | datacls/PyDetectionBox.py |
| `Capture` | capture.dfy | depthai_wrapper.py, `DepthAI.capture` |
| `ModelFiles` | model_files.dfy | depthai_utils.py, `get_model_files` |
| `Config` | config.dfy | config.py, `DepthAIConfig` |
| `DataRiverUtils` | datariver_utils.dfy | datariver/utils.py and the precondition decorator |

Each class method that changes state is proved against a specification
function of the old state. The specification functions carry the lemmas:
- `DepthAI.Poll` against `PollOnce`.
- `DepthAIConfig.Configure` against `ConfigureSpec`.
- `DepthAIConfig.CompileModel` against `CompileSpec`.
- `DetectionBox.AddData` against `WrapRecord`.

Inputs the original receives from outside are parameters here:
- **Camera packets**: the arguments of `Poll`.
- **Existing files and the label tables of network configuration files**: a
  `FileSystem` value.
- **The blob compiler**: a `Downloader` function returning the exit code.
- **Whether the video file opens**: a boolean.
- **The resource paths from `consts.resource_paths`**: a `ResourcePaths` value.

## Model

| member | source | states |
|---|---|---|
| `PyValues.IntOf` | datacls/PyDetectionBox.py:50 | `int(None)` raises TypeError and nothing else does; ints pass unchanged; a float is truncated toward zero; a string converts exactly when it is a decimal integer, to that integer, else ValueError |
| `PyValues.FloatOf` | depthai_wrapper.py:80-83 | `float(None)` raises TypeError and only it; a number converts to its value |
| `PyValues.PyIndex` | depthai_wrapper.py:86 | list indexing succeeds exactly for `-len <= i < len`; negative indices count from the end; otherwise IndexError |
| `PyValues.LessThan` | depthai_wrapper.py:56 | the comparison with the threshold succeeds exactly for numbers and then is `<` on their values |
| `PyValues.Lookup` | depthai_wrapper.py:80 | dictionary lookup succeeds exactly for present keys, else KeyError |
| `PyValues.Truncate` | datacls/PyDetectionBox.py:50 | `int()` of a float truncates toward zero |
| `Decimal.ParseIntToString` | config.py:243 | the decimal text `str()` writes for an integer parses back to that integer |
| `Decimal.NatToString` | config.py:243 | `str()` of a natural number is a non-empty digit string without leading zero whose value is the number |
| `Paths.JoinInjective` | datariver/utils.py:64 | joining a relative component onto a fixed directory is injective in the component |
| `Paths.JoinEmpty` | datariver/utils.py:15-16 | joining onto the empty directory leaves a path unchanged |
| `Paths.AsciiUpper` | config.py:219 | `upper()` keeps the length and changes exactly the letters a-z, to A-Z |
| `Paths.WithJsonSuffixShape` | config.py:219 | `with_suffix('.json')` always ends in `.json`, and the text before it is a prefix of the original path |
| `Paths.WithJsonSuffixNoDot` | config.py:219 | a final component without a dot just gets `.json` appended |
| `DetectionBox.Int32Slot` | datacls/PyDetectionBox.py:27-33 | an int32 slot accepts exactly the integers in the signed 32-bit range and stores them unchanged |
| `DetectionBox.UInt32Slot` | datacls/PyDetectionBox.py:201-207 | the frame-id slot accepts exactly the integers in the unsigned 32-bit range |
| `DetectionBox.FloatSlot` | datacls/PyDetectionBox.py:64-102 | a float slot accepts exactly numbers and stores their value |
| `DetectionBox.StringSlot` | datacls/PyDetectionBox.py:185-199 | a string slot accepts exactly strings and stores them unchanged |
| `DetectionBox.LabelSlot` | datacls/PyDetectionBox.py:39-41 | a label setter stores `''` for `None` and any string unchanged; nothing else is accepted |
| `DetectionBox.ClassIdSlotIntended` | datacls/PyDetectionBox.py:47-53 | the intended class-id setter stores `-1` whenever `int` cannot convert the value, and raises only OverflowError for an integer outside int32 |
| `DetectionBox.ClassIdSlotRaisesOnText` | datacls/PyDetectionBox.py:47-53 | as written, a non-numeric string class id raises ValueError, where the intended setter stores `-1` |
| `DetectionBox.ClassIdSlot` | datacls/PyDetectionBox.py:47-53 | the class-id setter stores `int(value)`, stores `-1` when `int` raises TypeError, lets ValueError through, and never stores a value outside int32 |
| `DetectionBox.Serialize` | datacls/PyDetectionBox.py:112-125 | a base record serialises to the ten names obj_id … meta in order; a depth record adds dist_x, dist_y, dist_z |
| `DetectionBox.DepthExtendsBase` | datacls/PyDetectionBox.py:165-171 | a depth record's pairs are the base record's ten pairs followed by the three float64 distances |
| `DetectionBox.ParseSerialize` | datacls/PyDetectionBox.py:112-125 | a serialised valid record parses back to itself |
| `DetectionBox.SerializeParse` | datacls/PyDetectionBox.py:112-171 | every pair sequence that parses is exactly the serialisation of the record it parses to |
| `DetectionBox.MakeRecordFields` | datacls/PyDetectionBox.py:4-25 | a record is built exactly when every field's setter accepts its argument; then each field holds what its setter stores: ids and labels, the four coordinates, the probability, the meta string and, for a depth record, the three distances |
| `DetectionBox.UnwrapWrapRecord` | datacls/PyDetectionBox.py:210-216 | the batch entry `add_data` makes from a record gives back that record |
| `DetectionBox.SerializeBatch` | datacls/PyDetectionBox.py:223-232 | a batch serialises to engine_id, stream_id, frame_id, data in that order |
| `DetectionBox.ParseSerializeBatch` | datacls/PyDetectionBox.py:223-232 | a serialised batch with a uint32 frame id parses back to itself |
| `DetectionBox.SerializeParseBatch` | datacls/PyDetectionBox.py:223-232 | every pair sequence that parses as a batch is that batch's serialisation |
| `DetectionBox.DetectionBoxData.constructor` | datacls/PyDetectionBox.py:128-138 | a new record has ids 0, empty strings and zero coordinates, probability and (for depth) distances |
| `DetectionBox.DetectionBoxData.SetObjId` | datacls/PyDetectionBox.py:31-33 | stores an int32 and changes no other field; a rejected value changes nothing |
| `DetectionBox.DetectionBoxData.SetObjLabel` | datacls/PyDetectionBox.py:39-41 | stores the label, `''` for `None`, and changes no other field |
| `DetectionBox.DetectionBoxData.SetClassId` | datacls/PyDetectionBox.py:47-53 | stores what `ClassIdSlot` yields (with the `-1` fallback) and changes no other field |
| `DetectionBox.DetectionBoxData.SetClassLabel` | datacls/PyDetectionBox.py:60-62 | stores the label, `''` for `None`, and changes no other field |
| `DetectionBox.DetectionBoxData.SetX1` | datacls/PyDetectionBox.py:68-70 | stores a number in `x1` only |
| `DetectionBox.DetectionBoxData.SetY1` | datacls/PyDetectionBox.py:76-78 | stores a number in `y1` only |
| `DetectionBox.DetectionBoxData.SetX2` | datacls/PyDetectionBox.py:84-86 | stores a number in `x2` only |
| `DetectionBox.DetectionBoxData.SetY2` | datacls/PyDetectionBox.py:92-94 | stores a number in `y2` only |
| `DetectionBox.DetectionBoxData.SetProbability` | datacls/PyDetectionBox.py:100-102 | stores a number in `probability` only |
| `DetectionBox.DetectionBoxData.SetMeta` | datacls/PyDetectionBox.py:108-110 | stores the text, `''` for `None`, and changes no other field |
| `DetectionBox.DetectionBoxData.SetDistX` | datacls/PyDetectionBox.py:145-147 | stores a number in the x distance only |
| `DetectionBox.DetectionBoxData.SetDistY` | datacls/PyDetectionBox.py:153-155 | stores a number in the y distance only |
| `DetectionBox.DetectionBoxData.SetDistZ` | datacls/PyDetectionBox.py:161-163 | stores a number in the z distance only |
| `DetectionBox.DetectionBoxData.Assign` | datacls/PyDetectionBox.py:16-25 | the constructor's setter sequence leaves exactly the record `MakeRecord` describes, or raises its error |
| `DetectionBox.DetectionBox.constructor` | datacls/PyDetectionBox.py:175-183 | a new batch has empty ids, frame 0 and no data |
| `DetectionBox.DetectionBox.SetEngineId` | datacls/PyDetectionBox.py:189-191 | stores a string engine id and changes nothing else |
| `DetectionBox.DetectionBox.SetStreamId` | datacls/PyDetectionBox.py:197-199 | stores a string stream id and changes nothing else |
| `DetectionBox.MakeBatch` | datacls/PyDetectionBox.py:175-183 | a batch is built exactly when the ids are strings and the frame id a uint32, and holds them with no data; otherwise the first refusing setter's exception |
| `DetectionBox.DetectionBox.AssignIds` | datacls/PyDetectionBox.py:175-183 | the argument-taking constructor: from a default batch, the three setters in order give `MakeBatch`'s batch or its exception |
| `DetectionBox.DetectionBox.SetFrameId` | datacls/PyDetectionBox.py:205-207 | stores a uint32 frame id and changes nothing else; other integers raise |
| `DetectionBox.DetectionBox.AddData` | datacls/PyDetectionBox.py:210-216 | appends exactly one entry, the wrapped serialisation of the record, and keeps earlier entries and the ids |
| `DetectionBox.DetectionBox.AddBox` | datacls/PyDetectionBox.py:219-241 | appends one record built from the arguments (base or depth), or raises and appends nothing |
| `Capture.Passes` | depthai_wrapper.py:56 | an entry is kept exactly when its id is not -1 and its confidence is a number at or above the threshold; the test raises exactly when a key it reads is missing or the confidence is not a number |
| `Capture.FilterIsLongestPassingPrefix` | depthai_wrapper.py:53-59 | the kept results are the longest prefix of the packet's entries that all pass, in delivered order; the first failing entry stops the loop, and raises when its test raises |
| `Capture.FilterStopsAtFirstFailure` | depthai_wrapper.py:56-57 | no entry at or after the first failing one is kept, even one that would pass |
| `Capture.FilterKeepsAboveThreshold` | depthai_wrapper.py:56-59 | every kept entry is a real detection (its id is not -1) with a numeric confidence at or above the threshold |
| `Capture.SortedFilterIsFullFilter` | depthai_wrapper.py:55-59 | when the entries before the first id -1 entry are detections in non-increasing confidence order, as the device delivers them, the early exit keeps exactly the detections at or above the threshold, in order, and raises nothing |
| `Capture.KeepAbove` | depthai_wrapper.py:55-59 | full filtering without an early exit keeps only entries of the input that are at or above the threshold |
| `Capture.FilterStopsAt` | depthai_wrapper.py:55-59 | if the first `i` entries pass and entry `i` does not, the kept results are exactly the first `i` |
| `Capture.BuildRecordFields` | depthai_wrapper.py:79-92 | a record is built exactly when every field read and conversion succeeds; it holds the four coordinates, class id, confidence and three distances of the entry, ids 0 and empty texts |
| `Capture.BuildRecordIntendedLabel` | depthai_wrapper.py:77-106 | with the intended guard the label table never decides whether a result converts; a covered class id takes its label and any other `''`; every result the code as written converts still converts, to the same record when its class id is not negative |
| `Capture.LabelGuardDropsRecord` | depthai_wrapper.py:84-86 | with two labels and class id 2 the code as written raises IndexError and drops the record, where the intended build keeps it with an empty label |
| `Capture.BuildRecordLabel` | depthai_wrapper.py:84-86 | a built record never has class id `len(labels)`; ids below it take that label (negative ones from the end); ids above keep `''`; a class id equal to `len(labels)` or below `-len(labels)` drops the record |
| `Capture.ConvertedPositions` | depthai_wrapper.py:77-107 | the positions of the results that convert, strictly increasing, and all of them |
| `Capture.AssembleIsOrderedSubset` | depthai_wrapper.py:77-107 | the batch holds, in result order, exactly the records of the converting results, so at most one per result |
| `Capture.AssembleProbabilities` | depthai_wrapper.py:88 | every record of a batch built from filtered results has probability at or above the threshold |
| `Capture.ApplyNNetPacketsStops` | depthai_wrapper.py:53-59 | once a network packet raises, the later packets of the poll are not processed |
| `Capture.ProcessDataStops` | depthai_wrapper.py:60-109 | once a data packet raises, the later packets of the poll are not processed |
| `Capture.PollResultsFromLastPacket` | depthai_wrapper.py:53-54 | with no network packet the previous results persist; when the poll raised nothing, the results are the kept entries of its last network packet |
| `Capture.ProcessDataEmissions` | depthai_wrapper.py:60-109 | the emitted frames are exactly those of the `previewout` packets with data, in order; emission `k` carries frame number `start + k`; the counter advances once per emission; the only exception is the uint32 overflow of the frame id |
| `Capture.PollFrameNumbers` | depthai_wrapper.py:62-65 | every batch of a poll has stream id `foo`, engine id `engine` and the next frame number |
| `Capture.ApplyNNetPacketsAboveThreshold` | depthai_wrapper.py:53-59 | the threshold property of the results survives any sequence of network packets |
| `Capture.PollKeepsThreshold` | depthai_wrapper.py:52-109 | after a poll the results still pass the threshold, and every record emitted carries a probability at or above it |
| `Capture.RunFrameIds` | depthai_wrapper.py:49-51 | over any number of polls from the start of the capture, the `k`-th emitted batch has frame id `k`, stream `foo`, engine `engine` |
| `Capture.RunKeepsThreshold` | depthai_wrapper.py:49-109 | over any number of polls, every emitted record has probability at or above the threshold |
| `Capture.DepthAI.constructor` | depthai_wrapper.py:34-46 | given a label table, the results start empty; labels, threshold and identifiers are stored |
| `Capture.DepthAI.Create` | depthai_wrapper.py:34-46 | construction from the configuration's labels raises TypeError exactly when the configuration has none (`len(None)`), and otherwise yields a fresh capture object holding that table with empty results |
| `Capture.DepthAI.BeginCapture` | depthai_wrapper.py:50 | the frame counter starts at 0 |
| `Capture.DepthAI.ConsumeNNetPacket` | depthai_wrapper.py:54-59 | the results field becomes the filter's kept prefix, with the filter's exception if any; the counter is unchanged |
| `Capture.DepthAI.BuildBox` | depthai_wrapper.py:79-91 | the setter sequence on a fresh depth record gives exactly the record `BuildRecord` describes, or its exception |
| `Capture.DepthAI.HandleDataPacket` | depthai_wrapper.py:60-109 | a packet is skipped, yields the batch `BatchFor` describes, or raises, as `HandlePacket` says; the counter advances exactly on a yield |
| `Capture.DepthAI.Poll` | depthai_wrapper.py:52-109 | the new results, counter, emissions and exception are those `PollOnce` computes from the old state |
| `ModelFiles.GetModelFiles` | depthai_utils.py:20-27 | the blob is the stem `nn_path + model + '/' + model` plus `.blob`; the configuration is the same stem plus `_depth.json` when distances are computed, else `.json` |
| `ModelFiles.BlobIndependentOfDepth` | depthai_utils.py:22 | the blob path does not depend on the distance flag |
| `ModelFiles.BlobDiffersFromConfig` | depthai_utils.py:21-26 | the blob and its configuration are never the same path |
| `ModelFiles.ModelFilesInjective` | depthai_utils.py:20-27 | the configuration path determines both the model name and the distance flag |
| `Config.InitialState` | config.py:14-42 | `compile_model` starts true exactly when shaves and slices are given and the engine count is truthy |
| `Config.RoundDownEven` | config.py:116-117 | the rounded count is even, 6 when none is given, and otherwise at most the given count and at least one less |
| `Config.ConfigureErrors` | config.py:85-92 | configuration fails exactly when no model is named (AttributeError) or its blob or configuration file is missing (FileNotFoundError) |
| `Config.ConfigureFiles` | config.py:72-112 | the command file follows the USB2 and debug flags; `calc_dist_to_bb` is `not disable_depth`; the model files exist; labels come from the configuration when it has them; the second model stays unused |
| `Config.ConfigureEngines` | config.py:114-122 | dual-camera inference without an engine count gets two engines, even counts and compilation; otherwise the counts are unchanged; the default blob is used exactly when nothing is compiled |
| `Config.ConfigureEstablishes` | config.py:68-122 | a successful configuration leaves the state that compiling relies on |
| `Config.PerEngineCounts` | config.py:232-242 | with two engines, odd counts raise ValueError and even ones are halved; any other engine count keeps them |
| `Config.CompiledBlobNameRoundTrip` | config.py:243 | the compiled-blob name can be parsed back into the blob, shaves, slices and engines |
| `Config.CompiledBlobNameInjective` | config.py:243 | different settings never share a compiled-blob name |
| `Config.CompileAsWrittenNeverDownloads` | config.py:244-247 | as written, an uncached compilation raises NameError where the intended code downloads; a cached one agrees with it |
| `Config.CompileOddCounts` | config.py:230-237 | compiling fails exactly for two engines with an odd count, with ValueError |
| `Config.CompileDefaultBlob` | config.py:273-276 | whenever the default blob is used the counts become 7, 7 and 1 and the blob is unchanged; without compilation the default blob is always used |
| `Config.CompileCompiledBlob` | config.py:243-258 | when a compiled blob is used, its name follows the scheme and the counts are kept |
| `Config.CompileCachedIgnoresDownload` | config.py:244-258 | a cached compiled blob is used without consulting the compiler |
| `Config.BoardConfigLookup` | config.py:214-226 | a profile is read exactly when a board is named and its path or the fallback exists, from an existing file, the named path first |
| `Config.BoardFallbackShape` | config.py:219 | the fallback profile is a `.json` file inside the boards directory |
| `Config.LoadConfigLayers` | config.py:125-134 | a missing profile raises; otherwise the default layer, then the board profile, then the overwrite when given |
| `Config.AppendVideo` | config.py:60-61 | appending `video` adds one `video` entry and leaves the other entries alone |
| `Config.RemoveFirstVideoCounts` | config.py:65-66 | `remove('video')` removes exactly one `video` entry and leaves the other entries alone |
| `Config.AddVideoSpec` | config.py:59-61 | adding the stream appends `video` only when absent, keeps the existing list as prefix, and is idempotent |
| `Config.RemoveVideoSpec` | config.py:64-66 | removing the stream drops one `video` only when present, leaves the others, and is idempotent on lists with at most one |
| `Config.ConfigRecordingVideo` | config.py:278-289 | when recording, the list has a `video` stream if the file opens; if it does not, one `video` entry is removed, so a list that held at most one has none left; without recording it is untouched; other streams stay |
| `Config.StreamNames` | config.py:48 | the names, one per stream in order, bare names as is and dictionaries by `name`; KeyError exactly when a dictionary has none |
| `Config.ObjectTrackerListed` | config.py:55-57 | the tracker is enabled exactly when some stream is named `object_tracker` |
| `Config.DepthAIConfig.constructor` | config.py:14-42 | the arguments are copied and `compile_model` is computed |
| `Config.DepthAIConfig.SelectCommandFile` | config.py:72-82 | sets the command file and the distance flag and nothing else |
| `Config.DepthAIConfig.AllocateEngines` | config.py:114-122 | applies the dual-camera allocation and sets the default-blob flag, nothing else |
| `Config.DepthAIConfig.LocateModelFiles` | config.py:85-92 | assigns the model files or raises as `ModelFilesCheck` says |
| `Config.DepthAIConfig.LoadLabels` | config.py:93-112 | clears the second model and loads the labels, nothing else |
| `Config.DepthAIConfig.Configure` | config.py:68-122 | the new state or the exception is the one `ConfigureSpec` gives |
| `Config.DepthAIConfig.CompileModel` | config.py:229-276 | the new state or the exception is the one `CompileSpec` gives |
| `Config.DepthAIConfig.LoadConfig` | config.py:125-134 | the layers are those `LoadConfigSpec` gives, and the streams are the argument's list |
| `Config.DepthAIConfig.AddVideoStream` | config.py:59-61 | the stream list becomes `AddVideo` of the old one; nothing else changes |
| `Config.DepthAIConfig.RemoveVideoStream` | config.py:64-66 | the stream list becomes `RemoveVideo` of the old one; nothing else changes |
| `Config.DepthAIConfig.ConfigRecordingFile` | config.py:278-289 | the stream list is adjusted for recording as `ConfigRecordingSpec` says |
| `Config.DepthAIConfig.Setup` | config.py:44-48 | configure, compile, load, recording and stream names run in order; the first step whose specification raises gives the set-up's exception, the set-up succeeds exactly when every step does, and then each step's result is its specification's |
| `DataRiverUtils.AbsFileUri` | datariver/utils.py:14-16 | the URI is `file://` followed by the path |
| `DataRiverUtils.DefinitionUri` | datariver/utils.py:64 | a definition URI has the `file://` scheme and names a `.json` file |
| `DataRiverUtils.DefinitionUris` | datariver/utils.py:62-64 | one URI per name, in list order, each the name's `.json` file in the directory |
| `DataRiverUtils.DefinitionUriInjective` | datariver/utils.py:64 | two relative names get the same URI only when they are equal |
| `DataRiverUtils.DefinitionUrisDistinct` | datariver/utils.py:78-80 | distinct relative names are registered under distinct URIs |
| `DataRiverUtils.LoadDefinitions` | datariver/utils.py:62-64 | a fresh registry receives exactly the names' URIs, in order |
| `DataRiverUtils.RegisterTagGroups` | datariver/utils.py:53-66 | one registry with every tag group's URI, added once to the river's tag-group registries |
| `DataRiverUtils.RegisterThingClasses` | datariver/utils.py:69-82 | one registry with every thing class's URI, added once to the river's thing-class registries |
| `DataRiverUtils.WriteTag` | datariver/utils.py:95-102 | exactly one write call is appended; it names a flow exactly when one is given and carries the output and data unchanged |
| `DataRiverUtils.JsonOf` | datariver/utils.py:121-123 | `None` is written as `null` and a string as itself |
| `DataRiverUtils.GenProperties` | datariver/utils.py:118-125 | keys id, classId, contextId, description in order; classId is the fixed thing class; a missing description is `''` |
| `DataRiverUtils.CheckPreconditions` | decorators/contracts.py:48-57 | a call is refused, with PreconditionError, exactly when some condition answers `None` |
| `DataRiverUtils.GenPropertiesNeverRefused` | datariver/utils.py:116-125 | the boolean preconditions never refuse a call, even with a missing or empty id |

## Left out

- The camera SDK (`init_device`, `create_pipeline`, packet polling, `deinit_device`): packets are inputs to `Poll`.
- Frame decoding with OpenCV and the unused image sizes: a frame is an opaque value.
- The endless `while True` of `capture`: one poll at a time (`Poll`, `PollOnce`), and finite sequences of polls (`Run`).
- The `print` of each confidence and every log call.
- Floating point: coordinates, probabilities and distances are reals. The float32/float64 rounding of the slots is not modelled.
- PyValues.IntOf: of the string syntax `int()` accepts, only optionally signed ASCII decimal integers are modelled. Surrounding whitespace, underscores between digits and non-ASCII decimal digits give ValueError here, where Python converts them (so `' 7'` as a class id raises instead of storing 7).
- PyValues.FloatOf: of the string syntax `float()` accepts, only optionally signed decimal integers are modelled. Other strings give ValueError here.
- The pub/sub SDK's typed slots are not part of this model. They are assumed to raise OverflowError for an integer out of the slot's range and TypeError for a value of the wrong kind.
- Registries, rivers and things are stand-ins that record the URIs, registries and write calls they receive. The rest of the SDK is not modelled: `iot_safe_copy`, `create_thing`, `get_river_config_uri` and `SIGTERMHandler`.
- `json.dumps` text and escaping: `GenProperties` yields the ordered members of the object.
- File contents: the file system is a value listing existing paths and, for each network configuration file with `mappings.labels`, its label table. A configuration file without labels gives `labels = None`. Malformed JSON in the network configuration (config.py:106-107) or in the board profile (config.py:223-224), which raises in the source, cannot be expressed, and neither can a label table holding non-strings, which makes the `class_label` setter raise.
- JSON parsing of `config_overwrite`: the overwrite layer keeps its text. The ValueError that `json.loads` raises for malformed text at the start of configuration (config.py:69-70) is not modelled.
- `utils.merge` comes from a helper package whose source is not part of this model. `LoadConfig` records only the layers in merge order. `config['streams']` is taken to be the argument's stream list after the merge.
- `Config.DepthAIConfig.Setup`: the stream names are computed from `stream_list`. The source computes them from the same list object the recording step may have extended; that aliasing is not modelled.
- `__get_default_config`: its dictionary contents (depth, ai, ot, board and camera sections) are not modelled.
- The constructor arguments that only feed that dictionary: field of view, baselines, EEPROM flags, resolutions, rates, `swap_lr`, `full_fov_nn`, `disparity_confidence_threshold`.
- `nn2_depth`, `decode_nn` and `show_nn`.
- The second network model (`cnn_model2`): it is cleared before it is tested, so its file checks and its compilation never run. `LoadLabels` clears it. `Configured` records that it is unset, so `CompileSpec` has no second-model branch.
- `Paths.Join` does not apply the normalisation `pathlib` performs on repeated or trailing separators.
- `Paths.WithJsonSuffix` does not drop a trailing separator before taking the suffix as `pathlib` does: a board named `abc/` falls back to `ABC/.json` here and to `ABC.json` in the source.
- `Paths.AsciiUpper` models `str.upper()` on ASCII letters only.
- The video file handle of the recording step: only whether the file opens matters.

## Findings

| source | as written | input that shows it | evidently intended | confidence | as-written member | corrected member |
|---|---|---|---|---|---|---|
| config.py:246-247 | the log message before the download formats `config.NN_engines`, and the download calls `depthai.download_blob`. Neither `config` nor `depthai` is defined in the module, so every compilation whose blob is not cached raises NameError | `compile_model` true, even counts, and the compiled blob file absent | download the blob with `self.NN_engines`, and fall back to the default blob when the download fails | not executed | `Config.CompileAsWritten` (shown by `Config.CompileAsWrittenNeverDownloads`) | `Config.CompileSpec`, used by `Config.DepthAIConfig.CompileModel` |
| depthai_wrapper.py:84-86 | the label guard is `class_id <= len(labels)`, so a class id equal to the table's length is used as an index, raises IndexError, and the bare `except` at lines 105-106 drops the detection; ids below `-len(labels)` are dropped the same way, and `-1` picks the last label | two labels and a detection of class 2 | a class id the table does not cover keeps the empty label and the detection is kept | not executed | `Capture.BuildRecord` (shown by `Capture.LabelGuardDropsRecord` and `Capture.BuildRecordLabel`) | `Capture.BuildRecordIntended` (proved by `Capture.BuildRecordIntendedLabel`) |
| datacls/PyDetectionBox.py:47-53 | the class-id setter falls back to `-1` only on TypeError, so a non-numeric string raises ValueError and the detection is dropped | class id `'person'` | any value `int` cannot convert stores `-1` | not executed | `DetectionBox.ClassIdSlot` (shown by `DetectionBox.ClassIdSlotRaisesOnText`) | `DetectionBox.ClassIdSlotIntended`, used by `Capture.BuildRecordIntended` |

The capture loop (`Capture.Assemble`, `Capture.DepthAI.HandleDataPacket`) keeps the label guard and the class-id setter as written, because it describes what the device loop does today. The corrected record build stands beside it, and `Capture.BuildRecordIntendedLabel` relates the two.
