/**
 * `DepthAIConfig` (config.py): the pipeline settings derived from the
 * command-line arguments.  The constructor copies the arguments, then
 * configures the model files, compiles (or falls back to) the network blob,
 * layers the board profile and the overwrite over the default configuration,
 * adjusts the `video` stream for recording, and lists the stream names.
 *
 * The file system is a value (the paths that exist and the label tables of
 * the network configuration files); the blob compiler is a function argument
 * returning the download's exit code.
 */
module Config {
  import opened Wrappers
  import opened PyValues
  import opened Decimal
  import Paths
  import ModelFiles

  /** Paths from `consts.resource_paths`; their values are inputs here. */
  datatype ResourcePaths = ResourcePaths(deviceCmd: string, deviceUsb2Cmd: string, nnResource: string, boardsDir: string)

  /** The paths that exist, and the `mappings.labels` table of each network configuration file that has one. */
  datatype FileSystem = FileSystem(existing: set<string>, labelTables: map<string, seq<string>>)

  /** `depthai.download_blob(model, shaves, cmx_slices, engines, out_file)`: its exit code. */
  type Downloader = (string, int, int, int, string) -> int

  /** An element of the stream list: a bare name, or a dictionary that should carry a `name`. */
  datatype StreamEntry = StreamName(name: string) | StreamSpec(fields: map<string, string>)

  /** The configuration layers in the order they are merged; the merge itself is not part of this model. */
  datatype Layer = DefaultLayer | BoardLayer(path: Option<string>) | OverwriteLayer(text: string)

  /** The arguments the set-up reads but never reassigns. */
  datatype Fixed = Fixed(
    cnnCamera: string,
    forceUsb2: bool,
    devDebug: bool,
    disableDepth: bool,
    cnnModel: Option<string>,
    board: Option<string>,
    configOverwrite: Option<string>,
    streamList: seq<StreamEntry>,
    video: Option<string>)

  /** The arguments the configuration reads. */
  datatype Args = Args(fixed: Fixed, shaves: Option<int>, cmxSlices: Option<int>, nnEngines: Option<int>, cnnModel2: Option<string>)

  /** The model attributes the set-up assigns; `None` stands for an attribute not yet assigned. */
  datatype ModelState = ModelState(
    shaves: Option<int>,
    cmxSlices: Option<int>,
    nnEngines: Option<int>,
    compileModel: bool,
    defaultBlob: bool,
    cmdFile: string,
    calcDistToBb: bool,
    cnnModel2: Option<string>,
    blobFile: Option<string>,
    blobFileConfig: Option<string>,
    blobFile2: string,
    blobFileConfig2: string,
    labels: Option<seq<string>>)

  /** Lines 15-42: the counts copied, and `compile_model` as line 35 computes it. */
  function InitialState(a: Args): (s: ModelState)
    ensures s.compileModel <==> a.shaves.Some? && a.cmxSlices.Some? && TruthyInt(a.nnEngines)
    ensures WellFormed(s)
  {
    ModelState(
      a.shaves, a.cmxSlices, a.nnEngines,
      a.shaves.Some? && a.cmxSlices.Some? && TruthyInt(a.nnEngines), false,
      "", false, a.cnnModel2, None, None, "", "", None)
  }

  /** Before configuration: no blob assigned, and compiling implies all three counts are given. */
  predicate WellFormed(s: ModelState)
  {
    s.blobFile.None? && (s.compileModel ==> s.shaves.Some? && s.cmxSlices.Some? && s.nnEngines.Some?)
  }

  /** After configuration: what compiling the model relies on. */
  predicate Configured(f: Fixed, s: ModelState)
  {
    && s.blobFile.Some? && Truthy(f.cnnModel) && s.cnnModel2.None?
    && s.defaultBlob == !s.compileModel
    && (s.compileModel ==> s.shaves.Some? && s.cmxSlices.Some? && s.nnEngines.Some?)
  }

  // ---------------------------------------------------------------------
  // __configure (lines 68-122)
  // ---------------------------------------------------------------------

  /** Lines 116-117: a count rounded down to an even number, 6 when none is given. */
  function RoundDownEven(v: Option<int>): (r: int)
    ensures r % 2 == 0
    ensures v.None? ==> r == 6
    ensures v.Some? ==> v.value - 1 <= r <= v.value
    ensures v.Some? && v.value % 2 == 0 ==> r == v.value
  {
    if v.None? then 6 else v.value - v.value % 2
  }

  /** Lines 72-79: the command file; developer debugging loads none. */
  function CommandFile(forceUsb2: bool, devDebug: bool, paths: ResourcePaths): string
  {
    if devDebug then "" else if forceUsb2 then paths.deviceUsb2Cmd else paths.deviceCmd
  }

  /** Line 114: running the network on both cameras with no engine count given. */
  predicate BothCameras(f: Fixed, s: ModelState)
  {
    f.cnnCamera == "left_right" && s.nnEngines.None?
  }

  /** The blob and its configuration for the model, when a model is named. */
  function ModelFilesFor(f: Fixed, paths: ResourcePaths): Option<(string, string)>
  {
    if Truthy(f.cnnModel) then Some(ModelFiles.GetModelFiles(paths.nnResource, !f.disableDepth, f.cnnModel.value)) else None
  }

  /** The configuration after the model files are known to exist (lines 93-122). */
  function Configured2(f: Fixed, s: ModelState, fs: FileSystem, paths: ResourcePaths, blobFile: string, blobFileConfig: string): ModelState
  {
    var both := BothCameras(f, s);
    var compile := both || s.compileModel;
    ModelState(
      if both then Some(RoundDownEven(s.shaves)) else s.shaves,
      if both then Some(RoundDownEven(s.cmxSlices)) else s.cmxSlices,
      if both then Some(2) else s.nnEngines,
      compile,
      !compile,
      CommandFile(f.forceUsb2, f.devDebug, paths),
      !f.disableDepth,
      None,
      Some(blobFile),
      Some(blobFileConfig),
      "",
      "",
      if blobFileConfig in fs.labelTables then Some(fs.labelTables[blobFileConfig]) else None)
  }

  /**
   * Lines 83-92.  A falsy model name leaves the blob unassigned, so reading
   * it raises AttributeError; a missing blob or configuration file raises
   * FileNotFoundError.
   */
  function ModelFilesCheck(f: Fixed, s: ModelState, fs: FileSystem, paths: ResourcePaths): Result<(string, string), Exc>
  {
    var files := ModelFilesFor(f, paths);
    var blobFile := if files.Some? then Some(files.value.0) else s.blobFile;
    var blobFileConfig := if files.Some? then Some(files.value.1) else s.blobFileConfig;
    if blobFile.None? then Err(AttributeError)
    else if blobFile.value !in fs.existing then Err(FileNotFoundError)
    else if blobFileConfig.None? then Err(AttributeError)
    else if blobFileConfig.value !in fs.existing then Err(FileNotFoundError)
    else Ok((blobFile.value, blobFileConfig.value))
  }

  /** Lines 68-122: the model files are checked, then the rest of the configuration follows. */
  function ConfigureSpec(f: Fixed, s: ModelState, fs: FileSystem, paths: ResourcePaths): Result<ModelState, Exc>
  {
    var files :- ModelFilesCheck(f, s, fs, paths);
    Ok(Configured2(f, s, fs, paths, files.0, files.1))
  }

  /** Configuration of a fresh object fails exactly when no model is named or one of its two files is missing. */
  lemma ConfigureErrors(f: Fixed, s: ModelState, fs: FileSystem, paths: ResourcePaths)
    requires WellFormed(s)
    ensures var r := ConfigureSpec(f, s, fs, paths);
      && (r.Err? && r.error == AttributeError <==> !Truthy(f.cnnModel))
      && (r.Err? <==>
            (|| !Truthy(f.cnnModel)
             || ModelFiles.GetModelFiles(paths.nnResource, !f.disableDepth, f.cnnModel.value).0 !in fs.existing
             || ModelFiles.GetModelFiles(paths.nnResource, !f.disableDepth, f.cnnModel.value).1 !in fs.existing))
      && (r.Err? ==> r.error == AttributeError || r.error == FileNotFoundError)
  {
  }

  /**
   * On success: the command file follows the USB and debug flags, distances
   * are computed unless depth is disabled, the blob and its configuration
   * are the model's files and exist, the labels come from that configuration
   * when it has them, and the second model stays unused.
   */
  lemma ConfigureFiles(f: Fixed, s: ModelState, fs: FileSystem, paths: ResourcePaths)
    requires ConfigureSpec(f, s, fs, paths).Ok?
    ensures var c := ConfigureSpec(f, s, fs, paths).value;
      && (f.devDebug ==> c.cmdFile == "")
      && (!f.devDebug ==> c.cmdFile == if f.forceUsb2 then paths.deviceUsb2Cmd else paths.deviceCmd)
      && c.calcDistToBb == !f.disableDepth
      && c.blobFile.Some? && c.blobFile.value in fs.existing
      && c.blobFileConfig.Some? && c.blobFileConfig.value in fs.existing
      && (Truthy(f.cnnModel) ==> (c.blobFile.value, c.blobFileConfig.value) == ModelFiles.GetModelFiles(paths.nnResource, c.calcDistToBb, f.cnnModel.value))
      && (c.labels.Some? <==> c.blobFileConfig.value in fs.labelTables)
      && (c.labels.Some? ==> c.labels.value == fs.labelTables[c.blobFileConfig.value])
      && c.cnnModel2.None? && c.blobFile2 == "" && c.blobFileConfig2 == ""
  {
  }

  /**
   * On success: running on both cameras without an engine count allocates
   * two engines with even shave and slice counts and forces compilation;
   * otherwise the counts are untouched.  Either way the default blob is
   * used exactly when nothing is compiled.
   */
  lemma ConfigureEngines(f: Fixed, s: ModelState, fs: FileSystem, paths: ResourcePaths)
    requires ConfigureSpec(f, s, fs, paths).Ok?
    ensures var c := ConfigureSpec(f, s, fs, paths).value;
      && (BothCameras(f, s) ==>
            && c.nnEngines == Some(2) && c.compileModel
            && c.shaves.Some? && c.shaves.value % 2 == 0 && c.cmxSlices.Some? && c.cmxSlices.value % 2 == 0
            && (s.shaves.None? ==> c.shaves == Some(6)) && (s.cmxSlices.None? ==> c.cmxSlices == Some(6))
            && (s.shaves.Some? ==> s.shaves.value - 1 <= c.shaves.value <= s.shaves.value)
            && (s.cmxSlices.Some? ==> s.cmxSlices.value - 1 <= c.cmxSlices.value <= s.cmxSlices.value))
      && (!BothCameras(f, s) ==>
            c.nnEngines == s.nnEngines && c.shaves == s.shaves && c.cmxSlices == s.cmxSlices && c.compileModel == s.compileModel)
      && c.defaultBlob == !c.compileModel
  {
  }

  /** A successful configuration of a fresh object is ready for compiling. */
  lemma ConfigureEstablishes(f: Fixed, s: ModelState, fs: FileSystem, paths: ResourcePaths)
    requires WellFormed(s) && ConfigureSpec(f, s, fs, paths).Ok?
    ensures Configured(f, ConfigureSpec(f, s, fs, paths).value)
  {
  }

  // ---------------------------------------------------------------------
  // __compile_model (lines 229-276)
  // ---------------------------------------------------------------------

  /** Lines 232-242: the counts each engine gets; two engines need even counts, which they split. */
  function PerEngineCounts(shaves: int, cmxSlices: int, engines: int): (r: Result<(int, int), Exc>)
    ensures r.Err? <==> engines == 2 && (shaves % 2 == 1 || cmxSlices % 2 == 1)
    ensures r.Err? ==> r.error == ValueError
    ensures r.Ok? && engines == 2 ==> 2 * r.value.0 == shaves && 2 * r.value.1 == cmxSlices
    ensures engines != 2 ==> r == Ok((shaves, cmxSlices))
  {
    if engines == 2 then
      if shaves % 2 == 1 || cmxSlices % 2 == 1 then Err(ValueError) else Ok((shaves / 2, cmxSlices / 2))
    else
      Ok((shaves, cmxSlices))
  }

  /** Line 243: the compiled blob's file name. */
  function CompiledBlobName(blobFile: string, shaves: int, cmxSlices: int, engines: int): string
  {
    "b" + blobFile + ".sh" + IntToString(shaves) + "cmx" + IntToString(cmxSlices) + "NCE" + IntToString(engines)
  }

  function StripSuffix(s: string, suffix: string): (r: Option<string>)
    ensures r.Some? ==> r.value + suffix == s
  {
    if |suffix| <= |s| && s[|s| - |suffix|..] == suffix then
      assert s[..|s| - |suffix|] + suffix == s;
      Some(s[..|s| - |suffix|])
    else
      None
  }

  function StripPrefix(s: string, prefix: string): (r: Option<string>)
    ensures r.Some? ==> prefix + r.value == s
  {
    if |prefix| <= |s| && s[..|prefix|] == prefix then
      assert prefix + s[|prefix|..] == s;
      Some(s[|prefix|..])
    else
      None
  }

  /** Reads a compiled blob name back into the blob and the three counts. */
  function ParseCompiledBlobName(name: string): Option<(string, int, int, int)>
  {
    var r1 :- SplitTrailingInt(name);
    var q1 :- StripSuffix(r1.0, "NCE");
    var r2 :- SplitTrailingInt(q1);
    var q2 :- StripSuffix(r2.0, "cmx");
    var r3 :- SplitTrailingInt(q2);
    var q3 :- StripSuffix(r3.0, ".sh");
    var blob :- StripPrefix(q3, "b");
    Some((blob, r3.1, r2.1, r1.1))
  }

  /** One step of the parse: an integer after a marker is split off, and the marker removed. */
  lemma SplitAfterMarker(q: string, marker: string, i: int)
    requires |marker| > 0 && !IsDigit(marker[|marker| - 1]) && marker[|marker| - 1] != '-'
    ensures SplitTrailingInt(q + marker + IntToString(i)) == Some((q + marker, i))
    ensures StripSuffix(q + marker, marker) == Some(q)
  {
    var p := q + marker;
    assert p[|p| - 1] == marker[|marker| - 1];
    SplitTrailingIntToString(p, i);
    assert p[|p| - |marker|..] == marker;
    assert p[..|p| - |marker|] == q;
  }

  /** The counts and the blob name can be read back from a compiled blob name. */
  lemma CompiledBlobNameRoundTrip(blobFile: string, shaves: int, cmxSlices: int, engines: int)
    ensures ParseCompiledBlobName(CompiledBlobName(blobFile, shaves, cmxSlices, engines)) == Some((blobFile, shaves, cmxSlices, engines))
  {
    var q3 := "b" + blobFile;
    var q2 := q3 + ".sh" + IntToString(shaves);
    var q1 := q2 + "cmx" + IntToString(cmxSlices);
    assert CompiledBlobName(blobFile, shaves, cmxSlices, engines) == q1 + "NCE" + IntToString(engines);
    SplitAfterMarker(q1, "NCE", engines);
    SplitAfterMarker(q2, "cmx", cmxSlices);
    SplitAfterMarker(q3, ".sh", shaves);
    assert q3[..1] == "b" && q3[1..] == blobFile;
  }

  /** Different blobs or counts never share a compiled file name. */
  lemma CompiledBlobNameInjective(b1: string, s1: int, c1: int, e1: int, b2: string, s2: int, c2: int, e2: int)
    requires CompiledBlobName(b1, s1, c1, e1) == CompiledBlobName(b2, s2, c2, e2)
    ensures b1 == b2 && s1 == s2 && c1 == c2 && e1 == e2
  {
    CompiledBlobNameRoundTrip(b1, s1, c1, e1);
    CompiledBlobNameRoundTrip(b2, s2, c2, e2);
  }

  /** Lines 273-276: the default blob runs with 7 shaves, 7 slices and one engine. */
  function DefaultBlobFallback(s: ModelState): ModelState
  {
    if s.defaultBlob then s.(shaves := Some(7), cmxSlices := Some(7), nnEngines := Some(1)) else s
  }

  /** The compiled blob's name for configured settings. */
  function OutBlob(s: ModelState): string
    requires s.blobFile.Some? && s.shaves.Some? && s.cmxSlices.Some? && s.nnEngines.Some?
  {
    CompiledBlobName(s.blobFile.value, s.shaves.value, s.cmxSlices.value, s.nnEngines.value)
  }

  /**
   * Lines 229-276 with the compiler as an argument: a cached compiled blob
   * is used as is; otherwise it is downloaded, and a non-zero exit code
   * falls back to the default blob.
   */
  function CompileSpec(f: Fixed, s: ModelState, fs: FileSystem, download: Downloader): Result<ModelState, Exc>
    requires Configured(f, s)
  {
    if !s.compileModel then
      Ok(DefaultBlobFallback(s))
    else
      var counts :- PerEngineCounts(s.shaves.value, s.cmxSlices.value, s.nnEngines.value);
      var outblob := OutBlob(s);
      var compiled :=
        if outblob in fs.existing then s.(defaultBlob := false, blobFile := Some(outblob))
        else if download(f.cnnModel.value, counts.0, counts.1, s.nnEngines.value, outblob) != 0 then s.(defaultBlob := true)
        else s.(defaultBlob := false, blobFile := Some(outblob));
      Ok(DefaultBlobFallback(compiled))
  }

  /**
   * Lines 229-276 as written: before downloading, line 246 formats
   * `config.NN_engines`, a name the module never defines, so every
   * uncached compilation raises NameError.
   */
  function CompileAsWritten(f: Fixed, s: ModelState, fs: FileSystem): Result<ModelState, Exc>
    requires Configured(f, s)
  {
    if !s.compileModel then
      Ok(DefaultBlobFallback(s))
    else
      var counts :- PerEngineCounts(s.shaves.value, s.cmxSlices.value, s.nnEngines.value);
      if OutBlob(s) in fs.existing then Ok(DefaultBlobFallback(s.(defaultBlob := false, blobFile := Some(OutBlob(s)))))
      else Err(NameError)
  }

  /** As written, an uncached blob raises NameError where the intended code downloads it; a cached one behaves as intended. */
  lemma CompileAsWrittenNeverDownloads(f: Fixed, s: ModelState, fs: FileSystem, download: Downloader)
    requires Configured(f, s) && s.compileModel
    requires PerEngineCounts(s.shaves.value, s.cmxSlices.value, s.nnEngines.value).Ok?
    ensures OutBlob(s) !in fs.existing ==> CompileAsWritten(f, s, fs) == Err(NameError) && CompileSpec(f, s, fs, download).Ok?
    ensures OutBlob(s) in fs.existing ==> CompileAsWritten(f, s, fs) == CompileSpec(f, s, fs, download)
  {
  }

  /** Two engines with an odd shave or slice count stop the compilation with ValueError; nothing else fails. */
  lemma CompileOddCounts(f: Fixed, s: ModelState, fs: FileSystem, download: Downloader)
    requires Configured(f, s)
    ensures CompileSpec(f, s, fs, download).Err? <==>
      s.compileModel && s.nnEngines == Some(2) && (s.shaves.value % 2 == 1 || s.cmxSlices.value % 2 == 1)
    ensures CompileSpec(f, s, fs, download).Err? ==> CompileSpec(f, s, fs, download).error == ValueError
  {
  }

  /** On the default blob the counts are 7, 7 and 1 and the blob is unchanged; it is used whenever compilation is off. */
  lemma CompileDefaultBlob(f: Fixed, s: ModelState, fs: FileSystem, download: Downloader)
    requires Configured(f, s) && CompileSpec(f, s, fs, download).Ok?
    ensures var c := CompileSpec(f, s, fs, download).value;
      && (c.defaultBlob ==> c.shaves == Some(7) && c.cmxSlices == Some(7) && c.nnEngines == Some(1) && c.blobFile == s.blobFile)
      && (!s.compileModel ==> c.defaultBlob)
      && c.blobFileConfig == s.blobFileConfig && c.labels == s.labels && c.compileModel == s.compileModel
  {
  }

  /** Off the default blob, the blob is the compiled name for the configured counts, which are kept. */
  lemma CompileCompiledBlob(f: Fixed, s: ModelState, fs: FileSystem, download: Downloader)
    requires Configured(f, s) && CompileSpec(f, s, fs, download).Ok?
    requires !CompileSpec(f, s, fs, download).value.defaultBlob
    ensures var c := CompileSpec(f, s, fs, download).value;
      && s.compileModel
      && c.blobFile == Some(OutBlob(s))
      && c.shaves == s.shaves && c.cmxSlices == s.cmxSlices && c.nnEngines == s.nnEngines
  {
  }

  /** A cached compiled blob is used without consulting the compiler. */
  lemma CompileCachedIgnoresDownload(f: Fixed, s: ModelState, fs: FileSystem, d1: Downloader, d2: Downloader)
    requires Configured(f, s) && s.compileModel && OutBlob(s) in fs.existing
    ensures CompileSpec(f, s, fs, d1) == CompileSpec(f, s, fs, d2)
  {
  }

  // ---------------------------------------------------------------------
  // __get_board_config and __load_config (lines 125-134, 214-226)
  // ---------------------------------------------------------------------

  /** Where a board profile is read from: none given, a file found, or the fallback path that was missing. */
  datatype BoardLookup = NoBoard | BoardFile(path: string) | BoardNotFound(tried: string)

  /** Line 219: the upper-cased board name with a `.json` suffix, in the boards directory. */
  function BoardFallbackPath(board: string, boardsDir: string): string
  {
    Paths.Join(boardsDir, Paths.WithJsonSuffix(Paths.AsciiUpper(board)))
  }

  function GetBoardConfig(board: Option<string>, boardsDir: string, existing: set<string>): BoardLookup
  {
    if !Truthy(board) then NoBoard
    else if board.value in existing then BoardFile(board.value)
    else if BoardFallbackPath(board.value, boardsDir) in existing then BoardFile(BoardFallbackPath(board.value, boardsDir))
    else BoardNotFound(BoardFallbackPath(board.value, boardsDir))
  }

  /**
   * A profile is read exactly when a board is named and either its path or
   * the fallback exists, and always from an existing file, the named path
   * taking precedence.  The fallback is a `.json` file in the boards
   * directory.
   */
  lemma BoardConfigLookup(board: Option<string>, boardsDir: string, existing: set<string>)
    ensures var r := GetBoardConfig(board, boardsDir, existing);
      && (r.NoBoard? <==> !Truthy(board))
      && (r.BoardFile? ==> r.path in existing)
      && (r.BoardFile? <==> Truthy(board) && (board.value in existing || BoardFallbackPath(board.value, boardsDir) in existing))
      && (Truthy(board) && board.value in existing ==> r == BoardFile(board.value))
      && (r.BoardNotFound? ==> r.tried !in existing)
  {
  }

  lemma BoardFallbackShape(board: string, boardsDir: string)
    requires !Paths.IsAbsolute(Paths.AsciiUpper(board))
    ensures var p := BoardFallbackPath(board, boardsDir);
      && |p| >= |boardsDir| + 5
      && p[..|boardsDir|] == boardsDir
      && p[|p| - 5..] == ".json"
  {
    var upper := Paths.AsciiUpper(board);
    var name := Paths.WithJsonSuffix(upper);
    Paths.WithJsonSuffixShape(upper);
    if |name| > 5 {
      assert name[0] == name[..|name| - 5][0] == upper[0];
    }
    assert !Paths.IsAbsolute(name);
    var p := BoardFallbackPath(board, boardsDir);
    assert p == boardsDir + Paths.Separator(boardsDir) + name;
  }

  function Overwrites(o: Option<string>): seq<Layer>
  {
    if o.Some? then [OverwriteLayer(o.value)] else []
  }

  /** Lines 125-134: the default layer, then the board profile, then the overwrite when one is given. */
  function LoadConfigSpec(f: Fixed, paths: ResourcePaths, existing: set<string>): Result<seq<Layer>, Exc>
  {
    match GetBoardConfig(f.board, paths.boardsDir, existing)
    case BoardNotFound(_) => Err(BoardConfigError)
    case NoBoard => Ok([DefaultLayer, BoardLayer(None)] + Overwrites(f.configOverwrite))
    case BoardFile(p) => Ok([DefaultLayer, BoardLayer(Some(p))] + Overwrites(f.configOverwrite))
  }

  /** The board profile is merged over the defaults, and the overwrite, when given, last of all. */
  lemma LoadConfigLayers(f: Fixed, paths: ResourcePaths, existing: set<string>)
    ensures var r := LoadConfigSpec(f, paths, existing);
      && (r.Err? <==> GetBoardConfig(f.board, paths.boardsDir, existing).BoardNotFound?)
      && (r.Err? ==> r.error == BoardConfigError)
      && (r.Ok? ==>
            && |r.value| >= 2 && r.value[0] == DefaultLayer && r.value[1].BoardLayer?
            && (r.value[1].path.Some? <==> Truthy(f.board))
            && (|r.value| == 3 <==> f.configOverwrite.Some?)
            && (f.configOverwrite.Some? ==> r.value[2] == OverwriteLayer(f.configOverwrite.value)))
  {
  }

  // ---------------------------------------------------------------------
  // The `video` stream (lines 59-66, 278-289)
  // ---------------------------------------------------------------------

  const Video: StreamEntry := StreamName("video")

  /** `streams.count('video')`: only the bare name compares equal. */
  function CountVideo(xs: seq<StreamEntry>): nat
  {
    if xs == [] then 0 else (if xs[0] == Video then 1 else 0) + CountVideo(xs[1..])
  }

  /** The stream list without its `video` entries: what the two methods must leave alone. */
  function Others(xs: seq<StreamEntry>): seq<StreamEntry>
  {
    if xs == [] then [] else (if xs[0] == Video then [] else [xs[0]]) + Others(xs[1..])
  }

  /** `list.remove('video')` on a list that holds it: the first occurrence goes. */
  function RemoveFirstVideo(xs: seq<StreamEntry>): seq<StreamEntry>
  {
    if xs == [] then [] else if xs[0] == Video then xs[1..] else [xs[0]] + RemoveFirstVideo(xs[1..])
  }

  function AddVideo(xs: seq<StreamEntry>): seq<StreamEntry>
  {
    if CountVideo(xs) == 0 then xs + [Video] else xs
  }

  function RemoveVideo(xs: seq<StreamEntry>): seq<StreamEntry>
  {
    if CountVideo(xs) > 0 then RemoveFirstVideo(xs) else xs
  }

  lemma {:induction false} AppendVideo(xs: seq<StreamEntry>)
    ensures CountVideo(xs + [Video]) == CountVideo(xs) + 1
    ensures Others(xs + [Video]) == Others(xs)
  {
    if xs != [] {
      assert (xs + [Video])[1..] == xs[1..] + [Video];
      AppendVideo(xs[1..]);
    }
  }

  lemma {:induction false} RemoveFirstVideoCounts(xs: seq<StreamEntry>)
    requires CountVideo(xs) > 0
    ensures CountVideo(RemoveFirstVideo(xs)) == CountVideo(xs) - 1
    ensures Others(RemoveFirstVideo(xs)) == Others(xs)
    ensures |RemoveFirstVideo(xs)| == |xs| - 1
  {
    if xs[0] != Video {
      RemoveFirstVideoCounts(xs[1..]);
      var r := RemoveFirstVideo(xs[1..]);
      assert ([xs[0]] + r)[1..] == r;
    }
  }

  /** Adding keeps every other entry, leaves at least one `video`, appends only when there was none, and is idempotent. */
  lemma AddVideoSpec(xs: seq<StreamEntry>)
    ensures CountVideo(AddVideo(xs)) == if CountVideo(xs) == 0 then 1 else CountVideo(xs)
    ensures Others(AddVideo(xs)) == Others(xs)
    ensures AddVideo(xs)[..|xs|] == xs
    ensures AddVideo(AddVideo(xs)) == AddVideo(xs)
  {
    AppendVideo(xs);
  }

  /** Removing takes away one `video` when there is one, keeps every other entry, and done twice is done once while at most one was present. */
  lemma RemoveVideoSpec(xs: seq<StreamEntry>)
    ensures CountVideo(RemoveVideo(xs)) == if CountVideo(xs) == 0 then 0 else CountVideo(xs) - 1
    ensures Others(RemoveVideo(xs)) == Others(xs)
    ensures |RemoveVideo(xs)| == if CountVideo(xs) == 0 then |xs| else |xs| - 1
    ensures CountVideo(xs) <= 1 ==> RemoveVideo(RemoveVideo(xs)) == RemoveVideo(xs)
  {
    if CountVideo(xs) > 0 {
      RemoveFirstVideoCounts(xs);
    }
  }

  /** `record_video`. */
  predicate RecordVideo(video: Option<string>) { video.Some? }

  /** Lines 278-289: with a video file requested, the stream is added when the file opens and removed when it does not. */
  function ConfigRecordingSpec(video: Option<string>, streams: seq<StreamEntry>, canOpen: bool): seq<StreamEntry>
  {
    if !RecordVideo(video) then streams
    else if canOpen then AddVideo(streams)
    else RemoveVideo(streams)
  }

  /** Recording leaves a `video` stream when the file opens and none (for a list with at most one) when it does not; other streams stay. */
  lemma ConfigRecordingVideo(video: Option<string>, streams: seq<StreamEntry>, canOpen: bool)
    ensures var r := ConfigRecordingSpec(video, streams, canOpen);
      && (RecordVideo(video) && canOpen ==> CountVideo(r) >= 1)
      && (RecordVideo(video) && !canOpen && CountVideo(streams) <= 1 ==> CountVideo(r) == 0)
      && (!RecordVideo(video) ==> r == streams)
      && Others(r) == Others(streams)
  {
    AddVideoSpec(streams);
    RemoveVideoSpec(streams);
  }

  // ---------------------------------------------------------------------
  // stream_names and enable_object_tracker (lines 48, 55-57)
  // ---------------------------------------------------------------------

  /** Line 48: a bare name as is, a dictionary's `name`, KeyError when it has none. */
  function StreamNames(xs: seq<StreamEntry>): (r: Result<seq<string>, Exc>)
    ensures r.Ok? <==> forall i :: 0 <= i < |xs| && xs[i].StreamSpec? ==> "name" in xs[i].fields
    ensures r.Err? ==> r.error == KeyError
    ensures r.Ok? ==> |r.value| == |xs|
    ensures r.Ok? ==> forall i :: 0 <= i < |xs| ==> r.value[i] == NameOf(xs[i])
  {
    if xs == [] then
      Ok([])
    else
      var head :- if xs[0].StreamName? then Ok(xs[0].name) else Lookup(xs[0].fields, "name");
      var rest :- StreamNames(xs[1..]);
      assert forall i :: 1 <= i < |xs| ==> xs[i] == xs[1..][i - 1];
      Ok([head] + rest)
  }

  function NameOf(e: StreamEntry): string
    requires e.StreamSpec? ==> "name" in e.fields
  {
    if e.StreamName? then e.name else e.fields["name"]
  }

  /** `enable_object_tracker`. */
  predicate EnableObjectTracker(streamNames: seq<string>) { "object_tracker" in streamNames }

  /** The tracker is enabled exactly when some stream, bare or described, is named `object_tracker`. */
  lemma ObjectTrackerListed(xs: seq<StreamEntry>)
    requires StreamNames(xs).Ok?
    ensures EnableObjectTracker(StreamNames(xs).value) <==>
      exists i :: 0 <= i < |xs| && NameOf(xs[i]) == "object_tracker"
  {
    var names := StreamNames(xs).value;
    if EnableObjectTracker(names) {
      var i :| 0 <= i < |names| && names[i] == "object_tracker";
      assert NameOf(xs[i]) == "object_tracker";
    }
  }

  // ---------------------------------------------------------------------
  // The object
  // ---------------------------------------------------------------------

  class DepthAIConfig {
    const cnnCamera: string
    const forceUsb2: bool
    const devDebug: bool
    const disableDepth: bool
    const cnnModel: Option<string>
    const board: Option<string>
    const configOverwrite: Option<string>
    const streamList: seq<StreamEntry>
    const video: Option<string>

    var shaves: Option<int>
    var cmxSlices: Option<int>
    var nnEngines: Option<int>
    var compileModel: bool
    var defaultBlob: bool
    var cmdFile: string
    var calcDistToBb: bool
    var cnnModel2: Option<string>
    var blobFile: Option<string>
    var blobFileConfig: Option<string>
    var blobFile2: string
    var blobFileConfig2: string
    var labels: Option<seq<string>>
    /** `config['streams']`. */
    var configStreams: seq<StreamEntry>
    /** The layers merged into `config`, in merge order. */
    var layers: seq<Layer>
    var streamNames: seq<string>

    function Arguments(): Fixed
    {
      Fixed(cnnCamera, forceUsb2, devDebug, disableDepth, cnnModel, board, configOverwrite, streamList, video)
    }

    function Model(): ModelState
      reads this
    {
      ModelState(
        shaves, cmxSlices, nnEngines, compileModel, defaultBlob, cmdFile, calcDistToBb,
        cnnModel2, blobFile, blobFileConfig, blobFile2, blobFileConfig2, labels)
    }

    /** Lines 15-42. */
    constructor (a: Args)
      ensures Arguments() == a.fixed && Model() == InitialState(a)
      ensures configStreams == [] && layers == [] && streamNames == []
    {
      cnnCamera := a.fixed.cnnCamera;
      forceUsb2 := a.fixed.forceUsb2;
      devDebug := a.fixed.devDebug;
      disableDepth := a.fixed.disableDepth;
      cnnModel := a.fixed.cnnModel;
      board := a.fixed.board;
      configOverwrite := a.fixed.configOverwrite;
      streamList := a.fixed.streamList;
      video := a.fixed.video;
      shaves := a.shaves;
      cmxSlices := a.cmxSlices;
      nnEngines := a.nnEngines;
      compileModel := a.shaves.Some? && a.cmxSlices.Some? && TruthyInt(a.nnEngines);
      defaultBlob := false;
      cmdFile := "";
      calcDistToBb := false;
      cnnModel2 := a.cnnModel2;
      blobFile := None;
      blobFileConfig := None;
      blobFile2 := "";
      blobFileConfig2 := "";
      labels := None;
      configStreams := [];
      layers := [];
      streamNames := [];
    }

    /** Lines 72-82: the command file and whether distances are computed. */
    method SelectCommandFile(paths: ResourcePaths)
      modifies this
      ensures Model() == old(Model()).(cmdFile := CommandFile(forceUsb2, devDebug, paths), calcDistToBb := !disableDepth)
      ensures configStreams == old(configStreams) && layers == old(layers) && streamNames == old(streamNames)
    {
      if forceUsb2 {
        cmdFile := paths.deviceUsb2Cmd;
      } else {
        cmdFile := paths.deviceCmd;
      }
      if devDebug {
        cmdFile := "";
      }
      calcDistToBb := true;
      if disableDepth {
        calcDistToBb := false;
      }
    }

    /** Lines 114-122: engine allocation for both cameras, then the default-blob flag. */
    method AllocateEngines()
      modifies this
      ensures var s := old(Model());
        var both := BothCameras(Arguments(), s);
        var compile := both || s.compileModel;
        Model() == s.(
          shaves := if both then Some(RoundDownEven(s.shaves)) else s.shaves,
          cmxSlices := if both then Some(RoundDownEven(s.cmxSlices)) else s.cmxSlices,
          nnEngines := if both then Some(2) else s.nnEngines,
          compileModel := compile,
          defaultBlob := !compile)
      ensures configStreams == old(configStreams) && layers == old(layers) && streamNames == old(streamNames)
    {
      if cnnCamera == "left_right" && nnEngines.None? {
        nnEngines := Some(2);
        shaves := Some(RoundDownEven(shaves));
        cmxSlices := Some(RoundDownEven(cmxSlices));
        compileModel := true;
      }
      defaultBlob := true;
      if compileModel {
        defaultBlob := false;
      }
    }

    /** Lines 83-92: the model's files are located and must exist. */
    method LocateModelFiles(fs: FileSystem, paths: ResourcePaths) returns (o: Outcome<Exc>)
      requires calcDistToBb == !disableDepth
      modifies this
      ensures var r := ModelFilesCheck(Arguments(), old(Model()), fs, paths);
        && (r.Ok? ==> o == Pass && Model() == old(Model()).(blobFile := Some(r.value.0), blobFileConfig := Some(r.value.1)))
        && (r.Err? ==> o == Fail(r.error))
      ensures configStreams == old(configStreams) && layers == old(layers) && streamNames == old(streamNames)
    {
      if Truthy(cnnModel) {
        var files := ModelFiles.GetModelFiles(paths.nnResource, calcDistToBb, cnnModel.value);
        blobFile, blobFileConfig := Some(files.0), Some(files.1);
      }
      if blobFile.None? {
        return Fail(AttributeError);
      }
      if blobFile.value !in fs.existing {
        return Fail(FileNotFoundError);
      }
      if blobFileConfig.None? {
        return Fail(AttributeError);
      }
      if blobFileConfig.value !in fs.existing {
        return Fail(FileNotFoundError);
      }
      o := Pass;
    }

    /** Lines 93-112: the second model is cleared, and the labels are read from the configuration file. */
    method LoadLabels(fs: FileSystem)
      requires blobFileConfig.Some?
      modifies this
      ensures var table := old(blobFileConfig.value);
        Model() == old(Model()).(
          cnnModel2 := None, blobFile2 := "", blobFileConfig2 := "",
          labels := if table in fs.labelTables then Some(fs.labelTables[table]) else None)
      ensures configStreams == old(configStreams) && layers == old(layers) && streamNames == old(streamNames)
    {
      blobFile2 := "";
      blobFileConfig2 := "";
      cnnModel2 := None;
      if blobFileConfig.value in fs.labelTables {
        labels := Some(fs.labelTables[blobFileConfig.value]);
      } else {
        labels := None;
      }
    }

    /** Lines 68-122, one attribute at a time. */
    method Configure(fs: FileSystem, paths: ResourcePaths) returns (o: Outcome<Exc>)
      modifies this
      ensures var r := ConfigureSpec(Arguments(), old(Model()), fs, paths);
        && (r.Ok? ==> o == Pass && Model() == r.value)
        && (r.Err? ==> o == Fail(r.error))
      ensures configStreams == old(configStreams) && layers == old(layers) && streamNames == old(streamNames)
    {
      ghost var s0 := Model();
      SelectCommandFile(paths);
      ghost var s1 := Model();
      assert ModelFilesCheck(Arguments(), s1, fs, paths) == ModelFilesCheck(Arguments(), s0, fs, paths);
      o := LocateModelFiles(fs, paths);
      if o.Fail? {
        return;
      }
      LoadLabels(fs);
      AllocateEngines();
    }

    /** Lines 229-276, with the compiler as an argument. */
    method CompileModel(fs: FileSystem, download: Downloader) returns (o: Outcome<Exc>)
      requires Configured(Arguments(), Model())
      modifies this
      ensures var r := CompileSpec(Arguments(), old(Model()), fs, download);
        && (r.Ok? ==> o == Pass && Model() == r.value)
        && (r.Err? ==> o == Fail(r.error))
      ensures configStreams == old(configStreams) && layers == old(layers) && streamNames == old(streamNames)
    {
      if compileModel {
        defaultBlob := false;
        var counts := PerEngineCounts(shaves.value, cmxSlices.value, nnEngines.value);
        if counts.Err? {
          return Fail(counts.error);
        }
        var outblob := CompiledBlobName(blobFile.value, shaves.value, cmxSlices.value, nnEngines.value);
        if outblob !in fs.existing {
          var ret := download(cnnModel.value, counts.value.0, counts.value.1, nnEngines.value, outblob);
          if ret != 0 {
            defaultBlob := true;
          } else {
            blobFile := Some(outblob);
          }
        } else {
          blobFile := Some(outblob);
        }
      }
      if defaultBlob {
        shaves := Some(7);
        cmxSlices := Some(7);
        nnEngines := Some(1);
      }
      o := Pass;
    }

    /** Lines 125-134; `config['streams']` starts as the stream list. */
    method LoadConfig(paths: ResourcePaths, existing: set<string>) returns (o: Outcome<Exc>)
      modifies this
      ensures var r := LoadConfigSpec(Arguments(), paths, existing);
        && (r.Ok? ==> o == Pass && layers == r.value && configStreams == streamList)
        && (r.Err? ==> o == Fail(r.error))
      ensures Model() == old(Model()) && streamNames == old(streamNames)
    {
      configStreams := streamList;
      layers := [DefaultLayer];
      var found := GetBoardConfig(board, paths.boardsDir, existing);
      if found.BoardNotFound? {
        return Fail(BoardConfigError);
      }
      layers := layers + [BoardLayer(if found.BoardFile? then Some(found.path) else None)];
      if configOverwrite.Some? {
        layers := layers + [OverwriteLayer(configOverwrite.value)];
      }
      o := Pass;
    }

    /** Lines 59-61. */
    method AddVideoStream()
      modifies this
      ensures configStreams == AddVideo(old(configStreams))
      ensures Model() == old(Model()) && layers == old(layers) && streamNames == old(streamNames)
    {
      if CountVideo(configStreams) == 0 {
        configStreams := configStreams + [Video];
      }
    }

    /** Lines 64-66. */
    method RemoveVideoStream()
      modifies this
      ensures configStreams == RemoveVideo(old(configStreams))
      ensures Model() == old(Model()) && layers == old(layers) && streamNames == old(streamNames)
    {
      if CountVideo(configStreams) > 0 {
        configStreams := RemoveFirstVideo(configStreams);
      }
    }

    /** Lines 278-289; whether the video file opens is an argument. */
    method ConfigRecordingFile(canOpen: bool)
      modifies this
      ensures configStreams == ConfigRecordingSpec(video, old(configStreams), canOpen)
      ensures Model() == old(Model()) && layers == old(layers) && streamNames == old(streamNames)
    {
      if video.Some? {
        if canOpen {
          AddVideoStream();
        } else {
          RemoveVideoStream();
        }
      }
    }

    /** Lines 44-48: the set-up the constructor performs after copying the arguments. */
    method Setup(fs: FileSystem, paths: ResourcePaths, download: Downloader, canOpen: bool) returns (o: Outcome<Exc>)
      requires WellFormed(Model())
      modifies this
      ensures var c := ConfigureSpec(Arguments(), old(Model()), fs, paths);
        && (c.Err? ==> o == Fail(c.error))
        && (c.Ok? ==> Configured(Arguments(), c.value))
      ensures var c := ConfigureSpec(Arguments(), old(Model()), fs, paths);
        c.Ok? ==>
          var k := CompileSpec(Arguments(), c.value, fs, download);
          && (k.Err? ==> o == Fail(k.error))
          && (k.Ok? ==>
                var l := LoadConfigSpec(Arguments(), paths, fs.existing);
                && (l.Err? ==> o == Fail(l.error))
                && (l.Ok? ==>
                      var n := StreamNames(streamList);
                      && (n.Err? ==> o == Fail(n.error))
                      && (n.Ok? ==> o == Pass)))
      ensures o.Pass? ==>
        var c := ConfigureSpec(Arguments(), old(Model()), fs, paths);
        && c.Ok? && Configured(Arguments(), c.value)
        && CompileSpec(Arguments(), c.value, fs, download) == Ok(Model())
        && LoadConfigSpec(Arguments(), paths, fs.existing) == Ok(layers)
        && configStreams == ConfigRecordingSpec(video, streamList, canOpen)
        && StreamNames(streamList) == Ok(streamNames)
    {
      ghost var s0 := Model();
      o := Configure(fs, paths);
      if ConfigureSpec(Arguments(), s0, fs, paths).Ok? {
        ConfigureEstablishes(Arguments(), s0, fs, paths);
      }
      if o.Fail? {
        return;
      }
      o := CompileModel(fs, download);
      if o.Fail? {
        return;
      }
      o := LoadConfig(paths, fs.existing);
      if o.Fail? {
        return;
      }
      ConfigRecordingFile(canOpen);
      var names := StreamNames(streamList);
      if names.Err? {
        return Fail(names.error);
      }
      streamNames := names.value;
    }
  }
}
