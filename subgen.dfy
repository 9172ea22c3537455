/**
 * The single-file script subgen.py: it collects audio and video files from
 * its arguments by extension, converts each video to an mp3 with ffmpeg,
 * and runs the WhisperX command line on each audio file, skipping those
 * whose subtitle file is up to date and exiting with status 1 when
 * WhisperX fails.
 */
module Subgen {
  import opened Wrappers
  import opened Seqs
  import opened Text
  import opened Paths
  import opened Files
  import opened Shell
  import Util

  /** The command that runs WhisperX. */
  const BaseCmd: seq<string> := ["whisperx"]

  /** The script's own configuration record. */
  datatype Config = Config(
    files: seq<string>,
    force: bool,
    model: string,
    outputFormat: string,
    device: Option<string>,
    language: Option<string>,
    computeType: Option<string>)

  const AudioExts: seq<string> := [".mp3", ".m4a", ".wav", ".flac", ".aac", ".ogg"]
  const VideoExts: seq<string> := [".mp4", ".mkv", ".avi", ".mov"]

  /** `is_audio_ext`: case-insensitive membership of an extension; no file is looked at. */
  predicate IsAudioExt(ext: string) {
    Lower(ext) in AudioExts
  }

  /** `is_video_ext` */
  predicate IsVideoExt(ext: string) {
    Lower(ext) in VideoExts
  }

  predicate Supported(ext: string) {
    IsAudioExt(ext) || IsVideoExt(ext)
  }

  /** No extension is both. */
  lemma ExtsDisjoint(ext: string)
    ensures !(IsAudioExt(ext) && IsVideoExt(ext))
  {
  }

  /** The script's lists are narrower than those of subgenx/util.py: .opus,
      .flv and .webm are only known to the later program. */
  lemma ExtsNarrower(ext: string)
    ensures IsAudioExt(ext) ==> Lower(ext) in Util.AudioExtensions
    ensures IsVideoExt(ext) ==> Lower(ext) in Util.VideoExtensions
    ensures !Supported(".opus") && !Supported(".flv") && !Supported(".webm")
  {
    assert Lower(".opus") == ".opus";
    assert Lower(".flv") == ".flv";
    assert Lower(".webm") == ".webm";
  }

  /** The ffmpeg command of `convert_to_mp3`. */
  function ConvertCommand(inputPath: string, mp3Path: string): seq<string> {
    ["ffmpeg", "-y", "-i", inputPath, "-vn", "-acodec", "libmp3lame", mp3Path]
  }

  /** The file a supported input is transcribed from: itself when it is
      audio, `base + ".mp3"` when it is a video. */
  function AudioOf(inputPath: string): string {
    if IsAudioExt(Ext(inputPath)) then inputPath else Root(inputPath) + ".mp3"
  }

  /**
   * `convert_to_mp3(input_path)`. An audio file is passed on as it is; a
   * video is converted to `base + ".mp3"` unless that mp3 exists with a
   * strictly later modification time; anything else is a ValueError.
   */
  function ConvertSpec(fs: FileSystem, world: World, inputPath: string): (e: Effect<string>)
    ensures Evolves(fs, e.fs)
    ensures e.result.Ok? ==> e.result.value == AudioOf(inputPath)
    ensures e.result.Err? && e.result.error.Unsupported? <==> !Supported(Ext(inputPath))
  {
    var ext := Ext(inputPath);
    if IsAudioExt(ext) then Effect(Ok(inputPath), fs, [])
    else if IsVideoExt(ext) then
      var mp3Path := Root(inputPath) + ".mp3";
      ExtsDisjoint(ext);
      match UpToDate(fs, mp3Path, inputPath)
      case Err(p) => Effect(Err(Missing(p)), fs, [])
      case Ok(true) => Effect(Ok(mp3Path), fs, [])
      case Ok(false) =>
        var cmd := ConvertCommand(inputPath, mp3Path);
        var code := world.exitCode(cmd);
        EvolvesByWrite(fs, mp3Path);
        if code == 0 then Effect(Ok(mp3Path), Write(fs, mp3Path), [Exec(cmd)])
        else Effect(Err(ToolFailed(cmd, code)), fs, [Exec(cmd)])
    else Effect(Err(Unsupported(inputPath)), fs, [])
  }

  /** An audio file is returned unchanged, with nothing called. */
  lemma ConvertAudio(fs: FileSystem, world: World, inputPath: string)
    requires IsAudioExt(Ext(inputPath))
    ensures ConvertSpec(fs, world, inputPath) == Effect(Ok(inputPath), fs, [])
  {
  }

  /** A video gives its mp3; ffmpeg runs unless the mp3 exists and is strictly newer. */
  lemma ConvertVideo(fs: FileSystem, world: World, inputPath: string)
    requires IsVideoExt(Ext(inputPath))
    ensures var e := ConvertSpec(fs, world, inputPath);
      var mp3 := Root(inputPath) + ".mp3";
      var cmd := ConvertCommand(inputPath, mp3);
      && (e.calls == [] <==> Exists(fs, mp3) && (!Exists(fs, inputPath) || MTime(fs, mp3) > MTime(fs, inputPath)))
      && (e.calls == [] && Exists(fs, inputPath) ==> e == Effect(Ok(mp3), fs, []))
      && (e.calls != [] ==>
            e == if world.exitCode(cmd) == 0 then Effect(Ok(mp3), Write(fs, mp3), [Exec(cmd)])
                 else Effect(Err(ToolFailed(cmd, world.exitCode(cmd))), fs, [Exec(cmd)]))
  {
    ExtsDisjoint(Ext(inputPath));
  }

  /** A WhisperX option, given only when its value is truthy. */
  function Flag(name: string, value: Option<string>): seq<string> {
    if Util.Truthy(value) then [name, value.value] else []
  }

  /** The optional WhisperX options, in this order. */
  function OptionalFlags(options: Config): seq<string> {
    Flag("--language", options.language) + Flag("--device", options.device) + Flag("--compute_type", options.computeType)
  }

  /** The WhisperX command line of `transcribe_with_whisperx`. */
  function WhisperxCommand(options: Config, outputDir: string, audioPath: string): seq<string> {
    BaseCmd + ["--model", options.model] + ["--output_format", options.outputFormat]
    + OptionalFlags(options) + ["--output_dir", outputDir] + [audioPath]
  }

  function Count(b: bool): nat { if b then 1 else 0 }

  /**
   * The command begins with the base command, the model and the format and
   * ends with the output directory and the audio path. In between, each of
   * --language, --device and --compute_type sits at its own slot, after
   * the flags before it that are given, exactly when its value is truthy,
   * followed by that value.
   */
  lemma WhisperxCommandShape(options: Config, outputDir: string, audioPath: string)
    ensures var cmd := WhisperxCommand(options, outputDir, audioPath);
      var b := |BaseCmd|;
      var lang := Count(Util.Truthy(options.language));
      var dev := Count(Util.Truthy(options.device));
      var comp := Count(Util.Truthy(options.computeType));
      && |cmd| == b + 7 + 2 * (lang + dev + comp)
      && cmd[..b] == BaseCmd
      && cmd[b..b + 4] == ["--model", options.model, "--output_format", options.outputFormat]
      && cmd[|cmd| - 3..] == ["--output_dir", outputDir, audioPath]
      && (cmd[b + 4] == "--language" <==> Util.Truthy(options.language))
      && (Util.Truthy(options.language) ==> cmd[b + 5] == options.language.value)
      && (cmd[b + 4 + 2 * lang] == "--device" <==> Util.Truthy(options.device))
      && (Util.Truthy(options.device) ==> cmd[b + 5 + 2 * lang] == options.device.value)
      && (cmd[b + 4 + 2 * (lang + dev)] == "--compute_type" <==> Util.Truthy(options.computeType))
      && (Util.Truthy(options.computeType) ==> cmd[b + 5 + 2 * (lang + dev)] == options.computeType.value)
  {
    var cmd := WhisperxCommand(options, outputDir, audioPath);
    var flags := OptionalFlags(options);
    var b := |BaseCmd|;
    var front := BaseCmd + ["--model", options.model] + ["--output_format", options.outputFormat];
    assert front == BaseCmd + ["--model", options.model, "--output_format", options.outputFormat];
    var back := ["--output_dir", outputDir, audioPath];
    AppendAssoc(front + flags, ["--output_dir", outputDir], [audioPath]);
    assert cmd == front + flags + back;
    assert forall k :: 0 <= k < |flags| ==> cmd[b + 4 + k] == flags[k];
    assert cmd[b + 4 + |flags|] == "--output_dir";
  }

  /** The script's freshness gate and output path, as `transcribe_with_whisperx` computes them. */
  function LegacyOutputDir(world: World, audioPath: string): string {
    Dirname(world.absPath(audioPath))
  }

  function LegacyOutputFile(world: World, options: Config, audioPath: string): string {
    Join(LegacyOutputDir(world, audioPath), Root(Basename(audioPath)) + "." + options.outputFormat)
  }

  /** For a format without '/', the script's subtitle file lies in the
      directory of the audio's absolute path, under the audio's base name
      with the format as its extension. */
  lemma LegacyOutputFileShape(world: World, options: Config, audioPath: string)
    requires '/' !in options.outputFormat
    ensures LegacyOutputFile(world, options, audioPath) ==
      JoinPrefix(LegacyOutputDir(world, audioPath)) + (Root(Basename(audioPath)) + "." + options.outputFormat)
    ensures Basename(LegacyOutputFile(world, options, audioPath)) == Root(Basename(audioPath)) + "." + options.outputFormat
    ensures Ext(LegacyOutputFile(world, options, audioPath)) == Ext(Root(Basename(audioPath)) + "." + options.outputFormat)
  {
    var name := Root(Basename(audioPath)) + "." + options.outputFormat;
    RootOfBasename(audioPath);
    assert '/' !in "." + options.outputFormat;
    assert '/' !in name;
    JoinName(LegacyOutputDir(world, audioPath), name);
  }

  /** How a call of `transcribe_with_whisperx` ends: it goes on (with the
      path it returns when it skipped), or it calls `sys.exit`. */
  datatype Status = Done(skipped: Option<string>) | Exited(code: int)

  /** What the exit status of WhisperX makes of the run: 127 and any other
      non-zero status end the process with status 1; 0 goes on. */
  function AfterWhisperx(code: int): (s: Status)
    ensures s.Exited? <==> code != 0
    ensures s.Exited? ==> s.code == 1
    ensures s.Done? ==> s.skipped.None?
  {
    if code == 127 then Exited(1)
    else if code != 0 then Exited(1)
    else Done(None)
  }

  /**
   * `transcribe_with_whisperx(audio_path, options)`: skip when the subtitle
   * file is newer than the audio and force is off; otherwise run WhisperX,
   * which on success writes the subtitle file.
   */
  function TranscribeSpec(fs: FileSystem, world: World, options: Config, audioPath: string): (e: Effect<Status>)
    ensures Evolves(fs, e.fs)
  {
    var outputDir := LegacyOutputDir(world, audioPath);
    var outputFile := LegacyOutputFile(world, options, audioPath);
    match UpToDate(fs, outputFile, audioPath)
    case Err(p) => Effect(Err(Missing(p)), fs, [])
    case Ok(upToDate) =>
      if upToDate && !options.force then Effect(Ok(Done(Some(outputFile))), fs, [])
      else
        var cmd := WhisperxCommand(options, outputDir, audioPath);
        var code := world.exitCode(cmd);
        EvolvesByWrite(fs, outputFile);
        Effect(Ok(AfterWhisperx(code)), if code == 0 then Write(fs, outputFile) else fs, [Exec(cmd)])
  }

  /** Transcription is skipped, with nothing run and the path returned,
      exactly when the subtitle file exists, is strictly newer than the
      audio, and force is off. */
  lemma SkipIff(fs: FileSystem, world: World, options: Config, audioPath: string)
    ensures var e := TranscribeSpec(fs, world, options, audioPath);
      var out := LegacyOutputFile(world, options, audioPath);
      && (e.result.Ok? && e.result.value.Done? && e.result.value.skipped.Some? <==>
            !options.force && Exists(fs, out) && Exists(fs, audioPath) && MTime(fs, out) > MTime(fs, audioPath))
      && (e.result.Ok? && e.result.value.Done? && e.result.value.skipped.Some? ==>
            e == Effect(Ok(Done(Some(out))), fs, []))
  {
  }

  /** Otherwise WhisperX is run once, and its exit status decides whether the script goes on. */
  lemma WhisperxRun(fs: FileSystem, world: World, options: Config, audioPath: string)
    requires UpToDate(fs, LegacyOutputFile(world, options, audioPath), audioPath) == Ok(false) || options.force
    requires Exists(fs, audioPath)
    ensures var e := TranscribeSpec(fs, world, options, audioPath);
      var cmd := WhisperxCommand(options, LegacyOutputDir(world, audioPath), audioPath);
      && e.calls == [Exec(cmd)]
      && (e.result == Ok(Exited(1)) <==> world.exitCode(cmd) != 0)
      && (e.result == Ok(Done(None)) <==> world.exitCode(cmd) == 0)
  {
  }

  // ---------------------------------------------------------------------
  // Collecting the files.

  /** `add_file`: kept when its own extension is supported. */
  function FileEntry(file: string): seq<string> {
    if Supported(Ext(file)) then [file] else []
  }

  /** `add_folder_files` for the names of one walk step: the extension of
      the bare name decides; the joined path is kept. */
  function StepEntries(root: string, names: seq<string>): (r: seq<string>)
    ensures forall x :: x in r ==> exists j :: 0 <= j < |names| && x == Join(root, names[j]) && Supported(Ext(names[j]))
  {
    if names == [] then []
    else
      var r := StepEntries(root, names[..|names| - 1]);
      var name := names[|names| - 1];
      if Supported(Ext(name)) then r + [Join(root, name)] else r
  }

  function FolderEntries(walk: seq<WalkStep>): (r: seq<string>)
    ensures forall x :: x in r ==>
      exists k, j :: 0 <= k < |walk| && 0 <= j < |walk[k].files| && x == Join(walk[k].root, walk[k].files[j]) && Supported(Ext(walk[k].files[j]))
  {
    if walk == [] then []
    else
      var last := walk[|walk| - 1];
      var r := FolderEntries(walk[..|walk| - 1]);
      assert forall k :: 0 <= k < |walk| - 1 ==> walk[..|walk| - 1][k] == walk[k];
      r + StepEntries(last.root, last.files)
  }

  lemma StepEntriesStep(root: string, names: seq<string>, j: int)
    requires 0 <= j < |names|
    ensures StepEntries(root, names[..j + 1]) ==
      StepEntries(root, names[..j]) + if Supported(Ext(names[j])) then [Join(root, names[j])] else []
  {
    PrefixStep(names, j);
  }

  lemma FolderEntriesStep(walk: seq<WalkStep>, k: int)
    requires 0 <= k < |walk|
    ensures FolderEntries(walk[..k + 1]) == FolderEntries(walk[..k]) + StepEntries(walk[k].root, walk[k].files)
  {
    PrefixStep(walk, k);
  }

  /** A walk step contributes exactly its names with a supported extension, joined to its root. */
  lemma {:induction false} StepEntriesMembers(root: string, names: seq<string>, x: string)
    ensures x in StepEntries(root, names) <==>
      exists j :: 0 <= j < |names| && x == Join(root, names[j]) && Supported(Ext(names[j]))
  {
    if names != [] {
      var init := names[..|names| - 1];
      StepEntriesMembers(root, init, x);
      if exists j :: 0 <= j < |names| && x == Join(root, names[j]) && Supported(Ext(names[j])) {
        var j :| 0 <= j < |names| && x == Join(root, names[j]) && Supported(Ext(names[j]));
        if j < |names| - 1 {
          assert init[j] == names[j];
        }
      }
    }
  }

  /** A name `add_folder_files` keeps. */
  predicate SupportedName(name: string) {
    Supported(Ext(name))
  }

  /** x is the j-th name of the k-th walk step, joined to its root, and keep holds of that name. */
  predicate Listed(walk: seq<WalkStep>, k: int, j: int, x: string, keep: string -> bool) {
    0 <= k < |walk| && 0 <= j < |walk[k].files| && x == Join(walk[k].root, walk[k].files[j]) && keep(walk[k].files[j])
  }

  /** A kept file of a walk is one of all the steps but the last, or of the last step. */
  lemma ListedSplit(walk: seq<WalkStep>, x: string, keep: string -> bool)
    requires walk != []
    ensures var init, last := walk[..|walk| - 1], walk[|walk| - 1];
      (exists k, j :: Listed(walk, k, j, x, keep)) <==>
        (exists k, j :: Listed(init, k, j, x, keep)) || exists j :: Listed([last], 0, j, x, keep)
  {
    var init, last := walk[..|walk| - 1], walk[|walk| - 1];
    if exists k, j :: Listed(init, k, j, x, keep) {
      var k, j :| Listed(init, k, j, x, keep);
      assert init[k] == walk[k];
      assert Listed(walk, k, j, x, keep);
    }
    if exists j :: Listed([last], 0, j, x, keep) {
      var j :| Listed([last], 0, j, x, keep);
      assert Listed(walk, |walk| - 1, j, x, keep);
    }
    if exists k, j :: Listed(walk, k, j, x, keep) {
      var k, j :| Listed(walk, k, j, x, keep);
      if k < |init| {
        assert init[k] == walk[k];
        assert Listed(init, k, j, x, keep);
      } else {
        assert Listed([last], 0, j, x, keep);
      }
    }
  }

  /** A folder contributes exactly the supported names of every step of its walk. */
  lemma {:induction false} FolderEntriesMembers(walk: seq<WalkStep>, x: string)
    ensures x in FolderEntries(walk) <==> exists k, j :: Listed(walk, k, j, x, SupportedName)
  {
    if walk != [] {
      var init, last := walk[..|walk| - 1], walk[|walk| - 1];
      FolderEntriesMembers(init, x);
      StepEntriesMembers(last.root, last.files, x);
      ListedSplit(walk, x, SupportedName);
      if exists j :: 0 <= j < |last.files| && x == Join(last.root, last.files[j]) && Supported(Ext(last.files[j])) {
        var j :| 0 <= j < |last.files| && x == Join(last.root, last.files[j]) && Supported(Ext(last.files[j]));
        assert Listed([last], 0, j, x, SupportedName);
      }
      if exists j :: Listed([last], 0, j, x, SupportedName) {
        var j :| Listed([last], 0, j, x, SupportedName);
        assert SupportedName(last.files[j]);
      }
      assert FolderEntries(walk) == FolderEntries(init) + StepEntries(last.root, last.files);
    }
  }

  /** What the collection loop makes of the arguments: the files to
      process, and the arguments reported as invalid paths. */
  datatype Collected = Collected(filePaths: seq<string>, invalid: seq<string>)

  function Collect(fs: FileSystem, files: seq<string>): Collected {
    if files == [] then Collected([], [])
    else
      var c := Collect(fs, files[..|files| - 1]);
      var file := files[|files| - 1];
      if IsFile(fs, file) then c.(filePaths := c.filePaths + FileEntry(file))
      else if IsDir(fs, file) then c.(filePaths := c.filePaths + FolderEntries(Walk(fs, file)))
      else c.(invalid := c.invalid + [file])
  }

  /** Every collected file has a supported extension, provided walked names
      have no '/' in them, so `convert_to_mp3` never raises ValueError on them. */
  lemma {:induction false} CollectedSupported(fs: FileSystem, files: seq<string>)
    requires PlainWalkNames(fs)
    ensures forall p :: p in Collect(fs, files).filePaths ==> Supported(Ext(p))
  {
    if files != [] {
      CollectedSupported(fs, files[..|files| - 1]);
      var file := files[|files| - 1];
      if !IsFile(fs, file) && IsDir(fs, file) {
        var walk := Walk(fs, file);
        forall p | p in FolderEntries(walk) ensures Supported(Ext(p)) {
          var k, j :| 0 <= k < |walk| && 0 <= j < |walk[k].files| &&
            p == Join(walk[k].root, walk[k].files[j]) && Supported(Ext(walk[k].files[j]));
          assert '/' !in walk[k].files[j];
          JoinName(walk[k].root, walk[k].files[j]);
        }
      }
    }
  }

  /** Hence no collected file makes `convert_to_mp3` raise ValueError, whatever the file system by then. */
  lemma CollectedConvertible(fs: FileSystem, files: seq<string>, fs': FileSystem, world: World, p: string)
    requires PlainWalkNames(fs) && p in Collect(fs, files).filePaths
    ensures var c := ConvertSpec(fs', world, p); c.result.Err? ==> !c.result.error.Unsupported?
  {
    CollectedSupported(fs, files);
  }

  /** What one argument contributes: a regular file itself when its
      extension is supported, a directory its supported walked files. */
  ghost predicate Contributes(fs: FileSystem, file: string, x: string) {
    if IsFile(fs, file) then x == file && Supported(Ext(file))
    else IsDir(fs, file) && x in FolderEntries(Walk(fs, file))
  }

  /** A path is collected exactly when some argument contributes it: no
      supported file and no supported walked name is missed, and nothing
      else is collected. */
  lemma {:induction false} CollectMembers(fs: FileSystem, files: seq<string>, x: string)
    ensures x in Collect(fs, files).filePaths <==> exists i :: 0 <= i < |files| && Contributes(fs, files[i], x)
  {
    if files != [] {
      var init, last := files[..|files| - 1], files[|files| - 1];
      CollectMembers(fs, init, x);
      if exists i :: 0 <= i < |files| && Contributes(fs, files[i], x) {
        var i :| 0 <= i < |files| && Contributes(fs, files[i], x);
        if i < |files| - 1 {
          assert init[i] == files[i];
        }
      }
      if exists i :: 0 <= i < |init| && Contributes(fs, init[i], x) {
        var i :| 0 <= i < |init| && Contributes(fs, init[i], x);
        assert init[i] == files[i];
      }
    }
  }

  /** Arguments that are neither a regular file nor a directory are reported, all of them, in order. */
  lemma {:induction false} CollectInvalid(fs: FileSystem, files: seq<string>)
    ensures forall x :: x in Collect(fs, files).invalid <==> x in files && !IsFile(fs, x) && !IsDir(fs, x)
  {
    if files != [] {
      CollectInvalid(fs, files[..|files| - 1]);
      assert files == files[..|files| - 1] + [files[|files| - 1]];
    }
  }

  // ---------------------------------------------------------------------
  // The main loop.

  /** How `main` ends, unless an exception escapes it. */
  datatype Ending =
    | Completed(transcribed: seq<string>)
    | NothingFound(invalid: seq<string>)                 // sys.exit(1) before any conversion
    | WhisperxFailed(transcribed: seq<string>)           // sys.exit(1) inside transcription

  function AudioOfAll(paths: seq<string>): seq<string> {
    if paths == [] then [] else [AudioOf(paths[0])] + AudioOfAll(paths[1..])
  }

  /** The processing loop of `main`: convert then transcribe each file in
      turn, `done` holding the audio files already transcribed. */
  function Process(fs: FileSystem, world: World, options: Config, paths: seq<string>, done: seq<string>, calls: seq<Call>): (e: Effect<Ending>)
    ensures e.result.Ok? && e.result.value.Completed? ==> e.result.value.transcribed == done + AudioOfAll(paths)
    ensures e.result.Ok? ==> !e.result.value.NothingFound?
    decreases |paths|
  {
    if paths == [] then Effect(Ok(Completed(done)), fs, calls)
    else
      var c := ConvertSpec(fs, world, paths[0]);
      if c.result.Err? then Effect(Err(c.result.error), c.fs, calls + c.calls)
      else
        var t := TranscribeSpec(c.fs, world, options, c.result.value);
        if t.result.Err? then Effect(Err(t.result.error), t.fs, calls + c.calls + t.calls)
        else if t.result.value.Exited? then Effect(Ok(WhisperxFailed(done)), t.fs, calls + c.calls + t.calls)
        else
          AudioOfAllCons(done, paths);
          Process(t.fs, world, options, paths[1..], done + [c.result.value], calls + c.calls + t.calls)
  }

  lemma AudioOfAllCons(done: seq<string>, paths: seq<string>)
    requires paths != []
    ensures done + [AudioOf(paths[0])] + AudioOfAll(paths[1..]) == done + AudioOfAll(paths)
  {
  }

  /** The parsed command line; None where an option was not given. */
  datatype Args = Args(
    model: Option<string>,
    outputFormat: Option<string>,
    language: Option<string>,
    device: Option<string>,
    computeType: Option<string>,
    force: bool,
    files: seq<string>)

  /** The Config `main` builds; None becomes the default. */
  function MakeConfig(args: Args, cudaAvailable: bool): (c: Config)
    ensures c.files == args.files && c.force == args.force && c.language == args.language
    ensures c.model == args.model.GetOr("small") && c.outputFormat == args.outputFormat.GetOr("srt")
    ensures c.device.Some? && (args.device.Some? ==> c.device == args.device)
    ensures args.device.None? ==> c.device.value == if cudaAvailable then "cuda" else "cpu"
    ensures c.computeType.Some? && (args.computeType.Some? ==> c.computeType == args.computeType)
    ensures args.computeType.None? ==> c.computeType.value == if cudaAvailable then "float16" else "int8"
  {
    Config(args.files, args.force,
           if args.model.None? then "small" else args.model.value,
           if args.outputFormat.None? then "srt" else args.outputFormat.value,
           if args.device.None? then Some(if cudaAvailable then "cuda" else "cpu") else args.device,
           args.language,
           if args.computeType.None? then Some(if cudaAvailable then "float16" else "int8") else args.computeType)
  }

  /** What `main` does after parsing. */
  function RunSpec(fs: FileSystem, world: World, args: Args, cudaAvailable: bool): Effect<Ending> {
    var options := MakeConfig(args, cudaAvailable);
    var collected := Collect(fs, options.files);
    if collected.filePaths == [] then Effect(Ok(NothingFound(collected.invalid)), fs, [])
    else Process(fs, world, options, collected.filePaths, [], [])
  }

  /** The process exit status. */
  function ExitStatus(r: Result<Ending, Failure>): (code: int)
    ensures code == 0 <==> r.Ok? && r.value.Completed?
    ensures code != 0 ==> code == 1
  {
    match r
    case Ok(Completed(_)) => 0
    case Ok(NothingFound(_)) => 1
    case Ok(WhisperxFailed(_)) => 1
    case Err(_) => 1
  }

  /** Nothing collected: exit status 1, nothing converted or run. */
  lemma NothingFoundExits(fs: FileSystem, world: World, args: Args, cudaAvailable: bool)
    ensures var m := RunSpec(fs, world, args, cudaAvailable);
      m.result.Ok? && m.result.value.NothingFound? <==> Collect(fs, args.files).filePaths == []
    ensures var m := RunSpec(fs, world, args, cudaAvailable);
      m.result.Ok? && m.result.value.NothingFound? ==> ExitStatus(m.result) == 1 && m.calls == [] && m.fs == fs
  {
  }

  /** A run that completes transcribed, in order, the audio file of every collected file. */
  lemma CompletedTranscribedAll(fs: FileSystem, world: World, args: Args, cudaAvailable: bool)
    ensures var m := RunSpec(fs, world, args, cudaAvailable);
      m.result.Ok? && m.result.value.Completed? ==>
        m.result.value.transcribed == AudioOfAll(Collect(fs, args.files).filePaths) && ExitStatus(m.result) == 0
  {
    var options := MakeConfig(args, cudaAvailable);
    var paths := Collect(fs, options.files).filePaths;
    assert [] + AudioOfAll(paths) == AudioOfAll(paths);
  }

  // ---------------------------------------------------------------------
  // The imperative code.

  /** The command building of `transcribe_with_whisperx`, by successive extends. */
  method BuildCommand(options: Config, outputDir: string, audioPath: string) returns (cmd: seq<string>)
    ensures cmd == WhisperxCommand(options, outputDir, audioPath)
  {
    cmd := BaseCmd;
    cmd := cmd + ["--model", options.model];
    cmd := cmd + ["--output_format", options.outputFormat];
    ghost var front := cmd;
    ghost var language := Flag("--language", options.language);
    ghost var device := Flag("--device", options.device);
    if Util.Truthy(options.language) {
      cmd := cmd + ["--language", options.language.value];
    } else {
      AppendNil(cmd);
    }
    assert cmd == front + language;
    if Util.Truthy(options.device) {
      cmd := cmd + ["--device", options.device.value];
    } else {
      AppendNil(cmd);
    }
    assert cmd == front + language + device;
    if Util.Truthy(options.computeType) {
      cmd := cmd + ["--compute_type", options.computeType.value];
    } else {
      AppendNil(cmd);
    }
    AppendAssoc(front, language + device, Flag("--compute_type", options.computeType));
    AppendAssoc(front, language, device);
    assert cmd == front + OptionalFlags(options);
    cmd := cmd + ["--output_dir", outputDir];
    cmd := cmd + [audioPath];
  }

  /** `transcribe_with_whisperx`: the skip test, then WhisperX and its exit status. */
  method Transcribe(fs: FileSystem, world: World, options: Config, audioPath: string)
    returns (r: Result<Status, Failure>, fs': FileSystem, calls: seq<Call>)
    ensures Effect(r, fs', calls) == TranscribeSpec(fs, world, options, audioPath)
  {
    var outputDir := Dirname(world.absPath(audioPath));
    var baseName := Root(Basename(audioPath));
    var outputFile := Join(outputDir, baseName + "." + options.outputFormat);
    assert outputDir == LegacyOutputDir(world, audioPath) && outputFile == LegacyOutputFile(world, options, audioPath);
    fs', calls := fs, [];
    var upToDate := UpToDate(fs, outputFile, audioPath);
    if upToDate.Err? {
      r := Err(Missing(upToDate.error));
      return;
    }
    if upToDate.value && !options.force {
      r := Ok(Done(Some(outputFile)));
      return;
    }
    var cmd := BuildCommand(options, outputDir, audioPath);
    calls := [Exec(cmd)];
    var returnCode := world.exitCode(cmd);
    if returnCode == 127 {
      r := Ok(Exited(1));
    } else if returnCode != 0 {
      r := Ok(Exited(1));
    } else {
      fs' := Write(fs, outputFile);
      r := Ok(Done(None));
    }
  }

  /** `add_folder_files`: walk the folder, keep the files whose name has a supported extension. */
  method AddFolderFiles(fs: FileSystem, folder: string, filePaths: seq<string>) returns (filePaths': seq<string>)
    ensures filePaths' == filePaths + FolderEntries(Walk(fs, folder))
  {
    filePaths' := filePaths;
    var walk := Walk(fs, folder);
    for k := 0 to |walk|
      invariant filePaths' == filePaths + FolderEntries(walk[..k])
    {
      var step := walk[k];
      for j := 0 to |step.files|
        invariant filePaths' == filePaths + FolderEntries(walk[..k]) + StepEntries(step.root, step.files[..j])
      {
        var file := step.files[j];
        var fullPath := Join(step.root, file);
        var ext := Ext(file);
        StepEntriesStep(step.root, step.files, j);
        if IsAudioExt(ext) || IsVideoExt(ext) {
          AppendAssoc(filePaths + FolderEntries(walk[..k]), StepEntries(step.root, step.files[..j]), [fullPath]);
          filePaths' := filePaths' + [fullPath];
        }
      }
      Whole(step.files);
      FolderEntriesStep(walk, k);
      AppendAssoc(filePaths, FolderEntries(walk[..k]), StepEntries(step.root, step.files));
    }
    Whole(walk);
  }

  /** The collection loop of `main`. */
  method CollectFiles(fs: FileSystem, files: seq<string>) returns (filePaths: seq<string>, invalid: seq<string>)
    ensures Collected(filePaths, invalid) == Collect(fs, files)
  {
    filePaths, invalid := [], [];
    for i := 0 to |files|
      invariant Collected(filePaths, invalid) == Collect(fs, files[..i])
    {
      var file := files[i];
      PrefixStep(files, i);
      if IsFile(fs, file) {
        var ext := Ext(file);
        if IsAudioExt(ext) || IsVideoExt(ext) {
          filePaths := filePaths + [file];
        }
      } else if IsDir(fs, file) {
        filePaths := AddFolderFiles(fs, file, filePaths);
      } else {
        invalid := invalid + [file];
      }
    }
    Whole(files);
  }

  /** One turn of the processing loop, with the turn's conversion and transcription given. */
  lemma ProcessStep(fs: FileSystem, world: World, options: Config, paths: seq<string>, done: seq<string>, calls: seq<Call>,
                    c: Effect<string>, t: Effect<Status>)
    requires paths != [] && c == ConvertSpec(fs, world, paths[0])
    requires c.result.Ok? ==> t == TranscribeSpec(c.fs, world, options, c.result.value)
    ensures Process(fs, world, options, paths, done, calls) ==
      if c.result.Err? then Effect(Err(c.result.error), c.fs, calls + c.calls)
      else if t.result.Err? then Effect(Err(t.result.error), t.fs, calls + c.calls + t.calls)
      else if t.result.value.Exited? then Effect(Ok(WhisperxFailed(done)), t.fs, calls + c.calls + t.calls)
      else Process(t.fs, world, options, paths[1..], done + [c.result.value], calls + c.calls + t.calls)
  {
  }

  /** The processing loop of `main`. */
  method ProcessFiles(fs: FileSystem, world: World, options: Config, filePaths: seq<string>)
    returns (r: Result<Ending, Failure>, fs': FileSystem, calls: seq<Call>)
    ensures Effect(r, fs', calls) == Process(fs, world, options, filePaths, [], [])
  {
    ghost var spec := Process(fs, world, options, filePaths, [], []);
    var done: seq<string> := [];
    fs', calls := fs, [];
    for i := 0 to |filePaths|
      invariant Process(fs', world, options, filePaths[i..], done, calls) == spec
    {
      var filePath := filePaths[i];
      assert filePaths[i..][0] == filePath && filePaths[i..][1..] == filePaths[i + 1..];
      var c := ConvertSpec(fs', world, filePath);
      if c.result.Err? {
        ProcessStep(fs', world, options, filePaths[i..], done, calls, c, Effect(Ok(Done(None)), c.fs, []));
        r, fs', calls := Err(c.result.error), c.fs, calls + c.calls;
        return;
      }
      var mp3Path := c.result.value;
      var res, fs2, tc := Transcribe(c.fs, world, options, mp3Path);
      ProcessStep(fs', world, options, filePaths[i..], done, calls, c, Effect(res, fs2, tc));
      fs', calls := fs2, calls + c.calls + tc;
      if res.Err? {
        r := Err(res.error);
        return;
      }
      if res.value.Exited? {
        r := Ok(WhisperxFailed(done));
        return;
      }
      done := done + [mp3Path];
    }
    r := Ok(Completed(done));
  }

  /** `main`, after argument parsing. */
  method Run(fs: FileSystem, world: World, args: Args, cudaAvailable: bool)
    returns (r: Result<Ending, Failure>, fs': FileSystem, calls: seq<Call>)
    ensures Effect(r, fs', calls) == RunSpec(fs, world, args, cudaAvailable)
  {
    var options := MakeConfig(args, cudaAvailable);
    var filePaths, invalid := CollectFiles(fs, options.files);
    if |filePaths| == 0 {
      r, fs', calls := Ok(NothingFound(invalid)), fs, [];
      return;
    }
    r, fs', calls := ProcessFiles(fs, world, options, filePaths);
  }
}
