/**
 * The in-process transcription of subgenx/transcribe.py: where the subtitle
 * file goes, when an up-to-date one is reused, the ffmpeg command that
 * decodes the chosen audio track, the language the result is written with,
 * and the table of result writers. WhisperX itself is the World's.
 */
module Transcribe {
  import opened Wrappers
  import opened Seqs
  import opened Text
  import opened Paths
  import opened Files
  import opened Shell
  import opened Util

  /** The result writers of `whisperx.utils` that `get_writer` knows. */
  datatype WriterKind = WriteTXT | WriteVTT | WriteSRT | WriteTSV | WriteJSON | WriteAudacity

  /** A writer class instantiated for an output directory. */
  datatype Writer = Writer(kind: WriterKind, outputDir: string)

  /** The key each writer is registered under. */
  function FormatName(kind: WriterKind): string {
    match kind
    case WriteTXT => "txt"
    case WriteVTT => "vtt"
    case WriteSRT => "srt"
    case WriteTSV => "tsv"
    case WriteJSON => "json"
    case WriteAudacity => "aud"
  }

  /** The writer table of `get_writer`. */
  const Writers: map<string, WriterKind> := map[
    "txt" := WriteTXT, "vtt" := WriteVTT, "srt" := WriteSRT,
    "tsv" := WriteTSV, "json" := WriteJSON, "aud" := WriteAudacity]

  /** The output formats that have a writer. */
  const Formats: set<string> := {"txt", "vtt", "srt", "tsv", "json", "aud"}

  /** `get_writer`: a lookup in the writer table; any other format is a KeyError. */
  function GetWriter(format: string, outputDir: string): (r: Result<Writer, Failure>)
    ensures r.Ok? <==> format in Formats
    ensures r.Ok? ==> FormatName(r.value.kind) == format && r.value.outputDir == outputDir
    ensures r.Err? ==> r.error == UnknownFormat(format)
  {
    if format in Writers then Ok(Writer(Writers[format], outputDir)) else Err(UnknownFormat(format))
  }

  /** Every writer is found under its own key, and under no other. */
  lemma GetWriterRoundTrip(kind: WriterKind, format: string, outputDir: string)
    ensures GetWriter(FormatName(kind), outputDir) == Ok(Writer(kind, outputDir))
    ensures GetWriter(format, outputDir).Ok? && GetWriter(format, outputDir).value.kind == kind ==> format == FormatName(kind)
  {
  }

  /** The sample rate `load_audio` resamples to. */
  const SampleRate: nat := 16000

  /** `options.audio_track or 0`: None and 0 both give track 0. */
  function TrackOrZero(audioTrack: Option<int>): (track: int)
    ensures track == audioTrack.GetOr(0)
  {
    if audioTrack.Some? && audioTrack.value != 0 then audioTrack.value else 0
  }

  /** The ffmpeg command of `load_audio`. */
  function LoadAudioCommand(audioPath: string, track: int): seq<string> {
    ["ffmpeg", "-nostdin", "-threads", "0"] + ["-i", audioPath] + ["-map", "0:a:" + IntToDecimal(track)]
    + ["-f", "s16le", "-ac", "1", "-acodec", "pcm_s16le"] + ["-ar", IntToDecimal(SampleRate), "-"]
  }

  /** Where the parts of the `load_audio` command lie. */
  lemma LoadAudioCommandLayout(audioPath: string, track: int)
    ensures var cmd := LoadAudioCommand(audioPath, track);
      && |cmd| == 17
      && cmd[..4] == ["ffmpeg", "-nostdin", "-threads", "0"]
      && cmd[4..6] == ["-i", audioPath]
      && cmd[6] == "-map" && cmd[7] == "0:a:" + IntToDecimal(track)
      && cmd[8..14] == ["-f", "s16le", "-ac", "1", "-acodec", "pcm_s16le"]
      && cmd[14] == "-ar" && cmd[15] == IntToDecimal(SampleRate)
      && cmd[16] == "-"
  {
    var head := ["ffmpeg", "-nostdin", "-threads", "0"] + ["-i", audioPath];
    SliceParts(head, ["-map", "0:a:" + IntToDecimal(track)], ["-f", "s16le", "-ac", "1", "-acodec", "pcm_s16le"],
      ["-ar", IntToDecimal(SampleRate), "-"]);
    SliceParts(["ffmpeg", "-nostdin", "-threads", "0"], ["-i", audioPath], [], []);
  }

  /** The command decodes the input's audio stream number `track` to mono
      16-bit little-endian samples at the sample rate, written to standard
      output; the stream selector and the rate read back as the numbers given. */
  lemma LoadAudioCommandShape(audioPath: string, track: int)
    ensures var cmd := LoadAudioCommand(audioPath, track);
      && |cmd| == 17
      && cmd[..4] == ["ffmpeg", "-nostdin", "-threads", "0"]
      && cmd[4..6] == ["-i", audioPath]
      && cmd[6] == "-map" && cmd[7][..4] == "0:a:" && IntValue(cmd[7][4..]) == track
      && cmd[8..14] == ["-f", "s16le", "-ac", "1", "-acodec", "pcm_s16le"]
      && cmd[14] == "-ar" && IntValue(cmd[15]) == SampleRate
      && cmd[16] == "-"
  {
    LoadAudioCommandLayout(audioPath, track);
    SliceParts("0:a:", IntToDecimal(track), [], []);
    IntToDecimalRoundTrip(track);
    IntToDecimalRoundTrip(SampleRate);
  }

  /** With `options.audio_track or 0`, no configured track means stream 0. */
  lemma LoadAudioTrack(audioPath: string, audioTrack: Option<int>)
    ensures var cmd := LoadAudioCommand(audioPath, TrackOrZero(audioTrack));
      IntValue(cmd[7][4..]) == audioTrack.GetOr(0)
  {
    LoadAudioCommandShape(audioPath, TrackOrZero(audioTrack));
  }

  /** `options.output_dir or os.path.dirname(audio_path)`. */
  function OutputDir(audioPath: string, outputDir: Option<string>): string {
    if Truthy(outputDir) then outputDir.value else Dirname(audioPath)
  }

  /** The subtitle file's name: the audio's base name without its extension, a '.', the format. */
  function OutputName(audioPath: string, format: string): string {
    Root(Basename(audioPath)) + "." + format
  }

  function OutputFile(audioPath: string, outputDir: Option<string>, format: string): string {
    Join(OutputDir(audioPath, outputDir), OutputName(audioPath, format))
  }

  /** For a format without '/', the subtitle file lies in the output
      directory under the audio's base name with the format as its extension. */
  lemma OutputFileShape(audioPath: string, outputDir: Option<string>, format: string)
    requires '/' !in format
    ensures OutputFile(audioPath, outputDir, format) == JoinPrefix(OutputDir(audioPath, outputDir)) + OutputName(audioPath, format)
    ensures Basename(OutputFile(audioPath, outputDir, format)) == OutputName(audioPath, format)
    ensures Ext(OutputFile(audioPath, outputDir, format)) == Ext(OutputName(audioPath, format))
  {
    var name := OutputName(audioPath, format);
    RootOfBasename(audioPath);
    assert '/' !in "." + format;
    assert '/' !in name;
    JoinName(OutputDir(audioPath, outputDir), name);
  }

  /**
   * The skip test. `up_to_date` is computed before `force` is looked at,
   * so a missing audio file raises even under force when the subtitle file
   * exists. Ok(true) means skip.
   */
  function Skip(fs: FileSystem, outputFile: string, audioPath: string, force: bool): (r: Result<bool, Failure>)
    ensures r == Ok(true) <==>
      !force && Exists(fs, outputFile) && Exists(fs, audioPath) && MTime(fs, outputFile) > MTime(fs, audioPath)
    ensures r.Err? <==> Exists(fs, outputFile) && !Exists(fs, audioPath)
    ensures r.Err? ==> r.error == Missing(audioPath)
  {
    match UpToDate(fs, outputFile, audioPath)
    case Err(p) => Err(Missing(p))
    case Ok(upToDate) => Ok(upToDate && !force)
  }

  /** `result["language"] or options.language`: the detected language when
      non-empty, the configured one otherwise. The choice is one of the two,
      usable exactly when either is, and the detection wins when usable. */
  function AlignLanguage(detected: Option<string>, hint: Option<string>): (lang: Option<string>)
    ensures lang == detected || lang == hint
    ensures Truthy(lang) <==> Truthy(detected) || Truthy(hint)
    ensures Truthy(detected) ==> lang == detected
    ensures !Truthy(detected) ==> lang == hint
  {
    if Truthy(detected) then detected else hint
  }

  /** The "language" entry written with the result: the aligned result's own
      entry when it has one, otherwise the language alignment was asked for. */
  function FillLanguage(aligned: Option<Option<string>>, detected: Option<string>, hint: Option<string>): Option<string> {
    if aligned.Some? then aligned.value else AlignLanguage(detected, hint)
  }

  /** The fill never overrides an existing entry, and fills a usable
      language whenever the engine or the configuration has one. */
  lemma FillLanguageKeeps(aligned: Option<Option<string>>, detected: Option<string>, hint: Option<string>)
    ensures aligned.Some? ==> FillLanguage(aligned, detected, hint) == aligned.value
    ensures aligned.None? && (Truthy(detected) || Truthy(hint)) ==> Truthy(FillLanguage(aligned, detected, hint))
    ensures aligned.None? && !Truthy(detected) && !Truthy(hint) ==> !Truthy(FillLanguage(aligned, detected, hint))
  {
  }

  /** The model WhisperX loads for a configuration. */
  function LoadModelCall(config: Config): Call {
    LoadModel(config.model, config.device, config.computeType)
  }

  /**
   * What `transcribe_with_whisperx(audio_path, options)` does. It answers
   * Some(output file) when it skips and None when it transcribes. The output
   * file is opened for writing before `get_writer` is consulted, so an
   * unknown format still leaves a (new, empty) output file behind.
   */
  function TranscribeSpec(fs: FileSystem, world: World, config: Config, outputDir: Option<string>, audioPath: string): (e: Effect<Option<string>>)
    ensures Evolves(fs, e.fs)
    ensures e.fs == fs || e.fs == Write(fs, OutputFile(audioPath, outputDir, config.outputFormat))
  {
    var outputFile := OutputFile(audioPath, outputDir, config.outputFormat);
    match Skip(fs, outputFile, audioPath, config.force)
    case Err(f) => Effect(Err(f), fs, [])
    case Ok(true) => Effect(Ok(Some(outputFile)), fs, [])
    case Ok(false) => Transcription(fs, world, config, outputFile, audioPath)
  }

  /** Past the skip test: load the model, decode the track, then run the engine. */
  function Transcription(fs: FileSystem, world: World, config: Config, outputFile: string, audioPath: string): (e: Effect<Option<string>>)
    ensures Evolves(fs, e.fs)
    ensures e.fs == fs || e.fs == Write(fs, outputFile)
  {
    var cmd := LoadAudioCommand(audioPath, TrackOrZero(config.audioTrack));
    var code := world.exitCode(cmd);
    if !world.modelLoads(config.model, config.device, config.computeType) then
      Effect(Err(ModelFailed(config.model)), fs, [LoadModelCall(config)])
    else if code != 0 then Effect(Err(ToolFailed(cmd, code)), fs, [LoadModelCall(config), Exec(cmd)])
    else
      var e := Saved(fs, world, config, outputFile, audioPath);
      Effect(e.result, e.fs, [LoadModelCall(config), Exec(cmd)] + e.calls)
  }

  /** Transcribe, align, open the output file, then write the result with
      the format's writer, which exists for the formats in the table only. */
  function Saved(fs: FileSystem, world: World, config: Config, outputFile: string, audioPath: string): (e: Effect<Option<string>>)
    ensures Evolves(fs, e.fs)
    ensures e.fs == fs || e.fs == Write(fs, outputFile)
  {
    match world.engine(audioPath)
    case None => Effect(Err(EngineFailed(audioPath)), fs, [Transcribe(audioPath, config.language)])
    case Some(out) =>
      var calls := [Transcribe(audioPath, config.language), Align(AlignLanguage(out.detected, config.language), config.device)];
      EvolvesByWrite(fs, outputFile);
      if config.outputFormat !in Formats then Effect(Err(UnknownFormat(config.outputFormat)), Write(fs, outputFile), calls)
      else
        var lang := FillLanguage(out.alignedLanguage, out.detected, config.language);
        Effect(Ok(None), Write(fs, outputFile), calls + [WriteResult(config.outputFormat, outputFile, lang)])
  }

  /** Transcription is skipped, with nothing called and the path returned,
      exactly when the subtitle file exists, is strictly newer than the
      audio, and force is off. */
  lemma SkipIff(fs: FileSystem, world: World, config: Config, outputDir: Option<string>, audioPath: string)
    ensures var e := TranscribeSpec(fs, world, config, outputDir, audioPath);
      var out := OutputFile(audioPath, outputDir, config.outputFormat);
      (e.result.Ok? && e.result.value.Some? <==>
        !config.force && Exists(fs, out) && Exists(fs, audioPath) && MTime(fs, out) > MTime(fs, audioPath))
      && (e.result.Ok? && e.result.value.Some? ==> e == Effect(Ok(Some(out)), fs, []))
  {
  }

  /** Force does not protect against a missing audio file once the subtitle file exists. */
  lemma ForceStillReadsAudioTime(fs: FileSystem, world: World, config: Config, outputDir: Option<string>, audioPath: string)
    requires Exists(fs, OutputFile(audioPath, outputDir, config.outputFormat)) && !Exists(fs, audioPath)
    ensures TranscribeSpec(fs, world, config, outputDir, audioPath) == Effect(Err(Missing(audioPath)), fs, [])
  {
  }

  /** A transcription that ran to the end called, in order: load the model,
      decode the track, transcribe, align, write the result. */
  lemma TranscribedCalls(fs: FileSystem, world: World, config: Config, outputDir: Option<string>, audioPath: string)
    requires TranscribeSpec(fs, world, config, outputDir, audioPath).result == Ok(None)
    ensures var e := TranscribeSpec(fs, world, config, outputDir, audioPath);
      var out := OutputFile(audioPath, outputDir, config.outputFormat);
      && config.outputFormat in Formats
      && world.modelLoads(config.model, config.device, config.computeType)
      && world.engine(audioPath).Some?
      && e.fs == Write(fs, out)
      && |e.calls| == 5
      && e.calls[0] == LoadModelCall(config)
      && e.calls[1] == Exec(LoadAudioCommand(audioPath, TrackOrZero(config.audioTrack)))
      && e.calls[2] == Transcribe(audioPath, config.language)
      && e.calls[3] == Align(AlignLanguage(world.engine(audioPath).value.detected, config.language), config.device)
      && e.calls[4] == WriteResult(config.outputFormat, out,
           FillLanguage(world.engine(audioPath).value.alignedLanguage, world.engine(audioPath).value.detected, config.language))
  {
  }

  /** Running again without force, right after a run that ended normally,
      skips: the subtitle file written is newer than the audio. */
  lemma RerunSkips(fs: FileSystem, world: World, config: Config, outputDir: Option<string>, audioPath: string)
    requires Settled(fs) && Exists(fs, audioPath)
    requires OutputFile(audioPath, outputDir, config.outputFormat) != audioPath
    requires TranscribeSpec(fs, world, config, outputDir, audioPath).result.Ok?
    ensures var e := TranscribeSpec(fs, world, config, outputDir, audioPath);
      var out := OutputFile(audioPath, outputDir, config.outputFormat);
      TranscribeSpec(e.fs, world, config.(force := false), outputDir, audioPath) == Effect(Ok(Some(out)), e.fs, [])
  {
    var e := TranscribeSpec(fs, world, config, outputDir, audioPath);
    var out := OutputFile(audioPath, outputDir, config.outputFormat);
    if e.fs != fs {
      FreshAfterWrite(fs, out, audioPath);
    } else {
      SkipIff(fs, world, config, outputDir, audioPath);
    }
  }

  /** An unknown output format fails the first run but leaves an empty
      output file behind, which the next run without force takes as an
      up-to-date transcription. */
  lemma UnknownFormatMaskedOnRerun(fs: FileSystem, world: World, config: Config, outputDir: Option<string>, audioPath: string)
    requires Settled(fs) && Exists(fs, audioPath) && !config.force
    requires config.outputFormat !in Formats
    requires OutputFile(audioPath, outputDir, config.outputFormat) != audioPath
    requires !Exists(fs, OutputFile(audioPath, outputDir, config.outputFormat))
    requires world.modelLoads(config.model, config.device, config.computeType)
    requires world.exitCode(LoadAudioCommand(audioPath, TrackOrZero(config.audioTrack))) == 0
    requires world.engine(audioPath).Some?
    ensures var e := TranscribeSpec(fs, world, config, outputDir, audioPath);
      var out := OutputFile(audioPath, outputDir, config.outputFormat);
      && e.result == Err(UnknownFormat(config.outputFormat))
      && e.fs == Write(fs, out)
      && TranscribeSpec(e.fs, world, config, outputDir, audioPath) == Effect(Ok(Some(out)), e.fs, [])
  {
    var out := OutputFile(audioPath, outputDir, config.outputFormat);
    FreshAfterWrite(fs, out, audioPath);
  }

  /** `transcribe_with_whisperx`, step by step. */
  method TranscribeWithWhisperx(fs: FileSystem, world: World, config: Config, outputDir: Option<string>, audioPath: string)
    returns (r: Result<Option<string>, Failure>, fs': FileSystem, calls: seq<Call>)
    ensures Effect(r, fs', calls) == TranscribeSpec(fs, world, config, outputDir, audioPath)
  {
    var dir := if Truthy(outputDir) then outputDir.value else Dirname(audioPath);
    var baseName := Root(Basename(audioPath));
    var outputFile := Join(dir, baseName + "." + config.outputFormat);
    assert dir == OutputDir(audioPath, outputDir) && outputFile == OutputFile(audioPath, outputDir, config.outputFormat);
    fs', calls := fs, [];
    var upToDate := UpToDate(fs, outputFile, audioPath);
    if upToDate.Err? {
      r := Err(Missing(upToDate.error));
      return;
    }
    if upToDate.value && !config.force {
      r := Ok(Some(outputFile));
      return;
    }
    r, fs', calls := TranscribeAudio(fs, world, config, dir, outputFile, audioPath);
  }

  /** The part of `transcribe_with_whisperx` past the skip test: load the
      model and decode the track, then hand over to the engine. */
  method TranscribeAudio(fs: FileSystem, world: World, config: Config, dir: string, outputFile: string, audioPath: string)
    returns (r: Result<Option<string>, Failure>, fs': FileSystem, calls: seq<Call>)
    ensures Effect(r, fs', calls) == Transcription(fs, world, config, outputFile, audioPath)
  {
    fs', calls := fs, [LoadModel(config.model, config.device, config.computeType)];
    if !world.modelLoads(config.model, config.device, config.computeType) {
      r := Err(ModelFailed(config.model));
      return;
    }
    var track := if config.audioTrack.Some? && config.audioTrack.value != 0 then config.audioTrack.value else 0;
    var cmd := LoadAudioCommand(audioPath, track);
    assert track == TrackOrZero(config.audioTrack);
    calls := calls + [Exec(cmd)];
    var code := world.exitCode(cmd);
    if code != 0 {
      r := Err(ToolFailed(cmd, code));
      return;
    }
    assert calls == [LoadModelCall(config), Exec(cmd)];
    var c;
    r, fs', c := Save(fs, world, config, dir, outputFile, audioPath);
    calls := calls + c;
  }

  /** The engine's part of `transcribe_with_whisperx`, and the write. */
  method Save(fs: FileSystem, world: World, config: Config, dir: string, outputFile: string, audioPath: string)
    returns (r: Result<Option<string>, Failure>, fs': FileSystem, calls: seq<Call>)
    ensures Effect(r, fs', calls) == Saved(fs, world, config, outputFile, audioPath)
  {
    fs', calls := fs, [Transcribe(audioPath, config.language)];
    var result := world.engine(audioPath);
    if result.None? {
      r := Err(EngineFailed(audioPath));
      return;
    }
    var languageCode := if Truthy(result.value.detected) then result.value.detected else config.language;
    calls := calls + [Align(languageCode, config.device)];
    var resultAligned := result.value.alignedLanguage;
    if resultAligned.None? {
      resultAligned := Some(languageCode);
    }
    fs' := Write(fs', outputFile);
    var writer := GetWriter(config.outputFormat, dir);
    if writer.Err? {
      r := Err(writer.error);
      return;
    }
    calls := calls + [WriteResult(config.outputFormat, outputFile, resultAligned.value)];
    r := Ok(None);
  }
}
