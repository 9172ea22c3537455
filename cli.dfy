/**
 * The command line of subgenx/__main__.py: the Config it builds, the loop
 * that resolves every location in argument order, the exit when nothing
 * was found, and the loop that transcribes every collected file.
 */
module Cli {
  import opened Wrappers
  import opened Seqs
  import opened Files
  import opened Shell
  import opened Util
  import opened Sorcerer
  import opened Transcribe

  /** The parsed command line; None where an option was not given. */
  datatype Args = Args(
    model: Option<string>,
    outputFormat: Option<string>,
    language: Option<string>,
    device: Option<string>,
    computeType: Option<string>,
    force: bool,
    audioTrack: Option<int>,
    locations: seq<string>)

  const DefaultModel := "small"
  const DefaultFormat := "srt"

  /** The Config `main` builds. `cudaAvailable` is what torch reports; it
      decides the device and compute type when they are not given. */
  function MakeConfig(args: Args, cudaAvailable: bool): (c: Config)
    ensures c.baseCmd == ["whisperx"] && !c.ytDownloadVideo && !c.ytDownloadSubtitles
    ensures c.locations == args.locations && c.force == args.force
    ensures c.audioTrack == args.audioTrack && c.language == args.language
    ensures c.model == args.model.GetOr(DefaultModel) && c.outputFormat == args.outputFormat.GetOr(DefaultFormat)
    ensures c.device.Some? && (args.device.Some? ==> c.device == args.device)
    ensures args.device.None? ==> c.device.value == if cudaAvailable then "cuda" else "cpu"
    ensures c.computeType.Some? && (args.computeType.Some? ==> c.computeType == args.computeType)
    ensures args.computeType.None? ==> c.computeType.value == if cudaAvailable then "float16" else "int8"
  {
    var device := if args.device.None? then Some(if cudaAvailable then "cuda" else "cpu") else args.device;
    var computeType := if args.computeType.None? then Some(if cudaAvailable then "float16" else "int8") else args.computeType;
    Config(["whisperx"], args.locations, args.force, args.audioTrack, false, false,
           if args.model.Some? then args.model.value else DefaultModel,
           if args.outputFormat.Some? then args.outputFormat.value else DefaultFormat,
           device, args.language, computeType)
  }

  /** What the first loop has gathered: the files to transcribe, and the
      locations reported as unhandled. */
  datatype Gathered = Gathered(filePaths: seq<string>, unhandled: seq<string>)

  /** The answer for one location, added to what was gathered before it. */
  function Add(acc: Gathered, location: string, answer: Option<seq<string>>): Gathered {
    match answer
    case Some(ps) => acc.(filePaths := acc.filePaths + ps)
    case None => acc.(unhandled := acc.unhandled + [location])
  }

  /** The first loop of `main`: each location in turn, its files appended,
      or it is reported; an exception ends the run. */
  function Gather(fs: FileSystem, world: World, config: Config, locations: seq<string>, acc: Gathered, calls: seq<Call>): (e: Effect<Gathered>)
    ensures e.result.Ok? ==> acc.filePaths <= e.result.value.filePaths && acc.unhandled <= e.result.value.unhandled
    decreases |locations|
  {
    if locations == [] then Effect(Ok(acc), fs, calls)
    else
      var h := HandleLocationSpec(fs, world, config, locations[0]);
      match h.result
      case Err(f) => Effect(Err(f), h.fs, calls + h.calls)
      case Ok(answer) => Gather(h.fs, world, config, locations[1..], Add(acc, locations[0], answer), calls + h.calls)
  }

  /** One turn of the second loop: transcribe the first of files. */
  method TranscribeTurn(fs: FileSystem, world: World, config: Config, files: seq<string>, done: seq<string>, calls: seq<Call>)
    returns (failure: Option<Failure>, fs': FileSystem, calls': seq<Call>)
    requires files != []
    ensures failure.Some? ==>
      TranscribeAll(fs, world, config, files, done, calls) == Effect(Err(failure.value), fs', calls')
    ensures failure.None? ==>
      TranscribeAll(fs, world, config, files, done, calls) ==
        TranscribeAll(fs', world, config, files[1..], done + [files[0]], calls')
  {
    var result, fs2, c := TranscribeWithWhisperx(fs, world, config, None, files[0]);
    TranscribeAllStep(fs, world, config, files, done, calls, Effect(result, fs2, c));
    fs', calls' := fs2, calls + c;
    failure := if result.Err? then Some(result.error) else None;
  }

  /** The second loop of `main`: each collected file transcribed in turn,
      `done` holding those already handed over. */
  function TranscribeAll(fs: FileSystem, world: World, config: Config, files: seq<string>, done: seq<string>, calls: seq<Call>): (e: Effect<seq<string>>)
    ensures e.result.Ok? ==> e.result.value == done + files
    decreases |files|
  {
    if files == [] then Effect(Ok(done), fs, calls)
    else
      var t := TranscribeSpec(fs, world, config, None, files[0]);
      if t.result.Err? then Effect(Err(t.result.error), t.fs, calls + t.calls)
      else
        AppendHead(done, files);
        TranscribeAll(t.fs, world, config, files[1..], done + [files[0]], calls + t.calls)
  }

  /** One turn of the second loop, with the turn's transcription given as t. */
  lemma TranscribeAllStep(fs: FileSystem, world: World, config: Config, files: seq<string>, done: seq<string>, calls: seq<Call>, t: Effect<Option<string>>)
    requires files != [] && t == TranscribeSpec(fs, world, config, None, files[0])
    ensures t.result.Err? ==>
      TranscribeAll(fs, world, config, files, done, calls) == Effect(Err(t.result.error), t.fs, calls + t.calls)
    ensures t.result.Ok? ==>
      TranscribeAll(fs, world, config, files, done, calls) ==
        TranscribeAll(t.fs, world, config, files[1..], done + [files[0]], calls + t.calls)
  {
  }

  /** The subtitle of f is in place: its file `transcribe_with_whisperx`
      writes beside f exists and is strictly newer than f, so a run
      without --force skips f. */
  ghost predicate SubtitleInPlace(fs: FileSystem, config: Config, f: string) {
    Skip(fs, OutputFile(f, None, config.outputFormat), f, false) == Ok(true)
  }

  /** The files exist, and no file is another's (or its own) subtitle file. */
  ghost predicate SeparateSubtitles(fs: FileSystem, config: Config, files: seq<string>) {
    && (forall f :: f in files ==> Exists(fs, f))
    && (forall f, g :: f in files && g in files ==> OutputFile(g, None, config.outputFormat) != f)
  }

  /** A second loop that finishes leaves every file it was given, and every
      file done before, with its subtitle in place: a transcription writes
      it or finds it up to date, and later turns neither rewrite a file
      that has been done nor make its subtitle stale. */
  lemma {:induction false} TranscribeAllInPlace(fs: FileSystem, world: World, config: Config, files: seq<string>, done: seq<string>, calls: seq<Call>)
    requires Settled(fs)
    requires forall f :: f in files ==> Exists(fs, f)
    requires forall f :: f in done ==> SubtitleInPlace(fs, config, f)
    requires forall f, g :: f in done + files && g in files ==> OutputFile(g, None, config.outputFormat) != f
    ensures var t := TranscribeAll(fs, world, config, files, done, calls);
      t.result.Ok? ==> Settled(t.fs) && forall f :: f in t.result.value ==> SubtitleInPlace(t.fs, config, f)
    decreases |files|
  {
    if files != [] {
      var f0 := files[0];
      var out0 := OutputFile(f0, None, config.outputFormat);
      var t := TranscribeSpec(fs, world, config, None, f0);
      if t.result.Ok? {
        assert f0 in files && f0 in done + files;
        RerunSkips(fs, world, config, None, f0);
        SkipIff(t.fs, world, config.(force := false), None, f0);
        assert SubtitleInPlace(t.fs, config, f0);
        if t.fs != fs {
          WriteSettled(fs, out0);
        }
        forall f | f in done ensures SubtitleInPlace(t.fs, config, f) {
          if t.fs != fs {
            assert f in done + files;
            FreshThroughWrite(fs, OutputFile(f, None, config.outputFormat), f, out0);
          }
        }
        forall g | g in files[1..] ensures Exists(t.fs, g) {
          assert g in files;
        }
        AppendHead(done, files);
        forall f, g | f in done + [f0] + files[1..] && g in files[1..] ensures OutputFile(g, None, config.outputFormat) != f {
          assert g in files;
        }
        TranscribeAllInPlace(t.fs, world, config, files[1..], done + [f0], calls + t.calls);
      }
    }
  }

  /** The first loop keeps every modification time before the clock. */
  lemma {:induction false} GatherSettled(fs: FileSystem, world: World, config: Config, locations: seq<string>, acc: Gathered, calls: seq<Call>)
    requires Settled(fs)
    ensures Settled(Gather(fs, world, config, locations, acc, calls).fs)
    decreases |locations|
  {
    if locations != [] {
      var h := HandleLocationSpec(fs, world, config, locations[0]);
      DrainSettled(fs, world, config, [locations[0]], [], []);
      if h.result.Ok? {
        GatherSettled(h.fs, world, config, locations[1..], Add(acc, locations[0], h.result.value), calls + h.calls);
      }
    }
  }

  /** How `main` ends, unless an exception escapes it. */
  datatype Outcome =
    | Finished(unhandled: seq<string>, transcribed: seq<string>)
    | NoFiles(unhandled: seq<string>)      // sys.exit(1)

  /** What `main` does. */
  function RunSpec(fs: FileSystem, world: World, args: Args, cudaAvailable: bool): Effect<Outcome> {
    var config := MakeConfig(args, cudaAvailable);
    var g := Gather(fs, world, config, config.locations, Gathered([], []), []);
    match g.result
    case Err(f) => Effect(Err(f), g.fs, g.calls)
    case Ok(acc) =>
      if acc.filePaths == [] then Effect(Ok(NoFiles(acc.unhandled)), g.fs, g.calls)
      else
        var t := TranscribeAll(g.fs, world, config, acc.filePaths, [], g.calls);
        match t.result
        case Err(f) => Effect(Err(f), t.fs, t.calls)
        case Ok(done) => Effect(Ok(Finished(acc.unhandled, done)), t.fs, t.calls)
  }

  /** The process exit status: 1 for `sys.exit(1)` and for an uncaught exception. */
  function ExitStatus(r: Result<Outcome, Failure>): (code: int)
    ensures code == 0 <==> r.Ok? && r.value.Finished?
    ensures code != 0 ==> code == 1
  {
    match r
    case Ok(Finished(_, _)) => 0
    case Ok(NoFiles(_)) => 1
    case Err(_) => 1
  }

  // ---------------------------------------------------------------------
  // What `main` promises.

  /** Gathering a + b is gathering a, then gathering b from where a left off. */
  lemma {:induction false} GatherAppend(fs: FileSystem, world: World, config: Config, a: seq<string>, b: seq<string>, acc: Gathered, calls: seq<Call>)
    ensures var ga := Gather(fs, world, config, a, acc, calls);
      Gather(fs, world, config, a + b, acc, calls) ==
        if ga.result.Err? then ga else Gather(ga.fs, world, config, b, ga.result.value, ga.calls)
    decreases |a|
  {
    if a == [] {
      assert a + b == b;
    } else {
      assert (a + b)[0] == a[0] && (a + b)[1..] == a[1..] + b;
      var h := HandleLocationSpec(fs, world, config, a[0]);
      if h.result.Ok? {
        GatherAppend(h.fs, world, config, a[1..], b, Add(acc, a[0], h.result.value), calls + h.calls);
      }
    }
  }

  /** One more location: its files are appended to what was gathered, in
      the order `handle_location` gave them, or it is reported. */
  lemma GatherLast(fs: FileSystem, world: World, config: Config, a: seq<string>, location: string)
    ensures var ga := Gather(fs, world, config, a, Gathered([], []), []);
      var h := HandleLocationSpec(ga.fs, world, config, location);
      var g := Gather(fs, world, config, a + [location], Gathered([], []), []);
      ga.result.Ok? && h.result.Ok? ==>
        g.result == Ok(Add(ga.result.value, location, h.result.value)) && g.fs == h.fs && g.calls == ga.calls + h.calls
  {
    GatherAppend(fs, world, config, a, [location], Gathered([], []), []);
  }

  /** Gathering from the first location on. */
  lemma GatherFirst(fs: FileSystem, world: World, config: Config, locations: seq<string>, acc: Gathered, calls: seq<Call>, h: Effect<Option<seq<string>>>)
    requires locations != [] && h == HandleLocationSpec(fs, world, config, locations[0])
    ensures h.result.Ok? ==>
      Gather(fs, world, config, locations, acc, calls) ==
        Gather(h.fs, world, config, locations[1..], Add(acc, locations[0], h.result.value), calls + h.calls)
  {
  }

  /** A run of audio files is collected as it is, duplicates included, with nothing called. */
  lemma {:induction false} GatherAudioFiles(fs: FileSystem, world: World, config: Config, locations: seq<string>, acc: Gathered, calls: seq<Call>)
    requires forall l :: l in locations ==> IsAudioFile(fs, l)
    ensures Gather(fs, world, config, locations, acc, calls) ==
      Effect(Ok(acc.(filePaths := acc.filePaths + locations)), fs, calls)
    decreases |locations|
  {
    if locations == [] {
      assert acc.filePaths + locations == acc.filePaths;
    } else {
      var first, rest := locations[0], locations[1..];
      assert first in locations;
      var h := HandleLocationSpec(fs, world, config, first);
      AudioLocation(fs, world, config, first);
      assert h == Effect(Ok(Some([first])), fs, []);
      GatherFirst(fs, world, config, locations, acc, calls, h);
      var acc' := acc.(filePaths := acc.filePaths + [first]);
      assert Add(acc, first, Some([first])) == acc' && calls + [] == calls;
      forall l | l in rest ensures IsAudioFile(fs, l) { assert l in locations; }
      GatherAudioFiles(fs, world, config, rest, acc', calls);
      AppendHead(acc.filePaths, locations);
      assert acc'.(filePaths := acc'.filePaths + rest) == acc.(filePaths := acc.filePaths + locations);
    }
  }

  /** Locations no source can handle are all reported, and nothing else happens. */
  lemma {:induction false} GatherUnhandled(fs: FileSystem, world: World, config: Config, locations: seq<string>, acc: Gathered, calls: seq<Call>)
    requires forall l, k :: l in locations && 0 <= k < |Sources| ==> !CanHandle(Sources[k], fs, l)
    ensures Gather(fs, world, config, locations, acc, calls) ==
      Effect(Ok(acc.(unhandled := acc.unhandled + locations)), fs, calls)
    decreases |locations|
  {
    if locations == [] {
      assert acc.unhandled + locations == acc.unhandled;
    } else {
      var first, rest := locations[0], locations[1..];
      assert first in locations;
      var h := HandleLocationSpec(fs, world, config, first);
      UnhandledLocation(fs, world, config, first);
      assert h == Effect(Ok(None), fs, []);
      GatherFirst(fs, world, config, locations, acc, calls, h);
      var acc' := acc.(unhandled := acc.unhandled + [first]);
      assert Add(acc, first, None) == acc' && calls + [] == calls;
      assert forall l :: l in rest ==> l in locations;
      GatherUnhandled(fs, world, config, rest, acc', calls);
      AppendHead(acc.unhandled, locations);
      assert acc'.(unhandled := acc'.unhandled + rest) == acc.(unhandled := acc.unhandled + locations);
    }
  }

  /** Gathering only converts and downloads. */
  lemma {:induction false} GatherCalls(fs: FileSystem, world: World, config: Config, locations: seq<string>, acc: Gathered, calls: seq<Call>)
    requires ResolutionCalls(calls)
    ensures ResolutionCalls(Gather(fs, world, config, locations, acc, calls).calls)
    decreases |locations|
  {
    if locations != [] {
      var h := HandleLocationSpec(fs, world, config, locations[0]);
      HandleLocationCalls(fs, world, config, locations[0]);
      assert ResolutionCalls(calls + h.calls);
      if h.result.Ok? {
        GatherCalls(h.fs, world, config, locations[1..], Add(acc, locations[0], h.result.value), calls + h.calls);
      }
    }
  }

  /** When nothing was found the program exits with status 1 before any
      transcription: no model was loaded and no result written. */
  lemma NothingFoundExits(fs: FileSystem, world: World, args: Args, cudaAvailable: bool)
    ensures var m := RunSpec(fs, world, args, cudaAvailable);
      var g := Gather(fs, world, MakeConfig(args, cudaAvailable), args.locations, Gathered([], []), []);
      && (m.result.Ok? && m.result.value.NoFiles? <==> g.result.Ok? && g.result.value.filePaths == [])
      && (m.result.Ok? && m.result.value.NoFiles? ==>
            ExitStatus(m.result) == 1 && m.calls == g.calls && ResolutionCalls(m.calls))
  {
    GatherCalls(fs, world, MakeConfig(args, cudaAvailable), args.locations, Gathered([], []), []);
  }

  /** A run that finishes transcribed every collected file once, in the order collected. */
  lemma FinishedTranscribedAll(fs: FileSystem, world: World, args: Args, cudaAvailable: bool)
    ensures var m := RunSpec(fs, world, args, cudaAvailable);
      var g := Gather(fs, world, MakeConfig(args, cudaAvailable), args.locations, Gathered([], []), []);
      m.result.Ok? && m.result.value.Finished? ==>
        && g.result.Ok? && g.result.value.filePaths != []
        && m.result.value.transcribed == g.result.value.filePaths
        && m.result.value.unhandled == g.result.value.unhandled
        && ExitStatus(m.result) == 0
    ensures var m := RunSpec(fs, world, args, cudaAvailable);
      var config := MakeConfig(args, cudaAvailable);
      var g := Gather(fs, world, config, args.locations, Gathered([], []), []);
      m.result.Ok? && m.result.value.Finished? && Settled(fs) && SeparateSubtitles(g.fs, config, g.result.value.filePaths) ==>
        forall f :: f in m.result.value.transcribed ==> SubtitleInPlace(m.fs, config, f)
  {
    var config := MakeConfig(args, cudaAvailable);
    var g := Gather(fs, world, config, config.locations, Gathered([], []), []);
    if g.result.Ok? && g.result.value.filePaths != [] {
      assert [] + g.result.value.filePaths == g.result.value.filePaths;
      if Settled(fs) && SeparateSubtitles(g.fs, config, g.result.value.filePaths) {
        GatherSettled(fs, world, config, config.locations, Gathered([], []), []);
        TranscribeAllInPlace(g.fs, world, config, g.result.value.filePaths, [], g.calls);
      }
    }
  }

  /** A command line of unhandled locations only: all reported, exit status 1, nothing called. */
  lemma OnlyUnhandledExits(fs: FileSystem, world: World, args: Args, cudaAvailable: bool)
    requires forall l, k :: l in args.locations && 0 <= k < |Sources| ==> !CanHandle(Sources[k], fs, l)
    ensures RunSpec(fs, world, args, cudaAvailable) == Effect(Ok(NoFiles(args.locations)), fs, [])
  {
    var config := MakeConfig(args, cudaAvailable);
    GatherUnhandled(fs, world, config, args.locations, Gathered([], []), []);
    assert [] + args.locations == args.locations;
  }

  /** `main` as written: `transcribe_with_whisperx` reads `options.output_dir`
      first of all, a field the Config of subgenx/util.py does not have, so
      the first transcription raises AttributeError before anything else. */
  function RunAsWritten(fs: FileSystem, world: World, args: Args, cudaAvailable: bool): Effect<Outcome> {
    var config := MakeConfig(args, cudaAvailable);
    var g := Gather(fs, world, config, config.locations, Gathered([], []), []);
    match g.result
    case Err(f) => Effect(Err(f), g.fs, g.calls)
    case Ok(acc) =>
      if acc.filePaths == [] then Effect(Ok(NoFiles(acc.unhandled)), g.fs, g.calls)
      else Effect(Err(NoAttribute("output_dir")), g.fs, g.calls)
  }

  /** As written, no run ever finishes: it exits with status 1 on every
      command line, never loads a model and never writes a subtitle file,
      and a command line with files to transcribe ends in the AttributeError.
      RunSpec, which reads the output directory as None, is the corrected
      behaviour (FinishedTranscribedAll). */
  lemma AsWrittenNeverFinishes(fs: FileSystem, world: World, args: Args, cudaAvailable: bool)
    ensures var m := RunAsWritten(fs, world, args, cudaAvailable);
      var g := Gather(fs, world, MakeConfig(args, cudaAvailable), args.locations, Gathered([], []), []);
      && ExitStatus(m.result) == 1
      && ResolutionCalls(m.calls)
      && (g.result.Ok? && g.result.value.filePaths != [] ==> m.result == Err(NoAttribute("output_dir")))
  {
    GatherCalls(fs, world, MakeConfig(args, cudaAvailable), args.locations, Gathered([], []), []);
  }

  // ---------------------------------------------------------------------
  // The imperative code.

  /** The first loop of `main`: resolve every location in turn. */
  method GatherLocations(fs: FileSystem, world: World, config: Config)
    returns (r: Result<Gathered, Failure>, fs': FileSystem, calls: seq<Call>)
    ensures Effect(r, fs', calls) == Gather(fs, world, config, config.locations, Gathered([], []), [])
  {
    ghost var g := Gather(fs, world, config, config.locations, Gathered([], []), []);
    var filePaths: seq<string> := [];
    var unhandled: seq<string> := [];
    fs', calls := fs, [];
    for i := 0 to |config.locations|
      invariant Gather(fs', world, config, config.locations[i..], Gathered(filePaths, unhandled), calls) == g
    {
      var file := config.locations[i];
      var result, fs2, c := HandleLocation(fs', world, config, file);
      assert config.locations[i..][1..] == config.locations[i + 1..];
      fs', calls := fs2, calls + c;
      if result.Err? {
        r := Err(result.error);
        return;
      }
      if result.value.Some? {
        filePaths := filePaths + result.value.value;
      } else {
        unhandled := unhandled + [file];
      }
    }
    r := Ok(Gathered(filePaths, unhandled));
  }

  /** The second loop of `main`: transcribe every collected file in turn. */
  method TranscribeFiles(fs: FileSystem, world: World, config: Config, filePaths: seq<string>, calls0: seq<Call>)
    returns (r: Result<seq<string>, Failure>, fs': FileSystem, calls: seq<Call>)
    ensures Effect(r, fs', calls) == TranscribeAll(fs, world, config, filePaths, [], calls0)
  {
    ghost var t := TranscribeAll(fs, world, config, filePaths, [], calls0);
    var done: seq<string> := [];
    var rest := filePaths;
    fs', calls := fs, calls0;
    while rest != []
      invariant TranscribeAll(fs', world, config, rest, done, calls) == t
      decreases |rest|
    {
      var failure;
      failure, fs', calls := TranscribeTurn(fs', world, config, rest, done, calls);
      if failure.Some? {
        r := Err(failure.value);
        return;
      }
      done, rest := done + [rest[0]], rest[1..];
    }
    r := Ok(done);
  }

  /** `main`, after argument parsing. */
  method Run(fs: FileSystem, world: World, args: Args, cudaAvailable: bool)
    returns (r: Result<Outcome, Failure>, fs': FileSystem, calls: seq<Call>)
    ensures Effect(r, fs', calls) == RunSpec(fs, world, args, cudaAvailable)
  {
    var config := MakeConfig(args, cudaAvailable);
    var gathered;
    gathered, fs', calls := GatherLocations(fs, world, config);
    if gathered.Err? {
      r := Err(gathered.error);
      return;
    }
    var filePaths := gathered.value.filePaths;
    if |filePaths| == 0 {
      r := Ok(NoFiles(gathered.value.unhandled));
      return;
    }
    var transcribed;
    transcribed, fs', calls := TranscribeFiles(fs', world, config, filePaths, calls);
    if transcribed.Err? {
      r := Err(transcribed.error);
      return;
    }
    r := Ok(Finished(gathered.value.unhandled, transcribed.value));
  }
}
