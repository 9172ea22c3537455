# subgen in Dafny

subgen turns audio and video into subtitle files with WhisperX. The
repository has two front ends with the same core idea.

`subgenx` is the packaged command, in `subgenx/__main__.py`:
- It resolves every location given on the command line to a list of audio
  files. A location can be an audio file, a video file, a YouTube URL or a
  directory.
- The resolution engine (`subgenx/sorcerer.py`) tries four sources in a
  fixed order: Audio, Video, Youtube, Directory.
- A video is converted to an `.mp3` beside it unless an mp3 that is strictly
  newer already exists. A URL is fetched with yt-dlp. A directory is walked,
  and its audio and video files are queued for another round.
- Each audio file is then transcribed in-process with WhisperX
  (`subgenx/transcribe.py`). This is skipped when the subtitle file is
  strictly newer than the audio and `--force` is off.

`subgen.py` is the older single-file script:
- It collects files and directories by extension.
- It converts videos with ffmpeg under the same freshness rule.
- It runs the `whisperx` command line for each audio file and exits with
  status 1 when WhisperX fails.

## How the model is built

- **The file system** (module `Files`) is a value:
  - a map from paths to regular files, directories and special files, each
    with a modification time;
  - the listing `os.walk` gives for each directory;
  - a clock.
- **External programs** (module `Shell`) are a `World` of fixed answers:
  - the exit status of every command line;
  - the file name yt-dlp reports for a URL;
  - whether `whisperx.load_model` succeeds for a model, device and compute
    type;
  - what the WhisperX engine reports for an audio file;
  - `os.path.abspath`.
- **Running a piece of the program** gives an `Effect`: the result or the
  exception, the file system afterwards, and the calls made to the outside
  world, in order.
- **Loops and in-place list building.** The source's loops and `append` /
  `extend` updates are Dafny methods with loops. Each method is proved
  equal to a recursive specification function.
- **What the source promises** is proved as lemmas about those functions:
  - the dispatch order;
  - the freshness gates in both directions;
  - the shape of every command line;
  - rerunning skips work;
  - the file list the command line becomes;
  - the exit status.
- **`os.path`.** The functions `splitext`, `basename`, `dirname` and `join`
  (module `Paths`) follow POSIX `posixpath`. Lower-casing (module `Text`)
  is ASCII plus the KELVIN SIGN, the only non-ASCII character that Python
  lower-cases to an ASCII letter.

Behaviour of the code that the model makes explicit:
- `subgenx/__main__.py:11-19` defines no output-directory, download-directory
  or include-video option, and the Config record of `subgenx/util.py:5-25`
  has no `output_dir` field, so `subgenx/transcribe.py:64` raises
  AttributeError (see "## Findings"). Outside `Cli.RunAsWritten` the model
  passes None as the output directory.
- The YouTube test is a substring test on the whole string, not a test of
  the host (`Util.YoutubeUrlIgnoresHost`).
- A directory with exactly one match answers a bare path. That path is final,
  so a lone video in a directory is passed to transcription unconverted
  (`Sorcerer.LoneMatchNotConverted`).
- A directory with no matches makes the location unhandled
  (`Sorcerer.EmptyDirectoryIsNone`).
- `--force` does not apply to the video conversion gate, only to the
  transcription gate.
- Equal modification times mean "regenerate" (`Files.EqualTimesRegenerate`).
- `subgen.py` knows fewer extensions than `subgenx/util.py`: it does not know
  `.opus`, `.flv` or `.webm` (`Subgen.ExtsNarrower`).
- An unknown output format raises only after the output file has been opened
  for writing. The empty file it leaves behind makes a rerun skip
  (`Transcribe.UnknownFormatMaskedOnRerun`).

## Model

| member | source | states |
|---|---|---|
| Text.Contains | subgenx/util.py:49-51 | Python's `sub in s` holds exactly when sub occurs in s at some index |
| Text.IntToDecimalRoundTrip | subgenx/sorcerer.py:60 | reading back the decimal text that an f-string prints for an integer gives that integer, negatives included |
| Text.NatToDecimal | subgenx/transcribe.py:32 | `str(n)` of a natural number is non-empty, all digits, and has no leading zero |
| Text.LowerKeepsSeparators | subgenx/util.py:34 | lower-casing never creates or removes a '.' or a '/', and lower-casing twice changes nothing more |
| Paths.ExtStart | subgenx/util.py:32 | where `os.path.splitext` cuts: at the last '.' after the last '/' when a character other than '.' comes between them, at the end of the path otherwise (see ExtStartIsExtensionDot) |
| Paths.SplitExt | subgenx/util.py:32 | `os.path.splitext`: the path cut at ExtStart into root and extension (see SplitExtParts) |
| Paths.Basename | subgenx/transcribe.py:65 | `os.path.basename`: what follows the last '/', which contains no '/' |
| Paths.Dirname | subgenx/transcribe.py:64 | `os.path.dirname`: up to the last '/', trailing slashes removed unless only slashes remain |
| Paths.Join | subgenx/sorcerer.py:109 | `os.path.join` of two parts: an absolute second part replaces the first; otherwise a '/' goes between them unless the first is empty or ends in '/' (see JoinName) |
| Paths.ExtStartIsExtensionDot | subgenx/util.py:32 | `splitext` cuts at the last '.' of the last path component when a character other than '.' precedes it in that component, and keeps the whole path as root otherwise |
| Paths.SplitExtParts | subgenx/sorcerer.py:42 | root + ext is the path again; ext is empty or a '.' followed by characters that are neither '.' nor '/' |
| Paths.StripTrailingSlashes | subgenx/transcribe.py:64 | `rstrip('/')` gives a prefix that does not end in '/' and drops only slashes |
| Paths.JoinName | subgenx/sorcerer.py:109 | joining a directory and a name without '/' puts a separator in only when needed, and leaves the name's base name, extension and root as they were |
| Paths.ExtStartSameSeparators | subgenx/util.py:32-34 | `splitext` depends on nothing but where the '.' and '/' characters are |
| Files.UpToDate | subgenx/transcribe.py:68 | the freshness test is true exactly when both files exist and the derived one is strictly newer; it raises, naming the source, exactly when the derived file exists and the source does not |
| Files.EqualTimesRegenerate | subgenx/sorcerer.py:47 | equal modification times count as out of date |
| Files.Write | subgenx/sorcerer.py:64-66 | a tool writing its output makes that path a regular file stamped with the current time and leaves every other path and all directory listings alone |
| Files.FreshAfterWrite | subgenx/sorcerer.py:47-51 | once a tool has written the derived file, the freshness test against an existing, older source is true |
| Files.FreshThroughWrite | subgenx/transcribe.py:68 | an up-to-date derived file stays up to date through any later write that does not rewrite its source |
| Util.IsAudioFile | subgenx/util.py:28-35 | a regular file whose lower-cased extension is one of the seven audio extensions |
| Util.IsVideoFile | subgenx/util.py:39-46 | a regular file whose lower-cased extension is one of the six video extensions |
| Util.IsYoutubeUrl | subgenx/util.py:49-51 | one of `youtube.com/watch`, `youtu.be`, `youtube.com/shorts` occurs in the string (see YoutubeUrlBySubstring) |
| Util.NotARegularFile | subgenx/util.py:28-46 | a directory, a special file or a missing path is neither audio nor video |
| Util.AudioVideoDisjoint | subgenx/util.py:33-44 | no path is both an audio and a video file |
| Util.LowerSameExtension | subgenx/util.py:32-34 | two paths equal up to case have extensions equal up to case |
| Util.CaseInsensitive | subgenx/util.py:28-46 | two regular files whose paths differ only in case are classified alike |
| Util.YoutubeUrlBySubstring | subgenx/util.py:49-51 | a URL is a YouTube URL exactly when one of the three markers occurs in it somewhere |
| Util.YoutubeUrlIgnoresHost | subgenx/util.py:49-51 | a URL on another host with "youtu.be" in its path counts as a YouTube URL |
| Sorcerer.CanHandle | subgenx/sorcerer.py:27-102 | the four `can_handle` tests: an audio file, a video file, a YouTube URL by substring, a directory (see Dispatch, UnhandledIff) |
| Sorcerer.Mp3Path | subgenx/sorcerer.py:42-45 | the video's path without its extension, followed by `.mp3` |
| Sorcerer.ConvertCommand | subgenx/sorcerer.py:56-64 | the ffmpeg command is `ffmpeg -y -i <video>`, then `-map 0:a:<track>` exactly when a track is configured, then the mp3 codec at 192k with no video, with the mp3 path last |
| Sorcerer.ConvertCommandTrack | subgenx/sorcerer.py:58-60 | the stream selector reads back as the configured track number |
| Sorcerer.Wanted | subgenx/sorcerer.py:110 | the walk's filter: an audio or a video file (see MatchesMembers) |
| Sorcerer.Matches | subgenx/sorcerer.py:106-111 | every path a walk collects is an audio or a video file |
| Sorcerer.MatchesInMembers | subgenx/sorcerer.py:108-111 | within one walk step, a path is collected exactly when it is the step's root joined to one of its names and is audio or video |
| Sorcerer.MatchesMembers | subgenx/sorcerer.py:106-111 | a path is collected from a walk exactly when some step yields it and it is audio or video |
| Sorcerer.DirectoryFound | subgenx/sorcerer.py:104-115 | the walk's matches, collapsed to a bare path when there is exactly one (see LoneMatchNotConverted, DirectoryLocation) |
| Sorcerer.HandleSpec | subgenx/sorcerer.py:28-115 | no handler removes a file, adds a directory or changes a listing, and the only write is the video handler's mp3; only the directory source answers a list, without calls, and every path in that list is audio or video |
| Sorcerer.FirstHandled | subgenx/sorcerer.py:139-152 | an unhandled location changes nothing and calls nothing; the only possible write is the location's mp3; a list answer comes only for a directory and holds only audio or video files |
| Sorcerer.Resolve | subgenx/sorcerer.py:139-152 | `_handle_single_location`: the sources tried in order from the first (see Dispatch, UnhandledIff) |
| Sorcerer.Drain | subgenx/sorcerer.py:124-135 | the worklist loop: served from the front, a str appended to the results, a list to the queue, an exception ending the loop (see DrainFiles, StepDecreases) |
| Sorcerer.HandleLocationSpec | subgenx/sorcerer.py:123-137 | the drained results, None when there are none (see HandleLocationFirstTurn) |
| Sorcerer.FirstApplicableWins | subgenx/sorcerer.py:140-149 | the first source in order whose test holds gives the answer; later sources are not consulted |
| Sorcerer.NoneApplicable | subgenx/sorcerer.py:151-152 | when no source's test holds, the answer is None, with nothing changed or called |
| Sorcerer.Dispatch | subgenx/sorcerer.py:139-152 | the answer is the audio handler's for an audio file, else the video handler's for a video file, else the YouTube handler's for a URL, else the directory handler's for a directory, else None |
| Sorcerer.UnhandledIff | subgenx/sorcerer.py:139-152 | the answer is None exactly when no source can handle the location |
| Sorcerer.StepDecreases | subgenx/sorcerer.py:127-135 | each turn of the worklist loop lowers the number of queued directories, or keeps it and shortens the queue, so the loop ends |
| Sorcerer.HandleLocationFirstTurn | subgenx/sorcerer.py:123-137 | `handle_location` is the first answer: an exception, None, a one-item list, or the result of draining the answered list |
| Sorcerer.UnhandledLocation | subgenx/sorcerer.py:137 | a location no source handles gives None, with nothing changed or called |
| Sorcerer.AudioLocation | subgenx/sorcerer.py:28-34 | an audio file resolves to itself, with nothing changed or called |
| Sorcerer.VideoLocation | subgenx/sorcerer.py:41-68 | a video is converted exactly when its mp3 is missing or not strictly newer; conversion writes the mp3 and answers it on exit 0 and raises otherwise; without conversion the existing mp3 is answered |
| Sorcerer.LoneMatchNotConverted | subgenx/sorcerer.py:115 | a directory with one match resolves to that path as it is, even when it is a video |
| Sorcerer.EmptyDirectoryIsNone | subgenx/sorcerer.py:115 | a directory with no match resolves to None |
| Sorcerer.ResolveWanted | subgenx/sorcerer.py:28-68 | an audio or video file resolves to itself or to its mp3; the only possible failure is the conversion command, which is the one call made |
| Sorcerer.WantedEvolves | subgenx/sorcerer.py:37-68 | converting other files does not change how an earlier queued audio or video file is classified or converted |
| Sorcerer.ConvertedAllEvolves | subgenx/sorcerer.py:127-135 | the same lifted to a whole queue of audio and video files |
| Sorcerer.DrainFiles | subgenx/sorcerer.py:127-135 | draining a queue of audio and video files yields, on success, each one's audio file in queue order after the earlier results |
| Sorcerer.ResolveDirectory | subgenx/sorcerer.py:100-115 | a directory that is not a URL is answered by its walk, with nothing changed or called |
| Sorcerer.DirectoryLocation | subgenx/sorcerer.py:104-137 | a directory with no matches or several resolves to None or to its matches converted, in walk order |
| Sorcerer.ResolveCalls | subgenx/sorcerer.py:139-152 | resolving one location only runs subprocesses and yt-dlp |
| Sorcerer.DrainCalls | subgenx/sorcerer.py:127-135 | the worklist adds only subprocess and yt-dlp calls |
| Sorcerer.HandleLocationCalls | subgenx/sorcerer.py:123-137 | `handle_location` never loads a model or writes a subtitle |
| Sorcerer.DrainEvolves | subgenx/sorcerer.py:123-137 | resolving a location removes no file, adds no directory and changes no listing |
| Sorcerer.DrainSettled | subgenx/sorcerer.py:123-137 | resolution writes only mp3 files stamped with the clock, so no modification time lies ahead of the clock afterwards |
| Sorcerer.VideoHandle | subgenx/sorcerer.py:41-68 | the video handler's file system, calls and answer are the video case of HandleSpec |
| Sorcerer.YoutubeHandle | subgenx/sorcerer.py:75-97 | one yt-dlp call with format `bestaudio/best` and template `%(title)s.%(ext)s`; answers the prepared file name, or fails when yt-dlp raises |
| Sorcerer.DirectoryHandle | subgenx/sorcerer.py:104-115 | the walk loops collect the matches; one match is answered bare, otherwise the list, all audio or video |
| Sorcerer.Handle | subgenx/sorcerer.py:28-115 | each source's `handle` as HandleSpec describes it |
| Sorcerer.HandleSingle | subgenx/sorcerer.py:139-152 | the loop over the sources computes the first applicable source's answer |
| Sorcerer.HandleLocation | subgenx/sorcerer.py:123-137 | the worklist loop computes the drained result, None for an empty one |
| Transcribe.GetWriter | subgenx/transcribe.py:42-58 | a writer exists exactly for txt, vtt, srt, tsv, json and aud, and it writes that format to the given directory; any other format raises KeyError |
| Transcribe.GetWriterRoundTrip | subgenx/transcribe.py:49-58 | each writer is found under its own key and under no other |
| Transcribe.LoadAudioCommand | subgenx/transcribe.py:23-34 | the ffmpeg decode command of `load_audio` (see LoadAudioCommandShape) |
| Transcribe.TrackOrZero | subgenx/transcribe.py:90 | `audio_track or 0`: the configured track, 0 when none is configured |
| Transcribe.LoadAudioCommandShape | subgenx/transcribe.py:19-34 | the decode command reads the given path, selects `0:a:<track>` with the track reading back as given, and writes mono 16-bit PCM at 16000 Hz to stdout |
| Transcribe.LoadAudioTrack | subgenx/transcribe.py:90 | the decoded track is the configured one, or 0 when none is configured |
| Transcribe.OutputFile | subgenx/transcribe.py:64-66 | the output directory, or the audio's directory when that is None or empty, joined to the audio's base name without extension plus `.<format>` (see OutputFileShape) |
| Transcribe.OutputFileShape | subgenx/transcribe.py:64-66 | the subtitle file lies in the output directory, or the audio's directory when none is given; its name is the audio's base name without extension plus `.<format>` |
| Transcribe.Skip | subgenx/transcribe.py:68-71 | skipping happens exactly when force is off and the subtitle file exists strictly newer than the audio; the test raises even under force when the subtitle exists and the audio does not |
| Transcribe.AlignLanguage | subgenx/transcribe.py:106 | alignment is asked for one of the two languages, a usable one exactly when the detected or the configured language is usable, and the detected one whenever it is usable |
| Transcribe.FillLanguage | subgenx/transcribe.py:125-126 | the aligned result's language entry when it has one, else the detected language or, failing that, the configured one (see FillLanguageKeeps) |
| Transcribe.FillLanguageKeeps | subgenx/transcribe.py:125-126 | a language the aligner returned is kept; otherwise one is filled in, non-empty exactly when the detected or the configured language is |
| Transcribe.TranscribeSpec | subgenx/transcribe.py:61-139 | the only change to the file system is writing the subtitle file |
| Transcribe.SkipIff | subgenx/transcribe.py:68-71 | a transcription is skipped, returning the subtitle path with nothing changed or called, exactly when force is off and the subtitle file exists strictly newer than the audio |
| Transcribe.ForceStillReadsAudioTime | subgenx/transcribe.py:68 | with the subtitle present and the audio missing, the run raises before anything is called, force or not |
| Transcribe.TranscribedCalls | subgenx/transcribe.py:77-139 | a full transcription loaded the model successfully, then decodes the track, transcribes, aligns with the chosen language and writes with the filled-in language, in that order, and writes the subtitle file |
| Transcribe.RerunSkips | subgenx/transcribe.py:64-71 | after a run that did not raise, a second run without force skips and changes nothing |
| Transcribe.UnknownFormatMaskedOnRerun | subgenx/transcribe.py:136-137 | an unknown format raises only after the output file was created, and the rerun then skips |
| Transcribe.Transcription | subgenx/transcribe.py:77-139 | past the skip test: a failed model load raises first, then a failed decode; on every path the file system is unchanged or has only the subtitle file written (see TranscribedCalls) |
| Transcribe.Saved | subgenx/transcribe.py:91-139 | transcribe, align, open the output file, write with the format's writer; on every path the file system is unchanged or has only the subtitle file written (see UnknownFormatMaskedOnRerun) |
| Transcribe.TranscribeWithWhisperx | subgenx/transcribe.py:61-139 | the imperative transcription computes TranscribeSpec |
| Transcribe.TranscribeAudio | subgenx/transcribe.py:77-97 | model loading, decoding and what follows give the Transcription effect |
| Transcribe.Save | subgenx/transcribe.py:91-139 | transcribing, aligning and writing give the Saved effect |
| Cli.MakeConfig | subgenx/__main__.py:12-45 | model defaults to small and format to srt; device is cuda or cpu and compute type float16 or int8 by GPU availability unless given; the other fields are copied |
| Cli.Gather | subgenx/__main__.py:52-58 | the first loop only ever extends the file list and the unhandled list |
| Cli.TranscribeAll | subgenx/__main__.py:65-66 | the second loop, when it finishes, has handed every file to transcription, in order (what that leaves on disk: TranscribeAllInPlace) |
| Cli.TranscribeAllInPlace | subgenx/__main__.py:65-66 | when the loop finishes on a settled file system whose files exist and are not each other's subtitle files, every file has its subtitle beside it, strictly newer than the file, so a rerun without --force skips them all |
| Cli.GatherSettled | subgenx/__main__.py:52-58 | the first loop stamps every file it writes with the clock, so no modification time lies ahead of the clock afterwards |
| Cli.RunSpec | subgenx/__main__.py:33-66 | `main` after parsing: gather every location, exit with 1 when nothing was found, otherwise transcribe every file (see FinishedTranscribedAll, NothingFoundExits) |
| Cli.ExitStatus | subgenx/__main__.py:60-63 | status 0 exactly when the run finished; 1 for `sys.exit(1)` and for an exception |
| Cli.GatherAppend | subgenx/__main__.py:52-58 | gathering a + b is gathering a, then b from where a left off |
| Cli.GatherLast | subgenx/__main__.py:52-58 | the last location appends its files, or is reported, after the earlier ones |
| Cli.GatherAudioFiles | subgenx/__main__.py:52-56 | a command line of audio files collects exactly those files, in order, calling nothing |
| Cli.GatherUnhandled | subgenx/__main__.py:52-58 | locations no source handles are all reported, in order |
| Cli.GatherCalls | subgenx/__main__.py:52-58 | the first loop only runs subprocesses and yt-dlp |
| Cli.NothingFoundExits | subgenx/__main__.py:60-63 | the run exits with 1 without transcribing exactly when nothing was collected |
| Cli.FinishedTranscribedAll | subgenx/__main__.py:48-66 | a finished run handled exactly the collected files in order and exits with 0; from a settled file system, with the collected files present and not each other's subtitle files, each one's subtitle lies beside it and is up to date |
| Cli.OnlyUnhandledExits | subgenx/__main__.py:52-63 | a command line of unhandled locations reports them all and changes and calls nothing |
| Cli.RunAsWritten | subgenx/transcribe.py:64 | `main` as written: like RunSpec, except that the first transcription raises AttributeError (see AsWrittenNeverFinishes) |
| Cli.AsWrittenNeverFinishes | subgenx/transcribe.py:64 | as written, every run exits with 1 without transcribing, and ends in AttributeError once there is a file to transcribe |
| Cli.GatherLocations | subgenx/__main__.py:48-58 | the first loop computes Gather |
| Cli.TranscribeTurn | subgenx/__main__.py:65-66 | transcribing the first remaining file either ends the loop with that file's exception, or goes on with the remaining files, the first one counted as done |
| Cli.TranscribeFiles | subgenx/__main__.py:65-66 | the second loop computes TranscribeAll |
| Cli.Run | subgenx/__main__.py:33-66 | `main` after argument parsing computes RunSpec |
| Subgen.IsAudioExt | subgen.py:24-27 | the lower-cased extension is one of six audio extensions |
| Subgen.IsVideoExt | subgen.py:30-33 | the lower-cased extension is one of four video extensions |
| Subgen.ExtsDisjoint | subgen.py:24-33 | no extension is both audio and video |
| Subgen.ExtsNarrower | subgen.py:24-33 | the script's extensions are among the package's, and `.opus`, `.flv` and `.webm` are not supported |
| Subgen.ConvertCommand | subgen.py:55 | the ffmpeg command that turns a video into an mp3 without the video stream (see ConvertVideo) |
| Subgen.AudioOf | subgen.py:39-46 | the input itself for an audio extension, base + `.mp3` otherwise (see ConvertSpec) |
| Subgen.ConvertSpec | subgen.py:36-60 | conversion answers the audio file itself, or base + `.mp3` for a video; it raises ValueError exactly when the extension is unsupported |
| Subgen.ConvertAudio | subgen.py:39-43 | an audio file passes unchanged, with nothing called |
| Subgen.ConvertVideo | subgen.py:44-58 | ffmpeg runs exactly when the mp3 is missing or not strictly newer than an existing video; on exit 0 it writes the mp3, otherwise it raises |
| Subgen.WhisperxCommand | subgen.py:77-90 | the WhisperX command line (see WhisperxCommandShape) |
| Subgen.WhisperxCommandShape | subgen.py:77-90 | the command is the base command, model and format, then `--language`, `--device` and `--compute_type` each exactly when truthy and in that order, then the output directory and the audio path |
| Subgen.AfterWhisperx | subgen.py:93-101 | exit 127 or any other non-zero status ends the process with 1; 0 goes on |
| Subgen.TranscribeSpec | subgen.py:63-101 | transcription removes no file, adds no directory and changes no listing |
| Subgen.LegacyOutputDir | subgen.py:66 | the directory part of the audio's absolute path |
| Subgen.LegacyOutputFile | subgen.py:66-68 | that directory joined to the audio's base name without extension plus `.<format>` (see LegacyOutputFileShape) |
| Subgen.LegacyOutputFileShape | subgen.py:66-68 | for a format without '/', the subtitle file is the directory of the audio's absolute path, a separator when needed, then the audio's base name without extension, '.', the format; its base name and extension are those of that name |
| Subgen.SkipIff | subgen.py:66-73 | the run is skipped, returning the output path with nothing changed or called, exactly when force is off and the subtitle file exists strictly newer than the audio |
| Subgen.WhisperxRun | subgen.py:77-101 | past the gate, exactly the WhisperX command runs, and the process exits with 1 exactly when that command fails |
| Subgen.StepEntries | subgen.py:146-150 | each path collected from a walk step is the root joined to a name with a supported extension |
| Subgen.StepEntriesMembers | subgen.py:146-150 | a path comes from a walk step exactly when it is the step's root joined to one of its names with a supported extension |
| Subgen.FolderEntries | subgen.py:143-150 | each path collected from a folder walk is some step's root joined to a name with a supported extension |
| Subgen.FolderEntriesMembers | subgen.py:143-150 | a path comes from a folder exactly when some step of its walk lists a name with a supported extension that joins to it |
| Subgen.FileEntry | subgen.py:152-156 | `add_file`: the file kept exactly when its extension is supported (see CollectMembers) |
| Subgen.Collect | subgen.py:159-165 | the argument loop: a regular file kept by its extension, a directory by its walk, anything else reported (see CollectMembers, CollectInvalid) |
| Subgen.CollectMembers | subgen.py:152-165 | a path is collected exactly when it is a regular-file argument with a supported extension, or a supported walked entry of a directory argument |
| Subgen.CollectedSupported | subgen.py:143-165 | every collected path has a supported extension when walked names contain no '/' |
| Subgen.CollectedConvertible | subgen.py:59-60 | conversion never raises ValueError on a collected path |
| Subgen.CollectInvalid | subgen.py:159-165 | exactly the arguments that are neither a file nor a directory are reported as invalid |
| Subgen.Process | subgen.py:172-174 | a completed processing loop transcribed each path's audio file in order |
| Subgen.MakeConfig | subgen.py:116-138 | model defaults to small and format to srt; device and compute type follow GPU availability unless given |
| Subgen.RunSpec | subgen.py:130-174 | `main` after parsing: collect, exit with 1 when nothing was collected, otherwise convert and transcribe each file (see CompletedTranscribedAll, NothingFoundExits) |
| Subgen.ExitStatus | subgen.py:167-170 | status 0 exactly when the run completed, 1 otherwise |
| Subgen.NothingFoundExits | subgen.py:167-170 | the run stops with 1, nothing called and nothing changed, exactly when nothing was collected |
| Subgen.CompletedTranscribedAll | subgen.py:159-174 | a completed run transcribed the audio file of every collected path, in order, and exits with 0 |
| Subgen.BuildCommand | subgen.py:77-90 | the command-building code produces WhisperxCommand |
| Subgen.Transcribe | subgen.py:63-101 | the imperative transcription computes TranscribeSpec |
| Subgen.AddFolderFiles | subgen.py:143-150 | the walk loops append exactly the folder's supported entries |
| Subgen.CollectFiles | subgen.py:152-165 | the argument loop computes Collect |
| Subgen.ProcessFiles | subgen.py:172-174 | the processing loop computes Process |
| Subgen.Run | subgen.py:130-174 | `main` after argument parsing computes RunSpec |

## Findings

| source | as written | input that shows it | evidently intended | confidence | as-written member | corrected member |
|---|---|---|---|---|---|---|
| subgenx/transcribe.py:64 | reads `options.output_dir`, a field that the Config dataclass of subgenx/util.py:5-25 does not declare (line 94 does the same with `options.verbose`) | `subgenx a.mp3` with `a.mp3` an existing audio file: the first call of `transcribe_with_whisperx` raises AttributeError | with no output directory configured, write the subtitle beside the audio file | high, not executed | Cli.AsWrittenNeverFinishes | Cli.FinishedTranscribedAll |

## Left out

- Printing: every message the program prints is left out.
- Inside ffmpeg, yt-dlp and WhisperX: these are `World` answers. A command's
  exit status depends only on its command line.
  - A successful ffmpeg conversion or `whisperx` run is taken to write its
    output file.
  - A yt-dlp download adds nothing to the file system; only the file name
    yt-dlp reports is modelled.
- `whisperx.load_model` either loads or raises, as the `World` answers for
  the model, device and compute type. `load_align_model` and `align` raising
  are folded into the engine's answer for the audio file.
- A missing executable: `subprocess.run` raising FileNotFoundError is not
  modelled. Only exit statuses are, including 127 in `subgen.py`.
- `load_audio`'s RuntimeError is recorded as the failed command and its
  status. The samples themselves are not modelled: the numpy decoding and
  the float conversion.
- Constants passed only to WhisperX are not recorded in the calls:
  - the model directory and VAD options;
  - threads and batch and chunk sizes;
  - the writer options.
- The line that `transcribe.py:139` appends to the subtitle file is not
  modelled, because file contents are not modelled.
- `gc.collect` and `torch.cuda.empty_cache` are left out.
- Whether CUDA is available is a parameter, `cudaAvailable`.
- argparse is an `Args` record. Its usage errors are not modelled:
  - the `nargs="+"` check;
  - a non-integer `--audio_track`.
- `options.verbose` (subgenx/transcribe.py:94) is not modelled. The
  AttributeError that it and `options.output_dir` raise appears only in
  `Cli.RunAsWritten`. The rest of the model takes the output directory as an
  optional parameter, which the command line leaves as None.
- `yt_download_video` and `yt_download_subtitles` are carried in the Config
  but never read, as in the source.
- The `continue` at subgenx/sorcerer.py:145-146 cannot be reached: no handler
  of the four sources returns None. The model's handlers always answer.
- `os.walk` listings are fixed at the start. A file written during the run,
  such as a converted mp3, does not appear in a later walk of the same
  directory.
- `os.path.abspath` depends on the working directory and is a `World`
  function. The model does not normalise paths.
- `str.lower` covers ASCII and the KELVIN SIGN only. Other characters are
  left as they are, which does not change membership in the ASCII
  extension lists.
- Modification times are integers from a clock that moves forward on every
  write. Floating-point timestamps and clock skew are left out.
- Transcribe.TranscribeSpec: its own contract states only how the file system
  may change. What it returns and calls is stated by the lemmas beside it.
- Subgen.TranscribeSpec: the same. `Subgen.SkipIff` and `Subgen.WhisperxRun`
  state its result and calls.
