/**
 * The programs and libraries the system drives but does not implement:
 * ffmpeg and WhisperX as subprocesses, yt-dlp and WhisperX as Python
 * libraries, and `os.path.abspath`, which depends on the working directory.
 * The model records what is passed to them (a Call) and takes what they
 * answer from a World, a fixed function of what they were given.
 */
module Shell {
  import opened Wrappers
  import opened Files

  /** What the WhisperX engine reports for one audio file: the detected
      language (`result["language"]`, possibly empty) and the "language"
      entry of the aligned result (None when the key is absent). */
  datatype EngineOutput = EngineOutput(detected: Option<string>, alignedLanguage: Option<Option<string>>)

  datatype World = World(
    exitCode: seq<string> -> int,           // exit status of `subprocess.run(argv)`
    fetch: string -> Option<string>,        // yt-dlp's prepared file name; None when it raises
    modelLoads: (string, Option<string>, Option<string>) -> bool,  // whether `whisperx.load_model` succeeds
    engine: string -> Option<EngineOutput>, // WhisperX transcribe + align; None when it raises
    absPath: string -> string)              // `os.path.abspath`

  /** One call into the outside world. */
  datatype Call =
    | Exec(argv: seq<string>)
    | Fetch(url: string, format: string, template: string)
    | LoadModel(model: string, device: Option<string>, computeType: Option<string>)
    | Transcribe(audio: string, language: Option<string>)
    | Align(languageCode: Option<string>, device: Option<string>)
    | WriteResult(format: string, outputFile: string, language: Option<string>)

  /** An exception that ends the program. */
  datatype Failure =
    | ToolFailed(argv: seq<string>, code: int)   // a subprocess failed under check=True
    | FetchFailed(url: string)                   // yt-dlp raised
    | Missing(path: string)                      // getmtime of a missing file
    | ModelFailed(model: string)                 // `whisperx.load_model` raised
    | EngineFailed(audio: string)                // WhisperX raised
    | UnknownFormat(format: string)              // KeyError in get_writer
    | Unsupported(path: string)                  // ValueError in convert_to_mp3
    | NoAttribute(name: string)                  // AttributeError: a field Config does not have

  /** What running a piece of the program did: its answer or exception, the
      file system afterwards, and the calls it made, in order. */
  datatype Effect<T> = Effect(result: Result<T, Failure>, fs: FileSystem, calls: seq<Call>)
}
