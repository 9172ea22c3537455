/**
 * The resolution engine of subgenx/sorcerer.py. Four sources are tried in
 * a fixed order on each location; the first that can handle it and answers
 * decides. A str answer is a final audio file, a list answer is further
 * locations, queued behind the others. `handle_location` drains the queue
 * and gives None instead of an empty list.
 */
module Sorcerer {
  import opened Wrappers
  import opened Seqs
  import opened Text
  import opened Paths
  import opened Files
  import opened Shell
  import opened Util

  datatype Source = AudioSource | VideoSource | YoutubeSource | DirectorySource

  /** `self.sources`, in the order they are tried. */
  const Sources: seq<Source> := [AudioSource, VideoSource, YoutubeSource, DirectorySource]

  /** A handler's answer other than None: a final file (a str) or further locations (a list). */
  datatype Found = Single(path: string) | More(locations: seq<string>)

  /** Each source's `can_handle`. */
  predicate CanHandle(src: Source, fs: FileSystem, location: string) {
    match src
    case AudioSource => IsAudioFile(fs, location)
    case VideoSource => IsVideoFile(fs, location)
    case YoutubeSource => IsYoutubeUrl(location)
    case DirectorySource => IsDir(fs, location)
  }

  /** The audio file `VideoSource.handle` produces for a video. */
  function Mp3Path(location: string): string {
    Root(location) + ".mp3"
  }

  /** The stream selector of the conversion, given only when a track is configured. */
  function TrackSelector(audioTrack: Option<int>): seq<string> {
    if audioTrack.Some? then ["-map", "0:a:" + IntToDecimal(audioTrack.value)] else []
  }

  /** The ffmpeg command of `VideoSource.handle`. */
  function ConvertCommand(location: string, audioTrack: Option<int>, mp3: string): (cmd: seq<string>)
    ensures |cmd| == if audioTrack.Some? then 12 else 10
    ensures cmd[..4] == ["ffmpeg", "-y", "-i", location]
    ensures cmd[|cmd| - 1] == mp3
    ensures cmd[4] == "-map" <==> audioTrack.Some?
    ensures audioTrack.Some? ==> cmd[5] == "0:a:" + IntToDecimal(audioTrack.value)
    ensures cmd[|cmd| - 6..|cmd| - 1] == ["-acodec", "libmp3lame", "-ab", "192k", "-vn"]
  {
    ["ffmpeg", "-y"] + ["-i", location] + TrackSelector(audioTrack)
    + ["-acodec", "libmp3lame"] + ["-ab", "192k"] + ["-vn"] + [mp3]
  }

  /** The stream selector names the configured track, 0 included. */
  lemma ConvertCommandTrack(location: string, track: int, mp3: string)
    ensures var cmd := ConvertCommand(location, Some(track), mp3);
      cmd[4] == "-map" && cmd[5][..4] == "0:a:" && IntValue(cmd[5][4..]) == track
  {
    var cmd := ConvertCommand(location, Some(track), mp3);
    assert cmd[5][4..] == IntToDecimal(track);
    IntToDecimalRoundTrip(track);
  }

  /** yt-dlp's format selection and output template. */
  const FetchFormat := "bestaudio/best"
  const FetchTemplate := "%(title)s.%(ext)s"

  /** What a directory walk keeps: audio and video files. */
  predicate Wanted(fs: FileSystem, path: string) {
    IsAudioFile(fs, path) || IsVideoFile(fs, path)
  }

  /** The files a directory walk collects from one root: every walked file
      that is an audio or a video file, in walk order. */
  function MatchesIn(fs: FileSystem, root: string, names: seq<string>): (r: seq<string>)
    ensures forall x :: x in r ==> Wanted(fs, x)
  {
    if names == [] then []
    else
      var full := Join(root, names[|names| - 1]);
      var r := MatchesIn(fs, root, names[..|names| - 1]);
      if Wanted(fs, full) then r + [full] else r
  }

  function Matches(fs: FileSystem, walk: seq<WalkStep>): (r: seq<string>)
    ensures forall x :: x in r ==> Wanted(fs, x)
  {
    if walk == [] then []
    else
      var last := walk[|walk| - 1];
      Matches(fs, walk[..|walk| - 1]) + MatchesIn(fs, last.root, last.files)
  }

  lemma MatchesInStep(fs: FileSystem, root: string, names: seq<string>, j: int)
    requires 0 <= j < |names|
    ensures MatchesIn(fs, root, names[..j + 1]) ==
      MatchesIn(fs, root, names[..j]) + if Wanted(fs, Join(root, names[j])) then [Join(root, names[j])] else []
  {
    PrefixStep(names, j);
  }

  lemma MatchesStep(fs: FileSystem, walk: seq<WalkStep>, k: int)
    requires 0 <= k < |walk|
    ensures Matches(fs, walk[..k + 1]) == Matches(fs, walk[..k]) + MatchesIn(fs, walk[k].root, walk[k].files)
  {
    PrefixStep(walk, k);
  }

  /** x is the j-th file of the k-th step of a walk. */
  predicate Walked(walk: seq<WalkStep>, k: int, j: int, x: string) {
    0 <= k < |walk| && 0 <= j < |walk[k].files| && x == Join(walk[k].root, walk[k].files[j])
  }

  lemma {:induction false} MatchesInMembers(fs: FileSystem, root: string, names: seq<string>, x: string)
    ensures x in MatchesIn(fs, root, names) <==> Wanted(fs, x) && exists j :: 0 <= j < |names| && x == Join(root, names[j])
  {
    if names != [] {
      var init := names[..|names| - 1];
      MatchesInMembers(fs, root, init, x);
      assert forall j :: 0 <= j < |init| ==> init[j] == names[j];
      if x == Join(root, names[|names| - 1]) {
      } else {
        assert (exists j :: 0 <= j < |names| && x == Join(root, names[j])) ==> exists j :: 0 <= j < |init| && x == Join(root, init[j]);
      }
    }
  }

  /** A file listed by a walk is listed by all of it but the last step, or by the last step. */
  lemma WalkedSplit(walk: seq<WalkStep>, x: string)
    requires walk != []
    ensures var init, last := walk[..|walk| - 1], walk[|walk| - 1];
      (exists k, j :: Walked(walk, k, j, x)) <==>
        (exists k, j :: Walked(init, k, j, x)) || exists j :: 0 <= j < |last.files| && x == Join(last.root, last.files[j])
  {
    var init, last := walk[..|walk| - 1], walk[|walk| - 1];
    if exists k, j :: Walked(init, k, j, x) {
      var k, j :| Walked(init, k, j, x);
      assert init[k] == walk[k];
      assert Walked(walk, k, j, x);
    }
    if exists j :: 0 <= j < |last.files| && x == Join(last.root, last.files[j]) {
      var j :| 0 <= j < |last.files| && x == Join(last.root, last.files[j]);
      assert Walked(walk, |walk| - 1, j, x);
    }
    if exists k, j :: Walked(walk, k, j, x) {
      var k, j :| Walked(walk, k, j, x);
      if k < |init| {
        assert init[k] == walk[k];
        assert Walked(init, k, j, x);
      } else {
        assert walk[k] == last;
      }
    }
  }

  /** The walk keeps exactly the audio and video files it lists. */
  lemma {:induction false} MatchesMembers(fs: FileSystem, walk: seq<WalkStep>, x: string)
    ensures x in Matches(fs, walk) <==> Wanted(fs, x) && exists k, j :: Walked(walk, k, j, x)
  {
    if walk != [] {
      var init, last := walk[..|walk| - 1], walk[|walk| - 1];
      MatchesMembers(fs, init, x);
      MatchesInMembers(fs, last.root, last.files, x);
      WalkedSplit(walk, x);
      assert Matches(fs, walk) == Matches(fs, init) + MatchesIn(fs, last.root, last.files);
    }
  }

  /** `DirectorySource.handle`: a lone match collapses to a str. */
  function DirectoryFound(fs: FileSystem, location: string): Found {
    var files := Matches(fs, Walk(fs, location));
    if |files| == 1 then Single(files[0]) else More(files)
  }

  /** What each source's `handle` does. None of them ever returns None. */
  function HandleSpec(src: Source, fs: FileSystem, world: World, config: Config, location: string): (e: Effect<Found>)
    ensures Evolves(fs, e.fs)
    ensures e.fs == fs || (src == VideoSource && e.fs == Write(fs, Mp3Path(location)))
    ensures e.result.Ok? && e.result.value.More? ==>
      src == DirectorySource && e.fs == fs && e.calls == [] &&
      forall l :: l in e.result.value.locations ==> Wanted(fs, l)
  {
    match src
    case AudioSource => Effect(Ok(Single(location)), fs, [])
    case VideoSource =>
      var mp3 := Mp3Path(location);
      (match UpToDate(fs, mp3, location)
       case Err(p) => Effect(Err(Missing(p)), fs, [])
       case Ok(true) => Effect(Ok(Single(mp3)), fs, [])
       case Ok(false) =>
         var cmd := ConvertCommand(location, config.audioTrack, mp3);
         var code := world.exitCode(cmd);
         EvolvesByWrite(fs, mp3);
         if code == 0 then Effect(Ok(Single(mp3)), Write(fs, mp3), [Exec(cmd)])
         else Effect(Err(ToolFailed(cmd, code)), fs, [Exec(cmd)]))
    case YoutubeSource =>
      var call := Fetch(location, FetchFormat, FetchTemplate);
      (match world.fetch(location)
       case Some(p) => Effect(Ok(Single(p)), fs, [call])
       case None => Effect(Err(FetchFailed(location)), fs, [call]))
    case DirectorySource => Effect(Ok(DirectoryFound(fs, location)), fs, [])
  }

  /** A handler's effect as seen by `_handle_single_location`: its answer is not None. */
  function Answered(e: Effect<Found>): Effect<Option<Found>> {
    Effect(match e.result case Ok(f) => Ok(Some(f)) case Err(x) => Err(x), e.fs, e.calls)
  }

  /** `_handle_single_location` from the i-th source on: the first source
      whose `can_handle` holds answers; None when there is none. */
  function FirstHandled(fs: FileSystem, world: World, config: Config, location: string, i: nat): (e: Effect<Option<Found>>)
    requires i <= |Sources|
    ensures Evolves(fs, e.fs)
    ensures e.fs == fs || e.fs == Write(fs, Mp3Path(location))
    ensures e.result == Ok(None) ==> e.fs == fs && e.calls == []
    ensures e.result.Ok? && e.result.value.Some? && e.result.value.value.More? ==>
      IsDir(fs, location) && e.fs == fs && e.calls == [] &&
      forall l :: l in e.result.value.value.locations ==> Wanted(fs, l)
    decreases |Sources| - i
  {
    if i == |Sources| then Effect(Ok(None), fs, [])
    else if CanHandle(Sources[i], fs, location) then
      Answered(HandleSpec(Sources[i], fs, world, config, location))
    else FirstHandled(fs, world, config, location, i + 1)
  }

  /** The answer for one location. */
  function Resolve(fs: FileSystem, world: World, config: Config, location: string): Effect<Option<Found>> {
    FirstHandled(fs, world, config, location, 0)
  }

  /** How many queued locations are directories: the measure that bounds the worklist. */
  function DirCount(fs: FileSystem, queue: seq<string>): nat {
    if queue == [] then 0 else DirCount(fs, queue[..|queue| - 1]) + (if IsDir(fs, queue[|queue| - 1]) then 1 else 0)
  }

  lemma {:induction false} DirCountAppend(fs: FileSystem, a: seq<string>, b: seq<string>)
    ensures DirCount(fs, a + b) == DirCount(fs, a) + DirCount(fs, b)
    decreases |b|
  {
    if b != [] {
      assert (a + b)[..|a + b| - 1] == a + b[..|b| - 1];
      DirCountAppend(fs, a, b[..|b| - 1]);
    } else {
      assert a + b == a;
    }
  }

  lemma {:induction false} DirCountNoDirs(fs: FileSystem, q: seq<string>)
    requires forall l :: l in q ==> Wanted(fs, l)
    ensures DirCount(fs, q) == 0
  {
    if q != [] {
      assert q[|q| - 1] in q;
      DirCountNoDirs(fs, q[..|q| - 1]);
    }
  }

  lemma {:induction false} DirCountEvolves(fs: FileSystem, fs': FileSystem, q: seq<string>)
    requires Evolves(fs, fs')
    ensures DirCount(fs', q) <= DirCount(fs, q)
  {
    if q != [] { DirCountEvolves(fs, fs', q[..|q| - 1]); }
  }

  /** One turn of the loop shrinks the queue, or trades a directory for files. */
  lemma StepDecreases(fs: FileSystem, world: World, config: Config, queue: seq<string>)
    requires queue != []
    ensures var e := Resolve(fs, world, config, queue[0]);
      var next := if e.result.Ok? && e.result.value.Some? && e.result.value.value.More?
        then queue[1..] + e.result.value.value.locations else queue[1..];
      DirCount(e.fs, next) < DirCount(fs, queue) ||
      (DirCount(e.fs, next) == DirCount(fs, queue) && |next| < |queue|)
  {
    var e := Resolve(fs, world, config, queue[0]);
    assert queue == [queue[0]] + queue[1..];
    DirCountAppend(fs, [queue[0]], queue[1..]);
    assert DirCount(fs, [queue[0]]) == if IsDir(fs, queue[0]) then 1 else 0;
    DirCountEvolves(fs, e.fs, queue[1..]);
    if e.result.Ok? && e.result.value.Some? && e.result.value.value.More? {
      var ls := e.result.value.value.locations;
      DirCountAppend(fs, queue[1..], ls);
      DirCountNoDirs(fs, ls);
    }
  }

  /**
   * `handle_location`'s loop as a function: the queue is served from the
   * front; a str is appended to the results, a list to the back of the
   * queue, None is dropped, and an exception ends everything.
   */
  function Drain(fs: FileSystem, world: World, config: Config, queue: seq<string>, results: seq<string>, calls: seq<Call>): Effect<seq<string>>
    decreases DirCount(fs, queue), |queue|
  {
    if queue == [] then Effect(Ok(results), fs, calls)
    else
      var e := Resolve(fs, world, config, queue[0]);
      StepDecreases(fs, world, config, queue);
      match e.result
      case Err(f) => Effect(Err(f), e.fs, calls + e.calls)
      case Ok(None) => Drain(e.fs, world, config, queue[1..], results, calls + e.calls)
      case Ok(Some(Single(p))) => Drain(e.fs, world, config, queue[1..], results + [p], calls + e.calls)
      case Ok(Some(More(ls))) => Drain(e.fs, world, config, queue[1..] + ls, results, calls + e.calls)
  }

  /** `results if results else None`, exceptions passed on. */
  function NoneIfEmpty(r: Result<seq<string>, Failure>): Result<Option<seq<string>>, Failure> {
    match r
    case Err(f) => Err(f)
    case Ok(rs) => Ok(if rs == [] then None else Some(rs))
  }

  /** What `handle_location(location)` returns, does to the file system, and calls. */
  function HandleLocationSpec(fs: FileSystem, world: World, config: Config, location: string): Effect<Option<seq<string>>> {
    var d := Drain(fs, world, config, [location], [], []);
    Effect(NoneIfEmpty(d.result), d.fs, d.calls)
  }

  // ---------------------------------------------------------------------
  // What the engine promises.

  /** The first source, in the order Audio, Video, Youtube, Directory, whose
      `can_handle` holds decides the answer. */
  lemma {:induction false} FirstApplicableWins(fs: FileSystem, world: World, config: Config, location: string, i: nat, j: nat)
    requires i <= j < |Sources|
    requires CanHandle(Sources[j], fs, location)
    requires forall k :: i <= k < j ==> !CanHandle(Sources[k], fs, location)
    ensures FirstHandled(fs, world, config, location, i) == Answered(HandleSpec(Sources[j], fs, world, config, location))
    decreases j - i
  {
    if i < j {
      FirstApplicableWins(fs, world, config, location, i + 1, j);
    }
  }

  /** With no source able to handle it, a location gets None. */
  lemma {:induction false} NoneApplicable(fs: FileSystem, world: World, config: Config, location: string, i: nat)
    requires i <= |Sources|
    requires forall k :: i <= k < |Sources| ==> !CanHandle(Sources[k], fs, location)
    ensures FirstHandled(fs, world, config, location, i) == Effect(Ok(None), fs, [])
    decreases |Sources| - i
  {
    if i < |Sources| {
      NoneApplicable(fs, world, config, location, i + 1);
    }
  }

  /** The dispatch, source by source. */
  lemma Dispatch(fs: FileSystem, world: World, config: Config, location: string)
    ensures Resolve(fs, world, config, location) ==
      if IsAudioFile(fs, location) then Answered(HandleSpec(AudioSource, fs, world, config, location))
      else if IsVideoFile(fs, location) then Answered(HandleSpec(VideoSource, fs, world, config, location))
      else if IsYoutubeUrl(location) then Answered(HandleSpec(YoutubeSource, fs, world, config, location))
      else if IsDir(fs, location) then Answered(HandleSpec(DirectorySource, fs, world, config, location))
      else Effect(Ok(None), fs, [])
  {
    if IsAudioFile(fs, location) {
      FirstApplicableWins(fs, world, config, location, 0, 0);
    } else if IsVideoFile(fs, location) {
      FirstApplicableWins(fs, world, config, location, 0, 1);
    } else if IsYoutubeUrl(location) {
      FirstApplicableWins(fs, world, config, location, 0, 2);
    } else if IsDir(fs, location) {
      FirstApplicableWins(fs, world, config, location, 0, 3);
    } else {
      NoneApplicable(fs, world, config, location, 0);
    }
  }

  /** `_handle_single_location` returns None exactly when no source can handle the location. */
  lemma UnhandledIff(fs: FileSystem, world: World, config: Config, location: string)
    ensures Resolve(fs, world, config, location).result == Ok(None) <==>
      forall k :: 0 <= k < |Sources| ==> !CanHandle(Sources[k], fs, location)
  {
    Dispatch(fs, world, config, location);
    assert Sources[0] == AudioSource && Sources[1] == VideoSource;
    assert Sources[2] == YoutubeSource && Sources[3] == DirectorySource;
  }

  /** `handle_location` after its first turn: a final file is the whole
      answer, a list is drained in its turn. */
  lemma HandleLocationFirstTurn(fs: FileSystem, world: World, config: Config, location: string)
    ensures var e := Resolve(fs, world, config, location);
      HandleLocationSpec(fs, world, config, location) ==
        if e.result.Err? then Effect(Err(e.result.error), e.fs, e.calls)
        else if e.result.value.None? then Effect(Ok(None), e.fs, e.calls)
        else if e.result.value.value.Single? then Effect(Ok(Some([e.result.value.value.path])), e.fs, e.calls)
        else
          var d := Drain(fs, world, config, e.result.value.value.locations, [], []);
          Effect(NoneIfEmpty(d.result), d.fs, d.calls)
  {
    var e := Resolve(fs, world, config, location);
    var d := Drain(fs, world, config, [location], [], []);
    assert [location][1..] == [];
    assert [] + e.calls == e.calls;
    match e.result
    case Err(f) =>
    case Ok(None) =>
      assert d == Drain(e.fs, world, config, [], [], e.calls);
    case Ok(Some(Single(p))) =>
      assert [] + [p] == [p];
      assert d == Drain(e.fs, world, config, [], [p], e.calls);
    case Ok(Some(More(ls))) =>
      assert [location][1..] + ls == ls;
  }

  /** An unhandled location resolves to None, with nothing called. */
  lemma UnhandledLocation(fs: FileSystem, world: World, config: Config, location: string)
    requires forall k :: 0 <= k < |Sources| ==> !CanHandle(Sources[k], fs, location)
    ensures HandleLocationSpec(fs, world, config, location) == Effect(Ok(None), fs, [])
  {
    UnhandledIff(fs, world, config, location);
    HandleLocationFirstTurn(fs, world, config, location);
  }

  /** An audio file resolves to itself. */
  lemma AudioLocation(fs: FileSystem, world: World, config: Config, location: string)
    requires IsAudioFile(fs, location)
    ensures HandleLocationSpec(fs, world, config, location) == Effect(Ok(Some([location])), fs, [])
  {
    Dispatch(fs, world, config, location);
    HandleLocationFirstTurn(fs, world, config, location);
  }

  /** A video file resolves to its mp3. ffmpeg runs unless the mp3 exists
      with a strictly later modification time; equal times mean conversion. */
  lemma VideoLocation(fs: FileSystem, world: World, config: Config, location: string)
    requires IsVideoFile(fs, location)
    ensures var h := HandleLocationSpec(fs, world, config, location);
      var mp3 := Mp3Path(location);
      var cmd := ConvertCommand(location, config.audioTrack, mp3);
      && (h.calls == [] <==> Exists(fs, mp3) && MTime(fs, mp3) > MTime(fs, location))
      && (h.calls == [] ==> h == Effect(Ok(Some([mp3])), fs, []))
      && (h.calls != [] ==>
            h == if world.exitCode(cmd) == 0 then Effect(Ok(Some([mp3])), Write(fs, mp3), [Exec(cmd)])
                 else Effect(Err(ToolFailed(cmd, world.exitCode(cmd))), fs, [Exec(cmd)]))
  {
    Dispatch(fs, world, config, location);
    AudioVideoDisjoint(fs, location);
    HandleLocationFirstTurn(fs, world, config, location);
  }

  /** A directory with one audio or video file in it resolves to that file
      as it is: a lone video is not converted. */
  lemma LoneMatchNotConverted(fs: FileSystem, world: World, config: Config, location: string, only: string)
    requires IsDir(fs, location) && !IsYoutubeUrl(location)
    requires Matches(fs, Walk(fs, location)) == [only]
    ensures HandleLocationSpec(fs, world, config, location) == Effect(Ok(Some([only])), fs, [])
  {
    Dispatch(fs, world, config, location);
    NotARegularFile(fs, location);
    HandleLocationFirstTurn(fs, world, config, location);
  }

  /** A directory with no audio or video file in it resolves to None, as an
      unhandled location does. */
  lemma EmptyDirectoryIsNone(fs: FileSystem, world: World, config: Config, location: string)
    requires IsDir(fs, location) && !IsYoutubeUrl(location)
    requires Matches(fs, Walk(fs, location)) == []
    ensures HandleLocationSpec(fs, world, config, location) == Effect(Ok(None), fs, [])
  {
    Dispatch(fs, world, config, location);
    NotARegularFile(fs, location);
    HandleLocationFirstTurn(fs, world, config, location);
    assert Drain(fs, world, config, [], [], []).result == Ok([]);
  }

  /** What one queued audio or video file turns into. */
  function Converted(fs: FileSystem, path: string): string {
    if IsAudioFile(fs, path) then path else Mp3Path(path)
  }

  function ConvertedAll(fs: FileSystem, q: seq<string>): seq<string> {
    if q == [] then [] else [Converted(fs, q[0])] + ConvertedAll(fs, q[1..])
  }

  lemma WantedEvolves(fs: FileSystem, fs': FileSystem, path: string)
    requires Evolves(fs, fs') && Wanted(fs, path)
    ensures Wanted(fs', path) && Converted(fs', path) == Converted(fs, path)
  {
  }

  lemma {:induction false} ConvertedAllEvolves(fs: FileSystem, fs': FileSystem, q: seq<string>)
    requires Evolves(fs, fs')
    requires forall l :: l in q ==> Wanted(fs, l)
    ensures forall l :: l in q ==> Wanted(fs', l)
    ensures ConvertedAll(fs', q) == ConvertedAll(fs, q)
  {
    forall l | l in q ensures Wanted(fs', l) { WantedEvolves(fs, fs', l); }
    if q != [] {
      assert q[0] in q;
      WantedEvolves(fs, fs', q[0]);
      ConvertedAllEvolves(fs, fs', q[1..]);
    }
  }

  /** A queued audio or video file yields one final file: itself, or its mp3. */
  lemma ResolveWanted(fs: FileSystem, world: World, config: Config, path: string)
    requires Wanted(fs, path)
    ensures var e := Resolve(fs, world, config, path);
      e.result.Ok? ==> e.result.value == Some(Single(Converted(fs, path)))
    ensures var e := Resolve(fs, world, config, path);
      e.result.Err? ==> e.result.error.ToolFailed? && e.calls == [Exec(e.result.error.argv)]
  {
    Dispatch(fs, world, config, path);
    AudioVideoDisjoint(fs, path);
  }

  /** Draining a queue of audio and video files appends, in queue order, one
      final file for each of them, unless an exception ends the run. */
  lemma {:induction false} DrainFiles(fs: FileSystem, world: World, config: Config, q: seq<string>, results: seq<string>, calls: seq<Call>)
    requires forall l :: l in q ==> Wanted(fs, l)
    ensures var d := Drain(fs, world, config, q, results, calls);
      d.result.Ok? ==> d.result.value == results + ConvertedAll(fs, q)
    decreases |q|
  {
    if q != [] {
      assert q[0] in q;
      var e := Resolve(fs, world, config, q[0]);
      ResolveWanted(fs, world, config, q[0]);
      DirCountNoDirs(fs, q);
      if e.result.Ok? {
        forall l | l in q[1..] ensures Wanted(fs, l) { assert l in q; }
        ConvertedAllEvolves(fs, e.fs, q[1..]);
        DrainFiles(e.fs, world, config, q[1..], results + [Converted(fs, q[0])], calls + e.calls);
      }
    }
  }

  /** A directory that is not also a YouTube URL goes to DirectorySource. */
  lemma ResolveDirectory(fs: FileSystem, world: World, config: Config, location: string)
    requires IsDir(fs, location) && !IsYoutubeUrl(location)
    ensures Resolve(fs, world, config, location) == Effect(Ok(Some(DirectoryFound(fs, location))), fs, [])
  {
    NotARegularFile(fs, location);
    FirstApplicableWins(fs, world, config, location, 0, 3);
  }

  /** A directory with several matches resolves to one final file per match,
      in walk order: audio files as they are, videos as their mp3. */
  lemma DirectoryLocation(fs: FileSystem, world: World, config: Config, location: string)
    requires IsDir(fs, location) && !IsYoutubeUrl(location)
    requires |Matches(fs, Walk(fs, location))| != 1
    ensures var h := HandleLocationSpec(fs, world, config, location);
      var files := Matches(fs, Walk(fs, location));
      h.result.Ok? ==> h.result.value == if files == [] then None else Some(ConvertedAll(fs, files))
  {
    var files := Matches(fs, Walk(fs, location));
    ResolveDirectory(fs, world, config, location);
    HandleLocationFirstTurn(fs, world, config, location);
    assert DirectoryFound(fs, location) == More(files);
    DrainFiles(fs, world, config, files, [], []);
    assert [] + ConvertedAll(fs, files) == ConvertedAll(fs, files);
    if files != [] { assert ConvertedAll(fs, files) != []; }
  }

  /** The only outside calls resolution makes: ffmpeg conversions and yt-dlp downloads. */
  predicate ResolutionCalls(calls: seq<Call>) {
    forall c :: c in calls ==> c.Exec? || c.Fetch?
  }

  lemma ResolveCalls(fs: FileSystem, world: World, config: Config, location: string)
    ensures ResolutionCalls(Resolve(fs, world, config, location).calls)
  {
    Dispatch(fs, world, config, location);
  }

  lemma {:induction false} DrainCalls(fs: FileSystem, world: World, config: Config, queue: seq<string>, results: seq<string>, calls: seq<Call>)
    requires ResolutionCalls(calls)
    ensures ResolutionCalls(Drain(fs, world, config, queue, results, calls).calls)
    decreases DirCount(fs, queue), |queue|
  {
    if queue != [] {
      var e := Resolve(fs, world, config, queue[0]);
      StepDecreases(fs, world, config, queue);
      ResolveCalls(fs, world, config, queue[0]);
      assert ResolutionCalls(calls + e.calls);
      match e.result
      case Err(f) =>
      case Ok(None) => DrainCalls(e.fs, world, config, queue[1..], results, calls + e.calls);
      case Ok(Some(Single(p))) => DrainCalls(e.fs, world, config, queue[1..], results + [p], calls + e.calls);
      case Ok(Some(More(ls))) => DrainCalls(e.fs, world, config, queue[1..] + ls, results, calls + e.calls);
    }
  }

  /** `handle_location` never loads a transcription model: it only runs
      ffmpeg conversions and yt-dlp downloads. */
  lemma HandleLocationCalls(fs: FileSystem, world: World, config: Config, location: string)
    ensures ResolutionCalls(HandleLocationSpec(fs, world, config, location).calls)
  {
    DrainCalls(fs, world, config, [location], [], []);
  }

  /** `handle_location` leaves the file system as a run may change it. */
  lemma {:induction false} DrainEvolves(fs: FileSystem, world: World, config: Config, queue: seq<string>, results: seq<string>, calls: seq<Call>)
    ensures Evolves(fs, Drain(fs, world, config, queue, results, calls).fs)
    decreases DirCount(fs, queue), |queue|
  {
    if queue != [] {
      var e := Resolve(fs, world, config, queue[0]);
      StepDecreases(fs, world, config, queue);
      match e.result
      case Err(f) =>
      case Ok(None) =>
        DrainEvolves(e.fs, world, config, queue[1..], results, calls + e.calls);
        EvolvesTransitive(fs, e.fs, Drain(e.fs, world, config, queue[1..], results, calls + e.calls).fs);
      case Ok(Some(Single(p))) =>
        DrainEvolves(e.fs, world, config, queue[1..], results + [p], calls + e.calls);
        EvolvesTransitive(fs, e.fs, Drain(e.fs, world, config, queue[1..], results + [p], calls + e.calls).fs);
      case Ok(Some(More(ls))) =>
        DrainEvolves(e.fs, world, config, queue[1..] + ls, results, calls + e.calls);
        EvolvesTransitive(fs, e.fs, Drain(e.fs, world, config, queue[1..] + ls, results, calls + e.calls).fs);
    }
  }

  /** Only conversions write, and each stamps its mp3 with the clock, so
      resolution keeps every modification time before the clock. */
  lemma {:induction false} DrainSettled(fs: FileSystem, world: World, config: Config, queue: seq<string>, results: seq<string>, calls: seq<Call>)
    requires Settled(fs)
    ensures Settled(Drain(fs, world, config, queue, results, calls).fs)
    decreases DirCount(fs, queue), |queue|
  {
    if queue != [] {
      var e := Resolve(fs, world, config, queue[0]);
      StepDecreases(fs, world, config, queue);
      if e.fs != fs {
        WriteSettled(fs, Mp3Path(queue[0]));
      }
      match e.result
      case Err(f) =>
      case Ok(None) =>
        DrainSettled(e.fs, world, config, queue[1..], results, calls + e.calls);
      case Ok(Some(Single(p))) =>
        DrainSettled(e.fs, world, config, queue[1..], results + [p], calls + e.calls);
      case Ok(Some(More(ls))) =>
        DrainSettled(e.fs, world, config, queue[1..] + ls, results, calls + e.calls);
    }
  }

  // ---------------------------------------------------------------------
  // The imperative code.

  /** `VideoSource.handle`: reuse the mp3 when it is fresh, otherwise run ffmpeg. */
  method VideoHandle(fs: FileSystem, world: World, config: Config, location: string)
    returns (r: Result<Found, Failure>, fs': FileSystem, calls: seq<Call>)
    ensures Effect(r, fs', calls) == HandleSpec(VideoSource, fs, world, config, location)
  {
    var mp3Path := Mp3Path(location);
    fs', calls := fs, [];
    var upToDate := UpToDate(fs, mp3Path, location);
    if upToDate.Err? {
      r := Err(Missing(upToDate.error));
      return;
    }
    if upToDate.value {
      r := Ok(Single(mp3Path));
      return;
    }
    var cmd := ["ffmpeg", "-y"];
    cmd := cmd + ["-i", location];
    if config.audioTrack.Some? {
      cmd := cmd + ["-map", "0:a:" + IntToDecimal(config.audioTrack.value)];
    } else {
      AppendNil(cmd);
    }
    assert cmd == ["ffmpeg", "-y"] + ["-i", location] + TrackSelector(config.audioTrack);
    cmd := cmd + ["-acodec", "libmp3lame"];
    cmd := cmd + ["-ab", "192k"];
    cmd := cmd + ["-vn"];
    cmd := cmd + [mp3Path];
    assert cmd == ConvertCommand(location, config.audioTrack, mp3Path);
    calls := calls + [Exec(cmd)];
    var code := world.exitCode(cmd);
    if code != 0 {
      r := Err(ToolFailed(cmd, code));
      return;
    }
    fs' := Write(fs, mp3Path);
    r := Ok(Single(mp3Path));
  }

  /** `YoutubeSource.handle`: the download itself is yt-dlp's. */
  method YoutubeHandle(fs: FileSystem, world: World, location: string)
    returns (r: Result<Found, Failure>, calls: seq<Call>)
    ensures calls == [Fetch(location, FetchFormat, FetchTemplate)]
    ensures r == match world.fetch(location) case Some(p) => Ok(Single(p)) case None => Err(FetchFailed(location))
  {
    calls := [Fetch(location, FetchFormat, FetchTemplate)];
    var fetched := world.fetch(location);
    if fetched.Some? {
      r := Ok(Single(fetched.value));
    } else {
      r := Err(FetchFailed(location));
    }
  }

  /** `DirectorySource.handle`: walk, keep audio and video files, collapse a lone match. */
  method DirectoryHandle(fs: FileSystem, location: string) returns (found: Found)
    ensures found == DirectoryFound(fs, location)
    ensures found.More? ==> |found.locations| != 1
    ensures forall x :: x in (if found.Single? then [found.path] else found.locations) ==> Wanted(fs, x)
  {
    var audioFiles: seq<string> := [];
    var walk := Walk(fs, location);
    for k := 0 to |walk|
      invariant audioFiles == Matches(fs, walk[..k])
    {
      var step := walk[k];
      for j := 0 to |step.files|
        invariant audioFiles == Matches(fs, walk[..k]) + MatchesIn(fs, step.root, step.files[..j])
      {
        var fullPath := Join(step.root, step.files[j]);
        MatchesInStep(fs, step.root, step.files, j);
        if IsAudioFile(fs, fullPath) || IsVideoFile(fs, fullPath) {
          AppendAssoc(Matches(fs, walk[..k]), MatchesIn(fs, step.root, step.files[..j]), [fullPath]);
          audioFiles := audioFiles + [fullPath];
        }
      }
      Whole(step.files);
      MatchesStep(fs, walk, k);
    }
    Whole(walk);
    if |audioFiles| == 1 {
      found := Single(audioFiles[0]);
    } else {
      found := More(audioFiles);
    }
  }

  /** One source's `handle`. */
  method Handle(src: Source, fs: FileSystem, world: World, config: Config, location: string)
    returns (r: Result<Found, Failure>, fs': FileSystem, calls: seq<Call>)
    ensures Effect(r, fs', calls) == HandleSpec(src, fs, world, config, location)
  {
    match src
    case AudioSource =>
      r, fs', calls := Ok(Single(location)), fs, [];
    case VideoSource =>
      r, fs', calls := VideoHandle(fs, world, config, location);
    case YoutubeSource =>
      r, calls := YoutubeHandle(fs, world, location);
      fs' := fs;
    case DirectorySource =>
      var found := DirectoryHandle(fs, location);
      r, fs', calls := Ok(found), fs, [];
  }

  /** `_handle_single_location`: the first source that can handle the location answers. */
  method HandleSingle(fs: FileSystem, world: World, config: Config, location: string)
    returns (r: Result<Option<Found>, Failure>, fs': FileSystem, calls: seq<Call>)
    ensures Effect(r, fs', calls) == Resolve(fs, world, config, location)
  {
    for i := 0 to |Sources|
      invariant FirstHandled(fs, world, config, location, i) == Resolve(fs, world, config, location)
    {
      var source := Sources[i];
      if CanHandle(source, fs, location) {
        var res;
        res, fs', calls := Handle(source, fs, world, config, location);
        r := match res case Ok(f) => Ok(Some(f)) case Err(x) => Err(x);
        assert Effect(r, fs', calls) == Answered(HandleSpec(source, fs, world, config, location));
        return;
      }
    }
    r, fs', calls := Ok(None), fs, [];
  }

  /** `handle_location`: drain the queue seeded with one location. */
  method HandleLocation(fs: FileSystem, world: World, config: Config, location: string)
    returns (r: Result<Option<seq<string>>, Failure>, fs': FileSystem, calls: seq<Call>)
    ensures Effect(r, fs', calls) == HandleLocationSpec(fs, world, config, location)
  {
    var results: seq<string> := [];
    var locationQueue := [location];
    fs', calls := fs, [];
    while |locationQueue| > 0
      invariant Drain(fs', world, config, locationQueue, results, calls) == Drain(fs, world, config, [location], [], [])
      decreases DirCount(fs', locationQueue), |locationQueue|
    {
      StepDecreases(fs', world, config, locationQueue);
      var currentLocation := locationQueue[0];
      var result, fs2, c := HandleSingle(fs', world, config, currentLocation);
      locationQueue := locationQueue[1..];
      calls, fs' := calls + c, fs2;
      match result
      case Err(f) =>
        r := Err(f);
        return;
      case Ok(None) =>
      case Ok(Some(Single(p))) =>
        results := results + [p];
      case Ok(Some(More(ls))) =>
        locationQueue := locationQueue + ls;
    }
    r := if results == [] then Ok(None) else Ok(Some(results));
  }
}
