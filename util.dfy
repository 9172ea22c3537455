/**
 * The configuration record and the classifiers of subgenx/util.py: audio
 * and video files by extension, and YouTube URLs by substring.
 */
module Util {
  import opened Wrappers
  import opened Text
  import opened Paths
  import opened Files

  /** The configuration snapshot built once by the command line. */
  datatype Config = Config(
    baseCmd: seq<string>,
    locations: seq<string>,
    force: bool,
    audioTrack: Option<int>,
    ytDownloadVideo: bool,
    ytDownloadSubtitles: bool,
    model: string,
    outputFormat: string,
    device: Option<string>,
    language: Option<string>,
    computeType: Option<string>)

  /** Python truthiness of an optional string: present and non-empty. */
  predicate Truthy(s: Option<string>) {
    s.Some? && s.value != ""
  }

  const AudioExtensions: seq<string> := [".mp3", ".m4a", ".wav", ".flac", ".aac", ".ogg", ".opus"]
  const VideoExtensions: seq<string> := [".mp4", ".mkv", ".avi", ".mov", ".flv", ".webm"]

  /** `is_audio_file`: a regular file whose lower-cased extension is an audio one. */
  predicate IsAudioFile(fs: FileSystem, path: string) {
    IsFile(fs, path) && Lower(Ext(path)) in AudioExtensions
  }

  /** `is_video_file`: a regular file whose lower-cased extension is a video one. */
  predicate IsVideoFile(fs: FileSystem, path: string) {
    IsFile(fs, path) && Lower(Ext(path)) in VideoExtensions
  }

  /** `is_youtube_url`: a plain, case-sensitive substring test; no host parsing. */
  predicate IsYoutubeUrl(url: string) {
    Contains(url, "youtube.com/watch") || Contains(url, "youtu.be") || Contains(url, "youtube.com/shorts")
  }

  /** Both classifiers are false of a directory, of a special file, and of a missing path. */
  lemma NotARegularFile(fs: FileSystem, path: string)
    requires !IsFile(fs, path)
    ensures !IsAudioFile(fs, path) && !IsVideoFile(fs, path)
  {
  }

  /** No path is both an audio file and a video file. */
  lemma AudioVideoDisjoint(fs: FileSystem, path: string)
    ensures !(IsAudioFile(fs, path) && IsVideoFile(fs, path))
  {
  }

  /** Two paths that agree up to case have the same lower-cased extension. */
  lemma {:induction false} LowerSameExtension(p: string, q: string)
    requires Lower(p) == Lower(q)
    ensures Lower(Ext(p)) == Lower(Ext(q))
  {
    forall i | 0 <= i < |p| ensures (p[i] == '.' <==> q[i] == '.') && (p[i] == '/' <==> q[i] == '/') {
      assert Lower(p)[i] == Lower(q)[i];
      LowerKeepsSeparators(p[i]);
      LowerKeepsSeparators(q[i]);
    }
    ExtStartSameSeparators(p, q);
    var k := ExtStart(p);
    assert Lower(Ext(p)) == Lower(p)[k..];
    assert Lower(Ext(q)) == Lower(q)[k..];
  }

  /** Extension matching ignores case: `x.MP3` and `x.mp3` classify alike
      (given that both are regular files). */
  lemma CaseInsensitive(fs: FileSystem, p: string, q: string)
    requires Lower(p) == Lower(q)
    requires IsFile(fs, p) && IsFile(fs, q)
    ensures IsAudioFile(fs, p) == IsAudioFile(fs, q)
    ensures IsVideoFile(fs, p) == IsVideoFile(fs, q)
  {
    LowerSameExtension(p, q);
  }

  /** The URL test is three substring searches and nothing more. */
  lemma YoutubeUrlBySubstring(url: string)
    ensures IsYoutubeUrl(url) <==>
      (exists i :: OccursAt(url, "youtube.com/watch", i)) ||
      (exists i :: OccursAt(url, "youtu.be", i)) ||
      (exists i :: OccursAt(url, "youtube.com/shorts", i))
  {
  }

  /** A known host named in the path of another host's URL still matches. */
  lemma YoutubeUrlIgnoresHost()
    ensures IsYoutubeUrl("https://example.com/youtu.be/video")
  {
    assert OccursAt("https://example.com/youtu.be/video", "youtu.be", 20);
  }
}
