/**
 * The file system as the program sees it: a map from path to node, each
 * node with an integer modification time, the listing `os.walk` produces
 * for each directory, and a clock that stamps the files the external tools
 * write. The freshness gate compares modification times.
 */
module Files {
  import opened Wrappers

  /** A regular file, a directory, or anything else that exists (a fifo, a device). */
  datatype Node = File(mtime: int) | Dir(mtime: int) | Special(mtime: int)

  /** One `(root, dirs, files)` triple of `os.walk`; only root and files are used. */
  datatype WalkStep = WalkStep(root: string, files: seq<string>)

  datatype FileSystem = FileSystem(nodes: map<string, Node>, walks: map<string, seq<WalkStep>>, now: int)

  /** `os.path.exists` */
  predicate Exists(fs: FileSystem, p: string) {
    p in fs.nodes
  }

  /** `os.path.isfile` */
  predicate IsFile(fs: FileSystem, p: string) {
    p in fs.nodes && fs.nodes[p].File?
  }

  /** `os.path.isdir` */
  predicate IsDir(fs: FileSystem, p: string) {
    p in fs.nodes && fs.nodes[p].Dir?
  }

  /** `os.path.getmtime` of an existing path. */
  function MTime(fs: FileSystem, p: string): int
    requires Exists(fs, p)
  {
    fs.nodes[p].mtime
  }

  /** `os.walk(top)`: the recorded listing of a directory, in whatever order
      the operating system gave it; nothing for anything but a directory. */
  function Walk(fs: FileSystem, top: string): seq<WalkStep> {
    if IsDir(fs, top) && top in fs.walks then fs.walks[top] else []
  }

  /** File names in a walk never contain '/'. */
  ghost predicate PlainWalkNames(fs: FileSystem) {
    forall top, k, j :: top in fs.walks && 0 <= k < |fs.walks[top]| && 0 <= j < |fs.walks[top][k].files| ==>
      '/' !in fs.walks[top][k].files[j]
  }

  /** Every recorded modification time lies before the clock. */
  ghost predicate Settled(fs: FileSystem) {
    forall p :: p in fs.nodes ==> fs.nodes[p].mtime < fs.now
  }

  /** An external tool writes p: it becomes a regular file stamped with the
      clock, and the clock moves on. */
  function Write(fs: FileSystem, p: string): (fs': FileSystem)
    ensures IsFile(fs', p) && MTime(fs', p) == fs.now && fs.now < fs'.now
    ensures forall q :: q != p ==> (q in fs'.nodes <==> q in fs.nodes)
    ensures forall q :: q != p && q in fs.nodes ==> fs'.nodes[q] == fs.nodes[q]
    ensures fs'.walks == fs.walks
  {
    fs.(nodes := fs.nodes[p := File(fs.now)], now := fs.now + 1)
  }

  /** A write stamped by a settled clock leaves the file system settled. */
  lemma WriteSettled(fs: FileSystem, p: string)
    requires Settled(fs)
    ensures Settled(Write(fs, p))
  {
  }

  /** How the file system may change during a run: regular files stay
      regular files, no directory appears, walks are fixed, the clock only
      advances. */
  ghost predicate Evolves(fs: FileSystem, fs': FileSystem) {
    && (forall p :: IsFile(fs, p) ==> IsFile(fs', p))
    && (forall p :: IsDir(fs', p) ==> IsDir(fs, p))
    && fs'.walks == fs.walks
    && fs.now <= fs'.now
  }

  lemma EvolvesByWrite(fs: FileSystem, p: string)
    ensures Evolves(fs, Write(fs, p))
  {
  }

  lemma EvolvesTransitive(a: FileSystem, b: FileSystem, c: FileSystem)
    requires Evolves(a, b) && Evolves(b, c)
    ensures Evolves(a, c)
  {
  }

  /**
   * The freshness gate, `os.path.exists(derived) and os.path.getmtime(derived)
   * > os.path.getmtime(source)`: Ok(true) means the derived file is reused.
   * `getmtime` of a missing source raises FileNotFoundError, given as Err
   * with the missing path; it is only reached when the derived file exists.
   */
  function UpToDate(fs: FileSystem, derived: string, source: string): (r: Result<bool, string>)
    ensures r == Ok(true) <==> Exists(fs, derived) && Exists(fs, source) && MTime(fs, derived) > MTime(fs, source)
    ensures r.Err? <==> Exists(fs, derived) && !Exists(fs, source)
    ensures r.Err? ==> r.error == source
  {
    if !Exists(fs, derived) then Ok(false)
    else if !Exists(fs, source) then Err(source)
    else Ok(MTime(fs, derived) > MTime(fs, source))
  }

  /** Equal modification times mean regenerate. */
  lemma EqualTimesRegenerate(fs: FileSystem, derived: string, source: string)
    requires Exists(fs, derived) && Exists(fs, source)
    requires MTime(fs, derived) == MTime(fs, source)
    ensures UpToDate(fs, derived, source) == Ok(false)
  {
  }

  /** Whatever the tool wrote a moment ago is up to date against a source
      that existed before it, in a settled file system. */
  lemma FreshAfterWrite(fs: FileSystem, derived: string, source: string)
    requires Settled(fs) && Exists(fs, source) && source != derived
    ensures UpToDate(Write(fs, derived), derived, source) == Ok(true)
  {
  }

  /** A derived file stays up to date through later writes, as long as none
      of them rewrites its source: a rewrite of the derived file itself is
      stamped later still. */
  lemma FreshThroughWrite(fs: FileSystem, derived: string, source: string, p: string)
    requires Settled(fs) && UpToDate(fs, derived, source) == Ok(true) && p != source
    ensures UpToDate(Write(fs, p), derived, source) == Ok(true)
  {
    if p != derived {
      assert Write(fs, p).nodes[derived] == fs.nodes[derived];
    }
    assert Write(fs, p).nodes[source] == fs.nodes[source];
  }
}
