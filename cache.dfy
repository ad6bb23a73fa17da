/**
 * The artifact cache of `src/server/cache.ts`: each hash names one file
 * in a single directory made once, when the module is loaded, and the
 * mode switch (`CACHE_MODE`) can turn the whole cache off.
 *
 * The filesystem is seen as the regular files it holds (path to bytes)
 * and the directories that exist.
 */
module Cache {
  import opened Results
  import opened Paths

  newtype byte = x: int | 0 <= x < 256

  /** The cache modes the configuration type allows. */
  datatype CacheMode = Filesystem | Off

  datatype FsCode = NoEntry | IsDirectory | NotDirectory

  datatype CacheError =
    | NoCacheEnabled              // the TypeError('No cache enabled') of mode 'none'
    | InvalidPath(path: Path)     // ERR_INVALID_ARG_VALUE: a path with a NUL character
    | FsFailure(code: FsCode, path: Path)

  /** The entry the kernel resolves `p` to: `p` without its trailing slashes (the root stays "/"). */
  function Unslashed(p: Path): Path
    decreases |p|
  {
    if |p| > 1 && p[|p| - 1] == '/' then Unslashed(p[..|p| - 1]) else p
  }

  /** A path as the filesystem stores it: no NUL character and no trailing slash. */
  predicate Stored(p: Path)
  {
    '\0' !in p && Unslashed(p) == p
  }

  /** A filesystem: the regular files with their contents and the directories. */
  datatype Disk = Disk(files: map<Path, seq<byte>>, dirs: set<Path>)
  {
    ghost predicate Valid()
    {
      files.Keys !! dirs && (forall p | p in files :: Stored(p)) && (forall p | p in dirs :: Stored(p))
    }

    /** `p` resolves to a directory (a trailing slash is allowed). */
    predicate NamesDirectory(p: Path)
    {
      '\0' !in p && Unslashed(p) in dirs
    }

    /**
     * `fs.existsSync`: a path with a NUL character never exists, a trailing
     * slash only reaches a directory.
     */
    predicate Exists(p: Path)
    {
      NamesDirectory(p) || ('\0' !in p && Unslashed(p) == p && p in files)
    }
  }

  /** Reading a whole file through `createReadStream`. */
  function ReadFile(d: Disk, p: Path): (r: Result<seq<byte>, CacheError>)
    ensures r.Ok? <==> Stored(p) && p in d.files && p !in d.dirs
    ensures r.Ok? ==> r.value == d.files[p]
    ensures r == Err(FsFailure(IsDirectory, p)) <==> d.NamesDirectory(p)
    ensures r == Err(InvalidPath(p)) <==> '\0' in p
  {
    if '\0' in p then Err(InvalidPath(p))
    else if Unslashed(p) in d.dirs then Err(FsFailure(IsDirectory, p))
    else if Unslashed(p) != p then Err(FsFailure(if Unslashed(p) in d.files then NotDirectory else NoEntry, p))
    else if p in d.files then Ok(d.files[p])
    else Err(FsFailure(NoEntry, p))
  }

  /**
   * `fs.promises.writeFile`: creates or truncates a regular file whose directory exists.
   * Its `open(2)` with `O_CREAT` looks up the parent first: a missing parent is ENOENT;
   * then a trailing slash or an existing directory is EISDIR.
   */
  function WriteFile(d: Disk, p: Path, data: seq<byte>): (r: Result<Disk, CacheError>)
    ensures r.Ok? <==> Stored(p) && p !in d.dirs && Parent(p) in d.dirs
    ensures r.Ok? ==> r.value == Disk(d.files[p := data], d.dirs)
    ensures r.Ok? && d.Valid() ==> r.value.Valid()
    ensures r == Err(InvalidPath(p)) <==> '\0' in p
    ensures r == Err(FsFailure(IsDirectory, p)) <==>
      '\0' !in p && (Unslashed(p) in d.dirs || (Unslashed(p) != p && Parent(Unslashed(p)) in d.dirs))
    ensures r == Err(FsFailure(NoEntry, p)) <==>
      '\0' !in p && Unslashed(p) !in d.dirs && Parent(Unslashed(p)) !in d.dirs
    ensures r.Err? ==> r.error.InvalidPath? || r.error == FsFailure(IsDirectory, p) || r.error == FsFailure(NoEntry, p)
  {
    if '\0' in p then Err(InvalidPath(p))
    else if Unslashed(p) in d.dirs then Err(FsFailure(IsDirectory, p))
    else if Unslashed(p) != p then Err(FsFailure(if Parent(Unslashed(p)) in d.dirs then IsDirectory else NoEntry, p))
    else if Parent(p) !in d.dirs then Err(FsFailure(NoEntry, p))
    else Ok(Disk(d.files[p := data], d.dirs))
  }

  /** `getFileFromHash`: the cache file for `hash` (cache.ts:16-18). */
  function FileFromHash(cacheDir: Path, hash: string): Path
  {
    Join(cacheDir, hash)
  }

  // -----------------------------------------------------------------------
  // The three operations as functions of the mode, the settled `cacheDir`
  // promise and the filesystem. `cacheDir` is an error when `mkdtemp` failed;
  // in filesystem mode every operation then rejects with that error.

  /** `isInCache` (cache.ts:20-26). */
  function Has(mode: CacheMode, cacheDir: Result<Path, CacheError>, d: Disk, hash: string): (r: Result<bool, CacheError>)
    ensures mode == Off ==> r == Ok(false)
  {
    if mode == Off then Ok(false)
    else if cacheDir.Err? then Err(cacheDir.error)
    else Ok(d.Exists(FileFromHash(cacheDir.value, hash)))
  }

  /** `getFromCache` (cache.ts:28-34), with the stream read to its end. */
  function Get(mode: CacheMode, cacheDir: Result<Path, CacheError>, d: Disk, hash: string): (r: Result<seq<byte>, CacheError>)
    ensures mode == Off ==> r == Err(NoCacheEnabled)
  {
    if mode == Off then Err(NoCacheEnabled)
    else if cacheDir.Err? then Err(cacheDir.error)
    else ReadFile(d, FileFromHash(cacheDir.value, hash))
  }

  /** `saveToCache` (cache.ts:36-42): the filesystem afterwards, or the error the write rejects with. */
  function Put(mode: CacheMode, cacheDir: Result<Path, CacheError>, d: Disk, hash: string, file: seq<byte>): (r: Result<Disk, CacheError>)
    ensures mode == Off ==> r == Ok(d)
  {
    if mode == Off then Ok(d)
    else if cacheDir.Err? then Err(cacheDir.error)
    else WriteFile(d, FileFromHash(cacheDir.value, hash), file)
  }

  /** A hash that names a regular file directly in the cache directory. */
  predicate FileHash(hash: string) { Plain(hash) && '\0' !in hash }

  // -----------------------------------------------------------------------
  // Properties of the operations

  /** The entry's location depends on the hash alone: one file directly under the shared directory. */
  lemma LocationDependsOnHashOnly(dir: Path, h1: string, h2: string)
    requires NormalAbsolute(dir) && FileHash(h1) && FileHash(h2)
    ensures DirectlyInside(dir, FileFromHash(dir, h1))
    ensures FileFromHash(dir, h1) == FileFromHash(dir, h2) <==> h1 == h2
  {
    JoinPlainName(dir, h1);
    JoinPlainName(dir, h2);
    if FileFromHash(dir, h1) == FileFromHash(dir, h2) {
      assert h1 == (dir + "/" + h1)[|dir| + 1..];
      assert h2 == (dir + "/" + h2)[|dir| + 1..];
    }
  }

  /** The parent of a file directly inside the cache directory is that directory. */
  lemma ParentOfCacheFile(dir: Path, hash: string)
    requires NormalAbsolute(dir) && FileHash(hash)
    ensures Parent(FileFromHash(dir, hash)) == dir
  {
    JoinPlainName(dir, hash);
    NormalAbsoluteSegments(dir);
    SplitAppend(dir, hash);
    SplitNoSlash(hash);
    var segs := Split(dir) + [hash];
    assert segs[..|segs| - 1] == Split(dir);
    GlueSplit(dir);
  }

  /** In filesystem mode, `isInCache` holds exactly when something exists at the hash's path. */
  lemma HasIffExists(dir: Path, d: Disk, hash: string)
    ensures Has(Filesystem, Ok(dir), d, hash) == Ok(d.Exists(FileFromHash(dir, hash)))
  {
  }

  /** Where the hash's path does not resolve to a directory, `isInCache` holds exactly when `getFromCache` yields data. */
  lemma HasAgreesWithGet(mode: CacheMode, cacheDir: Result<Path, CacheError>, d: Disk, hash: string)
    requires cacheDir.Ok? ==> !d.NamesDirectory(FileFromHash(cacheDir.value, hash))
    ensures Has(mode, cacheDir, d, hash) == Ok(true) <==> Get(mode, cacheDir, d, hash).Ok?
  {
  }

  /** Where the hash's path resolves to a directory, `isInCache` reports it present, yet reading it fails with EISDIR. */
  lemma DirectoryHashesDisagree(dir: Path, d: Disk, hash: string)
    requires d.NamesDirectory(FileFromHash(dir, hash))
    ensures Has(Filesystem, Ok(dir), d, hash) == Ok(true)
    ensures Get(Filesystem, Ok(dir), d, hash) == Err(FsFailure(IsDirectory, FileFromHash(dir, hash)))
    ensures Put(Filesystem, Ok(dir), d, hash, []) == Err(FsFailure(IsDirectory, FileFromHash(dir, hash)))
  {
  }

  /** The empty hash names the cache directory itself. */
  lemma EmptyHashDisagrees(dir: Path, d: Disk)
    requires NormalAbsolute(dir) && dir in d.dirs && d.Valid()
    ensures FileFromHash(dir, "") == dir
    ensures Has(Filesystem, Ok(dir), d, "") == Ok(true)
    ensures Get(Filesystem, Ok(dir), d, "") == Err(FsFailure(IsDirectory, dir))
    ensures Put(Filesystem, Ok(dir), d, "", []) == Err(FsFailure(IsDirectory, dir))
  {
    JoinEmptyName(dir);
    DirectoryHashesDisagree(dir, d, "");
  }

  /** The hash "/" names the cache directory too, through the trailing slash the join keeps. */
  lemma SlashHashDisagrees(dir: Path, d: Disk)
    requires NormalAbsolute(dir) && dir in d.dirs && d.Valid()
    ensures FileFromHash(dir, "/") == dir + "/"
    ensures Has(Filesystem, Ok(dir), d, "/") == Ok(true)
    ensures Get(Filesystem, Ok(dir), d, "/") == Err(FsFailure(IsDirectory, dir + "/"))
  {
    JoinSlash(dir);
    var p := dir + "/";
    assert Stored(dir);
    assert p[..|p| - 1] == dir;
    assert Unslashed(p) == dir;
    assert '\0' !in p by {
      forall i | 0 <= i < |p| ensures p[i] != '\0' {
        if i < |dir| { assert p[i] == dir[i]; }
      }
    }
    DirectoryHashesDisagree(dir, d, "/");
  }

  /** The path of a file hash in a stored cache directory is itself a stored path. */
  lemma CacheFileStored(dir: Path, hash: string)
    requires NormalAbsolute(dir) && Stored(dir) && FileHash(hash)
    ensures Stored(FileFromHash(dir, hash))
  {
    JoinPlainName(dir, hash);
    var p := dir + "/" + hash;
    assert p[|p| - 1] == hash[|hash| - 1];
    assert '\0' !in p by {
      forall i | 0 <= i < |p| ensures p[i] != '\0' {
        if i < |dir| { assert p[i] == dir[i]; }
        else if i > |dir| { assert p[i] == hash[i - |dir| - 1]; }
      }
    }
  }

  /** Saving a file hash into an existing cache directory succeeds. */
  lemma PutSucceeds(dir: Path, d: Disk, hash: string, file: seq<byte>)
    requires NormalAbsolute(dir) && dir in d.dirs && d.Valid() && FileHash(hash)
    requires FileFromHash(dir, hash) !in d.dirs
    ensures Put(Filesystem, Ok(dir), d, hash, file) == Ok(Disk(d.files[FileFromHash(dir, hash) := file], d.dirs))
  {
    ParentOfCacheFile(dir, hash);
    CacheFileStored(dir, hash);
  }

  /** Round trip: after a successful save, reading the hash gives back exactly the bytes saved. */
  lemma SaveThenGet(mode: CacheMode, cacheDir: Result<Path, CacheError>, d: Disk, hash: string, file: seq<byte>)
    requires mode == Filesystem && Put(mode, cacheDir, d, hash, file).Ok?
    ensures Get(mode, cacheDir, Put(mode, cacheDir, d, hash, file).value, hash) == Ok(file)
    ensures Has(mode, cacheDir, Put(mode, cacheDir, d, hash, file).value, hash) == Ok(true)
  {
  }

  /** A save replaces any earlier entry for the same hash: the last write wins. */
  lemma SaveOverwrites(mode: CacheMode, cacheDir: Result<Path, CacheError>, d: Disk, hash: string, f1: seq<byte>, f2: seq<byte>)
    requires Put(mode, cacheDir, d, hash, f1).Ok?
    ensures Put(mode, cacheDir, Put(mode, cacheDir, d, hash, f1).value, hash, f2) == Put(mode, cacheDir, d, hash, f2)
  {
    if mode == Filesystem {
      var p := FileFromHash(cacheDir.value, hash);
      assert d.files[p := f1][p := f2] == d.files[p := f2];
    }
  }

  /** A save leaves the entry of every other file hash as it was. */
  lemma SaveKeepsOthers(mode: CacheMode, cacheDir: Result<Path, CacheError>, d: Disk, hash: string, file: seq<byte>, other: string)
    requires Put(mode, cacheDir, d, hash, file).Ok?
    requires cacheDir.Ok? ==> NormalAbsolute(cacheDir.value)
    requires FileHash(hash) && FileHash(other) && other != hash
    ensures var d' := Put(mode, cacheDir, d, hash, file).value;
      Get(mode, cacheDir, d', other) == Get(mode, cacheDir, d, other) &&
      Has(mode, cacheDir, d', other) == Has(mode, cacheDir, d, other)
  {
    if mode == Filesystem && cacheDir.Ok? {
      var dir := cacheDir.value;
      LocationDependsOnHashOnly(dir, hash, other);
      JoinPlainName(dir, other);
      var p := FileFromHash(dir, other);
      assert p[|p| - 1] == other[|other| - 1];
      assert Unslashed(p) == p;
    }
  }

  /** In mode 'none' nothing is ever found, read or stored, whatever was saved before. */
  lemma OffModeIsInert(cacheDir: Result<Path, CacheError>, d: Disk, hash: string, file: seq<byte>, probe: string)
    ensures var d' := Put(Off, cacheDir, d, hash, file).value;
      d' == d && Has(Off, cacheDir, d', probe) == Ok(false) && Get(Off, cacheDir, d', probe) == Err(NoCacheEnabled)
  {
  }

  // -----------------------------------------------------------------------
  // The cache directory made at module load

  /** The prefix of the cache directory's name (cache.ts:7). */
  const CacheDirPrefix: string := "remotion-"

  /** The six characters `mkdtemp` appends to the prefix: letters and digits. */
  predicate RandomSuffix(s: string)
  {
    |s| == 6 && forall c <- s :: 'a' <= c <= 'z' || 'A' <= c <= 'Z' || '0' <= c <= '9'
  }

  /** A prefix followed by a random suffix is a name a cache file could have. */
  lemma SuffixedName(suffix: string)
    requires RandomSuffix(suffix)
    ensures FileHash(CacheDirPrefix + suffix)
  {
    var name := CacheDirPrefix + suffix;
    assert '/' !in CacheDirPrefix && '\0' !in CacheDirPrefix;
    forall i | 0 <= i < |name| ensures name[i] != '/' && name[i] != '\0' {
      if i >= |CacheDirPrefix| {
        assert name[i] == suffix[i - |CacheDirPrefix|] && suffix[i - |CacheDirPrefix|] in suffix;
      } else {
        assert name[i] == CacheDirPrefix[i] && CacheDirPrefix[i] in CacheDirPrefix;
      }
    }
    assert name[0] == 'r';
  }

  /** The prefix `mkdtemp` is given: the temporary root, a "/", and "remotion-". */
  lemma PrefixUnderRoot(tmpRoot: Path)
    requires NormalAbsolute(tmpRoot)
    ensures Join(tmpRoot, CacheDirPrefix) == tmpRoot + "/" + CacheDirPrefix
  {
    assert Plain(CacheDirPrefix) by { assert CacheDirPrefix[0] == 'r'; }
    JoinPlainName(tmpRoot, CacheDirPrefix);
  }

  /** A file name under a stored, normal directory gives a stored, normal directory path again. */
  lemma ChildDirectory(dir: Path, name: string)
    requires NormalAbsolute(dir) && Stored(dir) && FileHash(name)
    ensures var child := dir + "/" + name;
      NormalAbsolute(child) && Stored(child) && Parent(child) == dir
  {
    NormalAbsoluteChild(dir, name);
    JoinPlainName(dir, name);
    CacheFileStored(dir, name);
    ParentOfCacheFile(dir, name);
  }

  /** The directory `mkdtemp` makes for a random suffix: a stored, normal path directly inside the temporary root. */
  lemma TempDirUnderRoot(tmpRoot: Path, suffix: string)
    requires NormalAbsolute(tmpRoot) && Stored(tmpRoot) && RandomSuffix(suffix)
    ensures var made := Join(tmpRoot, CacheDirPrefix) + suffix;
      made == tmpRoot + "/" + (CacheDirPrefix + suffix) && NormalAbsolute(made) && Stored(made) && Parent(made) == tmpRoot
  {
    SuffixedName(suffix);
    PrefixUnderRoot(tmpRoot);
    assert tmpRoot + "/" + CacheDirPrefix + suffix == tmpRoot + "/" + (CacheDirPrefix + suffix);
    ChildDirectory(tmpRoot, CacheDirPrefix + suffix);
  }

  // -----------------------------------------------------------------------
  // The store as the module holds it at run time

  /** The module-level state of cache.ts: its mode, its directory promise and the filesystem it writes. */
  class CacheStore {
    const mode: CacheMode
    /** The settled value of `cacheDir`, the `mkdtemp` promise made at module load (cache.ts:7). */
    const cacheDir: Result<Path, CacheError>
    var files: map<Path, seq<byte>>
    var dirs: set<Path>

    ghost predicate Valid()
      reads this
    {
      Contents().Valid() && (cacheDir.Ok? ==> NormalAbsolute(cacheDir.value) && cacheDir.value in dirs)
    }

    function Contents(): Disk
      reads this
    {
      Disk(files, dirs)
    }

    /**
     * Loading the module: `mkdtemp(join(tmpRoot, 'remotion-'))` appends the
     * random `suffix` to the prefix and creates that directory, in either
     * mode; it fails with ENOENT, naming the template, when `tmpRoot` is missing.
     */
    constructor (mode: CacheMode, tmpRoot: Path, suffix: string, initial: Disk)
      requires initial.Valid() && NormalAbsolute(tmpRoot) && RandomSuffix(suffix)
      requires !initial.Exists(Join(tmpRoot, CacheDirPrefix) + suffix)
      ensures Valid()
      ensures this.mode == mode
      ensures var made := Join(tmpRoot, CacheDirPrefix) + suffix;
        if tmpRoot in initial.dirs then
          cacheDir == Ok(made) && Contents() == Disk(initial.files, initial.dirs + {made})
        else
          cacheDir == Err(FsFailure(NoEntry, Join(tmpRoot, CacheDirPrefix) + "XXXXXX")) && Contents() == initial
    {
      var made := Join(tmpRoot, CacheDirPrefix) + suffix;
      this.mode := mode;
      if tmpRoot in initial.dirs {
        TempDirUnderRoot(tmpRoot, suffix);
        cacheDir := Ok(made);
        files, dirs := initial.files, initial.dirs + {made};
      } else {
        cacheDir := Err(FsFailure(NoEntry, Join(tmpRoot, CacheDirPrefix) + "XXXXXX"));
        files, dirs := initial.files, initial.dirs;
      }
    }

    method IsInCache(hash: string) returns (r: Result<bool, CacheError>)
      ensures r == Has(mode, cacheDir, Contents(), hash)
    {
      if mode == Off {
        return Ok(false);
      }
      if cacheDir.Err? {
        return Err(cacheDir.error);
      }
      var p := FileFromHash(cacheDir.value, hash);
      r := Ok(Contents().Exists(p));
    }

    method GetFromCache(hash: string) returns (r: Result<seq<byte>, CacheError>)
      ensures r == Get(mode, cacheDir, Contents(), hash)
    {
      if mode == Off {
        return Err(NoCacheEnabled);
      }
      if cacheDir.Err? {
        return Err(cacheDir.error);
      }
      var p := FileFromHash(cacheDir.value, hash);
      r := ReadFile(Contents(), p);
    }

    method SaveToCache(hash: string, file: seq<byte>) returns (r: Result<(), CacheError>)
      requires Valid()
      modifies this
      ensures Valid()
      ensures var after := Put(mode, cacheDir, old(Contents()), hash, file);
        (r.Ok? <==> after.Ok?) &&
        (if after.Ok? then Contents() == after.value else Contents() == old(Contents()) && r.error == after.error)
    {
      if mode == Off {
        return Ok(());
      }
      if cacheDir.Err? {
        return Err(cacheDir.error);
      }
      var p := FileFromHash(cacheDir.value, hash);
      var written := WriteFile(Contents(), p, file);
      if written.Err? {
        return Err(written.error);
      }
      files := written.value.files;
      r := Ok(());
    }
  }
}
