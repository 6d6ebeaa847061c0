/** The patterns loader: it downloads the pattern folders of a git
    repository into a temporary folder (moving from the old "patterns"
    folder of the repository to "data/patterns" when the old one is empty),
    keeps the user's own pattern folders, copies everything into the
    patterns directory, drops a "loaded" marker there, and writes the
    sorted list of every pattern name to the unique-patterns file.

    The file system is a value: each directory's listing and each file's
    text. Fetching from git and copying a directory tree are the functions
    of `Remote`. */
module PatternsLoader {
  import opened Common

  const OldPatternsFolder := "patterns"
  const NewPatternsFolder := "data/patterns"
  const DefaultGitRepoUrl := "https://github.com/danielmiessler/fabric.git"
  const LoadedMarker := "loaded"

  /** Directory listings (the entries `os.ReadDir` would give, kept in the
      order they were written rather than sorted by name) and file contents,
      by path. A path missing from `dirs` is a directory that does not exist. */
  datatype Fs = Fs(dirs: map<string, seq<Entry>>, files: map<string, string>)

  /** What the loader gets from outside. */
  datatype Remote = Remote(
    // `githelper.FetchFilesFromRepo(url, prefix, dest)`: the entries it writes into `dest`
    fetch: (string, string) -> Result<seq<Entry>, string>,
    // `copy.Copy(src, dst)`: the error it fails with, if any
    copyFails: (string, string) -> Option<string>,
    // whether `os.Rename(src, dst)` fails
    renameFails: (string, string) -> bool)

  datatype LoaderError =
    | ReadFailed(dir: string)
    | TempReadFailed(inner: LoaderError)
    | CopyFailed(reason: string)
    | NoPatternsCopied(dir: string)
    | DownloadFailed(url: string, reason: string)
    | MarkerFailed(path: string)
    | MoveTestFailed(reason: string)
    | MigrationFailed(folder: string, inner: LoaderError)
    | UnableToFindOrMigrate(folder: string)
    | NoPatternsInDirectory(dir: string)
    | NoPatternsInDirectories(dir: string, customDir: string)
    | DownloadStepFailed(inner: LoaderError)
    | MoveStepFailed(inner: LoaderError)
    | UniqueFileStepFailed(inner: LoaderError)

  /** `filepath.Join` of a directory and an entry name. */
  function Join2(dir: string, name: string): string {
    dir + "/" + name
  }

  // ---------------------------------------------------------------------------
  // Listings

  /** The names of the sub-directories in a listing, in listing order. */
  function DirNames(es: seq<Entry>): (r: seq<string>)
    ensures |r| <= |es|
  {
    if es == [] then []
    else DirNames(es[..|es| - 1]) + (if es[|es| - 1].isDir then [es[|es| - 1].name] else [])
  }

  /** The set of sub-directory names in a listing. */
  function DirNameSet(es: seq<Entry>): set<string> {
    set e | e in es && e.isDir :: e.name
  }

  /** A listing has no sub-directory exactly when it counts none, and the
      counted names are exactly its directory names. */
  lemma {:induction false} DirNamesAreDirectories(es: seq<Entry>)
    ensures |DirNames(es)| == 0 <==> forall e :: e in es ==> !e.isDir
    ensures forall n :: n in DirNames(es) <==> n in DirNameSet(es)
    decreases |es|
  {
    if es != [] {
      var init := es[..|es| - 1];
      var last := es[|es| - 1];
      DirNamesAreDirectories(init);
      assert es == init + [last];
      forall n ensures n in DirNames(es) <==> n in DirNameSet(es) {
        if n in DirNameSet(es) {
          var e :| e in es && e.isDir && e.name == n;
          if e != last { assert e in init; }
        }
      }
      if forall e :: e in init ==> !e.isDir {
        if !last.isDir {
          forall e | e in es ensures !e.isDir { if e != last { assert e in init; } }
        }
      }
    }
  }

  /** `dst` after the entries of `src` are written into it: entries of the
      same name are replaced. */
  function Merge(dst: seq<Entry>, src: seq<Entry>): seq<Entry> {
    Without(dst, set e | e in src :: e.name) + src
  }

  function Without(es: seq<Entry>, names: set<string>): (r: seq<Entry>)
    ensures forall e :: e in r <==> e in es && e.name !in names
  {
    if es == [] then []
    else Without(es[..|es| - 1], names) + (if es[|es| - 1].name in names then [] else [es[|es| - 1]])
  }

  /** Everything written into a directory is in it afterwards, and so is
      everything it held under another name. */
  lemma MergeKeeps(dst: seq<Entry>, src: seq<Entry>)
    ensures forall e :: e in src ==> e in Merge(dst, src)
    ensures forall e :: e in dst && (forall s :: s in src ==> s.name != e.name) ==> e in Merge(dst, src)
    ensures DirNameSet(src) <= DirNameSet(Merge(dst, src))
  {
  }

  /** The custom patterns: the sub-directories of the current listing whose
      name is not a sub-directory of the new download, in listing order. */
  function Custom(current: seq<Entry>, downloaded: set<string>): seq<string> {
    if current == [] then []
    else
      var e := current[|current| - 1];
      Custom(current[..|current| - 1], downloaded) + (if e.isDir && e.name !in downloaded then [e.name] else [])
  }

  /** The custom patterns are exactly the current directories minus the
      downloaded ones. */
  lemma {:induction false} CustomIsDifference(current: seq<Entry>, downloaded: set<string>)
    ensures forall n :: n in Custom(current, downloaded) <==> n in DirNameSet(current) - downloaded
    decreases |current|
  {
    if current != [] {
      var init := current[..|current| - 1];
      var last := current[|current| - 1];
      CustomIsDifference(init, downloaded);
      assert current == init + [last];
      forall n ensures n in Custom(current, downloaded) <==> n in DirNameSet(current) - downloaded {
        if n in DirNameSet(current) - downloaded {
          var e :| e in current && e.isDir && e.name == n;
          if e != last { assert e in init; }
        }
      }
    }
  }

  /** The entries `PersistPatterns` adds to the new download: one directory
      for each custom pattern whose copy succeeds. */
  function Preserved(remote: Remote, dir: string, temp: string, names: seq<string>): seq<Entry> {
    if names == [] then []
    else
      var n := names[|names| - 1];
      Preserved(remote, dir, temp, names[..|names| - 1])
        + (if remote.copyFails(Join2(dir, n), Join2(temp, n)).None? then [Entry(n, true)] else [])
  }

  lemma CustomSnoc(current: seq<Entry>, k: nat, downloaded: set<string>)
    requires k < |current|
    ensures var e := current[k];
      Custom(current[..k + 1], downloaded)
        == Custom(current[..k], downloaded) + (if e.isDir && e.name !in downloaded then [e.name] else [])
  {
    assert current[..k + 1][..k] == current[..k];
  }

  /** One more custom name adds its entry exactly when its copy succeeds. */
  lemma PreservedSnoc(remote: Remote, dir: string, temp: string, names: seq<string>, n: string)
    ensures Preserved(remote, dir, temp, names + [n])
        == Preserved(remote, dir, temp, names)
           + (if remote.copyFails(Join2(dir, n), Join2(temp, n)).None? then [Entry(n, true)] else [])
  {
    assert (names + [n])[..|names|] == names;
  }

  /** A preserved entry is a custom pattern whose copy succeeded, and every
      such pattern is preserved. */
  lemma {:induction false} PreservedAreCopiedCustom(remote: Remote, dir: string, temp: string, names: seq<string>)
    ensures forall e :: e in Preserved(remote, dir, temp, names) <==>
      e.isDir && e.name in names && remote.copyFails(Join2(dir, e.name), Join2(temp, e.name)).None?
    decreases |names|
  {
    if names != [] {
      var init := names[..|names| - 1];
      PreservedAreCopiedCustom(remote, dir, temp, init);
      assert names == init + [names[|names| - 1]];
    }
  }

  /** After `PersistPatterns` the download holds its own pattern
      directories plus every custom one whose copy succeeded, and nothing
      else: a downloaded pattern is never overwritten by a custom one. */
  lemma PersistedNames(remote: Remote, dir: string, temp: string, current: seq<Entry>, downloaded: seq<Entry>)
    ensures
      var custom := Custom(current, DirNameSet(downloaded));
      DirNameSet(downloaded + Preserved(remote, dir, temp, custom))
        == DirNameSet(downloaded)
           + (set n | n in DirNameSet(current) - DirNameSet(downloaded)
                        && remote.copyFails(Join2(dir, n), Join2(temp, n)).None?)
  {
    var custom := Custom(current, DirNameSet(downloaded));
    CustomIsDifference(current, DirNameSet(downloaded));
    PreservedAreCopiedCustom(remote, dir, temp, custom);
    var after := downloaded + Preserved(remote, dir, temp, custom);
    forall n | n in DirNameSet(current) - DirNameSet(downloaded) && remote.copyFails(Join2(dir, n), Join2(temp, n)).None?
      ensures n in DirNameSet(after)
    {
      assert Entry(n, true) in Preserved(remote, dir, temp, custom);
      assert Entry(n, true) in after;
    }
  }

  /** The unique-patterns file lists each name once, in increasing order,
      and nothing else. */
  lemma UniqueFileNames(names: set<string>)
    ensures var xs := SortedSet(names);
      && StrictlySorted(xs)
      && (forall n :: n in xs <==> n in names)
      && |xs| == |names|
  {
    var xs := SortedSet(names);
    SortedOfSet(xs, names);
    assert forall n :: n in xs <==> n in multiset(xs);
    assert |xs| == |multiset(xs)| == |multiset(names)|;
  }

  /** The lines of the unique-patterns file. */
  function UniqueFileContent(names: seq<string>): string {
    Join(names, "\n") + "\n"
  }

  /** The file system, the folder setting and the error after a step of
      the loader. */
  datatype Outcome = Outcome(fs: Fs, folder: string, err: Option<LoaderError>)

  /** The file system and the error after a step that keeps the folder setting. */
  datatype Step = Step(fs: Fs, err: Option<LoaderError>)

  /** A patterns listing once the empty "loaded" marker file is created in it. */
  function WithMarker(listing: seq<Entry>): seq<Entry> {
    Without(listing, {LoadedMarker}) + [Entry(LoadedMarker, false)]
  }

  /** A listing gains directories when a listing that has some is copied into it. */
  lemma MergeHasPatterns(dst: seq<Entry>, src: seq<Entry>)
    requires |DirNames(src)| > 0
    ensures |DirNames(Merge(dst, src))| > 0
  {
    DirNamesAreDirectories(src);
    var e :| e in src && e.isDir;
    MergeKeeps(dst, src);
    DirNamesAreDirectories(Merge(dst, src));
  }

  /** Writing a folder and then overwriting it leaves only the last write,
      whatever else was removed in between. */
  lemma OverwriteAfterRemove(d: map<string, seq<Entry>>, t: string, x: string, v: seq<Entry>, w: seq<Entry>, u: seq<Entry>)
    requires t != x
    ensures ((d[t := v] - {x})[t := w])[t := u] == (d - {x})[t := u]
  {
    assert ((d[t := v] - {x})[t := w])[t := u].Keys == ((d - {x})[t := u]).Keys;
  }

  class Loader {
    var defaultFolder: string          // `DefaultFolder.Value`, the folder of the repository to fetch
    const gitRepoUrl: string
    const patternsDir: string          // `Patterns.Dir`
    const customPatternsDir: string    // `Patterns.CustomPatternsDir`, "" when not set
    const uniquePatternsFilePath: string
    const tempPatternsFolder: string
    const testTempFolder: string       // `os.TempDir()/fabric-patterns-test`
    const remote: Remote
    var fs: Fs

    constructor (gitRepoUrl: string, patternsDir: string, customPatternsDir: string, uniquePatternsFilePath: string,
                 tempPatternsFolder: string, testTempFolder: string, remote: Remote, fs: Fs)
      ensures this.defaultFolder == NewPatternsFolder
      ensures this.gitRepoUrl == gitRepoUrl && this.patternsDir == patternsDir
      ensures this.customPatternsDir == customPatternsDir && this.uniquePatternsFilePath == uniquePatternsFilePath
      ensures this.tempPatternsFolder == tempPatternsFolder && this.testTempFolder == testTempFolder
      ensures this.remote == remote && this.fs == fs
    {
      defaultFolder := NewPatternsFolder;
      this.gitRepoUrl := gitRepoUrl;
      this.patternsDir := patternsDir;
      this.customPatternsDir := customPatternsDir;
      this.uniquePatternsFilePath := uniquePatternsFilePath;
      this.tempPatternsFolder := tempPatternsFolder;
      this.testTempFolder := testTempFolder;
      this.remote := remote;
      this.fs := fs;
    }

    /** The temporary folders are fresh (`os.MkdirTemp`, the system temp
        directory), so neither is the patterns directory or the other. */
    predicate DistinctFolders() {
      patternsDir != tempPatternsFolder && patternsDir != testTempFolder && tempPatternsFolder != testTempFolder
    }

    function LoadedFilePath(): string {
      Join2(patternsDir, LoadedMarker)
    }

    /** `os.Stat` of the marker's path succeeds: a file or a directory
        stands there. */
    predicate MarkerPresent(f: Fs) {
      || LoadedFilePath() in f.files
      || LoadedFilePath() in f.dirs
      || (patternsDir in f.dirs
          && (Entry(LoadedMarker, false) in f.dirs[patternsDir] || Entry(LoadedMarker, true) in f.dirs[patternsDir]))
    }

    /** `IsConfigured`: the setup questions are answered and something
        stands at the "loaded" marker's path; a directory of that name
        counts too. */
    function IsConfigured(setupDone: bool): (r: bool)
      reads this
      ensures r ==> setupDone
      ensures !MarkerPresent(fs) ==> !r
      ensures setupDone && LoadedFilePath() in fs.files ==> r
      ensures setupDone && patternsDir in fs.dirs && Entry(LoadedMarker, true) in fs.dirs[patternsDir] ==> r
    {
      setupDone && MarkerPresent(fs)
    }

    /** `countPatternsInDirectory`: the number of sub-directories, or an
        error when the directory cannot be read. */
    method CountPatternsInDirectory(dir: string) returns (count: nat, err: Option<LoaderError>)
      ensures dir !in fs.dirs ==> count == 0 && err == Some(ReadFailed(dir))
      ensures dir in fs.dirs ==> err.None? && count == |DirNames(fs.dirs[dir])|
    {
      if dir !in fs.dirs {
        return 0, Some(ReadFailed(dir));
      }
      var entries := fs.dirs[dir];
      count := 0;
      for k := 0 to |entries|
        invariant count == |DirNames(entries[..k])|
      {
        assert entries[..k + 1][..k] == entries[..k];
        if entries[k].isDir {
          count := count + 1;
        }
      }
      assert entries[..|entries|] == entries;
      err := None;
    }

    /** `PersistPatterns`: copies every custom pattern of the patterns
        directory into the new download. A missing patterns directory means
        nothing to keep; a failed copy is only a warning. */
    method PersistPatterns() returns (err: Option<LoaderError>)
      modifies this
      ensures defaultFolder == old(defaultFolder)
      ensures patternsDir !in old(fs.dirs) ==> err.None? && fs == old(fs)
      ensures patternsDir in old(fs.dirs) && tempPatternsFolder !in old(fs.dirs) ==>
        err == Some(ReadFailed(tempPatternsFolder)) && fs == old(fs)
      ensures patternsDir in old(fs.dirs) && tempPatternsFolder in old(fs.dirs) ==>
        var downloaded := DirNameSet(old(fs.dirs[tempPatternsFolder]));
        var custom := Custom(old(fs.dirs[patternsDir]), downloaded);
        && err.None?
        && fs == old(fs).(dirs := old(fs.dirs)[tempPatternsFolder :=
             old(fs.dirs[tempPatternsFolder]) + Preserved(remote, patternsDir, tempPatternsFolder, custom)])
    {
      if patternsDir !in fs.dirs {
        return None;
      }
      var currentPatterns := fs.dirs[patternsDir];
      if tempPatternsFolder !in fs.dirs {
        return Some(ReadFailed(tempPatternsFolder));
      }
      var newPatterns := fs.dirs[tempPatternsFolder];

      var newPatternNames := AddDirNames({}, newPatterns);
      assert newPatternNames == DirNameSet(newPatterns);
      CopyCustomPatterns(currentPatterns, newPatternNames);
      err := None;
    }

    /** The loop of `PersistPatterns`: each current pattern directory whose
        name is not downloaded is copied into the download; a failed copy
        is skipped. */
    method CopyCustomPatterns(currentPatterns: seq<Entry>, newPatternNames: set<string>)
      requires tempPatternsFolder in fs.dirs
      modifies this
      ensures defaultFolder == old(defaultFolder)
      ensures fs == old(fs).(dirs := old(fs.dirs)[tempPatternsFolder :=
        old(fs.dirs[tempPatternsFolder]) + Preserved(remote, patternsDir, tempPatternsFolder, Custom(currentPatterns, newPatternNames))])
    {
      ghost var start := fs;
      ghost var downloaded := fs.dirs[tempPatternsFolder];
      assert currentPatterns[..0] == [];
      assert downloaded + [] == downloaded;
      assert start.dirs[tempPatternsFolder := downloaded] == start.dirs;
      for k := 0 to |currentPatterns|
        invariant defaultFolder == old(defaultFolder)
        invariant fs == start.(dirs := start.dirs[tempPatternsFolder :=
          downloaded + Preserved(remote, patternsDir, tempPatternsFolder, Custom(currentPatterns[..k], newPatternNames))])
      {
        var entry := currentPatterns[k];
        CustomSnoc(currentPatterns, k, newPatternNames);
        ghost var before := Custom(currentPatterns[..k], newPatternNames);
        if entry.isDir && entry.name !in newPatternNames {
          var src := Join2(patternsDir, entry.name);
          var dst := Join2(tempPatternsFolder, entry.name);
          PreservedSnoc(remote, patternsDir, tempPatternsFolder, before, entry.name);
          ghost var kept := Preserved(remote, patternsDir, tempPatternsFolder, before);
          if remote.copyFails(src, dst).None? {
            assert downloaded + (kept + [Entry(entry.name, true)]) == downloaded + kept + [Entry(entry.name, true)];
            fs := fs.(dirs := fs.dirs[tempPatternsFolder := fs.dirs[tempPatternsFolder] + [Entry(entry.name, true)]]);
          } else {
            assert kept + [] == kept;
          }
        } else {
          assert before + [] == before;
        }
      }
      assert currentPatterns[..|currentPatterns|] == currentPatterns;
    }

    // -------------------------------------------------------------------------
    // movePatterns

    /** The listing `movePatterns` starts from: the patterns directory's, or
        the empty one `os.MkdirAll` creates. */
    function PatternsListing(f: Fs): seq<Entry> {
      if patternsDir in f.dirs then f.dirs[patternsDir] else []
    }

    /** The download once `PersistPatterns` has copied into it the custom
        patterns of `current`. */
    function PersistedDownload(current: seq<Entry>, download: seq<Entry>): seq<Entry> {
      download + Preserved(remote, patternsDir, tempPatternsFolder, Custom(current, DirNameSet(download)))
    }

    /** What `movePatterns` does to the file system: create the patterns
        directory, keep the custom patterns, copy the download over the
        patterns directory, then, when it holds a pattern, create the
        marker and remove the download. */
    function Move(f: Fs): Step {
      var base := PatternsListing(f);
      var f0 := if patternsDir in f.dirs then f else f.(dirs := f.dirs[patternsDir := []]);
      if tempPatternsFolder !in f.dirs then Step(f0, Some(ReadFailed(tempPatternsFolder)))
      else
        var download := PersistedDownload(base, f.dirs[tempPatternsFolder]);
        var f1 := f0.(dirs := f0.dirs[tempPatternsFolder := download]);
        var copyError := remote.copyFails(tempPatternsFolder, patternsDir);
        if copyError.Some? then Step(f1, Some(CopyFailed(copyError.value)))
        else
          var merged := Merge(base, download);
          var f2 := f1.(dirs := f1.dirs[patternsDir := merged]);
          if |DirNames(merged)| == 0 then Step(f2, Some(NoPatternsCopied(patternsDir)))
          else if Entry(LoadedMarker, true) in merged then Step(f2, Some(MarkerFailed(LoadedFilePath())))
          else Step(Fs(f2.dirs[patternsDir := WithMarker(merged)] - {tempPatternsFolder}, f.files[LoadedFilePath() := ""]), None)
    }

    /** `movePatterns` reports why it stopped: a missing download, a failed
        copy, or, exactly when the patterns directory then holds no
        directory, "no patterns copied". It succeeds exactly when the copy
        works, a pattern is in place and no directory blocks the marker.
        A failed step writes no file. */
    lemma MoveErrors(f: Fs)
      ensures var o := Move(f);
        && (tempPatternsFolder !in f.dirs ==> o.err == Some(ReadFailed(tempPatternsFolder)))
        && (o.err.Some? ==> o.fs.files == f.files)
        && (tempPatternsFolder in f.dirs ==>
              var merged := Merge(PatternsListing(f), PersistedDownload(PatternsListing(f), f.dirs[tempPatternsFolder]));
              var copyError := remote.copyFails(tempPatternsFolder, patternsDir);
              && (copyError.Some? ==> o.err == Some(CopyFailed(copyError.value)))
              && (copyError.None? ==> (o.err == Some(NoPatternsCopied(patternsDir)) <==> |DirNames(merged)| == 0))
              && (o.err.None? <==> copyError.None? && |DirNames(merged)| > 0 && Entry(LoadedMarker, true) !in merged))
    {
    }

    /** On success the patterns directory is the old listing overwritten by
        the download, with its preserved custom patterns, plus the marker
        file; the download is gone and the marker is the only file written. */
    lemma MoveSuccess(f: Fs)
      requires Move(f).err.None?
      ensures tempPatternsFolder in f.dirs
      ensures var merged := Merge(PatternsListing(f), PersistedDownload(PatternsListing(f), f.dirs[tempPatternsFolder]));
        && Move(f).fs.dirs == f.dirs[patternsDir := WithMarker(merged)] - {tempPatternsFolder}
        && Move(f).fs.files == f.files[LoadedFilePath() := ""]
    {
      var base := PatternsListing(f);
      var download := PersistedDownload(base, f.dirs[tempPatternsFolder]);
      var merged := Merge(base, download);
      var f0 := if patternsDir in f.dirs then f else f.(dirs := f.dirs[patternsDir := []]);
      var d2 := f0.dirs[tempPatternsFolder := download][patternsDir := merged];
      assert Move(f).fs.dirs == d2[patternsDir := WithMarker(merged)] - {tempPatternsFolder};
      assert d2[patternsDir := WithMarker(merged)] - {tempPatternsFolder}
          == f.dirs[patternsDir := WithMarker(merged)] - {tempPatternsFolder};
    }

    /** On success every downloaded pattern, and at least one, is in the
        patterns directory. */
    lemma MoveKeepsDownload(f: Fs)
      requires DistinctFolders()
      requires Move(f).err.None?
      ensures tempPatternsFolder in f.dirs && patternsDir in Move(f).fs.dirs
      ensures |DirNames(Move(f).fs.dirs[patternsDir])| > 0
      ensures DirNameSet(PersistedDownload(PatternsListing(f), f.dirs[tempPatternsFolder]))
              <= DirNameSet(Move(f).fs.dirs[patternsDir])
    {
      MoveErrors(f);
      MoveSuccess(f);
      var base := PatternsListing(f);
      var download := PersistedDownload(base, f.dirs[tempPatternsFolder]);
      var merged := Merge(base, download);
      assert Move(f).fs.dirs[patternsDir] == WithMarker(merged);
      MarkerKeepsPatterns(merged);
      MergeKeeps(base, download);
      forall n | n in DirNameSet(download) ensures n in DirNameSet(WithMarker(merged)) {
        assert Entry(n, true) in merged;
        assert Entry(n, true) in WithMarker(merged);
      }
    }

    /** `movePatterns`: keeps the custom patterns, copies the download into
        the patterns directory, and marks it loaded, but only when it then
        holds at least one pattern directory; the download is removed last. */
    method MovePatterns() returns (err: Option<LoaderError>)
      requires DistinctFolders()
      modifies this
      ensures defaultFolder == old(defaultFolder)
      ensures Step(fs, err) == Move(old(fs))
      ensures err.None? ==>
        && patternsDir in fs.dirs && |DirNames(fs.dirs[patternsDir])| > 0
        && LoadedFilePath() in fs.files && tempPatternsFolder !in fs.dirs
      ensures err.Some? ==> fs.files == old(fs.files)
      ensures err == Some(NoPatternsCopied(patternsDir)) ==>
        patternsDir in fs.dirs && |DirNames(fs.dirs[patternsDir])| == 0
    {
      MoveErrors(fs);
      if Move(fs).err.None? {
        MoveKeepsDownload(fs);
        MoveSuccess(fs);
      }
      if patternsDir !in fs.dirs {
        fs := fs.(dirs := fs.dirs[patternsDir := []]);
      }

      err := PersistPatterns();
      if err.Some? {
        return;
      }

      err := CopyDownload();
      if err.Some? {
        return;
      }

      var patternCount, _ := CountPatternsInDirectory(patternsDir);
      if patternCount == 0 {
        return Some(NoPatternsCopied(patternsDir));
      }

      err := WriteMarker();
      if err.Some? {
        return;
      }
      fs := fs.(dirs := fs.dirs - {tempPatternsFolder});
    }

    /** The copy of the download into the patterns directory: entries of
        the same name are replaced, and a failed copy changes nothing. */
    method CopyDownload() returns (err: Option<LoaderError>)
      requires patternsDir in fs.dirs && tempPatternsFolder in fs.dirs
      modifies this
      ensures defaultFolder == old(defaultFolder)
      ensures var copyError := remote.copyFails(tempPatternsFolder, patternsDir);
        && (copyError.Some? ==> err == Some(CopyFailed(copyError.value)) && fs == old(fs))
        && (copyError.None? ==>
              err.None? &&
              fs == old(fs).(dirs := old(fs.dirs)[patternsDir := Merge(old(fs.dirs[patternsDir]), old(fs.dirs[tempPatternsFolder]))]))
    {
      var copyError := remote.copyFails(tempPatternsFolder, patternsDir);
      if copyError.Some? {
        return Some(CopyFailed(copyError.value));
      }
      fs := fs.(dirs := fs.dirs[patternsDir := Merge(fs.dirs[patternsDir], fs.dirs[tempPatternsFolder])]);
      err := None;
    }

    /** `os.Create` of the "loaded" marker: an empty file in the patterns
        directory, which fails where a directory of that name stands. */
    method WriteMarker() returns (err: Option<LoaderError>)
      requires patternsDir in fs.dirs && |DirNames(fs.dirs[patternsDir])| > 0
      modifies this
      ensures defaultFolder == old(defaultFolder)
      ensures Entry(LoadedMarker, true) in old(fs.dirs[patternsDir]) ==>
        err == Some(MarkerFailed(LoadedFilePath())) && fs == old(fs)
      ensures Entry(LoadedMarker, true) !in old(fs.dirs[patternsDir]) ==>
        && err.None?
        && fs == Fs(old(fs.dirs)[patternsDir := WithMarker(old(fs.dirs[patternsDir]))], old(fs.files)[LoadedFilePath() := ""])
        && |DirNames(fs.dirs[patternsDir])| > 0
    {
      var listing := fs.dirs[patternsDir];
      if Entry(LoadedMarker, true) in listing {
        return Some(MarkerFailed(LoadedFilePath()));
      }
      MarkerKeepsPatterns(listing);
      fs := Fs(fs.dirs[patternsDir := WithMarker(listing)], fs.files[LoadedFilePath() := ""]);
      err := None;
    }

    // -------------------------------------------------------------------------
    // gitCloneAndCopy and tryPathMigration

    /** What `tryPathMigration` does, from the file system `f` and the
        folder setting `folder`: only "patterns" is migrated, and only when
        a test download of "data/patterns" holds a pattern; that download
        then replaces the temporary folder, renamed or, failing that,
        copied. A failed copy is reported after the setting has changed. */
    function Migration(f: Fs, folder: string): (o: Outcome)
      ensures o.err.None? ==> folder == OldPatternsFolder && o.folder == NewPatternsFolder
    {
      if folder != OldPatternsFolder then Outcome(f, folder, Some(UnableToFindOrMigrate(folder)))
      else
        var fetched := remote.fetch(gitRepoUrl, NewPatternsFolder);
        if fetched.Err? || |DirNames(fetched.value)| == 0 then
          Outcome(f.(dirs := f.dirs - {testTempFolder}), folder, Some(UnableToFindOrMigrate(folder)))
        else
          var moveError := if remote.renameFails(testTempFolder, tempPatternsFolder)
                           then remote.copyFails(testTempFolder, tempPatternsFolder) else None;
          if moveError.Some? then
            Outcome(f.(dirs := (f.dirs - {tempPatternsFolder})[testTempFolder := fetched.value]),
                    NewPatternsFolder, Some(MoveTestFailed(moveError.value)))
          else
            Outcome(f.(dirs := (f.dirs - {testTempFolder})[tempPatternsFolder := fetched.value]), NewPatternsFolder, None)
    }

    /** `tryPathMigration`: only the old "patterns" folder is migrated, to
        "data/patterns", and only when a test download from there holds
        patterns; the temporary folder then holds exactly that download. */
    method TryPathMigration() returns (err: Option<LoaderError>)
      requires DistinctFolders()
      modifies this
      ensures Outcome(fs, defaultFolder, err) == Migration(old(fs), old(defaultFolder))
      ensures err.None? ==> old(defaultFolder) == OldPatternsFolder && defaultFolder == NewPatternsFolder
      ensures err.None? ==>
        && remote.fetch(gitRepoUrl, NewPatternsFolder).Ok?
        && fs.dirs == (old(fs.dirs) - {testTempFolder})[tempPatternsFolder := remote.fetch(gitRepoUrl, NewPatternsFolder).value]
        && |DirNames(fs.dirs[tempPatternsFolder])| > 0
      ensures err.Some? ==>
        || (err == Some(UnableToFindOrMigrate(old(defaultFolder))) && defaultFolder == old(defaultFolder))
        || (err.value.MoveTestFailed? && old(defaultFolder) == OldPatternsFolder && defaultFolder == NewPatternsFolder)
      ensures fs.files == old(fs.files)
    {
      if defaultFolder == OldPatternsFolder {
        ghost var start := fs.dirs;
        fs := fs.(dirs := fs.dirs - {testTempFolder});
        var fetched := remote.fetch(gitRepoUrl, NewPatternsFolder);
        if fetched.Ok? {
          fs := fs.(dirs := fs.dirs[testTempFolder := fetched.value]);
          var patternCount, countErr := CountPatternsInDirectory(testTempFolder);
          if countErr.None? && patternCount > 0 {
            defaultFolder := NewPatternsFolder;
            fs := fs.(dirs := fs.dirs - {tempPatternsFolder});
            if remote.renameFails(testTempFolder, tempPatternsFolder) {
              var copyError := remote.copyFails(testTempFolder, tempPatternsFolder);
              if copyError.Some? {
                assert fs.dirs == (start - {tempPatternsFolder})[testTempFolder := fetched.value];
                return Some(MoveTestFailed(copyError.value));
              }
            }
            // renamed, or copied and then removed
            fs := fs.(dirs := (fs.dirs - {testTempFolder})[tempPatternsFolder := fetched.value]);
            assert fs.dirs == (start - {testTempFolder})[tempPatternsFolder := fetched.value];
            return None;
          }
        }
        fs := fs.(dirs := fs.dirs - {testTempFolder});
        assert fs.dirs == start - {testTempFolder};
      }
      err := Some(UnableToFindOrMigrate(defaultFolder));
    }

    /** The temporary folder's listing, empty when it does not exist. */
    function TempListing(f: Fs): seq<Entry> {
      if tempPatternsFolder in f.dirs then f.dirs[tempPatternsFolder] else []
    }

    /** What `gitCloneAndCopy` does: fetch the configured folder into the
        temporary folder; when that holds no pattern, migrate the folder
        setting and fetch once more. */
    function Clone(f: Fs, folder: string): Outcome
      decreases if folder == OldPatternsFolder then 1 else 0
    {
      var fetched := remote.fetch(gitRepoUrl, folder);
      if fetched.Err? then Outcome(f, folder, Some(DownloadFailed(gitRepoUrl, fetched.error)))
      // a fetch that writes nothing does not create a missing temporary folder
      else if tempPatternsFolder !in f.dirs && fetched.value == [] then
        Outcome(f, folder, Some(TempReadFailed(ReadFailed(tempPatternsFolder))))
      else
        var downloaded := Merge(TempListing(f), fetched.value);
        var f1 := f.(dirs := f.dirs[tempPatternsFolder := downloaded]);
        if |DirNames(downloaded)| > 0 then Outcome(f1, folder, None)
        else
          var m := Migration(f1, folder);
          if m.err.Some? then Outcome(m.fs, m.folder, Some(MigrationFailed(m.folder, m.err.value)))
          else Clone(m.fs, m.folder)
    }

    /** A failed fetch changes nothing; a fetch holding a pattern is written
        over the temporary folder and ends the step. */
    lemma CloneDirect(f: Fs, folder: string)
      ensures var fetched := remote.fetch(gitRepoUrl, folder);
        && (fetched.Err? ==> Clone(f, folder) == Outcome(f, folder, Some(DownloadFailed(gitRepoUrl, fetched.error))))
        && (fetched == Ok([]) && tempPatternsFolder !in f.dirs ==>
              Clone(f, folder) == Outcome(f, folder, Some(TempReadFailed(ReadFailed(tempPatternsFolder)))))
        && (fetched.Ok? && |DirNames(Merge(TempListing(f), fetched.value))| > 0 ==>
              Clone(f, folder) == Outcome(f.(dirs := f.dirs[tempPatternsFolder := Merge(TempListing(f), fetched.value)]), folder, None))
    {
    }

    /** `gitCloneAndCopy` writes no file, and changes the folder setting
        only from "patterns" to "data/patterns". */
    lemma {:induction false} CloneKeepsFiles(f: Fs, folder: string)
      ensures Clone(f, folder).fs.files == f.files
      ensures Clone(f, folder).folder == folder || (folder == OldPatternsFolder && Clone(f, folder).folder == NewPatternsFolder)
      decreases if folder == OldPatternsFolder then 1 else 0
    {
      var fetched := remote.fetch(gitRepoUrl, folder);
      if fetched.Ok? && (tempPatternsFolder in f.dirs || fetched.value != []) {
        var downloaded := Merge(TempListing(f), fetched.value);
        var f1 := f.(dirs := f.dirs[tempPatternsFolder := downloaded]);
        if |DirNames(downloaded)| == 0 {
          var m := Migration(f1, folder);
          if m.err.None? {
            CloneKeepsFiles(m.fs, m.folder);
          }
        }
      }
    }

    /** After a successful `gitCloneAndCopy` the temporary folder holds a
        pattern. */
    lemma {:induction false} CloneHasPatterns(f: Fs, folder: string)
      requires Clone(f, folder).err.None?
      ensures tempPatternsFolder in Clone(f, folder).fs.dirs
      ensures |DirNames(Clone(f, folder).fs.dirs[tempPatternsFolder])| > 0
      decreases if folder == OldPatternsFolder then 1 else 0
    {
      var fetched := remote.fetch(gitRepoUrl, folder);
      var downloaded := Merge(TempListing(f), fetched.value);
      var f1 := f.(dirs := f.dirs[tempPatternsFolder := downloaded]);
      if (tempPatternsFolder in f.dirs || fetched.value != []) && |DirNames(downloaded)| == 0 {
        CloneHasPatterns(Migration(f1, folder).fs, Migration(f1, folder).folder);
      }
    }

    /** A migration that succeeds started from "patterns", fetched a
        "data/patterns" holding a pattern, and left exactly that download in
        the temporary folder, with the test folder gone. */
    lemma MigrationSucceeds(f: Fs, folder: string)
      requires Migration(f, folder).err.None?
      ensures var again := remote.fetch(gitRepoUrl, NewPatternsFolder);
        && folder == OldPatternsFolder && Migration(f, folder).folder == NewPatternsFolder
        && again.Ok? && |DirNames(again.value)| > 0
        && Migration(f, folder).fs == f.(dirs := (f.dirs - {testTempFolder})[tempPatternsFolder := again.value])
    {
    }

    /** When the fetch holds no pattern, `gitCloneAndCopy` is the migration
        followed, if that succeeds, by the step once more. */
    lemma CloneRetries(f: Fs, folder: string)
      requires remote.fetch(gitRepoUrl, folder).Ok?
      requires tempPatternsFolder in f.dirs || remote.fetch(gitRepoUrl, folder).value != []
      requires |DirNames(Merge(TempListing(f), remote.fetch(gitRepoUrl, folder).value))| == 0
      ensures var downloaded := Merge(TempListing(f), remote.fetch(gitRepoUrl, folder).value);
        var m := Migration(f.(dirs := f.dirs[tempPatternsFolder := downloaded]), folder);
        && (m.err.Some? ==> Clone(f, folder) == Outcome(m.fs, m.folder, Some(MigrationFailed(m.folder, m.err.value))))
        && (m.err.None? ==> Clone(f, folder) == Clone(m.fs, m.folder))
    {
    }

    /** The step after a migration: the "data/patterns" download, already
        in the temporary folder, is fetched again and copied over itself. */
    lemma CloneAfterMigration(g: Fs)
      requires remote.fetch(gitRepoUrl, NewPatternsFolder).Ok?
      requires |DirNames(remote.fetch(gitRepoUrl, NewPatternsFolder).value)| > 0
      requires TempListing(g) == remote.fetch(gitRepoUrl, NewPatternsFolder).value
      ensures var again := remote.fetch(gitRepoUrl, NewPatternsFolder).value;
        Clone(g, NewPatternsFolder) == Outcome(g.(dirs := g.dirs[tempPatternsFolder := Merge(again, again)]), NewPatternsFolder, None)
    {
      var again := remote.fetch(gitRepoUrl, NewPatternsFolder).value;
      MergeHasPatterns(again, again);
      CloneDirect(g, NewPatternsFolder);
    }

    /** A step that ends with the folder setting migrated holds exactly the
        "data/patterns" download, copied over itself, in the temporary
        folder, and the test folder is gone. */
    lemma CloneMigrated(f: Fs, folder: string)
      requires DistinctFolders()
      requires Clone(f, folder).err.None? && Clone(f, folder).folder != folder
      ensures var again := remote.fetch(gitRepoUrl, NewPatternsFolder);
        && again.Ok?
        && Clone(f, folder).fs.dirs == (f.dirs - {testTempFolder})[tempPatternsFolder := Merge(again.value, again.value)]
    {
      var fetched := remote.fetch(gitRepoUrl, folder);
      assert fetched.Ok? by { CloneDirect(f, folder); }
      var downloaded := Merge(TempListing(f), fetched.value);
      assert |DirNames(downloaded)| == 0 by { CloneDirect(f, folder); }
      var f1 := f.(dirs := f.dirs[tempPatternsFolder := downloaded]);
      var m := Migration(f1, folder);
      assert m.err.None? && Clone(f, folder) == Clone(m.fs, m.folder) by { CloneRetries(f, folder); }
      var again := remote.fetch(gitRepoUrl, NewPatternsFolder);
      assert again.Ok? && |DirNames(again.value)| > 0 && m.folder == NewPatternsFolder
        && m.fs == f1.(dirs := (f1.dirs - {testTempFolder})[tempPatternsFolder := again.value])
        by { MigrationSucceeds(f1, folder); }
      var both := Merge(again.value, again.value);
      var d := (f1.dirs - {testTempFolder})[tempPatternsFolder := again.value];
      assert Clone(m.fs, NewPatternsFolder).fs.dirs == d[tempPatternsFolder := both] by {
        assert TempListing(m.fs) == again.value;
        CloneAfterMigration(m.fs);
      }
      OverwriteAfterRemove(f.dirs, tempPatternsFolder, testTempFolder, downloaded, again.value, both);
    }

    /** `gitCloneAndCopy`: downloads the configured folder; when it holds no
        pattern, migrates the folder and downloads once more. The retry
        happens at most once, since only "patterns" is ever migrated. */
    method GitCloneAndCopy() returns (err: Option<LoaderError>)
      requires DistinctFolders()
      modifies this
      ensures Outcome(fs, defaultFolder, err) == Clone(old(fs), old(defaultFolder))
      ensures defaultFolder == old(defaultFolder) || (old(defaultFolder) == OldPatternsFolder && defaultFolder == NewPatternsFolder)
      ensures err.None? ==> tempPatternsFolder in fs.dirs && |DirNames(fs.dirs[tempPatternsFolder])| > 0
      ensures fs.files == old(fs.files)
      decreases if defaultFolder == OldPatternsFolder then 1 else 0
    {
      CloneKeepsFiles(fs, defaultFolder);
      if Clone(fs, defaultFolder).err.None? {
        CloneHasPatterns(fs, defaultFolder);
      }
      var fetched := remote.fetch(gitRepoUrl, defaultFolder);
      if fetched.Err? {
        return Some(DownloadFailed(gitRepoUrl, fetched.error));
      }
      if tempPatternsFolder in fs.dirs || fetched.value != [] {
        var existing := if tempPatternsFolder in fs.dirs then fs.dirs[tempPatternsFolder] else [];
        fs := fs.(dirs := fs.dirs[tempPatternsFolder := Merge(existing, fetched.value)]);
      }

      var patternCount, countErr := CountPatternsInDirectory(tempPatternsFolder);
      if countErr.Some? {
        return Some(TempReadFailed(countErr.value));
      }
      if patternCount == 0 {
        var migrationErr := TryPathMigration();
        if migrationErr.Some? {
          return Some(MigrationFailed(defaultFolder, migrationErr.value));
        }
        err := GitCloneAndCopy();
        return;
      }
      err := None;
    }

    // -------------------------------------------------------------------------
    // createUniquePatternsFile and PopulateDB

    /** What `createUniquePatternsFile` does to the file system. */
    ghost function Unique(f: Fs): Step {
      if patternsDir !in f.dirs then Step(f, Some(ReadFailed(patternsDir)))
      else
        var names := UniqueNames(f, patternsDir, customPatternsDir);
        if names == {} then
          Step(f, Some(if customPatternsDir != "" then NoPatternsInDirectories(patternsDir, customPatternsDir)
                       else NoPatternsInDirectory(patternsDir)))
        else Step(f.(files := f.files[uniquePatternsFilePath := UniqueFileContent(SortedSet(names))]), None)
    }

    /** `createUniquePatternsFile`: every directory name of the patterns
        directory and, when it can be read, of the custom patterns
        directory, once each, sorted, one per line. */
    method CreateUniquePatternsFile() returns (err: Option<LoaderError>)
      modifies this
      ensures defaultFolder == old(defaultFolder)
      ensures Step(fs, err) == Unique(old(fs))
      ensures patternsDir !in old(fs.dirs) ==> err == Some(ReadFailed(patternsDir)) && fs == old(fs)
      ensures patternsDir in old(fs.dirs) ==>
        var names := UniqueNames(old(fs), patternsDir, customPatternsDir);
        && (names == {} ==> err.Some? && fs == old(fs))
        && (names == {} && customPatternsDir == "" ==> err == Some(NoPatternsInDirectory(patternsDir)))
        && (names == {} && customPatternsDir != "" ==> err == Some(NoPatternsInDirectories(patternsDir, customPatternsDir)))
        && (names != {} ==>
              err.None? &&
              fs == old(fs).(files := old(fs.files)[uniquePatternsFilePath := UniqueFileContent(SortedSet(names))]))
    {
      if patternsDir !in fs.dirs {
        return Some(ReadFailed(patternsDir));
      }
      var patternNames := AddDirNames({}, fs.dirs[patternsDir]);
      if customPatternsDir != "" && customPatternsDir in fs.dirs {
        patternNames := AddDirNames(patternNames, fs.dirs[customPatternsDir]);
      }

      if patternNames == {} {
        if customPatternsDir != "" {
          return Some(NoPatternsInDirectories(patternsDir, customPatternsDir));
        }
        return Some(NoPatternsInDirectory(patternsDir));
      }

      var names := CollectKeys(patternNames);
      names := SortStrings(names);
      SortedOfSet(names, patternNames);
      var content := Join(names, "\n") + "\n";
      fs := fs.(files := fs.files[uniquePatternsFilePath := content]);
      err := None;
    }

    /** What `PopulateDB` does: download, move into place, write the
        unique-patterns file; the error of each step is wrapped. */
    ghost function Populate(f: Fs, folder: string): Outcome {
      var c := Clone(f, folder);
      if c.err.Some? then Outcome(c.fs, c.folder, Some(DownloadStepFailed(c.err.value)))
      else
        var m := Move(c.fs);
        if m.err.Some? then Outcome(m.fs, c.folder, Some(MoveStepFailed(m.err.value)))
        else
          var u := Unique(m.fs);
          Outcome(u.fs, c.folder, if u.err.Some? then Some(UniqueFileStepFailed(u.err.value)) else None)
    }

    /** After a successful `PopulateDB` the patterns directory is the old
        listing overwritten by the download (with the preserved custom
        patterns) plus the marker, it holds a pattern, the download is gone,
        the marker is present, and the unique-patterns file lists every
        pattern name of the patterns and custom patterns directories. */
    lemma PopulateOutcome(f: Fs, folder: string)
      requires DistinctFolders()
      ensures var o := Populate(f, folder);
        var c := Clone(f, folder);
        o.err.None? ==>
          && c.err.None? && tempPatternsFolder in c.fs.dirs
          && var merged := Merge(PatternsListing(c.fs), PersistedDownload(PatternsListing(c.fs), c.fs.dirs[tempPatternsFolder]));
          && o.fs.dirs == c.fs.dirs[patternsDir := WithMarker(merged)] - {tempPatternsFolder}
          && patternsDir in o.fs.dirs && |DirNames(o.fs.dirs[patternsDir])| > 0
          && MarkerPresent(o.fs)
          && uniquePatternsFilePath in o.fs.files
          && o.fs.files[uniquePatternsFilePath]
             == UniqueFileContent(SortedSet(UniqueNames(o.fs, patternsDir, customPatternsDir)))
    {
      var o := Populate(f, folder);
      if o.err.None? {
        var c := Clone(f, folder);
        CloneHasPatterns(f, folder);
        MoveSuccess(c.fs);
        MoveKeepsDownload(c.fs);
        var m := Move(c.fs);
        assert LoadedFilePath() in m.fs.files;
      }
    }

    /** `PopulateDB`: download, move into place, then write the
        unique-patterns file; each step's error is wrapped. */
    method PopulateDB() returns (err: Option<LoaderError>)
      requires DistinctFolders()
      modifies this
      ensures Outcome(fs, defaultFolder, err) == Populate(old(fs), old(defaultFolder))
      ensures err.None? ==> LoadedFilePath() in fs.files && uniquePatternsFilePath in fs.files && IsConfigured(true)
      ensures defaultFolder == old(defaultFolder) || (old(defaultFolder) == OldPatternsFolder && defaultFolder == NewPatternsFolder)
    {
      err := GitCloneAndCopy();
      if err.Some? {
        return Some(DownloadStepFailed(err.value));
      }
      err := MovePatterns();
      if err.Some? {
        return Some(MoveStepFailed(err.value));
      }
      err := CreateUniquePatternsFile();
      if err.Some? {
        return Some(UniqueFileStepFailed(err.value));
      }
    }
  }

  /** Every pattern name the unique-patterns file lists. */
  ghost function UniqueNames(fs: Fs, dir: string, customDir: string): set<string>
    requires dir in fs.dirs
  {
    DirNameSet(fs.dirs[dir]) + (if customDir != "" && customDir in fs.dirs then DirNameSet(fs.dirs[customDir]) else {})
  }

  /** The loop adding each directory name of a listing to the name set. */
  method AddDirNames(names: set<string>, entries: seq<Entry>) returns (r: set<string>)
    ensures r == names + DirNameSet(entries)
  {
    r := names;
    for k := 0 to |entries|
      invariant r == names + DirNameSet(entries[..k])
    {
      assert entries[..k + 1] == entries[..k] + [entries[k]];
      if entries[k].isDir {
        r := r + {entries[k].name};
      }
    }
    assert entries[..|entries|] == entries;
  }

  /** Writing the "loaded" marker file keeps every pattern directory of a
      listing that holds no directory of that name. */
  lemma MarkerKeepsPatterns(listing: seq<Entry>)
    requires |DirNames(listing)| > 0 && Entry(LoadedMarker, true) !in listing
    ensures |DirNames(Without(listing, {LoadedMarker}) + [Entry(LoadedMarker, false)])| > 0
  {
    var kept := Without(listing, {LoadedMarker});
    var marked := kept + [Entry(LoadedMarker, false)];
    DirNamesAreDirectories(listing);
    var e :| e in listing && e.isDir;
    assert e in kept;
    DirNamesAreDirectories(kept);
    assert marked[..|marked| - 1] == kept;
    assert DirNames(marked) == DirNames(kept);
  }
}
