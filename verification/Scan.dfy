/** Scanning the selected roots of a backup: a breadth-first walk with a seen set. */
module Scan {
  import opened Bytes
  import opened BackupRuns

  datatype Inspection = Found(resource: Resource) | InspectError
  datatype Children = Children(entries: seq<Resource>) | ListError

  /** The source provider. */
  datatype Source = Source(inspect: string -> Inspection, list: string -> Children)

  datatype ScannedDirectory = ScannedDirectory(relativePath: string, mtime: Time)

  datatype Stats = Stats(files: nat, dirs: nat, bytes: nat)

  /** path.Clean and safeRemotePath are library functions here; a clean tree says what is used of them. */
  const Clean: string -> string
  const Safe: string -> bool

  // ---- Paths -----------------------------------------------------------------------------------

  predicate HasPrefix(s: string, prefix: string) {
    prefix <= s
  }

  /** isBackupPathWithin. */
  predicate Within(root: string, candidate: string) {
    root != "" && (root == "/" || candidate == root || HasPrefix(candidate, root + "/"))
  }

  /** A path within a path within a root is within the root. */
  lemma WithinTransitive(a: string, b: string, c: string)
    requires Within(a, b) && Within(b, c)
    ensures Within(a, c)
  {
    if a != "/" && b != a && c != b {
      assert HasPrefix(b, a + "/");
      assert |a + "/"| > 1;
      if b != "/" {
        assert b + "/" <= c && a + "/" <= b;
        assert b <= b + "/";
      }
    }
  }

  function TrimSlash(path: string): string {
    if HasPrefix(path, "/") then path[1..] else path
  }

  datatype Relative = Relative(path: string) | Escapes

  /** NormalizeRelativePath. */
  function Normalize(value: string): Relative {
    if value == "" || '\\' in value then Escapes
    else
      var cleaned := Clean(value);
      if cleaned == "." || HasPrefix(cleaned, "/") || cleaned == ".." || HasPrefix(cleaned, "../") then Escapes
      else Relative(cleaned)
  }

  /** An absolute clean path; only the root directory has no relative form. */
  predicate CleanPath(path: string) {
    && HasPrefix(path, "/") && Clean(path) == path && Safe(path)
    && (path != "/" ==> Normalize(path[1..]) == Relative(path[1..]))
  }

  // ---- What there is to scan -------------------------------------------------------------------

  /** An entry of a listing other than the collection itself. */
  predicate ChildOf(src: Source, dir: string, r: Resource) {
    src.list(dir).Children? && r in src.list(dir).entries && Clean(r.path) != Clean(dir)
  }

  predicate RootAt(src: Source, selected: seq<string>, r: Resource) {
    exists k :: 0 <= k < |selected| && src.inspect(selected[k]) == Found(r)
  }

  /** The directory is n levels below a selected one. */
  ghost predicate DirAt(src: Source, selected: seq<string>, dir: string, n: nat)
    decreases n
  {
    if n == 0 then exists r: Resource :: RootAt(src, selected, r) && r.isDir && r.path == dir
    else exists parent: string, r: Resource ::
      DirAt(src, selected, parent, n - 1) && ChildOf(src, parent, r) && r.isDir && r.path == dir
  }

  ghost predicate IsDir(src: Source, selected: seq<string>, dir: string) {
    exists n: nat :: DirAt(src, selected, dir, n)
  }

  /** The file is selected itself or listed in a directory below the selection. */
  ghost predicate FileAt(src: Source, selected: seq<string>, r: Resource) {
    && !r.isDir
    && (RootAt(src, selected, r) || exists dir: string :: IsDir(src, selected, dir) && ChildOf(src, dir, r))
  }

  /**
    A provider tree with clean paths: everything selected can be inspected, every directory listed, and entries
    lie below their directory. A listing may repeat the collection itself, with any spelling of its path.
   */
  ghost predicate CleanTree(src: Source, selected: seq<string>) {
    && (forall k :: 0 <= k < |selected| ==> CleanRoot(src, selected[k]))
    && (forall dir :: IsDir(src, selected, dir) ==> CleanListing(src, dir))
  }

  predicate CleanResource(r: Resource) {
    CleanPath(r.path) && (!r.isDir ==> r.path != "/")
  }

  predicate CleanRoot(src: Source, root: string) {
    src.inspect(root).Found? && src.inspect(root).resource.path == root && CleanResource(src.inspect(root).resource)
  }

  predicate CleanListing(src: Source, dir: string) {
    && src.list(dir).Children?
    && forall r :: r in src.list(dir).entries ==>
         Safe(r.path) && (Clean(r.path) == Clean(dir) || (CleanResource(r) && Within(dir, r.path)))
  }

  /** Finitely many directories are ever named. */
  ghost predicate Bounded(src: Source, selected: seq<string>, universe: set<string>) {
    && (forall r :: RootAt(src, selected, r) && r.isDir ==> r.path in universe)
    && (forall dir, r :: dir in universe && ChildOf(src, dir, r) && r.isDir ==> r.path in universe)
  }

  // ---- The walk --------------------------------------------------------------------------------

  datatype Progress = Progress(
    files: seq<ScannedFile>, directories: seq<ScannedDirectory>,
    seenDirs: set<string>, seenFiles: set<string>, queue: seq<string>)

  datatype Noted = Noted(progress: Progress) | BadPath

  /** Both loops end alike: a new directory is recorded and queued, a new file recorded. */
  function Note(st: Progress, r: Resource): Noted {
    if r.isDir then
      if r.path in st.seenDirs then Noted(st)
      else
        var relative := TrimSlash(r.path);
        var next := st.(seenDirs := st.seenDirs + {r.path}, queue := st.queue + [r.path]);
        if relative == "" then Noted(next)
        else
          match Normalize(relative)
          case Escapes => BadPath
          case Relative(path) => Noted(next.(directories := st.directories + [ScannedDirectory(path, r.lastModified)]))
    else
      match Normalize(TrimSlash(r.path))
      case Escapes => BadPath
      case Relative(path) =>
        if path in st.seenFiles then Noted(st)
        else Noted(st.(seenFiles := st.seenFiles + {path},
                       files := st.files + [ScannedFile(r.path, path, r.size, r.lastModified)]))
  }

  /** Nothing seen is forgotten. */
  predicate Extends(st: Progress, next: Progress) {
    st.seenDirs <= next.seenDirs && st.seenFiles <= next.seenFiles
  }

  /** The resource is excluded or has been seen. */
  predicate Covered(st: Progress, excluded: string, r: Resource) {
    || Within(excluded, r.path)
    || (r.isDir && r.path in st.seenDirs)
    || (!r.isDir && HasPrefix(r.path, "/") && r.path[1..] in st.seenFiles)
  }

  ghost predicate ListingCovered(src: Source, st: Progress, excluded: string, dir: string) {
    forall r :: ChildOf(src, dir, r) ==> Covered(st, excluded, r)
  }

  /** Everything recorded is wanted, once. */
  ghost predicate Sound(src: Source, selected: seq<string>, excluded: string, st: Progress) {
    && (forall dir :: dir in st.seenDirs ==> IsDir(src, selected, dir) && !Within(excluded, dir) && CleanPath(dir))
    && (forall i :: 0 <= i < |st.queue| ==> st.queue[i] in st.seenDirs)
    && FilesSound(src, selected, excluded, st)
  }

  ghost predicate FilesSound(src: Source, selected: seq<string>, excluded: string, st: Progress) {
    && (forall i :: 0 <= i < |st.files| ==>
          RecordOf(src, selected, excluded, st.files[i]) && st.files[i].relativePath in st.seenFiles)
    && (forall i, j :: 0 <= i < j < |st.files| ==> st.files[i].relativePath != st.files[j].relativePath)
    && (forall path :: path in st.seenFiles ==> exists i :: 0 <= i < |st.files| && st.files[i].relativePath == path)
  }

  ghost predicate RecordOf(src: Source, selected: seq<string>, excluded: string, f: ScannedFile) {
    && HasPrefix(f.sourcePath, "/") && f.relativePath == f.sourcePath[1..] && !Within(excluded, f.sourcePath)
    && FileAt(src, selected, Resource(f.sourcePath, false, f.size, f.mtime))
  }

  lemma NoteDir(src: Source, selected: seq<string>, excluded: string, st: Progress, r: Resource)
    requires Sound(src, selected, excluded, st) && CleanPath(r.path) && !Within(excluded, r.path)
    requires r.isDir && IsDir(src, selected, r.path)
    ensures Note(st, r).Noted? && Sound(src, selected, excluded, Note(st, r).progress)
  {
    var t := Note(st, r).progress;
    assert t.files == st.files && t.seenFiles == st.seenFiles;
  }

  lemma NoteFile(src: Source, selected: seq<string>, excluded: string, st: Progress, r: Resource)
    requires Sound(src, selected, excluded, st) && CleanResource(r) && !Within(excluded, r.path)
    requires !r.isDir && FileAt(src, selected, r)
    ensures Note(st, r).Noted? && Sound(src, selected, excluded, Note(st, r).progress)
  {
    var path := r.path[1..];
    if path !in st.seenFiles {
      var f := ScannedFile(r.path, path, r.size, r.lastModified);
      assert Resource(f.sourcePath, false, f.size, f.mtime) == r;
      FileAppended(src, selected, excluded, st, f);
    }
  }

  lemma FileAppended(src: Source, selected: seq<string>, excluded: string, st: Progress, f: ScannedFile)
    requires FilesSound(src, selected, excluded, st) && RecordOf(src, selected, excluded, f)
    requires f.relativePath !in st.seenFiles
    ensures FilesSound(src, selected, excluded,
                       st.(files := st.files + [f], seenFiles := st.seenFiles + {f.relativePath}))
  {
    var t := st.(files := st.files + [f], seenFiles := st.seenFiles + {f.relativePath});
    forall path | path in t.seenFiles ensures exists i :: 0 <= i < |t.files| && t.files[i].relativePath == path {
      if path in st.seenFiles {
        var i :| 0 <= i < |st.files| && st.files[i].relativePath == path;
        assert t.files[i].relativePath == path;
      } else {
        assert t.files[|st.files|].relativePath == path;
      }
    }
  }

  /** Noting a resource covers it and forgets nothing. */
  lemma NoteCovers(st: Progress, r: Resource, excluded: string)
    requires Note(st, r).Noted? && CleanResource(r)
    ensures Covered(Note(st, r).progress, excluded, r) && Extends(st, Note(st, r).progress)
  {
  }

  // ---- Completeness ----------------------------------------------------------------------------

  /** All roots and all listings of seen directories are covered. */
  ghost predicate Finished(src: Source, selected: seq<string>, excluded: string, st: Progress) {
    && (forall r :: RootAt(src, selected, r) ==> Covered(st, excluded, r))
    && (forall dir :: dir in st.seenDirs ==> ListingCovered(src, st, excluded, dir))
  }

  lemma {:induction false} DirsSeen(src: Source, selected: seq<string>, excluded: string, st: Progress, dir: string,
                                    n: nat)
    requires CleanTree(src, selected) && Finished(src, selected, excluded, st)
    requires DirAt(src, selected, dir, n) && !Within(excluded, dir)
    ensures dir in st.seenDirs
    decreases n
  {
    if n > 0 {
      var parent: string, r: Resource :| DirAt(src, selected, parent, n - 1) && ChildOf(src, parent, r) && r.isDir
                                         && r.path == dir;
      assert IsDir(src, selected, parent);
      assert CleanListing(src, parent);
      if Within(excluded, parent) {
        WithinTransitive(excluded, parent, dir);
      }
      DirsSeen(src, selected, excluded, st, parent, n - 1);
      assert ListingCovered(src, st, excluded, parent);
    }
  }

  lemma FilesSeen(src: Source, selected: seq<string>, excluded: string, st: Progress, r: Resource)
    requires CleanTree(src, selected) && Finished(src, selected, excluded, st)
    requires FileAt(src, selected, r) && !Within(excluded, r.path)
    ensures HasPrefix(r.path, "/") && r.path[1..] in st.seenFiles
  {
    if !RootAt(src, selected, r) {
      var dir :| IsDir(src, selected, dir) && ChildOf(src, dir, r);
      var n: nat :| DirAt(src, selected, dir, n);
      assert CleanListing(src, dir);
      if Within(excluded, dir) {
        WithinTransitive(excluded, dir, r.path);
      }
      DirsSeen(src, selected, excluded, st, dir, n);
      assert ListingCovered(src, st, excluded, dir);
    }
  }

  // ---- The result ------------------------------------------------------------------------------

  datatype Result = Scanned(files: seq<ScannedFile>, directories: seq<ScannedDirectory>, stats: Stats) | ScanFailed

  function TotalBytes(files: seq<ScannedFile>): nat {
    if files == [] then 0 else TotalBytes(files[..|files| - 1]) + files[|files| - 1].size
  }

  /** The files returned are the files below the selection and outside the excluded root, each once. */
  ghost predicate Exact(src: Source, selected: seq<string>, excluded: string, files: seq<ScannedFile>) {
    && (forall i :: 0 <= i < |files| ==> RecordOf(src, selected, excluded, files[i]))
    && (forall i, j :: 0 <= i < j < |files| ==> files[i].sourcePath != files[j].sourcePath)
    && (forall r :: FileAt(src, selected, r) && !Within(excluded, r.path) ==>
          exists i :: 0 <= i < |files| && files[i].sourcePath == r.path)
  }

  lemma FinishedExact(src: Source, selected: seq<string>, excluded: string, st: Progress)
    requires CleanTree(src, selected) && Finished(src, selected, excluded, st) && Sound(src, selected, excluded, st)
    ensures Exact(src, selected, excluded, st.files)
  {
    forall r | FileAt(src, selected, r) && !Within(excluded, r.path)
      ensures exists i :: 0 <= i < |st.files| && st.files[i].sourcePath == r.path
    {
      FilesSeen(src, selected, excluded, st, r);
      var i :| 0 <= i < |st.files| && st.files[i].relativePath == r.path[1..];
      assert st.files[i].sourcePath == "/" + st.files[i].relativePath && r.path == "/" + r.path[1..];
    }
  }

  // ---- The loops -------------------------------------------------------------------------------

  /** Growth in one step: what is new among the directories is queued, and stays within the bound. */
  ghost predicate Queued(st: Progress, t: Progress, universe: set<string>) {
    && Extends(st, t) && st.queue <= t.queue
    && (forall dir :: dir in t.seenDirs ==> dir in st.seenDirs || dir in t.queue)
    && (t.seenDirs == st.seenDirs ==> t.queue == st.queue)
    && (forall dir :: dir in t.queue ==> dir in st.queue || dir in universe)
    && (forall dir :: dir in t.seenDirs ==> dir in st.seenDirs || dir in universe)
  }

  lemma QueuedRefl(st: Progress, universe: set<string>)
    ensures Queued(st, st, universe)
  {
  }

  lemma NoteQueues(st: Progress, r: Resource, universe: set<string>)
    requires Note(st, r).Noted? && (r.isDir ==> r.path in universe)
    ensures Queued(st, Note(st, r).progress, universe)
  {
    var t := Note(st, r).progress;
    if r.isDir && r.path !in st.seenDirs {
      assert t.queue[|st.queue|] == r.path;
      assert t.seenDirs != st.seenDirs;
    }
  }

  lemma QueuedTrans(a: Progress, b: Progress, c: Progress, universe: set<string>)
    requires Queued(a, b, universe) && Queued(b, c, universe)
    ensures Queued(a, c, universe)
  {
    assert a.seenDirs <= b.seenDirs <= c.seenDirs;
  }

  ghost predicate RootsCovered(src: Source, selected: seq<string>, excluded: string, st: Progress, n: nat)
    requires n <= |selected|
  {
    forall k :: 0 <= k < n && src.inspect(selected[k]).Found? ==>
      Covered(st, excluded, src.inspect(selected[k]).resource)
  }

  /** One selected root. */
  method ScanRoot(src: Source, ghost selected: seq<string>, excluded: string, root: string, st: Progress,
                  ghost universe: set<string>)
    returns (r: Noted)
    requires root in selected && Bounded(src, selected, universe)
    ensures r.Noted? ==> Queued(st, r.progress, universe)
    ensures CleanTree(src, selected) && Sound(src, selected, excluded, st) ==>
      && r.Noted? && Sound(src, selected, excluded, r.progress)
      && Covered(r.progress, excluded, src.inspect(root).resource)
  {
    QueuedRefl(st, universe);
    ghost var k :| 0 <= k < |selected| && selected[k] == root;
    assert CleanTree(src, selected) ==> CleanRoot(src, selected[k]);
    if !Safe(root) {
      return BadPath;
    }
    if Within(excluded, root) {
      return Noted(st);
    }
    var found := src.inspect(root);
    if found.InspectError? || !Safe(found.resource.path) {
      return BadPath;
    }
    if Within(excluded, found.resource.path) {
      return Noted(st);
    }
    r := Note(st, found.resource);
    assert RootAt(src, selected, found.resource);
    if r.Noted? {
      NoteQueues(st, found.resource, universe);
    }
    if CleanTree(src, selected) && Sound(src, selected, excluded, st) {
      NoteWanted(src, selected, excluded, st, found.resource);
      NoteCovers(st, found.resource, excluded);
    }
  }

  lemma NoteWanted(src: Source, selected: seq<string>, excluded: string, st: Progress, r: Resource)
    requires Sound(src, selected, excluded, st) && CleanResource(r) && !Within(excluded, r.path)
    requires RootAt(src, selected, r) || exists dir :: IsDir(src, selected, dir) && ChildOf(src, dir, r)
    ensures Note(st, r).Noted? && Sound(src, selected, excluded, Note(st, r).progress)
  {
    if r.isDir {
      if RootAt(src, selected, r) {
        assert DirAt(src, selected, r.path, 0);
      } else {
        var dir :| IsDir(src, selected, dir) && ChildOf(src, dir, r);
        var n: nat :| DirAt(src, selected, dir, n);
        assert DirAt(src, selected, r.path, n + 1);
      }
      NoteDir(src, selected, excluded, st, r);
    } else {
      NoteFile(src, selected, excluded, st, r);
    }
  }

  lemma RootsStep(src: Source, selected: seq<string>, excluded: string, st: Progress, t: Progress, i: nat)
    requires i < |selected| && RootsCovered(src, selected, excluded, st, i) && Extends(st, t)
    requires src.inspect(selected[i]).Found? ==> Covered(t, excluded, src.inspect(selected[i]).resource)
    ensures RootsCovered(src, selected, excluded, t, i + 1)
  {
  }

  lemma RootsKept(src: Source, selected: seq<string>, excluded: string, st: Progress, t: Progress)
    requires RootsCovered(src, selected, excluded, st, |selected|) && Extends(st, t)
    ensures RootsCovered(src, selected, excluded, t, |selected|)
  {
  }

  method ScanRoots(src: Source, selected: seq<string>, excluded: string, ghost universe: set<string>) returns (r: Noted)
    requires Bounded(src, selected, universe)
    ensures r.Noted? ==> Inside(r.progress, universe)
    ensures CleanTree(src, selected) ==> r.Noted? && Walking(src, selected, excluded, r.progress)
  {
    var st := Progress([], [], {}, {}, []);
    ghost var start := st;
    QueuedRefl(st, universe);
    var i := 0;
    while i < |selected|
      invariant i <= |selected| && Queued(start, st, universe)
      invariant CleanTree(src, selected) ==>
        Sound(src, selected, excluded, st) && RootsCovered(src, selected, excluded, st, i)
    {
      var noted := ScanRoot(src, selected, excluded, selected[i], st, universe);
      if noted.BadPath? {
        return BadPath;
      }
      QueuedTrans(start, st, noted.progress, universe);
      if CleanTree(src, selected) {
        RootsStep(src, selected, excluded, st, noted.progress, i);
      }
      st := noted.progress;
      i := i + 1;
    }
    StartInside(st, universe);
    r := Noted(st);
  }

  lemma StartInside(st: Progress, universe: set<string>)
    requires Queued(Progress([], [], {}, {}, []), st, universe)
    ensures Inside(st, universe) && forall dir :: dir in st.seenDirs ==> dir in st.queue
  {
    forall i | 0 <= i < |st.queue| ensures st.queue[i] in universe {
      assert st.queue[i] in st.queue;
    }
  }

  ghost predicate EntriesCovered(st: Progress, excluded: string, dir: string, entries: seq<Resource>) {
    forall i :: 0 <= i < |entries| && Clean(entries[i].path) != Clean(dir) ==> Covered(st, excluded, entries[i])
  }

  /** The walk is at a clean directory of a clean tree, and has kept to it so far. */
  ghost predicate AtClean(src: Source, selected: seq<string>, excluded: string, dir: string, st: Progress) {
    CleanTree(src, selected) && Sound(src, selected, excluded, st)
    && IsDir(src, selected, dir) && CleanPath(dir)
  }

  /** As long as the walk keeps to a clean tree, the first i entries are covered. */
  ghost predicate ListedTo(src: Source, selected: seq<string>, excluded: string, dir: string, entries: seq<Resource>,
                           i: nat, st: Progress, t: Progress)
    requires i <= |entries|
  {
    AtClean(src, selected, excluded, dir, st) ==>
      Sound(src, selected, excluded, t) && EntriesCovered(t, excluded, dir, entries[..i])
  }

  lemma ListNext(src: Source, selected: seq<string>, excluded: string, dir: string, entries: seq<Resource>, i: nat,
                 st: Progress, t: Progress, u: Progress)
    requires i < |entries| && ListedTo(src, selected, excluded, dir, entries, i, st, t) && Extends(t, u)
    requires AtClean(src, selected, excluded, dir, t) ==>
               && Sound(src, selected, excluded, u)
               && (Clean(entries[i].path) != Clean(dir) ==> Covered(u, excluded, entries[i]))
    ensures ListedTo(src, selected, excluded, dir, entries, i + 1, st, u)
  {
    if AtClean(src, selected, excluded, dir, st) {
      EntriesStep(t, u, excluded, dir, entries, i);
    }
  }

  /** One entry of a listing. */
  method ScanEntry(src: Source, ghost selected: seq<string>, excluded: string, dir: string, child: Resource,
                   st: Progress, ghost universe: set<string>)
    returns (r: Noted)
    requires Bounded(src, selected, universe) && dir in universe && src.list(dir).Children?
    requires child in src.list(dir).entries
    ensures r.Noted? ==> Queued(st, r.progress, universe)
    ensures AtClean(src, selected, excluded, dir, st) ==>
      && r.Noted? && Sound(src, selected, excluded, r.progress)
      && (Clean(child.path) != Clean(dir) ==> Covered(r.progress, excluded, child))
  {
    QueuedRefl(st, universe);
    ghost var clean := AtClean(src, selected, excluded, dir, st);
    assert clean ==> CleanListing(src, dir);
    if !Safe(child.path) {
      return BadPath;
    }
    var canonicalChild, canonicalDir := Clean(child.path), Clean(dir);
    if canonicalChild == canonicalDir {
      return Noted(st);
    }
    if !Within(canonicalDir, canonicalChild) {
      return BadPath;
    }
    if Within(excluded, child.path) {
      return Noted(st);
    }
    r := Note(st, child);
    assert ChildOf(src, dir, child);
    if r.Noted? {
      NoteQueues(st, child, universe);
    }
    if clean {
      NoteWanted(src, selected, excluded, st, child);
      NoteCovers(st, child, excluded);
    }
  }

  lemma ListingDone(src: Source, st: Progress, excluded: string, dir: string)
    requires src.list(dir).Children? && EntriesCovered(st, excluded, dir, src.list(dir).entries)
    ensures ListingCovered(src, st, excluded, dir)
  {
  }

  /** The entries of one listing. */
  method ScanEntries(src: Source, ghost selected: seq<string>, excluded: string, dir: string, st: Progress,
                     ghost universe: set<string>)
    returns (r: Noted)
    requires Bounded(src, selected, universe) && dir in universe && src.list(dir).Children?
    ensures r.Noted? ==> Queued(st, r.progress, universe)
    ensures AtClean(src, selected, excluded, dir, st) ==>
      && r.Noted? && Sound(src, selected, excluded, r.progress)
      && EntriesCovered(r.progress, excluded, dir, src.list(dir).entries)
  {
    var entries := src.list(dir).entries;
    QueuedRefl(st, universe);
    var t := st;
    var i := 0;
    while i < |entries|
      invariant i <= |entries| && Queued(st, t, universe)
      invariant ListedTo(src, selected, excluded, dir, entries, i, st, t)
    {
      var noted := ScanEntry(src, selected, excluded, dir, entries[i], t, universe);
      if noted.BadPath? {
        return BadPath;
      }
      QueuedTrans(st, t, noted.progress, universe);
      ListNext(src, selected, excluded, dir, entries, i, st, t, noted.progress);
      t := noted.progress;
      i := i + 1;
    }
    assert entries[..i] == entries;
    r := Noted(t);
  }

  /** The listing of one directory. */
  method ScanDirectory(src: Source, ghost selected: seq<string>, excluded: string, dir: string, st: Progress,
                       ghost universe: set<string>)
    returns (r: Noted)
    requires Bounded(src, selected, universe) && dir in universe
    ensures r.Noted? ==> Queued(st, r.progress, universe)
    ensures AtClean(src, selected, excluded, dir, st) ==>
      r.Noted? && Sound(src, selected, excluded, r.progress) && ListingCovered(src, r.progress, excluded, dir)
  {
    var listed := src.list(dir);
    if listed.ListError? {
      assert CleanTree(src, selected) && IsDir(src, selected, dir) ==> CleanListing(src, dir);
      return BadPath;
    }
    r := ScanEntries(src, selected, excluded, dir, st, universe);
    if AtClean(src, selected, excluded, dir, st) {
      ListingDone(src, r.progress, excluded, dir);
    }
  }

  lemma EntriesStep(st: Progress, t: Progress, excluded: string, dir: string, entries: seq<Resource>, i: nat)
    requires i < |entries| && EntriesCovered(st, excluded, dir, entries[..i]) && Extends(st, t)
    requires Clean(entries[i].path) != Clean(dir) ==> Covered(t, excluded, entries[i])
    ensures EntriesCovered(t, excluded, dir, entries[..i + 1])
  {
    forall k | 0 <= k < i + 1 && Clean(entries[k].path) != Clean(dir) ensures Covered(t, excluded, entries[k]) {
      if k < i {
        assert entries[..i][k] == entries[k];
      }
    }
  }

  /** Seen directories are waiting or done. */
  ghost predicate Waiting(src: Source, excluded: string, st: Progress) {
    forall dir :: dir in st.seenDirs ==> dir in st.queue || ListingCovered(src, st, excluded, dir)
  }

  lemma WaitingStep(src: Source, excluded: string, st: Progress, t: Progress, universe: set<string>)
    requires st.queue != [] && Waiting(src, excluded, st) && Queued(st.(queue := st.queue[1..]), t, universe)
    requires ListingCovered(src, t, excluded, st.queue[0])
    ensures Waiting(src, excluded, t)
  {
    forall dir | dir in t.seenDirs && dir !in t.queue && dir != st.queue[0]
      ensures ListingCovered(src, t, excluded, dir)
    {
      StillQueued(st.queue, t.queue, dir);
      assert ListingCovered(src, st, excluded, dir);
    }
  }

  lemma StillQueued(queue: seq<string>, longer: seq<string>, dir: string)
    requires queue != [] && queue[1..] <= longer && dir != queue[0]
    ensures dir in queue ==> dir in longer
  {
    if dir in queue {
      var i :| 0 <= i < |queue| && queue[i] == dir;
      assert longer[i - 1] == queue[1..][i - 1];
    }
  }

  lemma MoreSeen(universe: set<string>, a: set<string>, b: set<string>)
    requires a <= b && a != b && b <= universe
    ensures |universe - b| < |universe - a|
  {
    var x :| x in b && x !in a;
    assert x in universe - a;
    SubsetSize(universe - b, universe - a - {x});
  }

  /** The total of the sizes. */
  method Sum(files: seq<ScannedFile>) returns (total: nat)
    ensures total == TotalBytes(files)
  {
    total := 0;
    for i := 0 to |files|
      invariant total == TotalBytes(files[..i])
    {
      assert files[..i + 1][..i] == files[..i];
      total := total + files[i].size;
    }
    assert files[..|files|] == files;
  }

  /** What holds whenever the second loop looks at its queue. */
  ghost predicate Walking(src: Source, selected: seq<string>, excluded: string, st: Progress) {
    && Sound(src, selected, excluded, st) && RootsCovered(src, selected, excluded, st, |selected|)
    && Waiting(src, excluded, st)
  }

  ghost predicate Inside(st: Progress, universe: set<string>) {
    st.seenDirs <= universe && forall i :: 0 <= i < |st.queue| ==> st.queue[i] in universe
  }

  lemma InsideStep(st: Progress, t: Progress, universe: set<string>)
    requires st.queue != [] && Inside(st, universe) && Queued(st.(queue := st.queue[1..]), t, universe)
    ensures Inside(t, universe)
    ensures t.seenDirs == st.seenDirs ==> |t.queue| < |st.queue|
    ensures t.seenDirs != st.seenDirs ==> |universe - t.seenDirs| < |universe - st.seenDirs|
  {
    forall i | 0 <= i < |t.queue| ensures t.queue[i] in universe {
      assert t.queue[i] in t.queue;
    }
    if t.seenDirs != st.seenDirs {
      MoreSeen(universe, st.seenDirs, t.seenDirs);
    }
  }

  /** Scans the head of the queue. */
  method ScanNext(src: Source, ghost selected: seq<string>, excluded: string, st: Progress, ghost universe: set<string>)
    returns (r: Noted)
    requires Bounded(src, selected, universe) && st.queue != [] && Inside(st, universe)
    ensures r.Noted? ==> Queued(st.(queue := st.queue[1..]), r.progress, universe)
    ensures CleanTree(src, selected) && Walking(src, selected, excluded, st) ==>
      r.Noted? && Walking(src, selected, excluded, r.progress)
  {
    var current := st.queue[0];
    var popped := st.(queue := st.queue[1..]);
    r := ScanDirectory(src, selected, excluded, current, popped, universe);
    if CleanTree(src, selected) && Walking(src, selected, excluded, st) {
      PoppedSound(src, selected, excluded, st);
      WaitingStep(src, excluded, st, r.progress, universe);
      RootsKept(src, selected, excluded, st, r.progress);
    }
  }

  lemma PoppedSound(src: Source, selected: seq<string>, excluded: string, st: Progress)
    requires Sound(src, selected, excluded, st) && st.queue != []
    ensures Sound(src, selected, excluded, st.(queue := st.queue[1..]))
    ensures IsDir(src, selected, st.queue[0]) && CleanPath(st.queue[0])
  {
  }

  lemma WalkFinished(src: Source, selected: seq<string>, excluded: string, st: Progress)
    requires Walking(src, selected, excluded, st) && st.queue == [] && CleanTree(src, selected)
    ensures Exact(src, selected, excluded, st.files)
  {
    FinishedExact(src, selected, excluded, st);
  }

  /**
    scanFiles. Over finitely many directories the walk ends; on a clean tree it returns each file below the
    selection and outside the excluded root exactly once, with matching totals.
   */
  method ScanFiles(src: Source, selected: seq<string>, excluded: string, ghost universe: set<string>)
    returns (r: Result)
    requires Bounded(src, selected, universe)
    ensures CleanTree(src, selected) ==> r.Scanned? && Exact(src, selected, excluded, r.files)
    ensures r.Scanned? ==> r.stats == Stats(|r.files|, |r.directories|, TotalBytes(r.files))
  {
    var started := ScanRoots(src, selected, excluded, universe);
    if started.BadPath? {
      return ScanFailed;
    }
    var st := started.progress;
    while |st.queue| > 0
      invariant Inside(st, universe)
      invariant CleanTree(src, selected) ==> Walking(src, selected, excluded, st)
      decreases |universe - st.seenDirs|, |st.queue|
    {
      var noted := ScanNext(src, selected, excluded, st, universe);
      if noted.BadPath? {
        return ScanFailed;
      }
      InsideStep(st, noted.progress, universe);
      st := noted.progress;
    }
    if CleanTree(src, selected) {
      WalkFinished(src, selected, excluded, st);
    }
    var total := Sum(st.files);
    r := Scanned(st.files, st.directories, Stats(|st.files|, |st.directories|, total));
  }
}
