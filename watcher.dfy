/**
 * The watch service (internal/watcher/service.go): which file-system events
 * lead to a regeneration, and the table of watched paths it keeps as
 * directories appear and disappear and as the configuration is reloaded.
 *
 * fsnotify, the debounce timer, the logger and the generation itself are
 * outside the model.  What the service asks of the file system is an `Env`:
 * the outcome of `os.Stat` on a path, the tree `filepath.Walk` finds at a
 * path, the outcome of opening a path, whether fsnotify accepts a watch on a
 * path, and what the configuration files hold.  Each regeneration the
 * service schedules is counted.
 */
module Watcher {
  import opened Wrappers
  import opened Text
  import opened Paths
  import opened Patterns
  import opened FileSystem
  import Binary
  import Configuration
  import Processor

  /** The configuration file looked for in the root directory. */
  const ConfigFileName: string := "sink-config.yaml"

  /** What the checks of the service consult: the root, the repository configuration and the ignore-file filter. */
  datatype Policy = Policy(rootPath: string, config: Configuration.ConfigData, ignorer: string -> IgnoreResult)

  /** What the service observes of the world outside it. */
  datatype Env = Env(
    stat: string -> StatResult,
    lookup: string -> Option<Node>,
    open: string -> OpenResult,
    addOk: string -> bool,
    sources: Configuration.Sources)

  /** The errors the handlers return. */
  datatype WatchError =
    | LstatError(path: string)
    | ReadDirError(path: string)
    | AddError(path: string)
    | StatError(path: string, message: string)
    | ConfigWatchError(path: string)

  // ---------------------------------------------------------------------
  // isTemporaryFile

  /** `isTemporaryFile`: editor and desktop droppings, judged by the base name. */
  predicate IsTemporaryFile(path: string) {
    var base := Base(path);
    base == ".DS_Store" || base == "Thumbs.db" || base[0] == '.' || base[|base| - 1] == '~'
    || (base[0] == '#' && base[|base| - 1] == '#')
  }

  /**
   * Hidden names, backups and auto-save files are temporary; `.DS_Store` is
   * already hidden, so its own test never decides anything.
   */
  lemma TemporaryIff(path: string)
    ensures var base := Base(path);
      IsTemporaryFile(path) <==>
        base == "Thumbs.db" || HasPrefix(base, ".") || HasSuffix(base, "~")
        || (HasPrefix(base, "#") && HasSuffix(base, "#"))
  {
    var base := Base(path);
    assert HasPrefix(base, ".") <==> base[0] == '.' by {
      assert base[..1] == [base[0]];
    }
    assert HasSuffix(base, "~") <==> base[|base| - 1] == '~' by {
      assert base[|base| - 1..] == [base[|base| - 1]];
    }
    assert HasPrefix(base, "#") <==> base[0] == '#' by {
      assert base[..1] == [base[0]];
    }
    assert HasSuffix(base, "#") <==> base[|base| - 1] == '#' by {
      assert base[|base| - 1..] == [base[|base| - 1]];
    }
  }

  /** The base of the empty path is ".", so an event without a name counts as temporary. */
  lemma EmptyNameIsTemporary()
    ensures IsTemporaryFile("")
  {
    assert Base("") == ".";
  }

  /** A base name decides alone: the directories above it play no part. */
  lemma OnlyBaseNameMatters(dir: string, name: string)
    requires |name| > 0 && '/' !in name
    requires dir == "" || dir[|dir| - 1] == '/'
    ensures IsTemporaryFile(dir + name) == IsTemporaryFile(name)
  {
    BaseOfChild(dir, name);
    BaseOfName(name);
  }

  // ---------------------------------------------------------------------
  // shouldProcessFile and shouldWatchDirectory

  /** `shouldProcessFile`, in the service's order: exclude patterns before filter patterns. */
  predicate ShouldProcessFile(p: Policy, path: string, open: OpenResult) {
    if Binary.IsBinaryFile(open) then false
    else
      match Rel(p.rootPath, path)
      case Err(_) => false
      case Ok(rel) =>
        match p.ignorer(rel)
        case IgnoreErr(_) => false
        case IgnoreOk(ignored) =>
          var c := p.config;
          if ignored then false
          else if |c.excludePatterns| > 0 && MatchesAny(rel, c.excludePatterns, c.caseSensitive) then false
          else if |c.filterPatterns| > 0 && !MatchesAny(rel, c.filterPatterns, c.caseSensitive) then false
          else true
  }

  /** The file processor the same root, patterns and filter give. */
  function ProcessorOf(p: Policy): Processor.FileProcessor {
    Processor.FileProcessor(
      Processor.Config(p.rootPath, p.config.filterPatterns, p.config.excludePatterns,
                       p.config.caseSensitive, p.config.syntaxMap),
      p.ignorer)
  }

  /**
   * The service's check, though it tests the patterns in the other order,
   * accepts exactly the files the processor accepts: not binary, with a
   * relative path, not ignored, matched by the filters and not excluded.
   */
  lemma SameFilesAsProcessor(p: Policy, path: string, open: OpenResult)
    ensures ShouldProcessFile(p, path, open) == Processor.ShouldProcessFile(ProcessorOf(p), path, open)
    ensures ShouldProcessFile(p, path, open) <==>
      !Binary.IsBinaryFile(open)
      && Rel(p.rootPath, path).Ok?
      && p.ignorer(Rel(p.rootPath, path).value) == IgnoreOk(false)
      && MatchesAny(Rel(p.rootPath, path).value, p.config.filterPatterns, p.config.caseSensitive)
      && (|p.config.excludePatterns| == 0
          || !MatchesAny(Rel(p.rootPath, path).value, p.config.excludePatterns, p.config.caseSensitive))
  {
    Processor.ShouldProcessFileIff(ProcessorOf(p), path, open);
  }

  /** `shouldWatchDirectory`: the root always; otherwise not ignored and not excluded. */
  predicate ShouldWatchDirectory(p: Policy, path: string) {
    match Rel(p.rootPath, path)
    case Err(_) => false
    case Ok(rel) =>
      if rel == "." then true
      else
        match p.ignorer(rel)
        case IgnoreErr(_) => false
        case IgnoreOk(ignored) =>
          if ignored then false
          else if |p.config.excludePatterns| > 0
                  && MatchesAny(rel, p.config.excludePatterns, p.config.caseSensitive) then false
          else true
  }

  /** A directory is watched exactly when it is the root, or neither ignored nor excluded. */
  lemma WatchDirectoryIff(p: Policy, path: string)
    ensures ShouldWatchDirectory(p, path) <==>
      Rel(p.rootPath, path).Ok?
      && (Rel(p.rootPath, path).value == "."
          || (p.ignorer(Rel(p.rootPath, path).value) == IgnoreOk(false)
              && (|p.config.excludePatterns| == 0
                  || !MatchesAny(Rel(p.rootPath, path).value, p.config.excludePatterns, p.config.caseSensitive))))
  {
  }

  /** The root is watched even when the ignore file or the exclude patterns would reject it. */
  lemma RootIsWatched(p: Policy, path: string)
    requires Clean(path) == Clean(p.rootPath)
    ensures ShouldWatchDirectory(p, path)
  {
    assert Rel(p.rootPath, path) == Ok(".");
  }

  /** Filter patterns are never consulted for directories. */
  lemma DirectoriesIgnoreFilters(p: Policy, filters: seq<string>, path: string)
    ensures ShouldWatchDirectory(p.(config := p.config.(filterPatterns := filters)), path)
      == ShouldWatchDirectory(p, path)
  {
  }

  /**
   * Below the root, the service watches exactly the directories (other than
   * `.git`) that the processor's walk descends into; where the processor
   * aborts on an error, the service merely declines.
   */
  lemma WatchesWhatProcessorDescends(p: Policy, path: string, name: string)
    requires name != ".git"
    requires Rel(p.rootPath, path).Ok? ==> Rel(p.rootPath, path).value != "."
    ensures ShouldWatchDirectory(p, path) <==> Processor.DecideDir(ProcessorOf(p), path, name) == Processor.Descend
  {
  }

  // ---------------------------------------------------------------------
  // handleEvent's dispatch

  /** The bits of an fsnotify operation. */
  datatype Op = Op(create: bool, write: bool, remove: bool, rename: bool, chmod: bool)

  datatype Event = Event(name: string, op: Op)

  /** Which handler `handleEvent` hands an event to. */
  datatype Action = Skip | ConfigChange | Created | Removed | Modified | Renamed

  /**
   * `handleEvent`'s decision: temporary files first, then the configuration
   * file (unless a reload is in progress), then `shouldProcessFile`, then the
   * first operation bit set among create, remove, write and rename.
   */
  function Dispatch(p: Policy, configPath: string, reloading: bool, e: Event, open: OpenResult): Action {
    if IsTemporaryFile(e.name) then Skip
    else if e.name == configPath && !reloading then (if e.op.write then ConfigChange else Skip)
    else if !ShouldProcessFile(p, e.name, open) then Skip
    else if e.op.create then Created
    else if e.op.remove then Removed
    else if e.op.write then Modified
    else if e.op.rename then Renamed
    else Skip
  }

  /** When each handler is chosen. */
  lemma DispatchIff(p: Policy, configPath: string, reloading: bool, e: Event, open: OpenResult)
    ensures var a := Dispatch(p, configPath, reloading, e, open);
      var ordinary := !IsTemporaryFile(e.name) && !(e.name == configPath && !reloading)
                      && ShouldProcessFile(p, e.name, open);
      && (a == ConfigChange <==> !IsTemporaryFile(e.name) && e.name == configPath && !reloading && e.op.write)
      && (a == Created <==> ordinary && e.op.create)
      && (a == Removed <==> ordinary && !e.op.create && e.op.remove)
      && (a == Modified <==> ordinary && !e.op.create && !e.op.remove && e.op.write)
      && (a == Renamed <==> ordinary && !e.op.create && !e.op.remove && !e.op.write && e.op.rename)
  {
  }

  /** A temporary file is dropped before anything else is looked at. */
  lemma TemporaryFilesSkipped(p: Policy, configPath: string, reloading: bool, e: Event, open: OpenResult)
    requires IsTemporaryFile(e.name)
    ensures Dispatch(p, configPath, reloading, e, open) == Skip
  {
  }

  /** A change of mode alone never triggers anything. */
  lemma ChmodAloneSkipped(p: Policy, configPath: string, reloading: bool, name: string, open: OpenResult)
    ensures Dispatch(p, configPath, reloading, Event(name, Op(false, false, false, false, true)), open) == Skip
  {
  }

  /**
   * While `reloading` is set, a write to the configuration file is treated
   * as a write to an ordinary file: it is modified, if it passes the checks.
   */
  lemma ConfigWriteWhileReloading(p: Policy, configPath: string, open: OpenResult)
    requires !IsTemporaryFile(configPath) && ShouldProcessFile(p, configPath, open)
    ensures Dispatch(p, configPath, true, Event(configPath, Op(false, true, false, false, false)), open) == Modified
    ensures Dispatch(p, configPath, false, Event(configPath, Op(false, true, false, false, false)), open) == ConfigChange
  {
  }

  /**
   * The filter patterns apply to events on directories too: a directory
   * whose relative path they do not match is neither watched when it is
   * created nor purged when it is removed or renamed.
   */
  lemma FilteredPathsReachNoHandler(p: Policy, configPath: string, reloading: bool, e: Event, open: OpenResult)
    requires |p.config.filterPatterns| > 0
    requires Rel(p.rootPath, e.name).Ok?
    requires !MatchesAny(Rel(p.rootPath, e.name).value, p.config.filterPatterns, p.config.caseSensitive)
    ensures Dispatch(p, configPath, reloading, e, open) in {Skip, ConfigChange}
  {
  }

  // ---------------------------------------------------------------------
  // handleRemove

  /** The table without the paths that start with `prefix`. */
  function WithoutPrefix(w: map<string, bool>, prefix: string): map<string, bool> {
    map k | k in w && !HasPrefix(k, prefix) :: w[k]
  }

  /**
   * The table after `handleRemove(path)`: an unwatched path changes
   * nothing; a watched file is dropped; a watched directory is dropped with
   * every path below it.
   */
  function Purged(w: map<string, bool>, path: string): map<string, bool> {
    if path !in w then w
    else if w[path] then WithoutPrefix(w - {path}, path + "/")
    else w - {path}
  }

  /** Exactly which entries survive a removal, with their values. */
  lemma PurgedIff(w: map<string, bool>, path: string, k: string)
    ensures k in Purged(w, path) <==>
      k in w && k != path && !(path in w && w[path] && HasPrefix(k, path + "/"))
    ensures k in Purged(w, path) ==> Purged(w, path)[k] == w[k]
  {
  }

  /** Removing a path that is not watched leaves the table alone. */
  lemma PurgeUnwatched(w: map<string, bool>, path: string)
    requires path !in w
    ensures Purged(w, path) == w
  {
  }

  /** A second removal of the same path changes nothing more. */
  lemma PurgeIdempotent(w: map<string, bool>, path: string)
    ensures Purged(Purged(w, path), path) == Purged(w, path)
  {
  }

  /** Removing `a` drops `a/b` but keeps the sibling `a-b`, which shares its first letter. */
  lemma SiblingSurvives()
    ensures Purged(map["a" := true, "a/b" := true, "a-b" := true], "a") == map["a-b" := true]
  {
    var w := map["a" := true, "a/b" := true, "a-b" := true];
    assert HasPrefix("a/b", "a/");
    assert !HasPrefix("a-b", "a/") by {
      assert "a-b"[..2][1] == '-';
    }
    assert w - {"a"} == map["a/b" := true, "a-b" := true];
    var r := WithoutPrefix(map["a/b" := true, "a-b" := true], "a/");
    assert r.Keys == {"a-b"};
  }

  /** The loop of `handleRemove`: every key with the prefix is deleted from the table. */
  method DeletePrefixed(w0: map<string, bool>, prefix: string) returns (w: map<string, bool>)
    ensures w == WithoutPrefix(w0, prefix)
  {
    w := w0;
    var pending := w0.Keys;
    while pending != {}
      invariant pending <= w0.Keys
      invariant w == map k | k in w0 && (k in pending || !HasPrefix(k, prefix)) :: w0[k]
      decreases |pending|
    {
      var k :| k in pending;
      if HasPrefix(k, prefix) {
        w := w - {k};
      }
      pending := pending - {k};
    }
  }

  // ---------------------------------------------------------------------
  // addWatchRecursive

  /** The table after a walk, and the error that stopped it. */
  datatype Walked = Walked(watched: map<string, bool>, err: Option<WatchError>)

  /**
   * The callback of `addWatchRecursive` on one entry, as `filepath.Walk`
   * calls it: a directory is listed before the callback sees it, so an
   * unlistable one stops the walk even if it would be skipped; `.git` and
   * unwatched directories are skipped; a watch that fsnotify refuses stops
   * the walk; files are passed over.
   */
  function AddNode(p: Policy, addOk: string -> bool, n: Node, path: string, w: map<string, bool>): Walked
    decreases n
  {
    match n
    case File(_, _, _) => Walked(w, None)
    case Dir(name, readable, children) =>
      if !readable then Walked(w, Some(ReadDirError(path)))
      else if name == ".git" || !ShouldWatchDirectory(p, path) then Walked(w, None)
      else if !addOk(path) then Walked(w, Some(AddError(path)))
      else AddChildren(p, addOk, children, path, w[path := true])
  }

  /** The entries of one directory in order, stopping at the first error. */
  function AddChildren(p: Policy, addOk: string -> bool, children: seq<Node>, dir: string, w: map<string, bool>): Walked
    decreases children
  {
    if |children| == 0 then Walked(w, None)
    else
      var r := AddChildren(p, addOk, children[..|children| - 1], dir, w);
      if r.err.Some? then r
      else
        var last := children[|children| - 1];
        AddNode(p, addOk, last, JoinPath(dir, last.name), r.watched)
  }

  /** The entry a walk starts from: `Lstat` names it after the base of the path it was given. */
  function RootNode(n: Node, path: string): (r: Node)
    ensures r.name == Base(path) && r.Dir? == n.Dir?
  {
    n.(name := Base(path))
  }

  /** `addWatchRecursive(root)`: a root that cannot be lstat'ed is an error. */
  function AddWalk(p: Policy, addOk: string -> bool, root: Option<Node>, path: string, w: map<string, bool>): Walked {
    match root
    case None => Walked(w, Some(LstatError(path)))
    case Some(n) => AddNode(p, addOk, RootNode(n, path), path, w)
  }

  /** The directories a walk that meets no error watches. */
  function ReachedDirs(p: Policy, n: Node, path: string): set<string>
    decreases n
  {
    match n
    case File(_, _, _) => {}
    case Dir(name, _, children) =>
      if name == ".git" || !ShouldWatchDirectory(p, path) then {}
      else {path} + ReachedDirsAll(p, children, path)
  }

  function ReachedDirsAll(p: Policy, children: seq<Node>, dir: string): set<string>
    decreases children
  {
    if |children| == 0 then {}
    else
      var last := children[|children| - 1];
      ReachedDirsAll(p, children[..|children| - 1], dir) + ReachedDirs(p, last, JoinPath(dir, last.name))
  }

  /** Every path of `dirs`, marked as a directory. */
  function DirEntries(dirs: set<string>): map<string, bool> {
    map d | d in dirs :: true
  }

  lemma DirEntriesUnion(w: map<string, bool>, a: set<string>, b: set<string>)
    ensures (w + DirEntries(a)) + DirEntries(b) == w + DirEntries(a + b)
  {
  }

  lemma NoDirEntries(w: map<string, bool>)
    ensures w + DirEntries({}) == w
  {
    assert DirEntries({}) == map[];
  }

  lemma OneDirEntry(w: map<string, bool>, path: string)
    ensures w[path := true] == w + DirEntries({path})
  {
  }

  /**
   * A walk that meets no error adds exactly the reached directories, each
   * marked as a directory, and keeps every entry that was there.
   */
  lemma {:induction false} CleanWalkAddsReached(p: Policy, addOk: string -> bool, n: Node, path: string, w: map<string, bool>)
    requires AddNode(p, addOk, n, path, w).err.None?
    ensures AddNode(p, addOk, n, path, w).watched == w + DirEntries(ReachedDirs(p, n, path))
    decreases n, 1
  {
    match n
    case File(_, _, _) =>
      NoDirEntries(w);
    case Dir(name, readable, children) =>
      if name == ".git" || !ShouldWatchDirectory(p, path) {
        NoDirEntries(w);
      } else {
        CleanWalkAddsReachedAll(p, addOk, children, path, w[path := true]);
        OneDirEntry(w, path);
        DirEntriesUnion(w, {path}, ReachedDirsAll(p, children, path));
      }
  }

  lemma {:induction false} CleanWalkAddsReachedAll(p: Policy, addOk: string -> bool, children: seq<Node>, dir: string, w: map<string, bool>)
    requires AddChildren(p, addOk, children, dir, w).err.None?
    ensures AddChildren(p, addOk, children, dir, w).watched == w + DirEntries(ReachedDirsAll(p, children, dir))
    decreases children, 0
  {
    if |children| == 0 {
      NoDirEntries(w);
    } else {
      var front := children[..|children| - 1];
      var last := children[|children| - 1];
      var r := AddChildren(p, addOk, front, dir, w);
      CleanWalkAddsReachedAll(p, addOk, front, dir, w);
      CleanWalkAddsReached(p, addOk, last, JoinPath(dir, last.name), r.watched);
      DirEntriesUnion(w, ReachedDirsAll(p, front, dir), ReachedDirs(p, last, JoinPath(dir, last.name)));
    }
  }

  /**
   * `r` keeps every path of `w`, and each of its entries is either unchanged
   * or a directory that `shouldWatchDirectory` accepts.
   */
  predicate AddsOnlyWatchable(p: Policy, w: map<string, bool>, r: map<string, bool>) {
    w.Keys <= r.Keys
    && forall k :: k in r ==> (k in w && r[k] == w[k]) || (r[k] && ShouldWatchDirectory(p, k))
  }

  lemma AddsOnlyWatchableTrans(p: Policy, a: map<string, bool>, b: map<string, bool>, c: map<string, bool>)
    requires AddsOnlyWatchable(p, a, b) && AddsOnlyWatchable(p, b, c)
    ensures AddsOnlyWatchable(p, a, c)
  {
  }

  /** Even a walk that stops on an error keeps every entry it found and adds only watchable directories. */
  lemma {:induction false} WalkAddsOnlyWatchable(p: Policy, addOk: string -> bool, n: Node, path: string, w: map<string, bool>)
    ensures AddsOnlyWatchable(p, w, AddNode(p, addOk, n, path, w).watched)
    decreases n, 1
  {
    match n
    case File(_, _, _) =>
    case Dir(name, readable, children) =>
      if readable && name != ".git" && ShouldWatchDirectory(p, path) && addOk(path) {
        var w' := w[path := true];
        assert AddsOnlyWatchable(p, w, w');
        WalkAddsOnlyWatchableAll(p, addOk, children, path, w');
        AddsOnlyWatchableTrans(p, w, w', AddChildren(p, addOk, children, path, w').watched);
      }
  }

  lemma {:induction false} WalkAddsOnlyWatchableAll(p: Policy, addOk: string -> bool, children: seq<Node>, dir: string, w: map<string, bool>)
    ensures AddsOnlyWatchable(p, w, AddChildren(p, addOk, children, dir, w).watched)
    decreases children, 0
  {
    if |children| > 0 {
      var front := children[..|children| - 1];
      var last := children[|children| - 1];
      var r := AddChildren(p, addOk, front, dir, w);
      WalkAddsOnlyWatchableAll(p, addOk, front, dir, w);
      if r.err.None? {
        WalkAddsOnlyWatchable(p, addOk, last, JoinPath(dir, last.name), r.watched);
        AddsOnlyWatchableTrans(p, w, r.watched, AddNode(p, addOk, last, JoinPath(dir, last.name), r.watched).watched);
      }
    }
  }

  /** The table `reconfigureWatcher` builds: a fresh walk of the root, whatever was watched before. */
  function Rebuild(p: Policy, env: Env): Walked {
    AddWalk(p, env.addOk, env.lookup(p.rootPath), p.rootPath, map[])
  }

  /** The initial set-up of `Watch`: the root's tree, then the configuration file, if there is one. */
  function SetUp(p: Policy, configPath: string, env: Env): Walked {
    var r := Rebuild(p, env);
    if r.err.Some? || configPath == "" then r
    else if !env.addOk(configPath) then Walked(r.watched, Some(ConfigWatchError(configPath)))
    else Walked(r.watched[configPath := false], None)
  }

  /** A rebuild that succeeds watches the root and exactly the directories reached from it. */
  lemma RebuildWatchesReached(p: Policy, env: Env, root: Node)
    requires env.lookup(p.rootPath) == Some(root) && root.Dir? && Base(p.rootPath) != ".git"
    requires Rebuild(p, env).err.None?
    ensures Rebuild(p, env).watched == DirEntries(ReachedDirs(p, RootNode(root, p.rootPath), p.rootPath))
    ensures p.rootPath in Rebuild(p, env).watched
  {
    var r := RootNode(root, p.rootPath);
    CleanWalkAddsReached(p, env.addOk, r, p.rootPath, map[]);
    assert map[] + DirEntries(ReachedDirs(p, r, p.rootPath)) == DirEntries(ReachedDirs(p, r, p.rootPath));
    RootIsWatched(p, p.rootPath);
  }

  // ---------------------------------------------------------------------
  // handleCreate and handleConfigChange

  /**
   * The table and error after `handleCreate(path)`: a stat failure is an
   * error; a new directory that should be watched is walked; anything else
   * leaves the table alone.
   */
  function CreateEffect(p: Policy, env: Env, path: string, w: map<string, bool>): Walked {
    match env.stat(path)
    case StatFailed(m) => Walked(w, Some(StatError(path, m)))
    case StatOk(isDir, _, _) =>
      if isDir && ShouldWatchDirectory(p, path) then AddWalk(p, env.addOk, env.lookup(path), path, w)
      else Walked(w, None)
  }

  /** A new file, or a new directory that should not be watched, changes nothing. */
  lemma CreateFileChangesNothing(p: Policy, env: Env, path: string, w: map<string, bool>)
    requires env.stat(path).StatOk?
    requires !env.stat(path).isDir || !ShouldWatchDirectory(p, path)
    ensures CreateEffect(p, env, path, w) == Walked(w, None)
  {
  }

  /** A new directory that is walked without error adds the directories reached inside it, itself included. */
  lemma CreateDirectoryAddsReached(p: Policy, env: Env, path: string, w: map<string, bool>, n: Node)
    requires env.stat(path).StatOk? && env.stat(path).isDir && env.lookup(path) == Some(n)
    requires CreateEffect(p, env, path, w).err.None?
    ensures CreateEffect(p, env, path, w).watched ==
      w + DirEntries(if ShouldWatchDirectory(p, path) then ReachedDirs(p, RootNode(n, path), path) else {})
  {
    if ShouldWatchDirectory(p, path) {
      CleanWalkAddsReached(p, env.addOk, RootNode(n, path), path, w);
    } else {
      assert DirEntries({}) == map[];
    }
  }

  /** The configuration `handleConfigChange` loads: `LoadConfig("")`, which cannot fail. */
  function ReloadedConfig(env: Env): Configuration.ConfigData {
    Configuration.OnlyExplicitFileCanFail("", env.sources);
    Configuration.Layered("", env.sources).value
  }

  /**
   * While `reloading` is set no event counts as a configuration change; a
   * reload that fails leaves it set, so later writes to the configuration
   * file go through `shouldProcessFile` like writes to any other file.
   */
  lemma NoReloadWhileReloading(p: Policy, configPath: string, e: Event, open: OpenResult)
    ensures Dispatch(p, configPath, true, e, open) != ConfigChange
  {
  }

  /** A reload that succeeds watches the configuration file again, as a file. */
  lemma ReloadWatchesConfigFile(p: Policy, configPath: string, env: Env)
    requires configPath != ""
    requires SetUp(p, configPath, env).err.None?
    ensures configPath in SetUp(p, configPath, env).watched
    ensures !SetUp(p, configPath, env).watched[configPath]
  {
  }

  // ---------------------------------------------------------------------
  // The service

  /** The state of `Service` the handlers read and change. */
  class Service {
    const rootPath: string
    const ignorer: string -> IgnoreResult
    const configPath: string
    var repoConfig: Configuration.ConfigData
    /** The watched paths, each with whether it is a directory. */
    var watched: map<string, bool>
    var reloading: bool
    /** How many regenerations the service has scheduled. */
    ghost var regenerations: nat

    function CurrentPolicy(): Policy
      reads this`repoConfig
    {
      Policy(rootPath, repoConfig, ignorer)
    }

    /** The handler the event goes to in the current state. */
    function Route(e: Event, env: Env): Action
      reads this`repoConfig, this`reloading
    {
      Dispatch(CurrentPolicy(), configPath, reloading, e, env.open(e.name))
    }

    /** `NewService`: the configuration file is watched only if it exists when the service starts. */
    constructor (rootPath: string, repoConfig: Configuration.ConfigData, ignorer: string -> IgnoreResult, env: Env)
      ensures this.rootPath == rootPath && this.repoConfig == repoConfig && this.ignorer == ignorer
      ensures configPath == (if env.stat(JoinPath(rootPath, ConfigFileName)).StatOk? then JoinPath(rootPath, ConfigFileName) else "")
      ensures watched == map[] && !reloading && regenerations == 0
    {
      this.rootPath := rootPath;
      this.repoConfig := repoConfig;
      this.ignorer := ignorer;
      var defaultConfigPath := JoinPath(rootPath, ConfigFileName);
      configPath := if env.stat(defaultConfigPath).StatOk? then defaultConfigPath else "";
      watched := map[];
      reloading := false;
      regenerations := 0;
    }

    /** `triggerRegeneration`: one more regeneration is scheduled. */
    method TriggerRegeneration()
      modifies this`regenerations
      ensures regenerations == old(regenerations) + 1
    {
      regenerations := regenerations + 1;
    }

    /** The callback of `addWatchRecursive` on one entry and, for a watched directory, its entries. */
    method WatchNode(p: Policy, addOk: string -> bool, n: Node, path: string) returns (err: Option<WatchError>)
      modifies this`watched
      ensures Walked(watched, err) == AddNode(p, addOk, n, path, old(watched))
      decreases n, 1
    {
      match n
      case File(_, _, _) =>
        err := None;
      case Dir(name, readable, children) =>
        if !readable {
          return Some(ReadDirError(path));
        }
        if name == ".git" || !ShouldWatchDirectory(p, path) {
          return None;
        }
        if !addOk(path) {
          return Some(AddError(path));
        }
        watched := watched[path := true];
        err := WatchChildren(p, addOk, children, path);
    }

    method WatchChildren(p: Policy, addOk: string -> bool, children: seq<Node>, dir: string) returns (err: Option<WatchError>)
      modifies this`watched
      ensures Walked(watched, err) == AddChildren(p, addOk, children, dir, old(watched))
      decreases children, 0
    {
      var i := 0;
      while i < |children|
        invariant 0 <= i <= |children|
        invariant AddChildren(p, addOk, children[..i], dir, old(watched)) == Walked(watched, None)
      {
        assert children[..i + 1][..i] == children[..i];
        var child := children[i];
        err := WatchNode(p, addOk, child, JoinPath(dir, child.name));
        if err.Some? {
          StopsAtError(p, addOk, children, i + 1, dir, old(watched));
          return;
        }
        i := i + 1;
      }
      assert children[..i] == children;
      err := None;
    }

    /** `addWatchRecursive(root)`. */
    method AddWatchRecursive(root: string, env: Env) returns (err: Option<WatchError>)
      modifies this`watched
      ensures Walked(watched, err) == AddWalk(CurrentPolicy(), env.addOk, env.lookup(root), root, old(watched))
    {
      match env.lookup(root)
      case None =>
        err := Some(LstatError(root));
      case Some(n) =>
        err := WatchNode(CurrentPolicy(), env.addOk, RootNode(n, root), root);
    }

    /** `reconfigureWatcher`: the table is emptied and rebuilt from the root. */
    method ReconfigureWatcher(env: Env) returns (err: Option<WatchError>)
      modifies this`watched
      ensures Walked(watched, err) == Rebuild(CurrentPolicy(), env)
    {
      watched := map[];
      err := AddWatchRecursive(rootPath, env);
    }

    /** The initial set-up of `Watch`, which `handleConfigChange` repeats. */
    method SetUpWatches(env: Env) returns (err: Option<WatchError>)
      modifies this`watched
      ensures Walked(watched, err) == SetUp(CurrentPolicy(), configPath, env)
    {
      err := ReconfigureWatcher(env);
      if err.Some? {
        return;
      }
      if configPath != "" {
        if !env.addOk(configPath) {
          return Some(ConfigWatchError(configPath));
        }
        watched := watched[configPath := false];
      }
    }

    /** `handleRemove`: the path, and everything below it if it is a directory, stops being watched. */
    method HandleRemove(path: string)
      modifies this`watched, this`regenerations
      ensures watched == Purged(old(watched), path)
      ensures regenerations == old(regenerations) + 1
    {
      if path !in watched {
        TriggerRegeneration();
        return;
      }
      var isDir := watched[path];
      watched := watched - {path};
      if isDir {
        watched := DeletePrefixed(watched, path + "/");
      }
      TriggerRegeneration();
    }

    /** `handleRename`: as a removal. */
    method HandleRename(path: string)
      modifies this`watched, this`regenerations
      ensures watched == Purged(old(watched), path)
      ensures regenerations == old(regenerations) + 1
    {
      HandleRemove(path);
    }

    /** `handleModify`: a regeneration, nothing else. */
    method HandleModify(path: string)
      modifies this`regenerations
      ensures regenerations == old(regenerations) + 1
    {
      TriggerRegeneration();
    }

    /** `handleCreate`: a regeneration unless the stat or the walk of a new directory fails. */
    method HandleCreate(path: string, env: Env) returns (err: Option<WatchError>)
      modifies this`watched, this`regenerations
      ensures Walked(watched, err) == CreateEffect(CurrentPolicy(), env, path, old(watched))
      ensures regenerations == old(regenerations) + (if err.None? then 1 else 0)
    {
      match env.stat(path)
      case StatFailed(m) =>
        return Some(StatError(path, m));
      case StatOk(isDir, _, _) =>
        if isDir && ShouldWatchDirectory(CurrentPolicy(), path) {
          err := AddWatchRecursive(path, env);
          if err.Some? {
            return;
          }
        }
        err := None;
        TriggerRegeneration();
    }

    /**
     * `handleConfigChange`: the configuration is reloaded and the watches
     * rebuilt under it; on an error `reloading` stays set and nothing is
     * regenerated.
     */
    method HandleConfigChange(env: Env) returns (err: Option<WatchError>)
      modifies this`repoConfig, this`watched, this`reloading, this`regenerations
      ensures repoConfig == ReloadedConfig(env)
      ensures Walked(watched, err) == SetUp(CurrentPolicy(), configPath, env)
      ensures reloading == err.Some?
      ensures regenerations == old(regenerations) + (if err.None? then 1 else 0)
    {
      reloading := true;
      var loaded, _ := Configuration.LoadConfig("", env.sources);
      repoConfig := loaded.Data();
      err := SetUpWatches(env);
      if err.Some? {
        return;
      }
      reloading := false;
      TriggerRegeneration();
    }

    /** `handleEvent`: the event goes to the handler `Dispatch` picks. */
    method HandleEvent(e: Event, env: Env) returns (err: Option<WatchError>)
      modifies this`repoConfig, this`watched, this`reloading, this`regenerations
      ensures old(Route(e, env)) == Skip ==>
        watched == old(watched) && repoConfig == old(repoConfig) && reloading == old(reloading)
        && regenerations == old(regenerations) && err == None
      ensures old(Route(e, env)) in {Removed, Renamed} ==>
        watched == Purged(old(watched), e.name) && repoConfig == old(repoConfig) && reloading == old(reloading)
        && regenerations == old(regenerations) + 1 && err == None
      ensures old(Route(e, env)) == Modified ==>
        watched == old(watched) && repoConfig == old(repoConfig) && reloading == old(reloading)
        && regenerations == old(regenerations) + 1 && err == None
      ensures old(Route(e, env)) == Created ==>
        Walked(watched, err) == CreateEffect(old(CurrentPolicy()), env, e.name, old(watched))
        && repoConfig == old(repoConfig) && reloading == old(reloading)
        && regenerations == old(regenerations) + (if err.None? then 1 else 0)
      ensures old(Route(e, env)) == ConfigChange ==>
        repoConfig == ReloadedConfig(env)
        && Walked(watched, err) == SetUp(CurrentPolicy(), configPath, env)
        && reloading == err.Some?
        && regenerations == old(regenerations) + (if err.None? then 1 else 0)
    {
      var action := Route(e, env);
      match action
      case Skip =>
        err := None;
      case ConfigChange =>
        err := HandleConfigChange(env);
      case Created =>
        err := HandleCreate(e.name, env);
      case Removed =>
        HandleRemove(e.name);
        err := None;
      case Modified =>
        HandleModify(e.name);
        err := None;
      case Renamed =>
        HandleRename(e.name);
        err := None;
    }
  }

  /** Once a child's walk fails, the rest of the directory is not walked. */
  lemma {:induction false} StopsAtError(p: Policy, addOk: string -> bool, children: seq<Node>, k: nat, dir: string, w: map<string, bool>)
    requires k <= |children|
    requires AddChildren(p, addOk, children[..k], dir, w).err.Some?
    ensures AddChildren(p, addOk, children, dir, w) == AddChildren(p, addOk, children[..k], dir, w)
    decreases |children| - k
  {
    if k < |children| {
      var longer := children[..k + 1];
      assert longer[..|longer| - 1] == children[..k];
      assert AddChildren(p, addOk, longer, dir, w) == AddChildren(p, addOk, children[..k], dir, w);
      StopsAtError(p, addOk, children, k + 1, dir, w);
    } else {
      assert children[..k] == children;
    }
  }
}
