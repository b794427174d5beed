/**
 * `processor.FileProcessor` (internal/processor/files.go): a walk of the
 * repository that prunes `.git`, ignored and excluded directories, applies
 * the file-acceptance checks to every other entry, and collects a `FileInfo`
 * record for each accepted file, in walk order.  Any error other than "this
 * is a directory" stops the walk, and then no records are returned.
 */
module Processor {
  import opened Wrappers
  import opened Text
  import opened Paths
  import opened Patterns
  import opened FileSystem
  import Binary
  import Language

  datatype Config = Config(
    repoRoot: string,
    filterPatterns: seq<string>,
    excludePatterns: seq<string>,
    caseSensitive: bool,
    syntaxMap: map<string, string>)

  /** The processor: its configuration and the ignore-file filter it was built with. */
  datatype FileProcessor = FileProcessor(config: Config, ignorer: string -> IgnoreResult)

  datatype FileInfo = FileInfo(
    path: string,
    ext: string,
    content: string,
    language: string,
    size: nat,
    created: Time,
    modified: Time)

  /** The errors that end a walk. */
  datatype ProcessError =
    | LstatError(path: string)
    | ReadDirError(path: string)
    | RelFailed(path: string)
    | IgnoreError(message: string)
    | StatError(message: string)
    | OpenError(message: string)
    | ReadError(path: string)

  /** What the walk callback decides for a directory. */
  datatype DirDecision = Descend | Prune | Abort(error: ProcessError)

  function DecideDir(fp: FileProcessor, path: string, name: string): DirDecision {
    if name == ".git" then Prune
    else
      match Rel(fp.config.repoRoot, path)
      case Err(_) => Abort(RelFailed(path))
      case Ok(rel) =>
        match fp.ignorer(rel)
        case IgnoreErr(m) => Abort(IgnoreError(m))
        case IgnoreOk(ignored) =>
          if ignored then Prune
          else if |fp.config.excludePatterns| > 0
                  && MatchesAny(rel, fp.config.excludePatterns, fp.config.caseSensitive) then Prune
          else Descend
  }

  /** Filter patterns are never applied to directories. */
  lemma DirectoriesIgnoreFilters(fp: FileProcessor, filters: seq<string>, path: string, name: string)
    ensures DecideDir(fp.(config := fp.config.(filterPatterns := filters)), path, name) == DecideDir(fp, path, name)
  {
  }

  /** `shouldProcessFile`: the acceptance checks, in the source's order. */
  predicate ShouldProcessFile(fp: FileProcessor, path: string, open: OpenResult) {
    if Binary.IsBinaryFile(open) then false
    else
      match Rel(fp.config.repoRoot, path)
      case Err(_) => false
      case Ok(rel) =>
        match fp.ignorer(rel)
        case IgnoreErr(_) => false
        case IgnoreOk(ignored) =>
          var c := fp.config;
          if ignored then false
          else if |c.filterPatterns| == 0 then
            if |c.excludePatterns| > 0 then !MatchesAny(rel, c.excludePatterns, c.caseSensitive) else true
          else if !MatchesAny(rel, c.filterPatterns, c.caseSensitive) then false
          else if |c.excludePatterns| > 0 then !MatchesAny(rel, c.excludePatterns, c.caseSensitive)
          else true
  }

  /**
   * A file is accepted exactly when it is not binary, has a relative path,
   * is not ignored (and the filter did not fail), matches the filter list
   * (an empty one matches everything) and is not matched by a non-empty
   * exclude list.
   */
  lemma ShouldProcessFileIff(fp: FileProcessor, path: string, open: OpenResult)
    ensures ShouldProcessFile(fp, path, open) <==>
      !Binary.IsBinaryFile(open)
      && Rel(fp.config.repoRoot, path).Ok?
      && fp.ignorer(Rel(fp.config.repoRoot, path).value) == IgnoreOk(false)
      && MatchesAny(Rel(fp.config.repoRoot, path).value, fp.config.filterPatterns, fp.config.caseSensitive)
      && (|fp.config.excludePatterns| == 0
          || !MatchesAny(Rel(fp.config.repoRoot, path).value, fp.config.excludePatterns, fp.config.caseSensitive))
  {
    var c := fp.config;
    if Rel(c.repoRoot, path).Ok? && |c.filterPatterns| == 0 {
      EmptyMatchesEverything(Rel(c.repoRoot, path).value, c.caseSensitive);
    }
  }

  /** With no filter patterns only a non-empty exclude list can reject a clean, unignored file. */
  lemma NoFiltersOnlyExcludes(fp: FileProcessor, path: string, open: OpenResult, rel: string)
    requires fp.config.filterPatterns == []
    requires !Binary.IsBinaryFile(open) && Rel(fp.config.repoRoot, path) == Ok(rel)
    requires fp.ignorer(rel) == IgnoreOk(false)
    ensures ShouldProcessFile(fp, path, open) <==>
      (fp.config.excludePatterns == [] || !MatchesAny(rel, fp.config.excludePatterns, fp.config.caseSensitive))
  {
    ShouldProcessFileIff(fp, path, open);
  }

  /** An empty exclude list excludes nothing: only the filter list decides. */
  lemma EmptyExcludesExcludeNothing(fp: FileProcessor, path: string, open: OpenResult, rel: string)
    requires fp.config.excludePatterns == []
    requires !Binary.IsBinaryFile(open) && Rel(fp.config.repoRoot, path) == Ok(rel)
    requires fp.ignorer(rel) == IgnoreOk(false)
    ensures ShouldProcessFile(fp, path, open) == MatchesAny(rel, fp.config.filterPatterns, fp.config.caseSensitive)
  {
    ShouldProcessFileIff(fp, path, open);
  }

  /** The reasons a file is always rejected, whatever the patterns say. */
  lemma RejectedFiles(fp: FileProcessor, path: string, open: OpenResult)
    requires Binary.IsBinaryFile(open)
          || Rel(fp.config.repoRoot, path).Err?
          || fp.ignorer(Rel(fp.config.repoRoot, path).value) != IgnoreOk(false)
    ensures !ShouldProcessFile(fp, path, open)
  {
    ShouldProcessFileIff(fp, path, open);
  }

  /** The built-in fallback table of `FileProcessor.detectLanguage`. */
  function BuiltinLanguage(ext: string): string {
    if ext == ".go" then "go"
    else if ext == ".py" then "python"
    else if ext == ".js" then "javascript"
    else if ext == ".java" then "java"
    else if ext == ".cpp" || ext == ".hpp" || ext == ".cc" || ext == ".hh" then "cpp"
    else if ext == ".c" || ext == ".h" then "c"
    else "unknown"
  }

  /** `FileProcessor.detectLanguage`: a syntax-map entry for the extension wins. */
  function DetectLanguage(fp: FileProcessor, path: string): (lang: string)
    ensures Ext(path) in fp.config.syntaxMap ==> lang == fp.config.syntaxMap[Ext(path)]
    ensures Ext(path) !in fp.config.syntaxMap ==> lang == Language.DetectLanguage(path)
  {
    var ext := Ext(path);
    if ext in fp.config.syntaxMap then fp.config.syntaxMap[ext]
    else
      assert BuiltinLanguage(ext) == Language.LanguageOfExt(ext);
      BuiltinLanguage(ext)
  }

  /** The fallback table is the stand-alone one, entry for entry. */
  lemma BuiltinAgreesWithLanguage(ext: string)
    ensures BuiltinLanguage(ext) == Language.LanguageOfExt(ext)
  {
  }

  /** `isDirOpenError`. */
  predicate IsDirOpenError(message: string) {
    Contains(message, "is a directory")
  }

  /** What `processFile` gives for one entry: a record, the skip sentinel, or an error. */
  datatype FileOutcome = Record(info: FileInfo) | Skip | Fail(error: ProcessError)

  function ProcessFile(fp: FileProcessor, path: string, stat: StatResult, open: OpenResult): (r: FileOutcome)
    ensures r.Record? ==>
      stat.StatOk? && !stat.isDir && open.Opened? && !open.readFails
      && r.info.path == path && r.info.ext == Ext(path)
      && r.info.content == BytesToString(open.content)
      && r.info.language == DetectLanguage(fp, path)
      && r.info.size == stat.size
      && r.info.created == stat.modTime && r.info.modified == stat.modTime
    ensures r.Skip? <==>
      Rel(fp.config.repoRoot, path).Ok? && stat.StatOk?
      && (stat.isDir || (open.OpenFailed? && IsDirOpenError(open.openError)))
    ensures r.Fail? <==>
      Rel(fp.config.repoRoot, path).Err? || stat.StatFailed?
      || (!stat.isDir && open.OpenFailed? && !IsDirOpenError(open.openError))
      || (!stat.isDir && open.Opened? && open.readFails)
  {
    match Rel(fp.config.repoRoot, path)
    case Err(_) => Fail(RelFailed(path))
    case Ok(_) =>
      match stat
      case StatFailed(m) => Fail(StatError(m))
      case StatOk(isDir, size, modTime) =>
        if isDir then Skip
        else
          match open
          case OpenFailed(m) => if IsDirOpenError(m) then Skip else Fail(OpenError(m))
          case Opened(content, readFails) =>
            if readFails then Fail(ReadError(path))
            else Record(FileInfo(path, Ext(path), BytesToString(content), DetectLanguage(fp, path), size, modTime, modTime))
  }

  /** The callback and the walk below one entry: the records so far, or the error that stopped it. */
  function Visit(fp: FileProcessor, n: Node, path: string, name: string, acc: seq<FileInfo>): Result<seq<FileInfo>, ProcessError>
    decreases n
  {
    match n
    case Dir(_, readable, children) =>
      (match DecideDir(fp, path, name)
       case Prune => Ok(acc)
       case Abort(e) => Err(e)
       case Descend => if !readable then Err(ReadDirError(path)) else VisitAll(fp, children, path, acc))
    case File(_, stat, open) => VisitFile(fp, path, stat, open, acc)
  }

  /** The callback on a non-directory: rejected and skipped entries add nothing. */
  function VisitFile(fp: FileProcessor, path: string, stat: StatResult, open: OpenResult, acc: seq<FileInfo>): Result<seq<FileInfo>, ProcessError> {
    if !ShouldProcessFile(fp, path, open) then Ok(acc)
    else
      match ProcessFile(fp, path, stat, open)
      case Record(info) => Ok(acc + [info])
      case Skip => Ok(acc)
      case Fail(e) => Err(e)
  }

  /** The children of a directory, in order, each at `filepath.Join(dir, name)`. */
  function VisitAll(fp: FileProcessor, children: seq<Node>, dir: string, acc: seq<FileInfo>): Result<seq<FileInfo>, ProcessError>
    decreases children
  {
    if |children| == 0 then Ok(acc)
    else
      var last := children[|children| - 1];
      match VisitAll(fp, children[..|children| - 1], dir, acc)
      case Err(e) => Err(e)
      case Ok(files) => Visit(fp, last, JoinPath(dir, last.name), last.name, files)
  }

  /** `filepath.WalkDir` from the repository root, whose entry is named after the root's base. */
  function Walk(fp: FileProcessor, root: Option<Node>): Result<seq<FileInfo>, ProcessError> {
    match root
    case None => Err(LstatError(fp.config.repoRoot))
    case Some(n) => Visit(fp, n, fp.config.repoRoot, Base(fp.config.repoRoot), [])
  }

  /** `Process`: the walk, with `files` appended to by the callback. */
  method Process(fp: FileProcessor, root: Option<Node>) returns (files: seq<FileInfo>, err: Option<ProcessError>)
    ensures Walk(fp, root).Ok? ==> err == None && files == Walk(fp, root).value
    ensures Walk(fp, root).Err? ==> err == Some(Walk(fp, root).error) && files == []
  {
    if root.None? {
      return [], Some(LstatError(fp.config.repoRoot));
    }
    var collected;
    collected, err := WalkEntry(fp, root.value, fp.config.repoRoot, Base(fp.config.repoRoot), []);
    files := if err.None? then collected else [];
  }

  /** One entry of the walk, and everything below it. */
  method WalkEntry(fp: FileProcessor, n: Node, path: string, name: string, files0: seq<FileInfo>)
    returns (files: seq<FileInfo>, err: Option<ProcessError>)
    ensures Visit(fp, n, path, name, files0).Ok? ==> err == None && files == Visit(fp, n, path, name, files0).value
    ensures Visit(fp, n, path, name, files0).Err? ==> err == Some(Visit(fp, n, path, name, files0).error)
    decreases n, 1
  {
    match n
    case File(_, stat, open) =>
      files, err := WalkFile(fp, path, stat, open, files0);
    case Dir(_, readable, children) =>
      files, err := files0, None;
      var decision := DecideDir(fp, path, name);
      match decision {
        case Prune =>
        case Abort(e) => err := Some(e);
        case Descend =>
          if !readable {
            err := Some(ReadDirError(path));
          } else {
            files, err := WalkChildren(fp, children, path, files0);
          }
      }
  }

  /** The loop over a directory's children, stopping at the first error. */
  method WalkChildren(fp: FileProcessor, children: seq<Node>, dir: string, files0: seq<FileInfo>)
    returns (files: seq<FileInfo>, err: Option<ProcessError>)
    ensures VisitAll(fp, children, dir, files0).Ok? ==> err == None && files == VisitAll(fp, children, dir, files0).value
    ensures VisitAll(fp, children, dir, files0).Err? ==> err == Some(VisitAll(fp, children, dir, files0).error)
    decreases children, 0
  {
    files, err := files0, None;
    var i := 0;
    while i < |children|
      invariant 0 <= i <= |children|
      invariant VisitAll(fp, children[..i], dir, files0) == Ok(files)
    {
      var child := children[i];
      assert children[..i + 1][..i] == children[..i];
      var childErr;
      files, childErr := WalkEntry(fp, child, JoinPath(dir, child.name), child.name, files);
      if childErr.Some? {
        err := childErr;
        ErrorIsFinal(fp, children, i + 1, dir, files0);
        assert children[..|children|] == children;
        return;
      }
      i := i + 1;
    }
    assert children[..i] == children;
  }

  method WalkFile(fp: FileProcessor, path: string, stat: StatResult, open: OpenResult, files0: seq<FileInfo>)
    returns (files: seq<FileInfo>, err: Option<ProcessError>)
    ensures VisitFile(fp, path, stat, open, files0).Ok? ==> err == None && files == VisitFile(fp, path, stat, open, files0).value
    ensures VisitFile(fp, path, stat, open, files0).Err? ==> err == Some(VisitFile(fp, path, stat, open, files0).error)
  {
    files, err := files0, None;
    if ShouldProcessFile(fp, path, open) {
      var outcome := ProcessFile(fp, path, stat, open);
      match outcome {
        case Record(info) => files := files + [info];
        case Skip =>
        case Fail(e) => err := Some(e);
      }
    }
  }

  /** Once a child's walk fails, the rest of the directory is not walked and the error stands. */
  lemma {:induction false} ErrorIsFinal(fp: FileProcessor, children: seq<Node>, k: nat, dir: string, acc: seq<FileInfo>)
    requires k <= |children|
    requires VisitAll(fp, children[..k], dir, acc).Err?
    ensures VisitAll(fp, children, dir, acc) == VisitAll(fp, children[..k], dir, acc)
    decreases |children| - k
  {
    if k < |children| {
      assert children[..k + 1][..k] == children[..k];
      ErrorIsFinal(fp, children, k + 1, dir, acc);
    } else {
      assert children[..k] == children;
    }
  }

  /** A non-directory entry the walk reaches, with what the system calls on it report. */
  datatype Entry = Entry(path: string, stat: StatResult, open: OpenResult)

  /** The entries a walk reaches below `n`, in order, when it meets no error. */
  function Reached(fp: FileProcessor, n: Node, path: string, name: string): seq<Entry>
    decreases n
  {
    match n
    case Dir(_, readable, children) =>
      if DecideDir(fp, path, name) == Descend && readable then ReachedAll(fp, children, path) else []
    case File(_, stat, open) => [Entry(path, stat, open)]
  }

  function ReachedAll(fp: FileProcessor, children: seq<Node>, dir: string): seq<Entry>
    decreases children
  {
    if |children| == 0 then []
    else
      var last := children[|children| - 1];
      ReachedAll(fp, children[..|children| - 1], dir) + Reached(fp, last, JoinPath(dir, last.name), last.name)
  }

  /** The records of the entries that pass the checks and are neither skipped nor failing. */
  function Accepted(fp: FileProcessor, es: seq<Entry>): (r: seq<FileInfo>)
    ensures |r| <= |es|
  {
    if |es| == 0 then []
    else
      var e := es[|es| - 1];
      var outcome := ProcessFile(fp, e.path, e.stat, e.open);
      Accepted(fp, es[..|es| - 1])
        + (if ShouldProcessFile(fp, e.path, e.open) && outcome.Record? then [outcome.info] else [])
  }

  lemma {:induction false} AcceptedConcat(fp: FileProcessor, a: seq<Entry>, b: seq<Entry>)
    ensures Accepted(fp, a + b) == Accepted(fp, a) + Accepted(fp, b)
    decreases |b|
  {
    if |b| == 0 {
      assert a + b == a;
    } else {
      var b' := b[..|b| - 1];
      assert (a + b)[..|a + b| - 1] == a + b';
      assert (a + b)[|a + b| - 1] == b[|b| - 1];
      AcceptedConcat(fp, a, b');
    }
  }

  /** A walk that succeeds returns exactly the accepted records of the entries it reaches, in walk order. */
  lemma {:induction false} OutputIsAccepted(fp: FileProcessor, n: Node, path: string, name: string, acc: seq<FileInfo>)
    requires Visit(fp, n, path, name, acc).Ok?
    ensures Visit(fp, n, path, name, acc).value == acc + Accepted(fp, Reached(fp, n, path, name))
    decreases n, 1
  {
    match n
    case File(_, stat, open) =>
      var e := Entry(path, stat, open);
      assert [e][..0] == [];
      assert acc + [] == acc;
    case Dir(_, readable, children) =>
      if DecideDir(fp, path, name) == Descend && readable {
        OutputIsAcceptedAll(fp, children, path, acc);
      } else {
        assert acc + [] == acc;
      }
  }

  lemma {:induction false} OutputIsAcceptedAll(fp: FileProcessor, children: seq<Node>, dir: string, acc: seq<FileInfo>)
    requires VisitAll(fp, children, dir, acc).Ok?
    ensures VisitAll(fp, children, dir, acc).value == acc + Accepted(fp, ReachedAll(fp, children, dir))
    decreases children, 0
  {
    if |children| == 0 {
      assert acc + [] == acc;
    } else {
      var front := children[..|children| - 1];
      var last := children[|children| - 1];
      var path := JoinPath(dir, last.name);
      assert VisitAll(fp, front, dir, acc).Ok?;
      var files := VisitAll(fp, front, dir, acc).value;
      assert VisitAll(fp, children, dir, acc) == Visit(fp, last, path, last.name, files);
      var x, y := ReachedAll(fp, front, dir), Reached(fp, last, path, last.name);
      assert ReachedAll(fp, children, dir) == x + y;
      OutputIsAcceptedAll(fp, front, dir, acc);
      OutputIsAccepted(fp, last, path, last.name, files);
      AcceptedConcat(fp, x, y);
      var ax, ay := Accepted(fp, x), Accepted(fp, y);
      AppendAssoc(acc, ax, ay);
    }
  }

  lemma AppendAssoc(a: seq<FileInfo>, b: seq<FileInfo>, c: seq<FileInfo>)
    ensures (a + b) + c == a + (b + c)
  {
  }

  /** What `Process` returns when it succeeds: the accepted files of the whole tree, in walk order. */
  lemma ProcessReturnsAcceptedFiles(fp: FileProcessor, root: Node)
    requires Walk(fp, Some(root)).Ok?
    ensures Walk(fp, Some(root)).value
         == Accepted(fp, Reached(fp, root, fp.config.repoRoot, Base(fp.config.repoRoot)))
  {
    OutputIsAccepted(fp, root, fp.config.repoRoot, Base(fp.config.repoRoot), []);
    assert [] + Accepted(fp, Reached(fp, root, fp.config.repoRoot, Base(fp.config.repoRoot)))
        == Accepted(fp, Reached(fp, root, fp.config.repoRoot, Base(fp.config.repoRoot)));
  }

  /**
   * A directory is pruned exactly when it is named `.git`, or its relative
   * path is ignored, or a non-empty exclude list matches it; a pruned
   * directory adds nothing and cannot fail, whatever lies below it.
   */
  lemma PrunedDirectories(fp: FileProcessor, readable: bool, children: seq<Node>, path: string, name: string, acc: seq<FileInfo>)
    ensures DecideDir(fp, path, name) == Prune <==>
      name == ".git"
      || (Rel(fp.config.repoRoot, path).Ok?
          && fp.ignorer(Rel(fp.config.repoRoot, path).value).IgnoreOk?
          && (fp.ignorer(Rel(fp.config.repoRoot, path).value).ignored
              || (|fp.config.excludePatterns| > 0
                  && MatchesAny(Rel(fp.config.repoRoot, path).value, fp.config.excludePatterns, fp.config.caseSensitive))))
    ensures DecideDir(fp, path, name) == Prune ==> Visit(fp, Dir(name, readable, children), path, name, acc) == Ok(acc)
  {
  }

  /** A directory that is walked into but cannot be listed stops the walk. */
  lemma UnlistableDirectoryFails(fp: FileProcessor, children: seq<Node>, path: string, name: string, acc: seq<FileInfo>)
    requires DecideDir(fp, path, name) == Descend
    ensures Visit(fp, Dir(name, false, children), path, name, acc) == Err(ReadDirError(path))
  {
  }

  /**
   * A rejected file adds nothing without error; an accepted one either adds
   * its record, is dropped silently as a directory, or stops the walk.
   */
  lemma FileOutcomes(fp: FileProcessor, path: string, stat: StatResult, open: OpenResult, acc: seq<FileInfo>)
    ensures !ShouldProcessFile(fp, path, open) ==> VisitFile(fp, path, stat, open, acc) == Ok(acc)
    ensures ShouldProcessFile(fp, path, open) && ProcessFile(fp, path, stat, open).Skip? ==>
      VisitFile(fp, path, stat, open, acc) == Ok(acc)
    ensures ShouldProcessFile(fp, path, open) && ProcessFile(fp, path, stat, open).Fail? ==>
      VisitFile(fp, path, stat, open, acc) == Err(ProcessFile(fp, path, stat, open).error)
  {
  }
}
