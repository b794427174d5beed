/**
 * The ignore-file reader and the basename matcher of
 * internal/filter/gitignore.go.  Opening and scanning the file are
 * abstracted as a `LinesSource`: either the open failed, or the lines the
 * scanner produced together with the error it stopped on, if any.
 */
module Gitignore {
  import opened Wrappers
  import opened Text
  import opened Paths
  import opened Glob

  datatype IoError = IoError(message: string)

  datatype LinesSource =
    | OpenFailed(openError: IoError)
    | Opened(lines: seq<string>, scanError: Option<IoError>)

  /** A trimmed line is kept when it is neither empty nor a `#` comment. */
  predicate Keeps(line: string) {
    TrimSpace(line) != "" && !HasPrefix(TrimSpace(line), "#")
  }

  /** The patterns an ignore file's lines yield, one per qualifying line, in file order. */
  function Qualifying(lines: seq<string>): (r: seq<string>)
    ensures |r| <= |lines|
    ensures forall i :: 0 <= i < |r| ==>
      r[i] != "" && !IsSpace(r[i][0]) && !IsSpace(r[i][|r[i]| - 1]) && r[i][0] != '#'
  {
    if |lines| == 0 then []
    else (if Keeps(lines[0]) then [TrimSpace(lines[0])] else []) + Qualifying(lines[1..])
  }

  /** Lines are taken one at a time: the patterns of a concatenation are the concatenated patterns. */
  lemma {:induction false} QualifyingConcat(a: seq<string>, b: seq<string>)
    ensures Qualifying(a + b) == Qualifying(a) + Qualifying(b)
    decreases |a|
  {
    if |a| > 0 {
      assert (a + b)[0] == a[0];
      assert (a + b)[1..] == a[1..] + b;
      QualifyingConcat(a[1..], b);
    } else {
      assert a + b == b;
    }
  }

  /** A single line yields its trimmed text exactly when it qualifies, and nothing otherwise. */
  lemma QualifyingOne(line: string)
    ensures Qualifying([line]) == if Keeps(line) then [TrimSpace(line)] else []
  {
    assert [line][1..] == [];
  }

  /** Every line that qualifies contributes its trimmed text, once, at its place in the file. */
  lemma QualifyingKeepsLine(before: seq<string>, line: string, after: seq<string>)
    requires Keeps(line)
    ensures Qualifying(before + [line] + after) ==
      Qualifying(before) + [TrimSpace(line)] + Qualifying(after)
  {
    QualifyingConcat(before + [line], after);
    QualifyingConcat(before, [line]);
    QualifyingOne(line);
  }

  /** `LoadGitignorePatterns(path)`: the scanner loop over the lines of the opened file. */
  method LoadGitignorePatterns(path: string, file: LinesSource) returns (patterns: seq<string>, err: Option<IoError>)
    ensures path == "" ==> patterns == [] && err == None
    ensures path != "" && file.OpenFailed? ==> patterns == [] && err == Some(file.openError)
    ensures path != "" && file.Opened? ==> patterns == Qualifying(file.lines) && err == file.scanError
  {
    if path == "" {
      return [], None;
    }
    if file.OpenFailed? {
      return [], Some(file.openError);
    }
    var lines := file.lines;
    patterns := [];
    var i := 0;
    while i < |lines|
      invariant 0 <= i <= |lines|
      invariant patterns == Qualifying(lines[..i])
    {
      var line := TrimSpace(lines[i]);
      QualifyingConcat(lines[..i], [lines[i]]);
      QualifyingOne(lines[i]);
      assert lines[..i + 1] == lines[..i] + [lines[i]];
      if line != "" && !HasPrefix(line, "#") {
        patterns := patterns + [line];
      }
      i := i + 1;
    }
    assert lines[..i] == lines;
    err := file.scanError;
  }

  /** `matchGitignorePattern`: `filepath.Match` on the base name, a bad pattern counting as no match. */
  predicate MatchGitignorePattern(path: string, pattern: string) {
    FilepathMatch(pattern, Base(path)) == Ok(true)
  }

  /** `IsIgnored`: the loop over the patterns, returning at the first match. */
  function IsIgnored(path: string, patterns: seq<string>): (r: bool)
    ensures r <==> exists i :: 0 <= i < |patterns| && MatchGitignorePattern(path, patterns[i])
  {
    if |patterns| == 0 then false
    else if MatchGitignorePattern(path, patterns[0]) then true
    else
      var r := IsIgnored(path, patterns[1..]);
      assert forall i :: 1 <= i < |patterns| ==> patterns[i] == patterns[1..][i - 1];
      r
  }

  /** An empty pattern list ignores nothing. */
  lemma NoPatternsIgnoreNothing(path: string)
    ensures !IsIgnored(path, [])
  {
  }

  /** Only the base name is compared: a file in any directory is ignored exactly when its bare name is. */
  lemma OnlyBaseNameMatters(dir: string, name: string, patterns: seq<string>)
    requires |name| > 0 && '/' !in name
    ensures IsIgnored(dir + "/" + name, patterns) == IsIgnored(name, patterns)
  {
    BaseOfChild(dir + "/", name);
    assert (dir + "/")[|dir + "/"| - 1] == '/';
    assert dir + "/" + name == (dir + "/") + name;
    BaseOfName(name);
  }

  /** A malformed pattern never matches: its error is discarded. */
  lemma MalformedNeverMatches(path: string, pattern: string)
    requires FilepathMatch(pattern, Base(path)).Err?
    ensures !MatchGitignorePattern(path, pattern)
  {
  }

  /** A pattern with an unclosed class, such as `[a`, is malformed for every name. */
  lemma UnclosedClassIsMalformed(name: string)
    ensures FilepathMatch("[a", name).Err?
  {
    SplitNone("[a", '/');
    assert Tokens("[a") == None by {
      assert "[a"[1..] == "a";
      assert ClassRanges("a", []) == None by {
        assert "a"[1..] == "";
      }
    }
    assert ["[a"][1..] == [];
  }

  /**
   * A pattern ending in `/` has one segment more than any base name without
   * `/`, so it can match only a path made of slashes alone, whose base is `/`.
   */
  lemma TrailingSlashPattern(path: string, pattern: string)
    requires |pattern| > 0 && pattern[|pattern| - 1] == '/'
    requires MatchGitignorePattern(path, pattern)
    ensures |path| > 0 && forall j :: 0 <= j < |path| ==> path[j] == '/'
  {
    var b := Base(path);
    FilepathMatchSameCount(pattern, b);
    var p := pattern[..|pattern| - 1];
    assert pattern == p + ['/'];
    SplitAppendSeparator(p, '/');
    if b != "/" {
      SplitNone(b, '/');
    }
  }
}
