/**
 * The `MatchesAny` cases of internal/filter/filter_test.go and further
 * case-sensitivity and recursive-wildcard examples, derived from a
 * characterisation of patterns of the form `<dir>/**/*.go`.
 */
module PatternExamples {
  import opened Wrappers
  import opened Text
  import opened Paths
  import opened Glob
  import opened Patterns

  predicate NoUpper(s: string) {
    forall i :: 0 <= i < |s| ==> !('A' <= s[i] <= 'Z')
  }

  lemma FoldNoUpper(s: string, caseSensitive: bool)
    requires NoUpper(s)
    ensures Fold(s, caseSensitive) == s
  {
  }

  /** The tokens of `*.go`. */
  function StarGo(): seq<Token> {
    [Star] + Lits(".go")
  }

  lemma TokensStarGo()
    ensures Tokens("*.go") == Some(StarGo())
  {
    var lit := ".go";
    assert "*" + lit == "*.go";
    assert forall i :: 0 <= i < |lit| ==> !IsMeta(lit[i]);
    TokensOfStarLiteral(lit);
  }

  /** The segments of `<dir>/**/*.go`. */
  function DirGlobSegments(dir: string): seq<Segment> {
    [Seg(Lits(dir)), GlobStar, Seg(StarGo())]
  }

  lemma StarStarGoSplit()
    ensures Split("**/*.go", '/') == ["**", "*.go"]
  {
    SplitNone("*.go", '/');
    assert "**/*.go" == "**" + "/" + "*.go";
    SplitAfter("**", "*.go", '/');
  }

  lemma DirGlobSplit(dir: string)
    requires '/' !in dir
    ensures Split(dir + "/" + "**/*.go", '/') == [dir, "**", "*.go"]
  {
    StarStarGoSplit();
    SplitAfter(dir, "**/*.go", '/');
  }

  lemma DirGlobFold(dir: string, caseSensitive: bool)
    requires NoUpper(dir)
    ensures Fold(dir + "/" + "**/*.go", caseSensitive) == dir + "/" + "**/*.go"
    ensures '/' in dir + "/" + "**/*.go"
  {
    var pattern := dir + "/" + "**/*.go";
    assert NoUpper(pattern) by {
      assert forall i :: |dir| <= i < |pattern| ==> pattern[i] == "/**/*.go"[i - |dir|];
    }
    FoldNoUpper(pattern, caseSensitive);
    assert pattern[|dir|] == '/';
  }

  lemma StarStarGoSegments()
    ensures Segments(["**", "*.go"], true) == Some([GlobStar, Seg(StarGo())])
  {
    TokensStarGo();
    var parts := ["**", "*.go"];
    assert parts[1..] == ["*.go"] && parts[1..][1..] == [];
    SegmentsCons(parts[1..], true, Seg(StarGo()), []);
    assert [Seg(StarGo())] + [] == [Seg(StarGo())];
    SegmentsCons(parts, true, GlobStar, [Seg(StarGo())]);
    assert [GlobStar] + [Seg(StarGo())] == [GlobStar, Seg(StarGo())];
  }

  lemma DirGlobParse(dir: string)
    requires |dir| > 0
    requires forall i :: 0 <= i < |dir| ==> !IsMeta(dir[i])
    ensures Segments([dir, "**", "*.go"], true) == Some(DirGlobSegments(dir))
  {
    var parts := [dir, "**", "*.go"];
    TokensOfLiteral(dir);
    StarStarGoSegments();
    assert parts[1..] == ["**", "*.go"];
    assert dir[0] != '*';
    SegmentsCons(parts, true, Seg(Lits(dir)), [GlobStar, Seg(StarGo())]);
    assert [Seg(Lits(dir))] + [GlobStar, Seg(StarGo())] == DirGlobSegments(dir);
  }

  lemma DirGlobPathMatch(dir: string, ns: seq<string>)
    ensures PathMatch(DirGlobSegments(dir), ns) <==>
      |ns| >= 2 && ns[0] == dir && HasSuffix(ns[|ns| - 1], ".go")
  {
    var ps := DirGlobSegments(dir);
    assert ps[1..] == [GlobStar, Seg(StarGo())];
    if |ns| > 0 {
      GlobStarThenSeg(StarGo(), ns[1..]);
      LitsMatch(Lits(dir), dir, ns[0]);
      var lit := ".go";
      assert forall i :: 0 <= i < |lit| ==> !IsMeta(lit[i]);
      StarSuffix(Lits(lit), lit, ns[|ns| - 1]);
      if |ns| >= 2 {
        assert ns[1..][|ns[1..]| - 1] == ns[|ns| - 1];
      }
    }
  }

  /** Matching `<dir>/**/*.go` is matching its three segments against the folded path. */
  lemma DirGlobSegmentsMatch(dir: string, path: string, caseSensitive: bool)
    requires |dir| > 0 && '/' !in dir && NoUpper(dir)
    requires forall i :: 0 <= i < |dir| ==> !IsMeta(dir[i])
    ensures MatchesAny(path, [dir + "/" + "**/*.go"], caseSensitive) <==>
      PathMatch(DirGlobSegments(dir), Split(Fold(path, caseSensitive), '/'))
  {
    DirGlobFold(dir, caseSensitive);
    DirGlobSplit(dir);
    DirGlobParse(dir);
    SingleList(path, dir + "/" + "**/*.go", caseSensitive);
  }

  /** The three segments match a path exactly when it starts with `dir` and a slash and ends in `.go`. */
  lemma DirGlobPrefixSuffix(dir: string, f: string)
    requires '/' !in dir
    ensures PathMatch(DirGlobSegments(dir), Split(f, '/')) <==> HasPrefix(f, dir + "/") && HasSuffix(f, ".go")
  {
    DirGlobPathMatch(dir, Split(f, '/'));
    SplitFirst(f, dir, '/');
    assert dir + ['/'] == dir + "/";
    assert '/' !in ".go";
    SplitLast(f, ".go", '/');
  }

  /**
   * `<dir>/**/*.go` matches a path exactly when, after case folding, the
   * path starts with `dir` and a slash and ends in `.go`.
   */
  lemma DirGlobStarGo(dir: string, path: string, caseSensitive: bool)
    requires |dir| > 0 && '/' !in dir && NoUpper(dir)
    requires forall i :: 0 <= i < |dir| ==> !IsMeta(dir[i])
    ensures MatchesAny(path, [dir + "/" + "**/*.go"], caseSensitive) <==>
      HasPrefix(Fold(path, caseSensitive), dir + "/") && HasSuffix(Fold(path, caseSensitive), ".go")
  {
    DirGlobSegmentsMatch(dir, path, caseSensitive);
    DirGlobPrefixSuffix(dir, Fold(path, caseSensitive));
  }

  /** `my-folder` and `a` are plain lower-case directory names. */
  lemma DirNameFacts()
    ensures |"my-folder"| > 0 && '/' !in "my-folder" && NoUpper("my-folder")
    ensures forall i :: 0 <= i < |"my-folder"| ==> !IsMeta("my-folder"[i])
    ensures "my-folder" + "/" + "**/*.go" == "my-folder/**/*.go" && "my-folder" + "/" == "my-folder/"
    ensures |"a"| > 0 && '/' !in "a" && NoUpper("a") && !IsMeta("a"[0])
    ensures "a" + "/" + "**/*.go" == "a/**/*.go" && "a" + "/" == "a/"
  {
  }

  /** The pattern of filter_test.go, `my-folder/**/*.go`. */
  lemma MyFolderGlob(path: string)
    ensures MatchesAny(path, ["my-folder/**/*.go"], false) <==>
      HasPrefix(Fold(path, false), "my-folder/") && HasSuffix(Fold(path, false), ".go")
  {
    DirNameFacts();
    DirGlobStarGo("my-folder", path, false);
  }

  /** The recursive-wildcard pattern `a/**/*.go`. */
  lemma AGlob(path: string)
    ensures MatchesAny(path, ["a/**/*.go"], false) <==>
      HasPrefix(Fold(path, false), "a/") && HasSuffix(Fold(path, false), ".go")
  {
    DirNameFacts();
    DirGlobStarGo("a", path, false);
  }

  /** Prefix and suffix facts about the literal paths of the examples. */
  lemma PathFacts(path: string, prefix: string, ext: string)
    requires |prefix| + |ext| <= |path|
    requires NoUpper(path)
    requires path[..|prefix|] == prefix && path[|path| - |ext|..] == ext
    ensures Fold(path, false) == path
    ensures HasPrefix(Fold(path, false), prefix) && HasSuffix(Fold(path, false), ext)
  {
    FoldNoUpper(path, false);
  }

  /** The two paths outside the folders of the patterns. */
  lemma OtherFolderFacts()
    ensures !HasPrefix(Fold("another-folder/file.go", false), "my-folder/")
    ensures !HasPrefix(Fold("x/file.go", false), "a/")
  {
    FoldNoUpper("another-folder/file.go", false);
    assert "another-folder/file.go"[0] != "my-folder/"[0];
    FoldNoUpper("x/file.go", false);
    assert "x/file.go"[0] != "a/"[0];
  }

  /** `FILE.GO` ends in `.go` only once folded. */
  lemma UpperCaseFacts()
    ensures HasSuffix(Fold("FILE.GO", false), ".go")
    ensures !HasSuffix(Fold("FILE.GO", true), ".go")
  {
    assert ToLower("FILE.GO")[4..] == ".go";
    assert "FILE.GO"[5] != 'g';
  }

  /** filter_test.go: `my-folder/**/*.go` matches `my-folder/subdir/deeper/file.go`. */
  lemma MatchesDeepGoFile()
    ensures MatchesAny("my-folder/subdir/deeper/file.go", ["my-folder/**/*.go"], false)
  {
    PathFacts("my-folder/subdir/deeper/file.go", "my-folder/", ".go");
    MyFolderGlob("my-folder/subdir/deeper/file.go");
  }

  /** filter_test.go: `my-folder/**/*.go` rejects `my-folder/subdir/file.txt`. */
  lemma RejectsTxtFile()
    ensures !MatchesAny("my-folder/subdir/file.txt", ["my-folder/**/*.go"], false)
  {
    PathFacts("my-folder/subdir/file.txt", "my-folder/", ".txt");
    MyFolderGlob("my-folder/subdir/file.txt");
  }

  /** filter_test.go: `**` spans zero elements, so `my-folder/file.go` matches. */
  lemma MatchesShallowGoFile()
    ensures MatchesAny("my-folder/file.go", ["my-folder/**/*.go"], false)
  {
    PathFacts("my-folder/file.go", "my-folder/", ".go");
    MyFolderGlob("my-folder/file.go");
  }

  /** filter_test.go: `my-folder/**/*.go` rejects `another-folder/file.go`. */
  lemma RejectsOtherFolder()
    ensures !MatchesAny("another-folder/file.go", ["my-folder/**/*.go"], false)
  {
    OtherFolderFacts();
    MyFolderGlob("another-folder/file.go");
  }

  /** `a/**/*.go` matches `a/b/c/file.go`. */
  lemma RecursiveWildcardMatches()
    ensures MatchesAny("a/b/c/file.go", ["a/**/*.go"], false)
  {
    PathFacts("a/b/c/file.go", "a/", ".go");
    AGlob("a/b/c/file.go");
  }

  /** `a/**/*.go` rejects `x/file.go`. */
  lemma RecursiveWildcardRejects()
    ensures !MatchesAny("x/file.go", ["a/**/*.go"], false)
  {
    OtherFolderFacts();
    AGlob("x/file.go");
  }

  /** `*.go` matches a name without a slash exactly when the folded name ends in `.go`. */
  lemma StarGoOnName(name: string, caseSensitive: bool)
    requires '/' !in name
    ensures MatchesAny(name, ["*.go"], caseSensitive) <==> HasSuffix(Fold(name, caseSensitive), ".go")
  {
    StarDotGo(name, caseSensitive);
    SingleList(name, "*.go", caseSensitive);
  }

  /** Case folding: `FILE.GO` matches `*.go` when matching ignores case... */
  lemma CaseInsensitiveExample()
    ensures MatchesAny("FILE.GO", ["*.go"], false)
  {
    StarGoOnName("FILE.GO", false);
    UpperCaseFacts();
  }

  /** ...and not when matching is case-sensitive. */
  lemma CaseSensitiveExample()
    ensures !MatchesAny("FILE.GO", ["*.go"], true)
  {
    StarGoOnName("FILE.GO", true);
    UpperCaseFacts();
  }

  lemma NestedGoFacts()
    ensures "a/b" + "/" + "c.go" == "a/b/c.go"
    ensures HasSuffix(Fold("c.go", false), ".go")
  {
    PathFacts("c.go", "", ".go");
  }

  /** A bare `*.go` matches a `.go` file at any depth, such as `a/b/c.go`. */
  lemma BarePatternAnyDepth()
    ensures MatchesAny("a/b/c.go", ["*.go"], false)
  {
    BarePatternSeesBasename("a/b", "c.go", "*.go", false);
    StarGoOnName("c.go", false);
    NestedGoFacts();
  }
}
