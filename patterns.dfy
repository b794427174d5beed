/**
 * `filter.MatchesAny` (internal/filter/patterns.go): does a path match any of
 * a list of glob patterns?  An empty list matches everything; otherwise the
 * path and each pattern are lower-cased unless matching is case-sensitive, a
 * pattern without `/` is matched against the path's last element and one with
 * `/` against the whole path, and a malformed pattern is simply no match.
 */
module Patterns {
  import opened Wrappers
  import opened Text
  import opened Paths
  import opened Glob

  /** The case folding applied to both sides when matching is not case-sensitive. */
  function Fold(s: string, caseSensitive: bool): (r: string)
    ensures |r| == |s|
  {
    if caseSensitive then s else ToLower(s)
  }

  /** One iteration of the loop: pattern against the (already folded) path. */
  predicate MatchOne(path: string, pattern: string, caseSensitive: bool) {
    var p := Fold(pattern, caseSensitive);
    var target := if '/' in p then path else Base(path);
    DoublestarMatch(p, target) == Ok(true)
  }

  /** The loop over the patterns, returning at the first match. */
  function AnyMatch(path: string, patterns: seq<string>, caseSensitive: bool): (r: bool)
    ensures r <==> exists i :: 0 <= i < |patterns| && MatchOne(path, patterns[i], caseSensitive)
  {
    if |patterns| == 0 then false
    else if MatchOne(path, patterns[0], caseSensitive) then true
    else AnyMatch(path, patterns[1..], caseSensitive)
  }

  function MatchesAny(path: string, patterns: seq<string>, caseSensitive: bool): (r: bool)
    ensures |patterns| == 0 ==> r
    ensures |patterns| > 0 ==>
      (r <==> exists i :: 0 <= i < |patterns| && MatchOne(Fold(path, caseSensitive), patterns[i], caseSensitive))
  {
    if |patterns| == 0 then true
    else AnyMatch(Fold(path, caseSensitive), patterns, caseSensitive)
  }

  /** The empty list matches every path. */
  lemma EmptyMatchesEverything(path: string, caseSensitive: bool)
    ensures MatchesAny(path, [], caseSensitive)
  {
  }

  /** Only which patterns occur matters: order and repetition are irrelevant. */
  lemma SamePatternsSameResult(path: string, ps: seq<string>, qs: seq<string>, caseSensitive: bool)
    requires forall x :: x in ps <==> x in qs
    ensures MatchesAny(path, ps, caseSensitive) == MatchesAny(path, qs, caseSensitive)
  {
    var f := Fold(path, caseSensitive);
    assert |ps| > 0 ==> ps[0] in qs;
    assert |qs| > 0 ==> qs[0] in ps;
    if MatchesAny(path, ps, caseSensitive) && |ps| > 0 {
      var i :| 0 <= i < |ps| && MatchOne(f, ps[i], caseSensitive);
      assert ps[i] in qs;
    }
    if MatchesAny(path, qs, caseSensitive) && |qs| > 0 {
      var i :| 0 <= i < |qs| && MatchOne(f, qs[i], caseSensitive);
      assert qs[i] in ps;
    }
  }

  /** Adding patterns to a non-empty list never turns a match into a non-match. */
  lemma MoreNonEmptyPatternsKeepMatch(path: string, ps: seq<string>, qs: seq<string>, caseSensitive: bool)
    requires |ps| > 0
    requires forall x :: x in ps ==> x in qs
    requires MatchesAny(path, ps, caseSensitive)
    ensures MatchesAny(path, qs, caseSensitive)
  {
    var i :| 0 <= i < |ps| && MatchOne(Fold(path, caseSensitive), ps[i], caseSensitive);
    assert ps[i] in qs;
  }

  /** ... but adding one to the EMPTY list can: `[]` matches `a.txt`, `["*.go"]` does not. */
  lemma FirstPatternCanTurnMatchOff()
    ensures MatchesAny("a.txt", [], false)
    ensures !MatchesAny("a.txt", ["*.go"], false)
  {
    TxtIsNoGoFile();
    StarDotGo("a.txt", false);
    SingleList("a.txt", "*.go", false);
  }

  lemma TxtIsNoGoFile()
    ensures '/' !in "a.txt" && !HasSuffix(Fold("a.txt", false), ".go")
  {
    assert Fold("a.txt", false)[2] == 't';
  }

  /** Case-insensitive matching cannot tell paths apart that differ only in letter case. */
  lemma CaseInsensitiveIgnoresCase(p1: string, p2: string, patterns: seq<string>)
    requires ToLower(p1) == ToLower(p2)
    ensures MatchesAny(p1, patterns, false) == MatchesAny(p2, patterns, false)
  {
  }

  lemma FoldKeepsSlashes(s: string, caseSensitive: bool)
    ensures '/' in Fold(s, caseSensitive) <==> '/' in s
  {
    if !caseSensitive {
      if '/' in s {
        var i :| 0 <= i < |s| && s[i] == '/';
        assert Fold(s, caseSensitive)[i] == '/';
      }
      if '/' in Fold(s, caseSensitive) {
        var i :| 0 <= i < |s| && Fold(s, caseSensitive)[i] == '/';
        assert s[i] == '/';
      }
    }
  }

  /**
   * A pattern without `/` sees only the last element: the path `dir/name`
   * matches it exactly when `name` alone does.
   */
  lemma BarePatternSeesBasename(dir: string, name: string, pattern: string, caseSensitive: bool)
    requires |name| > 0 && '/' !in name
    requires '/' !in pattern
    ensures MatchesAny(dir + "/" + name, [pattern], caseSensitive) == MatchesAny(name, [pattern], caseSensitive)
  {
    var d := Fold(dir, caseSensitive) + "/";
    var n := Fold(name, caseSensitive);
    FoldConcat(dir, "/" + name, caseSensitive);
    FoldConcat("/", name, caseSensitive);
    assert dir + "/" + name == dir + ("/" + name);
    assert Fold(dir + "/" + name, caseSensitive) == d + n;
    FoldKeepsSlashes(name, caseSensitive);
    FoldKeepsSlashes(pattern, caseSensitive);
    BaseOfChild(d, n);
    BaseOfChild("", n);
    assert "" + n == n;
    SingleList(dir + "/" + name, pattern, caseSensitive);
    SingleList(name, pattern, caseSensitive);
  }

  lemma SingleList(path: string, pattern: string, caseSensitive: bool)
    ensures MatchesAny(path, [pattern], caseSensitive) == MatchOne(Fold(path, caseSensitive), pattern, caseSensitive)
  {
  }

  lemma FoldConcat(a: string, b: string, caseSensitive: bool)
    ensures Fold(a + b, caseSensitive) == Fold(a, caseSensitive) + Fold(b, caseSensitive)
  {
    if !caseSensitive {
      ToLowerConcat(a, b);
    }
  }

  /** A pattern without `/` is matched against the base name alone. */
  lemma MatchOneBare(path: string, pattern: string, caseSensitive: bool)
    requires '/' !in Fold(pattern, caseSensitive)
    ensures MatchOne(path, pattern, caseSensitive) <==>
      DoublestarMatch(Fold(pattern, caseSensitive), Base(path)) == Ok(true)
  {
  }

  /** `*.go` accepts exactly the names that end in `.go` (for a `name` without `/`). */
  lemma StarDotGo(name: string, caseSensitive: bool)
    requires '/' !in name
    ensures MatchOne(Fold(name, caseSensitive), "*.go", caseSensitive) <==>
            HasSuffix(Fold(name, caseSensitive), ".go")
  {
    var f := Fold(name, caseSensitive);
    FoldStarDotGo(caseSensitive);
    FoldKeepsSlashes(name, caseSensitive);
    MatchOneBare(f, "*.go", caseSensitive);
    StarDotGoOnName(Base(f));
    if |f| > 0 {
      BaseOfName(f);
    } else {
      DotIsNoGoFile();
    }
  }

  lemma DotIsNoGoFile()
    ensures Base("") == "." && !HasSuffix(".", ".go")
  {
  }

  lemma FoldStarDotGo(caseSensitive: bool)
    ensures Fold("*.go", caseSensitive) == "*.go"
    ensures '/' !in "*.go"
  {
    var s := "*.go";
    assert forall i :: 0 <= i < |s| ==> Lower(s[i]) == s[i];
  }

  lemma StarDotGoOnName(b: string)
    requires '/' !in b
    ensures DoublestarMatch("*.go", b) == Ok(HasSuffix(b, ".go"))
  {
    var lit := ".go";
    assert "*" + lit == "*.go";
    assert forall i :: 0 <= i < |lit| ==> !IsMeta(lit[i]);
    TokensOfStarLiteral(lit);
    SplitNone("*.go", '/');
    SplitNone(b, '/');
    StarSuffix(Lits(lit), lit, b);
    PathMatchOneSeg(Seg([Star] + Lits(lit)), b);
    assert "*.go" != "**";
    assert ["*.go"][1..] == [];
    SegmentsCons(["*.go"], true, Seg([Star] + Lits(lit)), []);
  }

  lemma PathMatchOneSeg(s: Segment, name: string)
    requires s.Seg?
    ensures PathMatch([s], [name]) == SegMatch(s.tokens, name)
  {
    assert [s][1..] == [] && [name][1..] == [];
  }

  /** Literal tokens match exactly their own text. */
  lemma {:induction false} LitsMatch(ts: seq<Token>, lit: string, s: string)
    requires |ts| == |lit| && forall i :: 0 <= i < |ts| ==> ts[i] == Lit(lit[i])
    ensures SegMatch(ts, s) <==> s == lit
  {
    if |ts| > 0 {
      LitsMatch(ts[1..], lit[1..], if |s| > 0 then s[1..] else s);
      if |s| > 0 && s[1..] == lit[1..] && s[0] == lit[0] {
        assert s == [s[0]] + s[1..] && lit == [lit[0]] + lit[1..];
      }
    }
  }

  /** A leading `*` before literal text matches exactly the strings ending in that text. */
  lemma {:induction false} StarSuffix(ts: seq<Token>, lit: string, s: string)
    requires |ts| == |lit| && forall i :: 0 <= i < |ts| ==> ts[i] == Lit(lit[i])
    ensures SegMatch([Star] + ts, s) <==> HasSuffix(s, lit)
    decreases |s|
  {
    assert ([Star] + ts)[1..] == ts;
    LitsMatch(ts, lit, s);
    if |s| > 0 {
      StarSuffix(ts, lit, s[1..]);
      if |lit| <= |s| - 1 {
        assert s[|s| - |lit|..] == s[1..][|s[1..]| - |lit|..];
      }
    }
  }
}
