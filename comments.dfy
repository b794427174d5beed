// `StripComments` (internal/processor/comments/stripper.go): the comment
// stripping chosen by language.  For `go` and `javascript` it is two regular
// expression replacements followed by `strings.TrimSpace`: first `//.*`
// (to the end of the line, the newline kept), then `(?s)/\*.*?\*/` (a block
// that may span lines, up to the nearest closing).  Each replacement scans
// left to right and resumes after every match, as `ReplaceAllString` does.
//
// Comments that mention the slash-star opener are written with `//`,
// because Dafny's block comments nest and such an opener would start one.
module Comments {
  import opened Wrappers
  import opened Text

  /** The outcome of `StripComments`: the stripped content, or the panic of a regular expression that does not compile. */
  datatype Outcome = Stripped(text: string) | Panic

  /** A line comment, `//`, starts at `p`. */
  predicate LineOpensAt(s: string, p: int) {
    0 <= p && p + 1 < |s| && s[p] == '/' && s[p + 1] == '/'
  }

  /** A block comment, slash then star, starts at `p`. */
  predicate BlockOpensAt(s: string, p: int) {
    0 <= p && p + 1 < |s| && s[p] == '/' && s[p + 1] == '*'
  }

  /** A block comment closes at `p`: star then slash. */
  predicate BlockClosesAt(s: string, p: int) {
    0 <= p && p + 1 < |s| && s[p] == '*' && s[p + 1] == '/'
  }

  /** No block comment starts anywhere in `s`. */
  predicate NoBlockOpener(s: string) {
    forall p :: 0 <= p < |s| ==> !BlockOpensAt(s, p)
  }

  /** No block comment closes anywhere in `s`. */
  predicate NoBlockCloser(s: string) {
    forall p :: 0 <= p < |s| ==> !BlockClosesAt(s, p)
  }

  /** The index of the first newline at or after `i`, or `|s|`: where a match of `//.*` ends. */
  function LineEnd(s: string, i: nat): (k: nat)
    requires i <= |s|
    ensures i <= k <= |s|
    ensures forall j :: i <= j < k ==> s[j] != '\n'
    ensures k < |s| ==> s[k] == '\n'
    decreases |s| - i
  {
    if i == |s| || s[i] == '\n' then i else LineEnd(s, i + 1)
  }

  /** `regexp.MustCompile("//.*").ReplaceAllString(s, "")`. */
  function StripLineComments(s: string): string
    decreases |s|
  {
    if |s| == 0 then ""
    else if LineOpensAt(s, 0) then StripLineComments(s[LineEnd(s, 0)..])
    else [s[0]] + StripLineComments(s[1..])
  }

  // The index of the first `*/` starting at or after `i`, if any.
  function CloseAt(s: string, i: nat): (r: Option<nat>)
    requires i <= |s|
    ensures r.Some? ==> i <= r.value && BlockClosesAt(s, r.value)
    ensures r.Some? ==> forall j :: i <= j < r.value ==> !BlockClosesAt(s, j)
    ensures r.None? ==> forall j :: i <= j < |s| ==> !BlockClosesAt(s, j)
    decreases |s| - i
  {
    if i + 2 > |s| then None
    else if BlockClosesAt(s, i) then Some(i)
    else CloseAt(s, i + 1)
  }

  // `regexp.MustCompile(`(?s)/\*.*?\*/`).ReplaceAllString(s, "")`: a `/*`
  // with a `*/` after it is deleted through the first such `*/`; one without
  // is kept like any other text.
  function StripBlockComments(s: string): string
    decreases |s|
  {
    if |s| == 0 then ""
    else if BlockOpensAt(s, 0) && CloseAt(s, 2).Some? then StripBlockComments(s[CloseAt(s, 2).value + 2..])
    else [s[0]] + StripBlockComments(s[1..])
  }

  /**
   * `stripGoComments` and `stripJavaScriptComments`, which apply the same two
   * passes: line comments, then block comments, then `TrimSpace`.
   */
  function StripSlashComments(content: string): string {
    TrimSpace(StripBlockComments(StripLineComments(content)))
  }

  /**
   * `StripComments`.  The Python stripper's pattern uses a backreference,
   * which Go's regular expressions reject, so compiling it panics.
   */
  function StripComments(content: string, language: string): Outcome {
    match language
    case "go" => Stripped(StripSlashComments(content))
    case "python" => Panic
    case "javascript" => Stripped(StripSlashComments(content))
    case _ => Stripped(content)
  }

  /** Languages without a stripper keep their content as it is; `java`, `c` and `cpp` among them. */
  lemma OtherLanguagesUnchanged(content: string, language: string)
    requires language != "go" && language != "python" && language != "javascript"
    ensures StripComments(content, language) == Stripped(content)
  {
  }

  /** `go` and `javascript` content is stripped alike. */
  lemma GoLikeJavaScript(content: string)
    ensures StripComments(content, "go") == StripComments(content, "javascript")
  {
  }

  /** Asking for Python stripping never returns. */
  lemma PythonPanics(content: string)
    ensures StripComments(content, "python") == Panic
  {
  }

  /** Stripped `go` or `javascript` content neither starts nor ends with white space. */
  lemma StrippedIsTrimmed(content: string, language: string)
    requires language == "go" || language == "javascript"
    ensures StripComments(content, language).Stripped?
    ensures var t := StripComments(content, language).text;
      |t| > 0 ==> !IsSpace(t[0]) && !IsSpace(t[|t| - 1])
  {
  }

  /** The index of the first `//` in `line` at or after `i`, or `|line|`. */
  function CommentStart(line: string, i: nat): (k: nat)
    requires i <= |line|
    ensures i <= k <= |line|
    ensures forall j :: i <= j < k ==> !LineOpensAt(line, j)
    ensures k < |line| ==> LineOpensAt(line, k)
    decreases |line| - i
  {
    if i == |line| || LineOpensAt(line, i) then i else CommentStart(line, i + 1)
  }

  /** Each line cut off at its first `//`. */
  function CutLines(lines: seq<string>): (r: seq<string>)
    ensures |r| == |lines|
  {
    seq(|lines|, i requires 0 <= i < |lines| => lines[i][..CommentStart(lines[i], 0)])
  }

  /** On a single line the line pass keeps what comes before the first `//`. */
  lemma {:induction false} LinePassOnLine(line: string, i: nat)
    requires '\n' !in line && i <= |line|
    ensures StripLineComments(line[i..]) == line[i..CommentStart(line, i)]
    decreases |line| - i
  {
    var t := line[i..];
    if |t| > 0 {
      if LineOpensAt(t, 0) {
        assert LineOpensAt(line, i);
        assert forall j :: 0 <= j < |t| ==> t[j] == line[i + j];
        LineEndAt(t, |t|);
        assert t[|t|..] == "";
      } else {
        LinePassOnLine(line, i + 1);
        assert t[1..] == line[i + 1..];
        assert line[i..CommentStart(line, i)] == [line[i]] + line[i + 1..CommentStart(line, i + 1)];
      }
    }
  }

  /** The first newline of `s` is at `k`, or `s` has none when `k == |s|`. */
  lemma LineEndAt(s: string, k: nat)
    requires k <= |s|
    requires forall j :: 0 <= j < k ==> s[j] != '\n'
    requires k < |s| ==> s[k] == '\n'
    ensures LineEnd(s, 0) == k
  {
  }

  /** The line pass works on each line separately: a newline is never part of a match. */
  lemma {:induction false} LinePassSplits(a: string, b: string)
    requires '\n' !in a
    ensures StripLineComments(a + "\n" + b) == StripLineComments(a) + "\n" + StripLineComments(b)
    decreases |a|
  {
    var s := a + "\n" + b;
    if |a| == 0 {
      assert s == "\n" + b;
      assert s[1..] == b;
    } else if LineOpensAt(a, 0) {
      LineEndAt(s, |a|);
      LineEndAt(a, |a|);
      assert s[|a|..] == "\n" + b;
      assert a[|a|..] == "";
      LinePassSplits("", b);
      assert "" + "\n" + b == "\n" + b;
    } else {
      assert !LineOpensAt(s, 0);
      LinePassSplits(a[1..], b);
      assert s[1..] == a[1..] + "\n" + b;
    }
  }

  /** The line pass applied to joined lines is the join of the line pass on each. */
  lemma {:induction false} LinePassOfJoin(lines: seq<string>)
    requires |lines| >= 1
    requires forall i :: 0 <= i < |lines| ==> '\n' !in lines[i]
    ensures StripLineComments(Join(lines, '\n')) ==
      Join(seq(|lines|, i requires 0 <= i < |lines| => StripLineComments(lines[i])), '\n')
    decreases |lines|
  {
    var stripped := seq(|lines|, i requires 0 <= i < |lines| => StripLineComments(lines[i]));
    if |lines| > 1 {
      var rest := lines[1..];
      LinePassOfJoin(rest);
      assert lines == [lines[0]] + rest;
      JoinCons(lines[0], rest, '\n');
      LinePassSplits(lines[0], Join(rest, '\n'));
      var strippedRest := seq(|rest|, i requires 0 <= i < |rest| => StripLineComments(rest[i]));
      assert stripped == [stripped[0]] + strippedRest;
      JoinCons(stripped[0], strippedRest, '\n');
    }
  }

  /**
   * The line pass deletes every `//` through the end of its line and keeps
   * the newline: the output has the input's lines, each cut at its first `//`.
   */
  lemma LinePassCutsLines(s: string)
    ensures Split(StripLineComments(s), '\n') == CutLines(Split(s, '\n'))
  {
    var lines := Split(s, '\n');
    JoinSplit(s, '\n');
    LinePassOfJoin(lines);
    var cut := CutLines(lines);
    forall i | 0 <= i < |lines|
      ensures StripLineComments(lines[i]) == cut[i]
      ensures '\n' !in cut[i]
    {
      LinePassOnLine(lines[i], 0);
      assert lines[i][0..] == lines[i];
      assert forall j :: 0 <= j < |cut[i]| ==> cut[i][j] == lines[i][j];
    }
    assert seq(|lines|, i requires 0 <= i < |lines| => StripLineComments(lines[i])) == cut;
    SplitJoin(cut, '\n');
  }

  /** Where no block comment is deleted the block pass keeps the first character. */
  lemma BlockPassStep(s: string)
    requires |s| > 0
    requires !BlockOpensAt(s, 0) || |s| < 2 || CloseAt(s, 2).None?
    ensures StripBlockComments(s) == [s[0]] + StripBlockComments(s[1..])
  {
  }

  // Text with no `/*` starting before `|a|` is kept up to there.
  lemma {:induction false} BlockPassKeeps(a: string, x: string)
    requires forall p :: 0 <= p < |a| ==> !BlockOpensAt(a + x, p)
    ensures StripBlockComments(a + x) == a + StripBlockComments(x)
    decreases |a|
  {
    if |a| > 0 {
      var s := a + x;
      assert !BlockOpensAt(s, 0);
      BlockPassStep(s);
      forall p | 0 <= p < |a| - 1
        ensures !BlockOpensAt(a[1..] + x, p)
      {
        assert !BlockOpensAt(s, p + 1);
      }
      assert s[1..] == a[1..] + x;
      BlockPassKeeps(a[1..], x);
      assert s[0] == a[0];
      assert a == [a[0]] + a[1..];
    } else {
      assert a + x == x;
    }
  }

  // Text with no `/*` of its own, followed by a `/`, opens no block before
  // that `/`.
  lemma NoOpenerBefore(a: string, x: string)
    requires NoBlockOpener(a)
    requires |x| > 0 && x[0] == '/'
    ensures forall p :: 0 <= p < |a| ==> !BlockOpensAt(a + x, p)
  {
    forall p | 0 <= p < |a|
      ensures !BlockOpensAt(a + x, p)
    {
      if p + 1 < |a| {
        assert !BlockOpensAt(a, p);
      } else {
        assert (a + x)[p + 1] == '/';
      }
    }
  }

  // The block pass deletes the leftmost `/*` through the nearest `*/` after
  // it, across lines, and carries on after it.
  lemma BlockPassRemoves(a: string, m: string, b: string)
    requires NoBlockOpener(a) && NoBlockCloser(m)
    ensures StripBlockComments(a + "/*" + m + "*/" + b) == a + StripBlockComments(b)
  {
    var x := "/*" + m + "*/" + b;
    assert a + "/*" + m + "*/" + b == a + x;
    NoOpenerBefore(a, x);
    BlockPassKeeps(a, x);
    var c := 2 + |m|;
    ClosesFirstAt(x, m, b);
    assert BlockOpensAt(x, 0);
    assert x[c + 2..] == b;
  }

  /** In `"/*" + m + "*/" + b`, with `m` holding no closer, the first closer after the opener ends `m`. */
  lemma ClosesFirstAt(x: string, m: string, b: string)
    requires x == "/*" + m + "*/" + b
    requires NoBlockCloser(m)
    ensures CloseAt(x, 2) == Some(2 + |m|)
  {
    var c := 2 + |m|;
    assert BlockClosesAt(x, c);
    forall j | 2 <= j < c
      ensures !BlockClosesAt(x, j)
    {
      if j + 1 < c {
        assert !BlockClosesAt(m, j - 2);
      } else {
        assert x[j + 1] == '*';
      }
    }
  }

  // Without a `*/` anywhere the block pass changes nothing.
  lemma {:induction false} BlockPassWithoutCloser(t: string)
    requires NoBlockCloser(t)
    ensures StripBlockComments(t) == t
    decreases |t|
  {
    if |t| > 0 {
      assert |t| < 2 || CloseAt(t, 2).None?;
      BlockPassStep(t);
      assert NoBlockCloser(t[1..]) by {
        forall p | 0 <= p < |t[1..]|
          ensures !BlockClosesAt(t[1..], p)
        {
          assert !BlockClosesAt(t, p + 1);
        }
      }
      BlockPassWithoutCloser(t[1..]);
      assert t == [t[0]] + t[1..];
    }
  }

  // An opener whose text holds no `*/` is kept, with that text.
  lemma UnterminatedOpener(t: string)
    requires NoBlockCloser(t)
    ensures StripBlockComments("/*" + t) == "/*" + t
  {
    var x := "/*" + t;
    forall j | 2 <= j < |x|
      ensures !BlockClosesAt(x, j)
    {
      assert !BlockClosesAt(t, j - 2);
    }
    assert CloseAt(x, 2).None?;
    BlockPassStep(x);
    var y := x[1..];
    assert y[0] == '*' && y[1..] == t;
    BlockPassStep(y);
    BlockPassWithoutCloser(t);
    assert x == [x[0]] + [y[0]] + t;
  }

  // An unterminated `/*` is kept, with everything after it.
  lemma BlockPassKeepsUnterminated(a: string, t: string)
    requires NoBlockOpener(a) && NoBlockCloser(t)
    ensures StripBlockComments(a + "/*" + t) == a + "/*" + t
  {
    var x := "/*" + t;
    assert a + "/*" + t == a + x;
    NoOpenerBefore(a, x);
    BlockPassKeeps(a, x);
    UnterminatedOpener(t);
  }

  /** Without a `/` neither pass changes anything. */
  lemma {:induction false} NoSlashPassesKeep(s: string)
    requires '/' !in s
    ensures StripLineComments(s) == s
    ensures StripBlockComments(s) == s
    decreases |s|
  {
    if |s| > 0 {
      assert s[0] != '/';
      NoSlashPassesKeep(s[1..]);
      assert s == [s[0]] + s[1..];
    }
  }

  /** Content without a `/` is only trimmed. */
  lemma NoSlashOnlyTrims(content: string, language: string)
    requires language == "go" || language == "javascript"
    requires '/' !in content
    ensures StripComments(content, language) == Stripped(TrimSpace(content))
  {
    NoSlashPassesKeep(content);
  }

  /** Where the line pass of `"/* a // b */ c"` stops. */
  lemma SampleLineCut()
    ensures StripLineComments("/* a // b */ c") == "/* a "
  {
    var line := "/* a // b */ c";
    assert LineOpensAt(line, 5);
    assert CommentStart(line, 0) == 5 by {
      assert !LineOpensAt(line, 0) && !LineOpensAt(line, 1) && !LineOpensAt(line, 2);
      assert !LineOpensAt(line, 3) && !LineOpensAt(line, 4);
    }
    LinePassOnLine(line, 0);
    assert line[0..] == line;
    assert line[0..5] == "/* a ";
  }

  /**
   * The line pass runs first, so a `//` inside a block comment cuts the
   * block's own closing away and the opener survives.
   */
  lemma LineCommentInsideBlock()
    ensures StripComments("/* a // b */ c", "go") == Stripped("/* a")
  {
    SampleLineCut();
    BlockPassKeepsUnterminated("", " a ");
    assert "" + "/*" + " a " == "/* a ";
    SampleTrim();
  }

  /** Trimming what the block pass leaves of the sample drops its final space. */
  lemma SampleTrim()
    ensures TrimSpace("/* a ") == "/* a"
  {
    var s := "/* a ";
    assert SkipSpaces(s, 0) == 0;
    assert SkipSpacesBack(s, 0, 4) == 4;
    assert SkipSpacesBack(s, 0, 5) == 4;
    assert s[0..4] == "/* a";
  }
}
