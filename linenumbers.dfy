/**
 * `AddLineNumbers` (internal/processor/linenumbers/processor.go): every
 * `"\n"`-separated line of the content is prefixed with its 1-based number,
 * right-aligned to the digit count of the number of lines, and `" | "`.
 */
module LineNumbers {
  import opened Text
  import opened Decimal

  /** The width of the number column for `n` lines: the digit count of `n`. */
  function Width(n: nat): nat {
    |Itoa(n)|
  }

  /** The prefix of line number `k` in a column of width `w`: `fmt.Sprintf("%*d | ", w, k)`. */
  function Prefix(k: nat, w: nat): string {
    FormatWidth(k, w) + " | "
  }

  /** The lines of the content with their prefixes, in order. */
  function NumberedLines(lines: seq<string>): (r: seq<string>)
    ensures |r| == |lines|
  {
    seq(|lines|, i requires 0 <= i < |lines| => Prefix(i + 1, Width(|lines|)) + lines[i])
  }

  /** What `AddLineNumbers` returns for `content`. */
  function Numbered(content: string): string {
    Join(NumberedLines(Split(content, '\n')), '\n')
  }

  /**
   * `AddLineNumbers`: the numbered lines are written one by one, with a
   * newline after every line but the last.
   */
  method AddLineNumbers(content: string) returns (r: string)
    ensures r == Numbered(content)
  {
    var lines := Split(content, '\n');
    var width := |Itoa(|lines|)|;
    ghost var numbered := NumberedLines(lines);
    var result := "";
    for i := 0 to |lines|
      invariant result == Join(numbered[..i], '\n') + (if 0 < i < |lines| then "\n" else "")
    {
      var line := FormatWidth(i + 1, width) + " | " + lines[i];
      assert width == Width(|lines|);
      assert numbered[i] == Prefix(i + 1, width) + lines[i];
      JoinPrefixStep(numbered, i);
      result := result + line;
      if i < |lines| - 1 {
        result := result + "\n";
      }
    }
    assert numbered[..|lines|] == numbered;
    r := result;
  }

  /** Joining one more part of `parts` adds a separator, unless it is the first, and the part. */
  lemma JoinPrefixStep(parts: seq<string>, i: nat)
    requires i < |parts|
    ensures Join(parts[..i + 1], '\n') == Join(parts[..i], '\n') + (if i > 0 then "\n" else "") + parts[i]
  {
    assert parts[..i + 1] == parts[..i] + [parts[i]];
    if i > 0 {
      JoinSnoc(parts[..i], parts[i], '\n');
    } else {
      assert parts[..1] == [parts[0]];
    }
  }

  /** A prefix holds only spaces, digits and `" | "`, so never a newline. */
  lemma PrefixHasNoNewline(k: nat, w: nat)
    ensures '\n' !in Prefix(k, w)
  {
    var s := Itoa(k);
    var f := FormatWidth(k, w);
    forall j | 0 <= j < |f|
      ensures f[j] != '\n'
    {
      if j >= |f| - |s| {
        assert f[j] == f[|f| - |s|..][j - (|f| - |s|)];
        assert IsDigit(s[j - (|f| - |s|)]);
      }
    }
  }

  /**
   * Line `k` of `n` reads back as `k`: `w - |Itoa(k)|` spaces, the digits of
   * `k`, then `" | "`, `w + 3` characters in all.
   */
  lemma PrefixShape(k: nat, n: nat)
    requires 1 <= k <= n
    ensures |Prefix(k, Width(n))| == Width(n) + 3
    ensures Prefix(k, Width(n))[Width(n)..] == " | "
    ensures forall j :: 0 <= j < Width(n) - |Itoa(k)| ==> Prefix(k, Width(n))[j] == ' '
    ensures Value(Prefix(k, Width(n))[Width(n) - |Itoa(k)|..Width(n)]) == k
  {
    var w := Width(n);
    ItoaLengthMonotone(k, n);
    var f := FormatWidth(k, w);
    assert Prefix(k, w)[..w] == f;
    assert Prefix(k, w)[w - |Itoa(k)|..w] == Itoa(k);
    ValueItoa(k);
  }

  /** A numbered line holds a newline only where the line itself does. */
  lemma NumberedLineHasNoNewline(lines: seq<string>, i: nat)
    requires i < |lines| && '\n' !in lines[i]
    ensures '\n' !in NumberedLines(lines)[i]
  {
    PrefixHasNoNewline(i + 1, Width(|lines|));
    assert NumberedLines(lines)[i] == Prefix(i + 1, Width(|lines|)) + lines[i];
  }

  /**
   * The output lines are exactly the numbered input lines: as many lines as
   * the input, separators only between them, line `i` being the prefix of
   * number `i + 1` followed by input line `i`.
   */
  lemma NumberedSplits(content: string)
    ensures Split(Numbered(content), '\n') == NumberedLines(Split(content, '\n'))
  {
    var lines := Split(content, '\n');
    var out := NumberedLines(lines);
    forall i | 0 <= i < |out|
      ensures '\n' !in out[i]
    {
      NumberedLineHasNoNewline(lines, i);
    }
    SplitJoin(out, '\n');
  }

  /** The prefix of the only line of a one-line content. */
  lemma SingleLinePrefix()
    ensures Prefix(1, Width(1)) == "1 | "
  {
    assert Itoa(1) == "1";
    assert PadLeft("1", 1, ' ') == "1";
  }

  /** Empty content becomes the single line `"1 | "`. */
  lemma EmptyContent()
    ensures Numbered("") == "1 | "
  {
    assert Split("", '\n') == [""];
    SingleLinePrefix();
    var out := NumberedLines([""]);
    assert out[0] == Prefix(1, Width(1)) + "" == "1 | ";
    assert out == ["1 | "];
  }

  /** The prefix of every line of `n` has the same length, `Width(n) + 3`. */
  lemma PrefixLength(k: nat, n: nat)
    requires 1 <= k <= n
    ensures |Prefix(k, Width(n))| == Width(n) + 3
  {
    ItoaLengthMonotone(k, n);
  }

  /** Dropping the first `Width(|lines|) + 3` characters of each numbered line gives the line. */
  lemma Unnumber(lines: seq<string>, i: nat)
    requires i < |lines|
    ensures |NumberedLines(lines)[i]| >= Width(|lines|) + 3
    ensures NumberedLines(lines)[i][Width(|lines|) + 3..] == lines[i]
  {
    PrefixLength(i + 1, |lines|);
  }

  /**
   * Dropping the first `w + 3` characters of every output line, `w` being
   * the width for that many lines, and rejoining gives back the content.
   */
  lemma StripNumbers(content: string)
    ensures var out := Split(Numbered(content), '\n');
      forall i :: 0 <= i < |out| ==> |out[i]| >= Width(|out|) + 3
    ensures var out := Split(Numbered(content), '\n');
      Join(seq(|out|, i requires 0 <= i < |out| => out[i][Width(|out|) + 3..]), '\n') == content
  {
    var lines := Split(content, '\n');
    NumberedSplits(content);
    var out := NumberedLines(lines);
    forall i | 0 <= i < |out|
      ensures |out[i]| >= Width(|out|) + 3 && out[i][Width(|out|) + 3..] == lines[i]
    {
      Unnumber(lines, i);
    }
    var stripped := seq(|out|, i requires 0 <= i < |out| => out[i][Width(|out|) + 3..]);
    assert stripped == lines;
    JoinSplit(content, '\n');
  }
}
