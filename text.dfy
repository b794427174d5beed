/**
 * The handful of Go `strings` operations the core relies on, over strings
 * modelled as one `char` per byte.  `Split` and `Join` take a one-character
 * separator, which is all the core ever uses ("\n", "/" and ",").
 * `ToLower` and `TrimSpace` are the ASCII cases of Go's Unicode-aware
 * functions.
 */
module Text {

  /** `strings.HasPrefix`. */
  predicate HasPrefix(s: string, p: string) {
    |p| <= |s| && s[..|p|] == p
  }

  /** `strings.HasSuffix`. */
  predicate HasSuffix(s: string, p: string) {
    |p| <= |s| && s[|s| - |p|..] == p
  }

  /** `strings.Contains`: `sub` occurs somewhere in `s`. */
  predicate Contains(s: string, sub: string) {
    exists i :: 0 <= i <= |s| && HasPrefix(s[i..], sub)
  }

  /** `strings.Split(s, string(c))`: the parts between the occurrences of `c`. */
  function Split(s: string, c: char): (parts: seq<string>)
    ensures |parts| >= 1
    ensures forall i :: 0 <= i < |parts| ==> c !in parts[i]
    decreases |s|
  {
    if |s| == 0 then [""]
    else if s[0] == c then [""] + Split(s[1..], c)
    else
      var rest := Split(s[1..], c);
      [[s[0]] + rest[0]] + rest[1..]
  }

  /** `strings.Join(parts, string(c))`. */
  function Join(parts: seq<string>, c: char): string
  {
    if |parts| == 0 then ""
    else if |parts| == 1 then parts[0]
    else parts[0] + [c] + Join(parts[1..], c)
  }

  lemma {:induction false} JoinCons(a: string, rest: seq<string>, c: char)
    requires |rest| >= 1
    ensures Join([a] + rest, c) == a + [c] + Join(rest, c)
  {
    assert ([a] + rest)[1..] == rest;
  }

  /** Appending a part adds one separator and the part at the end. */
  lemma {:induction false} JoinSnoc(parts: seq<string>, x: string, c: char)
    requires |parts| >= 1
    ensures Join(parts + [x], c) == Join(parts, c) + [c] + x
    decreases |parts|
  {
    if |parts| == 1 {
      assert (parts + [x])[1..] == [x];
    } else {
      JoinSnoc(parts[1..], x, c);
      assert (parts + [x])[1..] == parts[1..] + [x];
    }
  }

  /** Joining the parts of a split gives back the string. */
  lemma {:induction false} JoinSplit(s: string, c: char)
    ensures Join(Split(s, c), c) == s
    decreases |s|
  {
    if |s| > 0 {
      JoinSplit(s[1..], c);
      if s[0] == c {
        JoinCons("", Split(s[1..], c), c);
        assert s == [c] + s[1..];
      } else {
        JoinSplitStep(s, c);
      }
    }
  }

  /** The step of `JoinSplit` for a string that starts with a byte other than `c`. */
  lemma JoinSplitStep(s: string, c: char)
    requires |s| > 0 && s[0] != c
    requires Join(Split(s[1..], c), c) == s[1..]
    ensures Join(Split(s, c), c) == s
  {
    var rest := Split(s[1..], c);
    assert Split(s, c) == [[s[0]] + rest[0]] + rest[1..];
    assert s == [s[0]] + s[1..];
    if |rest| > 1 {
      JoinCons([s[0]] + rest[0], rest[1..], c);
      JoinCons(rest[0], rest[1..], c);
      assert rest == [rest[0]] + rest[1..];
    }
  }

  /** Splitting `a + c + b`, with no `c` in `a`, gives `a` then the parts of `b`. */
  lemma {:induction false} SplitAfter(a: string, b: string, c: char)
    requires c !in a
    ensures Split(a + [c] + b, c) == [a] + Split(b, c)
    decreases |a|
  {
    var s := a + [c] + b;
    if |a| == 0 {
      assert s[1..] == b;
    } else {
      assert s[1..] == a[1..] + [c] + b;
      SplitAfter(a[1..], b, c);
      assert [s[0]] + a[1..] == a;
    }
  }

  /** A trailing separator adds one (empty) part. */
  lemma {:induction false} SplitAppendSeparator(p: string, c: char)
    ensures |Split(p + [c], c)| == |Split(p, c)| + 1
    decreases |p|
  {
    if |p| > 0 {
      assert (p + [c])[1..] == p[1..] + [c];
      SplitAppendSeparator(p[1..], c);
    } else {
      assert (p + [c])[1..] == [];
    }
  }

  /** A string without `c` splits into itself. */
  lemma {:induction false} SplitNone(a: string, c: char)
    requires c !in a
    ensures Split(a, c) == [a]
    decreases |a|
  {
    if |a| > 0 {
      SplitNone(a[1..], c);
      assert [a[0]] + a[1..] == a;
    }
  }

  /** Splitting a join of parts free of `c` gives back the parts. */
  lemma {:induction false} SplitJoin(parts: seq<string>, c: char)
    requires |parts| >= 1
    requires forall i :: 0 <= i < |parts| ==> c !in parts[i]
    ensures Split(Join(parts, c), c) == parts
  {
    if |parts| == 1 {
      SplitNone(parts[0], c);
    } else {
      SplitJoin(parts[1..], c);
      SplitAfter(parts[0], Join(parts[1..], c), c);
      assert parts == [parts[0]] + parts[1..];
    }
  }

  /** A string splits into more than one part, the first being `a`, exactly when it starts with `a` and `c`. */
  lemma {:induction false} SplitFirst(s: string, a: string, c: char)
    requires c !in a
    ensures (|Split(s, c)| >= 2 && Split(s, c)[0] == a) <==> HasPrefix(s, a + [c])
    decreases |s|
  {
    if |s| > 0 && s[0] != c {
      var rest := Split(s[1..], c);
      if |a| > 0 {
        SplitFirst(s[1..], a[1..], c);
        assert (a + [c])[1..] == a[1..] + [c];
        assert a == [a[0]] + a[1..];
      }
    }
  }

  /** Only the last part of a split can end in a suffix free of `c`, and it does exactly when the whole string does. */
  lemma SplitManyHasSeparator(x: string, c: char)
    requires |Split(x, c)| >= 2
    ensures c in x
  {
    var parts := Split(x, c);
    JoinSplit(x, c);
    JoinCons(parts[0], parts[1..], c);
    assert parts == [parts[0]] + parts[1..];
    assert x[|parts[0]|] == c;
  }

  /** Dropping the first byte keeps a suffix that the whole string has without being it. */
  lemma SuffixDropFirst(s: string, suffix: string, c: char)
    requires |s| > 0 && c in s && c !in suffix
    ensures HasSuffix(s[1..], suffix) <==> HasSuffix(s, suffix)
  {
    if |suffix| <= |s| - 1 {
      assert s[|s| - |suffix|..] == s[1..][|s[1..]| - |suffix|..];
    } else if |suffix| == |s| {
      assert s[|s| - |suffix|..] == s;
    }
  }

  lemma {:induction false} SplitLast(s: string, suffix: string, c: char)
    requires c !in suffix
    ensures HasSuffix(Split(s, c)[|Split(s, c)| - 1], suffix) <==> HasSuffix(s, suffix)
    decreases |s|
  {
    if |s| > 0 {
      var rest := Split(s[1..], c);
      if s[0] != c && |rest| == 1 {
        JoinSplit(s[1..], c);
        assert [s[0]] + rest[0] == s;
      } else {
        SplitLast(s[1..], suffix, c);
        assert Split(s, c)[|Split(s, c)| - 1] == rest[|rest| - 1];
        if s[0] != c {
          SplitManyHasSeparator(s[1..], c);
          assert c in s;
        }
        SuffixDropFirst(s, suffix, c);
      }
    }
  }

  /** The white-space bytes of Go's `unicode.IsSpace` below 0x80. */
  predicate IsSpace(ch: char) {
    ch == ' ' || ch == '\t' || ch == '\n' || ch == '\r' || ch == '\U{B}' || ch == '\U{C}'
  }

  /** The index of the first byte at or after `i` that is not white space. */
  function SkipSpaces(s: string, i: nat): (j: nat)
    requires i <= |s|
    ensures i <= j <= |s|
    ensures forall k :: i <= k < j ==> IsSpace(s[k])
    ensures j < |s| ==> !IsSpace(s[j])
    decreases |s| - i
  {
    if i < |s| && IsSpace(s[i]) then SkipSpaces(s, i + 1) else i
  }

  /** The index just past the last byte before `j`, and not before `lo`, that is not white space. */
  function SkipSpacesBack(s: string, lo: nat, j: nat): (i: nat)
    requires lo <= j <= |s|
    ensures lo <= i <= j
    ensures forall k :: i <= k < j ==> IsSpace(s[k])
    ensures i > lo ==> !IsSpace(s[i - 1])
    decreases j
  {
    if j > lo && IsSpace(s[j - 1]) then SkipSpacesBack(s, lo, j - 1) else j
  }

  /** Where the text of `s` starts and ends once trimmed. */
  function TrimStart(s: string): nat
    ensures TrimStart(s) <= |s|
  {
    SkipSpaces(s, 0)
  }

  function TrimEnd(s: string): nat
    ensures TrimStart(s) <= TrimEnd(s) <= |s|
  {
    SkipSpacesBack(s, TrimStart(s), |s|)
  }

  /** `strings.TrimSpace`: drops leading and trailing white space and nothing else. */
  function TrimSpace(s: string): (r: string)
    ensures r == s[TrimStart(s)..TrimEnd(s)]
    ensures forall k :: 0 <= k < TrimStart(s) ==> IsSpace(s[k])
    ensures forall k :: TrimEnd(s) <= k < |s| ==> IsSpace(s[k])
    ensures |r| > 0 ==> !IsSpace(r[0]) && !IsSpace(r[|r| - 1])
    ensures |r| == 0 ==> forall k :: 0 <= k < |s| ==> IsSpace(s[k])
  {
    s[TrimStart(s)..TrimEnd(s)]
  }

  /** A string already free of leading and trailing white space is left alone. */
  lemma TrimSpaceKeeps(s: string)
    requires |s| > 0 ==> !IsSpace(s[0]) && !IsSpace(s[|s| - 1])
    ensures TrimSpace(s) == s
  {
  }

  /** ASCII `unicode.ToLower`. */
  function Lower(ch: char): (r: char)
    ensures 'A' <= ch <= 'Z' ==> 'a' <= r <= 'z' && r as int == ch as int + 32
    ensures !('A' <= ch <= 'Z') ==> r == ch
  {
    if 'A' <= ch <= 'Z' then (ch as int + 32) as char else ch
  }

  /** ASCII `strings.ToLower`. */
  function ToLower(s: string): (r: string)
    ensures |r| == |s|
    ensures forall i :: 0 <= i < |s| ==> r[i] == Lower(s[i])
  {
    seq(|s|, i requires 0 <= i < |s| => Lower(s[i]))
  }

  lemma ToLowerConcat(a: string, b: string)
    ensures ToLower(a + b) == ToLower(a) + ToLower(b)
  {
    var l, r := ToLower(a + b), ToLower(a) + ToLower(b);
    assert |l| == |r|;
    forall i | 0 <= i < |l|
      ensures l[i] == r[i]
    {
      if i < |a| {
        assert (a + b)[i] == a[i];
      } else {
        assert (a + b)[i] == b[i - |a|];
      }
    }
  }

  /** Lowering twice is lowering once. */
  lemma ToLowerIdempotent(s: string)
    ensures ToLower(ToLower(s)) == ToLower(s)
  {
  }
}
