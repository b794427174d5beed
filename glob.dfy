/**
 * A glob engine standing in for the two library matchers the core calls:
 * `filepath.Match` (one segment per `/`-separated part, no `**`) and
 * `doublestar.Match` (the same, plus a whole segment `**` that spans zero or
 * more path segments).  Within a segment: a literal, `?` (one character),
 * `*` (any run of characters), `\x` (the character x) and a class `[...]`
 * of characters and ranges, negated by a leading `^`.
 * A character here is one byte of the string; the libraries let `?` and a
 * class consume one UTF-8 encoded rune instead.  The pattern is split at
 * every `/` before it is read, so an escaped `\/` is not a literal `/`.
 * A malformed pattern (a trailing `\`, an unterminated or empty class) does
 * not parse: both libraries then report `ErrBadPattern`.
 */
module Glob {
  import opened Wrappers
  import opened Text

  datatype CharRange = CharRange(lo: char, hi: char)

  datatype Token =
    | Lit(c: char)
    | AnyChar
    | Star
    | Class(negated: bool, ranges: seq<CharRange>)

  /** A `/`-separated part of a pattern: `**` or a run of tokens. */
  datatype Segment = GlobStar | Seg(tokens: seq<Token>)

  /** The error both libraries return for a malformed pattern. */
  datatype BadPattern = ErrBadPattern

  /** One character of a class, possibly escaped; `-` and `]` may not start one. */
  function ClassChar(q: string): (r: Option<(char, string)>)
    ensures r.Some? ==> |r.value.1| < |q| && |r.value.1| > 0
  {
    if |q| == 0 || q[0] == '-' || q[0] == ']' then None
    else if q[0] == '\\' then
      if |q| < 3 then None else Some((q[1], q[2..]))
    else if |q| < 2 then None
    else Some((q[0], q[1..]))
  }

  /** The ranges of a class up to its closing `]`, and what follows it. */
  function ClassRanges(q: string, acc: seq<CharRange>): (r: Option<(seq<CharRange>, string)>)
    ensures r.Some? ==> |r.value.1| < |q| && |r.value.0| > 0
    decreases |q|
  {
    if |q| > 0 && q[0] == ']' && |acc| > 0 then Some((acc, q[1..]))
    else
      match ClassChar(q)
      case None => None
      case Some((lo, q1)) =>
        if q1[0] == '-' then
          match ClassChar(q1[1..])
          case None => None
          case Some((hi, q2)) => ClassRanges(q2, acc + [CharRange(lo, hi)])
        else ClassRanges(q1, acc + [CharRange(lo, lo)])
  }

  /** The tokens of one pattern segment, or None when it is malformed. */
  function Tokens(p: string): Option<seq<Token>>
    decreases |p|
  {
    if |p| == 0 then Some([])
    else
      var head: Option<(Token, string)> :=
        if p[0] == '*' then Some((Star, p[1..]))
        else if p[0] == '?' then Some((AnyChar, p[1..]))
        else if p[0] == '\\' then (if |p| < 2 then None else Some((Lit(p[1]), p[2..])))
        else if p[0] == '[' then
          var negated := |p| > 1 && p[1] == '^';
          match ClassRanges(p[if negated then 2 else 1..], [])
          case None => None
          case Some((rs, rest)) => Some((Class(negated, rs), rest))
        else Some((Lit(p[0]), p[1..]));
      match head
      case None => None
      case Some((t, rest)) =>
        match Tokens(rest)
        case None => None
        case Some(ts) => Some([t] + ts)
  }

  predicate IsMeta(ch: char) {
    ch == '*' || ch == '?' || ch == '\\' || ch == '['
  }

  function Lits(lit: string): (ts: seq<Token>)
    ensures |ts| == |lit| && forall i :: 0 <= i < |lit| ==> ts[i] == Lit(lit[i])
  {
    seq(|lit|, i requires 0 <= i < |lit| => Lit(lit[i]))
  }

  /** Text without `*`, `?`, `\` or `[` reads as literal tokens. */
  lemma {:induction false} TokensOfLiteral(lit: string)
    requires forall i :: 0 <= i < |lit| ==> !IsMeta(lit[i])
    ensures Tokens(lit) == Some(Lits(lit))
  {
    if |lit| > 0 {
      TokensOfLiteral(lit[1..]);
      assert Lits(lit) == [Lit(lit[0])] + Lits(lit[1..]);
    }
  }

  /** `*` followed by literal text reads as `Star` and the literal tokens. */
  lemma TokensOfStarLiteral(lit: string)
    requires forall i :: 0 <= i < |lit| ==> !IsMeta(lit[i])
    ensures Tokens("*" + lit) == Some([Star] + Lits(lit))
  {
    assert ("*" + lit)[1..] == lit;
    TokensOfLiteral(lit);
  }

  predicate InRanges(ch: char, rs: seq<CharRange>) {
    exists i :: 0 <= i < |rs| && rs[i].lo <= ch <= rs[i].hi
  }

  /** Whether the tokens match the whole of one segment `s`. */
  predicate SegMatch(ts: seq<Token>, s: string)
    decreases |ts|, |s|
  {
    if |ts| == 0 then |s| == 0
    else match ts[0]
      case Star => SegMatch(ts[1..], s) || (|s| > 0 && SegMatch(ts, s[1..]))
      case AnyChar => |s| > 0 && SegMatch(ts[1..], s[1..])
      case Lit(c) => |s| > 0 && s[0] == c && SegMatch(ts[1..], s[1..])
      case Class(negated, rs) => |s| > 0 && InRanges(s[0], rs) != negated && SegMatch(ts[1..], s[1..])
  }

  /** The segments of a pattern; `**` is special only when `globstar` is set. */
  function Segments(parts: seq<string>, globstar: bool): Option<seq<Segment>>
  {
    if |parts| == 0 then Some([])
    else
      var head: Option<Segment> :=
        if globstar && parts[0] == "**" then Some(GlobStar)
        else match Tokens(parts[0]) case None => None case Some(ts) => Some(Seg(ts));
      match head
      case None => None
      case Some(h) =>
        match Segments(parts[1..], globstar)
        case None => None
        case Some(rest) => Some([h] + rest)
  }

  /** How a pattern's first part and the rest combine. */
  lemma SegmentsCons(parts: seq<string>, globstar: bool, head: Segment, tail: seq<Segment>)
    requires |parts| > 0
    requires if globstar && parts[0] == "**" then head == GlobStar else head.Seg? && Tokens(parts[0]) == Some(head.tokens)
    requires Segments(parts[1..], globstar) == Some(tail)
    ensures Segments(parts, globstar) == Some([head] + tail)
  {
  }

  /** Whether the pattern segments match the path segments, `**` spanning any number of them. */
  predicate PathMatch(ps: seq<Segment>, names: seq<string>)
    decreases |ps|, |names|
  {
    if |ps| == 0 then |names| == 0
    else match ps[0]
      case GlobStar => PathMatch(ps[1..], names) || (|names| > 0 && PathMatch(ps, names[1..]))
      case Seg(ts) => |names| > 0 && SegMatch(ts, names[0]) && PathMatch(ps[1..], names[1..])
  }

  /** `**` followed by one segment pattern: that segment must match the last path segment. */
  lemma {:induction false} GlobStarThenSeg(ts: seq<Token>, names: seq<string>)
    ensures PathMatch([GlobStar, Seg(ts)], names) <==> |names| > 0 && SegMatch(ts, names[|names| - 1])
    decreases |names|
  {
    assert [GlobStar, Seg(ts)][1..] == [Seg(ts)];
    assert [Seg(ts)][1..] == [];
    if |names| > 0 {
      assert PathMatch([Seg(ts)], names) <==> |names| == 1 && SegMatch(ts, names[0]);
      GlobStarThenSeg(ts, names[1..]);
      if |names| > 1 {
        assert names[1..][|names[1..]| - 1] == names[|names| - 1];
      }
    }
  }

  /** `doublestar.Match(pattern, name)`. */
  function DoublestarMatch(pattern: string, name: string): Result<bool, BadPattern> {
    match Segments(Split(pattern, '/'), true)
    case None => Err(ErrBadPattern)
    case Some(ps) => Ok(PathMatch(ps, Split(name, '/')))
  }

  /** `filepath.Match(pattern, name)`. */
  function FilepathMatch(pattern: string, name: string): Result<bool, BadPattern> {
    match Segments(Split(pattern, '/'), false)
    case None => Err(ErrBadPattern)
    case Some(ps) => Ok(PathMatch(ps, Split(name, '/')))
  }

  /** Without `**`, a pattern matches only paths with exactly as many segments. */
  lemma {:induction false} NoGlobStarSameCount(ps: seq<Segment>, names: seq<string>)
    requires forall i :: 0 <= i < |ps| ==> ps[i].Seg?
    requires PathMatch(ps, names)
    ensures |ps| == |names|
  {
    if |ps| > 0 {
      NoGlobStarSameCount(ps[1..], names[1..]);
    }
  }

  lemma {:induction false} NoGlobStarSegments(parts: seq<string>, ps: seq<Segment>)
    requires Segments(parts, false) == Some(ps)
    ensures |ps| == |parts|
    ensures forall i :: 0 <= i < |ps| ==> ps[i].Seg?
  {
    if |parts| > 0 {
      var rest :| Segments(parts[1..], false) == Some(rest) && ps == [ps[0]] + rest;
      NoGlobStarSegments(parts[1..], rest);
    }
  }

  /**
   * `filepath.Match` never matches a name with a different number of
   * `/`-separated parts than the pattern.
   */
  lemma FilepathMatchSameCount(pattern: string, name: string)
    requires FilepathMatch(pattern, name) == Ok(true)
    ensures |Split(pattern, '/')| == |Split(name, '/')|
  {
    var ps := Segments(Split(pattern, '/'), false).value;
    NoGlobStarSegments(Split(pattern, '/'), ps);
    NoGlobStarSameCount(ps, Split(name, '/'));
  }
}
