/**
 * Go's `path/filepath` on a Unix host, where the separator is `/` and
 * `ToSlash` is the identity: `Base`, `Ext`, `Dir`, `Clean`, `Join` and `Rel`.
 */
module Paths {
  import opened Wrappers
  import opened Text

  /** The index of the last `/` in `p`, or -1. */
  function LastSlash(p: string): (i: int)
    ensures -1 <= i < |p|
    ensures i >= 0 ==> p[i] == '/'
    ensures forall j :: i < j < |p| ==> p[j] != '/'
  {
    if |p| == 0 then -1 else if p[|p| - 1] == '/' then |p| - 1 else LastSlash(p[..|p| - 1])
  }

  function StripTrailingSlashes(p: string): (q: string)
    ensures |q| <= |p| && q == p[..|q|]
    ensures |q| > 0 ==> q[|q| - 1] != '/'
    ensures forall j :: |q| <= j < |p| ==> p[j] == '/'
  {
    if |p| > 0 && p[|p| - 1] == '/' then StripTrailingSlashes(p[..|p| - 1]) else p
  }

  /** `filepath.Base`: the last element; "." for "", "/" for a path of slashes only. */
  function Base(p: string): (b: string)
    ensures |b| > 0
    ensures b == "/" || '/' !in b
    ensures b == "/" <==> (|p| > 0 && forall j :: 0 <= j < |p| ==> p[j] == '/')
  {
    if p == "" then "."
    else
      var q := StripTrailingSlashes(p);
      if q == "" then "/"
      else
        var b := q[LastSlash(q) + 1..];
        assert b[|b| - 1] == q[|q| - 1];
        b
  }

  /** A name without `/` is its own base. */
  lemma BaseOfName(name: string)
    requires |name| > 0 && '/' !in name
    ensures Base(name) == name
  {
    BaseOfChild("", name);
    assert "" + name == name;
  }

  /** The base of `dir + name`, for a name without `/`, is the name. */
  lemma BaseOfChild(dir: string, name: string)
    requires |name| > 0 && '/' !in name
    requires dir == "" || dir[|dir| - 1] == '/'
    ensures Base(dir + name) == name
  {
    var p := dir + name;
    assert StripTrailingSlashes(p) == p;
    if |dir| > 0 {
      assert p[|dir| - 1] == '/';
      assert LastSlash(p) == |dir| - 1 by {
        var i := LastSlash(p);
        assert forall j :: |dir| <= j < |p| ==> p[j] == name[j - |dir|];
      }
    } else {
      assert p == name;
    }
    assert p[LastSlash(p) + 1..] == name;
  }

  /**
   * `filepath.Ext`: the suffix from the final `.` of the final element,
   * or "" when that element has no `.`.
   */
  function Ext(p: string): (e: string)
    ensures e == "" || (e[0] == '.' && HasSuffix(p, e) && '/' !in e && '.' !in e[1..])
    ensures e == "" ==> forall j :: LastSlash(p) < j < |p| ==> p[j] != '.'
  {
    if |p| == 0 || p[|p| - 1] == '/' then ""
    else if p[|p| - 1] == '.' then "."
    else
      var e := Ext(p[..|p| - 1]);
      if e == "" then "" else e + [p[|p| - 1]]
  }

  /** Lexical resolution of `..` elements, as `filepath.Clean` does it. */
  function Resolve(es: seq<string>, rooted: bool, stack: seq<string>): seq<string>
    decreases |es|
  {
    if |es| == 0 then stack
    else if es[0] == ".." then
      if |stack| > 0 && stack[|stack| - 1] != ".." then Resolve(es[1..], rooted, stack[..|stack| - 1])
      else if rooted then Resolve(es[1..], rooted, stack)
      else Resolve(es[1..], rooted, stack + [".."])
    else Resolve(es[1..], rooted, stack + [es[0]])
  }

  /** The non-empty elements of `p` other than ".". */
  function Elements(p: string): seq<string> {
    var parts := Split(p, '/');
    Keep(parts)
  }

  function Keep(parts: seq<string>): (r: seq<string>)
    ensures forall i :: 0 <= i < |r| ==> r[i] != "" && r[i] != "." && r[i] in parts
  {
    if |parts| == 0 then []
    else if parts[0] == "" || parts[0] == "." then Keep(parts[1..])
    else [parts[0]] + Keep(parts[1..])
  }

  /** A cleaned path: whether it is rooted, and its elements. */
  datatype CleanPath = CleanPath(rooted: bool, elems: seq<string>)

  function Parse(p: string): CleanPath {
    var rooted := |p| > 0 && p[0] == '/';
    CleanPath(rooted, Resolve(Elements(p), rooted, []))
  }

  function Render(c: CleanPath): string {
    if c.rooted then "/" + Join(c.elems, '/')
    else if |c.elems| == 0 then "."
    else Join(c.elems, '/')
  }

  /** `filepath.Clean`. */
  function Clean(p: string): string {
    Render(Parse(p))
  }

  /** `filepath.Join(dir, name)`: empty arguments are dropped, the result is cleaned. */
  function JoinPath(dir: string, name: string): string {
    if dir == "" then Clean(name)
    else if name == "" then Clean(dir)
    else Clean(dir + "/" + name)
  }

  /** `filepath.Dir`: everything up to the last `/`, cleaned. */
  function Dir(p: string): string {
    Clean(p[..LastSlash(p) + 1])
  }

  function CommonPrefix(a: seq<string>, b: seq<string>): (n: nat)
    ensures n <= |a| && n <= |b|
    ensures a[..n] == b[..n]
    ensures n < |a| && n < |b| ==> a[n] != b[n]
  {
    if |a| == 0 || |b| == 0 || a[0] != b[0] then 0
    else
      var n := CommonPrefix(a[1..], b[1..]);
      assert a[..n + 1] == [a[0]] + a[1..][..n];
      assert b[..n + 1] == [b[0]] + b[1..][..n];
      n + 1
  }

  function Ups(k: nat): (r: seq<string>)
    ensures |r| == k
    ensures forall i :: 0 <= i < k ==> r[i] == ".."
  {
    if k == 0 then [] else Ups(k - 1) + [".."]
  }

  /** Why `filepath.Rel` refuses. */
  datatype RelError = CannotMakeRelative

  /**
   * The elements `filepath.Rel` walks in a cleaned target.  The target "."
   * keeps its one element, so `Rel("a", ".")` is "../.", as in Go.
   */
  function TargetElems(t: CleanPath): seq<string> {
    if !t.rooted && |t.elems| == 0 then ["."] else t.elems
  }

  /** After the longest common leading run of elements, `base` goes on with `..`. */
  predicate ClimbsOut(b: seq<string>, t: seq<string>) {
    var n := CommonPrefix(b, t);
    n < |b| && b[n] == ".."
  }

  /**
   * `filepath.Rel(base, targ)`: the path that leads from `base` to `targ`.
   * It fails when one is rooted and the other is not, or when `base` still
   * has a `..` element left after their common prefix.
   */
  function Rel(base: string, targ: string): (r: Result<string, RelError>)
    ensures Clean(base) == Clean(targ) ==> r == Ok(".")
    ensures r.Err? <==>
      (Clean(base) != Clean(targ)
       && (Parse(base).rooted != Parse(targ).rooted || ClimbsOut(Parse(base).elems, TargetElems(Parse(targ)))))
  {
    var b := Parse(base);
    var t := Parse(targ);
    var te := TargetElems(t);
    if Clean(base) == Clean(targ) then Ok(".")
    else if b.rooted != t.rooted then Err(CannotMakeRelative)
    else
      var n := CommonPrefix(b.elems, te);
      if n < |b.elems| && b.elems[n] == ".." then Err(CannotMakeRelative)
      else Ok(Join(Ups(|b.elems| - n) + te[n..], '/'))
  }

  // ---------------------------------------------------------------------
  // The round trip of `Rel`: joining its answer to `base` gives `Clean(targ)`.

  /** One element of a cleaned path: not empty, not ".", without `/`. */
  predicate IsElement(e: string) {
    e != "" && e != "." && '/' !in e
  }

  /**
   * The shape of a cleaned path's elements: a rooted path has no `..`, and in
   * an unrooted one every `..` comes before every other element.
   */
  predicate Resolved(s: seq<string>, rooted: bool) {
    (forall i :: 0 <= i < |s| ==> IsElement(s[i]))
    && (rooted ==> forall i :: 0 <= i < |s| ==> s[i] != "..")
    && (forall i, j :: 0 <= j < i < |s| && s[i] == ".." ==> s[j] == "..")
  }

  /** Resolving elements onto a resolved stack keeps it resolved. */
  lemma {:induction false} ResolveKeepsResolved(es: seq<string>, rooted: bool, stack: seq<string>)
    requires forall i :: 0 <= i < |es| ==> IsElement(es[i])
    requires Resolved(stack, rooted)
    ensures Resolved(Resolve(es, rooted, stack), rooted)
    decreases |es|
  {
    if |es| > 0 {
      var next :=
        if es[0] == ".." then
          if |stack| > 0 && stack[|stack| - 1] != ".." then stack[..|stack| - 1]
          else if rooted then stack
          else stack + [".."]
        else stack + [es[0]];
      assert Resolved(next, rooted);
      ResolveKeepsResolved(es[1..], rooted, next);
    }
  }

  /** The elements `Parse` gives have the shape of a cleaned path. */
  lemma ParseResolved(p: string)
    ensures Resolved(Parse(p).elems, Parse(p).rooted)
  {
    var parts := Split(p, '/');
    var es := Keep(parts);
    assert forall i :: 0 <= i < |es| ==> IsElement(es[i]) by {
      forall i | 0 <= i < |es| ensures IsElement(es[i]) {
        assert es[i] in parts;
      }
    }
    ResolveKeepsResolved(es, |p| > 0 && p[0] == '/', []);
  }

  /** Resolution of a concatenation resolves the first part, then the second onto it. */
  lemma {:induction false} ResolveConcat(x: seq<string>, y: seq<string>, rooted: bool, stack: seq<string>)
    ensures Resolve(x + y, rooted, stack) == Resolve(y, rooted, Resolve(x, rooted, stack))
    decreases |x|
  {
    if |x| > 0 {
      assert (x + y)[0] == x[0];
      assert (x + y)[1..] == x[1..] + y;
      var next :=
        if x[0] == ".." then
          if |stack| > 0 && stack[|stack| - 1] != ".." then stack[..|stack| - 1]
          else if rooted then stack
          else stack + [".."]
        else stack + [x[0]];
      ResolveConcat(x[1..], y, rooted, next);
    } else {
      assert x + y == y;
    }
  }

  /** Resolving the rest of a resolved path onto its beginning gives the path back. */
  lemma {:induction false} ResolveResolved(s: seq<string>, n: nat, rooted: bool)
    requires Resolved(s, rooted) && n <= |s|
    ensures Resolve(s[n..], rooted, s[..n]) == s
    decreases |s| - n
  {
    if n < |s| {
      assert s[n..][0] == s[n];
      assert s[n..][1..] == s[n + 1..];
      assert s[..n] + [s[n]] == s[..n + 1];
      if s[n] == ".." && n > 0 {
        assert s[n - 1] == "..";
      }
      ResolveResolved(s, n + 1, rooted);
    } else {
      assert s[..n] == s;
    }
  }

  /** `k` `..` elements pop `k` elements that are not `..`. */
  lemma {:induction false} ResolveUps(k: nat, rooted: bool, p: seq<string>, q: seq<string>)
    requires |q| == k
    requires forall i :: 0 <= i < |q| ==> q[i] != ".."
    ensures Resolve(Ups(k), rooted, p + q) == p
  {
    if k == 0 {
      assert p + q == p;
    } else {
      var u := Ups(k);
      assert u[0] == "..";
      assert u[1..] == Ups(k - 1);
      var pq := p + q;
      assert pq[|pq| - 1] == q[|q| - 1];
      assert pq[..|pq| - 1] == p + q[..|q| - 1];
      ResolveUps(k - 1, rooted, p, q[..|q| - 1]);
    }
  }

  lemma {:induction false} KeepConcat(x: seq<string>, y: seq<string>)
    ensures Keep(x + y) == Keep(x) + Keep(y)
    decreases |x|
  {
    if |x| > 0 {
      assert (x + y)[0] == x[0];
      assert (x + y)[1..] == x[1..] + y;
      KeepConcat(x[1..], y);
    } else {
      assert x + y == y;
    }
  }

  /** `Keep` leaves a list of elements as it is. */
  lemma {:induction false} KeepElements(s: seq<string>)
    requires forall i :: 0 <= i < |s| ==> IsElement(s[i])
    ensures Keep(s) == s
    decreases |s|
  {
    if |s| > 0 {
      KeepElements(s[1..]);
      assert s == [s[0]] + s[1..];
    }
  }

  /** Splitting at one more separator concatenates the two splits. */
  lemma {:induction false} SplitConcat(a: string, b: string, c: char)
    ensures Split(a + [c] + b, c) == Split(a, c) + Split(b, c)
    decreases |a|
  {
    var s := a + [c] + b;
    if |a| == 0 {
      assert s[1..] == b;
    } else {
      assert s[0] == a[0];
      assert s[1..] == a[1..] + [c] + b;
      SplitConcat(a[1..], b, c);
    }
  }

  /** A join whose first part is not empty starts with that part's first character. */
  lemma JoinStart(parts: seq<string>, c: char)
    requires |parts| >= 1 && |parts[0]| > 0
    ensures |Join(parts, c)| > 0 && Join(parts, c)[0] == parts[0][0]
  {
  }

  /** The walked target elements of a cleaned path are elements or the single ".". */
  lemma TargetElemsShape(t: CleanPath)
    requires Resolved(t.elems, t.rooted)
    ensures forall i :: 0 <= i < |TargetElems(t)| ==> '/' !in TargetElems(t)[i] && |TargetElems(t)[i]| > 0
    ensures TargetElems(t) != t.elems ==> TargetElems(t) == ["."] && t.elems == []
  {
  }

  /** The common prefix `Rel` finds is a common prefix of the two element lists. */
  lemma RelPrefix(b: CleanPath, t: CleanPath, n: nat)
    requires Resolved(b.elems, b.rooted)
    requires n == CommonPrefix(b.elems, TargetElems(t))
    ensures n <= |t.elems| && b.elems[..n] == t.elems[..n]
  {
  }

  /** The elements of a join of parts free of `/` are the parts `Keep` retains. */
  lemma ElementsOfJoin(es: seq<string>)
    requires |es| >= 1
    requires forall i :: 0 <= i < |es| ==> '/' !in es[i]
    ensures Elements(Join(es, '/')) == Keep(es)
  {
    SplitJoin(es, '/');
  }

  /** The list `Rel` joins holds non-empty parts free of `/`, and is not empty. */
  lemma RelParts(b: CleanPath, t: CleanPath, n: nat)
    requires Resolved(t.elems, t.rooted)
    requires n <= |b.elems| && n <= |t.elems| && b.elems[..n] == t.elems[..n]
    requires b != t && b.rooted == t.rooted
    ensures var es := Ups(|b.elems| - n) + TargetElems(t)[n..];
      |es| >= 1 && forall i :: 0 <= i < |es| ==> '/' !in es[i] && |es[i]| > 0
  {
    var te := TargetElems(t);
    var ups := Ups(|b.elems| - n);
    var es := ups + te[n..];
    TargetElemsShape(t);
    forall i | 0 <= i < |es| ensures '/' !in es[i] && |es[i]| > 0 {
      if i >= |ups| {
        assert es[i] == te[n + i - |ups|];
      }
    }
  }

  /** What `Keep` retains of the list `Rel` joins. */
  lemma RelKept(t: CleanPath, k: nat, n: nat)
    requires Resolved(t.elems, t.rooted)
    requires n <= |t.elems|
    ensures Keep(Ups(k) + TargetElems(t)[n..]) == Ups(k) + t.elems[n..]
  {
    var te := TargetElems(t);
    KeepConcat(Ups(k), te[n..]);
    KeepElements(Ups(k));
    if te == t.elems {
      KeepElements(t.elems[n..]);
    } else {
      assert te[n..] == ["."];
    }
  }

  /** The elements of the path `Rel` answers, and that it is neither rooted nor empty. */
  lemma RelElements(b: CleanPath, t: CleanPath, n: nat, rel: string)
    requires Resolved(t.elems, t.rooted)
    requires n <= |b.elems| && n <= |t.elems| && b.elems[..n] == t.elems[..n]
    requires b != t && b.rooted == t.rooted
    requires rel == Join(Ups(|b.elems| - n) + TargetElems(t)[n..], '/')
    ensures Elements(rel) == Ups(|b.elems| - n) + t.elems[n..]
    ensures |rel| > 0 && rel[0] != '/'
  {
    var es := Ups(|b.elems| - n) + TargetElems(t)[n..];
    RelParts(b, t, n);
    ElementsOfJoin(es);
    RelKept(t, |b.elems| - n, n);
    JoinStart(es, '/');
  }

  /** Going up from `b` by the `..` elements of `Rel`'s answer and down by the rest reaches `t`. */
  lemma RelResolves(b: CleanPath, t: CleanPath, n: nat)
    requires Resolved(b.elems, b.rooted) && Resolved(t.elems, t.rooted)
    requires n <= |b.elems| && n <= |t.elems| && b.elems[..n] == t.elems[..n]
    requires n < |b.elems| ==> b.elems[n] != ".."
    ensures Resolve(Ups(|b.elems| - n) + t.elems[n..], t.rooted, b.elems) == t.elems
  {
    var k := |b.elems| - n;
    var q := b.elems[n..];
    assert forall i :: 0 <= i < |q| ==> q[i] != "..";
    assert b.elems == t.elems[..n] + q;
    calc {
      Resolve(Ups(k) + t.elems[n..], t.rooted, b.elems);
      == { ResolveConcat(Ups(k), t.elems[n..], t.rooted, b.elems); }
      Resolve(t.elems[n..], t.rooted, Resolve(Ups(k), t.rooted, t.elems[..n] + q));
      == { ResolveUps(k, t.rooted, t.elems[..n], q); }
      Resolve(t.elems[n..], t.rooted, t.elems[..n]);
      == { ResolveResolved(t.elems, n, t.rooted); }
      t.elems;
    }
  }

  /** Cleaning `base + "/" + rel` resolves the elements of `rel` onto those of `base`. */
  lemma ParseJoined(base: string, rel: string)
    requires base != ""
    ensures Parse(base + "/" + rel) ==
      CleanPath(Parse(base).rooted, Resolve(Elements(rel), Parse(base).rooted, Parse(base).elems))
  {
    var p := base + "/" + rel;
    SplitConcat(base, rel, '/');
    KeepConcat(Split(base, '/'), Split(rel, '/'));
    ResolveConcat(Elements(base), Elements(rel), Parse(base).rooted, []);
    assert p[0] == base[0];
  }

  /** The path `Rel` answers for paths with different cleanings leads from `base` to `t`. */
  lemma JoinedRelParses(base: string, t: CleanPath, rel: string)
    requires Resolved(t.elems, t.rooted)
    requires Parse(base) != t && Parse(base).rooted == t.rooted
    requires !ClimbsOut(Parse(base).elems, TargetElems(t))
    requires rel == Join(Ups(|Parse(base).elems| - CommonPrefix(Parse(base).elems, TargetElems(t)))
      + TargetElems(t)[CommonPrefix(Parse(base).elems, TargetElems(t))..], '/')
    ensures rel != ""
    ensures Parse(if base == "" then rel else base + "/" + rel) == t
  {
    var b := Parse(base);
    ParseResolved(base);
    var n := CommonPrefix(b.elems, TargetElems(t));
    RelPrefix(b, t, n);
    RelElements(b, t, n, rel);
    RelResolves(b, t, n);
    if base == "" {
      assert b.elems == [] by { assert Split(base, '/') == [""]; }
    } else {
      ParseJoined(base, rel);
    }
  }

  /** For `base` and `targ` that `Rel` accepts, joining its answer to `base` gives the cleaned `targ`. */
  lemma RelJoinsBack(base: string, targ: string)
    requires Rel(base, targ).Ok?
    ensures JoinPath(base, Rel(base, targ).value) == Clean(targ)
  {
    if Clean(base) == Clean(targ) {
      JoinDot(base);
    } else {
      ParseResolved(targ);
      JoinedRelParses(base, Parse(targ), Rel(base, targ).value);
    }
  }

  /** Joining "." to a path cleans the path. */
  lemma JoinDot(base: string)
    ensures JoinPath(base, ".") == Clean(base)
  {
    if base != "" {
      SplitConcat(base, ".", '/');
      KeepConcat(Split(base, '/'), Split(".", '/'));
      SplitNone(".", '/');
      assert Elements(base + "/" + ".") == Elements(base);
    } else {
      assert Split(base, '/') == [""];
      SplitNone(".", '/');
    }
  }
}
