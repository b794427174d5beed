/** Go's byte-wise string order and the result of `sort.Strings`. */
module Order {

  /** `a < b` on Go strings: lexicographic on bytes, a proper prefix first. */
  predicate Less(a: string, b: string)
    decreases |a|
  {
    if |a| == 0 then |b| > 0
    else if |b| == 0 then false
    else a[0] < b[0] || (a[0] == b[0] && Less(a[1..], b[1..]))
  }

  lemma {:induction false} LessIrreflexive(a: string)
    ensures !Less(a, a)
    decreases |a|
  {
    if |a| > 0 { LessIrreflexive(a[1..]); }
  }

  lemma {:induction false} LessTransitive(a: string, b: string, c: string)
    requires Less(a, b) && Less(b, c)
    ensures Less(a, c)
    decreases |a|
  {
    if |a| > 0 && a[0] == b[0] && b[0] == c[0] {
      LessTransitive(a[1..], b[1..], c[1..]);
    }
  }

  lemma {:induction false} LessTotal(a: string, b: string)
    requires a != b
    ensures Less(a, b) || Less(b, a)
    decreases |a|
  {
    if |a| > 0 && |b| > 0 && a[0] == b[0] {
      assert a == [a[0]] + a[1..] && b == [b[0]] + b[1..];
      LessTotal(a[1..], b[1..]);
    }
  }

  /** Strictly increasing, hence also free of duplicates. */
  predicate StrictlySorted(s: seq<string>) {
    forall i, j :: 0 <= i < j < |s| ==> Less(s[i], s[j])
  }

  function Insert(x: string, s: seq<string>): (r: seq<string>)
    requires StrictlySorted(s)
    requires x !in s
    ensures StrictlySorted(r)
    ensures multiset(r) == multiset(s) + multiset{x}
    ensures forall y :: y in r <==> y == x || y in s
  {
    if |s| == 0 then [x]
    else if Less(x, s[0]) then
      BelowHead(x, s);
      [x] + s
    else
      LessTotal(x, s[0]);
      var t := Insert(x, s[1..]);
      assert s == [s[0]] + s[1..];
      AboveHead(s, t);
      [s[0]] + t
  }

  lemma BelowHead(x: string, s: seq<string>)
    requires StrictlySorted(s) && |s| > 0 && Less(x, s[0])
    ensures StrictlySorted([x] + s)
  {
    forall j | 0 <= j < |s| ensures Less(x, s[j]) {
      if j > 0 { LessTransitive(x, s[0], s[j]); }
    }
  }

  lemma AboveHead(s: seq<string>, t: seq<string>)
    requires StrictlySorted(s) && |s| > 0 && StrictlySorted(t)
    requires forall y :: y in t ==> Less(s[0], y) || y in s[1..]
    ensures StrictlySorted([s[0]] + t)
  {
    forall k | 0 <= k < |t| ensures Less(s[0], t[k]) {
      if t[k] in s[1..] {
        var j :| 0 <= j < |s[1..]| && s[1..][j] == t[k];
        assert s[1..][j] == s[j + 1];
      }
    }
  }

  /** `sort.Strings` on a list of distinct strings. */
  function Sort(s: seq<string>): (r: seq<string>)
    requires forall i, j :: 0 <= i < j < |s| ==> s[i] != s[j]
    ensures StrictlySorted(r)
    ensures multiset(r) == multiset(s)
  {
    if |s| == 0 then []
    else
      var t := Sort(s[1..]);
      assert s == [s[0]] + s[1..];
      assert s[0] !in multiset(s[1..]);
      Insert(s[0], t)
  }

  /** Two strictly increasing lists with the same elements are the same list. */
  lemma {:induction false} SortedUnique(a: seq<string>, b: seq<string>)
    requires StrictlySorted(a) && StrictlySorted(b)
    requires forall x :: x in a <==> x in b
    ensures a == b
    decreases |a|
  {
    assert |a| > 0 ==> a[0] in b;
    assert |b| > 0 ==> b[0] in a;
    if |a| > 0 && |b| > 0 {
      HeadIsLeast(a, b[0]);
      HeadIsLeast(b, a[0]);
      LessTotalOrEqual(a[0], b[0]);
      forall x ensures x in a[1..] <==> x in b[1..] {
        NotHeadOfTail(a, x);
        NotHeadOfTail(b, x);
      }
      SortedUnique(a[1..], b[1..]);
      assert a == [a[0]] + a[1..] && b == [b[0]] + b[1..];
    }
  }

  /** Nothing in a strictly sorted list is below its head. */
  lemma HeadIsLeast(a: seq<string>, y: string)
    requires StrictlySorted(a) && |a| > 0 && y in a
    ensures !Less(y, a[0])
  {
    var k :| 0 <= k < |a| && a[k] == y;
    if k == 0 { LessIrreflexive(y); } else { LessNotBoth(a[0], a[k]); }
  }

  lemma LessNotBoth(a: string, b: string)
    requires Less(a, b)
    ensures !Less(b, a)
  {
    if Less(b, a) {
      LessTransitive(a, b, a);
      LessIrreflexive(a);
    }
  }

  lemma LessTotalOrEqual(a: string, b: string)
    requires !Less(a, b) && !Less(b, a)
    ensures a == b
  {
    if a != b { LessTotal(a, b); }
  }

  lemma NotHeadOfTail(a: seq<string>, x: string)
    requires StrictlySorted(a) && |a| > 0
    ensures x in a[1..] <==> (x in a && x != a[0])
  {
    if x in a[1..] {
      var k :| 1 <= k < |a| && a[k] == x;
      assert Less(a[0], a[k]);
      if x == a[0] { LessIrreflexive(x); }
    }
    if x in a && x != a[0] {
      var k :| 0 <= k < |a| && a[k] == x;
      assert a[1..][k - 1] == x;
    }
  }
}
