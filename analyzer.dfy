/**
 * The codebase analyser (internal/analyzer/analyzer.go): counts of file
 * extensions, overall and per directory, over a list of paths, and the two
 * textual views of the counts.  The goroutine per path is modelled as a
 * sequential loop: every update happens under the analyser's lock, and
 * increments commute, so any interleaving gives the same counts.
 */
module Analyzer {
  import opened Wrappers
  import opened Text
  import opened Paths
  import Order
  import Decimal

  // ---------------------------------------------------------------------
  // The counts as functions of the input list

  /** One more occurrence of `key`: a missing key starts from zero, as Go's map lookup does. */
  function Bump(m: map<string, nat>, key: string): map<string, nat> {
    m[key := if key in m then m[key] + 1 else 1]
  }

  /** One more occurrence of `ext` in the table of `dir`, which is created when missing. */
  function BumpIn(dc: map<string, map<string, nat>>, dir: string, ext: string): map<string, map<string, nat>> {
    dc[dir := Bump(if dir in dc then dc[dir] else map[], ext)]
  }

  /** `Extensions` after every path of `files` has been processed. */
  function ExtCounts(files: seq<string>): map<string, nat>
    decreases |files|
  {
    if |files| == 0 then map[]
    else Bump(ExtCounts(files[..|files| - 1]), Ext(files[|files| - 1]))
  }

  /** `DirectoryCount` after every path of `files` has been processed. */
  function DirCounts(files: seq<string>): map<string, map<string, nat>>
    decreases |files|
  {
    if |files| == 0 then map[]
    else
      var last := files[|files| - 1];
      BumpIn(DirCounts(files[..|files| - 1]), Dir(last), Ext(last))
  }

  /** The statistics `Analyze` returns. */
  class Stats {
    var extensions: map<string, nat>
    var directoryCount: map<string, map<string, nat>>
    var totalFiles: nat
    var totalSize: int

    constructor ()
      ensures extensions == map[] && directoryCount == map[] && totalFiles == 0 && totalSize == 0
    {
      extensions := map[];
      directoryCount := map[];
      totalFiles := 0;
      totalSize := 0;
    }
  }

  /** `processFile`: the path's extension is counted, overall and under its directory. */
  method ProcessFile(path: string, stats: Stats)
    modifies stats`extensions, stats`directoryCount, stats`totalFiles
    ensures stats.extensions == Bump(old(stats.extensions), Ext(path))
    ensures stats.directoryCount == BumpIn(old(stats.directoryCount), Dir(path), Ext(path))
    ensures stats.totalFiles == old(stats.totalFiles) + 1
  {
    var ext := Ext(path);
    var dir := Dir(path);
    var counts := stats.extensions;
    stats.extensions := counts[ext := if ext in counts then counts[ext] + 1 else 1];
    stats.totalFiles := stats.totalFiles + 1;
    var dc := stats.directoryCount;
    if dir !in dc {
      dc := dc[dir := map[]];
    }
    var inDir := dc[dir];
    assert inDir == if dir in stats.directoryCount then stats.directoryCount[dir] else map[];
    stats.directoryCount := dc[dir := Bump(inDir, ext)];
  }

  /** `Analyze`: every path is processed once; the size is never filled in and no error is returned. */
  method Analyze(files: seq<string>) returns (stats: Stats, err: Option<string>)
    ensures fresh(stats)
    ensures stats.extensions == ExtCounts(files)
    ensures stats.directoryCount == DirCounts(files)
    ensures stats.totalFiles == |files|
    ensures stats.totalSize == 0
    ensures err == None
  {
    stats := new Stats();
    for i := 0 to |files|
      invariant stats.extensions == ExtCounts(files[..i])
      invariant stats.directoryCount == DirCounts(files[..i])
      invariant stats.totalFiles == i
      invariant stats.totalSize == 0
    {
      assert files[..i + 1][..i] == files[..i];
      ProcessFile(files[i], stats);
    }
    assert files[..|files|] == files;
    err := None;
  }

  // ---------------------------------------------------------------------
  // What the counts mean

  /** `path` has extension `ext`, if one is given, and lies in `dir`, if one is given. */
  predicate Counted(path: string, dir: Option<string>, ext: Option<string>) {
    (ext.None? || Ext(path) == ext.value) && (dir.None? || Dir(path) == dir.value)
  }

  /** How many entries of `files` (duplicates included) are `Counted`. */
  function Num(files: seq<string>, dir: Option<string>, ext: Option<string>): nat
    decreases |files|
  {
    if |files| == 0 then 0
    else Num(files[..|files| - 1], dir, ext) + (if Counted(files[|files| - 1], dir, ext) then 1 else 0)
  }

  /** The extension table holds, for each extension that occurs, the number of paths that have it. */
  lemma {:induction false} ExtCountsAreCounts(files: seq<string>, e: string)
    ensures e in ExtCounts(files) <==> Num(files, None, Some(e)) > 0
    ensures e in ExtCounts(files) ==> ExtCounts(files)[e] == Num(files, None, Some(e))
    decreases |files|
  {
    if |files| > 0 {
      ExtCountsAreCounts(files[..|files| - 1], e);
    }
  }

  /**
   * The directory table has an entry for each directory that occurs, and
   * that entry holds, for each extension occurring in it, the number of
   * paths in the directory that have it.
   */
  lemma {:induction false} DirCountsAreCounts(files: seq<string>, d: string, e: string)
    ensures d in DirCounts(files) <==> Num(files, Some(d), None) > 0
    ensures d in DirCounts(files) ==>
      (e in DirCounts(files)[d] <==> Num(files, Some(d), Some(e)) > 0)
      && CountIn(DirCounts(files)[d], e) == Num(files, Some(d), Some(e))
    decreases |files|
  {
    if |files| > 0 {
      var front, last := files[..|files| - 1], files[|files| - 1];
      DirCountsAreCounts(front, d, e);
      BumpInAt(DirCounts(front), Dir(last), Ext(last), d, e);
      NumNarrower(front, d, e);
    }
  }

  /** Fewer paths are in a directory with a given extension than in the directory. */
  lemma {:induction false} NumNarrower(files: seq<string>, d: string, e: string)
    ensures Num(files, Some(d), Some(e)) <= Num(files, Some(d), None)
    decreases |files|
  {
    if |files| > 0 {
      NumNarrower(files[..|files| - 1], d, e);
    }
  }

  /** What one directory-table update changes at one directory and extension. */
  lemma BumpInAt(dc: map<string, map<string, nat>>, dir: string, ext: string, d: string, e: string)
    ensures d in BumpIn(dc, dir, ext) <==> d in dc || d == dir
    ensures d in BumpIn(dc, dir, ext) ==>
      (e in BumpIn(dc, dir, ext)[d] <==> (d in dc && e in dc[d]) || (d == dir && e == ext))
      && CountIn(BumpIn(dc, dir, ext)[d], e)
         == (if d in dc then CountIn(dc[d], e) else 0) + (if d == dir && e == ext then 1 else 0)
  {
  }

  lemma {:induction false} NumConcat(a: seq<string>, b: seq<string>, dir: Option<string>, ext: Option<string>)
    ensures Num(a + b, dir, ext) == Num(a, dir, ext) + Num(b, dir, ext)
    decreases |b|
  {
    if |b| == 0 {
      assert a + b == a;
    } else {
      assert (a + b)[..|a + b| - 1] == a + b[..|b| - 1];
      NumConcat(a, b[..|b| - 1], dir, ext);
    }
  }

  /** The paths of `s` without the one at `j`. */
  function Without(s: seq<string>, j: nat): seq<string>
    requires j < |s|
  {
    s[..j] + s[j + 1..]
  }

  lemma WithoutMultiset(s: seq<string>, j: nat)
    requires j < |s|
    ensures multiset(Without(s, j)) == multiset(s) - multiset{s[j]}
  {
    assert s == s[..j] + [s[j]] + s[j + 1..];
    assert multiset(s) == multiset(s[..j]) + multiset{s[j]} + multiset(s[j + 1..]);
  }

  lemma NumWithout(s: seq<string>, j: nat, dir: Option<string>, ext: Option<string>)
    requires j < |s|
    ensures Num(s, dir, ext) == Num(Without(s, j), dir, ext) + (if Counted(s[j], dir, ext) then 1 else 0)
  {
    assert s == s[..j] + ([s[j]] + s[j + 1..]);
    NumConcat(s[..j], [s[j]] + s[j + 1..], dir, ext);
    NumConcat([s[j]], s[j + 1..], dir, ext);
    NumConcat(s[..j], s[j + 1..], dir, ext);
    assert [s[j]][..0] == [];
  }

  lemma IndexOf(s: seq<string>, x: string) returns (j: nat)
    requires x in multiset(s)
    ensures j < |s| && s[j] == x
  {
    j :| 0 <= j < |s| && s[j] == x;
  }

  /** A count depends only on which paths occur how often, not on their order. */
  lemma {:induction false} NumPermutation(files: seq<string>, files': seq<string>, dir: Option<string>, ext: Option<string>)
    requires multiset(files) == multiset(files')
    ensures Num(files, dir, ext) == Num(files', dir, ext)
    decreases |files|
  {
    if |files| > 0 {
      var n := |files| - 1;
      var x := files[n];
      var j := IndexOf(files', x);
      WithoutMultiset(files, n);
      WithoutMultiset(files', j);
      assert multiset(Without(files, n)) == multiset(Without(files', j));
      NumPermutation(Without(files, n), Without(files', j), dir, ext);
      NumWithout(files, n, dir, ext);
      NumWithout(files', j, dir, ext);
    } else {
      assert |files'| == 0;
    }
  }

  /** The extension table depends only on which paths occur how often. */
  lemma ExtCountsOrderIndependent(files: seq<string>, files': seq<string>)
    requires multiset(files) == multiset(files')
    ensures ExtCounts(files) == ExtCounts(files')
  {
    forall e | true
      ensures (e in ExtCounts(files) <==> e in ExtCounts(files'))
      ensures e in ExtCounts(files) ==> ExtCounts(files)[e] == ExtCounts(files')[e]
    {
      ExtCountsAreCounts(files, e);
      ExtCountsAreCounts(files', e);
      NumPermutation(files, files', None, Some(e));
    }
    assert ExtCounts(files).Keys == ExtCounts(files').Keys;
  }

  /** One directory's table depends only on which paths occur how often. */
  lemma DirTableOrderIndependent(files: seq<string>, files': seq<string>, d: string)
    requires multiset(files) == multiset(files')
    requires d in DirCounts(files) && d in DirCounts(files')
    ensures DirCounts(files)[d] == DirCounts(files')[d]
  {
    var t, t' := DirCounts(files)[d], DirCounts(files')[d];
    forall e | true
      ensures (e in t <==> e in t') && (e in t ==> t[e] == t'[e])
    {
      DirCountsAreCounts(files, d, e);
      DirCountsAreCounts(files', d, e);
      NumPermutation(files, files', Some(d), Some(e));
    }
    assert t.Keys == t'.Keys;
  }

  /** The directory table depends only on which paths occur how often. */
  lemma DirCountsOrderIndependent(files: seq<string>, files': seq<string>)
    requires multiset(files) == multiset(files')
    ensures DirCounts(files) == DirCounts(files')
  {
    var dc, dc' := DirCounts(files), DirCounts(files');
    forall d | true
      ensures (d in dc <==> d in dc') && (d in dc ==> dc[d] == dc'[d])
    {
      DirCountsAreCounts(files, d, "");
      DirCountsAreCounts(files', d, "");
      NumPermutation(files, files', Some(d), None);
      if d in dc {
        DirTableOrderIndependent(files, files', d);
      }
    }
    assert dc.Keys == dc'.Keys;
  }

  /** The statistics do not depend on the order of the input list. */
  lemma OrderIndependent(files: seq<string>, files': seq<string>)
    requires multiset(files) == multiset(files')
    ensures ExtCounts(files) == ExtCounts(files')
    ensures DirCounts(files) == DirCounts(files')
    ensures |files| == |files'|
  {
    assert |multiset(files)| == |multiset(files')|;
    ExtCountsOrderIndependent(files, files');
    DirCountsOrderIndependent(files, files');
  }

  // ---------------------------------------------------------------------
  // Sums over the tables

  /** The sum of the counts of `keys` in a table. */
  ghost function SumOver(m: map<string, nat>, keys: set<string>): nat
    requires keys <= m.Keys
    decreases keys
  {
    if keys == {} then 0
    else
      var k :| k in keys;
      m[k] + SumOver(m, keys - {k})
  }

  /** The sum of all the counts of a table. */
  ghost function SumValues(m: map<string, nat>): nat {
    SumOver(m, m.Keys)
  }

  /** The sum may be taken by removing any key first. */
  lemma {:induction false} SumOverRemove(m: map<string, nat>, keys: set<string>, k: string)
    requires keys <= m.Keys && k in keys
    ensures SumOver(m, keys) == m[k] + SumOver(m, keys - {k})
    decreases keys
  {
    var j :| j in keys && SumOver(m, keys) == m[j] + SumOver(m, keys - {j});
    if j != k {
      SumOverRemove(m, keys - {j}, k);
      SumOverRemove(m, keys - {k}, j);
      assert keys - {j} - {k} == keys - {k} - {j};
    }
  }

  /** Tables that agree on `keys` have the same sum over them. */
  lemma {:induction false} SumOverAgree(m: map<string, nat>, m': map<string, nat>, keys: set<string>)
    requires keys <= m.Keys && keys <= m'.Keys
    requires forall k :: k in keys ==> m[k] == m'[k]
    ensures SumOver(m, keys) == SumOver(m', keys)
    decreases keys
  {
    if keys != {} {
      var k :| k in keys;
      SumOverRemove(m, keys, k);
      SumOverRemove(m', keys, k);
      SumOverAgree(m, m', keys - {k});
    }
  }

  lemma SumBump(m: map<string, nat>, key: string)
    ensures SumValues(Bump(m, key)) == SumValues(m) + 1
  {
    var b := Bump(m, key);
    SumOverRemove(b, b.Keys, key);
    assert b.Keys - {key} == m.Keys - {key};
    SumOverAgree(b, m, m.Keys - {key});
    if key in m {
      SumOverRemove(m, m.Keys, key);
    } else {
      assert m.Keys - {key} == m.Keys;
    }
  }

  /** The extension counts add up to the number of paths analysed. */
  lemma {:induction false} CountsSumToTotal(files: seq<string>)
    ensures SumValues(ExtCounts(files)) == |files|
    decreases |files|
  {
    if |files| > 0 {
      CountsSumToTotal(files[..|files| - 1]);
      SumBump(ExtCounts(files[..|files| - 1]), Ext(files[|files| - 1]));
    }
  }

  /** The count of `e` in one directory's table, zero when absent. */
  function CountIn(t: map<string, nat>, e: string): nat {
    if e in t then t[e] else 0
  }

  /** The sum over the directories `dirs` of their count of `e`. */
  ghost function ColumnOver(dc: map<string, map<string, nat>>, dirs: set<string>, e: string): nat
    requires dirs <= dc.Keys
    decreases dirs
  {
    if dirs == {} then 0
    else
      var d :| d in dirs;
      CountIn(dc[d], e) + ColumnOver(dc, dirs - {d}, e)
  }

  /** The sum over all directories of their count of `e`. */
  ghost function SumColumn(dc: map<string, map<string, nat>>, e: string): nat {
    ColumnOver(dc, dc.Keys, e)
  }

  lemma {:induction false} ColumnOverRemove(dc: map<string, map<string, nat>>, dirs: set<string>, d: string, e: string)
    requires dirs <= dc.Keys && d in dirs
    ensures ColumnOver(dc, dirs, e) == CountIn(dc[d], e) + ColumnOver(dc, dirs - {d}, e)
    decreases dirs
  {
    var j :| j in dirs && ColumnOver(dc, dirs, e) == CountIn(dc[j], e) + ColumnOver(dc, dirs - {j}, e);
    if j != d {
      ColumnOverRemove(dc, dirs - {j}, d, e);
      ColumnOverRemove(dc, dirs - {d}, j, e);
      assert dirs - {j} - {d} == dirs - {d} - {j};
    }
  }

  lemma {:induction false} ColumnOverAgree(dc: map<string, map<string, nat>>, dc': map<string, map<string, nat>>, dirs: set<string>, e: string)
    requires dirs <= dc.Keys && dirs <= dc'.Keys
    requires forall d :: d in dirs ==> dc[d] == dc'[d]
    ensures ColumnOver(dc, dirs, e) == ColumnOver(dc', dirs, e)
    decreases dirs
  {
    if dirs != {} {
      var d :| d in dirs;
      ColumnOverRemove(dc, dirs, d, e);
      ColumnOverRemove(dc', dirs, d, e);
      ColumnOverAgree(dc, dc', dirs - {d}, e);
    }
  }

  lemma BumpInColumn(dc: map<string, map<string, nat>>, dir: string, ext: string, e: string)
    ensures SumColumn(BumpIn(dc, dir, ext), e) == SumColumn(dc, e) + (if e == ext then 1 else 0)
  {
    var b := BumpIn(dc, dir, ext);
    ColumnOverRemove(b, b.Keys, dir, e);
    assert b.Keys - {dir} == dc.Keys - {dir};
    ColumnOverAgree(b, dc, dc.Keys - {dir}, e);
    if dir in dc {
      ColumnOverRemove(dc, dc.Keys, dir, e);
    } else {
      assert dc.Keys - {dir} == dc.Keys;
    }
  }

  /** Summing one extension's count over all directories gives its overall count. */
  lemma {:induction false} DirectoriesSumToExtensions(files: seq<string>, e: string)
    ensures SumColumn(DirCounts(files), e) == CountIn(ExtCounts(files), e)
    decreases |files|
  {
    if |files| > 0 {
      var front, last := files[..|files| - 1], files[|files| - 1];
      DirectoriesSumToExtensions(front, e);
      BumpInColumn(DirCounts(front), Dir(last), Ext(last), e);
    }
  }

  // ---------------------------------------------------------------------
  // FormatFlat and GetExtensionList

  /** The keys of a set, in some order, each once. */
  ghost function Enumerate(s: set<string>): (r: seq<string>)
    ensures forall x :: x in r <==> x in s
    ensures forall i, j :: 0 <= i < j < |r| ==> r[i] != r[j]
    decreases |s|
  {
    if s == {} then []
    else
      var x :| x in s;
      [x] + Enumerate(s - {x})
  }

  /** The extensions of a table in ascending byte order: what `sort.Strings` makes of them. */
  ghost function SortedKeys(m: map<string, nat>): (r: seq<string>)
    ensures Order.StrictlySorted(r)
    ensures forall x :: x in r <==> x in m
  {
    var keys := Enumerate(m.Keys);
    var r := Order.Sort(keys);
    assert forall x :: x in r <==> x in multiset(keys);
    r
  }

  /** The line `FormatFlat` writes for one extension. */
  function FlatLine(ext: string, count: nat): string {
    if count == 1 then ext + ": 1 file" else ext + ": " + Decimal.Itoa(count) + " files"
  }

  /** The lines for `exts`, in their order. */
  function FlatLines(m: map<string, nat>, exts: seq<string>): (r: seq<string>)
    requires forall e :: e in exts ==> e in m
    ensures |r| == |exts|
    decreases |exts|
  {
    if |exts| == 0 then []
    else
      var last := exts[|exts| - 1];
      FlatLines(m, exts[..|exts| - 1]) + [FlatLine(last, m[last])]
  }

  /** The `range` loop over the table's keys; their order is unspecified. */
  method CollectKeys(m: map<string, nat>) returns (exts: seq<string>)
    ensures forall x :: x in exts <==> x in m
    ensures forall i, j :: 0 <= i < j < |exts| ==> exts[i] != exts[j]
  {
    exts := [];
    var pending := m.Keys;
    while pending != {}
      invariant pending <= m.Keys
      invariant forall x :: x in exts <==> x in m && x !in pending
      invariant forall i, j :: 0 <= i < j < |exts| ==> exts[i] != exts[j]
      decreases |pending|
    {
      var x :| x in pending;
      exts := exts + [x];
      pending := pending - {x};
    }
  }

  /** The sorted extensions, whatever order the map gave them in. */
  method SortedExtensions(m: map<string, nat>) returns (exts: seq<string>)
    ensures exts == SortedKeys(m)
  {
    var keys := CollectKeys(m);
    exts := Order.Sort(keys);
    assert forall x :: x in exts <==> x in multiset(keys);
    Order.SortedUnique(exts, SortedKeys(m));
  }

  /** The loop of `FormatFlat` that appends one line per extension. */
  method FlatLinesOf(m: map<string, nat>, exts: seq<string>) returns (result: seq<string>)
    requires forall e :: e in exts ==> e in m
    ensures result == FlatLines(m, exts)
  {
    result := [];
    for i := 0 to |exts|
      invariant result == FlatLines(m, exts[..i])
    {
      assert exts[..i + 1][..i] == exts[..i];
      var count := m[exts[i]];
      if count == 1 {
        result := result + [exts[i] + ": 1 file"];
      } else {
        result := result + [exts[i] + ": " + Decimal.Itoa(count) + " files"];
      }
    }
    assert exts[..|exts|] == exts;
  }

  /** `FormatFlat`: one line per extension in ascending order, joined by newlines. */
  method FormatFlat(stats: Stats) returns (s: string)
    ensures s == Join(FlatLines(stats.extensions, SortedKeys(stats.extensions)), '\n')
  {
    var exts := SortedExtensions(stats.extensions);
    var result := FlatLinesOf(stats.extensions, exts);
    s := Join(result, '\n');
  }

  /** `GetExtensionList`: the extensions in ascending order, joined by commas. */
  method GetExtensionList(stats: Stats) returns (s: string)
    ensures s == Join(SortedKeys(stats.extensions), ',')
  {
    var exts := SortedExtensions(stats.extensions);
    s := Join(exts, ',');
  }

  /** A line names the extension and its count, and says "file" only for a count of one. */
  lemma FlatLineParts(ext: string, count: nat)
    ensures FlatLine(ext, count) == ext + ": " + Decimal.Itoa(count) + (if count == 1 then " file" else " files")
  {
    assert Decimal.Itoa(1) == "1";
  }

  lemma {:induction false} FlatLinesFreeOf(m: map<string, nat>, exts: seq<string>)
    requires forall e :: e in exts ==> e in m && '\n' !in e
    ensures forall i :: 0 <= i < |FlatLines(m, exts)| ==> '\n' !in FlatLines(m, exts)[i]
    decreases |exts|
  {
    if |exts| > 0 {
      FlatLinesFreeOf(m, exts[..|exts| - 1]);
      var last := exts[|exts| - 1];
      var digits := Decimal.Itoa(m[last]);
      assert '\n' !in digits;
    }
  }

  /**
   * When no extension contains a newline, splitting the flat view at
   * newlines gives back one line per extension, in ascending order.
   */
  lemma FlatViewLines(m: map<string, nat>)
    requires |m| > 0
    requires forall e :: e in m ==> '\n' !in e
    ensures Split(Join(FlatLines(m, SortedKeys(m)), '\n'), '\n') == FlatLines(m, SortedKeys(m))
  {
    var keys := SortedKeys(m);
    assert m.Keys != {};
    var ext :| ext in m;
    assert ext in keys;
    FlatLinesFreeOf(m, keys);
    SplitJoin(FlatLines(m, keys), '\n');
  }

  /** When no extension contains a comma, splitting the list at commas gives back the sorted extensions. */
  lemma ExtensionListSplits(m: map<string, nat>)
    requires |m| > 0
    requires forall e :: e in m ==> ',' !in e
    ensures Split(Join(SortedKeys(m), ','), ',') == SortedKeys(m)
  {
    var keys := SortedKeys(m);
    assert m.Keys != {};
    var ext :| ext in m;
    assert ext in keys;
    forall i | 0 <= i < |keys|
      ensures ',' !in keys[i]
    {
      assert keys[i] in m;
    }
    SplitJoin(keys, ',');
  }

  /** The table of an empty analysis. */
  const NoExtensions: map<string, nat> := map[]

  /** An empty table gives an empty list. */
  lemma NoExtensionsNoList()
    ensures Join(SortedKeys(NoExtensions), ',') == ""
  {
  }

  /**
   * Paths without an extension are counted under "", so a table of such
   * paths alone gives the same empty list as an empty table.
   */
  lemma EmptyExtensionIsInvisible(n: nat)
    ensures Join(SortedKeys(map["" := n]), ',') == Join(SortedKeys(NoExtensions), ',')
  {
    NoExtensionsNoList();
    var one := SortedKeys(map["" := n]);
    assert "" in one;
    forall i | 0 <= i < |one|
      ensures one[i] == ""
    {
      assert one[i] in one;
    }
  }
}
