/** Deleting the oldest files of a directory until it fits a size limit. */
module DirCleanup {
  import SkuMaps

  datatype FileInfo = FileInfo(path: string, size: nat, mtime: int)

  /** Oldest first, ties broken by path. */
  predicate Before(a: FileInfo, b: FileInfo) {
    a.mtime < b.mtime || (a.mtime == b.mtime && SkuMaps.Less(a.path, b.path))
  }

  predicate OldestFirst(fs: seq<FileInfo>) {
    forall i, j :: 0 <= i < j < |fs| ==> Before(fs[i], fs[j])
  }

  predicate DistinctPaths(fs: seq<FileInfo>) {
    forall i, j :: 0 <= i < j < |fs| ==> fs[i].path != fs[j].path
  }

  function Bytes(fs: seq<FileInfo>): nat {
    if fs == [] then 0 else Bytes(fs[..|fs| - 1]) + fs[|fs| - 1].size
  }

  lemma {:induction false} BytesConcat(a: seq<FileInfo>, b: seq<FileInfo>)
    ensures Bytes(a + b) == Bytes(a) + Bytes(b)
  {
    if b == [] {
      assert a + b == a;
    } else {
      BytesConcat(a, b[..|b| - 1]);
      assert (a + b)[..|a + b| - 1] == a + b[..|b| - 1];
    }
  }

  // ---------------------------------------------------------------- sorting

  method Insert(fs: seq<FileInfo>, f: FileInfo) returns (r: seq<FileInfo>)
    requires OldestFirst(fs) && forall i :: 0 <= i < |fs| ==> fs[i].path != f.path
    ensures OldestFirst(r) && multiset(r) == multiset(fs) + multiset{f} && Bytes(r) == Bytes(fs) + f.size
  {
    var i := 0;
    while i < |fs| && Before(fs[i], f)
      invariant 0 <= i <= |fs| && forall j :: 0 <= j < i ==> Before(fs[j], f)
    {
      i := i + 1;
    }
    Placed(fs, f, i);
    r := fs[..i] + [f] + fs[i..];
  }

  lemma Placed(fs: seq<FileInfo>, f: FileInfo, i: nat)
    requires OldestFirst(fs) && i <= |fs| && (forall j :: 0 <= j < |fs| ==> fs[j].path != f.path)
    requires (forall j :: 0 <= j < i ==> Before(fs[j], f)) && (i < |fs| ==> !Before(fs[i], f))
    ensures var r := fs[..i] + [f] + fs[i..];
            OldestFirst(r) && multiset(r) == multiset(fs) + multiset{f} && Bytes(r) == Bytes(fs) + f.size
  {
    forall j | i <= j < |fs| ensures Before(f, fs[j]) {
      YoungerThan(fs, f, i, j);
    }
    StaysSorted(fs, f, i);
    PlacedBytes(fs, f, i);
    PlacedOnce(fs, f, i);
  }

  lemma PlacedOnce(fs: seq<FileInfo>, f: FileInfo, i: nat)
    requires i <= |fs|
    ensures multiset(fs[..i] + [f] + fs[i..]) == multiset(fs) + multiset{f}
  {
    assert fs == fs[..i] + fs[i..];
  }

  lemma StaysSorted(fs: seq<FileInfo>, f: FileInfo, i: nat)
    requires OldestFirst(fs) && i <= |fs|
    requires (forall j :: 0 <= j < i ==> Before(fs[j], f)) && (forall j :: i <= j < |fs| ==> Before(f, fs[j]))
    ensures OldestFirst(fs[..i] + [f] + fs[i..])
  {
    var r := fs[..i] + [f] + fs[i..];
    forall a, b | 0 <= a < b < |r| ensures Before(r[a], r[b]) {
      if b < i {
        assert r[a] == fs[a] && r[b] == fs[b];
      } else if b == i {
        assert r[a] == fs[a] && r[b] == f;
      } else if a < i {
        assert r[a] == fs[a] && r[b] == fs[b - 1];
      } else if a == i {
        assert r[a] == f && r[b] == fs[b - 1];
      } else {
        assert r[a] == fs[a - 1] && r[b] == fs[b - 1];
      }
    }
  }

  lemma YoungerThan(fs: seq<FileInfo>, f: FileInfo, i: nat, j: nat)
    requires OldestFirst(fs) && i <= j < |fs| && fs[i].path != f.path && !Before(fs[i], f)
    ensures Before(f, fs[j])
  {
    SkuMaps.LessIsTotal(f.path, fs[i].path);
    assert Before(f, fs[i]);
    if j > i {
      BeforeTrans(f, fs[i], fs[j]);
    }
  }

  lemma PlacedBytes(fs: seq<FileInfo>, f: FileInfo, i: nat)
    requires i <= |fs|
    ensures Bytes(fs[..i] + [f] + fs[i..]) == Bytes(fs) + f.size
  {
    BytesConcat(fs[..i], fs[i..]);
    BytesConcat(fs[..i] + [f], fs[i..]);
    BytesConcat(fs[..i], [f]);
    assert fs == fs[..i] + fs[i..];
    assert Bytes([f]) == f.size;
  }

  lemma BeforeTrans(a: FileInfo, b: FileInfo, c: FileInfo)
    requires Before(a, b) && Before(b, c)
    ensures Before(a, c)
  {
    if a.mtime == b.mtime == c.mtime {
      SkuMaps.LessTrans(a.path, b.path, c.path);
    }
  }

  method SortByAge(found: seq<FileInfo>) returns (files: seq<FileInfo>)
    requires DistinctPaths(found)
    ensures OldestFirst(files) && multiset(files) == multiset(found) && Bytes(files) == Bytes(found)
  {
    files := [];
    for i := 0 to |found|
      invariant OldestFirst(files) && multiset(files) == multiset(found[..i]) && Bytes(files) == Bytes(found[..i])
    {
      forall j | 0 <= j < |files| ensures files[j].path != found[i].path {
        assert files[j] in multiset(files);
        assert files[j] in multiset(found[..i]);
      }
      assert found[..i + 1] == found[..i] + [found[i]];
      files := Insert(files, found[i]);
    }
    assert found[..|found|] == found;
  }

  lemma SameFirst(a: seq<FileInfo>, b: seq<FileInfo>)
    requires OldestFirst(a) && OldestFirst(b) && multiset(a) == multiset(b) && a != []
    ensures b != [] && a[0] == b[0]
  {
    assert a[0] in multiset(a);
    assert a[0] in multiset(b);
    assert b[0] in multiset(b);
    assert b[0] in multiset(a);
    var i :| 0 <= i < |b| && b[i] == a[0];
    var j :| 0 <= j < |a| && a[j] == b[0];
    NeverBoth(a[0], b[0]);
  }

  /** The order is determined by the files: there is only one way to sort them. */
  lemma {:induction false} OrderIsUnique(a: seq<FileInfo>, b: seq<FileInfo>)
    requires OldestFirst(a) && OldestFirst(b) && multiset(a) == multiset(b)
    ensures a == b
  {
    if a == [] {
      assert |multiset(b)| == 0;
    } else {
      SameFirst(a, b);
      assert a == [a[0]] + a[1..] && b == [b[0]] + b[1..];
      assert multiset(a[1..]) == multiset(a) - multiset{a[0]} && multiset(b[1..]) == multiset(b) - multiset{b[0]};
      OrderIsUnique(a[1..], b[1..]);
    }
  }

  lemma NeverBoth(a: FileInfo, b: FileInfo)
    ensures !(Before(a, b) && Before(b, a))
  {
    SkuMaps.LessIsTotal(a.path, b.path);
  }

  // ---------------------------------------------------------------- deleting

  /** Those of the first n files that os.Remove takes away; one that is already gone counts as taken. */
  function Removed(files: seq<FileInfo>, stuck: set<string>, n: nat): seq<FileInfo>
    requires n <= |files|
  {
    if n == 0 then [] else Removed(files, stuck, n - 1) + if files[n - 1].path in stuck then [] else [files[n - 1]]
  }

  /** Those of the first n that cannot be removed. */
  function Stuck(files: seq<FileInfo>, stuck: set<string>, n: nat): seq<FileInfo>
    requires n <= |files|
  {
    if n == 0 then [] else Stuck(files, stuck, n - 1) + if files[n - 1].path in stuck then [files[n - 1]] else []
  }

  /** What is left when the first n have been tried. */
  function Left(files: seq<FileInfo>, stuck: set<string>, n: nat): seq<FileInfo>
    requires n <= |files|
  {
    Stuck(files, stuck, n) + files[n..]
  }

  lemma BytesOne(a: seq<FileInfo>, f: FileInfo)
    ensures Bytes(a + [f]) == Bytes(a) + f.size && Bytes(a + []) == Bytes(a)
  {
    assert (a + [f])[..|a|] == a && a + [] == a;
  }

  predicate SomeStuck(files: seq<FileInfo>, stuck: set<string>, n: nat)
    requires n <= |files|
  {
    n > 0 && (files[n - 1].path in stuck || SomeStuck(files, stuck, n - 1))
  }

  function Gone(f: FileInfo, stuck: set<string>): nat {
    if f.path in stuck then 0 else f.size
  }

  /** The running total after the first n files. */
  function Remaining(files: seq<FileInfo>, stuck: set<string>, n: nat): int
    requires n <= |files|
  {
    if n == 0 then Bytes(files) else Remaining(files, stuck, n - 1) - Gone(files[n - 1], stuck)
  }

  function RemovedCount(files: seq<FileInfo>, stuck: set<string>, n: nat): nat
    requires n <= |files|
  {
    if n == 0 then 0 else RemovedCount(files, stuck, n - 1) + if files[n - 1].path in stuck then 0 else 1
  }

  /** The counters after the first n files, and that the rest did not fit before any of them. */
  ghost predicate Tried(files: seq<FileInfo>, threshold: int, stuck: set<string>, n: nat, deleted: nat, freed: nat, failed: bool)
    requires n <= |files|
  {
    && deleted == RemovedCount(files, stuck, n) && freed + Remaining(files, stuck, n) == Bytes(files)
    && (failed <==> SomeStuck(files, stuck, n))
    && forall m :: 0 <= m < n ==> Remaining(files, stuck, m) > threshold
  }

  lemma TriedStep(files: seq<FileInfo>, threshold: int, stuck: set<string>, n: nat, deleted: nat, freed: nat, failed: bool)
    requires n < |files| && Tried(files, threshold, stuck, n, deleted, freed, failed) && Remaining(files, stuck, n) > threshold
    ensures files[n].path in stuck ==> Tried(files, threshold, stuck, n + 1, deleted, freed, true)
    ensures files[n].path !in stuck ==> Tried(files, threshold, stuck, n + 1, deleted + 1, freed + files[n].size, failed)
  {
    assert Remaining(files, stuck, n + 1) == Remaining(files, stuck, n) - Gone(files[n], stuck);
  }

  lemma BytesFront(files: seq<FileInfo>, n: nat)
    requires n < |files|
    ensures Bytes(files[n..]) == files[n].size + Bytes(files[n + 1..])
  {
    assert files[n..] == [files[n]] + files[n + 1..];
    BytesConcat([files[n]], files[n + 1..]);
    BytesOne([], files[n]);
    assert [] + [files[n]] == [files[n]];
  }

  lemma StuckBytes(files: seq<FileInfo>, stuck: set<string>, n: nat)
    requires n < |files|
    ensures Bytes(Stuck(files, stuck, n + 1)) == Bytes(Stuck(files, stuck, n)) + files[n].size - Gone(files[n], stuck)
  {
    BytesOne(Stuck(files, stuck, n), files[n]);
  }

  lemma {:induction false} RemainingParts(files: seq<FileInfo>, stuck: set<string>, n: nat)
    requires n <= |files|
    ensures Remaining(files, stuck, n) == Bytes(Stuck(files, stuck, n)) + Bytes(files[n..])
  {
    if n == 0 {
      assert files[0..] == files;
    } else {
      var m := n - 1;
      RemainingParts(files, stuck, m);
      BytesFront(files, m);
      StuckBytes(files, stuck, m);
    }
  }

  lemma RemainingIsLeft(files: seq<FileInfo>, stuck: set<string>, n: nat)
    requires n <= |files|
    ensures Remaining(files, stuck, n) == Bytes(Left(files, stuck, n))
  {
    RemainingParts(files, stuck, n);
    BytesConcat(Stuck(files, stuck, n), files[n..]);
  }

  lemma {:induction false} RemovedIsGone(files: seq<FileInfo>, stuck: set<string>, n: nat)
    requires n <= |files|
    ensures RemovedCount(files, stuck, n) == |Removed(files, stuck, n)|
    ensures Bytes(Removed(files, stuck, n)) + Remaining(files, stuck, n) == Bytes(files)
  {
    if n > 0 {
      RemovedIsGone(files, stuck, n - 1);
      BytesOne(Removed(files, stuck, n - 1), files[n - 1]);
    }
  }

  /** The counters count what is removed and what is left. */
  lemma CountersMean(files: seq<FileInfo>, stuck: set<string>, n: nat)
    requires n <= |files|
    ensures Remaining(files, stuck, n) == Bytes(Left(files, stuck, n))
    ensures RemovedCount(files, stuck, n) == |Removed(files, stuck, n)|
    ensures Bytes(Removed(files, stuck, n)) + Bytes(Left(files, stuck, n)) == Bytes(files)
  {
    RemainingIsLeft(files, stuck, n);
    RemovedIsGone(files, stuck, n);
  }

  /** A failure is reported exactly when one of the files tried could not be removed. */
  lemma {:induction false} SomeStuckMeans(files: seq<FileInfo>, stuck: set<string>, n: nat)
    requires n <= |files|
    ensures SomeStuck(files, stuck, n) <==> exists i :: 0 <= i < n && files[i].path in stuck
  {
    if n > 0 {
      SomeStuckMeans(files, stuck, n - 1);
    }
  }

  /** The deletion loop over the sorted files; it stops before the first file once the rest fits. */
  method DeleteOldest(files: seq<FileInfo>, threshold: int, stuck: set<string>)
    returns (deleted: nat, freed: nat, failed: bool, stop: nat)
    ensures stop <= |files| && Tried(files, threshold, stuck, stop, deleted, freed, failed)
    ensures Remaining(files, stuck, stop) <= threshold || stop == |files|
  {
    deleted, freed, failed, stop := 0, 0, false, 0;
    var total: int := Bytes(files);
    while stop < |files| && total > threshold
      invariant 0 <= stop <= |files| && total == Remaining(files, stuck, stop)
      invariant Tried(files, threshold, stuck, stop, deleted, freed, failed)
    {
      TriedStep(files, threshold, stuck, stop, deleted, freed, failed);
      var f := files[stop];
      if f.path in stuck {
        failed := true;
      } else {
        deleted, freed, total := deleted + 1, freed + f.size, total - f.size;
      }
      stop := stop + 1;
    }
  }

  /** No file that is kept, and could have been removed, was modified before one that went. */
  predicate NoneOlderKept(gone: seq<FileInfo>, kept: seq<FileInfo>, stuck: set<string>) {
    forall f, g :: f in gone && g in kept && g.path !in stuck ==> f.mtime <= g.mtime
  }

  lemma {:induction false} RemovedFrom(files: seq<FileInfo>, stuck: set<string>, n: nat, f: FileInfo) returns (i: nat)
    requires n <= |files| && f in Removed(files, stuck, n)
    ensures i < n && files[i] == f
  {
    if f == files[n - 1] {
      i := n - 1;
    } else {
      i := RemovedFrom(files, stuck, n - 1, f);
    }
  }

  lemma OldestGoFirst(files: seq<FileInfo>, stuck: set<string>, n: nat)
    requires n <= |files| && OldestFirst(files)
    ensures NoneOlderKept(Removed(files, stuck, n), Left(files, stuck, n), stuck)
  {
    StuckMeans(files, stuck, n);
    forall f, g | f in Removed(files, stuck, n) && g in Left(files, stuck, n) && g.path !in stuck ensures f.mtime <= g.mtime {
      var i := RemovedFrom(files, stuck, n, f);
      assert g in files[n..];
      var j :| n <= j < |files| && files[j] == g;
      assert Before(files[i], files[j]);
    }
  }

  datatype Walk = NoDirectory | WalkFailed | Found(files: seq<FileInfo>)

  datatype Cleaned = Refused | Cleaned(deleted: nat, freed: nat, failed: bool)

  /** CleanupDirByOldest: `stuck` are the paths whose removal fails with something other than "not found". */
  method CleanupDirByOldest(walk: Walk, threshold: int, stuck: set<string>) returns (r: Cleaned, ghost files: seq<FileInfo>,
                            ghost stop: nat)
    requires walk.Found? ==> DistinctPaths(walk.files)
    ensures r.Refused? <==> threshold <= 0 || walk.WalkFailed?
    ensures r.Cleaned? && walk.NoDirectory? ==> r == Cleaned(0, 0, false)
    ensures r.Cleaned? && walk.Found? ==>
              && OldestFirst(files) && multiset(files) == multiset(walk.files) && stop <= |files|
              && Tried(files, threshold, stuck, stop, r.deleted, r.freed, r.failed)
              && r.deleted == |Removed(files, stuck, stop)| && r.freed == Bytes(Removed(files, stuck, stop))
              && r.freed + Bytes(Left(files, stuck, stop)) == Bytes(walk.files)
              && (Bytes(Left(files, stuck, stop)) <= threshold || stop == |files|)
              && NoneOlderKept(Removed(files, stuck, stop), Left(files, stuck, stop), stuck)
  {
    files, stop := [], 0;
    if threshold <= 0 {
      return Refused, files, stop;
    }
    match walk
    case NoDirectory => return Cleaned(0, 0, false), files, stop;
    case WalkFailed => return Refused, files, stop;
    case Found(found) =>
      var sorted := SortByAge(found);
      files := sorted;
      if Bytes(found) <= threshold {
        CountersMean(files, stuck, 0);
        OldestGoFirst(files, stuck, 0);
        return Cleaned(0, 0, false), files, 0;
      }
      var deleted, freed, failed, n := DeleteOldest(sorted, threshold, stuck);
      CountersMean(sorted, stuck, n);
      OldestGoFirst(sorted, stuck, n);
      r, stop := Cleaned(deleted, freed, failed), n;
  }

  // ---------------------------------------------------------------- what that means

  lemma {:induction false} StuckMeans(files: seq<FileInfo>, stuck: set<string>, n: nat)
    requires n <= |files|
    ensures forall f :: f in Stuck(files, stuck, n) ==> f.path in stuck
  {
    if n > 0 {
      StuckMeans(files, stuck, n - 1);
    }
  }

  /** On exit the rest fits, or every remaining file refused to go. */
  lemma FitsOrAllStuck(files: seq<FileInfo>, threshold: int, stuck: set<string>, stop: nat)
    requires stop <= |files| && (Bytes(Left(files, stuck, stop)) <= threshold || stop == |files|)
    ensures Bytes(Left(files, stuck, stop)) <= threshold || forall f :: f in Left(files, stuck, stop) ==> f.path in stuck
  {
    StuckMeans(files, stuck, stop);
  }

  lemma {:induction false} NoneStuck(files: seq<FileInfo>, stuck: set<string>, n: nat)
    requires n <= |files| && forall i :: 0 <= i < |files| ==> files[i].path !in stuck
    ensures Removed(files, stuck, n) == files[..n] && Left(files, stuck, n) == files[n..] && Stuck(files, stuck, n) == []
  {
    if n > 0 {
      NoneStuck(files, stuck, n - 1);
      assert files[..n] == files[..n - 1] + [files[n - 1]];
    }
    assert [] + files[n..] == files[n..];
  }

  lemma BytesSuffix(files: seq<FileInfo>, n: nat, m: nat)
    requires n <= m <= |files|
    ensures Bytes(files[m..]) <= Bytes(files[n..])
  {
    assert files[n..] == files[n..m] + files[m..];
    BytesConcat(files[n..m], files[m..]);
  }

  /** When nothing is stuck the deleted files are the shortest prefix, oldest first, whose removal is enough. */
  lemma ShortestPrefix(files: seq<FileInfo>, threshold: nat, stuck: set<string>, stop: nat, n: nat)
    requires forall i :: 0 <= i < |files| ==> files[i].path !in stuck
    requires stop <= |files| && n <= |files|
    requires forall m :: 0 <= m < stop ==> Remaining(files, stuck, m) > threshold
    requires Remaining(files, stuck, stop) <= threshold || stop == |files|
    ensures Removed(files, stuck, stop) == files[..stop]
    ensures Bytes(files[n..]) <= threshold <==> n >= stop
  {
    NoneStuck(files, stuck, stop);
    NoneStuck(files, stuck, n);
    CountersMean(files, stuck, stop);
    CountersMean(files, stuck, n);
    if n >= stop {
      assert Bytes(files[|files|..]) == 0;
      BytesSuffix(files, stop, n);
    }
  }
}
