/** The string maps behind mapping.sku: their hash, the difference of two, and the strict reverse map. */
module SkuMaps {
  import opened Text

  type StringMap = map<string, string>

  // ---------------------------------------------------------------- the order of sort.Strings

  predicate Less(a: string, b: string) {
    if b == "" then false
    else if a == "" then true
    else a[0] < b[0] || (a[0] == b[0] && Less(a[1..], b[1..]))
  }

  lemma {:induction false} LessIsTotal(a: string, b: string)
    ensures Less(a, b) || a == b || Less(b, a)
    ensures !(Less(a, b) && Less(b, a)) && !Less(a, a)
  {
    if a != "" && b != "" {
      LessIsTotal(a[1..], b[1..]);
      LessIsTotal(a[1..], a[1..]);
      assert a == [a[0]] + a[1..] && b == [b[0]] + b[1..];
    } else if a != "" {
      LessIsTotal(a[1..], a[1..]);
    }
  }

  /** The strings differ first at n, where a ends or has the smaller character. */
  predicate DifferAt(a: string, b: string, n: nat) {
    n <= |a| && n < |b| && a[..n] == b[..n] && (n == |a| || a[n] < b[n])
  }

  /** That is the lexicographic order. */
  lemma {:induction false} LessMeans(a: string, b: string)
    ensures Less(a, b) <==> exists n: nat :: DifferAt(a, b, n)
  {
    if a == "" && b != "" {
      assert DifferAt(a, b, 0);
    } else if a != "" && b != "" {
      LessMeans(a[1..], b[1..]);
      if a[0] < b[0] {
        assert DifferAt(a, b, 0);
      }
      if Less(a, b) && a[0] == b[0] {
        var n: nat :| DifferAt(a[1..], b[1..], n);
        assert a[..n + 1] == [a[0]] + a[1..][..n] && b[..n + 1] == [b[0]] + b[1..][..n];
        assert DifferAt(a, b, n + 1);
      }
      if n: nat :| DifferAt(a, b, n) {
        DifferLater(a, b, n);
      }
    }
  }

  lemma {:induction false} DifferLater(a: string, b: string, n: nat)
    requires DifferAt(a, b, n) && a != ""
    ensures a[0] < b[0] || (a[0] == b[0] && n > 0 && DifferAt(a[1..], b[1..], n - 1))
  {
    if n > 0 {
      assert a[0] == a[..n][0] && b[0] == b[..n][0];
      assert a[1..][..n - 1] == a[..n][1..] && b[1..][..n - 1] == b[..n][1..];
    }
  }

  lemma {:induction false} LessTrans(a: string, b: string, c: string)
    requires Less(a, b) && Less(b, c)
    ensures Less(a, c)
  {
    if a != "" && a[0] == b[0] == c[0] {
      LessTrans(a[1..], b[1..], c[1..]);
    }
  }

  predicate Sorted(ks: seq<string>) {
    forall i, j :: 0 <= i < j < |ks| ==> Less(ks[i], ks[j])
  }

  /** The keys of the map in sort.Strings order. */
  ghost predicate SortedKeys(ks: seq<string>, m: StringMap) {
    Sorted(ks) && forall k :: k in ks <==> k in m
  }

  lemma FirstIn(a: seq<string>)
    requires a != []
    ensures a[0] in a
  {
  }

  /** A set has one sorted enumeration. */
  lemma {:induction false} SortedIsUnique(a: seq<string>, b: seq<string>)
    requires Sorted(a) && Sorted(b) && forall k :: k in a <==> k in b
    ensures a == b
  {
    if a == [] {
      if b != [] {
        FirstIn(b);
        assert false;
      }
    } else {
      assert a[0] in b && b != [];
      FirstIsLeast(a, b);
      TailsAgree(a, b);
      SortedIsUnique(a[1..], b[1..]);
      assert a == [a[0]] + a[1..] && b == [b[0]] + b[1..];
    }
  }

  lemma FirstIsLeast(a: seq<string>, b: seq<string>)
    requires Sorted(a) && Sorted(b) && a != [] && b != [] && forall k :: k in a <==> k in b
    ensures a[0] == b[0]
  {
    assert a[0] in b && b[0] in a;
    var i :| 0 <= i < |b| && b[i] == a[0];
    var j :| 0 <= j < |a| && a[j] == b[0];
    LessIsTotal(a[0], b[0]);
  }

  lemma TailsAgree(a: seq<string>, b: seq<string>)
    requires Sorted(a) && Sorted(b) && a != [] && b != [] && a[0] == b[0] && forall k :: k in a <==> k in b
    ensures Sorted(a[1..]) && Sorted(b[1..]) && forall k :: k in a[1..] <==> k in b[1..]
  {
    LessIsTotal(a[0], a[0]);
    forall k ensures k in a[1..] <==> k in b[1..] {
      InTail(a, k);
      InTail(b, k);
    }
  }

  lemma InTail(a: seq<string>, k: string)
    requires Sorted(a) && a != []
    ensures k in a[1..] <==> k in a && k != a[0]
  {
    LessIsTotal(a[0], a[0]);
    if k in a && k != a[0] {
      var i :| 0 <= i < |a| && a[i] == k;
      assert a[1..][i - 1] == k;
    }
  }

  // ---------------------------------------------------------------- the hashed bytes

  /** What is fed to the hash for the keys ks, in that order. */
  function Encode(ks: seq<string>, m: StringMap): string
    requires forall k :: k in ks ==> k in m
  {
    if ks == [] then "" else EncodeEntry(ks[0], m[ks[0]]) + Encode(ks[1..], m)
  }

  function EncodeEntry(k: string, v: string): string {
    k + "\0" + v + "\n"
  }

  /** Puts k where it belongs. */
  method Insert(ks: seq<string>, k: string) returns (r: seq<string>)
    requires Sorted(ks) && k !in ks
    ensures Sorted(r) && forall x :: x in r <==> x in ks || x == k
  {
    var i := 0;
    while i < |ks| && Less(ks[i], k)
      invariant 0 <= i <= |ks|
      invariant forall j :: 0 <= j < i ==> Less(ks[j], k)
    {
      i := i + 1;
    }
    forall j | i <= j < |ks| ensures Less(k, ks[j]) {
      LessIsTotal(k, ks[i]);
      if j > i {
        LessTrans(k, ks[i], ks[j]);
      }
    }
    r := ks[..i] + [k] + ks[i..];
    assert ks == ks[..i] + ks[i..];
  }

  /** hashStringMap up to the hash function, over an arbitrary iteration order. */
  method HashedBytes(m: StringMap) returns (bytes: string, ks: seq<string>)
    ensures SortedKeys(ks, m) && bytes == Encode(ks, m)
  {
    var keys: seq<string> := [];
    var rest := m.Keys;
    while rest != {}
      invariant rest <= m.Keys && Sorted(keys)
      invariant forall k :: k in keys <==> k in m && k !in rest
      decreases |rest|
    {
      var k :| k in rest;
      keys := Insert(keys, k);
      rest := rest - {k};
    }
    ks := keys;
    bytes := "";
    assert keys[0..] == keys;
    for i := 0 to |keys|
      invariant bytes + Encode(keys[i..], m) == Encode(keys, m)
    {
      var v := m[keys[i]];
      NextEntry(bytes, keys, m, i);
      bytes := bytes + EncodeEntry(keys[i], v);
    }
    assert keys[|keys|..] == [];
  }

  lemma NextEntry(bytes: string, ks: seq<string>, m: StringMap, i: nat)
    requires i < |ks| && forall k :: k in ks ==> k in m
    ensures bytes + Encode(ks[i..], m) == bytes + EncodeEntry(ks[i], m[ks[i]]) + Encode(ks[i + 1..], m)
  {
    assert ks[i..][1..] == ks[i + 1..];
    Regroup(bytes, EncodeEntry(ks[i], m[ks[i]]), Encode(ks[i + 1..], m));
  }

  lemma Regroup(a: string, b: string, c: string)
    ensures a + (b + c) == a + b + c
  {
  }

  /** The bytes do not depend on the order in which the map was walked. */
  lemma HashIsOrderFree(m: StringMap, ks: seq<string>, ls: seq<string>)
    requires SortedKeys(ks, m) && SortedKeys(ls, m)
    ensures Encode(ks, m) == Encode(ls, m)
  {
    SortedIsUnique(ks, ls);
  }

  /** Keys without NUL and values without newline can be told apart in the bytes. */
  predicate Separable(m: StringMap) {
    forall k :: k in m ==> '\0' !in k && '\n' !in m[k]
  }

  lemma {:induction false} SameCut(a: string, b: string, c: char, x: string, y: string)
    requires c !in a && c !in b && a + [c] + x == b + [c] + y
    ensures a == b && x == y
  {
    var s := a + [c] + x;
    assert s[|a|] == c && s[|b|] == c;
    assert forall i :: 0 <= i < |b| ==> s[i] == b[i];
    assert forall i :: 0 <= i < |a| ==> s[i] == a[i];
    assert |a| >= |b| && |b| >= |a|;
    assert s[..|a|] == a && s[..|b|] == b;
    assert s[|a| + 1..] == x && s[|b| + 1..] == y;
  }

  lemma SameEntry(k: string, v: string, x: string, k': string, v': string, y: string)
    requires '\0' !in k && '\0' !in k' && '\n' !in v && '\n' !in v'
    requires EncodeEntry(k, v) + x == EncodeEntry(k', v') + y
    ensures k == k' && v == v' && x == y
  {
    assert EncodeEntry(k, v) + x == k + ['\0'] + (v + ['\n'] + x);
    assert EncodeEntry(k', v') + y == k' + ['\0'] + (v' + ['\n'] + y);
    SameCut(k, k', '\0', v + ['\n'] + x, v' + ['\n'] + y);
    SameCut(v, v', '\n', x, y);
  }

  lemma {:induction false} SameBytes(ks: seq<string>, m: StringMap, ls: seq<string>, n: StringMap)
    requires (forall k :: k in ks ==> k in m) && (forall k :: k in ls ==> k in n) && Separable(m) && Separable(n)
    requires Encode(ks, m) == Encode(ls, n)
    ensures ks == ls && forall k :: k in ks ==> m[k] == n[k]
  {
    assert ks != [] ==> |Encode(ks, m)| > 0;
    assert ls != [] ==> |Encode(ls, n)| > 0;
    if ks != [] {
      SameEntry(ks[0], m[ks[0]], Encode(ks[1..], m), ls[0], n[ls[0]], Encode(ls[1..], n));
      SameBytes(ks[1..], m, ls[1..], n);
      assert ks == [ks[0]] + ks[1..] && ls == [ls[0]] + ls[1..];
    }
  }

  /** Equal bytes mean equal maps, as long as keys hold no NUL and values no newline. */
  lemma HashTellsMapsApart(m: StringMap, ks: seq<string>, n: StringMap, ls: seq<string>)
    requires SortedKeys(ks, m) && SortedKeys(ls, n) && Separable(m) && Separable(n)
    ensures Encode(ks, m) == Encode(ls, n) <==> m == n
  {
    if Encode(ks, m) == Encode(ls, n) {
      SameBytes(ks, m, ls, n);
      assert m == n;
    }
    if m == n {
      SortedIsUnique(ks, ls);
    }
  }

  // ---------------------------------------------------------------- maps without NUL, as the configuration column can hold them

  predicate NoNul(m: StringMap) {
    forall k :: k in m ==> '\0' !in k && '\0' !in m[k]
  }

  predicate OneLineKeys(m: StringMap) {
    forall k :: k in m ==> '\n' !in k
  }

  predicate OneLineValues(m: StringMap) {
    forall k :: k in m ==> '\n' !in m[k]
  }

  /** No key of one map and value of the other both contain a newline. */
  predicate NewlinesApart(m: StringMap, n: StringMap) {
    (OneLineKeys(m) || OneLineValues(n)) && (OneLineKeys(n) || OneLineValues(m))
  }

  /** The bytes of what follows an entry: nothing, or a key up to its NUL and more. */
  predicate Follows(x: string, oneLine: bool) {
    x == "" || exists n :: 0 <= n < |x| && KeyEnds(x, n, oneLine)
  }

  predicate KeyEnds(x: string, n: nat, oneLine: bool)
    requires n < |x|
  {
    x[n] == '\0' && '\0' !in x[..n] && (oneLine ==> '\n' !in x[..n])
  }

  lemma EncodeSplit(ks: seq<string>, m: StringMap)
    requires ks != [] && forall k :: k in ks ==> k in m
    ensures Encode(ks, m) == ks[0] + ['\0'] + (m[ks[0]] + ['\n'] + Encode(ks[1..], m))
  {
    var k, v, x := ks[0], m[ks[0]], Encode(ks[1..], m);
    assert k + "\0" + v + "\n" + x == k + ['\0'] + (v + ['\n'] + x);
  }

  lemma EncodeFollows(ks: seq<string>, m: StringMap)
    requires (forall k :: k in ks ==> k in m) && NoNul(m)
    ensures Follows(Encode(ks, m), OneLineKeys(m))
  {
    if ks != [] {
      FirstIn(ks);
      var x, k := Encode(ks, m), ks[0];
      EncodeSplit(ks, m);
      assert x[..|k|] == k;
      assert KeyEnds(x, |k|, OneLineKeys(m));
    }
  }

  /** A value that runs on past the other's newline runs into the other's next key. */
  lemma LongerValueHoldsNewlines(v: string, x: string, w: string, y: string, oneLine: bool)
    requires '\0' !in v && '\0' !in w && |v| < |w|
    requires v + ['\n'] + x == w + ['\n'] + y && Follows(x, oneLine)
    ensures '\n' in w && !oneLine
  {
    var s, i := v + ['\n'] + x, |w| - |v| - 1;
    assert |s| == |w| + 1 + |y| && s[|v|] == '\n' && s[|v|] == w[|v|];
    forall j | 0 <= j < i ensures x[j] == w[|v| + 1 + j] {
      assert s[|v| + 1 + j] == x[j];
    }
    assert s[|w|] == '\n' && s[|w|] == x[i];
    var n :| 0 <= n < |x| && KeyEnds(x, n, oneLine);
    assert i < n;
    assert x[..n][i] == '\n';
  }

  lemma SameValue(v: string, x: string, w: string, y: string, keysX: bool, keysY: bool)
    requires '\0' !in v && '\0' !in w && v + ['\n'] + x == w + ['\n'] + y
    requires Follows(x, keysX) && Follows(y, keysY)
    requires keysX || '\n' !in w
    requires keysY || '\n' !in v
    ensures v == w && x == y
  {
    var s, t := v + ['\n'] + x, w + ['\n'] + y;
    if |v| < |w| {
      LongerValueHoldsNewlines(v, x, w, y, keysX);
    } else if |w| < |v| {
      LongerValueHoldsNewlines(w, y, v, x, keysY);
    }
    assert s[..|v|] == v && t[..|w|] == w;
    assert s[|v| + 1..] == x && t[|w| + 1..] == y;
  }

  lemma SameFirstEntry(ks: seq<string>, m: StringMap, ls: seq<string>, n: StringMap)
    requires (forall k :: k in ks ==> k in m) && (forall k :: k in ls ==> k in n)
    requires NoNul(m) && NoNul(n) && NewlinesApart(m, n) && ks != [] && ls != []
    requires Encode(ks, m) == Encode(ls, n)
    ensures ks[0] == ls[0] && m[ks[0]] == n[ls[0]] && Encode(ks[1..], m) == Encode(ls[1..], n)
  {
    var k, v, x := ks[0], m[ks[0]], Encode(ks[1..], m);
    var l, w, y := ls[0], n[ls[0]], Encode(ls[1..], n);
    EncodeSplit(ks, m);
    EncodeSplit(ls, n);
    SameCut(k, l, '\0', v + ['\n'] + x, w + ['\n'] + y);
    EncodeFollows(ks[1..], m);
    EncodeFollows(ls[1..], n);
    SameValue(v, x, w, y, OneLineKeys(m), OneLineKeys(n));
  }

  lemma {:induction false} SameBytesNoNul(ks: seq<string>, m: StringMap, ls: seq<string>, n: StringMap)
    requires (forall k :: k in ks ==> k in m) && (forall k :: k in ls ==> k in n)
    requires NoNul(m) && NoNul(n) && NewlinesApart(m, n)
    requires Encode(ks, m) == Encode(ls, n)
    ensures ks == ls && forall k :: k in ks ==> m[k] == n[k]
  {
    assert ks != [] ==> |Encode(ks, m)| > 0;
    assert ls != [] ==> |Encode(ls, n)| > 0;
    if ks != [] {
      SameFirstEntry(ks, m, ls, n);
      SameBytesNoNul(ks[1..], m, ls[1..], n);
      assert ks == [ks[0]] + ks[1..] && ls == [ls[0]] + ls[1..];
    }
  }

  /**
   Maps without NUL have equal bytes only when they are equal, unless a key of one and a value of the
   other contain a newline. It is enough that both sets of keys, or both sets of values, or one whole
   map, are free of newlines.
   */
  lemma HashTellsNulFreeMapsApart(m: StringMap, ks: seq<string>, n: StringMap, ls: seq<string>)
    requires SortedKeys(ks, m) && SortedKeys(ls, n) && NoNul(m) && NoNul(n) && NewlinesApart(m, n)
    ensures Encode(ks, m) == Encode(ls, n) <==> m == n
  {
    if Encode(ks, m) == Encode(ls, n) {
      SameBytesNoNul(ks, m, ls, n);
      assert m == n;
    }
    if m == n {
      SortedIsUnique(ks, ls);
    }
  }

  lemma TwoEntries(k: string, v: string, k2: string, v2: string)
    requires Less(k, k2)
    ensures var m := map[k := v, k2 := v2];
            SortedKeys([k, k2], m) && Encode([k, k2], m) == EncodeEntry(k, v) + EncodeEntry(k2, v2)
  {
    LessIsTotal(k, k2);
    var m := map[k := v, k2 := v2];
    assert [k, k2][1..] == [k2] && [k2][1..] == [];
    assert Encode([k2], m) == EncodeEntry(k2, v2) + "";
  }

  /** Otherwise a line can end the first value or begin the second key, and the bytes are the same. */
  lemma NewlineCollision(k: string, v: string, moved: string, k2: string, v2: string)
    requires Less(k, moved + "\n" + k2) && Less(k, k2)
    ensures var m, n := map[k := v, moved + "\n" + k2 := v2], map[k := v + "\n" + moved, k2 := v2];
            && m != n && SortedKeys([k, moved + "\n" + k2], m) && SortedKeys([k, k2], n)
            && Encode([k, moved + "\n" + k2], m) == Encode([k, k2], n)
  {
    var key := moved + "\n" + k2;
    var m, n := map[k := v, key := v2], map[k := v + "\n" + moved, k2 := v2];
    TwoEntries(k, v, key, v2);
    TwoEntries(k, v + "\n" + moved, k2, v2);
    LessIsTotal(k, key);
    LessIsTotal(k, k2);
    assert |m[k]| < |n[k]|;
    SameWritten(k, v, moved, k2, v2);
  }

  lemma SameWritten(k: string, v: string, moved: string, k2: string, v2: string)
    ensures EncodeEntry(k, v) + EncodeEntry(moved + "\n" + k2, v2) == EncodeEntry(k, v + "\n" + moved) + EncodeEntry(k2, v2)
  {
  }

  /** It happens without NUL: a, b and c as keys and values are enough. */
  lemma NulFreeCollision()
    ensures var m, n := map["a" := "v", "b\nc" := "d"], map["a" := "v\nb", "c" := "d"];
            && NoNul(m) && NoNul(n) && !NewlinesApart(m, n) && m != n
            && SortedKeys(["a", "b\nc"], m) && SortedKeys(["a", "c"], n) && Encode(["a", "b\nc"], m) == Encode(["a", "c"], n)
  {
    assert "b" + "\n" + "c" == "b\nc" && "v" + "\n" + "b" == "v\nb";
    NewlineCollision("a", "v", "b", "c", "d");
    assert "b\nc"[1] == '\n' && "v\nb"[1] == '\n';
  }

  /** What is known of two mappings whose bytes are compared. */
  predicate ToldApart(m: StringMap, n: StringMap) {
    (Separable(m) && Separable(n)) || (NoNul(m) && NoNul(n) && NewlinesApart(m, n))
  }

  lemma SameBytesSameMap(m: StringMap, ks: seq<string>, n: StringMap, ls: seq<string>)
    requires SortedKeys(ks, m) && SortedKeys(ls, n) && ToldApart(m, n)
    ensures Encode(ks, m) == Encode(ls, n) <==> m == n
  {
    if Separable(m) && Separable(n) {
      HashTellsMapsApart(m, ks, n, ls);
    } else {
      HashTellsNulFreeMapsApart(m, ks, n, ls);
    }
  }

  // ---------------------------------------------------------------- differences

  datatype Change = Change(oldSku: string, newSku: string)

  datatype Diff = Diff(added: StringMap, deleted: StringMap, changed: map<string, Change>)

  method DiffStringMap(oldM: StringMap, newM: StringMap) returns (d: Diff)
    ensures d == DiffOf(oldM, newM)
  {
    var added, changed := WalkNew(oldM, newM);
    var deleted := WalkOld(oldM, newM);
    d := Diff(added, deleted, changed);
  }

  method WalkNew(oldM: StringMap, newM: StringMap) returns (added: StringMap, changed: map<string, Change>)
    ensures added == DiffOf(oldM, newM).added && changed == DiffOf(oldM, newM).changed
  {
    added, changed := map[], map[];
    var rest := newM.Keys;
    while rest != {}
      invariant rest <= newM.Keys
      invariant forall k :: k in added <==> k in newM && k !in oldM && k !in rest
      invariant forall k :: k in added ==> added[k] == newM[k]
      invariant forall k :: k in changed <==> k in newM && k in oldM && oldM[k] != newM[k] && k !in rest
      invariant forall k :: k in changed ==> changed[k] == Change(oldM[k], newM[k])
      decreases |rest|
    {
      var k :| k in rest;
      if k !in oldM {
        added := added[k := newM[k]];
      } else if oldM[k] != newM[k] {
        changed := changed[k := Change(oldM[k], newM[k])];
      }
      rest := rest - {k};
    }
  }

  method WalkOld(oldM: StringMap, newM: StringMap) returns (deleted: StringMap)
    ensures deleted == DiffOf(oldM, newM).deleted
  {
    deleted := map[];
    var rest := oldM.Keys;
    while rest != {}
      invariant rest <= oldM.Keys
      invariant forall k :: k in deleted <==> k in oldM && k !in newM && k !in rest
      invariant forall k :: k in deleted ==> deleted[k] == oldM[k]
      decreases |rest|
    {
      var k :| k in rest;
      if k !in newM {
        deleted := deleted[k := oldM[k]];
      }
      rest := rest - {k};
    }
  }

  function DiffOf(oldM: StringMap, newM: StringMap): Diff {
    Diff(map k | k in newM && k !in oldM :: newM[k],
         map k | k in oldM && k !in newM :: oldM[k],
         map k | k in newM && k in oldM && oldM[k] != newM[k] :: Change(oldM[k], newM[k]))
  }

  function Applied(m: StringMap, d: Diff): StringMap {
    (m - d.deleted.Keys) + d.added + (map k | k in d.changed :: d.changed[k].newSku)
  }

  lemma SizeSplit(a: set<string>, b: set<string>)
    ensures |a| == |a * b| + |a - b|
  {
    assert a == (a * b) + (a - b);
  }

  lemma DiffKeys(oldM: StringMap, newM: StringMap)
    ensures DiffOf(oldM, newM).added.Keys == newM.Keys - oldM.Keys
    ensures DiffOf(oldM, newM).deleted.Keys == oldM.Keys - newM.Keys
  {
  }

  lemma SetSizes(a: set<string>, b: set<string>)
    ensures |a| + |b - a| == |b| + |a - b|
  {
    SizeSplit(a, b);
    SizeSplit(b, a);
    assert a * b == b * a;
  }

  lemma DiffSizes(oldM: StringMap, newM: StringMap)
    ensures |newM| + |DiffOf(oldM, newM).deleted| == |oldM| + |DiffOf(oldM, newM).added|
  {
    DiffKeys(oldM, newM);
    SetSizes(newM.Keys, oldM.Keys);
    KeyCount(oldM);
    KeyCount(newM);
    KeyCount(DiffOf(oldM, newM).added);
    KeyCount(DiffOf(oldM, newM).deleted);
  }

  lemma KeyCount(m: StringMap)
    ensures |m| == |m.Keys|
  {
  }

  lemma AppliedIsNew(oldM: StringMap, newM: StringMap)
    ensures Applied(oldM, DiffOf(oldM, newM)) == newM
  {
    forall k ensures At(Applied(oldM, DiffOf(oldM, newM)), k) == At(newM, k) {
      AppliedAt(oldM, newM, k);
    }
    SameAt(Applied(oldM, DiffOf(oldM, newM)), newM);
  }

  function At(m: StringMap, k: string): Option<string> {
    if k in m then Some(m[k]) else None
  }

  lemma SameAt(m: StringMap, n: StringMap)
    requires forall k :: At(m, k) == At(n, k)
    ensures m == n
  {
    forall k ensures (k in m <==> k in n) && (k in m ==> m[k] == n[k]) {
      assert At(m, k) == At(n, k);
    }
  }

  /** Applying the difference to the old map gives the new one, and the counts add up. */
  lemma ApplyDiff(oldM: StringMap, newM: StringMap)
    ensures Applied(oldM, DiffOf(oldM, newM)) == newM
    ensures |newM| + |DiffOf(oldM, newM).deleted| == |oldM| + |DiffOf(oldM, newM).added|
  {
    AppliedIsNew(oldM, newM);
    DiffSizes(oldM, newM);
  }

  lemma AppliedAt(oldM: StringMap, newM: StringMap, k: string)
    ensures At(Applied(oldM, DiffOf(oldM, newM)), k) == At(newM, k)
  {
  }

  // ---------------------------------------------------------------- the strict reverse map

  /** The trimmed entries; two keys may trim to one. */
  function Entries(m: StringMap): set<(string, string)> {
    set k | k in m :: (Trim(k), Trim(m[k]))
  }

  predicate Filled(es: set<(string, string)>) {
    forall e :: e in es ==> e.0 != "" && e.1 != ""
  }

  predicate Functional(es: set<(string, string)>) {
    forall e, f :: e in es && f in es && e.0 == f.0 ==> e == f
  }

  predicate Injective(es: set<(string, string)>) {
    forall e, f :: e in es && f in es && e.1 == f.1 ==> e == f
  }

  /** The same on the map itself: no key or value is blank, keys that trim to one agree, and values that trim to one have one key. */
  predicate NoBlank(m: StringMap) {
    forall k :: k in m ==> Trim(k) != "" && Trim(m[k]) != ""
  }

  predicate OneValueEach(m: StringMap) {
    forall j, k :: j in m && k in m && Trim(j) == Trim(k) ==> Trim(m[j]) == Trim(m[k])
  }

  predicate OneKeyEach(m: StringMap) {
    forall j, k :: j in m && k in m && Trim(m[j]) == Trim(m[k]) ==> Trim(j) == Trim(k)
  }

  /** r leads from each trimmed value back to its trimmed key, and nowhere else. */
  ghost predicate LeadsBack(r: StringMap, m: StringMap) {
    && (forall k :: k in m ==> Trim(m[k]) in r && r[Trim(m[k])] == Trim(k))
    && (forall v :: v in r ==> exists k :: k in m && Trim(m[k]) == v && Trim(k) == r[v])
  }

  lemma EntryOf(m: StringMap, k: string)
    requires k in m
    ensures (Trim(k), Trim(m[k])) in Entries(m)
  {
  }

  lemma EntriesMean(m: StringMap)
    ensures Filled(Entries(m)) <==> NoBlank(m)
    ensures Functional(Entries(m)) <==> OneValueEach(m)
    ensures Injective(Entries(m)) <==> OneKeyEach(m)
  {
    forall k | k in m ensures (Trim(k), Trim(m[k])) in Entries(m) {
      EntryOf(m, k);
    }
  }

  lemma InvertsMeans(r: StringMap, m: StringMap)
    requires Inverts(r, Entries(m))
    ensures LeadsBack(r, m)
  {
    forall k | k in m ensures Trim(m[k]) in r && r[Trim(m[k])] == Trim(k) {
      EntryOf(m, k);
    }
    forall v | v in r ensures exists k :: k in m && Trim(m[k]) == v && Trim(k) == r[v] {
      assert (r[v], v) in Entries(m);
    }
  }

  predicate Reversible(es: set<(string, string)>) {
    Filled(es) && Functional(es) && Injective(es)
  }

  /** r holds exactly the entries, read backwards. */
  ghost predicate Inverts(r: StringMap, es: set<(string, string)>) {
    (forall e :: e in es ==> e.1 in r && r[e.1] == e.0) && forall v :: v in r ==> (r[v], v) in es
  }

  /** m holds exactly the entries. */
  ghost predicate Holds(m: StringMap, es: set<(string, string)>) {
    (forall e :: e in es ==> e.0 in m && m[e.0] == e.1) && forall k :: k in m ==> (k, m[k]) in es
  }

  function EntriesOf(m: StringMap, ks: set<string>): set<(string, string)> {
    set k | k in ks && k in m :: (Trim(k), Trim(m[k]))
  }

  lemma EntriesStep(m: StringMap, ks: set<string>, k: string)
    requires k in m
    ensures EntriesOf(m, ks + {k}) == EntriesOf(m, ks) + {(Trim(k), Trim(m[k]))}
    ensures (Trim(k), Trim(m[k])) in Entries(m) && EntriesOf(m, ks) <= Entries(m)
    ensures EntriesOf(m, {}) == {} && EntriesOf(m, m.Keys) == Entries(m)
  {
    var e := (Trim(k), Trim(m[k]));
    var grown := EntriesOf(m, ks + {k});
    forall x ensures x in grown <==> x in EntriesOf(m, ks) || x == e {
      if x in grown {
        var j :| j in ks + {k} && j in m && x == (Trim(j), Trim(m[j]));
        assert j == k || j in ks;
      }
    }
  }

  /** One entry is added to the trimmed map; it clashes exactly when its key is there with another value. */
  lemma HoldsMore(m: StringMap, es: set<(string, string)>, k: string, v: string)
    requires Holds(m, es)
    ensures !(k in m && m[k] != v) ==> Holds(m[k := v], es + {(k, v)})
    ensures k in m && m[k] != v ==> (k, m[k]) in es
    ensures Functional(es)
  {
  }

  /** The entries of the walked keys are trimmed into m, and none is blank. */
  ghost predicate Trimming(sku: StringMap, walked: set<string>, m: StringMap) {
    Holds(m, EntriesOf(sku, walked)) && Filled(EntriesOf(sku, walked))
  }

  lemma TrimStep(sku: StringMap, walked: set<string>, m: StringMap, raw: string)
    requires Trimming(sku, walked, m) && raw in sku
    ensures var k, v := Trim(raw), Trim(sku[raw]);
            && (k == "" || v == "" ==> !Filled(Entries(sku)))
            && (k in m && m[k] != v ==> !Functional(Entries(sku)))
            && (k != "" && v != "" && !(k in m && m[k] != v) ==> Trimming(sku, walked + {raw}, m[k := v]))
  {
    var k, v := Trim(raw), Trim(sku[raw]);
    EntriesStep(sku, walked, raw);
    HoldsMore(m, EntriesOf(sku, walked), k, v);
    if k in m && m[k] != v {
      Clash(Entries(sku), (k, v), (k, m[k]));
    }
  }

  /** The trimming loop of buildReverseSKUMap: refuses blanks and keys that trim to one with different values. */
  method TrimEntries(sku: StringMap) returns (r: Result<StringMap>)
    ensures r.Ok? <==> Filled(Entries(sku)) && Functional(Entries(sku))
    ensures r.Ok? ==> Holds(r.value, Entries(sku))
  {
    var normalized: StringMap := map[];
    var walked: set<string> := {};
    while walked != sku.Keys
      invariant walked <= sku.Keys && Trimming(sku, walked, normalized)
      decreases |sku.Keys - walked|
    {
      var raw :| raw in sku.Keys - walked;
      var k, v := Trim(raw), Trim(sku[raw]);
      TrimStep(sku, walked, normalized, raw);
      if k == "" || v == "" {
        return Err;
      }
      if k in normalized && normalized[k] != v {
        return Err;
      }
      normalized, walked := normalized[k := v], walked + {raw};
    }
    assert EntriesOf(sku, sku.Keys) == Entries(sku);
    HoldsMore(normalized, Entries(sku), "", "");
    r := Ok(normalized);
  }

  lemma Clash(es: set<(string, string)>, e: (string, string), f: (string, string))
    requires e in es && f in es && e.0 == f.0 && e.1 != f.1
    ensures !Functional(es)
  {
  }

  /** The entries of the walked keys have been read backwards into out. */
  ghost predicate Reversing(m: StringMap, walked: set<string>, out: StringMap) {
    Filled(EntriesOf(m, walked)) && Inverts(out, EntriesOf(m, walked))
  }

  lemma ReverseStep(m: StringMap, walked: set<string>, out: StringMap, raw: string)
    requires Reversing(m, walked, out) && raw in m
    ensures var k, v := Trim(raw), Trim(m[raw]);
            && (k == "" || v == "" ==> !Filled(Entries(m)))
            && (v in out && out[v] != k ==> !Injective(Entries(m)))
            && (k != "" && v != "" && !(v in out && out[v] != k) ==> Reversing(m, walked + {raw}, out[v := k]))
  {
    var k, v := Trim(raw), Trim(m[raw]);
    EntriesStep(m, walked, raw);
    InvertsMore(out, EntriesOf(m, walked), k, v);
    if v in out && out[v] != k {
      ClashBack(Entries(m), (k, v), (out[v], v));
    }
  }

  lemma InvertsMore(r: StringMap, es: set<(string, string)>, k: string, v: string)
    requires Inverts(r, es)
    ensures !(v in r && r[v] != k) ==> Inverts(r[v := k], es + {(k, v)})
    ensures v in r && r[v] != k ==> (r[v], v) in es
  {
  }

  lemma ClashBack(es: set<(string, string)>, e: (string, string), f: (string, string))
    requires e in es && f in es && e.1 == f.1 && e.0 != f.0
    ensures !Injective(es)
  {
  }

  lemma InvertedIsInjective(r: StringMap, es: set<(string, string)>)
    requires Inverts(r, es)
    ensures Injective(es)
  {
  }

  /** reverseMapStrict, over an arbitrary iteration order. */
  method ReverseMapStrict(m: StringMap) returns (r: Result<StringMap>)
    ensures r.Ok? <==> Filled(Entries(m)) && Injective(Entries(m))
    ensures r.Ok? ==> Inverts(r.value, Entries(m))
  {
    var out: StringMap := map[];
    var walked: set<string> := {};
    while walked != m.Keys
      invariant walked <= m.Keys && Reversing(m, walked, out)
      decreases |m.Keys - walked|
    {
      var raw :| raw in m.Keys - walked;
      var k, v := Trim(raw), Trim(m[raw]);
      ReverseStep(m, walked, out, raw);
      if k == "" || v == "" {
        return Err;
      }
      if v in out && out[v] != k {
        return Err;
      }
      out, walked := out[v := k], walked + {raw};
    }
    assert EntriesOf(m, m.Keys) == Entries(m);
    InvertedIsInjective(out, Entries(m));
    r := Ok(out);
  }

  /** Trimmed entries are the entries of the map that holds them. */
  lemma HeldEntries(sku: StringMap, m: StringMap)
    requires Holds(m, Entries(sku))
    ensures Entries(m) == Entries(sku)
  {
    forall k | k in m ensures (Trim(k), Trim(m[k])) == (k, m[k]) && (k, m[k]) in Entries(sku) {
      var raw :| raw in sku && (k, m[k]) == (Trim(raw), Trim(sku[raw]));
    }
    forall e | e in Entries(sku) ensures e in Entries(m) {
      assert e.0 in m && m[e.0] == e.1;
    }
  }

  /** buildReverseSKUMap: trim, refuse blanks and contradictions, then reverse. */
  method BuildReverseSKUMap(sku: StringMap) returns (r: Result<StringMap>)
    ensures r.Ok? <==> Reversible(Entries(sku))
    ensures r.Ok? ==> Inverts(r.value, Entries(sku))
    ensures r.Ok? <==> NoBlank(sku) && OneValueEach(sku) && OneKeyEach(sku)
    ensures r.Ok? ==> LeadsBack(r.value, sku)
  {
    EntriesMean(sku);
    var normalized := TrimEntries(sku);
    if normalized.Err? {
      return Err;
    }
    HeldEntries(sku, normalized.value);
    r := ReverseMapStrict(normalized.value);
    if r.Ok? {
      InvertsMeans(r.value, sku);
    }
  }

  /** The reverse map is the same whatever order the map was walked in. */
  lemma InverseIsUnique(r: StringMap, s: StringMap, es: set<(string, string)>)
    requires Inverts(r, es) && Inverts(s, es)
    ensures r == s
  {
    forall v ensures (v in r <==> v in s) && (v in r ==> r[v] == s[v]) {
      if v in r {
        assert (r[v], v) in es;
      }
      if v in s {
        assert (s[v], v) in es;
      }
    }
  }
}
