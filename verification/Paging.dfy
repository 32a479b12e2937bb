/** Reading a remote list page by page, and sending a list batch by batch. */
module Paging {

  function Min(a: int, b: int): int {
    if a < b then a else b
  }

  // ---------------------------------------------------------------- chunks and batches

  /** Consecutive pieces of n items; the last may be shorter. */
  function Chunks<T>(items: seq<T>, n: nat): (cs: seq<seq<T>>)
    requires n > 0
    decreases |items|
  {
    if items == [] then [] else if |items| <= n then [items] else [items[..n]] + Chunks(items[n..], n)
  }

  function Flat<T>(cs: seq<seq<T>>): seq<T> {
    if cs == [] then [] else cs[0] + Flat(cs[1..])
  }

  /** The chunks put the list back together, all but the last are full, and none is empty. */
  lemma {:induction false} ChunksCover<T>(items: seq<T>, n: nat)
    requires n > 0
    ensures Flat(Chunks(items, n)) == items
    ensures forall i :: 0 <= i < |Chunks(items, n)| ==> 0 < |Chunks(items, n)[i]| <= n
    ensures forall i :: 0 <= i < |Chunks(items, n)| - 1 ==> |Chunks(items, n)[i]| == n
    decreases |items|
  {
    if items == [] {
    } else if |items| <= n {
      assert [items][1..] == [];
      assert Flat([items]) == items + [];
    } else {
      ChunksCover(items[n..], n);
      var cs := Chunks(items, n);
      assert cs[1..] == Chunks(items[n..], n);
      assert items == items[..n] + items[n..];
    }
  }

  /** The chunk starting at `start` comes next. */
  lemma NextChunk<T>(items: seq<T>, n: nat, start: nat)
    requires n > 0 && start < |items|
    ensures var end := Min(start + n, |items|);
            Chunks(items[start..], n) == [items[start..end]] + Chunks(items[end..], n)
  {
    var rest := items[start..];
    if |rest| <= n {
      assert items[|items|..] == [];
      assert items[start..|items|] == rest;
    } else {
      assert rest[..n] == items[start..start + n] && rest[n..] == items[start + n..];
    }
  }

  method ChunkStrings(items: seq<string>, chunkSize: int) returns (out: seq<seq<string>>)
    ensures out == Chunks(items, if chunkSize <= 0 then 50 else chunkSize)
  {
    var size := if chunkSize <= 0 then 50 else chunkSize;
    out := [];
    var i := 0;
    assert items[0..] == items;
    while i < |items|
      invariant 0 <= i <= |items|
      invariant out + Chunks(items[i..], size) == Chunks(items, size)
    {
      NextChunk(items, size, i);
      var j := i + size;
      if j > |items| {
        j := |items|;
      }
      Regroup(out, items[i..j], Chunks(items[j..], size));
      out := out + [items[i..j]];
      i := j;
    }
    assert items[|items|..] == [];
    assert out + [] == out;
  }

  lemma Regroup<T>(a: seq<seq<T>>, b: seq<T>, c: seq<seq<T>>)
    ensures a + ([b] + c) == a + [b] + c
  {
  }

  /** The update loop: batches go out in order until one fails. */
  method SendBatches<T>(invs: seq<T>, size: int, fails: set<nat>) returns (sent: seq<seq<T>>, ok: bool)
    ensures var all := Chunks(invs, if size <= 0 then 50 else size);
            && sent <= all
            && (ok <==> forall i :: 0 <= i < |all| ==> i !in fails)
            && (ok ==> sent == all)
            && (!ok ==> |sent| < |all| && |sent| in fails)
            && forall i :: 0 <= i < |sent| ==> i !in fails
  {
    var batchSize := if size <= 0 then 50 else size;
    sent := [];
    var start := 0;
    assert invs[0..] == invs;
    while start < |invs|
      invariant 0 <= start <= |invs|
      invariant sent + Chunks(invs[start..], batchSize) == Chunks(invs, batchSize)
      invariant forall i :: 0 <= i < |sent| ==> i !in fails
    {
      NextChunk(invs, batchSize, start);
      var end := start + batchSize;
      if end > |invs| {
        end := |invs|;
      }
      Regroup(sent, invs[start..end], Chunks(invs[end..], batchSize));
      if |sent| in fails {
        return sent, false;
      }
      sent := sent + [invs[start..end]];
      start := end;
    }
    assert invs[|invs|..] == [];
    assert sent + [] == sent;
    ok := true;
  }

  // ---------------------------------------------------------------- pages

  /** What the server returns: it may cap the page length. */
  function Page<T>(list: seq<T>, offset: nat, length: nat, cap: nat): seq<T> {
    if offset >= |list| then [] else list[offset..Min(offset + Min(length, cap), |list|)]
  }

  function PullLength(size: int): nat {
    if size < 200 then 200 else size
  }

  /** The part of the list that the loop gets to see. */
  function Fetched<T>(list: seq<T>, size: int, cap: nat): seq<T> {
    var page := Min(PullLength(size), cap);
    if page >= size then list else list[..Min(page, |list|)]
  }

  /**
   The page loop of SyncStock against a list that does not change meanwhile. `exact` tells whether
   the server reports the total or 0.
   */
  method PullPages<T(==)>(list: seq<T>, size: int, cap: nat, exact: bool) returns (items: seq<T>, calls: nat)
    requires cap > 0
    ensures items == Fetched(list, size, cap)
  {
    var pullLength := PullLength(size);
    ghost var page := Min(pullLength, cap);
    items, calls := [], 0;
    var offset := 0;
    while true
      invariant 0 <= offset <= |list| && items == list[..offset]
      invariant offset > 0 ==> page >= size
      decreases |list| - offset, if calls == 0 then 1 else 0
    {
      var got := Page(list, offset, pullLength, cap);
      var total := if exact then |list| else 0;
      calls := calls + 1;
      if |got| == 0 {
        assert offset == |list|;
        break;
      }
      assert got == list[offset..offset + |got|];
      assert list[..offset + |got|] == list[..offset] + got;
      items := items + got;
      offset := offset + |got|;
      if total > 0 && offset >= total {
        break;
      }
      if |got| < size {
        break;
      }
    }
    assert list[..|list|] == list;
  }

  /** Every item is processed once and in order if and only if a full page is at least `size` long, or one page is enough. */
  lemma PagingCompleteIff<T>(list: seq<T>, size: int, cap: nat)
    requires cap > 0
    ensures Fetched(list, size, cap) == list <==> cap >= size || |list| <= cap
  {
    if cap < size && |list| > cap {
      assert |Fetched(list, size, cap)| < |list|;
    } else if cap < size {
      assert list[..|list|] == list;
    }
  }
}
