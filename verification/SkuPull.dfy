/**
 Pulling the SKU pairs of every store, page by page: conflict detection while the two maps of
 each store and the new mapping grow, and the guarded replacement of mapping.sku.
 */
module SkuPull {
  import opened Text
  import opened SkuMaps
  import Tracking

  /** A pair as LingXing lists it. */
  datatype RawPair = RawPair(storeId: string, msku: string, sku: string)

  /** The same trimmed, with the store it was asked for. */
  datatype Pair = Pair(store: string, storeOf: string, msku: string, sku: string)

  function Tag(store: string, raw: RawPair): Pair {
    Pair(store, Trim(raw.storeId), Trim(raw.msku), Trim(raw.sku))
  }

  datatype StoreState = StoreState(toSku: StringMap, toMsku: StringMap)

  datatype Pulled = Pulled(stores: map<string, StoreState>, all: StringMap, conflicts: nat)

  const EMPTY := Pulled(map[], map[], 0)

  function StateOf(p: Pulled, store: string): StoreState {
    if store in p.stores then p.stores[store] else StoreState(map[], map[])
  }

  /** k is already bound to something other than v. */
  predicate Clashes(m: StringMap, k: string, v: string) {
    k in m && m[k] != v
  }

  function Conflict(p: Pulled): Pulled {
    p.(conflicts := p.conflicts + 1)
  }

  /** One pair; what was stored before the check that fails stays stored. */
  function Note(p: Pulled, t: Pair): Pulled {
    var st := StateOf(p, t.store);
    if (t.storeOf != "" && t.storeOf != t.store) || t.msku == "" || t.sku == "" || Clashes(st.toSku, t.msku, t.sku) then Conflict(p)
    else
      var toSku := st.toSku[t.msku := t.sku];
      if Clashes(st.toMsku, t.sku, t.msku) then Conflict(p.(stores := p.stores[t.store := StoreState(toSku, st.toMsku)]))
      else
        var q := p.(stores := p.stores[t.store := StoreState(toSku, st.toMsku[t.sku := t.msku])]);
        if Clashes(p.all, t.msku, t.sku) then Conflict(q) else q.(all := q.all[t.msku := t.sku])
  }

  function NoteFrom(p: Pulled, ts: seq<Pair>): Pulled {
    if ts == [] then p else Note(NoteFrom(p, ts[..|ts| - 1]), ts[|ts| - 1])
  }

  function NoteAll(ts: seq<Pair>): Pulled {
    NoteFrom(EMPTY, ts)
  }

  lemma NoteFromSnoc(p: Pulled, ts: seq<Pair>, t: Pair)
    ensures NoteFrom(p, ts + [t]) == Note(NoteFrom(p, ts), t)
  {
    assert (ts + [t])[..|ts|] == ts;
  }

  lemma {:induction false} NoteFromConcat(p: Pulled, a: seq<Pair>, b: seq<Pair>)
    ensures NoteFrom(p, a + b) == NoteFrom(NoteFrom(p, a), b)
  {
    if b == [] {
      assert a + b == a;
    } else {
      var front, t := b[..|b| - 1], b[|b| - 1];
      NoteFromConcat(p, a, front);
      NoteFromSnoc(p, a + front, t);
      NoteFromSnoc(NoteFrom(p, a), front, t);
      assert b == front + [t];
      Regroup3(a, front, [t]);
    }
  }

  function Tags(store: string, raws: seq<RawPair>): seq<Pair> {
    MapAll(Tagger(store), raws)
  }

  function Tagger(store: string): RawPair -> Pair {
    raw => Tag(store, raw)
  }

  function MapAll<X, Y>(f: X -> Y, xs: seq<X>): (ys: seq<Y>)
    ensures |ys| == |xs| && forall i :: 0 <= i < |xs| ==> ys[i] == f(xs[i])
  {
    seq(|xs|, i requires 0 <= i < |xs| => f(xs[i]))
  }

  lemma MapAllSnoc<X, Y>(f: X -> Y, xs: seq<X>, x: X)
    ensures MapAll(f, xs + [x]) == MapAll(f, xs) + [f(x)]
  {
  }

  /** What is made of the members are the members made. */
  lemma InMapAll<X, Y>(f: X -> Y, xs: seq<X>, y: Y)
    ensures y in MapAll(f, xs) <==> exists x :: x in xs && y == f(x)
  {
    var ys := MapAll(f, xs);
    if y in ys {
      var i :| 0 <= i < |ys| && ys[i] == y;
      assert xs[i] in xs;
    }
    if x :| x in xs && y == f(x) {
      var i :| 0 <= i < |xs| && xs[i] == x;
      assert ys[i] == y;
    }
  }

  // ---------------------------------------------------------------- the loops

  /** A page of the list, or a failed call. */
  type Reply = Option<seq<RawPair>>

  method ReadPage(p: Pulled, store: string, page: seq<RawPair>) returns (q: Pulled)
    ensures q == NoteFrom(p, Tags(store, page))
  {
    q := p;
    for i := 0 to |page|
      invariant q == NoteFrom(p, Tags(store, page[..i]))
    {
      NextPair(p, store, page, i);
      q := NotePair(q, store, page[i]);
    }
    assert page[..|page|] == page;
  }

  lemma NextPair(p: Pulled, store: string, page: seq<RawPair>, i: nat)
    requires i < |page|
    ensures NoteFrom(p, Tags(store, page[..i + 1])) == Note(NoteFrom(p, Tags(store, page[..i])), Tag(store, page[i]))
  {
    assert page[..i + 1] == page[..i] + [page[i]];
    TagsSnoc(store, page[..i], page[i]);
    NoteFromSnoc(p, Tags(store, page[..i]), Tag(store, page[i]));
  }

  /** The body of the innermost loop. */
  method NotePair(p: Pulled, store: string, it: RawPair) returns (q: Pulled)
    ensures q == Note(p, Tag(store, it))
  {
    q := p;
    var itemStoreId := Trim(it.storeId);
    if itemStoreId != "" && itemStoreId != store {
      return Conflict(q);
    }
    var msku, sku := Trim(it.msku), Trim(it.sku);
    if msku == "" || sku == "" {
      return Conflict(q);
    }
    var state := StateOf(q, store);
    if msku in state.toSku && state.toSku[msku] != sku {
      return Conflict(q);
    }
    state := state.(toSku := state.toSku[msku := sku]);
    q := q.(stores := q.stores[store := state]);
    if sku in state.toMsku && state.toMsku[sku] != msku {
      return Conflict(q);
    }
    state := state.(toMsku := state.toMsku[sku := msku]);
    q := q.(stores := p.stores[store := state]);
    if msku in q.all && q.all[msku] != sku {
      return Conflict(q);
    }
    q := q.(all := q.all[msku := sku]);
  }

  /** Not the last page: neither empty nor short. */
  predicate FullPage(page: seq<RawPair>, size: int) {
    |page| > 0 && |page| >= size
  }

  function Prefixed(listed: seq<Pair>, rest: Result<seq<Pair>>): Result<seq<Pair>> {
    if rest.Ok? then Ok(listed + rest.value) else Err
  }

  /** All that a store lists: its pages up to the first that is not full. A failed call, or none any more, fails it. */
  function ReadStore(store: string, replies: seq<Reply>, size: int): Result<seq<Pair>> {
    ReadFrom(store, replies, size, 0)
  }

  /** The same from the n-th call on. */
  function ReadFrom(store: string, replies: seq<Reply>, size: int, n: nat): Result<seq<Pair>>
    requires n <= |replies|
    decreases |replies| - n
  {
    if n == |replies| || replies[n].None? then Err
    else if FullPage(replies[n].value, size) then Prefixed(Tags(store, replies[n].value), ReadFrom(store, replies, size, n + 1))
    else Ok(Tags(store, replies[n].value))
  }

  lemma PrefixedTwice(a: seq<Pair>, b: seq<Pair>, rest: Result<seq<Pair>>)
    ensures Prefixed(a, Prefixed(b, rest)) == Prefixed(a + b, rest)
  {
    if rest.Ok? {
      Regroup3(a, b, rest.value);
    }
  }

  lemma NextPage(listed: seq<Pair>, store: string, replies: seq<Reply>, size: int, n: nat)
    requires n < |replies| && replies[n].Some?
    ensures var more := listed + Tags(store, replies[n].value);
            Prefixed(listed, ReadFrom(store, replies, size, n)) ==
            if FullPage(replies[n].value, size) then Prefixed(more, ReadFrom(store, replies, size, n + 1)) else Ok(more)
  {
    PrefixedTwice(listed, Tags(store, replies[n].value), ReadFrom(store, replies, size, n + 1));
  }

  lemma PrefixedNothing(r: Result<seq<Pair>>)
    ensures Prefixed([], r) == r
  {
    assert r.Ok? ==> [] + r.value == r.value;
  }

  /** The page loop of one store. */
  method PullStore(p: Pulled, store: string, replies: seq<Reply>, size: int) returns (ok: bool, q: Pulled)
    ensures ok <==> ReadStore(store, replies, size).Ok?
    ensures ok ==> q == NoteFrom(p, ReadStore(store, replies, size).value)
  {
    q := p;
    ghost var listed: seq<Pair> := [];
    PrefixedNothing(ReadFrom(store, replies, size, 0));
    var n := 0;
    while n < |replies|
      invariant 0 <= n <= |replies|
      invariant q == NoteFrom(p, listed)
      invariant Prefixed(listed, ReadFrom(store, replies, size, n)) == ReadStore(store, replies, size)
    {
      if replies[n].None? {
        return false, q;
      }
      var page := replies[n].value;
      NextPage(listed, store, replies, size, n);
      NoteFromConcat(p, listed, Tags(store, page));
      listed := listed + Tags(store, page);
      if |page| == 0 {
        return true, q;
      }
      q := ReadPage(q, store, page);
      if |page| < size {
        return true, q;
      }
      n := n + 1;
    }
    ok := false;
  }

  lemma TagsSnoc(store: string, raws: seq<RawPair>, last: RawPair)
    ensures Tags(store, raws + [last]) == Tags(store, raws) + [Tag(store, last)]
  {
    MapAllSnoc(Tagger(store), raws, last);
  }

  lemma Regroup3(a: seq<Pair>, b: seq<Pair>, c: seq<Pair>)
    ensures a + (b + c) == a + b + c
  {
  }

  datatype PullResult = PullFailed | Complete(pulled: Pulled)

  function AnswersOf(answers: map<string, seq<Reply>>, store: string): seq<Reply> {
    if store in answers then answers[store] else []
  }

  /** All that the first n stores list, in order. */
  function ReadStores(storeIDs: seq<string>, answers: map<string, seq<Reply>>, size: int, n: nat): Result<seq<Pair>>
    requires n <= |storeIDs|
  {
    if n == 0 then Ok([])
    else
      var before := ReadStores(storeIDs, answers, size, n - 1);
      if before.Err? then Err else Prefixed(before.value, ReadStore(storeIDs[n - 1], AnswersOf(answers, storeIDs[n - 1]), size))
  }

  /** One failing store fails all. */
  lemma {:induction false} FailureStays(storeIDs: seq<string>, answers: map<string, seq<Reply>>, size: int, n: nat, m: nat)
    requires n <= m <= |storeIDs| && ReadStores(storeIDs, answers, size, n).Err?
    ensures ReadStores(storeIDs, answers, size, m).Err?
    decreases m
  {
    if n < m {
      FailureStays(storeIDs, answers, size, n, m - 1);
      FailsOn(storeIDs, answers, size, m - 1);
    }
  }

  lemma FailsOn(storeIDs: seq<string>, answers: map<string, seq<Reply>>, size: int, n: nat)
    requires n < |storeIDs| && ReadStores(storeIDs, answers, size, n).Err?
    ensures ReadStores(storeIDs, answers, size, n + 1).Err?
  {
  }

  lemma OneMoreStore(storeIDs: seq<string>, answers: map<string, seq<Reply>>, size: int, i: nat)
    requires i < |storeIDs| && ReadStores(storeIDs, answers, size, i).Ok?
    ensures var before, here := ReadStores(storeIDs, answers, size, i).value, ReadStore(storeIDs[i], AnswersOf(answers, storeIDs[i]), size);
            if here.Err? then ReadStores(storeIDs, answers, size, |storeIDs|).Err?
            else
              ReadStores(storeIDs, answers, size, i + 1) == Ok(before + here.value)
              && NoteAll(before + here.value) == NoteFrom(NoteAll(before), here.value)
  {
    var before, here := ReadStores(storeIDs, answers, size, i).value, ReadStore(storeIDs[i], AnswersOf(answers, storeIDs[i]), size);
    if here.Err? {
      FailureStays(storeIDs, answers, size, i + 1, |storeIDs|);
    } else {
      NoteFromConcat(EMPTY, before, here.value);
    }
  }

  /** The loop over the stores. */
  method PullStores(storeIDs: seq<string>, answers: map<string, seq<Reply>>, size: int) returns (r: PullResult)
    ensures r.Complete? <==> ReadStores(storeIDs, answers, size, |storeIDs|).Ok?
    ensures r.Complete? ==> r.pulled == NoteAll(ReadStores(storeIDs, answers, size, |storeIDs|).value)
  {
    var p := EMPTY;
    for i := 0 to |storeIDs|
      invariant ReadStores(storeIDs, answers, size, i).Ok? && p == NoteAll(ReadStores(storeIDs, answers, size, i).value)
    {
      var store := storeIDs[i];
      var ok, q := PullStore(p, store, AnswersOf(answers, store), size);
      OneMoreStore(storeIDs, answers, size, i);
      if !ok {
        return PullFailed;
      }
      p := q;
    }
    r := Complete(p);
  }

  // ---------------------------------------------------------------- what no conflict means

  predicate ValidPair(t: Pair) {
    (t.storeOf == "" || t.storeOf == t.store) && t.msku != "" && t.sku != ""
  }

  /** An MSKU has one SKU everywhere, and within a store a SKU has one MSKU. */
  predicate Agree(a: Pair, b: Pair) {
    (a.msku == b.msku ==> a.sku == b.sku) && (a.store == b.store && a.sku == b.sku ==> a.msku == b.msku)
  }

  predicate Consistent(ts: seq<Pair>) {
    (forall i :: 0 <= i < |ts| ==> ValidPair(ts[i])) && forall i, j :: 0 <= i < |ts| && 0 <= j < |ts| ==> Agree(ts[i], ts[j])
  }

  predicate Listed(ts: seq<Pair>, store: string, msku: string, sku: string) {
    exists i :: 0 <= i < |ts| && ts[i].store == store && ts[i].msku == msku && ts[i].sku == sku
  }

  /** Some store lists the pair. */
  predicate ListedSomewhere(ts: seq<Pair>, msku: string, sku: string) {
    exists i :: 0 <= i < |ts| && ts[i].msku == msku && ts[i].sku == sku
  }

  ghost predicate MapsHold(p: Pulled, t: Pair) {
    && t.msku in p.all && p.all[t.msku] == t.sku
    && t.msku in StateOf(p, t.store).toSku && StateOf(p, t.store).toSku[t.msku] == t.sku
    && t.sku in StateOf(p, t.store).toMsku && StateOf(p, t.store).toMsku[t.sku] == t.msku
  }

  /** The maps hold every listed pair and nothing else. */
  ghost predicate Represents(p: Pulled, ts: seq<Pair>) {
    && (forall i :: 0 <= i < |ts| ==> MapsHold(p, ts[i]))
    && (forall s, m :: m in StateOf(p, s).toSku ==> Listed(ts, s, m, StateOf(p, s).toSku[m]))
    && (forall s, k :: k in StateOf(p, s).toMsku ==> Listed(ts, s, StateOf(p, s).toMsku[k], k))
    && (forall m :: m in p.all ==> ListedSomewhere(ts, m, p.all[m]))
  }

  lemma ListedSnoc(ts: seq<Pair>, t: Pair, s: string, m: string, k: string)
    ensures Listed(ts + [t], s, m, k) <==> Listed(ts, s, m, k) || (t.store == s && t.msku == m && t.sku == k)
    ensures ListedSomewhere(ts + [t], m, k) <==> ListedSomewhere(ts, m, k) || (t.msku == m && t.sku == k)
  {
    var all := ts + [t];
    assert forall i :: 0 <= i < |ts| ==> all[i] == ts[i];
    assert all[|ts|] == t;
  }

  predicate Fits(ts: seq<Pair>, t: Pair) {
    ValidPair(t) && forall i :: 0 <= i < |ts| ==> Agree(ts[i], t)
  }

  predicate OtherSku(ts: seq<Pair>, t: Pair) {
    exists i :: 0 <= i < |ts| && ts[i].msku == t.msku && ts[i].sku != t.sku
  }

  predicate OtherMsku(ts: seq<Pair>, t: Pair) {
    exists i :: 0 <= i < |ts| && ts[i].store == t.store && ts[i].sku == t.sku && ts[i].msku != t.msku
  }

  lemma FitsIff(ts: seq<Pair>, t: Pair)
    ensures Fits(ts, t) <==> ValidPair(t) && !OtherSku(ts, t) && !OtherMsku(ts, t)
  {
    if ValidPair(t) && !OtherSku(ts, t) && !OtherMsku(ts, t) {
      forall i | 0 <= i < |ts| ensures Agree(ts[i], t) {
      }
    }
    if i :| 0 <= i < |ts| && !Agree(ts[i], t) {
      assert OtherSku(ts, t) || OtherMsku(ts, t);
    }
  }

  /** What the three lookups find in maps that represent the pairs so far. */
  lemma LookupsSee(p: Pulled, ts: seq<Pair>, t: Pair)
    requires Represents(p, ts)
    ensures Clashes(p.all, t.msku, t.sku) <==> OtherSku(ts, t)
    ensures Clashes(StateOf(p, t.store).toMsku, t.sku, t.msku) <==> OtherMsku(ts, t)
    ensures Clashes(StateOf(p, t.store).toSku, t.msku, t.sku) ==> OtherSku(ts, t)
  {
    AllSees(p, ts, t);
    StoreSees(p, ts, t);
  }

  lemma AllSees(p: Pulled, ts: seq<Pair>, t: Pair)
    requires Represents(p, ts)
    ensures Clashes(p.all, t.msku, t.sku) <==> OtherSku(ts, t)
  {
    if t.msku in p.all {
      assert ListedSomewhere(ts, t.msku, p.all[t.msku]);
    }
    if OtherSku(ts, t) {
      var i :| 0 <= i < |ts| && ts[i].msku == t.msku && ts[i].sku != t.sku;
      assert MapsHold(p, ts[i]);
    }
  }

  lemma StoreSees(p: Pulled, ts: seq<Pair>, t: Pair)
    requires Represents(p, ts)
    ensures Clashes(StateOf(p, t.store).toMsku, t.sku, t.msku) <==> OtherMsku(ts, t)
    ensures Clashes(StateOf(p, t.store).toSku, t.msku, t.sku) ==> OtherSku(ts, t)
  {
    var st := StateOf(p, t.store);
    if t.sku in st.toMsku {
      assert Listed(ts, t.store, st.toMsku[t.sku], t.sku);
    }
    if OtherMsku(ts, t) {
      var i :| 0 <= i < |ts| && ts[i].store == t.store && ts[i].sku == t.sku && ts[i].msku != t.msku;
      assert MapsHold(p, ts[i]);
    }
    if t.msku in st.toSku {
      assert Listed(ts, t.store, t.msku, st.toSku[t.msku]);
    }
  }

  /** A pair is taken without conflict exactly when it is valid and none of the lookups clashes. */
  lemma NoteSplits(p: Pulled, t: Pair)
    ensures Note(p, t).conflicts == p.conflicts <==>
              ValidPair(t) && !Clashes(StateOf(p, t.store).toSku, t.msku, t.sku)
              && !Clashes(StateOf(p, t.store).toMsku, t.sku, t.msku) && !Clashes(p.all, t.msku, t.sku)
    ensures Note(p, t).conflicts == p.conflicts ==> Note(p, t) == Extended(p, t)
  {
  }

  function Extended(p: Pulled, t: Pair): Pulled {
    var st := StateOf(p, t.store);
    Pulled(p.stores[t.store := StoreState(st.toSku[t.msku := t.sku], st.toMsku[t.sku := t.msku])], p.all[t.msku := t.sku], p.conflicts)
  }

  /** The three lookups clash exactly when some earlier pair disagrees. */
  lemma ConflictIff(p: Pulled, ts: seq<Pair>, t: Pair)
    requires Represents(p, ts)
    ensures Note(p, t).conflicts == p.conflicts <==> Fits(ts, t)
  {
    LookupsSee(p, ts, t);
    NoteSplits(p, t);
    FitsIff(ts, t);
  }

  lemma ExtendedState(p: Pulled, t: Pair, s: string)
    ensures s != t.store ==> StateOf(Extended(p, t), s) == StateOf(p, s)
    ensures s == t.store ==> StateOf(Extended(p, t), s).toSku == StateOf(p, s).toSku[t.msku := t.sku]
                             && StateOf(Extended(p, t), s).toMsku == StateOf(p, s).toMsku[t.sku := t.msku]
  {
  }

  lemma ExtendedHolds(p: Pulled, ts: seq<Pair>, t: Pair, u: Pair)
    requires MapsHold(p, u) && Agree(u, t)
    ensures MapsHold(Extended(p, t), u) && MapsHold(Extended(p, t), t)
  {
    ExtendedState(p, t, u.store);
  }

  lemma NoteFits(p: Pulled, ts: seq<Pair>, t: Pair)
    requires Represents(p, ts) && Note(p, t).conflicts == p.conflicts
    ensures Represents(Note(p, t), ts + [t])
  {
    ConflictIff(p, ts, t);
    NoteSplits(p, t);
    var q := Extended(p, t);
    var all := ts + [t];
    forall i | 0 <= i < |all| ensures MapsHold(q, all[i]) {
      if i < |ts| {
        assert MapsHold(p, ts[i]) && all[i] == ts[i];
        ExtendedHolds(p, ts, t, ts[i]);
      } else {
        ExtendedState(p, t, t.store);
      }
    }
    NothingElse(p, ts, t);
  }

  lemma NothingElse(p: Pulled, ts: seq<Pair>, t: Pair)
    requires Represents(p, ts)
    ensures var q, all := Extended(p, t), ts + [t];
            && (forall s, m :: m in StateOf(q, s).toSku ==> Listed(all, s, m, StateOf(q, s).toSku[m]))
            && (forall s, k :: k in StateOf(q, s).toMsku ==> Listed(all, s, StateOf(q, s).toMsku[k], k))
            && (forall m :: m in q.all ==> ListedSomewhere(all, m, q.all[m]))
  {
    var q, all := Extended(p, t), ts + [t];
    forall s, m | m in StateOf(q, s).toSku ensures Listed(all, s, m, StateOf(q, s).toSku[m]) {
      ExtendedState(p, t, s);
      ListedSnoc(ts, t, s, m, StateOf(q, s).toSku[m]);
    }
    forall s, k | k in StateOf(q, s).toMsku ensures Listed(all, s, StateOf(q, s).toMsku[k], k) {
      ExtendedState(p, t, s);
      ListedSnoc(ts, t, s, StateOf(q, s).toMsku[k], k);
    }
    forall m | m in q.all ensures ListedSomewhere(all, m, q.all[m]) {
      ListedSnoc(ts, t, t.store, m, q.all[m]);
    }
  }

  lemma ConsistentSnoc(ts: seq<Pair>, t: Pair)
    ensures Consistent(ts + [t]) <==> Consistent(ts) && Fits(ts, t)
  {
    var all := ts + [t];
    assert forall i :: 0 <= i < |ts| ==> all[i] == ts[i];
    assert all[|ts|] == t;
    if Consistent(all) {
      forall i | 0 <= i < |ts| ensures ValidPair(ts[i]) && Agree(ts[i], t) {
        assert ValidPair(all[i]) && Agree(all[i], all[|ts|]);
      }
    }
  }

  lemma ConflictsOnlyGrow(p: Pulled, t: Pair)
    ensures p.conflicts <= Note(p, t).conflicts
  {
  }

  /**
   No conflict is recorded if and only if the lists are consistent: valid pairs, one SKU per MSKU
   over all stores, one MSKU per SKU within each. The maps then hold exactly what is listed.
   */
  lemma {:induction false} NoConflictIff(ts: seq<Pair>)
    ensures NoteAll(ts).conflicts == 0 <==> Consistent(ts)
    ensures NoteAll(ts).conflicts == 0 ==> Represents(NoteAll(ts), ts)
  {
    if ts != [] {
      var front, t := ts[..|ts| - 1], ts[|ts| - 1];
      assert ts == front + [t];
      NoteFromSnoc(EMPTY, front, t);
      NoConflictIff(front);
      ConsistentSnoc(front, t);
      ConflictsOnlyGrow(NoteAll(front), t);
      if NoteAll(front).conflicts == 0 {
        ConflictIff(NoteAll(front), front, t);
        if NoteAll(ts).conflicts == 0 {
          NoteFits(NoteAll(front), front, t);
        }
      }
    }
  }

  predicate MutuallyInverse(st: StoreState) {
    && (forall m :: m in st.toSku ==> st.toSku[m] in st.toMsku && st.toMsku[st.toSku[m]] == m)
    && (forall k :: k in st.toMsku ==> st.toMsku[k] in st.toSku && st.toSku[st.toMsku[k]] == k)
  }

  /** Without conflict each store's two maps are inverse to each other. */
  lemma StoresAreBijections(ts: seq<Pair>, store: string)
    requires NoteAll(ts).conflicts == 0
    ensures MutuallyInverse(StateOf(NoteAll(ts), store))
  {
    NoConflictIff(ts);
    var p := NoteAll(ts);
    var st := StateOf(p, store);
    forall m | m in st.toSku ensures st.toSku[m] in st.toMsku && st.toMsku[st.toSku[m]] == m {
      assert Listed(ts, store, m, st.toSku[m]);
    }
    forall k | k in st.toMsku ensures st.toMsku[k] in st.toSku && st.toSku[st.toMsku[k]] == k {
      assert Listed(ts, store, st.toMsku[k], k);
    }
  }

  predicate StoreMaps(p: Pulled, store: string, msku: string, sku: string) {
    msku in StateOf(p, store).toSku && StateOf(p, store).toSku[msku] == sku
  }

  lemma MappedByAStore(ts: seq<Pair>, msku: string) returns (store: string)
    requires Represents(NoteAll(ts), ts) && msku in NoteAll(ts).all
    ensures StoreMaps(NoteAll(ts), store, msku, NoteAll(ts).all[msku])
  {
    var p := NoteAll(ts);
    assert ListedSomewhere(ts, msku, p.all[msku]);
    var i :| 0 <= i < |ts| && ts[i].msku == msku && ts[i].sku == p.all[msku];
    assert MapsHold(p, ts[i]);
    store := ts[i].store;
  }

  lemma StoreMapIsInAll(ts: seq<Pair>, store: string, msku: string, sku: string)
    requires Represents(NoteAll(ts), ts) && StoreMaps(NoteAll(ts), store, msku, sku)
    ensures msku in NoteAll(ts).all && NoteAll(ts).all[msku] == sku
  {
    var p := NoteAll(ts);
    assert Listed(ts, store, msku, sku);
    var i :| 0 <= i < |ts| && ts[i].store == store && ts[i].msku == msku && ts[i].sku == sku;
    assert MapsHold(p, ts[i]);
  }

  /** And the new mapping is exactly the union of the stores' maps. */
  lemma NewMappingIsUnion(ts: seq<Pair>, msku: string, sku: string)
    requires NoteAll(ts).conflicts == 0
    ensures (msku in NoteAll(ts).all && NoteAll(ts).all[msku] == sku) <==> exists store :: StoreMaps(NoteAll(ts), store, msku, sku)
  {
    NoConflictIff(ts);
    if msku in NoteAll(ts).all {
      var store := MappedByAStore(ts, msku);
    }
    forall store | StoreMaps(NoteAll(ts), store, msku, sku) ensures msku in NoteAll(ts).all && NoteAll(ts).all[msku] == sku {
      StoreMapIsInAll(ts, store, msku, sku);
    }
  }

  /** The reverse direction is checked per store only: two stores may map two MSKUs to one SKU. */
  lemma NotInjectiveAcrossStores(a: Pair, b: Pair)
    requires ValidPair(a) && ValidPair(b) && a.store != b.store && a.msku != b.msku && a.sku == b.sku
    ensures NoteAll([a, b]).conflicts == 0
    ensures var all := NoteAll([a, b]).all; a.msku in all && b.msku in all && all[a.msku] == all[b.msku]
  {
    var ts := [a, b];
    assert Consistent(ts);
    NoConflictIff(ts);
    assert MapsHold(NoteAll(ts), ts[0]) && MapsHold(NoteAll(ts), ts[1]);
  }

  // ---------------------------------------------------------------- the listed pairs, as LingXing lists them

  /** Every page before the n-th came, and was neither empty nor short. */
  predicate FullBefore(replies: seq<Reply>, size: int, n: int) {
    0 <= n <= |replies| && forall m :: 0 <= m < n ==> replies[m].Some? && |replies[m].value| > 0 && |replies[m].value| >= size
  }

  /** The n-th page is read. */
  predicate PageRead(replies: seq<Reply>, size: int, n: int) {
    0 <= n < |replies| && FullBefore(replies, size, n) && replies[n].Some?
  }

  /** The pages lead up to an empty or a short one. */
  ghost predicate ReadOut(replies: seq<Reply>, size: int) {
    exists n :: PageRead(replies, size, n) && (|replies[n].value| == 0 || |replies[n].value| < size)
  }

  lemma {:induction false} ReadOutIff(store: string, replies: seq<Reply>, size: int, n: nat)
    requires FullBefore(replies, size, n)
    ensures ReadFrom(store, replies, size, n).Ok? <==> ReadOut(replies, size)
    decreases |replies| - n
  {
    if n == |replies| || replies[n].None? {
      assert forall p :: PageRead(replies, size, p) ==> p < n;
    } else if FullPage(replies[n].value, size) {
      ReadOutIff(store, replies, size, n + 1);
    } else {
      assert PageRead(replies, size, n);
    }
  }

  /** The pair stands on a page read. */
  predicate OnPage(replies: seq<Reply>, size: int, p: int, raw: RawPair) {
    PageRead(replies, size, p) && raw in replies[p].value
  }

  /** The store lists the pair. */
  ghost predicate Lists(answers: map<string, seq<Reply>>, size: int, store: string, raw: RawPair) {
    exists p :: OnPage(AnswersOf(answers, store), size, p, raw)
  }

  lemma {:induction false} InTags(store: string, raws: seq<RawPair>, t: Pair)
    ensures t in Tags(store, raws) <==> exists raw :: raw in raws && t == Tag(store, raw)
  {
    InMapAll(Tagger(store), raws, t);
    assert forall raw :: Tagger(store)(raw) == Tag(store, raw);
  }

  ghost predicate FromPage(store: string, replies: seq<Reply>, size: int, n: nat, t: Pair) {
    exists p, raw :: n <= p && OnPage(replies, size, p, raw) && t == Tag(store, raw)
  }

  lemma {:induction false} InReadFrom(store: string, replies: seq<Reply>, size: int, n: nat, t: Pair)
    requires FullBefore(replies, size, n) && ReadFrom(store, replies, size, n).Ok?
    ensures t in ReadFrom(store, replies, size, n).value <==> FromPage(store, replies, size, n, t)
    decreases |replies| - n
  {
    InTags(store, replies[n].value, t);
    if FullPage(replies[n].value, size) {
      InReadFrom(store, replies, size, n + 1, t);
      FromLater(store, replies, size, n, t);
      InFirstPage(store, replies, size, n, t);
    } else {
      FromLast(store, replies, size, n, t);
    }
  }

  lemma {:induction false} InFirstPage(store: string, replies: seq<Reply>, size: int, n: nat, t: Pair)
    requires n < |replies| && ReadFrom(store, replies, size, n).Ok? && FullPage(replies[n].value, size)
    ensures ReadFrom(store, replies, size, n + 1).Ok?
    ensures t in ReadFrom(store, replies, size, n).value <==>
              t in Tags(store, replies[n].value) || t in ReadFrom(store, replies, size, n + 1).value
  {
  }

  /** The last page read is the last one a pair can stand on. */
  lemma {:induction false} FromLast(store: string, replies: seq<Reply>, size: int, n: nat, t: Pair)
    requires PageRead(replies, size, n) && !FullPage(replies[n].value, size)
    ensures FromPage(store, replies, size, n, t) <==> exists raw :: raw in replies[n].value && t == Tag(store, raw)
  {
    assert forall p :: PageRead(replies, size, p) ==> p <= n;
    if raw :| raw in replies[n].value && t == Tag(store, raw) {
      assert OnPage(replies, size, n, raw);
    }
  }

  /** A pair stands on the n-th page or on a later one. */
  lemma {:induction false} FromLater(store: string, replies: seq<Reply>, size: int, n: nat, t: Pair)
    requires PageRead(replies, size, n)
    ensures FromPage(store, replies, size, n, t) <==>
              FromPage(store, replies, size, n + 1, t) || exists raw :: raw in replies[n].value && t == Tag(store, raw)
  {
    if FromPage(store, replies, size, n, t) {
      var p, raw :| n <= p && OnPage(replies, size, p, raw) && t == Tag(store, raw);
      assert p > n ==> n + 1 <= p;
    }
    if raw :| raw in replies[n].value && t == Tag(store, raw) {
      assert OnPage(replies, size, n, raw);
    }
  }

  /** The pair is the trimmed form of one that some store lists. */
  ghost predicate Tagged(storeIDs: seq<string>, answers: map<string, seq<Reply>>, size: int, n: nat, t: Pair)
    requires n <= |storeIDs|
  {
    exists i :: 0 <= i < n && FromPage(storeIDs[i], AnswersOf(answers, storeIDs[i]), size, 0, t)
  }

  lemma {:induction false} InReadStores(storeIDs: seq<string>, answers: map<string, seq<Reply>>, size: int, n: nat, t: Pair)
    requires n <= |storeIDs| && ReadStores(storeIDs, answers, size, n).Ok?
    ensures t in ReadStores(storeIDs, answers, size, n).value <==> Tagged(storeIDs, answers, size, n, t)
  {
    if n > 0 {
      InNextStore(storeIDs, answers, size, n - 1, t);
      InReadStores(storeIDs, answers, size, n - 1, t);
      InReadFrom(storeIDs[n - 1], AnswersOf(answers, storeIDs[n - 1]), size, 0, t);
      TaggedNext(storeIDs, answers, size, n - 1, t);
    }
  }

  lemma InNextStore(storeIDs: seq<string>, answers: map<string, seq<Reply>>, size: int, n: nat, t: Pair)
    requires n < |storeIDs| && ReadStores(storeIDs, answers, size, n + 1).Ok?
    ensures var before, here := ReadStores(storeIDs, answers, size, n), ReadStore(storeIDs[n], AnswersOf(answers, storeIDs[n]), size);
            && before.Ok? && here.Ok?
            && (t in ReadStores(storeIDs, answers, size, n + 1).value <==> t in before.value || t in here.value)
  {
  }

  lemma TaggedNext(storeIDs: seq<string>, answers: map<string, seq<Reply>>, size: int, n: nat, t: Pair)
    requires n < |storeIDs|
    ensures Tagged(storeIDs, answers, size, n + 1, t) <==>
              Tagged(storeIDs, answers, size, n, t) || FromPage(storeIDs[n], AnswersOf(answers, storeIDs[n]), size, 0, t)
  {
  }

  lemma {:induction false} OkBefore(storeIDs: seq<string>, answers: map<string, seq<Reply>>, size: int, n: nat, i: nat)
    requires i < n <= |storeIDs| && ReadStores(storeIDs, answers, size, n).Ok?
    ensures ReadStore(storeIDs[i], AnswersOf(answers, storeIDs[i]), size).Ok?
    decreases n
  {
    if i < n - 1 {
      OkBefore(storeIDs, answers, size, n - 1, i);
    }
  }

  lemma {:induction false} OkAfter(storeIDs: seq<string>, answers: map<string, seq<Reply>>, size: int, n: nat)
    requires n <= |storeIDs|
    requires forall i :: 0 <= i < n ==> ReadStore(storeIDs[i], AnswersOf(answers, storeIDs[i]), size).Ok?
    ensures ReadStores(storeIDs, answers, size, n).Ok?
  {
    if n > 0 {
      OkAfter(storeIDs, answers, size, n - 1);
    }
  }

  lemma {:induction false} ReadStoresOk(storeIDs: seq<string>, answers: map<string, seq<Reply>>, size: int)
    ensures ReadStores(storeIDs, answers, size, |storeIDs|).Ok? <==>
              forall i :: 0 <= i < |storeIDs| ==> ReadOut(AnswersOf(answers, storeIDs[i]), size)
  {
    if ReadStores(storeIDs, answers, size, |storeIDs|).Ok? {
      forall i | 0 <= i < |storeIDs| ensures ReadOut(AnswersOf(answers, storeIDs[i]), size) {
        OkBefore(storeIDs, answers, size, |storeIDs|, i);
        ReadOutIff(storeIDs[i], AnswersOf(answers, storeIDs[i]), size, 0);
      }
    }
    if forall i :: 0 <= i < |storeIDs| ==> ReadOut(AnswersOf(answers, storeIDs[i]), size) {
      forall i | 0 <= i < |storeIDs| ensures ReadStore(storeIDs[i], AnswersOf(answers, storeIDs[i]), size).Ok? {
        ReadOutIff(storeIDs[i], AnswersOf(answers, storeIDs[i]), size, 0);
      }
      OkAfter(storeIDs, answers, size, |storeIDs|);
    }
  }

  /** A pair as it must be: of the store asked or of none, and with both names. */
  predicate WellFormed(store: string, raw: RawPair) {
    (Trim(raw.storeId) == "" || Trim(raw.storeId) == store) && Trim(raw.msku) != "" && Trim(raw.sku) != ""
  }

  /** One SKU per MSKU, and within a store one MSKU per SKU. */
  predicate Compatible(store: string, raw: RawPair, other: string, pair: RawPair) {
    && (Trim(raw.msku) == Trim(pair.msku) ==> Trim(raw.sku) == Trim(pair.sku))
    && (store == other && Trim(raw.sku) == Trim(pair.sku) ==> Trim(raw.msku) == Trim(pair.msku))
  }

  /** What the stores list is well formed and compatible throughout. */
  ghost predicate AllAgree(storeIDs: seq<string>, answers: map<string, seq<Reply>>, size: int) {
    && (forall s, raw :: s in storeIDs && Lists(answers, size, s, raw) ==> WellFormed(s, raw))
    && (forall s, raw, z, pair :: s in storeIDs && z in storeIDs && Lists(answers, size, s, raw) && Lists(answers, size, z, pair) ==>
          Compatible(s, raw, z, pair))
  }

  /** The mapping leads from each MSKU listed to its SKU, and holds nothing else. */
  ghost predicate MapsListed(sku: StringMap, storeIDs: seq<string>, answers: map<string, seq<Reply>>, size: int) {
    && (forall s, raw :: s in storeIDs && Lists(answers, size, s, raw) ==> Trim(raw.msku) in sku && sku[Trim(raw.msku)] == Trim(raw.sku))
    && (forall m :: m in sku ==>
          exists s, raw :: s in storeIDs && Lists(answers, size, s, raw) && Trim(raw.msku) == m && Trim(raw.sku) == sku[m])
  }

  lemma {:induction false} ListedIndex(storeIDs: seq<string>, answers: map<string, seq<Reply>>, size: int, s: string, raw: RawPair)
    returns (j: nat)
    requires ReadStores(storeIDs, answers, size, |storeIDs|).Ok? && s in storeIDs && Lists(answers, size, s, raw)
    ensures var ts := ReadStores(storeIDs, answers, size, |storeIDs|).value; j < |ts| && ts[j] == Tag(s, raw)
  {
    var i :| 0 <= i < |storeIDs| && storeIDs[i] == s;
    var p :| OnPage(AnswersOf(answers, s), size, p, raw);
    assert FromPage(s, AnswersOf(answers, s), size, 0, Tag(s, raw));
    InReadStores(storeIDs, answers, size, |storeIDs|, Tag(s, raw));
    var ts := ReadStores(storeIDs, answers, size, |storeIDs|).value;
    j :| j < |ts| && ts[j] == Tag(s, raw);
  }

  lemma {:induction false} ListedSource(storeIDs: seq<string>, answers: map<string, seq<Reply>>, size: int, j: nat)
    returns (s: string, raw: RawPair)
    requires ReadStores(storeIDs, answers, size, |storeIDs|).Ok? && j < |ReadStores(storeIDs, answers, size, |storeIDs|).value|
    ensures s in storeIDs && Lists(answers, size, s, raw)
    ensures ReadStores(storeIDs, answers, size, |storeIDs|).value[j] == Tag(s, raw)
  {
    var t := ReadStores(storeIDs, answers, size, |storeIDs|).value[j];
    InReadStores(storeIDs, answers, size, |storeIDs|, t);
    var i :| 0 <= i < |storeIDs| && FromPage(storeIDs[i], AnswersOf(answers, storeIDs[i]), size, 0, t);
    s := storeIDs[i];
    var p;
    p, raw :| 0 <= p && OnPage(AnswersOf(answers, s), size, p, raw) && t == Tag(s, raw);
  }

  lemma {:induction false} AgreeMeans(s: string, raw: RawPair, z: string, pair: RawPair)
    ensures ValidPair(Tag(s, raw)) <==> WellFormed(s, raw)
    ensures Agree(Tag(s, raw), Tag(z, pair)) <==> Compatible(s, raw, z, pair)
  {
  }

  lemma {:induction false} ConsistentMeans(storeIDs: seq<string>, answers: map<string, seq<Reply>>, size: int)
    requires ReadStores(storeIDs, answers, size, |storeIDs|).Ok?
    ensures Consistent(ReadStores(storeIDs, answers, size, |storeIDs|).value) <==> AllAgree(storeIDs, answers, size)
  {
    var ts := ReadStores(storeIDs, answers, size, |storeIDs|).value;
    if Consistent(ts) {
      forall s, raw | s in storeIDs && Lists(answers, size, s, raw) ensures WellFormed(s, raw) {
        var j := ListedIndex(storeIDs, answers, size, s, raw);
        AgreeMeans(s, raw, s, raw);
      }
      forall s, raw, z, pair | s in storeIDs && z in storeIDs && Lists(answers, size, s, raw) && Lists(answers, size, z, pair)
        ensures Compatible(s, raw, z, pair)
      {
        var j := ListedIndex(storeIDs, answers, size, s, raw);
        var k := ListedIndex(storeIDs, answers, size, z, pair);
        assert Agree(ts[j], ts[k]);
        AgreeMeans(s, raw, z, pair);
      }
    }
    if AllAgree(storeIDs, answers, size) {
      forall i, j | 0 <= i < |ts| && 0 <= j < |ts| ensures ValidPair(ts[i]) && Agree(ts[i], ts[j]) {
        var s, raw := ListedSource(storeIDs, answers, size, i);
        var z, pair := ListedSource(storeIDs, answers, size, j);
        assert WellFormed(s, raw) && Compatible(s, raw, z, pair);
        AgreeMeans(s, raw, z, pair);
      }
    }
  }

  /** Without conflict the new mapping is what the stores list. */
  lemma {:induction false} PulledMapsListed(storeIDs: seq<string>, answers: map<string, seq<Reply>>, size: int)
    requires ReadStores(storeIDs, answers, size, |storeIDs|).Ok?
    requires NoteAll(ReadStores(storeIDs, answers, size, |storeIDs|).value).conflicts == 0
    ensures MapsListed(NoteAll(ReadStores(storeIDs, answers, size, |storeIDs|).value).all, storeIDs, answers, size)
  {
    var ts := ReadStores(storeIDs, answers, size, |storeIDs|).value;
    var all := NoteAll(ts).all;
    NoConflictIff(ts);
    forall s, raw | s in storeIDs && Lists(answers, size, s, raw) ensures Trim(raw.msku) in all && all[Trim(raw.msku)] == Trim(raw.sku) {
      var j := ListedIndex(storeIDs, answers, size, s, raw);
      assert MapsHold(NoteAll(ts), ts[j]);
    }
    forall m | m in all
      ensures exists s, raw :: s in storeIDs && Lists(answers, size, s, raw) && Trim(raw.msku) == m && Trim(raw.sku) == all[m]
    {
      assert ListedSomewhere(ts, m, all[m]);
      var i :| 0 <= i < |ts| && ts[i].msku == m && ts[i].sku == all[m];
      var s, raw := ListedSource(storeIDs, answers, size, i);
    }
  }

  // ---------------------------------------------------------------- the guarded update

  /** The parts of the runtime configuration other than mapping.sku. */
  datatype Others = Others(shop: StringMap, warehouse: StringMap, shipment: StringMap, jobs: seq<string>)

  class RuntimeConfig {
    var sku: StringMap
    var others: Others

    constructor (sku: StringMap, others: Others)
      ensures this.sku == sku && this.others == others
    {
      this.sku, this.others := sku, others;
    }
  }

  datatype Outcome = NoStores | NoPlatform | Failed | Conflicting | NotLoaded | ChangedMeanwhile | SaveFailed | Updated

  /**
   The tail of PullSKUPair: `started` is mapping.sku as the run found it, cfg the configuration as it
   is now, `loaded` and `saved` whether it can be read again and written.
   */
  method Finish(cfg: RuntimeConfig, started: StringMap, r: PullResult, loaded: bool, saved: bool) returns (o: Outcome)
    modifies cfg
    ensures cfg.others == old(cfg.others)
    ensures o == Updated ==> r.Complete? && r.pulled.conflicts == 0
    ensures cfg.sku == if o == Updated then r.pulled.all else old(cfg.sku)
    ensures ToldApart(started, old(cfg.sku)) ==>
              (o == Updated <==> r.Complete? && r.pulled.conflicts == 0 && loaded && old(cfg.sku) == started && saved)
  {
    if r.PullFailed? {
      return Failed;
    }
    if r.pulled.conflicts > 0 {
      return Conflicting;
    }
    var oldBytes, oldKeys := HashedBytes(started);
    if !loaded {
      return NotLoaded;
    }
    var curBytes, curKeys := HashedBytes(cfg.sku);
    if ToldApart(started, cfg.sku) {
      SameBytesSameMap(started, oldKeys, cfg.sku, curKeys);
    }
    if curBytes != oldBytes {
      return ChangedMeanwhile;
    }
    if !saved {
      return SaveFailed;
    }
    cfg.sku := r.pulled.all;
    o := Updated;
  }

  /** Every store is read to its end, and what they list agrees. */
  ghost predicate PulledWell(storeIDs: seq<string>, answers: map<string, seq<Reply>>, size: int) {
    (forall i :: 0 <= i < |storeIDs| ==> ReadOut(AnswersOf(answers, storeIDs[i]), size)) && AllAgree(storeIDs, answers, size)
  }

  lemma PulledMeans(storeIDs: seq<string>, answers: map<string, seq<Reply>>, size: int)
    ensures var listed := ReadStores(storeIDs, answers, size, |storeIDs|);
            && (PulledWell(storeIDs, answers, size) <==> listed.Ok? && NoteAll(listed.value).conflicts == 0)
            && (PulledWell(storeIDs, answers, size) ==> MapsListed(NoteAll(listed.value).all, storeIDs, answers, size))
  {
    ReadStoresOk(storeIDs, answers, size);
    if ReadStores(storeIDs, answers, size, |storeIDs|).Ok? {
      ConsistentMeans(storeIDs, answers, size);
      NoConflictIff(ReadStores(storeIDs, answers, size, |storeIDs|).value);
      if PulledWell(storeIDs, answers, size) {
        PulledMapsListed(storeIDs, answers, size);
      }
    }
  }

  /** One whole run; `shopValues` are the store ids of mapping.shop in any order. */
  method PullSKUPair(cfg: RuntimeConfig, started: StringMap, shopValues: seq<string>, platform: string, answers: map<string, seq<Reply>>,
                     size: int,
                     loaded: bool, saved: bool)
    returns (o: Outcome, storeIDs: seq<string>)
    modifies cfg
    ensures Tracking.IsUniqueNonEmpty(shopValues, storeIDs)
    ensures cfg.others == old(cfg.others)
    ensures o != Updated ==> cfg.sku == old(cfg.sku)
    ensures o == Updated ==> PulledWell(storeIDs, answers, size) && MapsListed(cfg.sku, storeIDs, answers, size)
    ensures ToldApart(started, old(cfg.sku)) ==>
              (o == Updated <==> storeIDs != [] && Trim(platform) != "" && platform != "0" && PulledWell(storeIDs, answers, size)
                                 && loaded && saved && old(cfg.sku) == started)
  {
    storeIDs := Tracking.UniqueNonEmptyStrings(shopValues);
    if |storeIDs| == 0 {
      return NoStores, storeIDs;
    }
    if Trim(platform) == "" || platform == "0" {
      return NoPlatform, storeIDs;
    }
    var r := PullStores(storeIDs, answers, size);
    o := Finish(cfg, started, r, loaded, saved);
    PulledMeans(storeIDs, answers, size);
  }

  // ---------------------------------------------------------------- can the pulled mapping be reversed?

  predicate TrimmedPair(t: Pair) {
    Trimmed(t.msku) && Trimmed(t.sku)
  }

  predicate AllTrimmed(ts: seq<Pair>) {
    forall i :: 0 <= i < |ts| ==> TrimmedPair(ts[i])
  }

  lemma TrimmedConcat(a: seq<Pair>, b: seq<Pair>)
    requires AllTrimmed(a) && AllTrimmed(b)
    ensures AllTrimmed(a + b)
  {
  }

  lemma TagsTrimmed(store: string, raws: seq<RawPair>)
    ensures AllTrimmed(Tags(store, raws))
  {
    forall i | 0 <= i < |raws| ensures TrimmedPair(Tags(store, raws)[i]) {
      assert Tags(store, raws)[i] == Tag(store, raws[i]);
    }
  }

  lemma {:induction false} StoreTrimmed(store: string, replies: seq<Reply>, size: int, n: nat)
    requires n <= |replies|
    ensures var r := ReadFrom(store, replies, size, n); r.Ok? ==> AllTrimmed(r.value)
    decreases |replies| - n
  {
    if n < |replies| && replies[n].Some? {
      TagsTrimmed(store, replies[n].value);
      StoreTrimmed(store, replies, size, n + 1);
      PrefixedTrimmed(Tags(store, replies[n].value), ReadFrom(store, replies, size, n + 1));
    }
  }

  lemma PrefixedTrimmed(a: seq<Pair>, rest: Result<seq<Pair>>)
    requires AllTrimmed(a) && (rest.Ok? ==> AllTrimmed(rest.value))
    ensures var r := Prefixed(a, rest); r.Ok? ==> AllTrimmed(r.value)
  {
    if rest.Ok? {
      TrimmedConcat(a, rest.value);
    }
  }

  lemma OneMoreTrimmed(storeIDs: seq<string>, answers: map<string, seq<Reply>>, size: int, i: nat)
    requires i < |storeIDs| && ReadStores(storeIDs, answers, size, i).Ok? && AllTrimmed(ReadStores(storeIDs, answers, size, i).value)
    ensures var r := ReadStores(storeIDs, answers, size, i + 1); r.Ok? ==> AllTrimmed(r.value)
  {
    StoreTrimmed(storeIDs[i], AnswersOf(answers, storeIDs[i]), size, 0);
    PrefixedTrimmed(ReadStores(storeIDs, answers, size, i).value, ReadStore(storeIDs[i], AnswersOf(answers, storeIDs[i]), size));
  }

  /** Whatever the stores list, the pairs noted are trimmed. */
  lemma {:induction false} ListedAreTrimmed(storeIDs: seq<string>, answers: map<string, seq<Reply>>, size: int, n: nat)
    requires n <= |storeIDs|
    ensures var r := ReadStores(storeIDs, answers, size, n); r.Ok? ==> AllTrimmed(r.value)
  {
    if n > 0 {
      ListedAreTrimmed(storeIDs, answers, size, n - 1);
      if ReadStores(storeIDs, answers, size, n - 1).Ok? {
        OneMoreTrimmed(storeIDs, answers, size, n - 1);
      }
    }
  }

  /** Over all stores, pairs of one SKU are of one MSKU. */
  predicate OneMskuPerSku(ts: seq<Pair>) {
    forall i, j :: 0 <= i < |ts| && 0 <= j < |ts| && ts[i].sku == ts[j].sku ==> ts[i].msku == ts[j].msku
  }

  /** Without conflict the entries of the new mapping are the pairs listed. */
  lemma PulledEntries(ts: seq<Pair>, m: string, k: string)
    requires NoteAll(ts).conflicts == 0 && AllTrimmed(ts)
    ensures (m, k) in Entries(NoteAll(ts).all) <==> ListedSomewhere(ts, m, k)
  {
    NoConflictIff(ts);
    var all := NoteAll(ts).all;
    if (m, k) in Entries(all) {
      var raw :| raw in all && (m, k) == (Trim(raw), Trim(all[raw]));
      assert ListedSomewhere(ts, raw, all[raw]);
      var i :| 0 <= i < |ts| && ts[i].msku == raw && ts[i].sku == all[raw];
      assert TrimmedPair(ts[i]);
    }
    if i :| 0 <= i < |ts| && ts[i].msku == m && ts[i].sku == k {
      assert MapsHold(NoteAll(ts), ts[i]) && TrimmedPair(ts[i]);
    }
  }

  /** A mapping pulled without conflict can be reversed if and only if no two stores list one SKU under different MSKUs. */
  lemma PulledReversibleIff(ts: seq<Pair>)
    requires NoteAll(ts).conflicts == 0 && AllTrimmed(ts)
    ensures Reversible(Entries(NoteAll(ts).all)) <==> OneMskuPerSku(ts)
  {
    NoConflictIff(ts);
    var es := Entries(NoteAll(ts).all);
    forall e ensures e in es <==> ListedSomewhere(ts, e.0, e.1) {
      PulledEntries(ts, e.0, e.1);
      assert e == (e.0, e.1);
    }
    if Reversible(es) {
      forall i, j | 0 <= i < |ts| && 0 <= j < |ts| && ts[i].sku == ts[j].sku ensures ts[i].msku == ts[j].msku {
        assert (ts[i].msku, ts[i].sku) in es && (ts[j].msku, ts[j].sku) in es;
      }
    } else {
      ListedAreFunctional(ts, es);
    }
  }

  lemma ListedAreFunctional(ts: seq<Pair>, es: set<(string, string)>)
    requires Consistent(ts) && forall e :: e in es ==> ListedSomewhere(ts, e.0, e.1)
    ensures Filled(es) && Functional(es)
    ensures OneMskuPerSku(ts) ==> Injective(es)
  {
    forall e | e in es ensures e.0 != "" && e.1 != "" {
      var i :| 0 <= i < |ts| && ts[i].msku == e.0 && ts[i].sku == e.1;
      assert ValidPair(ts[i]);
    }
    forall e, f | e in es && f in es ensures e.0 == f.0 ==> e == f ensures OneMskuPerSku(ts) && e.1 == f.1 ==> e == f {
      var i :| 0 <= i < |ts| && ts[i].msku == e.0 && ts[i].sku == e.1;
      var j :| 0 <= j < |ts| && ts[j].msku == f.0 && ts[j].sku == f.1;
      assert Agree(ts[i], ts[j]);
    }
  }

  /** Over all stores, what is listed with one SKU is listed with one MSKU. */
  ghost predicate OneMskuEach(storeIDs: seq<string>, answers: map<string, seq<Reply>>, size: int) {
    forall s, raw, z, pair :: s in storeIDs && z in storeIDs && Lists(answers, size, s, raw) && Lists(answers, size, z, pair) ==>
      (Trim(raw.sku) == Trim(pair.sku) ==> Trim(raw.msku) == Trim(pair.msku))
  }

  lemma OneMskuMeans(storeIDs: seq<string>, answers: map<string, seq<Reply>>, size: int)
    requires ReadStores(storeIDs, answers, size, |storeIDs|).Ok?
    ensures OneMskuPerSku(ReadStores(storeIDs, answers, size, |storeIDs|).value) <==> OneMskuEach(storeIDs, answers, size)
  {
    var ts := ReadStores(storeIDs, answers, size, |storeIDs|).value;
    if OneMskuPerSku(ts) {
      forall s, raw, z, pair | s in storeIDs && z in storeIDs && Lists(answers, size, s, raw) && Lists(answers, size, z, pair)
                               && Trim(raw.sku) == Trim(pair.sku)
        ensures Trim(raw.msku) == Trim(pair.msku)
      {
        var j := ListedIndex(storeIDs, answers, size, s, raw);
        var k := ListedIndex(storeIDs, answers, size, z, pair);
        assert ts[j].sku == ts[k].sku;
      }
    }
    if OneMskuEach(storeIDs, answers, size) {
      forall i, j | 0 <= i < |ts| && 0 <= j < |ts| && ts[i].sku == ts[j].sku ensures ts[i].msku == ts[j].msku {
        var s, raw := ListedSource(storeIDs, answers, size, i);
        var z, pair := ListedSource(storeIDs, answers, size, j);
      }
    }
  }

  /** So a pull that ends without conflict leaves a mapping that reverses exactly when the stores agree on every SKU. */
  lemma PulledMappingReversibleIff(storeIDs: seq<string>, answers: map<string, seq<Reply>>, size: int)
    requires PulledWell(storeIDs, answers, size)
    ensures ReadStores(storeIDs, answers, size, |storeIDs|).Ok?
    ensures var listed := ReadStores(storeIDs, answers, size, |storeIDs|).value;
            Reversible(Entries(NoteAll(listed).all)) <==> OneMskuEach(storeIDs, answers, size)
  {
    PulledMeans(storeIDs, answers, size);
    ListedAreTrimmed(storeIDs, answers, size, |storeIDs|);
    PulledReversibleIff(ReadStores(storeIDs, answers, size, |storeIDs|).value);
    OneMskuMeans(storeIDs, answers, size);
  }
}
