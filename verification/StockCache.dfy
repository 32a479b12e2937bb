/** The cache of DSCO inventory that the stream fills, keyed by SKU and, as a fallback, by partner SKU. */
module StockCache {
  import opened Text
  import opened StreamReader

  type Quantities = map<string, int>

  type Entries = map<string, Quantities>

  function SkuOf(e: Event): string { Trim(e.item.sku) }

  function PartnerOf(e: Event): string { TrimOpt(e.item.partnerSku) }

  /** The quantities at the wanted warehouses; a missing quantity is 0, and a repeated code keeps the last. */
  function Wanted(stocks: seq<Stock>, wanted: set<string>): Quantities {
    if stocks == [] then map[]
    else
      var s := stocks[|stocks| - 1];
      var before := Wanted(stocks[..|stocks| - 1], wanted);
      if Trim(s.code) == "" || Trim(s.code) !in wanted then before
      else before[Trim(s.code) := if s.quantity.Some? then s.quantity.value else 0]
  }

  /** The value an event brings. */
  function Brings(e: Event, wanted: set<string>): Quantities {
    Wanted(e.item.warehouses, wanted)
  }

  /** One event: its SKU is overwritten, its partner SKU only filled in. */
  function Noted(m: Entries, e: Event, wanted: set<string>): Entries {
    if SkuOf(e) == "" then m
    else
      var m1 := m[SkuOf(e) := Brings(e, wanted)];
      if PartnerOf(e) == "" || PartnerOf(e) in m1 then m1 else m1[PartnerOf(e) := Brings(e, wanted)]
  }

  function Filled(es: seq<Event>, wanted: set<string>): Entries {
    if es == [] then map[] else Noted(Filled(es[..|es| - 1], wanted), es[|es| - 1], wanted)
  }

  class Cache {
    var entries: Entries
    const wanted: set<string>

    constructor (wanted: set<string>)
      ensures entries == map[] && this.wanted == wanted
    {
      entries := map[];
      this.wanted := wanted;
    }

    /** The handler given to PullAll. */
    method Handle(e: Event)
      modifies this
      ensures entries == Noted(old(entries), e, wanted)
    {
      var sku := Trim(e.item.sku);
      if sku == "" {
        return;
      }
      var m: Quantities := map[];
      for i := 0 to |e.item.warehouses|
        invariant m == Wanted(e.item.warehouses[..i], wanted)
      {
        assert e.item.warehouses[..i + 1][..i] == e.item.warehouses[..i];
        var w := e.item.warehouses[i];
        var code := Trim(w.code);
        if code != "" && code in wanted {
          m := m[code := if w.quantity.Some? then w.quantity.value else 0];
        }
      }
      assert e.item.warehouses[..|e.item.warehouses|] == e.item.warehouses;
      entries := entries[sku := m];
      if e.item.partnerSku.Some? {
        var partner := Trim(e.item.partnerSku.value);
        if partner != "" && partner !in entries {
          entries := entries[partner := m];
        }
      }
    }
  }

  // ---------------------------------------------------------------- the specification

  /** The last event whose SKU is k. */
  function LastWithSku(es: seq<Event>, k: string): Option<Event> {
    if es == [] then None
    else if SkuOf(es[|es| - 1]) == k then Some(es[|es| - 1])
    else LastWithSku(es[..|es| - 1], k)
  }

  /** The first event whose partner SKU is k, among those that have a SKU. */
  function FirstWithPartner(es: seq<Event>, k: string): Option<Event> {
    if es == [] then None
    else if FirstWithPartner(es[..|es| - 1], k).Some? then FirstWithPartner(es[..|es| - 1], k)
    else if SkuOf(es[|es| - 1]) != "" && PartnerOf(es[|es| - 1]) == k then Some(es[|es| - 1])
    else None
  }

  function Chosen(es: seq<Event>, k: string): Option<Event> {
    if k == "" then None else if LastWithSku(es, k).Some? then LastWithSku(es, k) else FirstWithPartner(es, k)
  }

  function Expected(es: seq<Event>, wanted: set<string>, k: string): Option<Quantities> {
    if Chosen(es, k).Some? then Some(Brings(Chosen(es, k).value, wanted)) else None
  }

  function At(m: Entries, k: string): Option<Quantities> {
    if k in m then Some(m[k]) else None
  }

  /** Key k holds the last event with that SKU, or else the first with that partner SKU. */
  lemma {:induction false} CacheMeaning(es: seq<Event>, wanted: set<string>, k: string)
    ensures At(Filled(es, wanted), k) == Expected(es, wanted, k)
  {
    if es != [] {
      var e := es[|es| - 1];
      CacheMeaning(es[..|es| - 1], wanted, k);
      NotedAt(Filled(es[..|es| - 1], wanted), e, wanted, k);
    }
  }

  lemma NotedAt(m: Entries, e: Event, wanted: set<string>, k: string)
    ensures At(Noted(m, e, wanted), k) ==
            if SkuOf(e) != "" && SkuOf(e) == k then Some(Brings(e, wanted))
            else if SkuOf(e) != "" && PartnerOf(e) == k && k != "" && k !in m then Some(Brings(e, wanted))
            else At(m, k)
  {
  }

  // ---------------------------------------------------------------- the same on the events as they come

  /** The last stock of this warehouse, if it is listed. */
  predicate LastStock(stocks: seq<Stock>, code: string, i: int) {
    0 <= i < |stocks| && Trim(stocks[i].code) == code && forall j :: i < j < |stocks| ==> Trim(stocks[j].code) != code
  }

  lemma {:induction false} NotListed(stocks: seq<Stock>, wanted: set<string>, code: string)
    requires forall j :: 0 <= j < |stocks| ==> Trim(stocks[j].code) != code
    ensures code !in Wanted(stocks, wanted)
  {
    if stocks != [] {
      NotListed(stocks[..|stocks| - 1], wanted, code);
    }
  }

  lemma {:induction false} ListedLast(stocks: seq<Stock>, wanted: set<string>, code: string, i: nat)
    requires LastStock(stocks, code, i)
    ensures code in Wanted(stocks, wanted) <==> code != "" && code in wanted
    ensures code in Wanted(stocks, wanted) ==> QuantityIs(stocks[i].quantity, Wanted(stocks, wanted)[code])
  {
    var before := stocks[..|stocks| - 1];
    if i < |before| {
      LastStockFront(stocks, code, i);
      ListedLast(before, wanted, code, i);
    } else if code == "" || code !in wanted {
      NotWanted(before, wanted, code);
    }
  }

  lemma {:induction false} LastStockFront(stocks: seq<Stock>, code: string, i: nat)
    requires LastStock(stocks, code, i) && i < |stocks| - 1
    ensures LastStock(stocks[..|stocks| - 1], code, i) && Trim(stocks[|stocks| - 1].code) != code
  {
  }

  lemma {:induction false} NotWanted(stocks: seq<Stock>, wanted: set<string>, code: string)
    requires code == "" || code !in wanted
    ensures code !in Wanted(stocks, wanted)
  {
    if stocks != [] {
      NotWanted(stocks[..|stocks| - 1], wanted, code);
    }
  }

  /** Each wanted warehouse listed brings the quantity of its last entry, 0 where that has none; no other brings anything. */
  lemma {:induction false} WantedMeans(stocks: seq<Stock>, wanted: set<string>, code: string)
    ensures forall i: nat :: LastStock(stocks, code, i) ==>
              (code in Wanted(stocks, wanted) <==> code != "" && code in wanted)
              && (code in Wanted(stocks, wanted) ==> QuantityIs(stocks[i].quantity, Wanted(stocks, wanted)[code]))
    ensures (forall j :: 0 <= j < |stocks| ==> Trim(stocks[j].code) != code) ==> code !in Wanted(stocks, wanted)
  {
    forall i: nat | LastStock(stocks, code, i)
      ensures code in Wanted(stocks, wanted) <==> code != "" && code in wanted
      ensures code in Wanted(stocks, wanted) ==> QuantityIs(stocks[i].quantity, Wanted(stocks, wanted)[code])
    {
      ListedLast(stocks, wanted, code, i);
    }
    if forall j :: 0 <= j < |stocks| ==> Trim(stocks[j].code) != code {
      NotListed(stocks, wanted, code);
    }
  }

  predicate QuantityIs(quantity: Option<int>, q: int) {
    q == if quantity.Some? then quantity.value else 0
  }

  /** The event at i is the last with SKU k. */
  predicate LastSku(es: seq<Event>, k: string, i: int) {
    0 <= i < |es| && Trim(es[i].item.sku) == k && forall j :: i < j < |es| ==> Trim(es[j].item.sku) != k
  }

  /** The event has a SKU and names k as its partner SKU. */
  predicate Partners(e: Event, k: string) {
    Trim(e.item.sku) != "" && e.item.partnerSku.Some? && Trim(e.item.partnerSku.value) == k
  }

  predicate FirstPartner(es: seq<Event>, k: string, i: int) {
    0 <= i < |es| && Partners(es[i], k) && forall j :: 0 <= j < i ==> !Partners(es[j], k)
  }

  /** A key holds what the last event with that SKU brings. */
  lemma {:induction false} HoldsLastSku(es: seq<Event>, wanted: set<string>, k: string, i: nat)
    requires k != "" && LastSku(es, k, i)
    ensures At(Filled(es, wanted), k) == Some(Wanted(es[i].item.warehouses, wanted))
  {
    CacheMeaning(es, wanted, k);
    LastSkuIs(es, k, i);
  }

  lemma {:induction false} LastSkuIs(es: seq<Event>, k: string, i: nat)
    requires LastSku(es, k, i)
    ensures LastWithSku(es, k) == Some(es[i])
  {
    if i < |es| - 1 {
      assert SkuOf(es[|es| - 1]) != k;
      LastSkuIs(es[..|es| - 1], k, i);
    }
  }

  lemma {:induction false} NoSkuIs(es: seq<Event>, k: string)
    requires forall j :: 0 <= j < |es| ==> Trim(es[j].item.sku) != k
    ensures LastWithSku(es, k) == None
  {
    if es != [] {
      NoSkuIs(es[..|es| - 1], k);
    }
  }

  lemma {:induction false} PartnersIs(e: Event, k: string)
    requires k != ""
    ensures Partners(e, k) <==> SkuOf(e) != "" && PartnerOf(e) == k
  {
  }

  lemma {:induction false} NoPartnerIs(es: seq<Event>, k: string)
    requires k != "" && forall j :: 0 <= j < |es| ==> !Partners(es[j], k)
    ensures FirstWithPartner(es, k) == None
  {
    if es != [] {
      NoPartnerIs(es[..|es| - 1], k);
      PartnersIs(es[|es| - 1], k);
    }
  }

  lemma {:induction false} FirstPartnerIs(es: seq<Event>, k: string, i: nat)
    requires k != "" && FirstPartner(es, k, i)
    ensures FirstWithPartner(es, k) == Some(es[i])
  {
    var before := es[..|es| - 1];
    if i < |before| {
      FirstPartnerFront(es, before, k, i);
      FirstPartnerIs(before, k, i);
    } else {
      FirstPartnerFront(es, before, k, i);
      NoPartnerIs(before, k);
      PartnersIs(es[i], k);
    }
  }

  lemma {:induction false} FirstPartnerFront(es: seq<Event>, before: seq<Event>, k: string, i: nat)
    requires FirstPartner(es, k, i) && before == es[..|es| - 1]
    ensures i < |es| - 1 ==> FirstPartner(before, k, i)
    ensures i == |es| - 1 ==> forall j :: 0 <= j < i ==> !Partners(before[j], k)
  {
  }

  /** A key no event has as SKU holds what the first event that names it as partner SKU brings, or nothing when none does. */
  lemma {:induction false} HoldsFirstPartner(es: seq<Event>, wanted: set<string>, k: string)
    requires k != "" && forall j :: 0 <= j < |es| ==> Trim(es[j].item.sku) != k
    ensures forall i: nat :: FirstPartner(es, k, i) ==> At(Filled(es, wanted), k) == Some(Wanted(es[i].item.warehouses, wanted))
    ensures (forall j :: 0 <= j < |es| ==> !Partners(es[j], k)) ==> k !in Filled(es, wanted)
  {
    CacheMeaning(es, wanted, k);
    NoSkuIs(es, k);
    forall i: nat | FirstPartner(es, k, i) ensures FirstWithPartner(es, k) == Some(es[i]) {
      FirstPartnerIs(es, k, i);
    }
    if forall j :: 0 <= j < |es| ==> !Partners(es[j], k) {
      NoPartnerIs(es, k);
    }
  }

  // ---------------------------------------------------------------- redelivery

  lemma {:induction false} LastConcat(a: seq<Event>, b: seq<Event>, k: string)
    ensures LastWithSku(a + b, k) == if LastWithSku(b, k).Some? then LastWithSku(b, k) else LastWithSku(a, k)
  {
    if b == [] {
      assert a + b == a;
    } else {
      assert (a + b)[..|a + b| - 1] == a + b[..|b| - 1];
      LastConcat(a, b[..|b| - 1], k);
    }
  }

  lemma {:induction false} FirstConcat(a: seq<Event>, b: seq<Event>, k: string)
    ensures FirstWithPartner(a + b, k) == if FirstWithPartner(a, k).Some? then FirstWithPartner(a, k) else FirstWithPartner(b, k)
  {
    if b == [] {
      assert a + b == a;
    } else {
      assert (a + b)[..|a + b| - 1] == a + b[..|b| - 1];
      FirstConcat(a, b[..|b| - 1], k);
    }
  }

  /** Two deliveries that agree on every key's choice fill the same cache. */
  lemma SameChoices(a: seq<Event>, b: seq<Event>, wanted: set<string>)
    requires forall k :: Chosen(a, k) == Chosen(b, k)
    ensures Filled(a, wanted) == Filled(b, wanted)
  {
    var ma, mb := Filled(a, wanted), Filled(b, wanted);
    forall k ensures At(ma, k) == At(mb, k) {
      CacheMeaning(a, wanted, k);
      CacheMeaning(b, wanted, k);
      assert Chosen(a, k) == Chosen(b, k);
    }
    forall k ensures (k in ma <==> k in mb) && (k in ma ==> ma[k] == mb[k]) {
      assert At(ma, k) == At(mb, k);
    }
  }

  /** Delivering the last events once more changes nothing. */
  lemma RedeliveryChangesNothing(x: seq<Event>, y: seq<Event>, wanted: set<string>)
    ensures Filled(x + y + y, wanted) == Filled(x + y, wanted)
  {
    forall k ensures Chosen(x + y + y, k) == Chosen(x + y, k) {
      LastConcat(x + y, y, k);
      LastConcat(x, y, k);
      FirstConcat(x + y, y, k);
      FirstConcat(x, y, k);
    }
    SameChoices(x + y + y, x + y, wanted);
  }

  lemma FilledSnoc(es: seq<Event>, e: Event, wanted: set<string>)
    ensures Filled(es + [e], wanted) == Noted(Filled(es, wanted), e, wanted)
  {
    assert (es + [e])[..|es|] == es;
  }

  lemma {:induction false} SameThenSame(a: seq<Event>, b: seq<Event>, more: seq<Event>, wanted: set<string>)
    requires Filled(a, wanted) == Filled(b, wanted)
    ensures Filled(a + more, wanted) == Filled(b + more, wanted)
  {
    if |more| == 0 {
      NothingMore(a, more);
      NothingMore(b, more);
    } else {
      var n := |more| - 1;
      SameThenSame(a, b, more[..n], wanted);
      SameStep(a, b, more, wanted);
    }
  }

  lemma NothingMore(a: seq<Event>, more: seq<Event>)
    requires |more| == 0
    ensures a + more == a
  {
  }

  lemma SameStep(a: seq<Event>, b: seq<Event>, more: seq<Event>, wanted: set<string>)
    requires more != [] && Filled(a + more[..|more| - 1], wanted) == Filled(b + more[..|more| - 1], wanted)
    ensures Filled(a + more, wanted) == Filled(b + more, wanted)
  {
    FilledLast(a, more, wanted);
    FilledLast(b, more, wanted);
  }

  lemma FilledLast(a: seq<Event>, more: seq<Event>, wanted: set<string>)
    requires more != []
    ensures Filled(a + more, wanted) == Noted(Filled(a + more[..|more| - 1], wanted), more[|more| - 1], wanted)
  {
    ConcatLast(a, more);
    FilledUnfolds(a + more, wanted);
  }

  lemma FilledUnfolds(es: seq<Event>, wanted: set<string>)
    requires es != []
    ensures Filled(es, wanted) == Noted(Filled(es[..|es| - 1], wanted), es[|es| - 1], wanted)
  {
  }

  lemma ConcatLast(a: seq<Event>, more: seq<Event>)
    requires more != []
    ensures var all := a + more; all[|all| - 1] == more[|more| - 1] && all[..|all| - 1] == a + more[..|more| - 1]
  {
  }

  lemma Regroup(a: seq<Event>, b: seq<Event>, c: seq<Event>)
    ensures a + (b + c) == a + b + c
  {
  }

  /** A batch repeated in front of what follows it changes nothing. */
  lemma RepeatedBatch(d: seq<Event>, batch: seq<Event>, rest: seq<Event>, wanted: set<string>)
    ensures Filled(d + batch + (batch + rest), wanted) == Filled(d + (batch + rest), wanted)
  {
    RedeliveryChangesNothing(d, batch, wanted);
    SameThenSame(d + batch + batch, d + batch, rest, wanted);
    Regroup(d + batch, batch, rest);
    Regroup(d, batch, rest);
  }

  lemma {:induction false} LiveConcat(a: seq<Event>, b: seq<Event>)
    ensures Live(a + b) == Live(a) + Live(b)
  {
    if b == [] {
      assert a + b == a;
    } else {
      assert (a + b)[..|a + b| - 1] == a + b[..|b| - 1];
      LiveConcat(a, b[..|b| - 1]);
    }
  }

  lemma LiveSplit(log: seq<Event>, i: nat, j: nat, k: nat)
    requires i <= j <= k <= |log|
    ensures Live(log[i..k]) == Live(log[i..j]) + Live(log[j..k])
  {
    assert log[i..k] == log[i..j] + log[j..k];
    LiveConcat(log[i..j], log[j..k]);
  }

  /** The farthest any batch reached. */
  function HighWater(h: History): nat {
    if h.Start? then 0 else if HighWater(h.before) < h.to then h.to else HighWater(h.before)
  }

  lemma {:induction false} ReachedBelowHighWater(log: seq<Event>, h: History)
    requires Chained(log, h)
    ensures Reached(h) <= HighWater(h) <= |log|
  {
    if h.Then? {
      ReachedBelowHighWater(log, h.before);
    }
  }

  /** The cache differs from one filled by the log, each event once, by at most what is to be delivered again. */
  lemma {:induction false} CacheTracksLog(log: seq<Event>, h: History, wanted: set<string>)
    requires Chained(log, h)
    ensures Reached(h) <= HighWater(h) <= |log|
    ensures Filled(Handled(log, h) + Live(log[Reached(h)..HighWater(h)]), wanted) == Filled(Live(log[..HighWater(h)]), wanted)
  {
    ReachedBelowHighWater(log, h);
    if h.Start? {
      assert Live(log[0..0]) == [] && Live(log[..0]) == [];
      assert Handled(log, h) + [] == [];
    } else {
      CacheTracksLog(log, h.before, wanted);
      OneMoreBatch(log, h, wanted);
    }
  }

  lemma OneMoreBatch(log: seq<Event>, h: History, wanted: set<string>)
    requires Chained(log, h) && h.Then?
    requires Reached(h.before) <= HighWater(h.before) <= |log|
    requires Filled(Handled(log, h.before) + Live(log[Reached(h.before)..HighWater(h.before)]), wanted)
             == Filled(Live(log[..HighWater(h.before)]), wanted)
    ensures Reached(h) <= HighWater(h) <= |log|
    ensures Filled(Handled(log, h) + Live(log[Reached(h)..HighWater(h)]), wanted) == Filled(Live(log[..HighWater(h)]), wanted)
  {
    var p, high := Reached(h.before), HighWater(h.before);
    if h.to <= high {
      BatchWithin(log, Handled(log, h.before), p, h.to, high, h.acked, wanted);
    } else {
      BatchBeyond(log, Handled(log, h.before), p, high, h.to, h.acked, wanted);
    }
  }

  lemma BatchWithin(log: seq<Event>, d: seq<Event>, p: nat, to: nat, high: nat, acked: bool, wanted: set<string>)
    requires p <= to <= high <= |log|
    requires Filled(d + Live(log[p..high]), wanted) == Filled(Live(log[..high]), wanted)
    ensures Filled(d + Live(log[p..to]) + Live(log[if acked then to else p..high]), wanted) == Filled(Live(log[..high]), wanted)
  {
    LiveSplit(log, p, to, high);
    Regroup(d, Live(log[p..to]), Live(log[to..high]));
    RepeatedBatch(d, Live(log[p..to]), Live(log[to..high]), wanted);
  }

  /** Events seen before and then new ones: the same as the new ones in order, even when both come twice. */
  lemma OldThenNew(d: seq<Event>, again: seq<Event>, more: seq<Event>, before: seq<Event>, wanted: set<string>)
    requires Filled(d + again, wanted) == Filled(before, wanted)
    ensures Filled(d + (again + more), wanted) == Filled(before + more, wanted)
    ensures Filled(d + (again + more) + (again + more), wanted) == Filled(before + more, wanted)
  {
    SameThenSame(d + again, before, more, wanted);
    Regroup(d, again, more);
    RedeliveryChangesNothing(d, again + more, wanted);
  }

  lemma NothingLive(log: seq<Event>, i: nat)
    requires i <= |log|
    ensures Live(log[i..i]) == []
  {
    assert log[i..i] == [];
  }

  lemma LivePrefix(log: seq<Event>, high: nat, to: nat)
    requires high <= to <= |log|
    ensures Live(log[..to]) == Live(log[..high]) + Live(log[high..to])
  {
    assert log[..to] == log[..high] + log[high..to];
    LiveConcat(log[..high], log[high..to]);
  }

  lemma BatchBeyond(log: seq<Event>, d: seq<Event>, p: nat, high: nat, to: nat, acked: bool, wanted: set<string>)
    requires p <= high <= to <= |log|
    requires Filled(d + Live(log[p..high]), wanted) == Filled(Live(log[..high]), wanted)
    ensures Filled(d + Live(log[p..to]) + Live(log[if acked then to else p..to]), wanted) == Filled(Live(log[..to]), wanted)
  {
    LiveSplit(log, p, high, to);
    LivePrefix(log, high, to);
    OldThenNew(d, Live(log[p..high]), Live(log[high..to]), Live(log[..high]), wanted);
    if acked {
      NothingLive(log, to);
      assert d + Live(log[p..to]) + [] == d + Live(log[p..to]);
    }
  }

  // ---------------------------------------------------------------- exactly when the cache is the log's

  /** The last event in [from, to) that has an id, or -1. */
  function LastLive(log: seq<Event>, from: nat, to: nat): (i: int)
    requires from <= to <= |log|
    ensures i == -1 || (from <= i < to && log[i].id != "")
    ensures forall j :: from <= j < to && i < j ==> log[j].id == ""
  {
    if from == to then -1 else if log[to - 1].id != "" then to - 1 else LastLive(log, from, to - 1)
  }

  /** The event handled last of all, or -1. */
  function LastDelivered(log: seq<Event>, h: History): int
    requires Chained(log, h)
  {
    if h.Start? then -1
    else
      var i := LastLive(log, Reached(h.before), h.to);
      if i >= 0 then i else LastDelivered(log, h.before)
  }

  /** The event handled last is the last one the reader has ever come across. */
  ghost predicate EndsWithNewest(log: seq<Event>, h: History) {
    Chained(log, h) && HighWater(h) <= |log| && LastDelivered(log, h) == LastLive(log, 0, HighWater(h))
  }

  /** The cache is what the log itself, each event once, would have filled. */
  ghost predicate CacheAgrees(log: seq<Event>, h: History, wanted: set<string>) {
    Chained(log, h) && HighWater(h) <= |log| && Filled(Handled(log, h), wanted) == Filled(Live(log[..HighWater(h)]), wanted)
  }

  lemma {:induction false} OnlyBlanks(log: seq<Event>, from: nat, to: nat)
    requires from <= to <= |log| && forall j :: from <= j < to ==> log[j].id == ""
    ensures Live(log[from..to]) == []
  {
    if from < to {
      OnlyBlanks(log, from, to - 1);
      assert log[from..to][..to - from - 1] == log[from..to - 1];
    }
  }

  /** The last batch went past every event with an id that was ever come across. */
  lemma BatchWentFarEnough(log: seq<Event>, h: History, wanted: set<string>)
    requires Chained(log, h) && h.Then? && HighWater(h) <= |log| && Live(log[h.to..HighWater(h)]) == []
    ensures CacheAgrees(log, h, wanted)
  {
    var d, batch := Handled(log, h), Live(log[Reached(h.before)..h.to]);
    CacheTracksLog(log, h, wanted);
    if h.acked {
      assert d + [] == d;
    } else {
      LiveSplit(log, Reached(h.before), h.to, HighWater(h));
      assert batch + [] == batch;
      RedeliveryChangesNothing(Handled(log, h.before), batch, wanted);
    }
  }

  /** A batch of blanks changes nothing, however far it went. */
  lemma BlankBatch(log: seq<Event>, h: History)
    requires EndsWithNewest(log, h) && h.Then? && LastLive(log, Reached(h.before), h.to) == -1
    ensures EndsWithNewest(log, h.before)
    ensures Handled(log, h) == Handled(log, h.before)
    ensures Live(log[..HighWater(h)]) == Live(log[..HighWater(h.before)])
  {
    var p, high := Reached(h.before), HighWater(h.before);
    ReachedBelowHighWater(log, h.before);
    OnlyBlanks(log, p, h.to);
    assert Handled(log, h.before) + [] == Handled(log, h.before);
    if high < h.to {
      LivePrefix(log, high, h.to);
      OnlyBlanks(log, high, h.to);
      assert Live(log[..high]) + [] == Live(log[..high]);
      SameLastLive(log, high, h.to);
    }
  }

  lemma SameLastLive(log: seq<Event>, i: nat, j: nat)
    requires i <= j <= |log| && forall k :: i <= k < j ==> log[k].id == ""
    ensures LastLive(log, 0, i) == LastLive(log, 0, j)
  {
  }

  /** When the event handled last is the newest come across, the cache is the log's. */
  lemma {:induction false} CacheEqualsLog(log: seq<Event>, h: History, wanted: set<string>)
    requires EndsWithNewest(log, h)
    ensures CacheAgrees(log, h, wanted)
  {
    if h.Then? {
      if LastLive(log, Reached(h.before), h.to) >= 0 {
        OnlyBlanks(log, h.to, HighWater(h));
        BatchWentFarEnough(log, h, wanted);
      } else {
        BlankBatch(log, h);
        CacheEqualsLog(log, h.before, wanted);
      }
    }
  }

  lemma LiveOneMore(log: seq<Event>, from: nat, to: nat)
    requires from < to <= |log|
    ensures Live(log[from..to]) == Live(log[from..to - 1]) + if log[to - 1].id == "" then [] else [log[to - 1]]
  {
    var es := log[from..to];
    assert es[..|es| - 1] == log[from..to - 1] && es[|es| - 1] == log[to - 1];
  }

  /** es ends in event i of the log, or is empty when i is negative. */
  predicate EndsAt(es: seq<Event>, log: seq<Event>, i: int) {
    if i < 0 then es == [] else i < |log| && es != [] && es[|es| - 1] == log[i]
  }

  lemma EndsConcat(a: seq<Event>, b: seq<Event>, log: seq<Event>, i: int, j: int)
    requires EndsAt(a, log, i) && EndsAt(b, log, j)
    ensures EndsAt(a + b, log, if j >= 0 then j else i)
  {
    if j < 0 {
      assert a + b == a;
    } else {
      assert (a + b)[|a + b| - 1] == b[|b| - 1];
    }
  }

  lemma {:induction false} LiveLast(log: seq<Event>, from: nat, to: nat)
    requires from <= to <= |log|
    ensures EndsAt(Live(log[from..to]), log, LastLive(log, from, to))
  {
    if from == to {
      NothingLive(log, from);
    } else {
      LiveLast(log, from, to - 1);
      LiveOneMore(log, from, to);
      var one := if log[to - 1].id == "" then [] else [log[to - 1]];
      EndsConcat(Live(log[from..to - 1]), one, log, LastLive(log, from, to - 1), if one == [] then -1 else to - 1);
    }
  }

  lemma {:induction false} HandledLast(log: seq<Event>, h: History)
    requires Chained(log, h)
    ensures EndsAt(Handled(log, h), log, LastDelivered(log, h))
  {
    if h.Then? {
      HandledLast(log, h.before);
      LiveLast(log, Reached(h.before), h.to);
      EndsConcat(Handled(log, h.before), Live(log[Reached(h.before)..h.to]), log,
                 LastDelivered(log, h.before), LastLive(log, Reached(h.before), h.to));
    }
  }

  /** Another log with the same ids, hence with the same possible histories. */
  predicate SameIds(a: seq<Event>, b: seq<Event>) {
    |a| == |b| && forall i :: 0 <= i < |a| ==> a[i].id == b[i].id
  }

  lemma {:induction false} SameIdsSameLast(a: seq<Event>, b: seq<Event>, from: nat, to: nat)
    requires SameIds(a, b) && from <= to <= |a|
    ensures LastLive(a, from, to) == LastLive(b, from, to)
  {
    if from < to {
      SameIdsSameLast(a, b, from, to - 1);
    }
  }

  lemma {:induction false} SameIdsSameHistory(a: seq<Event>, b: seq<Event>, h: History)
    requires SameIds(a, b) && Chained(a, h)
    ensures Chained(b, h) && LastDelivered(a, h) == LastDelivered(b, h)
    ensures EndsWithNewest(a, h) <==> EndsWithNewest(b, h)
  {
    if h.Then? {
      SameIdsSameHistory(a, b, h.before);
      SameIdsSameLast(a, b, Reached(h.before), h.to);
    }
    if HighWater(h) <= |a| {
      SameIdsSameLast(a, b, 0, HighWater(h));
    }
  }

  /** The same ids, but one SKU throughout and a different quantity in every event. */
  function Tagged(log: seq<Event>, code: string): (r: seq<Event>)
    ensures SameIds(log, r)
    ensures forall i :: 0 <= i < |log| ==> r[i].item == Item("k", None, [Stock(code, Some(i))])
  {
    seq(|log|, i requires 0 <= i < |log| => Event(log[i].id, Item("k", None, [Stock(code, Some(i))])))
  }

  lemma TaggedBrings(log: seq<Event>, code: string, wanted: set<string>, i: nat)
    requires i < |log| && code in wanted && Trimmed(code) && code != ""
    ensures var e := Tagged(log, code)[i]; SkuOf(e) == "k" && Brings(e, wanted) == map[code := i]
  {
    var stocks := [Stock(code, Some(i))];
    assert stocks[..0] == [];
    assert Wanted(stocks, wanted) == map[][code := i];
  }

  /** What the cache filled by es, which ends in event i, says about the one SKU. */
  lemma TaggedFilled(log: seq<Event>, code: string, wanted: set<string>, es: seq<Event>, i: int)
    requires code in wanted && Trimmed(code) && code != "" && EndsAt(es, Tagged(log, code), i)
    ensures At(Filled(es, wanted), "k") == if i < 0 then None else Some(map[code := i])
  {
    if i >= 0 {
      var front := es[..|es| - 1];
      assert es == front + [es[|es| - 1]];
      TaggedBrings(log, code, wanted, i);
      LastStands(front, es[|es| - 1], wanted);
    }
  }

  /** What delivery and the log leave under the one SKU. */
  lemma TaggedEnds(log: seq<Event>, h: History, wanted: set<string>, code: string)
    requires Chained(log, h) && HighWater(h) <= |log| && code in wanted && Trimmed(code) && code != ""
    ensures var other, d, m := Tagged(log, code), LastDelivered(log, h), LastLive(log, 0, HighWater(h));
            && Chained(other, h)
            && At(Filled(Handled(other, h), wanted), "k") == (if d < 0 then None else Some(map[code := d]))
            && At(Filled(Live(other[..HighWater(h)]), wanted), "k") == (if m < 0 then None else Some(map[code := m]))
  {
    var other := Tagged(log, code);
    SameIdsSameHistory(log, other, h);
    HandledLast(other, h);
    TaggedFilled(log, code, wanted, Handled(other, h), LastDelivered(log, h));
    TaggedLog(log, HighWater(h), wanted, code);
  }

  lemma TaggedLog(log: seq<Event>, n: nat, wanted: set<string>, code: string)
    requires n <= |log| && code in wanted && Trimmed(code) && code != ""
    ensures var m := LastLive(log, 0, n);
            At(Filled(Live(Tagged(log, code)[..n]), wanted), "k") == if m < 0 then None else Some(map[code := m])
  {
    var other := Tagged(log, code);
    SameIdsSameLast(log, other, 0, n);
    LiveLast(other, 0, n);
    assert other[0..n] == other[..n];
    TaggedFilled(log, code, wanted, Live(other[..n]), LastLive(log, 0, n));
  }

  /** Otherwise some contents, under the same ids, show the difference. */
  lemma StaleCacheShows(log: seq<Event>, h: History, wanted: set<string>, code: string)
    requires Chained(log, h) && HighWater(h) <= |log| && !EndsWithNewest(log, h)
    requires code in wanted && Trimmed(code) && code != ""
    ensures !CacheAgrees(Tagged(log, code), h, wanted)
  {
    TaggedEnds(log, h, wanted, code);
    var d, m := LastDelivered(log, h), LastLive(log, 0, HighWater(h));
    TellApart(d, m, code);
    DeliveredIsIndex(log, h);
  }

  lemma {:induction false} DeliveredIsIndex(log: seq<Event>, h: History)
    requires Chained(log, h)
    ensures LastDelivered(log, h) >= -1
  {
    if h.Then? {
      DeliveredIsIndex(log, h.before);
    }
  }

  lemma TellApart(d: int, m: int, code: string)
    requires d != m
    ensures map[code := d] != map[code := m]
  {
    assert map[code := d][code] != map[code := m][code];
  }

  // ---------------------------------------------------------------- without a wanted warehouse only the keys matter

  predicate Mentions(e: Event, k: string) {
    SkuOf(e) != "" && k != "" && (SkuOf(e) == k || PartnerOf(e) == k)
  }

  lemma {:induction false} NothingWanted(stocks: seq<Stock>)
    ensures Wanted(stocks, {}) == map[]
  {
    if stocks != [] {
      NothingWanted(stocks[..|stocks| - 1]);
    }
  }

  ghost predicate SomeMentions(es: seq<Event>, k: string) {
    exists e :: e in es && Mentions(e, k)
  }

  lemma SomeMentionsStep(es: seq<Event>, k: string)
    requires es != []
    ensures SomeMentions(es, k) <==> SomeMentions(es[..|es| - 1], k) || Mentions(es[|es| - 1], k)
  {
    var front, last := es[..|es| - 1], es[|es| - 1];
    assert forall e :: e in es <==> e in front || e == last;
  }

  lemma {:induction false} FilledWithNothing(es: seq<Event>, k: string)
    ensures At(Filled(es, {}), k) == if SomeMentions(es, k) then Some(map[]) else None
  {
    if es != [] {
      var front, last := es[..|es| - 1], es[|es| - 1];
      FilledWithNothing(front, k);
      NothingWanted(last.item.warehouses);
      SomeMentionsStep(es, k);
      NotedAt(Filled(front, {}), last, {}, k);
    }
  }

  /** Everything come across was handled, and nothing else. */
  lemma {:induction false} HandledMembers(log: seq<Event>, h: History, e: Event)
    requires Chained(log, h)
    ensures HighWater(h) <= |log|
    ensures e in Handled(log, h) <==> e in Live(log[..HighWater(h)])
  {
    ReachedBelowHighWater(log, h);
    if h.Then? {
      var p, high := Reached(h.before), HighWater(h.before);
      HandledMembers(log, h.before, e);
      ReachedBelowHighWater(log, h.before);
      if h.to <= high {
        LivePrefix(log, p, h.to);
        LivePrefix(log, h.to, high);
      } else {
        LivePrefix(log, high, h.to);
        LiveSplit(log, p, high, h.to);
        LivePrefix(log, p, high);
      }
    }
  }

  lemma NothingWantedAgrees(log: seq<Event>, h: History)
    requires Chained(log, h)
    ensures CacheAgrees(log, h, {})
  {
    ReachedBelowHighWater(log, h);
    var a, b := Handled(log, h), Live(log[..HighWater(h)]);
    forall e ensures e in a <==> e in b {
      HandledMembers(log, h, e);
    }
    var ma, mb := Filled(a, {}), Filled(b, {});
    forall k ensures (k in ma <==> k in mb) && (k in ma ==> ma[k] == mb[k]) {
      FilledWithNothing(a, k);
      FilledWithNothing(b, k);
      assert SomeMentions(a, k) == SomeMentions(b, k);
      assert At(ma, k) == At(mb, k);
    }
  }

  /**
   For given ids and a given history the cache is the log's, whatever the events say, if and only if
   the event handled last is the newest the reader has come across (or no warehouse is wanted).
   */
  lemma CacheEqualsLogIff(log: seq<Event>, h: History, wanted: set<string>)
    requires Chained(log, h) && forall c :: c in wanted ==> Trimmed(c) && c != ""
    ensures (forall other :: SameIds(log, other) ==> CacheAgrees(other, h, wanted)) <==> wanted == {} || EndsWithNewest(log, h)
  {
    ReachedBelowHighWater(log, h);
    if wanted == {} || EndsWithNewest(log, h) {
      forall other | SameIds(log, other) ensures CacheAgrees(other, h, wanted) {
        SameIdsSameHistory(log, other, h);
        if wanted == {} {
          NothingWantedAgrees(other, h);
        } else {
          CacheEqualsLog(other, h, wanted);
        }
      }
    } else {
      var code :| code in wanted;
      StaleCacheShows(log, h, wanted, code);
    }
  }

  /**
   The smallest case: an unacknowledged batch that is delivered again only in part leaves the older
   quantity in the cache.
   */
  lemma PartialRedeliveryLosesAnUpdate(older: Event, newer: Event, blank: Event, wanted: set<string>)
    requires older.id != "" && newer.id != "" && blank.id == ""
    requires SkuOf(older) == SkuOf(newer) != "" && Brings(older, wanted) != Brings(newer, wanted)
    ensures var log, h := [older, newer, blank], Then(Then(Start, 3, false), 1, true);
            Chained(log, h) && Filled(Handled(log, h), wanted) != Filled(Live(log[..HighWater(h)]), wanted)
  {
    var log, h := [older, newer, blank], Then(Then(Start, 3, false), 1, true);
    PartialHandled(older, newer, blank);
    LastStands([older, newer], older, wanted);
    LastStands([older], newer, wanted);
    assert [older, newer] == [older] + [newer];
    assert At(Filled(Handled(log, h), wanted), SkuOf(older)) != At(Filled(Live(log[..HighWater(h)]), wanted), SkuOf(older));
  }

  lemma LastStands(es: seq<Event>, e: Event, wanted: set<string>)
    requires SkuOf(e) != ""
    ensures At(Filled(es + [e], wanted), SkuOf(e)) == Some(Brings(e, wanted))
  {
    FilledSnoc(es, e, wanted);
    NotedAt(Filled(es, wanted), e, wanted, SkuOf(e));
  }

  lemma PartialHandled(older: Event, newer: Event, blank: Event)
    requires older.id != "" && newer.id != "" && blank.id == ""
    ensures var log, h := [older, newer, blank], Then(Then(Start, 3, false), 1, true);
            && Chained(log, h)
            && HighWater(h) == 3 && Live(log[..3]) == [older, newer]
            && Handled(log, h) == [older, newer] + [older]
  {
    var log, first := [older, newer, blank], Then(Start, 3, false);
    assert log[0..3] == log[..3] == [older, newer] + [blank] && log[0..1] == [older];
    AllLive([older, newer]);
    AllLive([older]);
    LiveConcat([older, newer], [blank]);
    assert Live([blank]) == [];
    OneMore(log, Start, 3, false);
    OneMore(log, first, 1, true);
  }

  /** With ids on all events nothing is ever delivered twice. */
  lemma {:induction false} IdsMeanExactlyOnce(log: seq<Event>, h: History)
    requires Chained(log, h) && forall i :: 0 <= i < |log| ==> log[i].id != ""
    ensures Reached(h) == HighWater(h) <= |log| && Handled(log, h) == log[..Reached(h)]
  {
    if h.Then? {
      IdsMeanExactlyOnce(log, h.before);
      OneMore(log, h.before, h.to, h.acked);
      PrefixAllLive(log, Reached(h.before), h.to);
    }
  }

  lemma PrefixAllLive(log: seq<Event>, from: nat, to: nat)
    requires from <= to <= |log| && forall i :: 0 <= i < |log| ==> log[i].id != ""
    ensures log[..from] + Live(log[from..to]) == log[..to]
  {
    AllLive(log[from..to]);
    assert log[..from] + log[from..to] == log[..to];
  }

  lemma {:induction false} AllLive(es: seq<Event>)
    requires forall i :: 0 <= i < |es| ==> es[i].id != ""
    ensures Live(es) == es
  {
    if es != [] {
      var n := |es| - 1;
      AllLive(es[..n]);
      assert es == es[..n] + [es[n]];
      LiveUnfolds(es);
    }
  }

  lemma LiveUnfolds(es: seq<Event>)
    requires es != []
    ensures Live(es) == Live(es[..|es| - 1]) + if es[|es| - 1].id == "" then [] else [es[|es| - 1]]
  {
  }
}
