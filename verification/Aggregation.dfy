/**
 Regrouping outbound orders by tracking number and key, and the full-shipment gate computed
 from the groups. Every loop over a Go map takes its keys in an arbitrary order.
 */
module Aggregation {
  import opened Text
  import opened Orders
  import opened Sums

  // ---------------------------------------------------------------- aggregation by tracking number

  type Items = map<string, nat>
  type Agg = map<string, Items>

  function Get(items: Items, key: string): nat {
    if key in items then items[key] else 0
  }

  function AddProduct(names: Names, items: Items, p: Product): Items {
    if !Counts(p) then items else items[Resolve(names, p) := Get(items, Resolve(names, p)) + p.count]
  }

  function AddProducts(names: Names, items: Items, ps: seq<Product>): Items {
    if ps == [] then items else AddProduct(names, AddProducts(names, items, ps[..|ps| - 1]), ps[|ps| - 1])
  }

  function ItemsAt(agg: Agg, tracking: string): Items {
    if tracking in agg then agg[tracking] else map[]
  }

  function AddOutbound(names: Names, agg: Agg, w: Outbound): Agg {
    var t := Trim(w.trackingNo);
    if t == "" then agg else agg[t := AddProducts(names, ItemsAt(agg, t), w.products)]
  }

  function Aggregate(names: Names, ws: seq<Outbound>): Agg {
    if ws == [] then map[] else AddOutbound(names, Aggregate(names, ws[..|ws| - 1]), ws[|ws| - 1])
  }

  method AddProductsTo(names: Names, start: Items, ps: seq<Product>) returns (items: Items)
    ensures items == AddProducts(names, start, ps)
  {
    items := start;
    for j := 0 to |ps|
      invariant items == AddProducts(names, start, ps[..j])
    {
      ghost var before := items;
      var p := ps[j];
      if Counts(p) {
        var key := Resolve(names, p);
        items := items[key := Get(items, key) + p.count];
      }
      assert items == AddProduct(names, before, p);
      AddProductsStep(names, start, ps, j);
    }
    assert ps[..|ps|] == ps;
  }

  lemma AddProductsStep(names: Names, start: Items, ps: seq<Product>, j: nat)
    requires j < |ps|
    ensures AddProducts(names, start, ps[..j + 1]) == AddProduct(names, AddProducts(names, start, ps[..j]), ps[j])
  {
    assert ps[..j + 1][..j] == ps[..j];
  }

  method AggregateByTracking(names: Names, ws: seq<Outbound>) returns (agg: Agg)
    ensures agg == Aggregate(names, ws)
  {
    agg := map[];
    for i := 0 to |ws|
      invariant agg == Aggregate(names, ws[..i])
    {
      ghost var before := agg;
      var tracking := Trim(ws[i].trackingNo);
      if tracking != "" {
        var items := AddProductsTo(names, ItemsAt(agg, tracking), ws[i].products);
        agg := agg[tracking := items];
      }
      assert agg == AddOutbound(names, before, ws[i]);
      AggregateStep(names, ws, i);
    }
    assert ws[..|ws|] == ws;
  }

  lemma AggregateStep(names: Names, ws: seq<Outbound>, i: nat)
    requires i < |ws|
    ensures Aggregate(names, ws[..i + 1]) == AddOutbound(names, Aggregate(names, ws[..i]), ws[i])
  {
    assert ws[..i + 1][..i] == ws[..i];
  }

  predicate HasTracking(ws: seq<Outbound>, tracking: string) {
    exists i :: 0 <= i < |ws| && Trim(ws[i].trackingNo) == tracking
  }

  predicate Positive(items: Items) {
    forall k :: k in items ==> items[k] > 0
  }

  lemma {:induction false} AddProductsMeaning(names: Names, items: Items, ps: seq<Product>, key: string)
    requires Positive(items)
    ensures Positive(AddProducts(names, items, ps))
    ensures Get(AddProducts(names, items, ps), key) == Get(items, key) + ProductsQty(names, ps, key)
  {
    if ps != [] {
      AddProductsMeaning(names, items, ps[..|ps| - 1], key);
    }
  }

  predicate GoodKeys(items: Items) {
    forall k :: k in items ==> k != "" && Trimmed(k)
  }

  predicate GoodAgg(agg: Agg) {
    forall t :: t in agg ==> GoodKeys(agg[t])
  }

  lemma {:induction false} AddProductsKeys(names: Names, items: Items, ps: seq<Product>)
    requires GoodNames(names) && GoodKeys(items)
    ensures GoodKeys(AddProducts(names, items, ps))
  {
    if ps != [] {
      AddProductsKeys(names, items, ps[..|ps| - 1]);
    }
  }

  lemma {:induction false} AggregateKeys(names: Names, ws: seq<Outbound>)
    requires GoodNames(names)
    ensures GoodAgg(Aggregate(names, ws))
  {
    if ws != [] {
      var before, w := ws[..|ws| - 1], ws[|ws| - 1];
      AggregateKeys(names, before);
      AddProductsKeys(names, ItemsAt(Aggregate(names, before), Trim(w.trackingNo)), w.products);
    }
  }

  /** The groups are the distinct tracking numbers, and each holds exactly what was shipped under it. */
  lemma {:induction false} AggregateMeaning(names: Names, ws: seq<Outbound>, tracking: string, key: string)
    ensures tracking in Aggregate(names, ws) <==> tracking != "" && HasTracking(ws, tracking)
    ensures tracking in Aggregate(names, ws) ==> Positive(Aggregate(names, ws)[tracking])
    ensures tracking != "" ==> Get(ItemsAt(Aggregate(names, ws), tracking), key) == UnderQty(names, ws, tracking, key)
  {
    if ws != [] {
      var before, w := ws[..|ws| - 1], ws[|ws| - 1];
      AggregateMeaning(names, before, tracking, key);
      assert ws == before + [w];
      HasTrackingSnoc(before, w, tracking);
      AddOutboundAt(names, Aggregate(names, before), w, tracking, key);
    }
  }

  lemma AddOutboundAt(names: Names, agg: Agg, w: Outbound, tracking: string, key: string)
    requires tracking in agg ==> Positive(agg[tracking])
    ensures var after := AddOutbound(names, agg, w);
            && (tracking in after <==> tracking in agg || Trim(w.trackingNo) == tracking != "")
            && (tracking in after ==> Positive(after[tracking]))
            && (tracking != "" ==>
                  Get(ItemsAt(after, tracking), key) ==
                  Get(ItemsAt(agg, tracking), key) + if Trim(w.trackingNo) == tracking then ProductsQty(names, w.products, key) else 0)
  {
    AddProductsMeaning(names, ItemsAt(agg, tracking), w.products, key);
  }

  lemma HasTrackingSnoc(ws: seq<Outbound>, w: Outbound, tracking: string)
    ensures HasTracking(ws + [w], tracking) <==> HasTracking(ws, tracking) || Trim(w.trackingNo) == tracking
  {
    var all := ws + [w];
    if HasTracking(ws, tracking) {
      var i :| 0 <= i < |ws| && Trim(ws[i].trackingNo) == tracking;
      assert all[i] == ws[i];
    }
    assert all[|ws|] == w;
  }

  /** The quantities of one key across the tracking groups. */
  function Column(agg: Agg, key: string): Items {
    map t | t in agg :: Get(agg[t], key)
  }

  /** Grouping by tracking number neither loses nor invents quantity. */
  lemma {:induction false} AggregationConserves(names: Names, ws: seq<Outbound>, key: string)
    ensures Sum(Column(Aggregate(names, ws), key)) == TrackedQty(names, ws, key)
  {
    if ws != [] {
      var before, w := ws[..|ws| - 1], ws[|ws| - 1];
      AggregationConserves(names, before, key);
      AggregateAllPositive(names, before);
      AddOutboundConserves(names, Aggregate(names, before), w, key);
    }
  }

  lemma {:induction false} AggregateAllPositive(names: Names, ws: seq<Outbound>)
    ensures forall t :: t in Aggregate(names, ws) ==> Positive(Aggregate(names, ws)[t])
  {
    forall t | t in Aggregate(names, ws) ensures Positive(Aggregate(names, ws)[t]) {
      AggregateMeaning(names, ws, t, "");
    }
  }

  lemma ColumnPut(agg: Agg, tracking: string, items: Items, key: string)
    ensures Column(agg[tracking := items], key) == Column(agg, key)[tracking := Get(items, key)]
  {
  }

  lemma AddOutboundConserves(names: Names, agg: Agg, w: Outbound, key: string)
    requires forall t :: t in agg ==> Positive(agg[t])
    ensures Sum(Column(AddOutbound(names, agg, w), key)) == Sum(Column(agg, key)) + TrackedOf(names, w, key)
  {
    var t := Trim(w.trackingNo);
    if t != "" {
      AddGroupConserves(names, agg, t, w.products, key);
    }
  }

  lemma AddGroupConserves(names: Names, agg: Agg, t: string, ps: seq<Product>, key: string)
    requires t in agg ==> Positive(agg[t])
    ensures Sum(Column(agg[t := AddProducts(names, ItemsAt(agg, t), ps)], key)) == Sum(Column(agg, key)) + ProductsQty(names, ps, key)
  {
    AddProductsMeaning(names, ItemsAt(agg, t), ps, key);
    ColumnPut(agg, t, AddProducts(names, ItemsAt(agg, t), ps), key);
    SumPut(Column(agg, key), t, Get(ItemsAt(agg, t), key) + ProductsQty(names, ps, key));
  }

  // ---------------------------------------------------------------- the gate

  /** Sums the groups per key. */
  method ShippedByKey(agg: Agg) returns (shipped: Items)
    ensures forall k :: Get(shipped, k) == Sum(Column(agg, k))
  {
    shipped := map[];
    var rest := agg;
    while rest != map[]
      invariant forall t :: t in rest ==> t in agg && rest[t] == agg[t]
      invariant forall k :: Get(shipped, k) + Sum(Column(rest, k)) == Sum(Column(agg, k))
      decreases |rest|
    {
      var t :| t in rest;
      ghost var before := rest;
      var added := AddAll(shipped, rest[t]);
      rest := rest - {t};
      forall k ensures Get(added, k) + Sum(Column(rest, k)) == Sum(Column(agg, k)) {
        SumTake(Column(before, k), t);
        assert Column(before, k) - {t} == Column(rest, k);
      }
      shipped := added;
    }
  }

  method AddAll(shipped: Items, items: Items) returns (added: Items)
    ensures forall k :: Get(added, k) == Get(shipped, k) + Get(items, k)
  {
    added := shipped;
    var rest := items;
    while rest != map[]
      invariant forall k :: k in rest ==> k in items && rest[k] == items[k]
      invariant forall k :: Get(added, k) + Get(rest, k) == Get(shipped, k) + Get(items, k)
      decreases |rest|
    {
      var k :| k in rest;
      added := added[k := Get(added, k) + rest[k]];
      rest := rest - {k};
    }
  }

  /** The readiness loop, shared in form by the shipment and the invoice task. */
  method AllShipped(expected: Items, shipped: Items) returns (ready: bool)
    ensures ready <==> forall k :: k in expected ==> expected[k] <= Get(shipped, k)
  {
    var rest := expected;
    ready := true;
    while rest != map[] && ready
      invariant forall k :: k in rest ==> k in expected && rest[k] == expected[k]
      invariant ready ==> forall k :: k in expected && k !in rest ==> expected[k] <= Get(shipped, k)
      invariant !ready ==> exists k :: k in expected && expected[k] > Get(shipped, k)
      decreases |rest|, ready
    {
      var k :| k in rest;
      if Get(shipped, k) < rest[k] {
        ready := false;
      }
      rest := rest - {k};
    }
  }

  method GateOf(lines: seq<Line>, names: Names, ws: seq<Outbound>, agg: Agg) returns (ready: bool)
    requires names.alias == AliasMap(lines) && agg == Aggregate(names, ws)
    ensures ready <==> ShipGate(lines, names.reverse, ws)
  {
    var expected := BuildExpected(lines);
    var shipped := ShippedByKey(agg);
    ready := AllShipped(expected, shipped);
    forall k ensures Get(shipped, k) == TrackedQty(names, ws, k) {
      AggregationConserves(names, ws, k);
    }
  }
}
