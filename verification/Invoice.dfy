/**
 Building the one summary invoice of an order: unit prices, one line per key, the total,
 and the decision with all its skips. Amounts are exact; only the final rounding is modelled.
 */
module Invoice {
  import opened Text
  import opened Orders
  import opened Sums
  import opened Aggregation
  import Mskus

  // ---------------------------------------------------------------- prices

  predicate Usable(price: Option<real>) {
    price.Some? && price.value > 0.0
  }

  function Candidates(li: Line): seq<Option<real>> {
    [li.consumerPriceWithTax, li.consumerPrice, li.retailPrice, li.expectedCost]
  }

  /** pickUnitPrice: the first positive candidate. */
  function PickUnitPrice(li: Line): (p: Option<real>)
    ensures p.Some? ==> p.value > 0.0
  {
    if li.consumerPriceWithTax.Some? && li.consumerPriceWithTax.value > 0.0 then li.consumerPriceWithTax
    else if li.consumerPrice.Some? && li.consumerPrice.value > 0.0 then li.consumerPrice
    else if li.retailPrice.Some? && li.retailPrice.value > 0.0 then li.retailPrice
    else if li.expectedCost.Some? && li.expectedCost.value > 0.0 then li.expectedCost
    else None
  }

  /** The price picked is the first usable candidate; there is none exactly when no candidate is usable. */
  lemma PickIsFirstUsable(li: Line, i: nat)
    requires i <= 4 && forall j :: 0 <= j < i ==> !Usable(Candidates(li)[j])
    ensures i < 4 && Usable(Candidates(li)[i]) ==> PickUnitPrice(li) == Candidates(li)[i]
    ensures i == 4 ==> PickUnitPrice(li) == None
  {
    var c := Candidates(li);
    assert i > 0 ==> !Usable(c[0]);
    assert i > 1 ==> !Usable(c[1]);
    assert i > 2 ==> !Usable(c[2]);
    assert i > 3 ==> !Usable(c[3]);
  }

  type Prices = map<string, real>

  function NotePrice(m: Prices, li: Line): Prices {
    var p := PickUnitPrice(li);
    if LineKey(li) == "" || p.None? then m else m[LineKey(li) := p.value]
  }

  function PriceByKey(lines: seq<Line>): Prices {
    if lines == [] then map[] else NotePrice(PriceByKey(lines[..|lines| - 1]), lines[|lines| - 1])
  }

  method BuildPrices(lines: seq<Line>) returns (prices: Prices)
    ensures prices == PriceByKey(lines)
  {
    prices := map[];
    for i := 0 to |lines|
      invariant prices == PriceByKey(lines[..i])
    {
      assert lines[..i + 1][..i] == lines[..i];
      prices := NotePrice(prices, lines[i]);
    }
    assert lines[..|lines|] == lines;
  }

  lemma {:induction false} PricesPositive(lines: seq<Line>)
    ensures forall k :: k in PriceByKey(lines) ==> PriceByKey(lines)[k] > 0.0
  {
    if lines != [] {
      PricesPositive(lines[..|lines| - 1]);
    }
  }

  predicate Priced(lines: seq<Line>, key: string) {
    exists i :: 0 <= i < |lines| && LineKey(lines[i]) == key && PickUnitPrice(lines[i]).Some?
  }

  /** A key has a price exactly when one of its lines does. */
  lemma {:induction false} PriceExistsIff(lines: seq<Line>, key: string)
    requires key != ""
    ensures key in PriceByKey(lines) <==> Priced(lines, key)
  {
    if lines != [] {
      var before, li := lines[..|lines| - 1], lines[|lines| - 1];
      PriceExistsIff(before, key);
      assert lines == before + [li];
      PricedSnoc(before, li, key);
    }
  }

  lemma PricedSnoc(lines: seq<Line>, li: Line, key: string)
    ensures Priced(lines + [li], key) <==> Priced(lines, key) || (LineKey(li) == key && PickUnitPrice(li).Some?)
  {
    var all := lines + [li];
    if Priced(lines, key) {
      var i :| 0 <= i < |lines| && LineKey(lines[i]) == key && PickUnitPrice(lines[i]).Some?;
      assert all[i] == lines[i];
    }
    assert all[|lines|] == li;
  }

  /** The price of the last line filed under the key that has one. */
  predicate LastPrice(lines: seq<Line>, key: string, price: real) {
    exists i :: 0 <= i < |lines| && FiledUnder(lines[i], key) && PickUnitPrice(lines[i]) == Some(price) && NonePriced(lines, i + 1, key)
  }

  predicate NonePriced(lines: seq<Line>, i: int, key: string) {
    forall j :: i <= j < |lines| && 0 <= j ==> !(FiledUnder(lines[j], key) && PickUnitPrice(lines[j]).Some?)
  }

  lemma {:induction false} PriceIsLast(lines: seq<Line>, key: string)
    requires key in PriceByKey(lines)
    ensures key != "" && LastPrice(lines, key, PriceByKey(lines)[key])
  {
    var before, li := lines[..|lines| - 1], lines[|lines| - 1];
    assert lines == before + [li];
    KeyIsFiledUnder(li, key);
    if LineKey(li) == key != "" && PickUnitPrice(li).Some? {
      LastPriceSnoc(before, li, key, PickUnitPrice(li).value);
    } else {
      PriceIsLast(before, key);
      LastPriceSnoc(before, li, key, PriceByKey(before)[key]);
    }
  }

  lemma {:induction false} LastPriceSnoc(lines: seq<Line>, li: Line, key: string, price: real)
    requires if FiledUnder(li, key) && PickUnitPrice(li).Some? then PickUnitPrice(li) == Some(price) else LastPrice(lines, key, price)
    ensures LastPrice(lines + [li], key, price)
  {
    var all := lines + [li];
    if FiledUnder(li, key) && PickUnitPrice(li).Some? {
      assert all[|lines|] == li && NonePriced(all, |lines| + 1, key);
    } else {
      var i :| 0 <= i < |lines| && FiledUnder(lines[i], key) && PickUnitPrice(lines[i]) == Some(price) && NonePriced(lines, i + 1, key);
      NonePricedSnoc(lines, li, i + 1, key);
      assert all[i] == lines[i];
    }
  }

  lemma {:induction false} NonePricedSnoc(lines: seq<Line>, li: Line, i: nat, key: string)
    requires NonePriced(lines, i, key) && !(FiledUnder(li, key) && PickUnitPrice(li).Some?)
    ensures NonePriced(lines + [li], i, key)
  {
  }

  // ---------------------------------------------------------------- everything shipped, tracked or not

  method ShippedAnywhere(names: Names, ws: seq<Outbound>) returns (shipped: Items)
    ensures forall k :: Get(shipped, k) == AllQty(names, ws, k)
  {
    shipped := map[];
    for i := 0 to |ws|
      invariant Positive(shipped)
      invariant forall k :: Get(shipped, k) == AllQty(names, ws[..i], k)
    {
      ghost var before := shipped;
      shipped := AddProductsTo(names, shipped, ws[i].products);
      AddProductsMeaning(names, before, ws[i].products, "");
      forall k ensures Get(shipped, k) == AllQty(names, ws[..i + 1], k) {
        AddProductsMeaning(names, before, ws[i].products, k);
        assert ws[..i + 1][..i] == ws[..i];
      }
    }
    assert ws[..|ws|] == ws;
  }

  method InvoiceReady(lines: seq<Line>, reverse: map<string, string>, ws: seq<Outbound>) returns (ready: bool)
    ensures ready <==> InvoiceGate(lines, reverse, ws)
  {
    var alias, _, _ := BuildNames(lines);
    var expected := BuildExpected(lines);
    var shipped := ShippedAnywhere(Names(reverse, alias), ws);
    ready := AllShipped(expected, shipped);
  }

  // ---------------------------------------------------------------- lines and total

  datatype InvoiceLine = InvoiceLine(quantity: nat, unitPrice: real, sku: string, partnerSku: string)

  datatype Summary = Summary(poNumber: string, invoiceId: string, total: real, lines: map<string, InvoiceLine>)

  /** The maps one order is invoiced from. */
  datatype Maps = Maps(expected: Items, prices: Prices, sku: map<string, string>, partner: map<string, string>)

  function MapsOf(lines: seq<Line>): Maps {
    Maps(Expected(lines), PriceByKey(lines), SkuByKey(lines), PartnerByKey(lines))
  }

  function LineFor(m: Maps, key: string): InvoiceLine
    requires key in m.expected && key in m.prices
  {
    var sku := Trim(Lookup(m.sku, key));
    InvoiceLine(m.expected[key], m.prices[key], if sku != "" then sku else key, Trim(Lookup(m.partner, key)))
  }

  predicate AllPriced(m: Maps) {
    m.expected.Keys <= m.prices.Keys
  }

  function Times(q: nat, price: real): real {
    q as real * price
  }

  /** What each key contributes to the total. */
  function Amounts(quantities: Items, prices: Prices): Prices
    requires quantities.Keys <= prices.Keys
  {
    map k | k in quantities :: Times(quantities[k], prices[k])
  }

  predicate WholeCents(amount: real) {
    (amount * 100.0).Floor as real == amount * 100.0
  }

  /** math.Round(x * 100) / 100 for the non-negative totals that occur. */
  function RoundCents(x: real): (r: real)
    ensures -0.005 < r - x <= 0.005 && WholeCents(r)
  {
    (x * 100.0 + 0.5).Floor as real / 100.0
  }

  datatype Built = MissingPrice(keys: set<string>) | NoLines | Ready(lines: map<string, InvoiceLine>, total: real)

  function LineMap(m: Maps): map<string, InvoiceLine>
    requires AllPriced(m)
  {
    map k | k in m.expected :: LineFor(m, k)
  }

  ghost function BuildResult(m: Maps): Built {
    if !AllPriced(m) then MissingPrice(m.expected.Keys - m.prices.Keys)
    else if m.expected == map[] then NoLines
    else Ready(LineMap(m), RoundCents(SumReal(Amounts(m.expected, m.prices))))
  }

  /** What holds while the keys in rest are still to be walked. */
  ghost predicate Walked(m: Maps, rest: set<string>, missing: set<string>, out: map<string, InvoiceLine>, total: real) {
    && (forall k :: k in rest ==> k in m.expected)
    && (forall k :: k in missing <==> k in m.expected && k !in m.prices && k !in rest)
    && (forall k :: k in out <==> k in m.expected && k in m.prices && k !in rest)
    && (forall k :: k in out ==> out[k] == LineFor(m, k))
    && total == SumReal(LineAmounts(out))
  }

  /** Walks the keys in an arbitrary order, collecting lines, the running total and the unpriced keys. */
  method BuildLines(lines: seq<Line>) returns (b: Built)
    ensures b == BuildResult(MapsOf(lines))
  {
    var alias, skuByKey, partnerByKey := BuildNames(lines);
    var expected := BuildExpected(lines);
    var prices := BuildPrices(lines);
    PricesPositive(lines);
    b := BuildFrom(Maps(expected, prices, skuByKey, partnerByKey));
  }

  method BuildFrom(m: Maps) returns (b: Built)
    requires forall k :: k in m.prices ==> m.prices[k] > 0.0
    ensures b == BuildResult(m)
  {
    var missing: set<string> := {};
    var out: map<string, InvoiceLine> := map[];
    var total := 0.0;
    var rest := m.expected.Keys;
    while rest != {}
      invariant Walked(m, rest, missing, out, total)
      decreases |rest|
    {
      var key :| key in rest;
      var unit := if key in m.prices then m.prices[key] else 0.0;
      if unit <= 0.0 {
        WalkUnpriced(m, rest, missing, out, total, key);
        missing := missing + {key};
      } else {
        WalkPriced(m, rest, missing, out, total, key);
        var sku := Trim(Lookup(m.sku, key));
        out := out[key := InvoiceLine(m.expected[key], unit, if sku != "" then sku else key, Trim(Lookup(m.partner, key)))];
        total := total + Times(m.expected[key], unit);
      }
      rest := rest - {key};
    }
    WalkDone(m, missing, out, total);
    if missing != {} {
      return MissingPrice(missing);
    }
    if out == map[] {
      return NoLines;
    }
    b := Ready(out, RoundCents(total));
  }

  lemma WalkUnpriced(m: Maps, rest: set<string>, missing: set<string>, out: map<string, InvoiceLine>, total: real, key: string)
    requires Walked(m, rest, missing, out, total) && key in rest && key !in m.prices
    ensures Walked(m, rest - {key}, missing + {key}, out, total)
  {
  }

  lemma WalkPriced(m: Maps, rest: set<string>, missing: set<string>, out: map<string, InvoiceLine>, total: real, key: string)
    requires Walked(m, rest, missing, out, total) && key in rest && key in m.prices
    ensures Walked(m, rest - {key}, missing, out[key := LineFor(m, key)], total + Times(m.expected[key], m.prices[key]))
  {
    AddLineAmount(out, key, LineFor(m, key));
  }

  lemma WalkDone(m: Maps, missing: set<string>, out: map<string, InvoiceLine>, total: real)
    requires Walked(m, {}, missing, out, total)
    ensures missing == m.expected.Keys - m.prices.Keys
    ensures missing == {} <==> AllPriced(m)
    ensures AllPriced(m) ==> out == LineMap(m) && total == SumReal(Amounts(m.expected, m.prices))
    ensures AllPriced(m) ==> (out == map[] <==> m.expected == map[])
  {
    assert missing == m.expected.Keys - m.prices.Keys;
    if AllPriced(m) {
      assert out.Keys == m.expected.Keys;
      assert out == LineMap(m);
      assert LineAmounts(out) == Amounts(m.expected, m.prices);
    }
  }

  function LineAmounts(out: map<string, InvoiceLine>): Prices {
    map k | k in out :: Times(out[k].quantity, out[k].unitPrice)
  }

  lemma AddLineAmount(out: map<string, InvoiceLine>, key: string, li: InvoiceLine)
    requires key !in out
    ensures SumReal(LineAmounts(out[key := li])) == SumReal(LineAmounts(out)) + Times(li.quantity, li.unitPrice)
  {
    assert LineAmounts(out[key := li]) == LineAmounts(out)[key := Times(li.quantity, li.unitPrice)];
    SumRealPut(LineAmounts(out), key, Times(li.quantity, li.unitPrice));
  }

  // ---------------------------------------------------------------- the decision for one order

  datatype InvoiceInput = InvoiceInput(
    po: string,
    localInvoiceId: string,
    existsInDsco: Option<bool>,
    mskus: seq<string>,
    multiBan: bool,
    payload: Option<Order>,
    hasSid: bool,
    outbound: Option<seq<Outbound>>,
    reverse: map<string, string>)

  datatype Reason =
    | PoNumberEmpty | AlreadyInvoiced | MultiBanned | DecodeFailed | MissingSid | OutboundNotFound
    | NotFullyShipped | MissingUnitPrice(keys: set<string>) | NoInvoiceLines

  datatype Decision = Skip(reason: Reason) | Send(invoice: Summary)

  /** The checks made before the order lines are looked at. */
  function EarlySkip(x: InvoiceInput): Option<Reason> {
    if Trim(x.po) == "" then Some(PoNumberEmpty)
    else if Trim(x.localInvoiceId) != "" && x.existsInDsco == Some(true) then Some(AlreadyInvoiced)
    else if x.multiBan && Mskus.IsMulti(x.mskus) then Some(MultiBanned)
    else if x.payload.None? then Some(DecodeFailed)
    else if !x.hasSid then Some(MissingSid)
    else if x.outbound.None? || x.outbound.value == [] then Some(OutboundNotFound)
    else None
  }

  ghost function InvoiceDecision(x: InvoiceInput): Decision {
    if EarlySkip(x).Some? then Skip(EarlySkip(x).value)
    else if !InvoiceGate(x.payload.value.lines, x.reverse, x.outbound.value) then Skip(NotFullyShipped)
    else
      match BuildResult(MapsOf(x.payload.value.lines))
      case MissingPrice(keys) => Skip(MissingUnitPrice(keys))
      case NoLines => Skip(NoInvoiceLines)
      case Ready(lines, total) => Send(Summary(Trim(x.po), Trim(x.po), total, lines))
  }

  method CheckEarly(x: InvoiceInput) returns (skip: Option<Reason>)
    ensures skip == EarlySkip(x)
  {
    if Trim(x.po) == "" {
      return Some(PoNumberEmpty);
    }
    if Trim(x.localInvoiceId) != "" && x.existsInDsco == Some(true) {
      return Some(AlreadyInvoiced);
    }
    if x.multiBan {
      var isMulti, _ := Mskus.DetectMultiOrderByMSKUs(x.mskus);
      if isMulti {
        return Some(MultiBanned);
      }
    }
    if x.payload.None? {
      return Some(DecodeFailed);
    }
    if !x.hasSid {
      return Some(MissingSid);
    }
    if x.outbound.None? || x.outbound.value == [] {
      return Some(OutboundNotFound);
    }
    skip := None;
  }

  /** The loop body of InvoiceToDSCO for one row, up to where it joins the batch. */
  method PrepareInvoice(x: InvoiceInput) returns (d: Decision)
    ensures d == InvoiceDecision(x)
  {
    var skip := CheckEarly(x);
    if skip.Some? {
      return Skip(skip.value);
    }
    var ready := InvoiceReady(x.payload.value.lines, x.reverse, x.outbound.value);
    if !ready {
      return Skip(NotFullyShipped);
    }
    var b := BuildLines(x.payload.value.lines);
    match b
    case MissingPrice(keys) => d := Skip(MissingUnitPrice(keys));
    case NoLines => d := Skip(NoInvoiceLines);
    case Ready(lines, total) => d := Send(Summary(Trim(x.po), Trim(x.po), total, lines));
  }

  // ---------------------------------------------------------------- what an invoice guarantees

  lemma SendIsReady(x: InvoiceInput)
    requires InvoiceDecision(x).Send?
    ensures x.payload.Some? && AllPriced(MapsOf(x.payload.value.lines))
    ensures var lines := x.payload.value.lines;
            InvoiceDecision(x).invoice.lines == LineMap(MapsOf(lines))
            && InvoiceDecision(x).invoice.total == RoundCents(SumReal(Amounts(Expected(lines), PriceByKey(lines))))
  {
  }

  /** One line per key with a positive ordered quantity, carrying exactly that quantity. */
  lemma OneLinePerOrderedKey(x: InvoiceInput, key: string)
    requires InvoiceDecision(x).Send?
    ensures key in InvoiceDecision(x).invoice.lines <==> key != "" && OrderedQty(x.payload.value.lines, key) > 0
    ensures key in InvoiceDecision(x).invoice.lines ==>
              InvoiceDecision(x).invoice.lines[key].quantity == OrderedQty(x.payload.value.lines, key)
  {
    SendIsReady(x);
    ExpectedIsOrdered(x.payload.value.lines, key);
  }

  lemma InvoicedPrice(x: InvoiceInput, key: string)
    requires InvoiceDecision(x).Send? && key in InvoiceDecision(x).invoice.lines
    ensures LastPrice(x.payload.value.lines, key, InvoiceDecision(x).invoice.lines[key].unitPrice)
  {
    SendIsReady(x);
    PriceIsLast(x.payload.value.lines, key);
  }

  /** What an invoice line names: the SKU and the partner SKU of the order's lines for its key. */
  lemma InvoicedNames(x: InvoiceInput, key: string)
    requires InvoiceDecision(x).Send? && key in InvoiceDecision(x).invoice.lines
    ensures var li, lines := InvoiceDecision(x).invoice.lines[key], x.payload.value.lines;
            LastGiven(lines, key, true, li.sku, key) && li.sku == key && LastGiven(lines, key, false, li.partnerSku, "")
  {
    SendIsReady(x);
    OneLinePerOrderedKey(x, key);
    var li := LineFor(MapsOf(x.payload.value.lines), key);
    NamesSent(x.payload.value.lines, key, li.sku, li.partnerSku);
  }

  function PiecesOf(li: Line): nat {
    if LineKey(li) != "" && li.quantity > 0 then li.quantity else 0
  }

  /** The order's own positive, keyed quantities. */
  function OrderedPieces(lines: seq<Line>): nat {
    if lines == [] then 0 else OrderedPieces(lines[..|lines| - 1]) + PiecesOf(lines[|lines| - 1])
  }

  lemma NoteExpectedConserves(e: Items, li: Line)
    ensures Sum(NoteExpected(e, li)) == Sum(e) + PiecesOf(li)
  {
    SumPut(e, LineKey(li), Get(e, LineKey(li)) + PiecesOf(li));
  }

  /** Grouping the order lines by key neither loses nor invents pieces. */
  lemma {:induction false} ExpectedConserves(lines: seq<Line>)
    ensures Sum(Expected(lines)) == OrderedPieces(lines)
  {
    if lines != [] {
      ExpectedConserves(lines[..|lines| - 1]);
      NoteExpectedConserves(Expected(lines[..|lines| - 1]), lines[|lines| - 1]);
    }
  }

  /** A line's amount at the price its key is invoiced at. */
  function LineAmount(li: Line, prices: Prices): real {
    if PiecesOf(li) > 0 && LineKey(li) in prices then Times(li.quantity, prices[LineKey(li)]) else 0.0
  }

  function OrderAmount(lines: seq<Line>, prices: Prices): real {
    if lines == [] then 0.0 else OrderAmount(lines[..|lines| - 1], prices) + LineAmount(lines[|lines| - 1], prices)
  }

  /** A line's amount at its own price. */
  function OwnLineAmount(li: Line): real {
    if PiecesOf(li) > 0 && PickUnitPrice(li).Some? then Times(li.quantity, PickUnitPrice(li).value) else 0.0
  }

  function OwnAmount(lines: seq<Line>): real {
    if lines == [] then 0.0 else OwnAmount(lines[..|lines| - 1]) + OwnLineAmount(lines[|lines| - 1])
  }

  lemma AmountsPut(e: Items, prices: Prices, key: string, q: nat)
    requires e.Keys <= prices.Keys && key in prices
    ensures SumReal(Amounts(e[key := q], prices)) + Times(Get(e, key), prices[key]) == SumReal(Amounts(e, prices)) + Times(q, prices[key])
  {
    assert e[key := q].Keys == e.Keys + {key};
    assert Amounts(e[key := q], prices) == Amounts(e, prices)[key := Times(q, prices[key])];
    SumRealPut(Amounts(e, prices), key, Times(q, prices[key]));
    TimesAdd(0, 0, prices[key]);
  }

  lemma AddedAmount(e: Items, prices: Prices, key: string, more: nat)
    requires e.Keys <= prices.Keys && key in prices
    ensures SumReal(Amounts(e[key := Get(e, key) + more], prices)) == SumReal(Amounts(e, prices)) + Times(more, prices[key])
  {
    AmountsPut(e, prices, key, Get(e, key) + more);
    TimesAdd(Get(e, key), more, prices[key]);
  }

  lemma NoteExpectedAmount(e: Items, prices: Prices, li: Line)
    requires NoteExpected(e, li).Keys <= prices.Keys
    ensures e.Keys <= prices.Keys
    ensures SumReal(Amounts(NoteExpected(e, li), prices)) == SumReal(Amounts(e, prices)) + LineAmount(li, prices)
  {
    assert e.Keys <= NoteExpected(e, li).Keys;
    if PiecesOf(li) > 0 {
      var key := LineKey(li);
      assert key in NoteExpected(e, li).Keys;
      assert NoteExpected(e, li) == e[key := Get(e, key) + li.quantity];
      AddedAmount(e, prices, key, li.quantity);
    }
  }

  lemma TimesAdd(a: nat, b: nat, price: real)
    ensures Times(a + b, price) == Times(a, price) + Times(b, price)
    ensures Times(0, price) == 0.0 && Times(1, price) == price
  {
  }

  /** For any prices, the sum over keys is the sum over lines: no iteration order can change it. */
  lemma {:induction false} KeysTotalIsLinesTotal(lines: seq<Line>, prices: Prices)
    requires Expected(lines).Keys <= prices.Keys
    ensures SumReal(Amounts(Expected(lines), prices)) == OrderAmount(lines, prices)
  {
    if lines == [] {
      assert Amounts(map[], prices) == map[];
    } else {
      NoteExpectedAmount(Expected(lines[..|lines| - 1]), prices, lines[|lines| - 1]);
      KeysTotalIsLinesTotal(lines[..|lines| - 1], prices);
    }
  }

  /** The line is invoiced at its own price, or does not count. */
  predicate AtOwnPrice(li: Line, prices: Prices) {
    PiecesOf(li) > 0 ==> LineKey(li) in prices && PickUnitPrice(li) == Some(prices[LineKey(li)])
  }

  /** Every counting line's own price is the one its key is invoiced at. */
  predicate UniformPrices(lines: seq<Line>) {
    forall i :: 0 <= i < |lines| ==> AtOwnPrice(lines[i], PriceByKey(lines))
  }

  /** Lines that share a key share a price, if one of them has one. */
  predicate SharedPrices(lines: seq<Line>) {
    forall i, j :: 0 <= i < |lines| && 0 <= j < |lines| && LineKey(lines[i]) == LineKey(lines[j]) != "" && PickUnitPrice(lines[i]).Some? ==>
                     PickUnitPrice(lines[j]) == PickUnitPrice(lines[i])
  }

  /** The invoiced price of a key is the price of one of its lines. */
  lemma {:induction false} PriceIsOfALine(lines: seq<Line>, key: string) returns (i: nat)
    requires key in PriceByKey(lines)
    ensures i < |lines| && LineKey(lines[i]) == key != "" && PickUnitPrice(lines[i]) == Some(PriceByKey(lines)[key])
  {
    var n := |lines| - 1;
    if LineKey(lines[n]) == key != "" && PickUnitPrice(lines[n]).Some? {
      i := n;
    } else {
      i := PriceIsOfALine(lines[..n], key);
    }
  }

  lemma {:induction false} CountingLineIsOrdered(lines: seq<Line>, i: nat, key: string)
    requires i < |lines| && LineKey(lines[i]) == key && lines[i].quantity > 0
    ensures OrderedQty(lines, key) > 0
  {
    var n := |lines| - 1;
    if i < n {
      CountingLineIsOrdered(lines[..n], i, key);
    }
  }

  /** Shared prices are the invoiced ones, once every ordered key is priced. */
  lemma SharedIsUniform(lines: seq<Line>)
    requires SharedPrices(lines) && AllPriced(MapsOf(lines))
    ensures UniformPrices(lines)
  {
    forall j | 0 <= j < |lines| && PiecesOf(lines[j]) > 0 ensures AtOwnPrice(lines[j], PriceByKey(lines)) {
      var key := LineKey(lines[j]);
      CountingLineIsOrdered(lines, j, key);
      ExpectedIsOrdered(lines, key);
      assert key in Expected(lines).Keys;
      var i := PriceIsOfALine(lines, key);
      assert PickUnitPrice(lines[j]) == PickUnitPrice(lines[i]);
    }
  }

  lemma {:induction false} UniformAmount(lines: seq<Line>, prices: Prices)
    requires forall i :: 0 <= i < |lines| ==> AtOwnPrice(lines[i], prices)
    ensures OrderAmount(lines, prices) == OwnAmount(lines)
  {
    if lines != [] {
      UniformAmount(lines[..|lines| - 1], prices);
    }
  }

  /** The invoice total is within half a cent of the lines' total at the invoiced prices. */
  lemma TotalWithinHalfCent(x: InvoiceInput)
    requires InvoiceDecision(x).Send?
    ensures var lines := x.payload.value.lines;
            -0.005 < InvoiceDecision(x).invoice.total - OrderAmount(lines, PriceByKey(lines)) <= 0.005
    ensures WholeCents(InvoiceDecision(x).invoice.total)
  {
    SendIsReady(x);
    KeysTotalIsLinesTotal(x.payload.value.lines, PriceByKey(x.payload.value.lines));
  }

  /** When lines that share a key share a price, that is the sum over order lines of quantity times the line's own price. */
  lemma UniformTotal(x: InvoiceInput)
    requires InvoiceDecision(x).Send? && SharedPrices(x.payload.value.lines)
    ensures -0.005 < InvoiceDecision(x).invoice.total - OwnAmount(x.payload.value.lines) <= 0.005
  {
    SendIsReady(x);
    SharedIsUniform(x.payload.value.lines);
    TotalWithinHalfCent(x);
    UniformAmount(x.payload.value.lines, PriceByKey(x.payload.value.lines));
  }

  lemma AllPricedIff(lines: seq<Line>)
    ensures AllPriced(MapsOf(lines)) <==> forall key :: key != "" && OrderedQty(lines, key) > 0 ==> Priced(lines, key)
  {
    forall key | key != "" ensures key in Expected(lines) <==> OrderedQty(lines, key) > 0
      ensures key in PriceByKey(lines) <==> Priced(lines, key) {
      ExpectedIsOrdered(lines, key);
      PriceExistsIff(lines, key);
    }
    ExpectedIsOrdered(lines, "");
  }

  lemma SendIffBuilt(x: InvoiceInput)
    requires EarlySkip(x).None? && InvoiceGate(x.payload.value.lines, x.reverse, x.outbound.value)
    ensures InvoiceDecision(x).Send? <==> AllPriced(MapsOf(x.payload.value.lines)) && Expected(x.payload.value.lines) != map[]
  {
  }

  /** An order is invoiced if and only if all of this holds. */
  lemma InvoicedIff(x: InvoiceInput)
    ensures InvoiceDecision(x).Send? <==>
              && Trim(x.po) != "" && !(Trim(x.localInvoiceId) != "" && x.existsInDsco == Some(true))
              && !(x.multiBan && Mskus.IsMulti(x.mskus)) && x.payload.Some? && x.hasSid
              && x.outbound.Some? && x.outbound.value != []
              && (forall key :: key != "" ==> EnoughListed(x.payload.value.lines, x.reverse, x.outbound.value, key))
              && (exists key :: key != "" && OrderedQty(x.payload.value.lines, key) > 0)
              && forall key :: key != "" && OrderedQty(x.payload.value.lines, key) > 0 ==> Priced(x.payload.value.lines, key)
    ensures InvoiceDecision(x).Send? ==>
              InvoiceDecision(x).invoice.poNumber == Trim(x.po) && InvoiceDecision(x).invoice.invoiceId == Trim(x.po)
  {
    if EarlySkip(x).None? {
      var lines := x.payload.value.lines;
      InvoiceGateMeans(lines, x.reverse, x.outbound.value);
      AllPricedIff(lines);
      SomethingExpected(lines);
      if InvoiceGate(lines, x.reverse, x.outbound.value) {
        SendIffBuilt(x);
      }
    }
  }

  lemma {:induction false} SomethingExpected(lines: seq<Line>)
    ensures Expected(lines) != map[] <==> exists key :: key != "" && OrderedQty(lines, key) > 0
  {
    if Expected(lines) != map[] {
      var key :| key in Expected(lines);
      ExpectedIsOrdered(lines, key);
    }
    if key :| key != "" && OrderedQty(lines, key) > 0 {
      ExpectedIsOrdered(lines, key);
    }
  }

  /** Past the gate, and with something ordered, an invoice is built if and only if every ordered key has a price. */
  lemma SendIffEveryKeyPriced(x: InvoiceInput)
    requires EarlySkip(x).None? && InvoiceGate(x.payload.value.lines, x.reverse, x.outbound.value)
    requires OrderedPieces(x.payload.value.lines) > 0
    ensures InvoiceDecision(x).Send? <==>
              forall key :: key != "" && OrderedQty(x.payload.value.lines, key) > 0 ==> Priced(x.payload.value.lines, key)
  {
    ExpectedConserves(x.payload.value.lines);
    AllPricedIff(x.payload.value.lines);
    SendIffBuilt(x);
  }
}
