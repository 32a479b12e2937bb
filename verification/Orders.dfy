/** DSCO order lines, LingXing outbound orders, and the key under which the two are matched. */
module Orders {
  import opened Text

  /** Go's int. */
  type Int = n: int | -0x8000_0000_0000_0000 <= n < 0x8000_0000_0000_0000

  datatype Line = Line(
    sku: Option<string>,
    partnerSku: Option<string>,
    quantity: Int,
    consumerPriceWithTax: Option<real>,
    consumerPrice: Option<real>,
    retailPrice: Option<real>,
    expectedCost: Option<real>)

  datatype Order = Order(poNumber: string, lines: seq<Line>)

  datatype Product = Product(sku: string, count: Int)

  /** A LingXing outbound (WMS) order. */
  datatype Outbound = Outbound(trackingNo: string, products: seq<Product>)

  function LineSku(li: Line): string { TrimOpt(li.sku) }

  function LinePartner(li: Line): string { TrimOpt(li.partnerSku) }

  /** dscoLineKey: the SKU, or the partner SKU when there is none. */
  function LineKey(li: Line): (key: string)
    ensures Trimmed(key)
  {
    if LineSku(li) != "" then LineSku(li) else LinePartner(li)
  }

  /** The line names x, by SKU or by partner SKU. */
  predicate Mentions(li: Line, x: string) {
    x != "" && LineKey(li) != "" && (x == LineSku(li) || x == LinePartner(li))
  }

  // ---------------------------------------------------------------- the per-order maps, as left folds over the lines

  function NoteAlias(m: map<string, string>, li: Line): map<string, string> {
    var key := LineKey(li);
    if key == "" then m
    else
      var m1 := if LineSku(li) != "" then m[LineSku(li) := key] else m;
      var m2 := if LinePartner(li) != "" then m1[LinePartner(li) := key] else m1;
      m2[key := key]
  }

  function NoteName(m: map<string, string>, key: string, name: string): map<string, string> {
    if key != "" && name != "" then m[key := name] else m
  }

  function NoteExpected(m: map<string, nat>, li: Line): map<string, nat> {
    var key := LineKey(li);
    if key == "" || li.quantity <= 0 then m
    else m[key := (if key in m then m[key] else 0) + li.quantity]
  }

  function AliasMap(lines: seq<Line>): map<string, string> {
    if lines == [] then map[] else NoteAlias(AliasMap(lines[..|lines| - 1]), lines[|lines| - 1])
  }

  function SkuByKey(lines: seq<Line>): map<string, string> {
    if lines == [] then map[]
    else var li := lines[|lines| - 1]; NoteName(SkuByKey(lines[..|lines| - 1]), LineKey(li), LineSku(li))
  }

  function PartnerByKey(lines: seq<Line>): map<string, string> {
    if lines == [] then map[]
    else var li := lines[|lines| - 1]; NoteName(PartnerByKey(lines[..|lines| - 1]), LineKey(li), LinePartner(li))
  }

  function Expected(lines: seq<Line>): map<string, nat> {
    if lines == [] then map[] else NoteExpected(Expected(lines[..|lines| - 1]), lines[|lines| - 1])
  }

  method BuildNames(lines: seq<Line>) returns (alias: map<string, string>, sku: map<string, string>, partner: map<string, string>)
    ensures alias == AliasMap(lines) && sku == SkuByKey(lines) && partner == PartnerByKey(lines)
  {
    alias, sku, partner := map[], map[], map[];
    for i := 0 to |lines|
      invariant alias == AliasMap(lines[..i])
      invariant sku == SkuByKey(lines[..i]) && partner == PartnerByKey(lines[..i])
    {
      var li := lines[i];
      var key := LineKey(li);
      ghost var a0, s0, p0 := alias, sku, partner;
      if key != "" {
        if LineSku(li) != "" {
          sku := sku[key := LineSku(li)];
          alias := alias[LineSku(li) := key];
        }
        if LinePartner(li) != "" {
          partner := partner[key := LinePartner(li)];
          alias := alias[LinePartner(li) := key];
        }
        alias := alias[key := key];
      }
      assert alias == NoteAlias(a0, li);
      assert sku == NoteName(s0, key, LineSku(li)) && partner == NoteName(p0, key, LinePartner(li));
      assert lines[..i + 1][..i] == lines[..i];
    }
    assert lines[..|lines|] == lines;
  }

  method BuildExpected(lines: seq<Line>) returns (expected: map<string, nat>)
    ensures expected == Expected(lines)
  {
    expected := map[];
    for i := 0 to |lines|
      invariant expected == Expected(lines[..i])
    {
      ghost var e0 := expected;
      var li := lines[i];
      var key := LineKey(li);
      if key != "" && li.quantity > 0 {
        var sofar: nat := if key in expected then expected[key] else 0;
        expected := expected[key := sofar + li.quantity];
      }
      ExpectedStep(lines, i, e0, expected);
    }
    assert lines[..|lines|] == lines;
  }

  lemma ExpectedStep(lines: seq<Line>, i: nat, before: map<string, nat>, after: map<string, nat>)
    requires i < |lines| && before == Expected(lines[..i]) && after == NoteExpected(before, lines[i])
    ensures after == Expected(lines[..i + 1])
  {
    assert lines[..i + 1][..i] == lines[..i];
  }

  // ---------------------------------------------------------------- what the folds mean

  function OrderedQty(lines: seq<Line>, key: string): nat {
    if lines == [] then 0
    else
      var li := lines[|lines| - 1];
      OrderedQty(lines[..|lines| - 1], key) + if LineKey(li) == key && li.quantity > 0 then li.quantity else 0
  }

  /** The expected quantities are the ordered ones, summed per key; only positive keys appear. */
  lemma {:induction false} ExpectedIsOrdered(lines: seq<Line>, key: string)
    ensures key in Expected(lines) <==> key != "" && OrderedQty(lines, key) > 0
    ensures key in Expected(lines) ==> Expected(lines)[key] == OrderedQty(lines, key)
  {
    if lines != [] {
      ExpectedIsOrdered(lines[..|lines| - 1], key);
    }
  }

  /** The last line that mentions x, or -1. */
  function LastMention(lines: seq<Line>, x: string): (i: int)
    ensures -1 <= i < |lines|
    ensures i >= 0 ==> Mentions(lines[i], x)
    ensures forall j :: i < j < |lines| ==> !Mentions(lines[j], x)
  {
    if lines == [] then -1
    else if Mentions(lines[|lines| - 1], x) then |lines| - 1
    else
      var before := lines[..|lines| - 1];
      assert forall j :: 0 <= j < |before| ==> before[j] == lines[j];
      LastMention(before, x)
  }

  lemma NoteAliasAt(m: map<string, string>, li: Line, x: string)
    ensures x in NoteAlias(m, li) <==> Mentions(li, x) || x in m
    ensures x in NoteAlias(m, li) ==> NoteAlias(m, li)[x] == if Mentions(li, x) then LineKey(li) else m[x]
  {
  }

  /**
   An alias resolves to the key of the last line that mentions it, so a later line whose
   partner SKU equals an earlier line's SKU takes that SKU over.
   */
  lemma {:induction false} AliasIsLastMention(lines: seq<Line>, x: string)
    ensures x in AliasMap(lines) <==> LastMention(lines, x) >= 0
    ensures x in AliasMap(lines) ==> AliasMap(lines)[x] == LineKey(lines[LastMention(lines, x)])
  {
    if lines != [] {
      var before, li := lines[..|lines| - 1], lines[|lines| - 1];
      AliasIsLastMention(before, x);
      NoteAliasAt(AliasMap(before), li, x);
      if !Mentions(li, x) && LastMention(before, x) >= 0 {
        assert before[LastMention(before, x)] == lines[LastMention(before, x)];
      }
    }
  }

  lemma LastMentionFrom(lines: seq<Line>, x: string, i: nat)
    requires i < |lines| && Mentions(lines[i], x)
    ensures LastMention(lines, x) >= i
    ensures LastMention(lines, x) == i <==> forall j :: i < j < |lines| ==> !Mentions(lines[j], x)
  {
    var last := LastMention(lines, x);
    if last > i {
      assert Mentions(lines[last], x);
    }
  }

  /** A key still answers for itself if and only if no later line with another key mentions it. */
  lemma KeyKeepsItselfIff(lines: seq<Line>, i: nat)
    requires i < |lines| && LineKey(lines[i]) != ""
    requires forall j :: i < j < |lines| ==> LineKey(lines[j]) != LineKey(lines[i])
    ensures var key := LineKey(lines[i]);
            key in AliasMap(lines)
            && (AliasMap(lines)[key] == key <==> forall j :: i < j < |lines| ==> !Mentions(lines[j], key))
  {
    var key := LineKey(lines[i]);
    assert Mentions(lines[i], key);
    AliasIsLastMention(lines, key);
    LastMentionFrom(lines, key, i);
    var last := LastMention(lines, key);
    assert last > i ==> LineKey(lines[last]) != key;
  }

  // ---------------------------------------------------------------- resolving a LingXing SKU to a DSCO key

  /** The reverse SKU map and the order's alias map. */
  datatype Names = Names(reverse: map<string, string>, alias: map<string, string>)

  predicate GoodNames(names: Names) {
    forall x :: x in names.alias ==> names.alias[x] != "" && Trimmed(names.alias[x])
  }

  predicate Counts(p: Product) {
    Trim(p.sku) != "" && p.count > 0
  }

  function Resolve(names: Names, p: Product): (key: string)
    requires Counts(p)
    ensures GoodNames(names) ==> key != "" && Trimmed(key)
  {
    var direct := Trim(Lookup(names.reverse, Trim(p.sku)));
    var dsco := if direct == "" then Trim(p.sku) else direct;
    if dsco in names.alias && names.alias[dsco] != "" then names.alias[dsco] else dsco
  }

  lemma {:induction false} AliasesAreGood(lines: seq<Line>, reverse: map<string, string>)
    ensures GoodNames(Names(reverse, AliasMap(lines)))
  {
    forall x | x in AliasMap(lines) ensures AliasMap(lines)[x] != "" && Trimmed(AliasMap(lines)[x]) {
      AliasIsLastMention(lines, x);
    }
  }

  function ProductQty(names: Names, p: Product, key: string): nat {
    if Counts(p) && Resolve(names, p) == key then p.count else 0
  }

  // ---------------------------------------------------------------- the same on the fields as they come

  /** A pointer field of an order line, absent or blank for "". */
  predicate FieldIs(field: Option<string>, x: string) {
    if field.Some? && Trim(field.value) != "" then x == Trim(field.value) else x == ""
  }

  /** The line is filed under its SKU, or without one under its partner SKU. */
  predicate FiledUnder(li: Line, key: string) {
    if FieldIs(li.sku, "") then FieldIs(li.partnerSku, key) else FieldIs(li.sku, key)
  }

  /** The line has x as its SKU or as its partner SKU. */
  predicate Has(li: Line, x: string) {
    x != "" && (FieldIs(li.sku, x) || FieldIs(li.partnerSku, x))
  }

  /** No line from position i on has x. */
  predicate NoneHas(lines: seq<Line>, i: int, x: string) {
    forall j :: i <= j < |lines| && 0 <= j ==> !Has(lines[j], x)
  }

  /** What DSCO calls a LingXing product: the reverse map's entry unless that is absent or blank, else the product's own SKU. */
  predicate CalledInDsco(reverse: map<string, string>, sku: string, x: string) {
    if Trim(sku) in reverse && Trim(reverse[Trim(sku)]) != "" then x == Trim(reverse[Trim(sku)]) else x == Trim(sku)
  }

  /** The key a product counts under: that of the last line that has its DSCO name, or the name itself when no line has it. */
  ghost predicate GoesUnder(lines: seq<Line>, reverse: map<string, string>, p: Product, key: string) {
    exists x :: CalledInDsco(reverse, p.sku, x)
                && ((NoneHas(lines, 0, x) && key == x)
                    || exists i :: 0 <= i < |lines| && Has(lines[i], x) && NoneHas(lines, i + 1, x) && FiledUnder(lines[i], key))
  }

  lemma KeyIsFiledUnder(li: Line, key: string)
    ensures LineKey(li) == key <==> FiledUnder(li, key)
  {
  }

  lemma MentionsIsHas(li: Line, x: string)
    ensures Mentions(li, x) <==> Has(li, x)
  {
  }

  lemma {:induction false} ResolvesTo(lines: seq<Line>, reverse: map<string, string>, p: Product, x: string)
    requires Counts(p) && CalledInDsco(reverse, p.sku, x)
    ensures x != "" && Resolve(Names(reverse, AliasMap(lines)), p) ==
            if LastMention(lines, x) < 0 then x else LineKey(lines[LastMention(lines, x)])
  {
    AliasIsLastMention(lines, x);
  }

  lemma {:induction false} LastHas(lines: seq<Line>, x: string, i: nat)
    requires i < |lines| && Has(lines[i], x) && NoneHas(lines, i + 1, x)
    ensures LastMention(lines, x) == i
  {
    forall j | 0 <= j < |lines| ensures Mentions(lines[j], x) <==> Has(lines[j], x) {
      MentionsIsHas(lines[j], x);
    }
  }

  lemma {:induction false} NothingHas(lines: seq<Line>, x: string)
    ensures LastMention(lines, x) < 0 <==> NoneHas(lines, 0, x)
  {
    forall j | 0 <= j < |lines| ensures Mentions(lines[j], x) <==> Has(lines[j], x) {
      MentionsIsHas(lines[j], x);
    }
  }

  lemma {:induction false} FilesLast(lines: seq<Line>, x: string, key: string)
    requires LastMention(lines, x) >= 0 && LineKey(lines[LastMention(lines, x)]) == key
    ensures exists i :: 0 <= i < |lines| && Has(lines[i], x) && NoneHas(lines, i + 1, x) && FiledUnder(lines[i], key)
  {
    var i := LastMention(lines, x);
    forall j | 0 <= j < |lines| ensures Mentions(lines[j], x) <==> Has(lines[j], x) {
      MentionsIsHas(lines[j], x);
    }
    KeyIsFiledUnder(lines[i], key);
    assert Has(lines[i], x) && NoneHas(lines, i + 1, x) && FiledUnder(lines[i], key);
  }

  lemma {:induction false} OrderedAdds(lines: seq<Line>, li: Line, key: string)
    ensures OrderedQty(lines + [li], key) == OrderedQty(lines, key) + if FiledUnder(li, key) && li.quantity > 0 then li.quantity else 0
    ensures OrderedQty([], key) == 0
  {
    assert (lines + [li])[..|lines|] == lines;
    KeyIsFiledUnder(li, key);
  }

  // ---------------------------------------------------------------- the names sent for a key

  function FieldOf(li: Line, bySku: bool): Option<string> {
    if bySku then li.sku else li.partnerSku
  }

  /** The line is filed under the key and has this field. */
  predicate Gives(li: Line, key: string, bySku: bool) {
    FiledUnder(li, key) && !FieldIs(FieldOf(li, bySku), "")
  }

  predicate NoneGives(lines: seq<Line>, i: int, key: string, bySku: bool) {
    forall j :: i <= j < |lines| && 0 <= j ==> !Gives(lines[j], key, bySku)
  }

  /** x is the field of the last line filed under the key that has it, or `otherwise` when none has. */
  predicate LastGiven(lines: seq<Line>, key: string, bySku: bool, x: string, otherwise: string) {
    || (NoneGives(lines, 0, key, bySku) && x == otherwise)
    || exists i :: 0 <= i < |lines| && Gives(lines[i], key, bySku) && NoneGives(lines, i + 1, key, bySku)
                   && FieldIs(FieldOf(lines[i], bySku), x)
  }

  lemma {:induction false} LastGivenSnoc(lines: seq<Line>, li: Line, key: string, bySku: bool, x: string, otherwise: string)
    requires if Gives(li, key, bySku) then FieldIs(FieldOf(li, bySku), x) else LastGiven(lines, key, bySku, x, otherwise)
    ensures LastGiven(lines + [li], key, bySku, x, otherwise)
  {
    var all := lines + [li];
    if Gives(li, key, bySku) {
      assert all[|lines|] == li && NoneGives(all, |lines| + 1, key, bySku);
    } else if NoneGives(lines, 0, key, bySku) {
      NoneGivesSnoc(lines, li, 0, key, bySku);
    } else {
      var i :| 0 <= i < |lines| && Gives(lines[i], key, bySku) && NoneGives(lines, i + 1, key, bySku)
               && FieldIs(FieldOf(lines[i], bySku), x);
      NoneGivesSnoc(lines, li, i + 1, key, bySku);
      assert all[i] == lines[i];
    }
  }

  lemma {:induction false} NoneGivesSnoc(lines: seq<Line>, li: Line, i: nat, key: string, bySku: bool)
    requires NoneGives(lines, i, key, bySku) && !Gives(li, key, bySku)
    ensures NoneGives(lines + [li], i, key, bySku)
  {
  }

  lemma {:induction false} NoteNameAt(m: map<string, string>, li: Line, key: string, bySku: bool)
    requires key != ""
    ensures var name := if bySku then LineSku(li) else LinePartner(li);
            var q := Lookup(NoteName(m, LineKey(li), name), key);
            if Gives(li, key, bySku) then FieldIs(FieldOf(li, bySku), q) else q == Lookup(m, key)
  {
    KeyIsFiledUnder(li, key);
  }

  lemma {:induction false} NamesAreLast(lines: seq<Line>, key: string)
    requires key != ""
    ensures LastGiven(lines, key, true, Lookup(SkuByKey(lines), key), "")
    ensures LastGiven(lines, key, false, Lookup(PartnerByKey(lines), key), "")
  {
    if lines != [] {
      var before, li := lines[..|lines| - 1], lines[|lines| - 1];
      assert lines == before + [li];
      NamesAreLast(before, key);
      NoteNameAt(SkuByKey(before), li, key, true);
      NoteNameAt(PartnerByKey(before), li, key, false);
      LastGivenSnoc(before, li, key, true, Lookup(SkuByKey(lines), key), "");
      LastGivenSnoc(before, li, key, false, Lookup(PartnerByKey(lines), key), "");
    }
  }

  /** What is sent as SKU and partner SKU for a key; the SKU sent always comes out as the key itself. */
  lemma {:induction false} NamesSent(lines: seq<Line>, key: string, sku: string, partnerSku: string)
    requires key != "" && partnerSku == Trim(Lookup(PartnerByKey(lines), key))
    requires var given := Trim(Lookup(SkuByKey(lines), key)); sku == if given != "" then given else key
    ensures LastGiven(lines, key, true, sku, key) && sku == key
    ensures LastGiven(lines, key, false, partnerSku, "")
  {
    NamesAreLast(lines, key);
  }

  /** A product with a SKU and a positive count is counted once, under the key it goes under; any other is not counted. */
  lemma {:induction false} ProductCountsUnder(lines: seq<Line>, reverse: map<string, string>, p: Product, key: string)
    ensures ProductQty(Names(reverse, AliasMap(lines)), p, key) ==
            if Trim(p.sku) != "" && p.count > 0 && GoesUnder(lines, reverse, p, key) then p.count else 0
  {
    if Counts(p) {
      var x := if Trim(Lookup(reverse, Trim(p.sku))) != "" then Trim(Lookup(reverse, Trim(p.sku))) else Trim(p.sku);
      assert CalledInDsco(reverse, p.sku, x);
      ResolvesTo(lines, reverse, p, x);
      NothingHas(lines, x);
      if LastMention(lines, x) >= 0 {
        GoesUnderLast(lines, reverse, p, x, key);
      }
    }
  }

  lemma {:induction false} GoesUnderLast(lines: seq<Line>, reverse: map<string, string>, p: Product, x: string, key: string)
    requires CalledInDsco(reverse, p.sku, x) && LastMention(lines, x) >= 0
    ensures GoesUnder(lines, reverse, p, key) <==> LineKey(lines[LastMention(lines, x)]) == key
  {
    NothingHas(lines, x);
    if LineKey(lines[LastMention(lines, x)]) == key {
      FilesLast(lines, x, key);
    }
    if GoesUnder(lines, reverse, p, key) {
      var i :| 0 <= i < |lines| && Has(lines[i], x) && NoneHas(lines, i + 1, x) && FiledUnder(lines[i], key);
      LastHas(lines, x, i);
      KeyIsFiledUnder(lines[i], key);
    }
  }

  function ProductsQty(names: Names, ps: seq<Product>, key: string): nat {
    if ps == [] then 0
    else ProductsQty(names, ps[..|ps| - 1], key) + ProductQty(names, ps[|ps| - 1], key)
  }

  /** Everything shipped under key, tracked or not. */
  function AllQty(names: Names, ws: seq<Outbound>, key: string): nat {
    if ws == [] then 0
    else AllQty(names, ws[..|ws| - 1], key) + ProductsQty(names, ws[|ws| - 1].products, key)
  }

  /** What is shipped under key on outbound orders that carry a tracking number. */
  function TrackedQty(names: Names, ws: seq<Outbound>, key: string): nat {
    if ws == [] then 0
    else TrackedQty(names, ws[..|ws| - 1], key) + TrackedOf(names, ws[|ws| - 1], key)
  }

  function TrackedOf(names: Names, w: Outbound, key: string): nat {
    if Trim(w.trackingNo) == "" then 0 else ProductsQty(names, w.products, key)
  }

  /** What is shipped under key with one tracking number. */
  function UnderQty(names: Names, ws: seq<Outbound>, tracking: string, key: string): nat {
    if ws == [] then 0
    else
      var w := ws[|ws| - 1];
      UnderQty(names, ws[..|ws| - 1], tracking, key) + if Trim(w.trackingNo) == tracking then ProductsQty(names, w.products, key) else 0
  }

  lemma {:induction false} TrackedAtMostAll(names: Names, ws: seq<Outbound>, key: string)
    ensures TrackedQty(names, ws, key) <= AllQty(names, ws, key)
  {
    if ws != [] {
      TrackedAtMostAll(names, ws[..|ws| - 1], key);
    }
  }

  lemma {:induction false} TrackedConcat(names: Names, a: seq<Outbound>, b: seq<Outbound>, key: string)
    ensures TrackedQty(names, a + b, key) == TrackedQty(names, a, key) + TrackedQty(names, b, key)
  {
    if b == [] {
      assert a + b == a;
    } else {
      var front, w := b[..|b| - 1], b[|b| - 1];
      TrackedConcat(names, a, front, key);
      assert b == front + [w];
      Regroup(a, front, [w]);
      TrackedSnoc(names, a + front, w, key);
      TrackedSnoc(names, front, w, key);
    }
  }

  lemma Regroup(a: seq<Outbound>, b: seq<Outbound>, c: seq<Outbound>)
    ensures a + (b + c) == a + b + c
  {
  }

  lemma TrackedSnoc(names: Names, ws: seq<Outbound>, w: Outbound, key: string)
    ensures TrackedQty(names, ws + [w], key) == TrackedQty(names, ws, key) + TrackedOf(names, w, key)
  {
    assert (ws + [w])[..|ws|] == ws;
  }

  lemma TrackedWithout(names: Names, a: seq<Outbound>, w: Outbound, b: seq<Outbound>, key: string)
    ensures TrackedQty(names, a + [w] + b, key) == TrackedQty(names, a + b, key) + TrackedQty(names, [w], key)
  {
    TrackedConcat(names, a + [w], b, key);
    TrackedConcat(names, a, [w], key);
    TrackedConcat(names, a, b, key);
  }

  lemma SmallerRest(front: seq<Outbound>, w: Outbound, a: seq<Outbound>, b: seq<Outbound>)
    requires multiset(front + [w]) <= multiset(a + [w] + b)
    ensures multiset(front) <= multiset(a + b)
  {
    assert multiset(front + [w]) == multiset(front) + multiset{w};
    assert multiset(a + [w] + b) == multiset(a + b) + multiset{w};
    forall e ensures multiset(front)[e] <= multiset(a + b)[e] {
      assert multiset(front + [w])[e] <= multiset(a + [w] + b)[e];
    }
  }

  /** More outbound orders, in any order, never ship less. */
  lemma {:induction false} TrackedGrows(names: Names, ws: seq<Outbound>, more: seq<Outbound>, key: string)
    requires multiset(ws) <= multiset(more)
    ensures TrackedQty(names, ws, key) <= TrackedQty(names, more, key)
  {
    if ws != [] {
      var front, w := ws[..|ws| - 1], ws[|ws| - 1];
      assert ws == front + [w];
      assert w in multiset(ws);
      assert w in multiset(more);
      var i :| 0 <= i < |more| && more[i] == w;
      var a, b := more[..i], more[i + 1..];
      assert more == a + [w] + b;
      SmallerRest(front, w, a, b);
      TrackedGrows(names, front, a + b, key);
      TrackedWithout(names, a, w, b, key);
      TrackedConcat(names, front, [w], key);
    }
  }

  // ---------------------------------------------------------------- the two full-shipment gates

  /** The shipment gate: only outbound orders with a tracking number count. */
  predicate ShipGate(lines: seq<Line>, reverse: map<string, string>, ws: seq<Outbound>) {
    var names := Names(reverse, AliasMap(lines));
    forall key :: key in Expected(lines) ==> TrackedQty(names, ws, key) >= Expected(lines)[key]
  }

  /** The invoice gate: all outbound orders count. */
  predicate InvoiceGate(lines: seq<Line>, reverse: map<string, string>, ws: seq<Outbound>) {
    var names := Names(reverse, AliasMap(lines));
    forall key :: key in Expected(lines) ==> AllQty(names, ws, key) >= Expected(lines)[key]
  }

  predicate EnoughTracked(lines: seq<Line>, reverse: map<string, string>, ws: seq<Outbound>, key: string) {
    OrderedQty(lines, key) <= TrackedQty(Names(reverse, AliasMap(lines)), ws, key)
  }

  predicate EnoughListed(lines: seq<Line>, reverse: map<string, string>, ws: seq<Outbound>, key: string) {
    OrderedQty(lines, key) <= AllQty(Names(reverse, AliasMap(lines)), ws, key)
  }

  /** An order passes the shipment gate when of every key at least as many pieces are tracked as were ordered. */
  lemma {:induction false} ShipGateMeans(lines: seq<Line>, reverse: map<string, string>, ws: seq<Outbound>)
    ensures ShipGate(lines, reverse, ws) <==> forall key :: key != "" ==> EnoughTracked(lines, reverse, ws, key)
  {
    var names := Names(reverse, AliasMap(lines));
    if ShipGate(lines, reverse, ws) {
      forall key | key != "" ensures EnoughTracked(lines, reverse, ws, key) {
        ExpectedIsOrdered(lines, key);
      }
    }
    if forall key :: key != "" ==> EnoughTracked(lines, reverse, ws, key) {
      forall key | key in Expected(lines) ensures TrackedQty(names, ws, key) >= Expected(lines)[key] {
        ExpectedIsOrdered(lines, key);
        assert EnoughTracked(lines, reverse, ws, key);
      }
    }
  }

  /** And the invoice gate when that many are listed, tracked or not. */
  lemma {:induction false} InvoiceGateMeans(lines: seq<Line>, reverse: map<string, string>, ws: seq<Outbound>)
    ensures InvoiceGate(lines, reverse, ws) <==> forall key :: key != "" ==> EnoughListed(lines, reverse, ws, key)
  {
    var names := Names(reverse, AliasMap(lines));
    if InvoiceGate(lines, reverse, ws) {
      forall key | key != "" ensures EnoughListed(lines, reverse, ws, key) {
        ExpectedIsOrdered(lines, key);
      }
    }
    if forall key :: key != "" ==> EnoughListed(lines, reverse, ws, key) {
      forall key | key in Expected(lines) ensures AllQty(names, ws, key) >= Expected(lines)[key] {
        ExpectedIsOrdered(lines, key);
        assert EnoughListed(lines, reverse, ws, key);
      }
    }
  }

  lemma ShipGateGrows(lines: seq<Line>, reverse: map<string, string>, ws: seq<Outbound>, more: seq<Outbound>)
    requires ShipGate(lines, reverse, ws) && multiset(ws) <= multiset(more)
    ensures ShipGate(lines, reverse, more)
  {
    var names := Names(reverse, AliasMap(lines));
    forall key | key in Expected(lines) ensures TrackedQty(names, more, key) >= Expected(lines)[key] {
      TrackedGrows(names, ws, more, key);
    }
  }

  /** An order that passed the shipment gate passes the invoice gate on the same or a larger list. */
  lemma ShipGateImpliesInvoiceGate(lines: seq<Line>, reverse: map<string, string>, ws: seq<Outbound>, more: seq<Outbound>)
    requires ShipGate(lines, reverse, ws) && multiset(ws) <= multiset(more)
    ensures InvoiceGate(lines, reverse, more)
  {
    ShipGateGrows(lines, reverse, ws, more);
    var names := Names(reverse, AliasMap(lines));
    forall key | key in Expected(lines) ensures AllQty(names, more, key) >= Expected(lines)[key] {
      TrackedAtMostAll(names, more, key);
    }
  }

  /** The gates differ only by untracked outbound orders: with none, they agree. */
  lemma {:induction false} GatesAgreeWhenTracked(lines: seq<Line>, reverse: map<string, string>, ws: seq<Outbound>)
    requires forall i :: 0 <= i < |ws| ==> Trim(ws[i].trackingNo) != ""
    ensures ShipGate(lines, reverse, ws) <==> InvoiceGate(lines, reverse, ws)
  {
    var names := Names(reverse, AliasMap(lines));
    forall key ensures TrackedQty(names, ws, key) == AllQty(names, ws, key) {
      AllTracked(names, ws, key);
    }
  }

  lemma {:induction false} AllTracked(names: Names, ws: seq<Outbound>, key: string)
    requires forall i :: 0 <= i < |ws| ==> Trim(ws[i].trackingNo) != ""
    ensures TrackedQty(names, ws, key) == AllQty(names, ws, key)
  {
    if ws != [] {
      AllTracked(names, ws[..|ws| - 1], key);
    }
  }
}
