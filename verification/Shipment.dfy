/**
 Building the shipment of one order: the incremental split, the package-span flag, the
 decision with all its skips, and what is recorded locally.
 */
module Shipment {
  import opened Text
  import opened Orders
  import opened Sums
  import opened Tracking
  import opened Aggregation
  import Mskus

  // ---------------------------------------------------------------- the decision for one order

  datatype DscoOrder = DscoOrder(status: string, packages: seq<string>)

  datatype ShipInput = ShipInput(
    po: string,
    localTracking: string,
    mskus: seq<string>,
    multiBan: bool,
    dsco: Option<DscoOrder>,
    payload: Option<Order>,
    hasSid: bool,
    outbound: Option<seq<Outbound>>,
    reverse: map<string, string>)

  datatype Reason =
    | PoNumberEmpty | DscoStatusNotAllowed | MultiBanned | DecodeFailed | MissingSid | OutboundNotFound
    | NoTracking | NotFullyShipped | NoTrackingSent | NoLineItems

  datatype ShipLine = ShipLine(quantity: nat, sku: string, partnerSku: string, packageSpan: bool)

  type Shipments = map<string, map<string, ShipLine>>

  /** `record` is the set of tracking numbers handed to joinTrackingSet for the local row. */
  datatype Decision = Skip(reason: Reason) | Advance | Send(shipments: Shipments, record: set<string>)

  predicate StatusAllowed(o: DscoOrder) {
    var st := Trim(o.status);
    st == "shipped" || st == "completed" || st == "shipment_pending"
  }

  function NonBlank(values: seq<string>): seq<string> {
    if values == [] then []
    else NonBlank(values[..|values| - 1]) + if Trim(values[|values| - 1]) == "" then [] else [Trim(values[|values| - 1])]
  }

  /** The tracking numbers DSCO has recorded in its packages. */
  function DscoTrackings(o: DscoOrder): set<string> {
    set t | t in AllTokens(NonBlank(o.packages))
  }

  /** What the row shows as already sent: the local field and DSCO's packages together. */
  function ExistingTrackings(x: ShipInput): set<string> {
    TokenSet(x.localTracking) + if x.dsco.Some? then DscoTrackings(x.dsco.value) else {}
  }

  /** The set that decides what is not sent again: DSCO's if its order was fetched, else the local one. */
  function AlreadySent(x: ShipInput): set<string> {
    if x.dsco.Some? then DscoTrackings(x.dsco.value) else TokenSet(x.localTracking)
  }

  function NamesOf(x: ShipInput): Names
    requires x.payload.Some?
  {
    Names(x.reverse, AliasMap(x.payload.value.lines))
  }

  /** The tracking groups that mention a key. */
  function Holders(agg: Agg, key: string): set<string> {
    set t | t in agg && key in agg[t]
  }

  function ToSend(agg: Agg, already: set<string>): set<string> {
    agg.Keys - already
  }

  function LineFor(agg: Agg, lines: seq<Line>, tracking: string, key: string): ShipLine
    requires tracking in agg && key in agg[tracking]
  {
    var sku := Trim(Lookup(SkuByKey(lines), key));
    ShipLine(agg[tracking][key], if sku != "" then sku else key, Trim(Lookup(PartnerByKey(lines), key)), |Holders(agg, key)| > 1)
  }

  function LinesFor(agg: Agg, lines: seq<Line>, tracking: string): map<string, ShipLine>
    requires tracking in agg
  {
    map k | k in agg[tracking] :: LineFor(agg, lines, tracking, k)
  }

  /** A group with no usable item is left out of the request. */
  function ShipmentsFor(agg: Agg, lines: seq<Line>, already: set<string>): Shipments {
    map t | t in ToSend(agg, already) && agg[t] != map[] :: LinesFor(agg, lines, t)
  }

  /** The checks made before the outbound orders are looked at. */
  function EarlySkip(x: ShipInput): Option<Reason> {
    if Trim(x.po) == "" then Some(PoNumberEmpty)
    else if x.dsco.Some? && !StatusAllowed(x.dsco.value) then Some(DscoStatusNotAllowed)
    else if x.multiBan && Mskus.IsMulti(x.mskus) then Some(MultiBanned)
    else if x.payload.None? then Some(DecodeFailed)
    else if !x.hasSid then Some(MissingSid)
    else if x.outbound.None? || x.outbound.value == [] then Some(OutboundNotFound)
    else None
  }

  /** The split of the groups into recorded and new, once the order is fully shipped. */
  function Split(agg: Agg, lines: seq<Line>, already: set<string>, existing: set<string>): Decision {
    if ToSend(agg, already) == {} then
      if existing == {} then Skip(NoTrackingSent) else Advance
    else if ShipmentsFor(agg, lines, already) == map[] then Skip(NoLineItems)
    else Send(ShipmentsFor(agg, lines, already), existing + ToSend(agg, already))
  }

  function GroupsOf(x: ShipInput): Agg
    requires x.payload.Some? && x.outbound.Some?
  {
    Aggregate(NamesOf(x), x.outbound.value)
  }

  function ShipDecision(x: ShipInput): Decision {
    if EarlySkip(x).Some? then Skip(EarlySkip(x).value)
    else if GroupsOf(x) == map[] then Skip(NoTracking)
    else if !ShipGate(x.payload.value.lines, x.reverse, x.outbound.value) then Skip(NotFullyShipped)
    else Split(GroupsOf(x), x.payload.value.lines, AlreadySent(x), ExistingTrackings(x))
  }

  // ---------------------------------------------------------------- the loops of the task body

  /** The local field and the DSCO packages, as strings and as sets. */
  method ReadTrackings(local: string, dsco: Option<DscoOrder>)
    returns (existingTracking: string, existing: set<string>, inDsco: set<string>)
    ensures inDsco == if dsco.Some? then DscoTrackings(dsco.value) else {}
    ensures existing == TokenSet(local) + inDsco
    ensures existingTracking == "" <==> existing == {}
  {
    ghost var parts;
    existingTracking, parts := NormalizeTrackingJoined([local]);
    OneValue(local);
    JoinedTokens([local], parts);
    existing := ParseTrackingSet(existingTracking);
    inDsco := {};
    assert existing == TokenSet(local);
    assert Tokens(local) != [] ==> Tokens(local)[0] in existing;
    if dsco.Some? {
      var fromDsco;
      fromDsco, inDsco := ReadPackages(dsco.value);
      if fromDsco != "" {
        existing := existing + inDsco;
        existingTracking := JoinKnown(existing);
      }
    }
  }

  /** The tracking numbers of DSCO's packages, joined and as a set. */
  method ReadPackages(o: DscoOrder) returns (joined: string, inDsco: set<string>)
    ensures inDsco == DscoTrackings(o) && (joined == "" <==> inDsco == {})
  {
    var packages: seq<string> := [];
    for i := 0 to |o.packages|
      invariant packages == NonBlank(o.packages[..i])
    {
      assert o.packages[..i + 1][..i] == o.packages[..i];
      var s := Trim(o.packages[i]);
      if s != "" {
        packages := packages + [s];
      }
    }
    assert o.packages[..|o.packages|] == o.packages;
    ghost var parts;
    joined, parts := NormalizeTrackingJoined(packages);
    JoinedTokens(packages, parts);
    inDsco := ParseTrackingSet(joined);
    assert AllTokens(packages) != [] ==> AllTokens(packages)[0] in inDsco;
  }

  /** Joining separator-free numbers gives a blank field only for none. */
  method JoinKnown(tracks: set<string>) returns (joined: string)
    requires forall t :: t in tracks ==> Clean(t)
    ensures joined == "" <==> tracks == {}
  {
    FieldSetFaithfulIff(tracks);
    joined := JoinTrackingSet(tracks);
  }

  /** What a normalised join stands for. */
  lemma JoinedTokens(values: seq<string>, parts: seq<string>)
    requires IsUniqueNonEmpty(AllTokens(values), parts)
    ensures TokenSet(JoinComma(parts)) == set t | t in AllTokens(values)
    ensures JoinComma(parts) == "" <==> AllTokens(values) == []
  {
    PartsAreClean(values, parts);
    TokensJoined(parts);
    JoinedEmptyIff(parts);
    if AllTokens(values) != [] {
      assert AllTokens(values)[0] in parts;
    }
    if parts != [] {
      assert parts[0] in AllTokens(values);
    }
  }

  method SelectToSend(agg: Agg, already: set<string>) returns (sending: set<string>)
    ensures sending == ToSend(agg, already)
  {
    sending := {};
    var rest := agg.Keys;
    while rest != {}
      invariant rest <= agg.Keys
      invariant sending == ToSend(agg, already) - rest
      decreases |rest|
    {
      var t :| t in rest;
      if t !in already {
        sending := sending + {t};
      }
      rest := rest - {t};
    }
  }

  type Holding = map<string, set<string>>

  function HoldersAt(holders: Holding, key: string): set<string> {
    if key in holders then holders[key] else {}
  }

  /** The keys held by more than one tracking group, already recorded groups included. */
  method FindSpans(agg: Agg) returns (spans: set<string>)
    requires GoodAgg(agg)
    ensures forall k :: k in spans <==> |Holders(agg, k)| > 1
  {
    var holders: Holding := map[];
    var rest := agg.Keys;
    forall k ensures HoldersAt(holders, k) == Holders(agg, k) - rest {
      assert Holders(agg, k) <= agg.Keys;
    }
    while rest != {}
      invariant rest <= agg.Keys
      invariant forall k :: HoldersAt(holders, k) == Holders(agg, k) - rest
      decreases |rest|
    {
      var t :| t in rest;
      ghost var before := holders;
      holders := AddHolder(holders, agg[t].Keys, t);
      forall k ensures HoldersAt(holders, k) == Holders(agg, k) - (rest - {t}) {
        OneMoreHolder(agg, k, rest, t);
        assert HoldersAt(before, k) == Holders(agg, k) - rest;
      }
      rest := rest - {t};
    }
    spans := set k | k in holders && |holders[k]| > 1;
    forall k ensures k in spans <==> |Holders(agg, k)| > 1 {
      assert HoldersAt(holders, k) == Holders(agg, k) - {};
      assert Holders(agg, k) - {} == Holders(agg, k);
    }
  }

  lemma OneMoreHolder(agg: Agg, k: string, rest: set<string>, t: string)
    requires t in rest && t in agg
    ensures Holders(agg, k) - (rest - {t}) == (Holders(agg, k) - rest) + if k in agg[t].Keys then {t} else {}
  {
  }

  method AddHolder(holders: Holding, keys: set<string>, tracking: string) returns (r: Holding)
    requires forall k :: k in keys ==> k != "" && Trimmed(k)
    ensures forall k :: HoldersAt(r, k) == HoldersAt(holders, k) + if k in keys then {tracking} else {}
  {
    r := holders;
    AddedNone(holders, tracking);
    var done: set<string> := {};
    while done != keys
      invariant done <= keys && Added(r, holders, done, tracking)
      decreases |keys - done|
    {
      var key :| key in keys - done;
      var p := Trim(key);
      assert p == key != "";
      AddedStep(r, holders, done, tracking, key);
      if p != "" {
        r := r[p := HoldersAt(r, p) + {tracking}];
      }
      done := done + {key};
    }
  }

  /** The tracking number has been added under the keys done. */
  ghost predicate Added(r: Holding, holders: Holding, done: set<string>, tracking: string) {
    forall k :: HoldersAt(r, k) == HoldersAt(holders, k) + if k in done then {tracking} else {}
  }

  lemma AddedNone(holders: Holding, tracking: string)
    ensures Added(holders, holders, {}, tracking)
  {
  }

  lemma AddedStep(r: Holding, holders: Holding, done: set<string>, tracking: string, key: string)
    requires Added(r, holders, done, tracking)
    ensures Added(r[key := HoldersAt(r, key) + {tracking}], holders, done + {key}, tracking)
  {
    var q := r[key := HoldersAt(r, key) + {tracking}];
    forall k ensures HoldersAt(q, k) == HoldersAt(holders, k) + if k in done + {key} then {tracking} else {} {
      PutHolder(r, key, tracking, k);
    }
  }

  lemma PutHolder(r: Holding, p: string, tracking: string, k: string)
    ensures HoldersAt(r[p := HoldersAt(r, p) + {tracking}], k) == HoldersAt(r, k) + if k == p then {tracking} else {}
  {
    assert HoldersAt(r, k) + {} == HoldersAt(r, k);
  }

  method BuildLines(agg: Agg, lines: seq<Line>, tracking: string, spans: set<string>) returns (shipLines: map<string, ShipLine>)
    requires tracking in agg && GoodKeys(agg[tracking])
    requires forall k :: k in spans <==> |Holders(agg, k)| > 1
    ensures shipLines == LinesFor(agg, lines, tracking)
  {
    var alias, skuByKey, partnerByKey := BuildNames(lines);
    var items := agg[tracking];
    shipLines := map[];
    var rest := items.Keys;
    while rest != {}
      invariant rest <= items.Keys && shipLines.Keys == items.Keys - rest
      invariant forall k :: k in shipLines ==> shipLines[k] == LineFor(agg, lines, tracking, k)
      decreases |rest|
    {
      var key :| key in rest;
      var sku := Trim(Lookup(skuByKey, key));
      var li := ShipLine(items[key], if sku != "" then sku else key, Trim(Lookup(partnerByKey, key)), Trim(key) in spans);
      assert li == LineFor(agg, lines, tracking, key);
      shipLines := shipLines[key := li];
      rest := rest - {key};
    }
  }

  lemma NoLinesIff(agg: Agg, lines: seq<Line>, tracking: string)
    requires tracking in agg
    ensures LinesFor(agg, lines, tracking) == map[] <==> agg[tracking] == map[]
  {
    assert LinesFor(agg, lines, tracking).Keys == agg[tracking].Keys;
  }

  /** The shipments of the groups to be sent, but for those in rest. */
  ghost predicate Built(agg: Agg, lines: seq<Line>, sending: set<string>, rest: set<string>, shipments: Shipments)
    requires sending <= agg.Keys
  {
    forall t :: BuiltAt(agg, lines, sending, rest, shipments, t)
  }

  predicate BuiltAt(agg: Agg, lines: seq<Line>, sending: set<string>, rest: set<string>, shipments: Shipments, t: string)
    requires sending <= agg.Keys
  {
    && (t in shipments <==> t in sending && t !in rest && agg[t] != map[])
    && (t in shipments ==> shipments[t] == LinesFor(agg, lines, t))
  }

  lemma BuiltStep(agg: Agg, lines: seq<Line>, sending: set<string>, rest: set<string>, shipments: Shipments, t: string)
    requires sending <= agg.Keys && rest <= sending && t in rest && Built(agg, lines, sending, rest, shipments)
    ensures Built(agg, lines, sending, rest - {t}, if agg[t] != map[] then shipments[t := LinesFor(agg, lines, t)] else shipments)
  {
    var next := if agg[t] != map[] then shipments[t := LinesFor(agg, lines, t)] else shipments;
    forall u ensures BuiltAt(agg, lines, sending, rest - {t}, next, u) {
      assert BuiltAt(agg, lines, sending, rest, shipments, u);
    }
  }

  lemma BuiltAll(agg: Agg, lines: seq<Line>, already: set<string>, shipments: Shipments)
    requires Built(agg, lines, ToSend(agg, already), {}, shipments)
    ensures shipments == ShipmentsFor(agg, lines, already)
  {
    forall t ensures t in shipments <==> t in ShipmentsFor(agg, lines, already)
      ensures t in shipments ==> shipments[t] == ShipmentsFor(agg, lines, already)[t]
    {
      assert BuiltAt(agg, lines, ToSend(agg, already), {}, shipments, t);
    }
  }

  method BuildShipments(agg: Agg, lines: seq<Line>, already: set<string>, sending: set<string>, spans: set<string>)
    returns (shipments: Shipments)
    requires sending == ToSend(agg, already) && GoodAgg(agg)
    requires forall k :: k in spans <==> |Holders(agg, k)| > 1
    ensures shipments == ShipmentsFor(agg, lines, already)
  {
    shipments := map[];
    var rest := sending;
    while rest != {}
      invariant rest <= sending && Built(agg, lines, sending, rest, shipments)
      decreases |rest|
    {
      var t :| t in rest;
      var shipLines := BuildLines(agg, lines, t, spans);
      NoLinesIff(agg, lines, t);
      BuiltStep(agg, lines, sending, rest, shipments, t);
      if shipLines != map[] {
        shipments := shipments[t := shipLines];
      }
      rest := rest - {t};
    }
    BuiltAll(agg, lines, already, shipments);
  }

  datatype Prepared = NotSent(reason: Reason) | AdvanceNow | Prepared(shipments: Shipments, tracking: string)

  /** What the loop body hands on, with the recorded set joined into one field. */
  predicate Realises(r: Prepared, d: Decision) {
    match d
    case Skip(reason) => r == NotSent(reason)
    case Advance => r == AdvanceNow
    case Send(shipments, record) => r.Prepared? && r.shipments == shipments && TokenSet(r.tracking) == FieldSet(record)
  }

  method CheckEarly(x: ShipInput) returns (skip: Option<Reason>)
    ensures skip == EarlySkip(x)
  {
    if Trim(x.po) == "" {
      return Some(PoNumberEmpty);
    }
    if x.dsco.Some? && !StatusAllowed(x.dsco.value) {
      return Some(DscoStatusNotAllowed);
    }
    if x.multiBan {
      var isMulti, _ := Mskus.DetectMultiOrderByMSKUs(x.mskus);
      if isMulti {
        return Some(MultiBanned);
      }
    }
    if x.payload.None? {
      return Some(DecodeFailed);
    }
    if !x.hasSid {
      return Some(MissingSid);
    }
    if x.outbound.None? || x.outbound.value == [] {
      return Some(OutboundNotFound);
    }
    skip := None;
  }

  /** The loop body of ShipToDSCO for one row, up to where it joins the batch. */
  method PrepareShipment(x: ShipInput) returns (r: Prepared)
    ensures Realises(r, ShipDecision(x))
  {
    var existingTracking, existing, inDsco := ReadTrackings(x.localTracking, x.dsco);
    var skip := CheckEarly(x);
    if skip.Some? {
      return NotSent(skip.value);
    }
    assert existing == ExistingTrackings(x);
    var already := if x.dsco.Some? then inDsco else existing;
    assert already == AlreadySent(x);
    r := PrepareFromOutbound(x, already, existingTracking, existing);
  }

  method PrepareFromOutbound(x: ShipInput, already: set<string>, existingTracking: string, existing: set<string>) returns (r: Prepared)
    requires EarlySkip(x).None?
    requires already == AlreadySent(x) && existing == ExistingTrackings(x)
    requires existingTracking == "" <==> existing == {}
    ensures Realises(r, ShipDecision(x))
  {
    var lines := x.payload.value.lines;
    var agg, ready := GroupAndGate(lines, x.reverse, x.outbound.value);
    assert agg == GroupsOf(x);
    if agg == map[] {
      return NotSent(NoTracking);
    }
    if !ready {
      return NotSent(NotFullyShipped);
    }
    r := SplitGroups(agg, lines, already, existingTracking, existing);
    DecisionIsSplit(x);
  }

  lemma DecisionIsSplit(x: ShipInput)
    requires EarlySkip(x).None? && GroupsOf(x) != map[] && ShipGate(x.payload.value.lines, x.reverse, x.outbound.value)
    ensures ShipDecision(x) == Split(GroupsOf(x), x.payload.value.lines, AlreadySent(x), ExistingTrackings(x))
  {
  }

  method GroupAndGate(lines: seq<Line>, reverse: map<string, string>, ws: seq<Outbound>) returns (agg: Agg, ready: bool)
    ensures agg == Aggregate(Names(reverse, AliasMap(lines)), ws) && GoodAgg(agg)
    ensures ready <==> ShipGate(lines, reverse, ws)
  {
    var alias, _, _ := BuildNames(lines);
    var names := Names(reverse, alias);
    agg := AggregateByTracking(names, ws);
    ready := GateOf(lines, names, ws, agg);
    AliasesAreGood(lines, reverse);
    AggregateKeys(names, ws);
  }

  method SplitGroups(agg: Agg, lines: seq<Line>, already: set<string>, existingTracking: string,
                     existing: set<string>) returns (r: Prepared)
    requires GoodAgg(agg)
    requires existingTracking == "" <==> existing == {}
    ensures Realises(r, Split(agg, lines, already, existing))
  {
    var sending := SelectToSend(agg, already);
    if sending == {} {
      if existingTracking == "" {
        return NotSent(NoTrackingSent);
      }
      return AdvanceNow;
    }
    var spans := FindSpans(agg);
    var shipments := BuildShipments(agg, lines, already, sending, spans);
    if shipments == map[] {
      return NotSent(NoLineItems);
    }
    var tracking := JoinTrackingSet(existing + sending);
    r := Prepared(shipments, tracking);
  }

  // ---------------------------------------------------------------- what the decision guarantees

  /** Reaching status 4 from here, at once or after confirmation, takes the full-shipment gate. */
  lemma OnlyFullyShippedOrdersMove(x: ShipInput)
    requires ShipDecision(x).Advance? || ShipDecision(x).Send?
    ensures x.payload.Some? && x.outbound.Some? && ShipGate(x.payload.value.lines, x.reverse, x.outbound.value)
    ensures x.dsco.Some? ==> StatusAllowed(x.dsco.value)
    ensures x.multiBan ==> !Mskus.IsMulti(x.mskus)
  {
  }

  /** The tracking number is on record: with DSCO if its order was fetched, else in the row's own field. */
  predicate Recorded(x: ShipInput, tracking: string) {
    if x.dsco.Some? then OnPackages(x.dsco.value.packages, tracking) else tracking in Tokens(x.localTracking)
  }

  /** One of the packages names it. */
  predicate OnPackages(packages: seq<string>, tracking: string) {
    exists i :: 0 <= i < |packages| && tracking in Tokens(Trim(packages[i]))
  }

  lemma {:induction false} PackagesSnoc(packages: seq<string>, p: string, tracking: string)
    ensures OnPackages(packages + [p], tracking) <==> OnPackages(packages, tracking) || tracking in Tokens(Trim(p))
  {
    var all := packages + [p];
    assert forall i :: 0 <= i < |packages| ==> all[i] == packages[i];
    assert all[|packages|] == p;
  }

  lemma {:induction false} InAllTokens(packages: seq<string>, tracking: string)
    ensures tracking in AllTokens(NonBlank(packages)) <==> OnPackages(packages, tracking)
  {
    if packages != [] {
      var before, p := packages[..|packages| - 1], packages[|packages| - 1];
      assert packages == before + [p];
      InAllTokens(before, tracking);
      PackagesSnoc(before, p, tracking);
      TokensSnoc(before, p, tracking);
    }
  }

  lemma {:induction false} TokensSnoc(packages: seq<string>, p: string, tracking: string)
    ensures tracking in AllTokens(NonBlank(packages + [p])) <==>
              tracking in AllTokens(NonBlank(packages)) || tracking in Tokens(Trim(p))
  {
    assert (packages + [p])[..|packages|] == packages;
    if Trim(p) == "" {
      assert NonBlank(packages) + [] == NonBlank(packages) && Tokens("") == [];
    } else {
      AllTokensSnoc(NonBlank(packages), Trim(p));
    }
  }

  lemma {:induction false} RecordedIff(x: ShipInput, tracking: string)
    ensures tracking in AlreadySent(x) <==> Recorded(x, tracking)
  {
    if x.dsco.Some? {
      InAllTokens(x.dsco.value.packages, tracking);
    }
  }

  predicate MayShip(status: string) {
    Trim(status) == "shipped" || Trim(status) == "completed" || Trim(status) == "shipment_pending"
  }

  /** The tracking number is listed with something usable under it and is not recorded yet. */
  predicate NewWithItem(x: ShipInput, tracking: string, key: string)
    requires x.payload.Some? && x.outbound.Some?
  {
    HasTracking(x.outbound.value, tracking) && !Recorded(x, tracking) && Shipped(NamesOf(x), x.outbound.value, tracking, key)
  }

  predicate IsNew(x: ShipInput, tracking: string)
    requires x.outbound.Some?
  {
    tracking != "" && HasTracking(x.outbound.value, tracking) && !Recorded(x, tracking)
  }

  /** What an order needs before its tracking numbers are compared with those recorded. */
  ghost predicate MayMove(x: ShipInput) {
    && Trim(x.po) != "" && (x.dsco.Some? ==> MayShip(x.dsco.value.status)) && !(x.multiBan && Mskus.IsMulti(x.mskus))
    && x.payload.Some? && x.hasSid && x.outbound.Some?
    && (exists t :: t != "" && HasTracking(x.outbound.value, t))
    && forall key :: key != "" ==> EnoughTracked(x.payload.value.lines, x.reverse, x.outbound.value, key)
  }

  lemma MayMoveIff(x: ShipInput)
    ensures MayMove(x) <==>
              EarlySkip(x).None? && GroupsOf(x) != map[] && ShipGate(x.payload.value.lines, x.reverse, x.outbound.value)
  {
    if x.payload.Some? && x.outbound.Some? {
      ShipGateMeans(x.payload.value.lines, x.reverse, x.outbound.value);
      GroupsNonEmptyIff(NamesOf(x), x.outbound.value);
    }
  }

  lemma GroupsNonEmptyIff(names: Names, ws: seq<Outbound>)
    ensures Aggregate(names, ws) != map[] <==> exists t :: t != "" && HasTracking(ws, t)
  {
    if Aggregate(names, ws) != map[] {
      var t :| t in Aggregate(names, ws);
      AggregateMeaning(names, ws, t, "");
    }
    if t :| t != "" && HasTracking(ws, t) {
      AggregateMeaning(names, ws, t, "");
    }
  }

  /** The order advances without sending if and only if it may move and nothing on its list is new. */
  lemma AdvancesIff(x: ShipInput)
    ensures ShipDecision(x).Advance? <==> MayMove(x) && forall t :: !IsNew(x, t)
  {
    MayMoveIff(x);
    if MayMove(x) {
      DecisionIsSplit(x);
      NewIsToSend(x);
      NoTrackingSentUnreachable(x);
    }
  }

  /** It is sent if and only if it may move and some new tracking number has a usable item. */
  lemma SentIff(x: ShipInput)
    ensures ShipDecision(x).Send? <==> MayMove(x) && exists t, key :: NewWithItem(x, t, key)
  {
    MayMoveIff(x);
    if MayMove(x) {
      DecisionIsSplit(x);
      NewIsToSend(x);
      NewHasShipment(x);
    }
  }

  lemma NewIsToSend(x: ShipInput)
    requires x.payload.Some? && x.outbound.Some?
    ensures ToSend(GroupsOf(x), AlreadySent(x)) == {} <==> forall t :: !IsNew(x, t)
  {
    forall t ensures t in ToSend(GroupsOf(x), AlreadySent(x)) <==> IsNew(x, t) {
      AggregateMeaning(NamesOf(x), x.outbound.value, t, "");
      RecordedIff(x, t);
    }
  }

  lemma NewHasShipment(x: ShipInput)
    requires x.payload.Some? && x.outbound.Some?
    ensures ShipmentsFor(GroupsOf(x), x.payload.value.lines, AlreadySent(x)) != map[] <==> exists t, key :: NewWithItem(x, t, key)
  {
    var shipments := ShipmentsFor(GroupsOf(x), x.payload.value.lines, AlreadySent(x));
    if shipments != map[] {
      var t :| t in shipments;
      AggregateMeaning(NamesOf(x), x.outbound.value, t, "");
      GroupNonEmptyIff(NamesOf(x), x.outbound.value, t);
      var key :| UnderQty(NamesOf(x), x.outbound.value, t, key) > 0;
      RecordedIff(x, t);
      assert NewWithItem(x, t, key);
    }
    if t, key :| NewWithItem(x, t, key) {
      AggregateMeaning(NamesOf(x), x.outbound.value, t, key);
      GroupNonEmptyIff(NamesOf(x), x.outbound.value, t);
      RecordedIff(x, t);
      assert t in shipments;
    }
  }

  lemma AdvanceIsSplit(x: ShipInput)
    requires ShipDecision(x).Advance?
    ensures x.payload.Some? && x.outbound.Some? && ToSend(GroupsOf(x), AlreadySent(x)) == {}
  {
  }

  /** Advancing without sending means every tracking number is already recorded. */
  lemma AdvanceMeansAllRecorded(x: ShipInput, tracking: string)
    requires ShipDecision(x).Advance? && tracking != "" && HasTracking(x.outbound.value, tracking)
    ensures Recorded(x, tracking) && tracking in AlreadySent(x)
  {
    AdvanceIsSplit(x);
    RecordedIff(x, tracking);
    AggregateMeaning(NamesOf(x), x.outbound.value, tracking, "");
    assert tracking !in ToSend(GroupsOf(x), AlreadySent(x));
  }

  /** The facts about a Send decision that the lemmas below rest on. */
  lemma SendIsSplit(x: ShipInput)
    requires ShipDecision(x).Send?
    ensures x.payload.Some? && x.outbound.Some?
    ensures ShipDecision(x) == Send(ShipmentsFor(GroupsOf(x), x.payload.value.lines, AlreadySent(x)),
                                    ExistingTrackings(x) + ToSend(GroupsOf(x), AlreadySent(x)))
  {
  }

  /** The groups are non-empty exactly where some key was shipped. */
  lemma GroupNonEmptyIff(names: Names, ws: seq<Outbound>, tracking: string)
    requires tracking in Aggregate(names, ws)
    ensures Aggregate(names, ws)[tracking] != map[] <==> exists key :: UnderQty(names, ws, tracking, key) > 0
  {
    var items := Aggregate(names, ws)[tracking];
    forall key ensures key in items <==> UnderQty(names, ws, tracking, key) > 0 {
      GroupHolds(names, ws, tracking, key);
    }
    if items != map[] {
      var key :| key in items;
      assert UnderQty(names, ws, tracking, key) > 0;
    }
  }

  lemma GroupHolds(names: Names, ws: seq<Outbound>, tracking: string, key: string)
    requires tracking in Aggregate(names, ws)
    ensures key in Aggregate(names, ws)[tracking] <==> UnderQty(names, ws, tracking, key) > 0
    ensures key in Aggregate(names, ws)[tracking] ==> Aggregate(names, ws)[tracking][key] == UnderQty(names, ws, tracking, key)
  {
    AggregateMeaning(names, ws, tracking, key);
  }

  /** No shipment repeats a recorded tracking number; a new one is left out only if it has no usable item. */
  lemma SentExactlyNewWithItems(x: ShipInput, tracking: string)
    requires ShipDecision(x).Send?
    ensures tracking in ShipDecision(x).shipments <==>
              tracking != "" && HasTracking(x.outbound.value, tracking) && !Recorded(x, tracking)
              && exists key :: UnderQty(NamesOf(x), x.outbound.value, tracking, key) > 0
  {
    SendIsSplit(x);
    RecordedIff(x, tracking);
    AggregateMeaning(NamesOf(x), x.outbound.value, tracking, "");
    if tracking in GroupsOf(x) {
      GroupNonEmptyIff(NamesOf(x), x.outbound.value, tracking);
    }
  }

  /** A sent line carries exactly what was shipped under its tracking number and key. */
  lemma SentLineQuantity(x: ShipInput, tracking: string, key: string)
    requires ShipDecision(x).Send? && tracking in ShipDecision(x).shipments
    ensures key in ShipDecision(x).shipments[tracking] <==> UnderQty(NamesOf(x), x.outbound.value, tracking, key) > 0
    ensures key in ShipDecision(x).shipments[tracking] ==>
              ShipDecision(x).shipments[tracking][key].quantity == UnderQty(NamesOf(x), x.outbound.value, tracking, key)
  {
    SendIsSplit(x);
    GroupHolds(NamesOf(x), x.outbound.value, tracking, key);
  }

  /** What a sent line names: the SKU and the partner SKU of the order's lines for its key. */
  lemma SentLineNames(x: ShipInput, tracking: string, key: string)
    requires ShipDecision(x).Send? && tracking in ShipDecision(x).shipments && key in ShipDecision(x).shipments[tracking]
    ensures var li, lines := ShipDecision(x).shipments[tracking][key], x.payload.value.lines;
            LastGiven(lines, key, true, li.sku, key) && li.sku == key && LastGiven(lines, key, false, li.partnerSku, "")
  {
    SendIsSplit(x);
    var lines := x.payload.value.lines;
    AliasesAreGood(lines, x.reverse);
    AggregateKeys(NamesOf(x), x.outbound.value);
    var li := LineFor(GroupsOf(x), lines, tracking, key);
    NamesSent(lines, key, li.sku, li.partnerSku);
  }

  lemma {:induction false} TwoMembers(s: set<string>)
    ensures |s| > 1 <==> exists a, b :: a in s && b in s && a != b
  {
    if |s| > 1 {
      var a :| a in s;
      assert |s - {a}| > 0;
      var b :| b in s - {a};
    }
    if a, b :| a in s && b in s && a != b {
      assert {a, b} <= s;
      SubsetSize({a, b}, s);
    }
  }

  lemma {:induction false} SubsetSize(a: set<string>, b: set<string>)
    requires a <= b
    ensures |a| <= |b|
  {
    if a != {} {
      var x :| x in a;
      SubsetSize(a - {x}, b - {x});
    }
  }

  predicate Shipped(names: Names, ws: seq<Outbound>, tracking: string, key: string) {
    tracking != "" && UnderQty(names, ws, tracking, key) > 0
  }

  lemma HoldersAreShipped(names: Names, ws: seq<Outbound>, tracking: string, key: string)
    ensures tracking in Holders(Aggregate(names, ws), key) <==> Shipped(names, ws, tracking, key)
  {
    AggregateMeaning(names, ws, tracking, key);
    if Shipped(names, ws, tracking, key) {
      UnderNeedsTracking(names, ws, tracking, key);
    }
  }

  /** A sent line is span-flagged exactly when its key occurs under two tracking numbers of the whole list. */
  lemma SpanFlagIff(x: ShipInput, tracking: string, key: string)
    requires ShipDecision(x).Send? && tracking in ShipDecision(x).shipments
    requires key in ShipDecision(x).shipments[tracking]
    ensures ShipDecision(x).shipments[tracking][key].packageSpan <==>
              exists a, b :: a != b && Shipped(NamesOf(x), x.outbound.value, a, key) && Shipped(NamesOf(x), x.outbound.value, b, key)
  {
    SendIsSplit(x);
    var names, ws := NamesOf(x), x.outbound.value;
    var holders := Holders(GroupsOf(x), key);
    forall t ensures t in holders <==> Shipped(names, ws, t, key) {
      HoldersAreShipped(names, ws, t, key);
    }
    TwoMembers(holders);
  }

  lemma {:induction false} UnderNeedsTracking(names: Names, ws: seq<Outbound>, tracking: string, key: string)
    requires UnderQty(names, ws, tracking, key) > 0
    ensures HasTracking(ws, tracking)
  {
    var before, w := ws[..|ws| - 1], ws[|ws| - 1];
    assert ws == before + [w];
    HasTrackingSnoc(before, w, tracking);
    if Trim(w.trackingNo) != tracking {
      UnderNeedsTracking(names, before, tracking, key);
    }
  }

  function PartOf(m: Items, s: set<string>, inside: bool): Items {
    map t | t in m && ((t in s) == inside) :: m[t]
  }

  /** Sent and already recorded groups together account for every tracked piece of a key. */
  lemma SentPlusRecorded(x: ShipInput, key: string)
    requires ShipDecision(x).Send?
    ensures var column := Column(GroupsOf(x), key);
            Sum(PartOf(column, AlreadySent(x), false)) + Sum(PartOf(column, AlreadySent(x), true))
            == TrackedQty(NamesOf(x), x.outbound.value, key)
  {
    SendIsSplit(x);
    AggregationConserves(NamesOf(x), x.outbound.value, key);
    SumSplit(Column(GroupsOf(x), key), AlreadySent(x));
  }

  lemma {:induction false} SumSplit(m: Items, s: set<string>)
    ensures Sum(PartOf(m, s, false)) + Sum(PartOf(m, s, true)) == Sum(m)
    decreases |m|
  {
    if m == map[] {
      assert PartOf(m, s, false) == map[] && PartOf(m, s, true) == map[];
    } else {
      var k :| k in m;
      SumSplit(m - {k}, s);
      SumTake(m, k);
      SumTake(PartOf(m, s, k in s), k);
      assert PartOf(m, s, k in s) - {k} == PartOf(m - {k}, s, k in s);
      assert PartOf(m, s, k !in s) == PartOf(m - {k}, s, k !in s);
    }
  }

  /** The branch for a fully shipped order with no tracking number sent or recorded cannot be reached. */
  lemma NoTrackingSentUnreachable(x: ShipInput)
    ensures ShipDecision(x) != Skip(NoTrackingSent)
  {
    if EarlySkip(x).None? && GroupsOf(x) != map[] {
      var t :| t in GroupsOf(x);
      if ToSend(GroupsOf(x), AlreadySent(x)) == {} {
        assert t !in ToSend(GroupsOf(x), AlreadySent(x));
        assert t in AlreadySent(x);
        assert t in ExistingTrackings(x);
      }
    }
  }

  /**
   What a confirmed write stores stands for exactly local, DSCO and new tracking numbers,
   if and only if no new one contains a separator.
   */
  lemma StoredTrackingsIff(x: ShipInput)
    requires ShipDecision(x).Send?
    ensures var sending := ToSend(GroupsOf(x), AlreadySent(x));
            FieldSet(ShipDecision(x).record) == ExistingTrackings(x) + sending
            <==> forall t :: t in sending ==> Clean(t)
  {
    SendIsSplit(x);
    ExistingAreClean(x);
    FaithfulUnion(ExistingTrackings(x), ToSend(GroupsOf(x), AlreadySent(x)));
  }

  lemma FaithfulUnion(known: set<string>, added: set<string>)
    requires forall t :: t in known ==> Clean(t)
    ensures FieldSet(known + added) == known + added <==> forall t :: t in added ==> Clean(t)
  {
    FieldSetFaithfulIff(known + added);
  }

  lemma ExistingAreClean(x: ShipInput)
    ensures forall t :: t in ExistingTrackings(x) ==> Clean(t)
  {
    forall t | t in ExistingTrackings(x) ensures Clean(t) {
      if t in TokenSet(x.localTracking) {
        assert t in Tokens(x.localTracking);
      } else {
        assert t in AllTokens(NonBlank(x.dsco.value.packages));
      }
    }
  }
}
