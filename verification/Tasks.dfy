/**
 One uninterrupted run of the push and of the ack job over the row store: which orders are sent
 to the remote systems, and exactly which rows move. `PipelineRuns` shows that these are runs of `Pipeline`, cut into steps.
 */
module Tasks {
  import opened Text
  import opened Orders
  import opened OrderStore
  import Mskus
  import Pipeline

  /** A selected row and its key. */
  datatype Item = Item(key: string, row: Row)

  /** The table after the rows in s were written with this status and blank tracking and invoice id. */
  function Moved(rows: Rows, s: set<string>, status: int): Rows {
    map k | k in rows :: if k in s then Updated(rows[k], SetFields(status, "", "")) else rows[k]
  }

  lemma MoveOne(rows: Rows, s: set<string>, status: int, k: string)
    ensures Written(Moved(rows, s, status), k, SetFields(status, "", "")) == Moved(rows, s + {k}, status)
    ensures Moved(rows, {}, status) == rows
  {
    var w := SetFields(status, "", "");
    assert Written(Moved(rows, s, status), k, w) == Moved(rows, s + {k}, status);
  }

  // ---------------------------------------------------------------- acknowledging

  /** DSCO's order is at shipment_pending or later. */
  predicate Confirmed(dsco: map<string, string>, po: string) {
    po in dsco && var st := Trim(dsco[po]); st == "shipment_pending" || st == "shipped" || st == "completed"
  }

  datatype AckPlan = AckPlan(direct: set<string>, need: seq<string>)

  /** What is made of one row: confirmed rows move at once, banned and blank ones wait, the rest may need an ACK. */
  datatype Sorted = Leave | MoveNow(po: string) | MayAsk(po: string)

  function Sort(it: Item, dsco: map<string, string>, multiBan: bool, down: set<string>): Sorted {
    var po := Trim(it.key);
    if po == "" then Leave
    else if Confirmed(dsco, po) then if po in down then Leave else MoveNow(po)
    else if multiBan && Mskus.IsMulti(it.row.mskus) then Leave
    else MayAsk(po)
  }

  function Placed(p: AckPlan, s: Sorted): AckPlan {
    match s
    case Leave => p
    case MoveNow(po) => p.(direct := p.direct + {po})
    case MayAsk(po) => p.(need := p.need + [po])
  }

  function Sorts(items: seq<Item>, dsco: map<string, string>, multiBan: bool, down: set<string>): seq<Sorted> {
    seq(|items|, i requires 0 <= i < |items| => Sort(items[i], dsco, multiBan, down))
  }

  function Gathered(sorts: seq<Sorted>, n: nat): AckPlan
    requires n <= |sorts|
  {
    if n == 0 then AckPlan({}, []) else Placed(Gathered(sorts, n - 1), sorts[n - 1])
  }

  function Plan(items: seq<Item>, dsco: map<string, string>, multiBan: bool, down: set<string>, n: nat): AckPlan
    requires n <= |items|
  {
    Gathered(Sorts(items, dsco, multiBan, down), n)
  }

  predicate IsReady(details: map<string, seq<int>>, po: string) {
    po in details && Pipeline.DetailsReady(details[po])
  }

  function Ready(need: seq<string>, details: map<string, seq<int>>, n: nat): seq<string>
    requires n <= |need|
  {
    if n == 0 then [] else Ready(need, details, n - 1) + if IsReady(details, need[n - 1]) then [need[n - 1]] else []
  }

  function Members(xs: seq<string>): set<string> {
    set x | x in xs
  }

  /**
   AckToDSCO: `dsco` are the statuses DSCO gave, `details` the LingXing sub-order statuses, `accepted`
   whether the batch call succeeded, `down` the POs whose update fails.
   */
  method AckToDSCO(store: Store, items: seq<Item>, dsco: map<string, string>, details: map<string, seq<int>>, multiBan: bool,
                   accepted: bool, down: set<string>)
    returns (requested: seq<string>, ok: bool)
    modifies store
    ensures var plan := Plan(items, dsco, multiBan, down, |items|);
            && requested == Ready(plan.need, details, |plan.need|)
            && (ok <==> requested == [] || accepted)
            && store.rows == Moved(old(store.rows), plan.direct + if ok then Members(requested) - down else {}, 3)
    ensures CleanItems(items) ==> EachRow(old(store.rows), store.rows, items, 3, AckMoves(items, dsco, details, multiBan, accepted, down))
  {
    if CleanItems(items) {
      AckedRows(store.rows, items, dsco, details, multiBan, accepted, down);
    }
    var need := PlanAcks(store, items, dsco, multiBan, down);
    ghost var before, direct := old(store.rows), Plan(items, dsco, multiBan, down, |items|).direct;
    requested := [];
    for i := 0 to |need|
      invariant requested == Ready(need, details, i)
      invariant store.rows == Moved(before, direct, 3)
    {
      if need[i] in details {
        var ready := Pipeline.ReadyToAck(details[need[i]]);
        if ready {
          requested := requested + [need[i]];
        }
      }
    }
    if |requested| == 0 {
      assert Members(requested) == {} && direct + (Members(requested) - down) == direct;
      return requested, true;
    }
    if !accepted {
      assert direct + {} == direct;
      return requested, false;
    }
    WriteAcks(store, requested, down, before, direct);
    ok := true;
  }

  /** The last loop of AckToDSCO. */
  method WriteAcks(store: Store, requested: seq<string>, down: set<string>, ghost before: Rows, ghost direct: set<string>)
    requires store.rows == Moved(before, direct, 3)
    modifies store
    ensures store.rows == Moved(before, direct + (Members(requested) - down), 3)
  {
    ghost var moved := direct;
    for i := 0 to |requested|
      invariant moved == direct + (Members(requested[..i]) - down)
      invariant store.rows == Moved(before, moved, 3)
    {
      var po := requested[i];
      MoveOne(before, moved, 3, po);
      MembersStep(requested, i);
      var written := store.UpdateStatusAndFields(po, 3, "", "", po !in down);
      moved := if po in down then moved else moved + {po};
    }
    assert requested[..|requested|] == requested;
  }

  lemma MembersStep(xs: seq<string>, i: nat)
    requires i < |xs|
    ensures Members(xs[..i + 1]) == Members(xs[..i]) + {xs[i]}
  {
    assert xs[..i + 1] == xs[..i] + [xs[i]];
  }

  /** The first loop of AckToDSCO. */
  method PlanAcks(store: Store, items: seq<Item>, dsco: map<string, string>, multiBan: bool, down: set<string>) returns (need: seq<string>)
    modifies store
    ensures need == Plan(items, dsco, multiBan, down, |items|).need
    ensures store.rows == Moved(old(store.rows), Plan(items, dsco, multiBan, down, |items|).direct, 3)
  {
    need := [];
    MoveOne(store.rows, {}, 3, "");
    for i := 0 to |items|
      invariant need == Plan(items, dsco, multiBan, down, i).need
      invariant store.rows == Moved(old(store.rows), Plan(items, dsco, multiBan, down, i).direct, 3)
    {
      var more := PlanAck(store, items[i], dsco, multiBan, down, old(store.rows), Plan(items, dsco, multiBan, down, i).direct);
      assert need + [] == need;
      need := need + more;
    }
  }

  /** Its body. */
  method PlanAck(store: Store, it: Item, dsco: map<string, string>, multiBan: bool, down: set<string>, ghost before: Rows,
                 ghost direct: set<string>)
    returns (more: seq<string>)
    requires store.rows == Moved(before, direct, 3)
    modifies store
    ensures var s := Sort(it, dsco, multiBan, down);
            more == (if s.MayAsk? then [s.po] else []) && store.rows == Moved(before, if s.MoveNow? then direct + {s.po} else direct, 3)
  {
    var po := Trim(it.key);
    if po == "" {
      return [];
    }
    if Confirmed(dsco, po) {
      MoveOne(before, direct, 3, po);
      var written := store.UpdateStatusAndFields(po, 3, "", "", po !in down);
      return [];
    }
    if multiBan {
      var isMulti, _ := Mskus.DetectMultiOrderByMSKUs(it.row.mskus);
      if isMulti {
        return [];
      }
    }
    more := [po];
  }

  /** The row may need an ACK for po. */
  predicate WaitsAt(it: Item, dsco: map<string, string>, multiBan: bool, po: string) {
    Trim(it.key) == po && po != "" && !Confirmed(dsco, po) && !(multiBan && Mskus.IsMulti(it.row.mskus))
  }

  predicate Waits(items: seq<Item>, dsco: map<string, string>, multiBan: bool, n: nat, po: string)
    requires n <= |items|
  {
    exists i :: 0 <= i < n && WaitsAt(items[i], dsco, multiBan, po)
  }

  /** The row moves without an ACK. */
  predicate DirectAt(it: Item, dsco: map<string, string>, down: set<string>, po: string) {
    Trim(it.key) == po && po != "" && Confirmed(dsco, po) && po !in down
  }

  lemma SortMeans(it: Item, dsco: map<string, string>, multiBan: bool, down: set<string>, po: string)
    ensures Sort(it, dsco, multiBan, down) == MayAsk(po) <==> WaitsAt(it, dsco, multiBan, po)
    ensures Sort(it, dsco, multiBan, down) == MoveNow(po) <==> DirectAt(it, dsco, down, po)
  {
  }

  predicate SortedTo(sorts: seq<Sorted>, n: nat, s: Sorted)
    requires n <= |sorts|
  {
    exists i :: 0 <= i < n && sorts[i] == s
  }

  lemma {:induction false} GatheredMeans(sorts: seq<Sorted>, n: nat, po: string)
    requires n <= |sorts|
    ensures po in Gathered(sorts, n).need <==> SortedTo(sorts, n, MayAsk(po))
    ensures po in Gathered(sorts, n).direct <==> SortedTo(sorts, n, MoveNow(po))
  {
    if n > 0 {
      GatheredMeans(sorts, n - 1, po);
      SortedNext(sorts, n - 1, MayAsk(po));
      SortedNext(sorts, n - 1, MoveNow(po));
    }
  }

  lemma SortedNext(sorts: seq<Sorted>, n: nat, s: Sorted)
    requires n < |sorts|
    ensures SortedTo(sorts, n + 1, s) <==> SortedTo(sorts, n, s) || sorts[n] == s
  {
  }

  lemma SortsMean(items: seq<Item>, dsco: map<string, string>, multiBan: bool, down: set<string>, n: nat, po: string)
    requires n <= |items|
    ensures SortedTo(Sorts(items, dsco, multiBan, down), n, MayAsk(po)) <==> Waits(items, dsco, multiBan, n, po)
    ensures SortedTo(Sorts(items, dsco, multiBan, down), n, MoveNow(po)) <==> exists i :: 0 <= i < n && DirectAt(items[i], dsco, down, po)
  {
    var sorts := Sorts(items, dsco, multiBan, down);
    forall i | 0 <= i < n
      ensures sorts[i] == MayAsk(po) <==> WaitsAt(items[i], dsco, multiBan, po)
      ensures sorts[i] == MoveNow(po) <==> DirectAt(items[i], dsco, down, po)
    {
      SortMeans(items[i], dsco, multiBan, down, po);
    }
  }

  /** Exactly the unconfirmed, unbanned rows are considered for an ACK, and only confirmed ones move without. */
  lemma PlanMeans(items: seq<Item>, dsco: map<string, string>, multiBan: bool, down: set<string>, n: nat, po: string)
    requires n <= |items|
    ensures var p := Plan(items, dsco, multiBan, down, n);
            && (po in p.need <==> Waits(items, dsco, multiBan, n, po))
            && (po in p.direct <==> exists i :: 0 <= i < n && DirectAt(items[i], dsco, down, po))
  {
    GatheredMeans(Sorts(items, dsco, multiBan, down), n, po);
    SortsMean(items, dsco, multiBan, down, n, po);
  }

  lemma {:induction false} ReadyMeans(need: seq<string>, details: map<string, seq<int>>, n: nat, po: string)
    requires n <= |need|
    ensures po in Ready(need, details, n) <==> po in need[..n] && IsReady(details, po)
  {
    if n > 0 {
      ReadyMeans(need, details, n - 1, po);
      assert need[..n] == need[..n - 1] + [need[n - 1]];
    }
  }

  /**
   An order is acknowledged exactly when DSCO has not confirmed it, it is not banned, and all of its
   LingXing sub-orders are ready.
   */
  lemma AckedIff(items: seq<Item>, dsco: map<string, string>, details: map<string, seq<int>>, multiBan: bool, down: set<string>, po: string)
    ensures var need := Plan(items, dsco, multiBan, down, |items|).need;
            po in Ready(need, details, |need|) <==> Waits(items, dsco, multiBan, |items|, po) && IsReady(details, po)
  {
    var need := Plan(items, dsco, multiBan, down, |items|).need;
    PlanMeans(items, dsco, multiBan, down, |items|, po);
    ReadyMeans(need, details, |need|, po);
    assert need[..|need|] == need;
  }

  // ---------------------------------------------------------------- pushing

  /** The answer to a create call. */
  datatype CreateReply = CallFailed | Replied(successes: nat, errors: nat)

  /** Only errors and no success keeps the order where it is. */
  predicate Taken(r: CreateReply) {
    r.Replied? && !(r.successes == 0 && r.errors > 0)
  }

  /** How the request of one row turns out: mappings, address or items missing, or sent. */
  datatype Attempt = NotBuilt | Sent(reply: CreateReply)

  predicate Creates(it: Item, existing: set<string>, a: Attempt) {
    Trim(it.key) !in existing && it.row.payload.Some? && Trim(it.row.payload.value.poNumber) != "" && a.Sent?
  }

  /** The key written for the row, if any. */
  function Writes(it: Item, existing: set<string>, a: Attempt): Option<string> {
    if Trim(it.key) in existing then Some(Trim(it.key))
    else if Creates(it, existing, a) && Taken(a.reply) then Some(it.row.payload.value.poNumber)
    else None
  }

  /** What the item adds to the orders asked for. */
  function Asks(it: Item, existing: set<string>, a: Attempt): seq<string> {
    if Creates(it, existing, a) then [it.row.payload.value.poNumber] else []
  }

  function AskList(items: seq<Item>, existing: set<string>, attempts: seq<Attempt>): seq<seq<string>>
    requires |attempts| == |items|
  {
    seq(|items|, i requires 0 <= i < |items| => Asks(items[i], existing, attempts[i]))
  }

  function Flat(xs: seq<seq<string>>, n: nat): seq<string>
    requires n <= |xs|
  {
    if n == 0 then [] else Flat(xs, n - 1) + xs[n - 1]
  }

  /** The orders asked for by the first n items, in order. */
  function Created(items: seq<Item>, existing: set<string>, attempts: seq<Attempt>, n: nat): seq<string>
    requires n <= |items| == |attempts|
  {
    Flat(AskList(items, existing, attempts), n)
  }

  function WriteList(items: seq<Item>, existing: set<string>, attempts: seq<Attempt>): seq<Option<string>>
    requires |attempts| == |items|
  {
    seq(|items|, i requires 0 <= i < |items| => Writes(items[i], existing, attempts[i]))
  }

  function Landed(ws: seq<Option<string>>, down: set<nat>, n: nat): set<string>
    requires n <= |ws|
  {
    if n == 0 then {} else Landed(ws, down, n - 1) + if ws[n - 1].Some? && n - 1 !in down then {ws[n - 1].value} else {}
  }

  /** The rows the first n items move; `down` are the positions at which the update fails. */
  function MovedKeys(items: seq<Item>, existing: set<string>, attempts: seq<Attempt>, down: set<nat>, n: nat): set<string>
    requires n <= |items| == |attempts|
  {
    Landed(WriteList(items, existing, attempts), down, n)
  }

  /** PushToLingXing after the existence check; `down` are the positions at which the local update fails. */
  method PushToLingXing(store: Store, items: seq<Item>, existing: set<string>, attempts: seq<Attempt>, down: set<nat>)
    returns (created: seq<string>)
    requires |attempts| == |items|
    modifies store
    ensures created == Created(items, existing, attempts, |items|)
    ensures store.rows == Moved(old(store.rows), MovedKeys(items, existing, attempts, down, |items|), 2)
    ensures CleanItems(items) ==> EachRow(old(store.rows), store.rows, items, 2, PushMoves(items, existing, attempts, down))
  {
    if CleanItems(items) {
      PushedRows(store.rows, items, existing, attempts, down);
    }
    created := [];
    MoveOne(store.rows, {}, 2, "");
    for i := 0 to |items|
      invariant created == Created(items, existing, attempts, i)
      invariant store.rows == Moved(old(store.rows), MovedKeys(items, existing, attempts, down, i), 2)
    {
      var asked := PushOne(store, items[i], existing, attempts[i], i !in down, old(store.rows),
                           MovedKeys(items, existing, attempts, down, i));
      created := created + asked;
    }
  }

  /** The loop body of PushToLingXing. */
  method PushOne(store: Store, it: Item, existing: set<string>, a: Attempt, up: bool, ghost before: Rows, ghost moved: set<string>)
    returns (asked: seq<string>)
    requires store.rows == Moved(before, moved, 2)
    modifies store
    ensures asked == Asks(it, existing, a)
    ensures store.rows ==
            Moved(before, moved + if Writes(it, existing, a).Some? && up then {Writes(it, existing, a).value} else {}, 2)
  {
    assert moved + {} == moved;
    var po := Trim(it.key);
    if po in existing {
      MoveOne(before, moved, 2, po);
      var written := store.UpdateStatusAndFields(po, 2, "", "", up);
      return [];
    }
    if it.row.payload.None? || Trim(it.row.payload.value.poNumber) == "" || a.NotBuilt? {
      return [];
    }
    var order := it.row.payload.value;
    asked := [order.poNumber];
    if a.reply.CallFailed? || (a.reply.successes == 0 && a.reply.errors > 0) {
      return;
    }
    MoveOne(before, moved, 2, order.poNumber);
    var written := store.UpdateStatusAndFields(order.poNumber, 2, "", "", up);
  }

  /** The stored PO is the row's key, without surrounding white space. */
  predicate OwnKey(it: Item) {
    Trim(it.key) == it.key && (it.row.payload.Some? ==> it.row.payload.value.poNumber == it.key)
  }

  predicate CreatesFor(it: Item, existing: set<string>, a: Attempt, po: string) {
    Creates(it, existing, a) && it.row.payload.value.poNumber == po
  }

  lemma InEither(a: seq<string>, b: seq<string>, po: string)
    ensures po in a + b <==> po in a || po in b
  {
  }

  lemma {:induction false} FlatMeans(xs: seq<seq<string>>, n: nat, po: string)
    requires n <= |xs|
    ensures po in Flat(xs, n) <==> exists i :: 0 <= i < n && po in xs[i]
  {
    if n > 0 {
      FlatMeans(xs, n - 1, po);
      InEither(Flat(xs, n - 1), xs[n - 1], po);
    }
  }

  /** The orders asked for are those of the rows that were not found to exist and whose request could be built. */
  lemma CreatedMeans(items: seq<Item>, existing: set<string>, attempts: seq<Attempt>, n: nat, po: string)
    requires n <= |items| == |attempts|
    ensures po in Created(items, existing, attempts, n) <==> exists i :: 0 <= i < n && CreatesFor(items[i], existing, attempts[i], po)
  {
    FlatMeans(AskList(items, existing, attempts), n, po);
    forall i | 0 <= i < n ensures po in AskList(items, existing, attempts)[i] <==> CreatesFor(items[i], existing, attempts[i], po) {
    }
  }

  predicate CleanItems(items: seq<Item>) {
    && (forall i :: 0 <= i < |items| ==> OwnKey(items[i]))
    && (forall i, j :: 0 <= i < j < |items| ==> items[i].key != items[j].key)
  }

  lemma NotYetCreated(items: seq<Item>, existing: set<string>, attempts: seq<Attempt>, n: nat)
    requires n < |items| == |attempts| && CleanItems(items)
    ensures items[n].key !in Created(items, existing, attempts, n)
  {
    CreatedMeans(items, existing, attempts, n, items[n].key);
    forall i | 0 <= i < n ensures !CreatesFor(items[i], existing, attempts[i], items[n].key) {
      assert OwnKey(items[i]) && items[i].key != items[n].key;
    }
  }

  predicate AskedOnce(created: seq<string>, existing: set<string>, po: string) {
    multiset(created)[po] <= 1 && (po in existing ==> po !in created)
  }

  lemma OneMoreCreated(before: seq<string>, it: Item, existing: set<string>, a: Attempt, po: string)
    requires OwnKey(it) && it.key !in before && AskedOnce(before, existing, po)
    ensures AskedOnce(before + Asks(it, existing, a), existing, po)
  {
    assert it.key !in multiset(before);
  }

  /** With clean keys a run asks for each order at most once and for none that was found to exist. */
  lemma CreatedOnce(items: seq<Item>, existing: set<string>, attempts: seq<Attempt>, n: nat, po: string)
    requires n <= |items| == |attempts| && CleanItems(items)
    ensures multiset(Created(items, existing, attempts, n))[po] <= 1
    ensures po in existing ==> po !in Created(items, existing, attempts, n)
  {
    for m := 0 to n
      invariant AskedOnce(Created(items, existing, attempts, m), existing, po)
    {
      NotYetCreated(items, existing, attempts, m);
      OneMoreCreated(Created(items, existing, attempts, m), items[m], existing, attempts[m], po);
    }
  }

  predicate WritesAt(it: Item, existing: set<string>, a: Attempt, po: string) {
    Writes(it, existing, a) == Some(po)
  }

  lemma {:induction false} LandedMeans(ws: seq<Option<string>>, down: set<nat>, n: nat, po: string)
    requires n <= |ws|
    ensures po in Landed(ws, down, n) <==> exists i :: 0 <= i < n && i !in down && ws[i] == Some(po)
  {
    if n > 0 {
      LandedMeans(ws, down, n - 1, po);
    }
  }

  /** The rows that move are those written for an item whose update went through. */
  lemma MovedMeans(items: seq<Item>, existing: set<string>, attempts: seq<Attempt>, down: set<nat>, n: nat, po: string)
    requires n <= |items| == |attempts|
    ensures po in MovedKeys(items, existing, attempts, down, n) <==>
              exists i :: 0 <= i < n && i !in down && WritesAt(items[i], existing, attempts[i], po)
  {
    LandedMeans(WriteList(items, existing, attempts), down, n, po);
    forall i | 0 <= i < n ensures WriteList(items, existing, attempts)[i] == Some(po) <==> WritesAt(items[i], existing, attempts[i], po) {
    }
  }

  /** With a clean key that is the item's own row, and only if the order exists already or its create call was taken. */
  lemma WritesOwnRow(it: Item, existing: set<string>, a: Attempt, po: string)
    requires OwnKey(it)
    ensures WritesAt(it, existing, a, po) <==> it.key == po && (po in existing || (Creates(it, existing, a) && Taken(a.reply)))
  {
  }

  // ---------------------------------------------------------------- row by row, on the answers as they come

  /** The selected rows at these positions move, and every other row stays. */
  predicate EachRow(before: Rows, after: Rows, items: seq<Item>, status: int, moves: set<nat>) {
    && after.Keys == before.Keys
    && (forall i :: 0 <= i < |items| && items[i].key in before ==>
          after[items[i].key] == if i in moves then before[items[i].key].(status := status, tracking := "", invoiceId := "")
                                 else before[items[i].key])
    && (forall k :: k in before && (forall i :: 0 <= i < |items| ==> items[i].key != k) ==> after[k] == before[k])
  }

  lemma MovedEachRow(rows: Rows, keys: set<string>, status: int, items: seq<Item>, moves: set<nat>)
    requires forall i :: 0 <= i < |items| ==> (items[i].key in keys <==> i in moves)
    requires forall k :: k in keys ==> exists i :: 0 <= i < |items| && items[i].key == k
    ensures EachRow(rows, Moved(rows, keys, status), items, status, moves)
  {
  }

  /** A row is pushed when the order exists already, or when LingXing answered the create call with anything but errors alone. */
  predicate Pushes(it: Item, existing: set<string>, a: Attempt, failed: bool) {
    && !failed
    && (it.key in existing
        || (it.key != "" && it.row.payload.Some? && a.Sent? && a.reply.Replied? && (a.reply.successes > 0 || a.reply.errors == 0)))
  }

  function PushMoves(items: seq<Item>, existing: set<string>, attempts: seq<Attempt>, down: set<nat>): set<nat>
    requires |attempts| == |items|
  {
    set i: nat | i < |items| && Pushes(items[i], existing, attempts[i], i in down)
  }

  lemma PushedIff(items: seq<Item>, existing: set<string>, attempts: seq<Attempt>, down: set<nat>, i: nat)
    requires i < |items| == |attempts| && CleanItems(items)
    ensures items[i].key in MovedKeys(items, existing, attempts, down, |items|) <==> Pushes(items[i], existing, attempts[i], i in down)
  {
    MovedMeans(items, existing, attempts, down, |items|, items[i].key);
    forall j | 0 <= j < |items| && WritesAt(items[j], existing, attempts[j], items[i].key) ensures i == j {
      assert OwnKey(items[j]);
    }
    assert OwnKey(items[i]);
    WritesOwnRow(items[i], existing, attempts[i], items[i].key);
  }

  /** The push run, row by row: an order that LingXing only answered with errors stays where it is. */
  lemma PushedRows(rows: Rows, items: seq<Item>, existing: set<string>, attempts: seq<Attempt>, down: set<nat>)
    requires |attempts| == |items| && CleanItems(items)
    ensures var keys := MovedKeys(items, existing, attempts, down, |items|);
            EachRow(rows, Moved(rows, keys, 2), items, 2, PushMoves(items, existing, attempts, down))
  {
    var keys := MovedKeys(items, existing, attempts, down, |items|);
    forall i | 0 <= i < |items| ensures items[i].key in keys <==> Pushes(items[i], existing, attempts[i], i in down) {
      PushedIff(items, existing, attempts, down, i);
    }
    forall k | k in keys ensures exists i :: 0 <= i < |items| && items[i].key == k {
      MovedMeans(items, existing, attempts, down, |items|, k);
      var i :| 0 <= i < |items| && i !in down && WritesAt(items[i], existing, attempts[i], k);
      assert OwnKey(items[i]);
    }
    MovedEachRow(rows, keys, 2, items, PushMoves(items, existing, attempts, down));
  }

  /** DSCO reports the order at one of these statuses. */
  predicate Reported(dsco: map<string, string>, po: string) {
    po in dsco && (Trim(dsco[po]) == "shipment_pending" || Trim(dsco[po]) == "shipped" || Trim(dsco[po]) == "completed")
  }

  /** A row is acknowledged when DSCO reports it so, or when the batch call that names it is accepted. */
  predicate Acks(it: Item, dsco: map<string, string>, details: map<string, seq<int>>, multiBan: bool, accepted: bool, failed: bool) {
    && !failed && it.key != ""
    && (Reported(dsco, it.key)
        || (accepted && !(multiBan && Mskus.IsMulti(it.row.mskus)) && it.key in details && details[it.key] != []
            && forall d :: d in details[it.key] ==> d == 5 || d == 6))
  }

  function AckMoves(items: seq<Item>, dsco: map<string, string>, details: map<string, seq<int>>, multiBan: bool, accepted: bool,
                    down: set<string>): set<nat>
  {
    set i: nat | i < |items| && Acks(items[i], dsco, details, multiBan, accepted, items[i].key in down)
  }

  /** The rows that the ack run moves. */
  function AckKeys(items: seq<Item>, dsco: map<string, string>, details: map<string, seq<int>>, multiBan: bool, accepted: bool,
                   down: set<string>): set<string>
  {
    var plan := Plan(items, dsco, multiBan, down, |items|);
    var requested := Ready(plan.need, details, |plan.need|);
    plan.direct + if requested == [] || accepted then Members(requested) - down else {}
  }

  lemma ReadyIff(details: map<string, seq<int>>, po: string)
    ensures IsReady(details, po) <==> po in details && details[po] != [] && forall d :: d in details[po] ==> d == 5 || d == 6
  {
    if po in details {
      assert forall i :: 0 <= i < |details[po]| ==> details[po][i] in details[po];
    }
  }

  lemma AckKeyFrom(items: seq<Item>, dsco: map<string, string>, details: map<string, seq<int>>, multiBan: bool, accepted: bool,
                   down: set<string>, po: string) returns (i: nat)
    requires CleanItems(items) && po in AckKeys(items, dsco, details, multiBan, accepted, down)
    ensures i < |items| && items[i].key == po && Acks(items[i], dsco, details, multiBan, accepted, po in down)
  {
    PlanMeans(items, dsco, multiBan, down, |items|, po);
    AckedIff(items, dsco, details, multiBan, down, po);
    ReadyIff(details, po);
    if po in Plan(items, dsco, multiBan, down, |items|).direct {
      i :| 0 <= i < |items| && DirectAt(items[i], dsco, down, po);
    } else {
      i :| 0 <= i < |items| && WaitsAt(items[i], dsco, multiBan, po);
    }
    assert OwnKey(items[i]);
  }

  lemma AckKeyHas(items: seq<Item>, dsco: map<string, string>, details: map<string, seq<int>>, multiBan: bool, accepted: bool,
                  down: set<string>, i: nat)
    requires CleanItems(items) && i < |items| && Acks(items[i], dsco, details, multiBan, accepted, items[i].key in down)
    ensures items[i].key in AckKeys(items, dsco, details, multiBan, accepted, down)
  {
    var po := items[i].key;
    assert OwnKey(items[i]);
    PlanMeans(items, dsco, multiBan, down, |items|, po);
    AckedIff(items, dsco, details, multiBan, down, po);
    ReadyIff(details, po);
    assert DirectAt(items[i], dsco, down, po) || WaitsAt(items[i], dsco, multiBan, po);
  }

  /** The ack run, row by row. */
  lemma AckedRows(rows: Rows, items: seq<Item>, dsco: map<string, string>, details: map<string, seq<int>>, multiBan: bool, accepted: bool,
                  down: set<string>)
    requires CleanItems(items)
    ensures var keys := AckKeys(items, dsco, details, multiBan, accepted, down);
            EachRow(rows, Moved(rows, keys, 3), items, 3, AckMoves(items, dsco, details, multiBan, accepted, down))
  {
    var keys := AckKeys(items, dsco, details, multiBan, accepted, down);
    forall i | 0 <= i < |items|
      ensures items[i].key in keys <==> Acks(items[i], dsco, details, multiBan, accepted, items[i].key in down)
    {
      if items[i].key in keys {
        var j := AckKeyFrom(items, dsco, details, multiBan, accepted, down, items[i].key);
        assert i == j;
      } else if Acks(items[i], dsco, details, multiBan, accepted, items[i].key in down) {
        AckKeyHas(items, dsco, details, multiBan, accepted, down, i);
      }
    }
    forall k | k in keys ensures exists i :: 0 <= i < |items| && items[i].key == k {
      var i := AckKeyFrom(items, dsco, details, multiBan, accepted, down, k);
    }
    MovedEachRow(rows, keys, 3, items, AckMoves(items, dsco, details, multiBan, accepted, down));
  }
}
