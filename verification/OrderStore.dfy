/**
 The dsco_order_sync table: one row per PO number, read by status and written blindly by PO
 number, with no transaction and no comparison against the status that was read.
 */
module OrderStore {
  import opened Text
  import opened Orders

  datatype Row = Row(createTime: int, payload: Option<Order>, status: int, tracking: string, invoiceId: string, mskus: seq<string>)

  type Rows = map<string, Row>

  /** The UpdateStatus... statements, by the columns they set. */
  datatype Write =
    | SetStatus(status: int)
    | SetTracking(status: int, tracking: string)
    | SetInvoice(status: int, invoiceId: string)
    | SetFields(status: int, tracking: string, invoiceId: string)

  /** The key the statement looks for: all but SetFields trim it. */
  function Target(po: string, w: Write): string {
    if w.SetFields? then po else Trim(po)
  }

  /** Blank keys are refused before the database is asked, again except by SetFields. */
  predicate Refused(po: string, w: Write) {
    !w.SetFields? && Trim(po) == ""
  }

  function Updated(row: Row, w: Write): Row {
    match w
    case SetStatus(st) => row.(status := st)
    case SetTracking(st, t) => row.(status := st, tracking := t)
    case SetInvoice(st, id) => row.(status := st, invoiceId := id)
    case SetFields(st, t, id) => row.(status := st, tracking := t, invoiceId := id)
  }

  /** One statement; a key without a row is no error. */
  function Written(rows: Rows, po: string, w: Write): Rows {
    if Refused(po, w) || Target(po, w) !in rows then rows
    else rows[Target(po, w) := Updated(rows[Target(po, w)], w)]
  }

  class Store {
    var rows: Rows

    constructor ()
      ensures rows == map[]
    {
      rows := map[];
    }

    /** `up` tells whether the statement reaches the database. */
    method UpdateStatus(po: string, status: int, up: bool) returns (ok: bool)
      modifies this
      ensures ok <==> up && Trim(po) != ""
      ensures rows == if ok then Written(old(rows), po, SetStatus(status)) else old(rows)
    {
      if Trim(po) == "" || !up {
        return false;
      }
      if Trim(po) in rows {
        rows := rows[Trim(po) := rows[Trim(po)].(status := status)];
      }
      ok := true;
    }

    method UpdateStatusAndTrackingNo(po: string, status: int, trackingNo: string, up: bool) returns (ok: bool)
      modifies this
      ensures ok <==> up && Trim(po) != ""
      ensures rows == if ok then Written(old(rows), po, SetTracking(status, trackingNo)) else old(rows)
    {
      var key := Trim(po);
      if key == "" || !up {
        return false;
      }
      if key in rows {
        rows := rows[key := rows[key].(status := status, tracking := trackingNo)];
      }
      ok := true;
    }

    method UpdateStatusAndInvoiceID(po: string, status: int, invoiceID: string, up: bool) returns (ok: bool)
      modifies this
      ensures ok <==> up && Trim(po) != ""
      ensures rows == if ok then Written(old(rows), po, SetInvoice(status, invoiceID)) else old(rows)
    {
      var key := Trim(po);
      if key == "" || !up {
        return false;
      }
      if key in rows {
        rows := rows[key := rows[key].(status := status, invoiceId := invoiceID)];
      }
      ok := true;
    }

    method UpdateStatusAndFields(po: string, status: int, trackingNo: string, invoiceID: string, up: bool) returns (ok: bool)
      modifies this
      ensures ok == up
      ensures rows == if ok then Written(old(rows), po, SetFields(status, trackingNo, invoiceID)) else old(rows)
    {
      if up && po in rows {
        rows := rows[po := rows[po].(status := status, tracking := trackingNo, invoiceId := invoiceID)];
      }
      ok := up;
    }

    /** The oldest rows with this status, at most `limit` of them (50 when no limit is given). */
    method FindByStatus(status: int, limit: int) returns (items: seq<string>)
      ensures OldestFirst(rows, status, items)
      ensures |items| == if |WithStatus(rows, status)| <= Limit(limit) then |WithStatus(rows, status)| else Limit(limit)
    {
      items := [];
      var rest := WithStatus(rows, status);
      while |items| < Limit(limit) && rest != {}
        invariant rest <= WithStatus(rows, status) && |items| <= Limit(limit)
        invariant |items| + |rest| == |WithStatus(rows, status)|
        invariant forall k :: k in items <==> k in WithStatus(rows, status) && k !in rest
        invariant OldestFirst(rows, status, items)
        decreases |rest|
      {
        var k := Oldest(rows, rest);
        items := items + [k];
        rest := rest - {k};
      }
    }
  }

  function Limit(limit: int): nat {
    if limit <= 0 then 50 else limit
  }

  function WithStatus(rows: Rows, status: int): set<string> {
    set k | k in rows && rows[k].status == status
  }

  /** A prefix of the matching rows in order of creation. */
  predicate OldestFirst(rows: Rows, status: int, items: seq<string>) {
    && (forall i :: 0 <= i < |items| ==> items[i] in WithStatus(rows, status))
    && (forall i, j :: 0 <= i < j < |items| ==> items[i] != items[j] && rows[items[i]].createTime <= rows[items[j]].createTime)
    && (forall i, k :: 0 <= i < |items| && k in WithStatus(rows, status) && k !in items ==> rows[items[i]].createTime <= rows[k].createTime)
  }

  method Oldest(rows: Rows, keys: set<string>) returns (k: string)
    requires keys != {} && forall x :: x in keys ==> x in rows
    ensures k in keys && forall x :: x in keys ==> rows[k].createTime <= rows[x].createTime
  {
    k :| k in keys;
    var rest := keys - {k};
    while rest != {}
      invariant rest <= keys && k in keys
      invariant forall x :: x in keys && x !in rest ==> rows[k].createTime <= rows[x].createTime
      decreases |rest|
    {
      var x :| x in rest;
      if rows[x].createTime < rows[k].createTime {
        k := x;
      }
      rest := rest - {x};
    }
  }

  // ---------------------------------------------------------------- writing back what was confirmed

  /** A prepared write: the trimmed PO it was prepared for, the id its verdict is filed under, and what to set. */
  datatype Pending = Pending(po: string, id: string, write: Write)

  /** The verdict is positive and the database takes the write; `down` are the positions at which it fails. */
  predicate Goes(pending: seq<Pending>, verdicts: map<string, bool>, down: set<nat>, i: nat)
    requires i < |pending|
  {
    pending[i].id in verdicts && verdicts[pending[i].id] && i !in down
  }

  /** The table after the first n entries. */
  function After(rows: Rows, pending: seq<Pending>, verdicts: map<string, bool>, down: set<nat>, n: nat): Rows
    requires n <= |pending|
  {
    if n == 0 then rows
    else
      var before := After(rows, pending, verdicts, down, n - 1);
      if Goes(pending, verdicts, down, n - 1) then Written(before, pending[n - 1].po, pending[n - 1].write) else before
  }

  function Count(pending: seq<Pending>, verdicts: map<string, bool>, down: set<nat>, n: nat): nat
    requires n <= |pending|
  {
    if n == 0 then 0 else Count(pending, verdicts, down, n - 1) + if Goes(pending, verdicts, down, n - 1) then 1 else 0
  }

  /** The last loop of ShipToDSCO: a missing verdict waits, a negative one fails, a positive one is written. */
  method ConfirmShipments(store: Store, pending: seq<Pending>, verdicts: map<string, bool>, down: set<nat>)
    returns (okCount: nat, skip: nat, fail: nat)
    requires forall i :: 0 <= i < |pending| ==> pending[i].write.SetTracking? && Plain(pending[i])
    modifies store
    ensures store.rows == After(old(store.rows), pending, verdicts, down, |pending|)
    ensures okCount == Count(pending, verdicts, down, |pending|) && okCount + skip + fail == |pending|
  {
    okCount, skip, fail := 0, 0, 0;
    for i := 0 to |pending|
      invariant store.rows == After(old(store.rows), pending, verdicts, down, i)
      invariant okCount == Count(pending, verdicts, down, i) && okCount + skip + fail == i
    {
      var it := pending[i];
      assert Plain(it);
      if it.id !in verdicts {
        skip := skip + 1;
      } else if !verdicts[it.id] {
        fail := fail + 1;
      } else {
        var ok := store.UpdateStatusAndTrackingNo(it.po, it.write.status, it.write.tracking, i !in down);
        if ok {
          okCount := okCount + 1;
        } else {
          fail := fail + 1;
        }
      }
    }
  }

  /** The last loop of InvoiceToDSCO: anything but a positive verdict fails. */
  method ConfirmInvoices(store: Store, pending: seq<Pending>, verdicts: map<string, bool>, down: set<nat>)
    returns (okCount: nat, fail: nat)
    requires forall i :: 0 <= i < |pending| ==> pending[i].write.SetInvoice? && Plain(pending[i])
    modifies store
    ensures store.rows == After(old(store.rows), pending, verdicts, down, |pending|)
    ensures okCount == Count(pending, verdicts, down, |pending|) && okCount + fail == |pending|
  {
    okCount, fail := 0, 0;
    for i := 0 to |pending|
      invariant store.rows == After(old(store.rows), pending, verdicts, down, i)
      invariant okCount == Count(pending, verdicts, down, i) && okCount + fail == i
    {
      var it := pending[i];
      assert Plain(it);
      var confirmed := it.id in verdicts && verdicts[it.id];
      if !confirmed {
        fail := fail + 1;
      } else {
        var ok := store.UpdateStatusAndInvoiceID(it.po, it.write.status, it.write.invoiceId, i !in down);
        if ok {
          okCount := okCount + 1;
        } else {
          fail := fail + 1;
        }
      }
    }
  }

  /** Prepared for a trimmed, non-blank PO. */
  predicate Plain(p: Pending) {
    p.po != "" && Trim(p.po) == p.po
  }

  lemma PlainWrite(rows: Rows, p: Pending)
    requires Plain(p)
    ensures Written(rows, p.po, p.write) == if p.po in rows then rows[p.po := Updated(rows[p.po], p.write)] else rows
  {
  }

  /** The entry for k that is confirmed among the first n, or -1. */
  function EntryFor(pending: seq<Pending>, verdicts: map<string, bool>, down: set<nat>, n: nat, k: string): (i: int)
    requires n <= |pending|
    ensures -1 <= i < n
    ensures i >= 0 ==> pending[i].po == k && Goes(pending, verdicts, down, i)
    ensures i < 0 ==> forall j :: 0 <= j < n && pending[j].po == k ==> !Goes(pending, verdicts, down, j)
  {
    if n == 0 then -1
    else if pending[n - 1].po == k && Goes(pending, verdicts, down, n - 1) then n - 1
    else EntryFor(pending, verdicts, down, n - 1, k)
  }

  /**
   Nothing but confirmed entries reaches the table, each on its own row, and every other row is
   left as it was: no order is lost and none is mixed up.
   */
  lemma {:induction false} ConfirmedRows(rows: Rows, pending: seq<Pending>, verdicts: map<string, bool>, down: set<nat>, n: nat, k: string)
    requires n <= |pending| && forall i :: 0 <= i < |pending| ==> Plain(pending[i])
    requires forall i, j :: 0 <= i < j < |pending| ==> pending[i].po != pending[j].po
    ensures var after := After(rows, pending, verdicts, down, n);
            var i := EntryFor(pending, verdicts, down, n, k);
            && after.Keys == rows.Keys
            && (k in rows ==> after[k] == if i < 0 then rows[k] else Updated(rows[k], pending[i].write))
  {
    if n > 0 {
      ConfirmedRows(rows, pending, verdicts, down, n - 1, k);
      PlainWrite(After(rows, pending, verdicts, down, n - 1), pending[n - 1]);
    }
  }
}
