/**
 One uninterrupted run of the ship and of the invoice job over the row store: every selected row is
 prepared, the prepared ones go out in one call, and what that call's change log confirms is written back.
 */
module Batches {
  import opened Text
  import opened OrderStore
  import opened Pipeline
  import opened Tracking
  import ChangeLog
  import Invoice
  import Shipment

  // ---------------------------------------------------------------- what is prepared

  /** What a run makes of a row: nothing, a write that waits for the batch call, or a write made at once. */
  datatype Outcome = Nothing | Batched(issue: Issued) | AtOnce(issue: Issued)

  function More(o: Outcome): seq<Issued> {
    if o.Batched? then [o.issue] else []
  }

  function Issues(plan: seq<Outcome>): seq<Issued> {
    if plan == [] then [] else Issues(plan[..|plan| - 1]) + More(plan[|plan| - 1])
  }

  lemma {:induction false} IssuesSnoc(plan: seq<Outcome>, o: Outcome)
    ensures Issues(plan + [o]) == Issues(plan) + More(o)
  {
    assert (plan + [o])[..|plan|] == plan;
  }

  /** The rows after a write made at once, if there is one. */
  function WrittenAtOnce(rows: Rows, o: Outcome, up: bool): Rows {
    if o.AtOnce? && up then Written(rows, o.issue.po, o.issue.write) else rows
  }

  /** The rows after all of them; `down` are the positions at which the update fails. */
  function AtOnceRows(rows: Rows, plan: seq<Outcome>, down: set<nat>): Rows {
    if plan == [] then rows
    else WrittenAtOnce(AtOnceRows(rows, plan[..|plan| - 1], down), plan[|plan| - 1], |plan| - 1 !in down)
  }

  lemma {:induction false} AtOnceSnoc(rows: Rows, plan: seq<Outcome>, o: Outcome, down: set<nat>)
    ensures AtOnceRows(rows, plan + [o], down) == WrittenAtOnce(AtOnceRows(rows, plan, down), o, |plan| !in down)
  {
    assert (plan + [o])[..|plan|] == plan;
  }

  /** `field` is the joined tracking field of an order whose shipments are sent. */
  function OutcomeOf(d: Shipment.Decision, x: Shipment.ShipInput, field: string): Outcome {
    match d
    case Skip(_) => Nothing
    case Advance => AtOnce(Issued(Trim(x.po), SetStatus(4), OnShip(x)))
    case Send(_, _) => Batched(Issued(Trim(x.po), SetTracking(4, field), OnShip(x)))
  }

  function ShipOutcome(x: Shipment.ShipInput, field: string): Outcome {
    OutcomeOf(Shipment.ShipDecision(x), x, field)
  }

  function Zipped(f: (Shipment.ShipInput, string) -> Outcome, inputs: seq<Shipment.ShipInput>, fields: seq<string>): seq<Outcome>
    requires |fields| == |inputs|
  {
    seq(|inputs|, i requires 0 <= i < |inputs| => f(inputs[i], fields[i]))
  }

  lemma {:induction false} ZippedSnoc(f: (Shipment.ShipInput, string) -> Outcome, inputs: seq<Shipment.ShipInput>, n: nat,
                                      fields: seq<string>, field: string)
    requires |fields| == n < |inputs|
    ensures Zipped(f, inputs[..n + 1], fields + [field]) == Zipped(f, inputs[..n], fields) + [f(inputs[n], field)]
  {
  }

  function ShipPlan(inputs: seq<Shipment.ShipInput>, fields: seq<string>): seq<Outcome>
    requires |fields| == |inputs|
  {
    Zipped(ShipOutcome, inputs, fields)
  }

  /** The field stands for the tracking numbers that are to be recorded. */
  predicate FieldFits(x: Shipment.ShipInput, field: string) {
    var d := Shipment.ShipDecision(x);
    d.Send? ==> TokenSet(field) == FieldSet(d.record)
  }

  ghost function InvoiceOutcome(x: Invoice.InvoiceInput): Outcome {
    if Invoice.InvoiceDecision(x).Send? then Batched(Issued(Trim(x.po), SetInvoice(5, Trim(x.po)), OnInvoice(x))) else Nothing
  }

  function Mapped(f: Invoice.InvoiceInput -> Outcome, inputs: seq<Invoice.InvoiceInput>): seq<Outcome> {
    seq(|inputs|, i requires 0 <= i < |inputs| => f(inputs[i]))
  }

  lemma {:induction false} MappedSnoc(f: Invoice.InvoiceInput -> Outcome, inputs: seq<Invoice.InvoiceInput>, n: nat)
    requires n < |inputs|
    ensures Mapped(f, inputs[..n + 1]) == Mapped(f, inputs[..n]) + [f(inputs[n])]
  {
  }

  ghost function InvoicePlan(inputs: seq<Invoice.InvoiceInput>): seq<Outcome> {
    Mapped(InvoiceOutcome, inputs)
  }

  function PendingOf(i: Issued): Pending {
    Pending(i.po, Trim(i.po), i.write)
  }

  function Pendings(issues: seq<Issued>): (p: seq<Pending>)
    ensures |p| == |issues| && forall i :: 0 <= i < |issues| ==> p[i] == PendingOf(issues[i])
  {
    seq(|issues|, i requires 0 <= i < |issues| => PendingOf(issues[i]))
  }

  /** The ids the change log is polled for. */
  function Ids(pending: seq<Pending>): set<string> {
    set i | 0 <= i < |pending| :: pending[i].id
  }

  lemma {:induction false} PendingsMore(issues: seq<Issued>, more: seq<Issued>)
    ensures Pendings(issues + more) == Pendings(issues) + Pendings(more)
  {
  }

  /** What ConfirmShipments and ConfirmInvoices ask of the list. */
  predicate Sound(pending: seq<Pending>, invoices: bool) {
    forall i :: 0 <= i < |pending| ==> Plain(pending[i]) && if invoices then pending[i].write.SetInvoice? else pending[i].write.SetTracking?
  }

  /** The list to be confirmed after the batch call is that of the plan. */
  predicate Gathered(plan: seq<Outcome>, pending: seq<Pending>, invoices: bool) {
    pending == Pendings(Issues(plan)) && Sound(pending, invoices)
  }

  lemma {:induction false} GatherOne(plan: seq<Outcome>, pending: seq<Pending>, invoices: bool, o: Outcome)
    requires Gathered(plan, pending, invoices) && Sound(Pendings(More(o)), invoices)
    ensures Gathered(plan + [o], pending + Pendings(More(o)), invoices)
  {
    IssuesSnoc(plan, o);
    PendingsMore(Issues(plan), More(o));
  }

  // ---------------------------------------------------------------- shipping

  /** The loop body of ShipToDSCO. */
  method PrepareOne(store: Store, x: Shipment.ShipInput, up: bool) returns (field: string, more: seq<Pending>)
    modifies store
    ensures FieldFits(x, field) && more == Pendings(More(ShipOutcome(x, field)))
    ensures store.rows == WrittenAtOnce(old(store.rows), ShipOutcome(x, field), up)
  {
    var r := Shipment.PrepareShipment(x);
    match r
    case NotSent(_) =>
      field, more := "", [];
    case AdvanceNow =>
      field, more := "", [];
      AdvanceNotBlank(x);
      var ok := store.UpdateStatus(Trim(x.po), 4, up);
    case Prepared(_, tracking) =>
      field, more := tracking, [Pending(Trim(x.po), Trim(x.po), SetTracking(4, tracking))];
  }

  lemma {:induction false} AdvanceNotBlank(x: Shipment.ShipInput)
    requires Shipment.ShipDecision(x).Advance?
    ensures Trim(x.po) != ""
  {
  }

  lemma {:induction false} ShipOutcomeIsSound(x: Shipment.ShipInput, field: string)
    ensures Sound(Pendings(More(ShipOutcome(x, field))), false)
  {
  }

  lemma {:induction false} ShipPlanNext(inputs: seq<Shipment.ShipInput>, n: nat, fields: seq<string>, field: string)
    requires |fields| == n < |inputs|
    ensures ShipPlan(inputs[..n + 1], fields + [field]) == ShipPlan(inputs[..n], fields) + [ShipOutcome(inputs[n], field)]
  {
    ZippedSnoc(ShipOutcome, inputs, n, fields, field);
  }

  /** Each field fits its row. */
  predicate AllFit(inputs: seq<Shipment.ShipInput>, fields: seq<string>) {
    AllBy(FieldFits, inputs, fields)
  }

  predicate AllBy(fits: (Shipment.ShipInput, string) -> bool, inputs: seq<Shipment.ShipInput>, fields: seq<string>) {
    |fields| == |inputs| && forall i :: 0 <= i < |inputs| ==> fits(inputs[i], fields[i])
  }

  /** The plan has been followed so far, and the table was `rows` before. */
  predicate Followed(rows: Rows, plan: seq<Outcome>, down: set<nat>, pending: seq<Pending>, now: Rows) {
    Gathered(plan, pending, false) && now == AtOnceRows(rows, plan, down)
  }

  lemma {:induction false} OutcomeNext(rows: Rows, plan: seq<Outcome>, down: set<nat>, pending: seq<Pending>, now: Rows, o: Outcome)
    requires Followed(rows, plan, down, pending, now) && Sound(Pendings(More(o)), false)
    ensures Followed(rows, plan + [o], down, pending + Pendings(More(o)), WrittenAtOnce(now, o, |plan| !in down))
  {
    GatherOne(plan, pending, false, o);
    AtOnceSnoc(rows, plan, o, down);
  }

  /** The first n rows have been prepared, and the table was `rows` before. */
  predicate PreparedTo(rows: Rows, inputs: seq<Shipment.ShipInput>, n: nat, down: set<nat>, fields: seq<string>, pending: seq<Pending>,
                       now: Rows)
    requires n <= |inputs|
  {
    AllFit(inputs[..n], fields) && Followed(rows, ShipPlan(inputs[..n], fields), down, pending, now)
  }

  lemma {:induction false} NonePrepared(rows: Rows, inputs: seq<Shipment.ShipInput>, down: set<nat>)
    ensures PreparedTo(rows, inputs, 0, down, [], [], rows)
  {
  }

  lemma {:induction false} PreparedNext(rows: Rows, inputs: seq<Shipment.ShipInput>, n: nat, down: set<nat>, fields: seq<string>,
                                        pending: seq<Pending>, now: Rows, field: string)
    requires n < |inputs| && PreparedTo(rows, inputs, n, down, fields, pending, now)
    requires FieldFits(inputs[n], field)
    ensures var o := ShipOutcome(inputs[n], field);
            PreparedTo(rows, inputs, n + 1, down, fields + [field], pending + Pendings(More(o)), WrittenAtOnce(now, o, n !in down))
  {
    var plan, o := ShipPlan(inputs[..n], fields), ShipOutcome(inputs[n], field);
    ShipPlanNext(inputs, n, fields, field);
    ShipOutcomeIsSound(inputs[n], field);
    OutcomeNext(rows, plan, down, pending, now, o);
    FitNext(FieldFits, inputs, n, fields, field);
  }

  lemma {:induction false} FitNext(fits: (Shipment.ShipInput, string) -> bool, inputs: seq<Shipment.ShipInput>, n: nat,
                                   fields: seq<string>, field: string)
    requires n < |inputs| && AllBy(fits, inputs[..n], fields) && fits(inputs[n], field)
    ensures AllBy(fits, inputs[..n + 1], fields + [field])
  {
  }

  /** The loop of ShipToDSCO over the selected rows. */
  method PrepareShipments(store: Store, inputs: seq<Shipment.ShipInput>, down: set<nat>) returns (fields: seq<string>,
                          pending: seq<Pending>)
    modifies store
    ensures PreparedTo(old(store.rows), inputs, |inputs|, down, fields, pending, store.rows)
  {
    fields, pending := [], [];
    NonePrepared(store.rows, inputs, down);
    for n := 0 to |inputs|
      invariant PreparedTo(old(store.rows), inputs, n, down, fields, pending, store.rows)
    {
      ghost var now := store.rows;
      var field, more := PrepareOne(store, inputs[n], n !in down);
      PreparedNext(old(store.rows), inputs, n, down, fields, pending, now, field);
      fields, pending := fields + [field], pending + more;
    }
  }

  /** The rows a whole run leaves. */
  function ShipRows(rows: Rows, inputs: seq<Shipment.ShipInput>, fields: seq<string>, down: set<nat>, answered: bool,
                    entries: seq<ChangeLog.Entry>, later: set<nat>): Rows
    requires |fields| == |inputs|
  {
    var plan := ShipPlan(inputs, fields);
    var pending, before := Pendings(Issues(plan)), AtOnceRows(rows, plan, down);
    if !answered then before
    else After(before, pending, ChangeLog.NoteAll(ChangeLog.FailureWins, entries, Ids(pending)), later, |pending|)
  }

  /**
   ShipToDSCO: `answered` is whether the batch call succeeded, `entries` what its change log shows, `down`
   and `later` the positions at which the updates before and after the call fail.
   */
  method ShipToDSCO(store: Store, inputs: seq<Shipment.ShipInput>, down: set<nat>, answered: bool, entries: seq<ChangeLog.Entry>,
                    later: set<nat>)
    returns (fields: seq<string>)
    modifies store
    ensures AllFit(inputs, fields)
    ensures store.rows == ShipRows(old(store.rows), inputs, fields, down, answered, entries, later)
  {
    var pending;
    fields, pending := PrepareShipments(store, inputs, down);
    assert inputs[..|inputs|] == inputs;
    if |pending| == 0 || !answered {
      return;
    }
    var verdicts := ChangeLog.NoteAll(ChangeLog.FailureWins, entries, Ids(pending));
    var okCount, skip, fail := ConfirmShipments(store, pending, verdicts, later);
  }

  // ---------------------------------------------------------------- invoicing

  ghost predicate InvoicedTo(inputs: seq<Invoice.InvoiceInput>, n: nat, pending: seq<Pending>)
    requires n <= |inputs|
  {
    Gathered(InvoicePlan(inputs[..n]), pending, true)
  }

  lemma {:induction false} NoneInvoiced(inputs: seq<Invoice.InvoiceInput>)
    ensures InvoicedTo(inputs, 0, [])
  {
  }

  lemma {:induction false} InvoicePlanNext(inputs: seq<Invoice.InvoiceInput>, n: nat)
    requires n < |inputs|
    ensures InvoicePlan(inputs[..n + 1]) == InvoicePlan(inputs[..n]) + [InvoiceOutcome(inputs[n])]
  {
    MappedSnoc(InvoiceOutcome, inputs, n);
  }

  lemma {:induction false} InvoiceOutcomeIsSound(x: Invoice.InvoiceInput)
    ensures Sound(Pendings(More(InvoiceOutcome(x))), true)
  {
  }

  lemma {:induction false} InvoicedNext(inputs: seq<Invoice.InvoiceInput>, n: nat, pending: seq<Pending>, more: seq<Pending>)
    requires n < |inputs| && InvoicedTo(inputs, n, pending) && more == Pendings(More(InvoiceOutcome(inputs[n])))
    ensures InvoicedTo(inputs, n + 1, pending + more)
  {
    InvoicePlanNext(inputs, n);
    InvoiceOutcomeIsSound(inputs[n]);
    GatherOne(InvoicePlan(inputs[..n]), pending, true, InvoiceOutcome(inputs[n]));
  }

  /** The loop of InvoiceToDSCO over the selected rows. */
  method PrepareInvoices(inputs: seq<Invoice.InvoiceInput>) returns (pending: seq<Pending>)
    ensures InvoicedTo(inputs, |inputs|, pending)
  {
    pending := [];
    NoneInvoiced(inputs);
    for n := 0 to |inputs|
      invariant InvoicedTo(inputs, n, pending)
    {
      var more := PrepareOneInvoice(inputs[n]);
      InvoicedNext(inputs, n, pending, more);
      pending := pending + more;
    }
  }

  /** The loop body of InvoiceToDSCO. */
  method PrepareOneInvoice(x: Invoice.InvoiceInput) returns (more: seq<Pending>)
    ensures more == Pendings(More(InvoiceOutcome(x)))
  {
    var d := Invoice.PrepareInvoice(x);
    more := if d.Send? then [Pending(Trim(x.po), Trim(x.po), SetInvoice(5, Trim(x.po)))] else [];
  }

  /** The change log's last word, or visibility where it has none. */
  function InvoiceVerdicts(entries: seq<ChangeLog.Entry>, visible: set<string>, ids: set<string>): map<string, bool> {
    var result := ChangeLog.NoteAll(ChangeLog.LastWins, entries, ids);
    map id | id in ids :: ChangeLog.Confirmed(result, visible, id)
  }

  ghost function InvoiceRows(rows: Rows, inputs: seq<Invoice.InvoiceInput>, answered: bool, entries: seq<ChangeLog.Entry>,
                             visible: set<string>,
                             later: set<nat>): Rows
  {
    var pending := Pendings(Issues(InvoicePlan(inputs)));
    if !answered then rows else After(rows, pending, InvoiceVerdicts(entries, visible, Ids(pending)), later, |pending|)
  }

  /** InvoiceToDSCO, likewise; `visible` are the invoices that a lookup finds. */
  method InvoiceToDSCO(store: Store, inputs: seq<Invoice.InvoiceInput>, answered: bool, entries: seq<ChangeLog.Entry>, visible: set<string>,
                       later: set<nat>)
    modifies store
    ensures store.rows == InvoiceRows(old(store.rows), inputs, answered, entries, visible, later)
  {
    var pending := PrepareInvoices(inputs);
    assert inputs[..|inputs|] == inputs;
    if |pending| == 0 || !answered {
      return;
    }
    var okCount, fail := ConfirmInvoices(store, pending, InvoiceVerdicts(entries, visible, Ids(pending)), later);
  }
}
