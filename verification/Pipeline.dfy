/**
 The order pipeline as a concurrent protocol.

 Four jobs move a row from status 1 to 5: push (1 to 2), ack (2 to 3), ship (3 to 4) and invoice
 (4 to 5). Any number of processes start runs of them; every run holds its job's advisory lock,
 selects rows by status, talks to LingXing and DSCO, and writes back blindly by PO number. A
 step is one statement or one remote call, so runs interleave freely, and any call or write may
 fail and any run may crash between two steps.
 */
module Pipeline {
  import opened Text
  import opened Orders
  import opened OrderStore
  import opened Tracking
  import Locking = AdvisoryLock
  import Shipment
  import Invoice
  import ChangeLog
  import Mskus

  datatype Job = PushJob | AckJob | ShipJob | InvoiceJob

  /** The status a job selects; it writes the next one. */
  function Source(job: Job): int {
    match job
    case PushJob => 1
    case AckJob => 2
    case ShipJob => 3
    case InvoiceJob => 4
  }

  /** The hashed lock keys; nothing keeps two jobs from sharing one. */
  datatype Keys = Keys(push: int, ack: int, ship: int, invoice: int)

  function KeyOf(keys: Keys, job: Job): int {
    match job
    case PushJob => keys.push
    case AckJob => keys.ack
    case ShipJob => keys.ship
    case InvoiceJob => keys.invoice
  }

  // ---------------------------------------------------------------- a run of a job

  /** What a write rests on. */
  datatype Basis =
    | OnLingXing
    | OnDsco
    | OnAck(statuses: seq<int>)
    | OnShip(ship: Shipment.ShipInput)
    | OnInvoice(invoice: Invoice.InvoiceInput)

  /** A prepared write: the key handed to the store, which is not always the key of the row it was prepared for. */
  datatype Issued = Issued(po: string, write: Write, basis: Basis)

  datatype Stage = Fresh | Selected | Collecting | Sent | Settled

  /**
   `todo` maps the selected rows still to be looked at to what the query returned, `batch` are
   the orders prepared for the batch call, `ready` the writes that may now be made.
   */
  datatype Task = Task(
    job: Job,
    stage: Stage,
    todo: Rows,
    existing: set<string>,
    batch: map<string, Issued>,
    ready: map<string, Issued>,
    entries: seq<ChangeLog.Entry>,
    visible: set<string>)

  function NewTask(job: Job): Task {
    Task(job, Fresh, map[], {}, map[], map[], [], {})
  }

  datatype TaskAct =
    | Select(picked: set<string>)
    | Query(found: set<string>)
    | Drop(row: string)
    | FoundExisting(row: string)
    | Create(row: string, effect: bool, accepted: bool)
    | SeenConfirmed(row: string)
    | JoinAck(row: string, statuses: seq<int>)
    | JoinShip(row: string, ship: Shipment.ShipInput, tracking: string)
    | JoinInvoice(row: string, invoice: Invoice.InvoiceInput)
    | Send(arrived: bool, answered: bool)
    | Verdicts(entries: seq<ChangeLog.Entry>, visible: set<string>)
    | WriteBack(row: string, up: bool)

  // ---------------------------------------------------------------- the world

  /**
   Beside the locks, the runs and the rows: how often LingXing holds each PO, the POs that an arrived call
   asked DSCO to acknowledge, those DSCO has reported as acknowledged or beyond, and the outbound orders.
   */
  datatype World = World(
    keys: Keys,
    reverse: map<string, string>,
    locks: Locking.Locks,
    tasks: map<Locking.RunId, Task>,
    rows: Rows,
    created: map<string, nat>,
    asked: set<string>,
    confirmed: set<string>,
    outbound: map<string, seq<Outbound>>)

  datatype Action =
    | Begin(run: Locking.RunId, job: Job, session: Locking.Session, reply: Locking.Reply)
    | Finish(run: Locking.RunId, reply: Locking.Reply)
    | Crash(run: Locking.RunId)
    | Open(session: Locking.Session)
    | Die(session: Locking.Session)
    | Do(run: Locking.RunId, act: TaskAct)
    | Pull(order: Order, dscoStatus: string, createTime: int)
    | DscoConfirms(po: string)
    | Ships(po: string, outbound: seq<Outbound>)

  predicate Initial(w: World) {
    && w.locks == Locking.INIT && w.tasks == map[] && w.rows == map[]
    && w.created == map[] && w.asked == {} && w.confirmed == {} && w.outbound == map[]
  }

  /** How many orders LingXing holds for this PO. */
  function Created(created: map<string, nat>, po: string): nat {
    if po in created then created[po] else 0
  }

  function OutboundOf(outbound: map<string, seq<Outbound>>, po: string): seq<Outbound> {
    if po in outbound then outbound[po] else []
  }

  // ---------------------------------------------------------------- guards

  const PENDING_SHIPMENT := 5
  const SHIPPED := 6

  /** Every LingXing sub-order of the PO is pending shipment or shipped, and there is one. */
  predicate DetailsReady(statuses: seq<int>) {
    statuses != [] && forall i :: 0 <= i < |statuses| ==> statuses[i] == PENDING_SHIPMENT || statuses[i] == SHIPPED
  }

  method ReadyToAck(statuses: seq<int>) returns (ready: bool)
    ensures ready <==> DetailsReady(statuses)
    ensures ready <==> |statuses| > 0 && forall i :: 0 <= i < |statuses| ==> statuses[i] == 5 || statuses[i] == 6
  {
    if |statuses| == 0 {
      return false;
    }
    ready := true;
    for i := 0 to |statuses|
      invariant ready <==> forall j :: 0 <= j < i ==> statuses[j] == PENDING_SHIPMENT || statuses[j] == SHIPPED
    {
      if statuses[i] != PENDING_SHIPMENT && statuses[i] != SHIPPED {
        ready := false;
      }
    }
  }

  /** One answer per chunk of the order list, or, when the list call failed, one per PO of the chunk. */
  datatype ListReply = Listed(found: set<string>) | Single(answers: map<string, bool>)

  /** The answer shows the PO to exist: the list names it, or its single lookup found it. */
  predicate Finds(r: ListReply, po: string) {
    match r
    case Listed(found) => po in found && po != ""
    case Single(answers) => po in answers && answers[po]
  }

  /** The existence check of PushToLingXing, `replies` being the answers to its chunks. */
  method CheckExisting(replies: seq<ListReply>) returns (existing: set<string>)
    ensures forall po :: po in existing <==> exists i :: 0 <= i < |replies| && Finds(replies[i], po)
  {
    existing := {};
    for i := 0 to |replies|
      invariant forall po :: po in existing <==> exists j :: 0 <= j < i && Finds(replies[j], po)
    {
      match replies[i]
      case Listed(found) => existing := existing + (found - {""});
      case Single(answers) => existing := existing + set po | po in answers && answers[po];
    }
  }

  /** The row's own fields, a current list of outbound orders (or part of it), and anything DSCO may answer. */
  predicate ShipInputFor(w: World, row: string, snapshot: Row, x: Shipment.ShipInput) {
    && x.po == row
    && x.localTracking == snapshot.tracking
    && x.mskus == snapshot.mskus
    && x.payload == snapshot.payload
    && x.reverse == w.reverse
    && (x.outbound.Some? ==> multiset(x.outbound.value) <= multiset(OutboundOf(w.outbound, row)))
  }

  predicate InvoiceInputFor(w: World, row: string, snapshot: Row, x: Invoice.InvoiceInput) {
    && x.po == row
    && x.localInvoiceId == snapshot.invoiceId
    && x.mskus == snapshot.mskus
    && x.payload == snapshot.payload
    && x.reverse == w.reverse
    && (x.outbound.Some? ==> multiset(x.outbound.value) <= multiset(OutboundOf(w.outbound, row)))
  }

  ghost predicate CanDo(w: World, t: Task, a: TaskAct) {
    match a
    case Select(picked) => t.stage == Fresh && picked <= WithStatus(w.rows, Source(t.job))
    case Query(found) => t.stage == Selected && forall po :: po in found ==> Created(w.created, po) >= 1
    case Drop(k) => t.stage == Collecting && k in t.todo
    case FoundExisting(k) => t.stage == Collecting && t.job == PushJob && k in t.todo && Trim(k) in t.existing
    case Create(k, effect, accepted) =>
      t.stage == Collecting && t.job == PushJob && k in t.todo && Trim(k) !in t.existing && t.todo[k].payload.Some? && (accepted ==> effect)
    case SeenConfirmed(k) => t.stage == Collecting && t.job == AckJob && k in t.todo && Trim(k) in w.confirmed
    case JoinAck(k, statuses) => t.stage == Collecting && t.job == AckJob && k in t.todo && Trim(k) != "" && DetailsReady(statuses)
    case JoinShip(k, x, tracking) =>
      && t.stage == Collecting && t.job == ShipJob && k in t.todo && ShipInputFor(w, k, t.todo[k], x)
      && var d := Shipment.ShipDecision(x);
         d.Advance? || (d.Send? && TokenSet(tracking) == FieldSet(d.record))
    case JoinInvoice(k, x) =>
      t.stage == Collecting && t.job == InvoiceJob && k in t.todo && InvoiceInputFor(w, k, t.todo[k], x) && Invoice.InvoiceDecision(x).Send?
    case Send(arrived, answered) =>
      (answered ==> arrived) && t.stage == Collecting && t.job != PushJob && t.todo == map[] && t.ready == map[] && t.batch != map[]
    case Verdicts(_, _) => t.stage == Sent && (t.job == ShipJob || t.job == InvoiceJob)
    case WriteBack(k, _) => k in t.ready
  }

  /** The ids the change log is polled for. */
  function Wanted(batch: map<string, Issued>): set<string> {
    set k | k in batch :: Trim(batch[k].po)
  }

  /** Shipments need a success and no failure; invoices a last success, or to be visible when nothing was decided. */
  predicate Accepted(t: Task, entries: seq<ChangeLog.Entry>, visible: set<string>, id: string) {
    if t.job == ShipJob then
      var v := ChangeLog.NoteAll(ChangeLog.FailureWins, entries, Wanted(t.batch));
      id in v && v[id]
    else
      ChangeLog.Confirmed(ChangeLog.NoteAll(ChangeLog.LastWins, entries, Wanted(t.batch)), visible, id)
  }

  // ---------------------------------------------------------------- steps

  function Prepare(k: string, snapshot: Row, a: TaskAct): Issued
    requires a.Create? ==> snapshot.payload.Some?
  {
    match a
    case FoundExisting(_) => Issued(Trim(k), SetFields(2, "", ""), OnLingXing)
    case Create(_, _, _) => Issued(snapshot.payload.value.poNumber, SetFields(2, "", ""), OnLingXing)
    case SeenConfirmed(_) => Issued(Trim(k), SetFields(3, "", ""), OnDsco)
    case JoinAck(_, statuses) => Issued(Trim(k), SetFields(3, "", ""), OnAck(statuses))
    case JoinShip(_, x, tracking) =>
      Issued(Trim(k), if Shipment.ShipDecision(x).Advance? then SetStatus(4) else SetTracking(4, tracking), OnShip(x))
    case JoinInvoice(_, x) => Issued(Trim(k), SetInvoice(5, Trim(k)), OnInvoice(x))
    case _ => Issued("", SetStatus(0), OnDsco)
  }

  /** Prepared for the batch call, rather than for an immediate write. */
  predicate Batches(a: TaskAct) {
    a.JoinAck? || a.JoinInvoice? || (a.JoinShip? && !Shipment.ShipDecision(a.ship).Advance?)
  }

  predicate Joins(a: TaskAct) {
    a.FoundExisting? || (a.Create? && a.accepted) || a.SeenConfirmed? || a.JoinAck? || a.JoinShip? || a.JoinInvoice?
  }

  /** The step looks at one selected row. */
  predicate LooksAt(t: Task, a: TaskAct) {
    && (a.Drop? || a.FoundExisting? || a.Create? || a.SeenConfirmed? || a.JoinAck? || a.JoinShip? || a.JoinInvoice?)
    && a.row in t.todo
    && (a.Create? ==> t.todo[a.row].payload.Some?)
  }

  function AfterRow(t: Task, a: TaskAct): Task
    requires LooksAt(t, a)
  {
    var rest := t.todo - {a.row};
    if !Joins(a) then t.(todo := rest)
    else if Batches(a) then t.(todo := rest, batch := t.batch[a.row := Prepare(a.row, t.todo[a.row], a)])
    else t.(todo := rest, ready := t.ready[a.row := Prepare(a.row, t.todo[a.row], a)])
  }

  ghost function TaskAfter(w: World, t: Task, a: TaskAct): Task
    requires CanDo(w, t, a)
  {
    match a
    case Select(picked) =>
      t.(stage := if t.job == PushJob then Selected else Collecting, todo := map k | k in picked :: w.rows[k])
    case Query(found) => t.(stage := Collecting, existing := found)
    case Send(_, answered) =>
      if !answered then t.(stage := Settled, batch := map[])
      else if t.job == AckJob then t.(stage := Settled, ready := t.batch, batch := map[])
      else t.(stage := Sent)
    case Verdicts(entries, visible) =>
      t.(stage := Settled, ready := map k | k in t.batch && Accepted(t, entries, visible, Trim(t.batch[k].po)) :: t.batch[k],
         batch := map[], entries := entries, visible := visible)
    case WriteBack(k, _) => t.(ready := t.ready - {k})
    case _ => AfterRow(t, a)
  }

  ghost function RowsAfter(w: World, t: Task, a: TaskAct): Rows
    requires CanDo(w, t, a)
  {
    if a.WriteBack? && a.up then Written(w.rows, t.ready[a.row].po, t.ready[a.row].write) else w.rows
  }

  ghost function CreatedAfter(w: World, t: Task, a: TaskAct): map<string, nat>
    requires CanDo(w, t, a)
  {
    if a.Create? && a.effect then
      var po := t.todo[a.row].payload.value.poNumber;
      w.created[po := Created(w.created, po) + 1]
    else w.created
  }

  /** An acknowledgement that arrives is only a request: DSCO decides on it later. */
  ghost function AskedAfter(w: World, t: Task, a: TaskAct): set<string>
    requires CanDo(w, t, a)
  {
    if a.Send? && a.arrived && t.job == AckJob then w.asked + Wanted(t.batch) else w.asked
  }

  /** dscoStatusToSyncStatus, with 1 for an empty or unknown status. */
  function EntryStatus(dscoStatus: string): (st: int)
    ensures st == 1 || st == 5 || st == 6
    ensures st == 5 <==> ChangeLog.SameLetters(Trim(dscoStatus), "shipped")
    ensures st == 6 <==> ChangeLog.SameLetters(Trim(dscoStatus), "cancelled")
  {
    ChangeLog.LowerEqualsIff(Trim(dscoStatus), "shipped");
    ChangeLog.LowerEqualsIff(Trim(dscoStatus), "cancelled");
    var s := ChangeLog.Lower(Trim(dscoStatus));
    if s == "shipped" then 5 else if s == "cancelled" then 6 else 1
  }

  /** The row a pulled order enters with. */
  function EntryRow(order: Order, dscoStatus: string, createTime: int): Row {
    Row(createTime, Some(order), EntryStatus(dscoStatus), "", "", Mskus.Tokens(order.lines))
  }

  /** What an action asks of the lock server and the session pool. */
  function LockAction(w: World, a: Action): Option<Locking.Action> {
    match a
    case Begin(r, job, s, reply) => Some(Locking.Acquire(r, KeyOf(w.keys, job), s, reply))
    case Finish(r, reply) => Some(Locking.Release(r, reply))
    case Crash(r) => Some(Locking.Crash(r))
    case Open(s) => Some(Locking.Open(s))
    case Die(s) => Some(Locking.Die(s))
    case _ => None
  }

  ghost predicate Enabled(w: World, a: Action) {
    if LockAction(w, a).Some? then Locking.Enabled(w.locks, LockAction(w, a).value)
    else
      match a
      case Do(r, act) => r in w.tasks && CanDo(w, w.tasks[r], act)
      case Pull(order, _, _) => Trim(order.poNumber) != "" && order.poNumber !in w.rows
      case Ships(po, list) => multiset(OutboundOf(w.outbound, po)) <= multiset(list)
      case _ => true
  }

  function TasksAfterLock(w: World, a: Action, locks: Locking.Locks): map<Locking.RunId, Task> {
    match a
    case Begin(r, job, _, _) => if r in locks.runs && r !in w.tasks then w.tasks[r := NewTask(job)] else w.tasks
    case Finish(r, _) => w.tasks - {r}
    case Crash(r) => w.tasks - {r}
    case _ => w.tasks
  }

  ghost function AfterDo(w: World, r: Locking.RunId, act: TaskAct): World
    requires r in w.tasks && CanDo(w, w.tasks[r], act)
  {
    var t := w.tasks[r];
    w.(tasks := w.tasks[r := TaskAfter(w, t, act)], rows := RowsAfter(w, t, act),
       created := CreatedAfter(w, t, act), asked := AskedAfter(w, t, act))
  }

  function AfterPull(w: World, order: Order, dscoStatus: string, createTime: int): World {
    w.(rows := w.rows[order.poNumber := EntryRow(order, dscoStatus, createTime)])
  }

  function AfterLock(w: World, a: Action, locks: Locking.Locks): World {
    w.(locks := locks, tasks := TasksAfterLock(w, a, locks))
  }

  ghost function Next(w: World, a: Action): World
    requires Enabled(w, a)
  {
    if LockAction(w, a).Some? then AfterLock(w, a, Locking.Next(w.locks, LockAction(w, a).value))
    else
      match a
      case Do(r, act) => AfterDo(w, r, act)
      case Pull(order, st, time) => AfterPull(w, order, st, time)
      case DscoConfirms(po) => w.(confirmed := w.confirmed + {po})
      case Ships(po, list) => w.(outbound := w.outbound[po := list])
      case _ => w
  }

  /** A run of the whole system: the state before each action and after the last. */
  ghost predicate Schedule(states: seq<World>, actions: seq<Action>) {
    && |states| == |actions| + 1
    && Initial(states[0])
    && forall i {:trigger actions[i]} :: 0 <= i < |actions| ==>
         Enabled(states[i], actions[i]) && states[i + 1] == Next(states[i], actions[i])
  }

  /** Every PO number came in without surrounding white space. */
  predicate TrimmedKeys(w: World) {
    forall k :: k in w.rows ==> Trimmed(k)
  }

  /** No other row has the key that k is trimmed to. */
  predicate Lone(rows: Rows, k: string) {
    Trimmed(k) || Trim(k) !in rows
  }

  predicate NoTwins(rows: Rows) {
    forall k :: k in rows ==> Lone(rows, k)
  }
}
