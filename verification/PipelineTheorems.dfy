/**
 The main results about whole runs of the pipeline: statuses only rise, one at a time; what a
 status proves about the remote systems; what every shipment and invoice write rests on; and
 when LingXing gets an order twice.
 */
module PipelineTheorems {
  import opened Text
  import opened Orders
  import opened OrderStore
  import opened Pipeline
  import opened PipelineSafety
  import opened Tracking
  import Locking = AdvisoryLock
  import Shipment
  import Invoice
  import ChangeLog

  // ---------------------------------------------------------------- statuses

  /** The row is the same, or has moved one status forward by the write w of a job whose source status it had. */
  predicate OneForward(before: Row, after: Row, job: Job, w: Write) {
    && before.status == Source(job)
    && after == Updated(before, w)
    && after.status == before.status + 1
  }

  lemma WroteIsForward(rows: Rows, after: Rows, job: Job, written: string, i: Issued, k: string)
    requires written in rows && k in rows && Wrote(rows, after, job, written, i)
    ensures k in after && (after[k] == rows[k] || (k == written && Lands(k, i) && OneForward(rows[k], after[k], job, i.write)))
  {
  }

  /** The action writes row k for the run that owns it, and moves it one status forward. */
  predicate Moves(w: World, a: Action, k: string, after: Row)
    requires k in w.rows
  {
    && a.Do? && a.act.WriteBack? && a.act.row == k
    && a.run in w.tasks && k in w.tasks[a.run].ready && Lands(k, w.tasks[a.run].ready[k])
    && OneForward(w.rows[k], after, w.tasks[a.run].job, w.tasks[a.run].ready[k].write)
  }

  lemma DoIsOneForward(w: World, r: Locking.RunId, act: TaskAct, k: string)
    requires Inv(w) && r in w.tasks && CanDo(w, w.tasks[r], act) && k in w.rows
    ensures var rows := RowsAfter(w, w.tasks[r], act);
            k in rows && (rows[k] == w.rows[k] || Moves(w, Do(r, act), k, rows[k]))
  {
    if act.WriteBack? {
      var t := w.tasks[r];
      WroteRows(w, t, act);
      WroteIsForward(w.rows, RowsAfter(w, t, act), t.job, act.row, t.ready[act.row], k);
    }
  }

  /** Any step leaves a row alone, or is the write of its owner and raises the status by exactly one. */
  lemma EveryStepIsOneForward(w: World, a: Action, k: string)
    requires Inv(w) && Enabled(w, a) && k in w.rows
    ensures k in Next(w, a).rows && (Next(w, a).rows[k] == w.rows[k] || Moves(w, a, k, Next(w, a).rows[k]))
  {
    if a.Do? {
      DoIsOneForward(w, a.run, a.act, k);
    }
  }

  /** What a later state may say of the same order: no lower status, the same payload, and nothing new once it is 5 or 6. */
  predicate Later(before: Row, after: Row) {
    && before.status <= after.status
    && before.payload == after.payload && before.mskus == after.mskus
    && (before.status >= 5 ==> after == before)
  }

  lemma ForwardIsLater(before: Row, after: Row, job: Job, w: Write)
    requires OneForward(before, after, job, w)
    ensures Later(before, after)
  {
  }

  lemma StepIsLater(w: World, a: Action, k: string)
    requires Inv(w) && Enabled(w, a) && k in w.rows
    ensures k in Next(w, a).rows && Later(w.rows[k], Next(w, a).rows[k])
  {
    EveryStepIsOneForward(w, a, k);
    if Next(w, a).rows[k] != w.rows[k] {
      ForwardIsLater(w.rows[k], Next(w, a).rows[k], w.tasks[a.run].job, w.tasks[a.run].ready[k].write);
    }
  }

  lemma ReachableLater(states: seq<World>, actions: seq<Action>, n: nat, k: string)
    requires Schedule(states, actions) && n < |actions| && NoTwins(states[n].rows) && k in states[n].rows
    ensures k in states[n + 1].rows && Later(states[n].rows[k], states[n + 1].rows[k])
  {
    ScheduleInv(states, actions, n);
    StepIsLater(states[n], actions[n], k);
  }

  lemma LaterAgain(a: Row, b: Row, c: Row)
    requires Later(a, b) && Later(b, c)
    ensures Later(a, c)
  {
  }

  /** Along any run without twins statuses never fall, the order itself never changes, and rows at 5 and 6 are final. */
  lemma {:induction false} StatusOnlyRises(states: seq<World>, actions: seq<Action>, i: nat, j: nat, k: string)
    requires Schedule(states, actions) && i <= j < |states| && k in states[i].rows
    requires NoTwins(states[j].rows)
    ensures k in states[j].rows && Later(states[i].rows[k], states[j].rows[k])
    decreases j
  {
    if i < j {
      NoTwinsBefore(states[j - 1], actions[j - 1]);
      StatusOnlyRises(states, actions, i, j - 1, k);
      ReachableLater(states, actions, j - 1, k);
      LaterAgain(states[i].rows[k], states[j - 1].rows[k], states[j].rows[k]);
    }
  }

  /** Whatever a running job still has to write is where the job selected it, and what it has read of it is current. */
  lemma OwnershipHolds(states: seq<World>, actions: seq<Action>, n: nat, r: Locking.RunId, k: string)
    requires Schedule(states, actions) && n < |states| && r in states[n].tasks && Owns(states[n].tasks[r], k)
    requires NoTwins(states[n].rows)
    ensures var w, t := states[n], states[n].tasks[r];
            && k in w.rows && w.rows[k].status == Source(t.job)
            && (k in t.todo ==> t.todo[k] == w.rows[k])
            && forall q :: q in w.tasks && q != r ==> !Owns(w.tasks[q], k)
  {
    ScheduleInv(states, actions, n);
    var w, t := states[n], states[n].tasks[r];
    assert TaskOwned(w.rows, t);
    forall q | q in w.tasks && q != r ensures !Owns(w.tasks[q], k) {
      OwnedOnce(w, r, q, k);
    }
  }

  lemma StatusStep(w: World, a: Action, k: string)
    requires Inv(w) && Enabled(w, a) && k in w.rows
    ensures k in Next(w, a).rows && w.rows[k].status <= Next(w, a).rows[k].status <= w.rows[k].status + 1
  {
    EveryStepIsOneForward(w, a, k);
  }

  lemma ReachableStep(states: seq<World>, actions: seq<Action>, n: nat, k: string)
    requires Schedule(states, actions) && n < |actions| && k in states[n].rows
    requires NoTwins(states[n].rows)
    ensures k in states[n + 1].rows && states[n].rows[k].status <= states[n + 1].rows[k].status <= states[n].rows[k].status + 1
  {
    ScheduleInv(states, actions, n);
    StatusStep(states[n], actions[n], k);
  }

  /** A level that a sequence climbing in steps of at most one passes is left in one step. */
  lemma {:induction false} LevelLeft(st: seq<int>, i: nat, j: nat, level: int) returns (n: nat)
    requires i <= j < |st| && st[i] <= level < st[j]
    requires forall m :: i <= m < j ==> st[m + 1] <= st[m] + 1
    ensures i <= n < j && st[n] == level && st[n + 1] == level + 1
    decreases j
  {
    if st[j - 1] > level {
      n := LevelLeft(st, i, j - 1, level);
    } else {
      n := j - 1;
      assert st[n + 1] <= st[n] + 1;
    }
  }

  function StatusOf(w: World, k: string): int {
    if k in w.rows then w.rows[k].status else 0
  }

  function Statuses(states: seq<World>, k: string): (st: seq<int>)
    ensures |st| == |states| && forall n :: 0 <= n < |states| ==> st[n] == StatusOf(states[n], k)
  {
    seq(|states|, n requires 0 <= n < |states| => StatusOf(states[n], k))
  }

  lemma ClimbsByOne(states: seq<World>, actions: seq<Action>, i: nat, n: nat, k: string)
    requires Schedule(states, actions) && i <= n < |actions| && k in states[i].rows
    requires NoTwins(states[n].rows)
    ensures k in states[n].rows && StatusOf(states[n + 1], k) <= StatusOf(states[n], k) + 1
  {
    StatusOnlyRises(states, actions, i, n, k);
    ReachableStep(states, actions, n, k);
  }

  /** And none is skipped: between two statuses of a row every level was left for the next in one step. */
  lemma NoStatusSkipped(states: seq<World>, actions: seq<Action>, i: nat, j: nat, k: string, level: int) returns (n: nat)
    requires Schedule(states, actions) && i <= j < |states| && k in states[i].rows && k in states[j].rows
    requires NoTwins(states[j].rows)
    requires states[i].rows[k].status <= level < states[j].rows[k].status
    ensures i <= n < j && k in states[n].rows && k in states[n + 1].rows
    ensures states[n].rows[k].status == level && states[n + 1].rows[k].status == level + 1
  {
    var st := Statuses(states, k);
    forall m | i <= m < j ensures st[m + 1] <= st[m] + 1 {
      NoTwinsThroughout(states, actions, m, j);
      ClimbsByOne(states, actions, i, m, k);
    }
    n := LevelLeft(st, i, j, level);
    NoTwinsThroughout(states, actions, n, j);
    ClimbsByOne(states, actions, i, n, k);
    RowsStay(states[n], actions[n], k);
  }

  /** Keys that are all trimmed now were all trimmed before. */
  lemma {:induction false} TrimmedThroughout(states: seq<World>, actions: seq<Action>, n: nat)
    requires Schedule(states, actions) && n < |states| && TrimmedKeys(states[n])
    ensures forall i :: 0 <= i <= n ==> TrimmedKeys(states[i])
  {
    if n > 0 {
      forall k | k in states[n - 1].rows ensures Trimmed(k) {
        RowsStay(states[n - 1], actions[n - 1], k);
      }
      TrimmedThroughout(states, actions, n - 1);
    }
  }

  /** The word, in any letter case and with white space around it. */
  predicate Reads(dscoStatus: string, word: string) {
    ChangeLog.SameLetters(Trim(dscoStatus), word)
  }

  /** What the pull makes of a new order: finished as soon as DSCO reports it shipped or cancelled, else to be pushed. */
  lemma EnteredRow(w: World, order: Order, dscoStatus: string, time: int)
    requires Enabled(w, Pull(order, dscoStatus, time))
    ensures var entered := Next(w, Pull(order, dscoStatus, time)).rows[order.poNumber].status;
            entered == if Reads(dscoStatus, "shipped") then 5 else if Reads(dscoStatus, "cancelled") then 6 else 1
  {
  }

  lemma PulledRow(w: World, order: Order, dscoStatus: string, time: int)
    requires Enabled(w, Pull(order, dscoStatus, time))
    ensures var rows := Next(w, Pull(order, dscoStatus, time)).rows;
            order.poNumber in rows && rows[order.poNumber] == EntryRow(order, dscoStatus, time)
  {
  }

  lemma ClaimedBelowFive(rows: Rows, t: Task, k: string)
    requires ClaimsHold(rows, t) && Owns(t, k)
    ensures k in rows && rows[k].status <= 4
  {
    assert Source(t.job) <= 4;
  }

  lemma FinishedUnclaimed(w: World, k: string)
    requires Inv(w) && k in w.rows && w.rows[k].status >= 5
    ensures forall r :: r in w.tasks ==> !Owns(w.tasks[r], k)
  {
    forall r | r in w.tasks && Owns(w.tasks[r], k) ensures false {
      assert TaskOwned(w.rows, w.tasks[r]);
      ClaimedBelowFive(w.rows, w.tasks[r], k);
    }
  }

  /** An order that is finished when it is pulled is never claimed by any run and never changes. */
  lemma FinishedOnEntry(states: seq<World>, actions: seq<Action>, i: nat, j: nat, order: Order, dscoStatus: string, time: int)
    requires Schedule(states, actions) && i < j < |states| && actions[i] == Pull(order, dscoStatus, time)
    requires NoTwins(states[j].rows)
    requires Reads(dscoStatus, "shipped") || Reads(dscoStatus, "cancelled")
    ensures order.poNumber in states[j].rows && states[j].rows[order.poNumber] == EntryRow(order, dscoStatus, time)
    ensures states[j].rows[order.poNumber].status == if Reads(dscoStatus, "shipped") then 5 else 6
    ensures forall r :: r in states[j].tasks ==> !Owns(states[j].tasks[r], order.poNumber)
  {
    EnteredRow(states[i], order, dscoStatus, time);
    PulledRow(states[i], order, dscoStatus, time);
    StatusOnlyRises(states, actions, i + 1, j, order.poNumber);
    ScheduleInv(states, actions, j);
    FinishedUnclaimed(states[j], order.poNumber);
  }

  /** The statuses a job's write lowers when it meets them. */
  function MovedBack(job: Job): set<int> {
    match job
    case PushJob => {3, 4, 5, 6}
    case AckJob => {4, 5, 6}
    case ShipJob => {5, 6}
    case InvoiceJob => {6}
  }

  /**
   The statements compare nothing. Met with any status, a write sets its job's next one: exactly the
   statuses in MovedBack fall, exactly those below the job's source skip a step, and a push or ack write
   also wipes the tracking numbers and the invoice id.
   */
  lemma BlindWriteMovesBackIff(rows: Rows, job: Job, k: string, i: Issued)
    requires IssuedOk(job, k, i) && k in rows && RowOk(k, rows[k]) && Lands(k, i)
    ensures var before, after := rows[k], Written(rows, i.po, i.write)[k];
            && (after.status < before.status <==> before.status in MovedBack(job))
            && (after.status > before.status + 1 <==> 1 <= before.status < Source(job))
            && (job == PushJob || job == AckJob ==> after.tracking == "" && after.invoiceId == "")
            && (job == ShipJob ==> after.invoiceId == before.invoiceId)
            && (job == InvoiceJob ==> after.tracking == before.tracking)
  {
    assert Written(rows, i.po, i.write)[k] == Updated(rows[k], i.write);
  }

  // ---------------------------------------------------------------- keys with white space

  /** The row and the key its writes are prepared with. */
  predicate HitsOwnRow(rows: Rows, a: TaskAct) {
    (Joins(a) && a.row in rows && rows[a.row].payload.Some?) ==>
      Lands(a.row, Prepare(a.row, rows[a.row], a))
  }

  lemma TrimmedLands(rows: Rows, a: TaskAct)
    requires Joins(a) && a.row in rows && RowOk(a.row, rows[a.row]) && Trimmed(a.row)
    ensures HitsOwnRow(rows, a)
  {
    var i := Prepare(a.row, rows[a.row], a);
    assert i.po == a.row;
  }

  lemma LandsOnlyTrimmed(rows: Rows, k: string)
    requires k in rows && rows[k].payload.Some? && HitsOwnRow(rows, SeenConfirmed(k))
    ensures Trimmed(k)
  {
    assert Prepare(k, rows[k], SeenConfirmed(k)).po == Trim(k);
  }

  /** Every write lands on the row it was prepared for if and only if every key is trimmed. */
  lemma WritesLandIff(rows: Rows)
    requires RowsOk(rows)
    ensures (forall a :: HitsOwnRow(rows, a)) <==> forall k :: k in rows ==> Trimmed(k)
  {
    if forall a :: HitsOwnRow(rows, a) {
      forall k | k in rows ensures Trimmed(k) {
        assert RowOk(k, rows[k]);
        LandsOnlyTrimmed(rows, k);
      }
    }
    if forall k :: k in rows ==> Trimmed(k) {
      forall a ensures HitsOwnRow(rows, a) {
        if Joins(a) && a.row in rows {
          assert RowOk(a.row, rows[a.row]);
          TrimmedLands(rows, a);
        }
      }
    }
  }

  /** Otherwise an acknowledged row can be left behind while a finished one falls back to 3. */
  lemma UntrimmedKeyMovesAnotherRow(rows: Rows, k: string)
    requires k in rows && !Trimmed(k) && Trim(k) in rows && rows[Trim(k)].status == 5
    ensures var i := Prepare(k, rows[k], SeenConfirmed(k));
            var after := Written(rows, i.po, i.write);
            after[k] == rows[k] && after[Trim(k)].status == 3
  {
  }

  // ---------------------------------------------------------------- what a shipment or invoice write rests on

  predicate ShipJustified(k: string, i: Issued) {
    && i.basis.OnShip?
    && i.basis.ship.po == k
    && i.basis.ship.localTracking == ""
    && var d := Shipment.ShipDecision(i.basis.ship);
       if i.write.SetStatus? then d.Advance?
       else i.write.SetTracking? && d.Send? && TokenSet(i.write.tracking) == FieldSet(d.record)
  }

  ghost predicate InvoiceJustified(k: string, i: Issued) {
    && i.basis.OnInvoice?
    && i.basis.invoice.po == k
    && i.basis.invoice.localInvoiceId == ""
    && Invoice.InvoiceDecision(i.basis.invoice).Send?
    && i.write == SetInvoice(5, Trim(k))
  }

  predicate ShipConfirmed(entries: seq<ChangeLog.Entry>, k: string) {
    ChangeLog.SaidAfter(entries, k, "success", -1) && !ChangeLog.SaidAfter(entries, k, "failure", -1)
  }

  predicate InvoiceSeen(entries: seq<ChangeLog.Entry>, visible: set<string>, k: string) {
    || ChangeLog.LastSaid(entries, k, "success", "failure")
    || (!ChangeLog.LastSaid(entries, k, "failure", "success") && k in visible)
  }

  ghost predicate BatchOk(job: Job, k: string, i: Issued) {
    && (job == ShipJob ==> ShipJustified(k, i) && i.write.SetTracking?)
    && (job == InvoiceJob ==> InvoiceJustified(k, i))
  }

  /** Writes with a tracking number or an invoice id wait for the verdicts in t. */
  ghost predicate ReadyOk(t: Task, k: string, i: Issued) {
    && (t.job == ShipJob ==> ShipJustified(k, i) && (i.write.SetTracking? ==> t.stage == Settled && ShipConfirmed(t.entries, Trim(k))))
    && (t.job == InvoiceJob ==> InvoiceJustified(k, i) && InvoiceSeen(t.entries, t.visible, Trim(k)))
  }

  ghost predicate TaskJustified(t: Task) {
    && (forall k :: k in t.batch ==> BatchOk(t.job, k, t.batch[k]))
    && (forall k :: k in t.ready ==> ReadyOk(t, k, t.ready[k]))
  }

  lemma AcceptedMeans(t: Task, entries: seq<ChangeLog.Entry>, visible: set<string>, k: string)
    requires TaskForm(t) && k in t.batch && Accepted(t, entries, visible, Trim(t.batch[k].po))
    ensures t.job == ShipJob ==> ShipConfirmed(entries, Trim(k))
    ensures t.job != ShipJob ==> InvoiceSeen(entries, visible, Trim(k))
  {
    assert IssuedOk(t.job, k, t.batch[k]);
    var want, id := Wanted(t.batch), Trim(k);
    assert Trim(t.batch[k].po) == id && id in want;
    if t.job == ShipJob {
      ChangeLog.VerdictMeans(ChangeLog.FailureWins, entries, want, id);
    } else {
      ChangeLog.ConfirmedInvoiceIff(entries, want, visible, id);
    }
  }

  lemma PreparedShip(w: World, t: Task, a: TaskAct)
    requires TaskForm(t) && TaskOwned(w.rows, t) && CanDo(w, t, a) && a.JoinShip?
    ensures ShipJustified(a.row, Prepare(a.row, t.todo[a.row], a))
    ensures Batches(a) <==> Prepare(a.row, t.todo[a.row], a).write.SetTracking?
    ensures !Batches(a) <==> Prepare(a.row, t.todo[a.row], a).write.SetStatus?
  {
    assert Owns(t, a.row);
    assert RowOk(a.row, t.todo[a.row]);
  }

  lemma PreparedInvoice(w: World, t: Task, a: TaskAct)
    requires TaskForm(t) && TaskOwned(w.rows, t) && CanDo(w, t, a) && a.JoinInvoice?
    ensures InvoiceJustified(a.row, Prepare(a.row, t.todo[a.row], a))
  {
    assert Owns(t, a.row);
    assert RowOk(a.row, t.todo[a.row]);
  }

  lemma BatchPut(t: Task, rest: Rows, k: string, i: Issued)
    requires TaskJustified(t) && BatchOk(t.job, k, i)
    ensures TaskJustified(t.(todo := rest, batch := t.batch[k := i]))
  {
    var t' := t.(todo := rest, batch := t.batch[k := i]);
    forall x | x in t'.ready ensures ReadyOk(t', x, t'.ready[x]) {
      assert ReadyOk(t, x, t.ready[x]);
    }
  }

  lemma ReadyPut(t: Task, rest: Rows, k: string, i: Issued)
    requires TaskJustified(t) && ReadyOk(t, k, i)
    ensures TaskJustified(t.(todo := rest, ready := t.ready[k := i]))
  {
    var t' := t.(todo := rest, ready := t.ready[k := i]);
    forall x | x in t'.ready ensures ReadyOk(t', x, t'.ready[x]) {
      assert ReadyOk(t, x, t'.ready[x]);
    }
  }

  lemma RowJustified(w: World, t: Task, a: TaskAct)
    requires TaskJustified(t) && TaskForm(t) && TaskOwned(w.rows, t) && CanDo(w, t, a)
    requires LooksAt(t, a) && JobFits(t, a)
    ensures TaskJustified(AfterRow(t, a))
  {
    if Joins(a) {
      var rest := t.todo - {a.row};
      var i := Prepare(a.row, t.todo[a.row], a);
      if a.JoinShip? {
        PreparedShip(w, t, a);
      } else if a.JoinInvoice? {
        PreparedInvoice(w, t, a);
      }
      if Batches(a) {
        BatchPut(t, rest, a.row, i);
      } else {
        ReadyPut(t, rest, a.row, i);
      }
    }
  }

  lemma VerdictsJustified(w: World, t: Task, a: TaskAct)
    requires TaskJustified(t) && TaskForm(t) && CanDo(w, t, a) && a.Verdicts?
    ensures TaskJustified(TaskAfter(w, t, a))
  {
    var t' := TaskAfter(w, t, a);
    forall k | k in t'.ready ensures ReadyOk(t', k, t'.ready[k]) {
      AcceptedMeans(t, a.entries, a.visible, k);
      assert BatchOk(t.job, k, t.batch[k]);
    }
  }

  /** The steps that add nothing to what is ready, or add it for a job that needs no justification. */
  lemma NothingNewJustified(w: World, t: Task, a: TaskAct)
    requires TaskJustified(t) && TaskOwned(w.rows, t) && CanDo(w, t, a)
    requires a.Select? || a.Query? || a.Send? || a.WriteBack?
    ensures TaskJustified(TaskAfter(w, t, a))
  {
    var t' := TaskAfter(w, t, a);
    forall k | k in t'.ready ensures ReadyOk(t', k, t'.ready[k]) {
      if k in t.ready {
        assert ReadyOk(t, k, t.ready[k]);
      }
    }
  }

  lemma {:induction false} JustifiedStep(w: World, t: Task, a: TaskAct)
    requires TaskJustified(t) && TaskForm(t) && TaskOwned(w.rows, t) && CanDo(w, t, a)
    ensures TaskJustified(TaskAfter(w, t, a))
  {
    if a.Verdicts? {
      VerdictsJustified(w, t, a);
    } else if a.Select? || a.Query? || a.Send? || a.WriteBack? {
      NothingNewJustified(w, t, a);
    } else {
      RowStep(w, t, a);
      RowJustified(w, t, a);
    }
  }

  ghost predicate AllJustified(w: World) {
    forall r :: r in w.tasks ==> TaskJustified(w.tasks[r])
  }

  lemma DoKeepsJustified(w: World, r: Locking.RunId, act: TaskAct)
    requires Inv(w) && AllJustified(w) && r in w.tasks && CanDo(w, w.tasks[r], act)
    ensures AllJustified(AfterDo(w, r, act))
  {
    assert TaskForm(w.tasks[r]) && TaskOwned(w.rows, w.tasks[r]) && TaskJustified(w.tasks[r]);
    JustifiedStep(w, w.tasks[r], act);
  }

  lemma LockKeepsJustified(w: World, a: Action)
    requires AllJustified(w) && Enabled(w, a) && LockAction(w, a).Some?
    ensures AllJustified(Next(w, a))
  {
    var w' := Next(w, a);
    forall r | r in w'.tasks ensures TaskJustified(w'.tasks[r]) {
      assert w'.tasks[r] == if r in w.tasks then w.tasks[r] else NewTask(a.job);
    }
  }

  lemma {:induction false} AllJustifiedStep(w: World, a: Action)
    requires Inv(w) && AllJustified(w) && Enabled(w, a)
    ensures AllJustified(Next(w, a))
  {
    if a.Do? {
      DoKeepsJustified(w, a.run, a.act);
    } else if LockAction(w, a).Some? {
      LockKeepsJustified(w, a);
    }
  }

  lemma InitialJustified(w: World)
    requires Initial(w)
    ensures AllJustified(w)
  {
  }

  lemma {:induction false} ScheduleJustified(states: seq<World>, actions: seq<Action>, n: nat)
    requires Schedule(states, actions) && n < |states| && NoTwins(states[n].rows)
    ensures Inv(states[n]) && AllJustified(states[n])
  {
    ScheduleInv(states, actions, n);
    if n == 0 {
      InitialJustified(states[0]);
    } else {
      var w, a := states[n - 1], actions[n - 1];
      NoTwinsBefore(w, a);
      ScheduleJustified(states, actions, n - 1);
      AllJustifiedStep(w, a);
    }
  }
}
