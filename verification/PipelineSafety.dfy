/**
 What every reachable state of the pipeline keeps. No transaction protects the writes; what does
 is ownership: a row a running job still has to write stays at the status the job selected it at,
 because only the one run of that job can move it on.
 */
module PipelineSafety {
  import opened Text
  import opened Orders
  import opened OrderStore
  import opened Pipeline
  import opened Tracking
  import Locking = AdvisoryLock

  // ---------------------------------------------------------------- one run per job

  /** The runs between TryLock and Unlock are the tasks, each holding its job's key. */
  predicate LocksMatch(w: World) {
    && Locking.Inv(w.locks)
    && w.tasks.Keys == w.locks.runs.Keys
    && forall r :: r in w.tasks ==> w.locks.runs[r].key == KeyOf(w.keys, w.tasks[r].job)
  }

  lemma {:induction false} LocksMatchLock(w: World, a: Action)
    requires LocksMatch(w) && Enabled(w, a) && LockAction(w, a).Some?
    ensures LocksMatch(Next(w, a))
  {
    Locking.StepKeepsInv(w.locks, LockAction(w, a).value);
  }

  lemma LocksMatchTask(w: World, w': World, r: Locking.RunId, t: Task)
    requires LocksMatch(w) && r in w.tasks && t.job == w.tasks[r].job
    requires w'.locks == w.locks && w'.keys == w.keys && w'.tasks == w.tasks[r := t]
    ensures LocksMatch(w')
  {
  }

  lemma {:induction false} LocksMatchStep(w: World, a: Action)
    requires LocksMatch(w) && Enabled(w, a)
    ensures LocksMatch(Next(w, a))
  {
    if LockAction(w, a).Some? {
      LocksMatchLock(w, a);
    } else if a.Do? {
      TaskKeepsJob(w, w.tasks[a.run], a.act);
      LocksMatchTask(w, AfterDo(w, a.run, a.act), a.run, TaskAfter(w, w.tasks[a.run], a.act));
    }
  }

  lemma TaskKeepsJob(w: World, t: Task, a: TaskAct)
    requires CanDo(w, t, a)
    ensures TaskAfter(w, t, a).job == t.job
  {
  }

  lemma OneRunPerJob(w: World, r: Locking.RunId, q: Locking.RunId)
    requires LocksMatch(w) && r in w.tasks && q in w.tasks && w.tasks[r].job == w.tasks[q].job
    ensures r == q
  {
    assert r in w.locks.runs && q in w.locks.runs;
  }

  // ---------------------------------------------------------------- ownership

  /** The run has selected the row and not yet written or dropped it. */
  predicate Owns(t: Task, k: string) {
    k in t.todo || k in t.batch || k in t.ready
  }

  /** Owned rows are where they were selected, and rows not yet looked at are as the query returned them. */
  ghost predicate ClaimsHold(rows: Rows, t: Task) {
    && (forall k :: Owns(t, k) ==> k in rows && rows[k].status == Source(t.job))
    && (forall k :: k in t.todo ==> t.todo[k] == rows[k])
  }

  /** A row is claimed in one place, and each stage has its places. */
  predicate ClaimedOnce(t: Task) {
    && (forall k :: k in t.todo ==> k !in t.batch && k !in t.ready)
    && (forall k :: k in t.batch ==> k !in t.ready)
    && (t.stage == Fresh || t.stage == Selected ==> t.batch == map[] && t.ready == map[])
    && (t.stage == Sent ==> t.ready == map[])
    && (t.stage == Sent || t.stage == Settled ==> t.todo == map[])
  }

  ghost predicate TaskOwned(rows: Rows, t: Task) {
    ClaimsHold(rows, t) && ClaimedOnce(t)
  }

  predicate FieldsFit(row: Row) {
    && 1 <= row.status <= 6
    && (row.status <= 3 ==> row.tracking == "" && row.invoiceId == "")
    && (row.status == 4 ==> row.invoiceId == "")
  }

  predicate RowOk(k: string, row: Row) {
    Trim(k) != "" && row.payload.Some? && row.payload.value.poNumber == k && FieldsFit(row)
  }

  predicate RowsOk(rows: Rows) {
    forall k :: k in rows ==> RowOk(k, rows[k])
  }

  predicate WriteFits(job: Job, w: Write) {
    match job
    case PushJob => w == SetFields(2, "", "")
    case AckJob => w == SetFields(3, "", "")
    case ShipJob => w == SetStatus(4) || (w.SetTracking? && w.status == 4)
    case InvoiceJob => w.SetInvoice? && w.status == 5
  }

  /** A write prepared for row k is addressed to k or to what k is trimmed to. */
  predicate IssuedOk(job: Job, k: string, i: Issued) {
    (i.po == k || i.po == Trim(k)) && Trim(k) != "" && WriteFits(job, i.write)
  }

  predicate TaskForm(t: Task) {
    && (forall k :: k in t.batch ==> IssuedOk(t.job, k, t.batch[k]))
    && (forall k :: k in t.ready ==> IssuedOk(t.job, k, t.ready[k]))
    && (forall k :: k in t.todo ==> RowOk(k, t.todo[k]))
  }

  /** Each preparing step belongs to one job. */
  predicate JobFits(t: Task, a: TaskAct) {
    && (a.FoundExisting? || a.Create? ==> t.job == PushJob)
    && (a.SeenConfirmed? || a.JoinAck? ==> t.job == AckJob)
    && (a.JoinShip? ==> t.job == ShipJob)
    && (a.JoinInvoice? ==> t.job == InvoiceJob)
  }

  lemma RowForm(t: Task, a: TaskAct)
    requires TaskForm(t) && LooksAt(t, a) && Joins(a) && JobFits(t, a)
    ensures IssuedOk(t.job, a.row, Prepare(a.row, t.todo[a.row], a))
  {
    assert RowOk(a.row, t.todo[a.row]);
  }

  lemma AfterRowForm(t: Task, a: TaskAct)
    requires TaskForm(t) && LooksAt(t, a) && JobFits(t, a)
    ensures TaskForm(AfterRow(t, a))
  {
    var rest := t.todo - {a.row};
    if Joins(a) {
      RowForm(t, a);
      FormMore(t, rest, a.row, Prepare(a.row, t.todo[a.row], a));
    } else {
      FormLess(t, rest);
    }
  }

  lemma FormLess(t: Task, rest: Rows)
    requires TaskForm(t) && forall k :: k in rest ==> k in t.todo && rest[k] == t.todo[k]
    ensures TaskForm(t.(todo := rest))
  {
  }

  lemma FormMore(t: Task, rest: Rows, k: string, i: Issued)
    requires TaskForm(t) && IssuedOk(t.job, k, i) && forall x :: x in rest ==> x in t.todo && rest[x] == t.todo[x]
    ensures TaskForm(t.(todo := rest, batch := t.batch[k := i])) && TaskForm(t.(todo := rest, ready := t.ready[k := i]))
  {
  }

  lemma AfterRowOwned(rows: Rows, t: Task, a: TaskAct)
    requires TaskOwned(rows, t) && LooksAt(t, a) && t.stage == Collecting
    ensures TaskOwned(rows, AfterRow(t, a))
  {
  }

  /** The step either looks at one row or is one of the five others. */
  lemma RowStep(w: World, t: Task, a: TaskAct)
    requires CanDo(w, t, a) && !a.Select? && !a.Query? && !a.Send? && !a.Verdicts? && !a.WriteBack?
    ensures LooksAt(t, a) && JobFits(t, a) && t.stage == Collecting && TaskAfter(w, t, a) == AfterRow(t, a)
  {
  }

  lemma {:induction false} FormStep(w: World, t: Task, a: TaskAct)
    requires TaskForm(t) && CanDo(w, t, a) && RowsOk(w.rows)
    ensures TaskForm(TaskAfter(w, t, a))
  {
    if !a.Select? && !a.Query? && !a.Send? && !a.Verdicts? && !a.WriteBack? {
      RowStep(w, t, a);
      AfterRowForm(t, a);
    }
  }

  lemma {:induction false} OwnedStep(w: World, t: Task, a: TaskAct)
    requires TaskOwned(w.rows, t) && CanDo(w, t, a) && !a.WriteBack?
    ensures TaskOwned(w.rows, TaskAfter(w, t, a))
  {
    if !a.Select? && !a.Query? && !a.Send? && !a.Verdicts? {
      RowStep(w, t, a);
      AfterRowOwned(w.rows, t, a);
    }
  }

  /** A write as prepared reaches the row it was prepared for or none at all, unless a row has the key trimmed. */
  lemma WriteLands(rows: Rows, job: Job, k: string, i: Issued)
    requires IssuedOk(job, k, i) && k in rows && Lone(rows, k)
    ensures Written(rows, i.po, i.write) == if Lands(k, i) then rows[k := Updated(rows[k], i.write)] else rows
    ensures Updated(rows[k], i.write).status == Source(job) + 1
  {
  }

  /** The statement looks for the key of the row it was prepared for. */
  predicate Lands(k: string, i: Issued) {
    !Refused(i.po, i.write) && Target(i.po, i.write) == k
  }

  /** A row written, or not, leaves the claims of the run that no longer has to write it. */
  lemma ClaimsAfterWrite(rows: Rows, t: Task, k: string, row: Row)
    requires TaskOwned(rows, t) && k in t.ready
    ensures ClaimsHold(rows[k := row], t.(ready := t.ready - {k}))
    ensures ClaimsHold(rows, t.(ready := t.ready - {k}))
  {
    var t' := t.(ready := t.ready - {k});
    forall x | Owns(t', x) ensures Owns(t, x) && x != k {
    }
  }

  lemma ClaimedOnceAfterWrite(t: Task, k: string)
    requires ClaimedOnce(t)
    ensures ClaimedOnce(t.(ready := t.ready - {k}))
  {
  }

  lemma OwnedAfterWrite(w: World, t: Task, a: TaskAct)
    requires TaskOwned(w.rows, t) && TaskForm(t) && NoTwins(w.rows) && CanDo(w, t, a) && a.WriteBack?
    ensures TaskOwned(RowsAfter(w, t, a), TaskAfter(w, t, a))
  {
    WriteLands(w.rows, t.job, a.row, t.ready[a.row]);
    ClaimsAfterWrite(w.rows, t, a.row, Updated(w.rows[a.row], t.ready[a.row].write));
    ClaimedOnceAfterWrite(t, a.row);
  }

  lemma OwnedByOther(rows: Rows, t: Task, other: Task, k: string, row: Row)
    requires TaskOwned(rows, t) && TaskOwned(rows, other) && Owns(t, k) && other.job != t.job
    ensures TaskOwned(rows[k := row], other)
  {
    assert Source(other.job) != Source(t.job);
    assert !Owns(other, k);
  }

  lemma RowsOkAfterWrite(rows: Rows, job: Job, k: string, i: Issued)
    requires RowsOk(rows) && IssuedOk(job, k, i) && k in rows && Lone(rows, k) && rows[k].status == Source(job)
    ensures RowsOk(Written(rows, i.po, i.write))
  {
    WriteLands(rows, job, k, i);
  }

  /** The invariant: locks, rows and every run's claim on its rows. */
  ghost predicate Inv(w: World) {
    && LocksMatch(w)
    && NoTwins(w.rows)
    && RowsOk(w.rows)
    && (forall r :: r in w.tasks ==> TaskForm(w.tasks[r]))
    && (forall r :: r in w.tasks ==> TaskOwned(w.rows, w.tasks[r]))
  }

  /** Nothing is written, or row k is, and moves to the status behind the job's source. */
  predicate Wrote(rows: Rows, after: Rows, job: Job, k: string, i: Issued)
    requires k in rows
  {
    after == rows
    || (after == rows[k := Updated(rows[k], i.write)] && Lands(k, i)
        && Updated(rows[k], i.write).status == rows[k].status + 1 == Source(job) + 1)
  }

  /** What one write may change: the owned row's status, by one, and the columns the write names. */
  lemma WroteRows(w: World, t: Task, a: TaskAct)
    requires TaskOwned(w.rows, t) && TaskForm(t) && RowsOk(w.rows) && NoTwins(w.rows) && CanDo(w, t, a) && a.WriteBack?
    ensures a.row in t.ready && a.row in w.rows
    ensures Wrote(w.rows, RowsAfter(w, t, a), t.job, a.row, t.ready[a.row]) && RowsOk(RowsAfter(w, t, a))
  {
    assert Owns(t, a.row) && IssuedOk(t.job, a.row, t.ready[a.row]) && Lone(w.rows, a.row);
    WriteLands(w.rows, t.job, a.row, t.ready[a.row]);
    RowsOkAfterWrite(w.rows, t.job, a.row, t.ready[a.row]);
  }

  lemma AllOwnedAfterWrite(w: World, r: Locking.RunId, act: TaskAct)
    requires Inv(w) && r in w.tasks && CanDo(w, w.tasks[r], act) && act.WriteBack?
    ensures TaskOwned(RowsAfter(w, w.tasks[r], act), TaskAfter(w, w.tasks[r], act))
    ensures forall q :: q in w.tasks && q != r ==> TaskOwned(RowsAfter(w, w.tasks[r], act), w.tasks[q])
  {
    var rows := RowsAfter(w, w.tasks[r], act);
    OwnedAfterWrite(w, w.tasks[r], act);
    WroteRows(w, w.tasks[r], act);
    forall q | q in w.tasks && q != r ensures TaskOwned(rows, w.tasks[q]) {
      OthersKeepOwned(w, r, q, act.row, rows);
    }
  }

  /** One run's step keeps everything if it keeps that run's own claim and the others'. */
  lemma InvAfterTask(w: World, w': World, r: Locking.RunId, t: Task)
    requires Inv(w) && r in w.tasks && t.job == w.tasks[r].job
    requires w'.locks == w.locks && w'.keys == w.keys && w'.tasks == w.tasks[r := t]
    requires RowsOk(w'.rows) && NoTwins(w'.rows) && TaskForm(t) && TaskOwned(w'.rows, t)
    requires forall q :: q in w.tasks && q != r ==> TaskOwned(w'.rows, w.tasks[q])
    ensures Inv(w')
  {
    LocksMatchTask(w, w', r, t);
  }

  lemma WroteKeepsKeys(rows: Rows, after: Rows, job: Job, k: string, i: Issued)
    requires k in rows && Wrote(rows, after, job, k, i) && NoTwins(rows)
    ensures after.Keys == rows.Keys && NoTwins(after)
  {
    forall x | x in after ensures Lone(after, x) {
      assert Lone(rows, x);
    }
  }

  lemma {:induction false} WriteKeepsInv(w: World, r: Locking.RunId, act: TaskAct)
    requires Inv(w) && r in w.tasks && CanDo(w, w.tasks[r], act) && act.WriteBack?
    ensures Inv(AfterDo(w, r, act))
  {
    TaskKeepsJob(w, w.tasks[r], act);
    FormStep(w, w.tasks[r], act);
    AllOwnedAfterWrite(w, r, act);
    WroteRows(w, w.tasks[r], act);
    WroteKeepsKeys(w.rows, RowsAfter(w, w.tasks[r], act), w.tasks[r].job, act.row, w.tasks[r].ready[act.row]);
    InvAfterTask(w, AfterDo(w, r, act), r, TaskAfter(w, w.tasks[r], act));
  }

  /** No two runs own the same row: runs of one job are one run, and other jobs select other statuses. */
  lemma OwnedOnce(w: World, r: Locking.RunId, q: Locking.RunId, k: string)
    requires Inv(w) && r in w.tasks && q in w.tasks && q != r && Owns(w.tasks[r], k)
    ensures w.tasks[q].job != w.tasks[r].job && !Owns(w.tasks[q], k)
  {
    JobsDiffer(w, r, q);
    assert TaskOwned(w.rows, w.tasks[r]) && TaskOwned(w.rows, w.tasks[q]);
    ClaimsApart(w.rows, w.tasks[r], w.tasks[q], k);
  }

  lemma JobsDiffer(w: World, r: Locking.RunId, q: Locking.RunId)
    requires LocksMatch(w) && r in w.tasks && q in w.tasks && q != r
    ensures w.tasks[q].job != w.tasks[r].job
  {
    if w.tasks[q].job == w.tasks[r].job {
      OneRunPerJob(w, r, q);
    }
  }

  lemma ClaimsApart(rows: Rows, t: Task, u: Task, k: string)
    requires ClaimsHold(rows, t) && ClaimsHold(rows, u) && t.job != u.job && Owns(t, k)
    ensures !Owns(u, k)
  {
  }

  /** Only the row's owner writes it, so no other run's claim is touched. */
  lemma OthersKeepOwned(w: World, r: Locking.RunId, q: Locking.RunId, k: string, rows: Rows)
    requires Inv(w) && r in w.tasks && q in w.tasks && q != r && Owns(w.tasks[r], k)
    requires k in rows && rows == w.rows[k := rows[k]]
    ensures TaskOwned(rows, w.tasks[q])
  {
    OwnedOnce(w, r, q, k);
    OwnedByOther(w.rows, w.tasks[r], w.tasks[q], k, rows[k]);
  }

  lemma {:induction false} DoKeepsInv(w: World, r: Locking.RunId, act: TaskAct)
    requires Inv(w) && r in w.tasks && CanDo(w, w.tasks[r], act)
    ensures Inv(AfterDo(w, r, act))
  {
    if act.WriteBack? {
      WriteKeepsInv(w, r, act);
    } else {
      TaskKeepsJob(w, w.tasks[r], act);
      FormStep(w, w.tasks[r], act);
      OwnedStep(w, w.tasks[r], act);
      InvAfterTask(w, AfterDo(w, r, act), r, TaskAfter(w, w.tasks[r], act));
    }
  }

  lemma OwnedAfterInsert(rows: Rows, t: Task, k: string, row: Row)
    requires TaskOwned(rows, t) && k !in rows
    ensures TaskOwned(rows[k := row], t)
  {
    assert !Owns(t, k);
  }

  lemma {:induction false} PullKeepsInv(w: World, order: Order, st: string, time: int)
    requires Inv(w) && Trim(order.poNumber) != "" && order.poNumber !in w.rows && NoTwins(AfterPull(w, order, st, time).rows)
    ensures Inv(AfterPull(w, order, st, time))
  {
    var row := EntryRow(order, st, time);
    assert RowOk(order.poNumber, row);
    forall r | r in w.tasks ensures TaskOwned(w.rows[order.poNumber := row], w.tasks[r]) {
      OwnedAfterInsert(w.rows, w.tasks[r], order.poNumber, row);
    }
  }

  lemma {:induction false} LockKeepsInv(w: World, a: Action)
    requires Inv(w) && Enabled(w, a) && LockAction(w, a).Some?
    ensures Inv(Next(w, a))
  {
    LocksMatchStep(w, a);
    var w' := Next(w, a);
    assert w'.rows == w.rows;
    forall r | r in w'.tasks ensures TaskForm(w'.tasks[r]) && TaskOwned(w'.rows, w'.tasks[r]) {
      assert w'.tasks[r] == if r in w.tasks then w.tasks[r] else NewTask(a.job);
    }
  }

  lemma {:induction false} StepKeepsInv(w: World, a: Action)
    requires Inv(w) && Enabled(w, a) && NoTwins(Next(w, a).rows)
    ensures Inv(Next(w, a))
  {
    match a
    case Do(r, act) => DoKeepsInv(w, r, act);
    case Pull(order, st, time) => PullKeepsInv(w, order, st, time);
    case DscoConfirms(_) =>
    case Ships(_, _) =>
    case _ => LockKeepsInv(w, a);
  }

  lemma RowsStay(w: World, a: Action, k: string)
    requires Enabled(w, a) && k in w.rows
    ensures k in Next(w, a).rows
  {
  }

  /** No row ever disappears, so what is now without twins always was. */
  lemma NoTwinsBefore(w: World, a: Action)
    requires Enabled(w, a) && NoTwins(Next(w, a).rows)
    ensures NoTwins(w.rows)
  {
    forall k | k in w.rows ensures Lone(w.rows, k) {
      RowsStay(w, a, k);
      assert Lone(Next(w, a).rows, k);
      if Trim(k) in w.rows {
        RowsStay(w, a, Trim(k));
      }
    }
  }

  lemma {:induction false} NoTwinsThroughout(states: seq<World>, actions: seq<Action>, i: nat, n: nat)
    requires Schedule(states, actions) && i <= n < |states| && NoTwins(states[n].rows)
    ensures NoTwins(states[i].rows)
    decreases n
  {
    if i < n {
      NoTwinsBefore(states[n - 1], actions[n - 1]);
      NoTwinsThroughout(states, actions, i, n - 1);
    }
  }

  lemma {:induction false} ScheduleInv(states: seq<World>, actions: seq<Action>, n: nat)
    requires Schedule(states, actions) && n < |states| && NoTwins(states[n].rows)
    ensures Inv(states[n])
  {
    if n > 0 {
      NoTwinsBefore(states[n - 1], actions[n - 1]);
      ScheduleInv(states, actions, n - 1);
      StepKeepsInv(states[n - 1], actions[n - 1]);
    }
  }
}
