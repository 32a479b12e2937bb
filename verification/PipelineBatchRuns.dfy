/**
 The uninterrupted runs of `Batches` are runs of the pipeline: each is a sequence of steps of one task
 that leaves the same rows.
 */
module PipelineBatchRuns {
  import opened Text
  import opened OrderStore
  import opened Pipeline
  import opened PipelineRuns
  import opened Batches
  import opened Tracking
  import ChangeLog
  import Invoice
  import Locking = AdvisoryLock
  import Shipment
  import Tasks

  // ---------------------------------------------------------------- the batch as a list

  /** The list names each PO once, trimmed. */
  predicate Distinct(issues: seq<Issued>) {
    && (forall i :: 0 <= i < |issues| ==> Trim(issues[i].po) == issues[i].po)
    && (forall i, j :: 0 <= i < j < |issues| ==> issues[i].po != issues[j].po)
  }

  function BatchOf(issues: seq<Issued>): map<string, Issued> {
    if issues == [] then map[] else BatchOf(issues[..|issues| - 1])[issues[|issues| - 1].po := issues[|issues| - 1]]
  }

  lemma {:induction false} BatchSnoc(issues: seq<Issued>, i: Issued)
    ensures BatchOf(issues + [i]) == BatchOf(issues)[i.po := i]
  {
    assert (issues + [i])[..|issues|] == issues;
  }

  lemma {:induction false} BatchHas(issues: seq<Issued>, i: nat)
    requires Distinct(issues) && i < |issues|
    ensures issues[i].po in BatchOf(issues) && BatchOf(issues)[issues[i].po] == issues[i]
  {
    if i < |issues| - 1 {
      BatchHas(issues[..|issues| - 1], i);
    }
  }

  lemma {:induction false} BatchFrom(issues: seq<Issued>, k: string) returns (i: nat)
    requires k in BatchOf(issues)
    ensures i < |issues| && issues[i].po == k
  {
    var n := |issues| - 1;
    if issues[n].po == k {
      i := n;
    } else {
      i := BatchFrom(issues[..n], k);
    }
  }

  predicate Positive(verdicts: map<string, bool>, i: Issued) {
    Trim(i.po) in verdicts && verdicts[Trim(i.po)]
  }

  /** The confirmed writes from position n on. */
  function ReadyFrom(issues: seq<Issued>, verdicts: map<string, bool>, n: nat): map<string, Issued>
    requires n <= |issues|
    decreases |issues| - n
  {
    if n == |issues| then map[]
    else
      var rest := ReadyFrom(issues, verdicts, n + 1);
      if Positive(verdicts, issues[n]) then rest[issues[n].po := issues[n]] else rest
  }

  lemma {:induction false} ReadyHas(issues: seq<Issued>, verdicts: map<string, bool>, n: nat, i: nat)
    requires Distinct(issues) && n <= i < |issues| && Positive(verdicts, issues[i])
    ensures issues[i].po in ReadyFrom(issues, verdicts, n) && ReadyFrom(issues, verdicts, n)[issues[i].po] == issues[i]
    decreases |issues| - n
  {
    if n < i {
      ReadyHas(issues, verdicts, n + 1, i);
    }
  }

  lemma {:induction false} ReadyComes(issues: seq<Issued>, verdicts: map<string, bool>, n: nat, k: string) returns (i: nat)
    requires n <= |issues| && k in ReadyFrom(issues, verdicts, n)
    ensures n <= i < |issues| && issues[i].po == k && Positive(verdicts, issues[i])
    decreases |issues| - n
  {
    if issues[n].po == k && Positive(verdicts, issues[n]) {
      i := n;
    } else {
      i := ReadyComes(issues, verdicts, n + 1, k);
    }
  }

  lemma {:induction false} ReadyNext(issues: seq<Issued>, verdicts: map<string, bool>, n: nat)
    requires Distinct(issues) && n < |issues| && Positive(verdicts, issues[n])
    ensures ReadyFrom(issues, verdicts, n) - {issues[n].po} == ReadyFrom(issues, verdicts, n + 1)
    ensures issues[n].po in ReadyFrom(issues, verdicts, n) && ReadyFrom(issues, verdicts, n)[issues[n].po] == issues[n]
  {
    if issues[n].po in ReadyFrom(issues, verdicts, n + 1) {
      var i := ReadyComes(issues, verdicts, n + 1, issues[n].po);
    }
  }

  /** What the step that reads the verdicts makes ready, for a test of ids that agrees with the verdicts. */
  lemma {:induction false} ReadyIs(issues: seq<Issued>, verdicts: map<string, bool>, ready: map<string, Issued>)
    requires Distinct(issues)
    requires forall k :: k in ready <==> k in BatchOf(issues) && Positive(verdicts, BatchOf(issues)[k])
    requires forall k :: k in ready ==> ready[k] == BatchOf(issues)[k]
    ensures ready == ReadyFrom(issues, verdicts, 0)
  {
    var all := ReadyFrom(issues, verdicts, 0);
    forall k ensures (k in ready <==> k in all) && (k in ready ==> ready[k] == all[k]) {
      if k in ready {
        var i := BatchFrom(issues, k);
        BatchHas(issues, i);
        ReadyHas(issues, verdicts, 0, i);
      }
      if k in all {
        var i := ReadyComes(issues, verdicts, 0, k);
        BatchHas(issues, i);
      }
    }
  }

  lemma {:induction false} WantedIs(issues: seq<Issued>)
    requires Distinct(issues)
    ensures Wanted(BatchOf(issues)) == Ids(Pendings(issues))
  {
    var pending := Pendings(issues);
    forall id ensures id in Wanted(BatchOf(issues)) <==> id in Ids(pending) {
      if id in Wanted(BatchOf(issues)) {
        var k :| k in BatchOf(issues) && Trim(BatchOf(issues)[k].po) == id;
        var i := BatchFrom(issues, k);
        BatchHas(issues, i);
        assert pending[i].id == id;
      }
      if id in Ids(pending) {
        var i :| 0 <= i < |pending| && pending[i].id == id;
        BatchHas(issues, i);
      }
    }
  }

  // ---------------------------------------------------------------- writing back what was confirmed

  /** The verdicts have been read, and the writes from position n on are still to be made. */
  function Draining(job: Job, issues: seq<Issued>, verdicts: map<string, bool>, n: nat, entries: seq<ChangeLog.Entry>,
                    visible: set<string>): Task
    requires n <= |issues|
  {
    NewTask(job).(stage := Settled, ready := ReadyFrom(issues, verdicts, n), entries := entries, visible := visible)
  }

  lemma {:induction false} DrainOne(w: World, job: Job, issues: seq<Issued>, verdicts: map<string, bool>, n: nat,
                                    entries: seq<ChangeLog.Entry>,
                 visible: set<string>, up: bool)
    requires Distinct(issues) && n < |issues| && Positive(verdicts, issues[n])
    ensures var t, act := Draining(job, issues, verdicts, n, entries, visible), WriteBack(issues[n].po, up);
            && CanDo(w, t, act) && TaskAfter(w, t, act) == Draining(job, issues, verdicts, n + 1, entries, visible)
            && RowsAfter(w, t, act) == if up then Written(w.rows, issues[n].po, issues[n].write) else w.rows
  {
    ReadyNext(issues, verdicts, n);
  }

  lemma {:induction false} AfterNext(rows: Rows, issues: seq<Issued>, verdicts: map<string, bool>, later: set<nat>, n: nat)
    requires n < |issues|
    ensures var pending := Pendings(issues);
            var before := After(rows, pending, verdicts, later, n);
            After(rows, pending, verdicts, later, n + 1) ==
            if Positive(verdicts, issues[n]) && n !in later then Written(before, issues[n].po, issues[n].write) else before
  {
  }

  ghost predicate DrainedTo(w: World, r: Locking.RunId, acts: seq<TaskAct>, job: Job, rows: Rows, issues: seq<Issued>,
                            verdicts: map<string, bool>, later: set<nat>, entries: seq<ChangeLog.Entry>, visible: set<string>, n: nat)
    requires n <= |issues|
  {
    At(w, r, acts, Draining(job, issues, verdicts, n, entries, visible), After(rows, Pendings(issues), verdicts, later, n))
  }

  lemma {:induction false} DrainStep(w: World, r: Locking.RunId, acts: seq<TaskAct>, job: Job, rows: Rows, issues: seq<Issued>,
                                     verdicts: map<string, bool>, later: set<nat>, entries: seq<ChangeLog.Entry>, visible: set<string>,
                                     n: nat)
    returns (more: seq<TaskAct>)
    requires Distinct(issues) && n < |issues| && DrainedTo(w, r, acts, job, rows, issues, verdicts, later, entries, visible, n)
    ensures DrainedTo(w, r, more, job, rows, issues, verdicts, later, entries, visible, n + 1)
  {
    AfterNext(rows, issues, verdicts, later, n);
    if Positive(verdicts, issues[n]) {
      DrainOne(AfterRun(w, r, acts), job, issues, verdicts, n, entries, visible, n !in later);
      more := Acted(w, r, acts, Draining(job, issues, verdicts, n, entries, visible), After(rows, Pendings(issues), verdicts, later, n),
                    WriteBack(issues[n].po, n !in later));
    } else {
      more := acts;
    }
  }

  lemma {:induction false} Drain(w: World, r: Locking.RunId, start: seq<TaskAct>, job: Job, rows: Rows, issues: seq<Issued>,
                                 verdicts: map<string, bool>, later: set<nat>, entries: seq<ChangeLog.Entry>, visible: set<string>)
    returns (acts: seq<TaskAct>)
    requires Distinct(issues) && At(w, r, start, Draining(job, issues, verdicts, 0, entries, visible), rows)
    ensures DrainedTo(w, r, acts, job, rows, issues, verdicts, later, entries, visible, |issues|)
  {
    acts := start;
    for n := 0 to |issues|
      invariant DrainedTo(w, r, acts, job, rows, issues, verdicts, later, entries, visible, n)
    {
      acts := DrainStep(w, r, acts, job, rows, issues, verdicts, later, entries, visible, n);
    }
  }

  // ---------------------------------------------------------------- the call and its verdicts

  /** Everything is looked at and the batch is ready to go out. */
  function Collected(job: Job, issues: seq<Issued>): Task {
    NewTask(job).(stage := Collecting, batch := BatchOf(issues))
  }

  /** The verdicts the job reads off the entries. */
  function VerdictsOf(job: Job, issues: seq<Issued>, entries: seq<ChangeLog.Entry>, visible: set<string>): map<string, bool> {
    var ids := Ids(Pendings(issues));
    if job == ShipJob then ChangeLog.NoteAll(ChangeLog.FailureWins, entries, ids) else InvoiceVerdicts(entries, visible, ids)
  }

  lemma {:induction false} AcceptedIs(job: Job, issues: seq<Issued>, t: Task, entries: seq<ChangeLog.Entry>, visible: set<string>, i: nat)
    requires (job == ShipJob || job == InvoiceJob) && Distinct(issues) && i < |issues| && t.job == job && t.batch == BatchOf(issues)
    ensures Accepted(t, entries, visible, Trim(issues[i].po)) <==> Positive(VerdictsOf(job, issues, entries, visible), issues[i])
  {
    WantedIs(issues);
    assert Pendings(issues)[i].id in Ids(Pendings(issues));
  }

  /** The task after the call was answered, and after its change log was read. */
  function Sent(job: Job, issues: seq<Issued>): Task {
    NewTask(job).(stage := Stage.Sent, batch := BatchOf(issues))
  }

  lemma {:induction false} SendOne(w: World, job: Job, issues: seq<Issued>, answered: bool)
    requires (job == ShipJob || job == InvoiceJob) && Distinct(issues) && issues != []
    ensures var t, act := Collected(job, issues), Send(answered, answered);
            && CanDo(w, t, act) && RowsAfter(w, t, act) == w.rows
            && TaskAfter(w, t, act) == if answered then Sent(job, issues) else NewTask(job).(stage := Settled)
  {
    BatchHas(issues, 0);
  }

  lemma {:induction false} VerdictsRead(w: World, job: Job, issues: seq<Issued>, entries: seq<ChangeLog.Entry>, visible: set<string>)
    requires (job == ShipJob || job == InvoiceJob) && Distinct(issues)
    ensures var t, act := Sent(job, issues), Verdicts(entries, visible);
            && CanDo(w, t, act) && RowsAfter(w, t, act) == w.rows
            && TaskAfter(w, t, act) == Draining(job, issues, VerdictsOf(job, issues, entries, visible), 0, entries, visible)
  {
    var t, verdicts := Sent(job, issues), VerdictsOf(job, issues, entries, visible);
    var ready := TaskAfter(w, t, Verdicts(entries, visible)).ready;
    forall k ensures k in ready <==> k in BatchOf(issues) && Positive(verdicts, BatchOf(issues)[k]) {
      if k in BatchOf(issues) {
        var i := BatchFrom(issues, k);
        BatchHas(issues, i);
        AcceptedIs(job, issues, t, entries, visible, i);
      }
    }
    ReadyIs(issues, verdicts, ready);
  }

  /** The batch call, its verdicts and the writes. */
  lemma {:induction false} BatchFinish(w: World, r: Locking.RunId, start: seq<TaskAct>, job: Job, rows: Rows, issues: seq<Issued>,
                                       answered: bool,
                    entries: seq<ChangeLog.Entry>, visible: set<string>, later: set<nat>) returns (acts: seq<TaskAct>)
    requires (job == ShipJob || job == InvoiceJob) && Distinct(issues) && At(w, r, start, Collected(job, issues), rows)
    ensures CanRun(w, r, acts)
    ensures AfterRun(w, r, acts).rows ==
            if answered then After(rows, Pendings(issues), VerdictsOf(job, issues, entries, visible), later, |issues|) else rows
  {
    acts := start;
    if issues != [] {
      SendOne(AfterRun(w, r, acts), job, issues, answered);
      acts := Acted(w, r, acts, Collected(job, issues), rows, Send(answered, answered));
      if answered {
        VerdictsRead(AfterRun(w, r, acts), job, issues, entries, visible);
        acts := Acted(w, r, acts, Sent(job, issues), rows, Verdicts(entries, visible));
        acts := Drain(w, r, acts, job, rows, issues, VerdictsOf(job, issues, entries, visible), later, entries, visible);
      }
    }
  }

  // ---------------------------------------------------------------- looking at the items

  /** The list holds each item's PO at most once, and none from position n on. */
  predicate IssuedFor(issues: seq<Issued>, items: seq<Tasks.Item>, n: nat)
    requires n <= |items|
  {
    Distinct(issues) && forall i, j :: 0 <= i < |issues| && n <= j < |items| ==> issues[i].po != items[j].key
  }

  lemma {:induction false} IssuedMore(issues: seq<Issued>, more: seq<Issued>, items: seq<Tasks.Item>, n: nat)
    requires n < |items| && Tasks.CleanItems(items) && IssuedFor(issues, items, n)
    requires more == [] || (|more| == 1 && more[0].po == Trim(items[n].key))
    ensures IssuedFor(issues + more, items, n + 1)
  {
    assert Tasks.OwnKey(items[n]);
  }

  /** The pipeline allows the step that looks at the item. */
  ghost predicate Allowed(w: World, job: Job, it: Tasks.Item, act: TaskAct) {
    && (act.Drop? || act.JoinShip? || act.JoinInvoice?) && act.row == it.key
    && CanDo(w, NewTask(job).(stage := Collecting, todo := map[it.key := it.row]), act)
  }

  /** This is what the step makes of the item. */
  predicate Gives(it: Tasks.Item, act: TaskAct, o: Outcome) {
    && !act.Create? && (act.Drop? <==> o.Nothing?)
    && (!act.Drop? ==> o.issue == Prepare(it.key, it.row, act) && o.issue.po == it.key && (Pipeline.Batches(act) <==> o.Batched?))
  }

  ghost predicate LookOk(w: World, job: Job, it: Tasks.Item, act: TaskAct, o: Outcome) {
    Allowed(w, job, it, act) && Gives(it, act, o)
  }

  lemma {:induction false} StaysAllowed(w: World, w': World, job: Job, it: Tasks.Item, act: TaskAct)
    requires Allowed(w, job, it, act) && w'.reverse == w.reverse && w'.outbound == w.outbound
    ensures Allowed(w', job, it, act)
  {
  }

  ghost predicate PlanOk(w: World, job: Job, items: seq<Tasks.Item>, looks: seq<TaskAct>, plan: seq<Outcome>) {
    && (job == ShipJob || job == InvoiceJob) && Tasks.CleanItems(items) && |looks| == |plan| == |items|
    && forall i {:trigger LookOk(w, job, items[i], looks[i], plan[i])} :: 0 <= i < |items| ==> LookOk(w, job, items[i], looks[i], plan[i])
  }

  lemma {:induction false} Front(plan: seq<Outcome>, n: nat)
    requires n < |plan|
    ensures plan[..n + 1] == plan[..n] + [plan[n]]
  {
  }

  lemma {:induction false} IssuedUnder(w: World, job: Job, it: Tasks.Item, act: TaskAct, o: Outcome)
    requires LookOk(w, job, it, act, o)
    ensures o.Batched? ==> o.issue.po == it.key
  {
  }

  /** What is batched for an item is a write of its own key. */
  predicate OwnIssues(items: seq<Tasks.Item>, plan: seq<Outcome>) {
    |plan| == |items| && forall i :: 0 <= i < |items| && plan[i].Batched? ==> plan[i].issue.po == items[i].key
  }

  lemma {:induction false} PlanIsOwn(w: World, job: Job, items: seq<Tasks.Item>, looks: seq<TaskAct>, plan: seq<Outcome>)
    requires PlanOk(w, job, items, looks, plan)
    ensures OwnIssues(items, plan)
  {
    forall i | 0 <= i < |items| ensures plan[i].Batched? ==> plan[i].issue.po == items[i].key {
      IssuedUnder(w, job, items[i], looks[i], plan[i]);
    }
  }

  lemma {:induction false} IssuesNext(items: seq<Tasks.Item>, plan: seq<Outcome>, n: nat)
    requires n < |items| && OwnIssues(items, plan) && Tasks.CleanItems(items) && IssuedFor(Issues(plan[..n]), items, n)
    ensures IssuedFor(Issues(plan[..n + 1]), items, n + 1)
  {
    Front(plan, n);
    IssuesSnoc(plan[..n], plan[n]);
    assert Tasks.OwnKey(items[n]);
    IssuedMore(Issues(plan[..n]), More(plan[n]), items, n);
  }

  lemma {:induction false} IssuesOf(items: seq<Tasks.Item>, plan: seq<Outcome>, n: nat)
    requires n <= |items| && OwnIssues(items, plan) && Tasks.CleanItems(items)
    ensures IssuedFor(Issues(plan[..n]), items, n)
  {
    if n > 0 {
      IssuesOf(items, plan, n - 1);
      IssuesNext(items, plan, n - 1);
    }
  }

  /** The run stands before item n, with these writes prepared. */
  function Looking(job: Job, items: seq<Tasks.Item>, issues: seq<Issued>, n: nat): Task
    requires n <= |items|
  {
    NewTask(job).(stage := Collecting, todo := Todo(items, n), batch := BatchOf(issues))
  }

  /** It has just prepared item n to be written at once. */
  function Writing(job: Job, items: seq<Tasks.Item>, issues: seq<Issued>, n: nat, i: Issued): Task
    requires n < |items|
  {
    Looking(job, items, issues, n + 1).(ready := map[items[n].key := i])
  }

  lemma {:induction false} LookCan(w: World, job: Job, items: seq<Tasks.Item>, issues: seq<Issued>, n: nat, act: TaskAct)
    requires n < |items| && Tasks.CleanItems(items) && Allowed(w, job, items[n], act)
    ensures CanDo(w, Looking(job, items, issues, n), act)
  {
    TodoNext(items, n);
  }

  lemma {:induction false} LookAfter(job: Job, items: seq<Tasks.Item>, issues: seq<Issued>, n: nat, act: TaskAct, o: Outcome)
    requires n < |items| && Tasks.CleanItems(items) && Gives(items[n], act, o)
    requires (act.Drop? || act.JoinShip? || act.JoinInvoice?) && act.row == items[n].key
    ensures var t, all := Looking(job, items, issues, n), issues + More(o);
            && LooksAt(t, act)
            && AfterRow(t, act) == if o.AtOnce? then Writing(job, items, all, n, o.issue) else Looking(job, items, all, n + 1)
  {
    TodoNext(items, n);
    if o.Batched? {
      BatchSnoc(issues, o.issue);
    } else {
      assert issues + More(o) == issues;
    }
  }

  lemma {:induction false} LookOnly(w: World, t: Task, act: TaskAct)
    requires CanDo(w, t, act) && (act.Drop? || act.JoinShip? || act.JoinInvoice?) && LooksAt(t, act)
    ensures RowsAfter(w, t, act) == w.rows && TaskAfter(w, t, act) == AfterRow(t, act)
  {
  }

  lemma {:induction false} LookStep(w: World, job: Job, items: seq<Tasks.Item>, issues: seq<Issued>, n: nat, act: TaskAct, o: Outcome)
    requires n < |items| && Tasks.CleanItems(items) && LookOk(w, job, items[n], act, o)
    ensures var t, all := Looking(job, items, issues, n), issues + More(o);
            && CanDo(w, t, act) && RowsAfter(w, t, act) == w.rows
            && TaskAfter(w, t, act) == if o.AtOnce? then Writing(job, items, all, n, o.issue) else Looking(job, items, all, n + 1)
  {
    LookCan(w, job, items, issues, n, act);
    LookAfter(job, items, issues, n, act, o);
    LookOnly(w, Looking(job, items, issues, n), act);
  }

  lemma {:induction false} WriteStep(w: World, job: Job, items: seq<Tasks.Item>, issues: seq<Issued>, n: nat, i: Issued, up: bool)
    requires n < |items|
    ensures var t, act := Writing(job, items, issues, n, i), WriteBack(items[n].key, up);
            && CanDo(w, t, act) && TaskAfter(w, t, act) == Looking(job, items, issues, n + 1)
            && RowsAfter(w, t, act) == if up then Written(w.rows, i.po, i.write) else w.rows
  {
    assert Writing(job, items, issues, n, i).ready - {items[n].key} == map[];
  }

  /** The run stands before item n, with the writes and rows of the plan. */
  ghost predicate Reached(w: World, r: Locking.RunId, acts: seq<TaskAct>, job: Job, items: seq<Tasks.Item>, plan: seq<Outcome>,
                          down: set<nat>, n: nat)
    requires n <= |items| && n <= |plan|
  {
    At(w, r, acts, Looking(job, items, Issues(plan[..n]), n), AtOnceRows(w.rows, plan[..n], down))
  }

  /** The steps for one item. */
  lemma {:induction false} OneItem(w: World, r: Locking.RunId, acts: seq<TaskAct>, job: Job, items: seq<Tasks.Item>, looks: seq<TaskAct>,
                                   plan: seq<Outcome>, down: set<nat>, n: nat) returns (more: seq<TaskAct>)
    requires n < |items| && PlanOk(w, job, items, looks, plan) && Reached(w, r, acts, job, items, plan, down, n)
    ensures Reached(w, r, more, job, items, plan, down, n + 1)
  {
    var rows, o, issues, all := AtOnceRows(w.rows, plan[..n], down), plan[n], Issues(plan[..n]), Issues(plan[..n + 1]);
    Front(plan, n);
    IssuesSnoc(plan[..n], o);
    AtOnceSnoc(w.rows, plan[..n], o, down);
    assert LookOk(w, job, items[n], looks[n], o);
    StaysAllowed(w, AfterRun(w, r, acts), job, items[n], looks[n]);
    LookStep(AfterRun(w, r, acts), job, items, issues, n, looks[n], o);
    more := Acted(w, r, acts, Looking(job, items, issues, n), rows, looks[n]);
    if o.AtOnce? {
      WriteStep(AfterRun(w, r, more), job, items, all, n, o.issue, n !in down);
      more := Acted(w, r, more, Writing(job, items, all, n, o.issue), rows, WriteBack(items[n].key, n !in down));
    }
  }

  lemma {:induction false} AllItems(w: World, r: Locking.RunId, start: seq<TaskAct>, job: Job, items: seq<Tasks.Item>, looks: seq<TaskAct>,
                                    plan: seq<Outcome>, down: set<nat>) returns (acts: seq<TaskAct>)
    requires PlanOk(w, job, items, looks, plan) && Reached(w, r, start, job, items, plan, down, 0)
    ensures Reached(w, r, acts, job, items, plan, down, |items|)
  {
    acts := start;
    for n := 0 to |items|
      invariant Reached(w, r, acts, job, items, plan, down, n)
    {
      acts := OneItem(w, r, acts, job, items, looks, plan, down, n);
    }
  }

  /** A whole run that follows the plan. */
  lemma {:induction false} PlanIsSteps(w: World, r: Locking.RunId, job: Job, items: seq<Tasks.Item>, looks: seq<TaskAct>,
                                       plan: seq<Outcome>,
                                       down: set<nat>, answered: bool, entries: seq<ChangeLog.Entry>, visible: set<string>, later: set<nat>)
    returns (acts: seq<TaskAct>)
    requires Selectable(w, r, job, items) && PlanOk(w, job, items, looks, plan)
    ensures var issues, rows := Issues(plan), AtOnceRows(w.rows, plan, down);
            && CanRun(w, r, acts)
            && AfterRun(w, r, acts).rows ==
               if answered then After(rows, Pendings(issues), VerdictsOf(job, issues, entries, visible), later, |issues|) else rows
  {
    assert plan[..|plan|] == plan;
    PlanIsOwn(w, job, items, looks, plan);
    IssuesOf(items, plan, |plan|);
    acts := RunSelects(w, r, job, items);
    acts := AllItems(w, r, acts, job, items, looks, plan, down);
    acts := BatchFinish(w, r, acts, job, AtOnceRows(w.rows, plan, down), Issues(plan), answered, entries, visible, later);
  }

  // ---------------------------------------------------------------- shipping

  /** The inputs are those of the items. */
  predicate ShipInputs(w: World, items: seq<Tasks.Item>, inputs: seq<Shipment.ShipInput>) {
    && |items| == |inputs|
    && forall i {:trigger ShipInputFor(w, items[i].key, items[i].row, inputs[i])} :: 0 <= i < |items| ==>
         ShipInputFor(w, items[i].key, items[i].row, inputs[i])
  }

  function ShipAct(x: Shipment.ShipInput, field: string): TaskAct {
    if Shipment.ShipDecision(x).Skip? then Drop(x.po) else JoinShip(x.po, x, field)
  }

  lemma {:induction false} ShipLookOk(w: World, it: Tasks.Item, x: Shipment.ShipInput, field: string)
    requires Tasks.OwnKey(it) && ShipInputFor(w, it.key, it.row, x) && FieldFits(x, field)
    ensures LookOk(w, ShipJob, it, ShipAct(x, field), ShipOutcome(x, field))
  {
    ShipAllowed(w, it, x, field);
    ShipGives(it, x, field);
  }

  lemma {:induction false} CanShip(w: World, t: Task, k: string, x: Shipment.ShipInput, field: string)
    requires t.stage == Collecting && t.job == ShipJob && k in t.todo && ShipInputFor(w, k, t.todo[k], x)
    ensures var d := Shipment.ShipDecision(x);
            d.Advance? || (d.Send? && TokenSet(field) == FieldSet(d.record)) ==> CanDo(w, t, JoinShip(k, x, field))
  {
  }

  lemma {:induction false} AllowedBy(w: World, d: Shipment.Decision, it: Tasks.Item, act: TaskAct)
    requires (if d.Skip? then act.Drop? else act.JoinShip?) && act.row == it.key
    requires !d.Skip? ==> CanDo(w, NewTask(ShipJob).(stage := Collecting, todo := map[it.key := it.row]), act)
    ensures Allowed(w, ShipJob, it, act)
  {
  }

  lemma {:induction false} ShipAllowed(w: World, it: Tasks.Item, x: Shipment.ShipInput, field: string)
    requires ShipInputFor(w, it.key, it.row, x) && FieldFits(x, field)
    ensures Allowed(w, ShipJob, it, ShipAct(x, field))
  {
    CanShip(w, NewTask(ShipJob).(stage := Collecting, todo := map[it.key := it.row]), x.po, x, field);
    AllowedBy(w, Shipment.ShipDecision(x), it, ShipAct(x, field));
  }

  lemma {:induction false} GivesFrom(it: Tasks.Item, act: TaskAct, i: Issued, batches: bool, o: Outcome)
    requires !act.Create? && (act.Drop? <==> o.Nothing?) && i == Prepare(it.key, it.row, act) && batches == Pipeline.Batches(act)
    requires !act.Drop? ==> o.issue == i && i.po == it.key && (batches <==> o.Batched?)
    ensures Gives(it, act, o)
  {
  }

  lemma {:induction false} ShipGivesBy(d: Shipment.Decision, it: Tasks.Item, x: Shipment.ShipInput, field: string, act: TaskAct, i: Issued,
                                       batches: bool)
    requires Tasks.OwnKey(it) && x.po == it.key && act == if d.Skip? then Drop(x.po) else JoinShip(x.po, x, field)
    requires i == Prepare(it.key, it.row, act) && batches == Pipeline.Batches(act)
    requires !d.Skip? ==>
               i == Issued(Trim(it.key), if d.Advance? then SetStatus(4) else SetTracking(4, field), OnShip(x)) && batches == !d.Advance?
    ensures Gives(it, act, OutcomeOf(d, x, field))
  {
    GivesFrom(it, act, i, batches, OutcomeOf(d, x, field));
  }

  lemma {:induction false} PrepareShip(k: string, row: Row, x: Shipment.ShipInput, field: string)
    ensures var advances := Shipment.ShipDecision(x).Advance?;
            && Prepare(k, row, JoinShip(k, x, field)) ==
               Issued(Trim(k), if advances then SetStatus(4) else SetTracking(4, field), OnShip(x))
            && (Pipeline.Batches(JoinShip(k, x, field)) <==> !advances)
  {
  }

  lemma {:induction false} ShipGives(it: Tasks.Item, x: Shipment.ShipInput, field: string)
    requires Tasks.OwnKey(it) && x.po == it.key
    ensures Gives(it, ShipAct(x, field), ShipOutcome(x, field))
  {
    var act := ShipAct(x, field);
    PrepareShip(it.key, it.row, x, field);
    ShipGivesBy(Shipment.ShipDecision(x), it, x, field, act, Prepare(it.key, it.row, act), Pipeline.Batches(act));
  }

  lemma {:induction false} ShipPlanOk(w: World, items: seq<Tasks.Item>, inputs: seq<Shipment.ShipInput>, fields: seq<string>)
    returns (looks: seq<TaskAct>)
    requires Tasks.CleanItems(items) && ShipInputs(w, items, inputs) && AllFit(inputs, fields)
    ensures PlanOk(w, ShipJob, items, looks, ShipPlan(inputs, fields))
  {
    looks := seq(|items|, i requires 0 <= i < |items| => ShipAct(inputs[i], fields[i]));
    forall i | 0 <= i < |items| ensures LookOk(w, ShipJob, items[i], looks[i], ShipPlan(inputs, fields)[i]) {
      assert Tasks.OwnKey(items[i]) && ShipInputFor(w, items[i].key, items[i].row, inputs[i]) && FieldFits(inputs[i], fields[i]);
      ShipLookOk(w, items[i], inputs[i], fields[i]);
    }
  }

  /**
   An uninterrupted ship run as `Batches.ShipToDSCO` describes it is a sequence of steps of one run of the
   pipeline that leaves the same rows.
   */
  lemma {:induction false} ShipRunIsSteps(w: World, r: Locking.RunId, items: seq<Tasks.Item>, inputs: seq<Shipment.ShipInput>,
                                          fields: seq<string>, down: set<nat>, answered: bool, entries: seq<ChangeLog.Entry>,
                                          later: set<nat>)
    returns (acts: seq<TaskAct>)
    requires Selectable(w, r, ShipJob, items) && ShipInputs(w, items, inputs) && AllFit(inputs, fields)
    ensures CanRun(w, r, acts) && AfterRun(w, r, acts).rows == ShipRows(w.rows, inputs, fields, down, answered, entries, later)
  {
    var looks := ShipPlanOk(w, items, inputs, fields);
    acts := PlanIsSteps(w, r, ShipJob, items, looks, ShipPlan(inputs, fields), down, answered, entries, {}, later);
  }

  // ---------------------------------------------------------------- invoicing

  predicate InvoiceInputs(w: World, items: seq<Tasks.Item>, inputs: seq<Invoice.InvoiceInput>) {
    && |items| == |inputs|
    && forall i {:trigger InvoiceInputFor(w, items[i].key, items[i].row, inputs[i])} :: 0 <= i < |items| ==>
         InvoiceInputFor(w, items[i].key, items[i].row, inputs[i])
  }

  ghost function InvoiceAct(x: Invoice.InvoiceInput): TaskAct {
    if Invoice.InvoiceDecision(x).Send? then JoinInvoice(x.po, x) else Drop(x.po)
  }

  lemma {:induction false} InvoiceCanJoin(w: World, it: Tasks.Item, x: Invoice.InvoiceInput)
    requires InvoiceInputFor(w, it.key, it.row, x) && Invoice.InvoiceDecision(x).Send?
    ensures CanDo(w, NewTask(InvoiceJob).(stage := Collecting, todo := map[it.key := it.row]), JoinInvoice(x.po, x))
  {
  }

  lemma {:induction false} InvoiceJoins(x: Invoice.InvoiceInput)
    ensures Invoice.InvoiceDecision(x).Send? ==> InvoiceAct(x).JoinInvoice? && InvoiceOutcome(x).Batched?
    ensures !Invoice.InvoiceDecision(x).Send? ==> InvoiceAct(x).Drop? && InvoiceOutcome(x).Nothing?
  {
  }

  lemma {:induction false} InvoiceLookOk(w: World, it: Tasks.Item, x: Invoice.InvoiceInput)
    requires Tasks.OwnKey(it) && InvoiceInputFor(w, it.key, it.row, x)
    ensures LookOk(w, InvoiceJob, it, InvoiceAct(x), InvoiceOutcome(x))
  {
    InvoiceJoins(x);
    if Invoice.InvoiceDecision(x).Send? {
      InvoiceCanJoin(w, it, x);
    }
  }

  lemma {:induction false} InvoicePlanOk(w: World, items: seq<Tasks.Item>, inputs: seq<Invoice.InvoiceInput>) returns (looks: seq<TaskAct>)
    requires Tasks.CleanItems(items) && InvoiceInputs(w, items, inputs)
    ensures PlanOk(w, InvoiceJob, items, looks, InvoicePlan(inputs))
  {
    looks := seq(|items|, i requires 0 <= i < |items| => InvoiceAct(inputs[i]));
    forall i | 0 <= i < |items| ensures LookOk(w, InvoiceJob, items[i], looks[i], InvoicePlan(inputs)[i]) {
      assert Tasks.OwnKey(items[i]) && InvoiceInputFor(w, items[i].key, items[i].row, inputs[i]);
      InvoiceLookOk(w, items[i], inputs[i]);
    }
  }

  /** Likewise an uninterrupted invoice run as `Batches.InvoiceToDSCO` describes it. */
  lemma {:induction false} InvoiceRunIsSteps(w: World, r: Locking.RunId, items: seq<Tasks.Item>, inputs: seq<Invoice.InvoiceInput>,
                                             answered: bool, entries: seq<ChangeLog.Entry>, visible: set<string>, later: set<nat>)
    returns (acts: seq<TaskAct>)
    requires Selectable(w, r, InvoiceJob, items) && InvoiceInputs(w, items, inputs)
    ensures CanRun(w, r, acts) && AfterRun(w, r, acts).rows == InvoiceRows(w.rows, inputs, answered, entries, visible, later)
  {
    var looks := InvoicePlanOk(w, items, inputs);
    InvoicesWait(w.rows, inputs);
    acts := PlanIsSteps(w, r, InvoiceJob, items, looks, InvoicePlan(inputs), {}, answered, entries, visible, later);
  }

  lemma {:induction false} NothingAtOnce(rows: Rows, plan: seq<Outcome>, down: set<nat>)
    requires forall i :: 0 <= i < |plan| ==> !plan[i].AtOnce?
    ensures AtOnceRows(rows, plan, down) == rows
  {
    if plan != [] {
      NothingAtOnce(rows, plan[..|plan| - 1], down);
    }
  }

  lemma {:induction false} InvoicesWait(rows: Rows, inputs: seq<Invoice.InvoiceInput>)
    ensures AtOnceRows(rows, InvoicePlan(inputs), {}) == rows
  {
    forall i | 0 <= i < |inputs| ensures !InvoicePlan(inputs)[i].AtOnce? {
      InvoiceJoins(inputs[i]);
    }
    NothingAtOnce(rows, InvoicePlan(inputs), {});
  }
}
