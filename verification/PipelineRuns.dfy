/**
 The uninterrupted runs of `Tasks` are runs of the pipeline: each is a sequence of steps of one task
 that makes the same calls and leaves the same rows.
 */
module PipelineRuns {
  import opened Text
  import opened Orders
  import opened OrderStore
  import opened Pipeline
  import Tasks
  import Locking = AdvisoryLock

  // ---------------------------------------------------------------- sequences of steps of one run

  ghost predicate CanRun(w: World, r: Locking.RunId, acts: seq<TaskAct>)
    decreases |acts|, 0
  {
    acts == []
    || (CanRun(w, r, acts[..|acts| - 1])
        && var w' := AfterRun(w, r, acts[..|acts| - 1]); r in w'.tasks && CanDo(w', w'.tasks[r], acts[|acts| - 1]))
  }

  ghost function AfterRun(w: World, r: Locking.RunId, acts: seq<TaskAct>): World
    requires CanRun(w, r, acts)
    decreases |acts|, 1
  {
    if acts == [] then w else AfterDo(AfterRun(w, r, acts[..|acts| - 1]), r, acts[|acts| - 1])
  }

  lemma OneMore(w: World, r: Locking.RunId, acts: seq<TaskAct>, a: TaskAct)
    requires CanRun(w, r, acts)
    requires var w' := AfterRun(w, r, acts); r in w'.tasks && CanDo(w', w'.tasks[r], a)
    ensures CanRun(w, r, acts + [a]) && AfterRun(w, r, acts + [a]) == AfterDo(AfterRun(w, r, acts), r, a)
  {
    var all := acts + [a];
    assert all[..|all| - 1] == acts && all[|all| - 1] == a;
  }

  /** The rows a create call is made for, in order. */
  function Asked(acts: seq<TaskAct>): seq<string> {
    if acts == [] then []
    else Asked(acts[..|acts| - 1]) + if acts[|acts| - 1].Create? then [acts[|acts| - 1].row] else []
  }

  lemma AskedMore(acts: seq<TaskAct>, a: TaskAct)
    ensures Asked(acts + [a]) == Asked(acts) + if a.Create? then [a.row] else []
  {
    assert (acts + [a])[..|acts|] == acts;
  }

  /** What the run holds after its steps. */
  ghost predicate At(w: World, r: Locking.RunId, acts: seq<TaskAct>, t: Task, rows: Rows) {
    && CanRun(w, r, acts)
    && var w' := AfterRun(w, r, acts);
       r in w'.tasks && w'.tasks[r] == t && w'.rows == rows
       && w.confirmed <= w'.confirmed && w'.reverse == w.reverse && w'.outbound == w.outbound
  }

  lemma Acted(w: World, r: Locking.RunId, acts: seq<TaskAct>, t: Task, rows: Rows, a: TaskAct) returns (more: seq<TaskAct>)
    requires At(w, r, acts, t, rows) && CanDo(AfterRun(w, r, acts), t, a)
    ensures more == acts + [a] && Asked(more) == Asked(acts) + if a.Create? then [a.row] else []
    ensures At(w, r, more, TaskAfter(AfterRun(w, r, acts), t, a), RowsAfter(AfterRun(w, r, acts), t, a))
    ensures AfterRun(w, r, more).created == CreatedAfter(AfterRun(w, r, acts), t, a)
  {
    OneMore(w, r, acts, a);
    AskedMore(acts, a);
    more := acts + [a];
  }

  // ---------------------------------------------------------------- what is still to be looked at

  function Todo(items: seq<Tasks.Item>, n: nat): Rows
    requires n <= |items|
    decreases |items| - n
  {
    if n == |items| then map[] else Todo(items, n + 1)[items[n].key := items[n].row]
  }

  lemma {:induction false} TodoKeys(items: seq<Tasks.Item>, n: nat, k: string)
    requires n <= |items|
    ensures k in Todo(items, n) <==> exists i :: n <= i < |items| && items[i].key == k
    decreases |items| - n
  {
    if n < |items| {
      TodoKeys(items, n + 1, k);
    }
  }

  lemma TodoNext(items: seq<Tasks.Item>, n: nat)
    requires n < |items| && Tasks.CleanItems(items)
    ensures items[n].key in Todo(items, n) && Todo(items, n)[items[n].key] == items[n].row
    ensures Todo(items, n) - {items[n].key} == Todo(items, n + 1)
  {
    TodoKeys(items, n + 1, items[n].key);
  }

  /** The items are rows of the table. */
  predicate FromTable(items: seq<Tasks.Item>, rows: Rows) {
    forall i :: 0 <= i < |items| ==> items[i].key in rows && rows[items[i].key] == items[i].row
  }

  function Keys(items: seq<Tasks.Item>): set<string> {
    set i | 0 <= i < |items| :: items[i].key
  }

  lemma {:induction false} TodoIs(items: seq<Tasks.Item>, rows: Rows, n: nat, k: string)
    requires n <= |items| && FromTable(items, rows) && k in Todo(items, n)
    ensures k in rows && Todo(items, n)[k] == rows[k]
    decreases |items| - n
  {
    if n < |items| && k != items[n].key {
      TodoIs(items, rows, n + 1, k);
    }
  }

  lemma SelectedIs(items: seq<Tasks.Item>, rows: Rows)
    requires FromTable(items, rows)
    ensures Keys(items) <= rows.Keys && Todo(items, 0) == map k | k in Keys(items) :: rows[k]
  {
    forall k ensures k in Todo(items, 0) <==> k in Keys(items) {
      TodoKeys(items, 0, k);
    }
    forall k | k in Todo(items, 0) ensures k in rows && Todo(items, 0)[k] == rows[k] {
      TodoIs(items, rows, 0, k);
    }
  }

  // ---------------------------------------------------------------- pushing

  function PushTask(items: seq<Tasks.Item>, existing: set<string>, n: nat): Task
    requires n <= |items|
  {
    NewTask(PushJob).(stage := Collecting, todo := Todo(items, n), existing := existing)
  }

  function Pushing(items: seq<Tasks.Item>, existing: set<string>, n: nat): Task
    requires n < |items|
  {
    PushTask(items, existing, n + 1).(ready := map[items[n].key := Issued(items[n].key, SetFields(2, "", ""), OnLingXing)])
  }

  /**
   What LingXing did about the create call, next to what it answered: it holds the order unless it answered
   with errors alone, and may or may not hold it when the call failed.
   */
  predicate Tells(a: Tasks.Attempt, effect: bool) {
    a.Sent? && a.reply.Replied? ==> (effect <==> a.reply.successes > 0 || a.reply.errors == 0)
  }

  predicate TellsAll(attempts: seq<Tasks.Attempt>, effects: seq<bool>) {
    |effects| == |attempts| && forall i :: 0 <= i < |attempts| ==> Tells(attempts[i], effects[i])
  }

  /** The step that looks at item n. */
  function PushAct(it: Tasks.Item, existing: set<string>, a: Tasks.Attempt, effect: bool): TaskAct {
    if Trim(it.key) in existing then FoundExisting(it.key)
    else if Tasks.Creates(it, existing, a) then Create(it.key, effect, Tasks.Taken(a.reply))
    else Drop(it.key)
  }

  /** LingXing holds the order of one more item. */
  predicate Enters(it: Tasks.Item, existing: set<string>, a: Tasks.Attempt, effect: bool) {
    Tasks.Creates(it, existing, a) && effect
  }

  function OneMoreHeld(created: map<string, nat>, it: Tasks.Item, existing: set<string>, a: Tasks.Attempt, effect: bool): map<string, nat> {
    if Enters(it, existing, a, effect) then created[it.key := Created(created, it.key) + 1] else created
  }

  /** What LingXing holds after n items. */
  function Held(created: map<string, nat>, items: seq<Tasks.Item>, existing: set<string>, attempts: seq<Tasks.Attempt>, effects: seq<bool>,
                n: nat): map<string, nat>
    requires n <= |items| == |attempts| == |effects|
  {
    if n == 0 then created
    else OneMoreHeld(Held(created, items, existing, attempts, effects, n - 1), items[n - 1], existing, attempts[n - 1], effects[n - 1])
  }

  /** The key that Tasks writes is the one Pipeline prepares. */
  lemma PushLook(w: World, items: seq<Tasks.Item>, existing: set<string>, n: nat, a: Tasks.Attempt, effect: bool)
    requires n < |items| && Tasks.CleanItems(items) && Tells(a, effect)
    ensures var t, act := PushTask(items, existing, n), PushAct(items[n], existing, a, effect);
            && CanDo(w, t, act) && RowsAfter(w, t, act) == w.rows
            && TaskAfter(w, t, act) ==
               if Tasks.Writes(items[n], existing, a).Some? then Pushing(items, existing, n) else PushTask(items, existing, n + 1)
    ensures Tasks.Writes(items[n], existing, a).Some? ==> Tasks.Writes(items[n], existing, a).value == items[n].key
  {
    assert Tasks.OwnKey(items[n]);
    TodoNext(items, n);
  }

  lemma PushHolds(w: World, items: seq<Tasks.Item>, existing: set<string>, n: nat, a: Tasks.Attempt, effect: bool)
    requires n < |items| && Tasks.CleanItems(items)
    requires CanDo(w, PushTask(items, existing, n), PushAct(items[n], existing, a, effect))
    ensures CreatedAfter(w, PushTask(items, existing, n), PushAct(items[n], existing, a, effect)) ==
            OneMoreHeld(w.created, items[n], existing, a, effect)
  {
    assert Tasks.OwnKey(items[n]);
    TodoNext(items, n);
  }

  lemma PushWrite(w: World, items: seq<Tasks.Item>, existing: set<string>, n: nat, up: bool)
    requires n < |items|
    ensures var t, act := Pushing(items, existing, n), WriteBack(items[n].key, up);
            && CanDo(w, t, act) && TaskAfter(w, t, act) == PushTask(items, existing, n + 1)
            && RowsAfter(w, t, act) == if up then Written(w.rows, items[n].key, SetFields(2, "", "")) else w.rows
  {
    var t := Pushing(items, existing, n);
    assert t.ready - {items[n].key} == map[];
  }

  /** The rows as Tasks says they are after n items. */
  function Pushed(rows: Rows, items: seq<Tasks.Item>, existing: set<string>, attempts: seq<Tasks.Attempt>, down: set<nat>, n: nat): Rows
    requires n <= |items| == |attempts|
  {
    Tasks.Moved(rows, Tasks.MovedKeys(items, existing, attempts, down, n), 2)
  }

  lemma NonePushed(rows: Rows, items: seq<Tasks.Item>, existing: set<string>, attempts: seq<Tasks.Attempt>, down: set<nat>)
    requires |items| == |attempts|
    ensures Pushed(rows, items, existing, attempts, down, 0) == rows && Tasks.Created(items, existing, attempts, 0) == []
  {
    Tasks.MoveOne(rows, {}, 2, "");
  }

  lemma PushedNext(rows: Rows, items: seq<Tasks.Item>, existing: set<string>, attempts: seq<Tasks.Attempt>, down: set<nat>, n: nat)
    requires n < |items| == |attempts|
    ensures var before, k := Pushed(rows, items, existing, attempts, down, n), Tasks.Writes(items[n], existing, attempts[n]);
            Pushed(rows, items, existing, attempts, down, n + 1) ==
            if k.Some? && n !in down then Written(before, k.value, SetFields(2, "", "")) else before
  {
    var moved, k := Tasks.MovedKeys(items, existing, attempts, down, n), Tasks.Writes(items[n], existing, attempts[n]);
    if k.Some? && n !in down {
      Tasks.MoveOne(rows, moved, 2, k.value);
    } else {
      assert moved + {} == moved;
    }
  }

  lemma AskedFor(items: seq<Tasks.Item>, existing: set<string>, attempts: seq<Tasks.Attempt>, effect: bool, n: nat)
    requires n < |items| == |attempts| && Tasks.CleanItems(items)
    ensures var act := PushAct(items[n], existing, attempts[n], effect);
            Tasks.Created(items, existing, attempts, n + 1) ==
            Tasks.Created(items, existing, attempts, n) + if act.Create? then [act.row] else []
  {
    assert Tasks.OwnKey(items[n]);
  }

  /** The run stands before item n, with the calls and rows that Tasks says. */
  ghost predicate PushedTo(w: World, r: Locking.RunId, acts: seq<TaskAct>, items: seq<Tasks.Item>, existing: set<string>,
                           attempts: seq<Tasks.Attempt>, effects: seq<bool>, down: set<nat>, n: nat)
    requires n <= |items| == |attempts| == |effects|
  {
    && At(w, r, acts, PushTask(items, existing, n), Pushed(w.rows, items, existing, attempts, down, n))
    && Asked(acts) == Tasks.Created(items, existing, attempts, n)
    && AfterRun(w, r, acts).created == Held(w.created, items, existing, attempts, effects, n)
  }

  /** The steps for one item. */
  lemma PushItem(w: World, r: Locking.RunId, acts: seq<TaskAct>, items: seq<Tasks.Item>, existing: set<string>,
                 attempts: seq<Tasks.Attempt>, effects: seq<bool>, down: set<nat>, n: nat) returns (more: seq<TaskAct>)
    requires n < |items| == |attempts| && Tasks.CleanItems(items) && TellsAll(attempts, effects)
    requires PushedTo(w, r, acts, items, existing, attempts, effects, down, n)
    ensures PushedTo(w, r, more, items, existing, attempts, effects, down, n + 1)
  {
    var rows, a := Pushed(w.rows, items, existing, attempts, down, n), attempts[n];
    AskedFor(items, existing, attempts, effects[n], n);
    PushedNext(w.rows, items, existing, attempts, down, n);
    PushLook(AfterRun(w, r, acts), items, existing, n, a, effects[n]);
    PushHolds(AfterRun(w, r, acts), items, existing, n, a, effects[n]);
    more := Acted(w, r, acts, PushTask(items, existing, n), rows, PushAct(items[n], existing, a, effects[n]));
    if Tasks.Writes(items[n], existing, a).Some? {
      PushWrite(AfterRun(w, r, more), items, existing, n, n !in down);
      more := Acted(w, r, more, Pushing(items, existing, n), rows, WriteBack(items[n].key, n !in down));
    }
  }

  lemma PushItems(w: World, r: Locking.RunId, start: seq<TaskAct>, items: seq<Tasks.Item>, existing: set<string>,
                  attempts: seq<Tasks.Attempt>, effects: seq<bool>, down: set<nat>) returns (acts: seq<TaskAct>)
    requires |items| == |attempts| && Tasks.CleanItems(items) && TellsAll(attempts, effects)
    requires PushedTo(w, r, start, items, existing, attempts, effects, down, 0)
    ensures PushedTo(w, r, acts, items, existing, attempts, effects, down, |items|)
  {
    acts := start;
    for n := 0 to |items|
      invariant PushedTo(w, r, acts, items, existing, attempts, effects, down, n)
    {
      acts := PushItem(w, r, acts, items, existing, attempts, effects, down, n);
    }
  }

  /** The run selects these items, all at the job's source status. */
  predicate Selectable(w: World, r: Locking.RunId, job: Job, items: seq<Tasks.Item>) {
    && r in w.tasks && w.tasks[r] == NewTask(job)
    && Tasks.CleanItems(items) && FromTable(items, w.rows)
    && forall i :: 0 <= i < |items| ==> items[i].row.status == Source(job)
  }

  lemma RunSelects(w: World, r: Locking.RunId, job: Job, items: seq<Tasks.Item>) returns (acts: seq<TaskAct>)
    requires Selectable(w, r, job, items)
    ensures Asked(acts) == [] && CanRun(w, r, acts) && AfterRun(w, r, acts).created == w.created
    ensures At(w, r, acts, NewTask(job).(stage := if job == PushJob then Selected else Collecting, todo := Todo(items, 0)), w.rows)
  {
    SelectedIs(items, w.rows);
    assert Keys(items) <= WithStatus(w.rows, Source(job));
    acts := Acted(w, r, [], NewTask(job), w.rows, Select(Keys(items)));
  }

  lemma {:induction false} HeldAt(created: map<string, nat>, items: seq<Tasks.Item>, existing: set<string>, attempts: seq<Tasks.Attempt>,
                                  effects: seq<bool>, n: nat, i: nat)
    requires n <= |items| == |attempts| == |effects| && i < |items|
    requires forall j, k :: 0 <= j < k < |items| ==> items[j].key != items[k].key
    ensures Created(Held(created, items, existing, attempts, effects, n), items[i].key) ==
            Created(created, items[i].key) + if i < n && Enters(items[i], existing, attempts[i], effects[i]) then 1 else 0
  {
    if n > 0 {
      HeldAt(created, items, existing, attempts, effects, n - 1, i);
    }
  }

  /**
   An uninterrupted push run as `Tasks.PushToLingXing` describes it is a sequence of steps of one run of
   the pipeline: it asks for the same orders and leaves the same rows. `effects` is what LingXing really did.
   */
  lemma PushRunIsSteps(w: World, r: Locking.RunId, items: seq<Tasks.Item>, existing: set<string>, attempts: seq<Tasks.Attempt>,
                       effects: seq<bool>, down: set<nat>)
    returns (acts: seq<TaskAct>)
    requires Selectable(w, r, PushJob, items) && |attempts| == |items| && TellsAll(attempts, effects)
    requires forall po :: po in existing ==> Created(w.created, po) >= 1
    ensures CanRun(w, r, acts) && Asked(acts) == Tasks.Created(items, existing, attempts, |items|)
    ensures AfterRun(w, r, acts).rows == Tasks.Moved(w.rows, Tasks.MovedKeys(items, existing, attempts, down, |items|), 2)
    ensures forall i :: 0 <= i < |items| ==>
              Created(AfterRun(w, r, acts).created, items[i].key) ==
              Created(w.created, items[i].key) + if Enters(items[i], existing, attempts[i], effects[i]) then 1 else 0
    ensures var w' := AfterRun(w, r, acts); r in w'.tasks && w'.tasks[r].todo == map[] && w'.tasks[r].ready == map[]
  {
    acts := RunSelects(w, r, PushJob, items);
    var t := NewTask(PushJob).(stage := Selected, todo := Todo(items, 0));
    acts := Acted(w, r, acts, t, w.rows, Query(existing));
    NonePushed(w.rows, items, existing, attempts, down);
    acts := PushItems(w, r, acts, items, existing, attempts, effects, down);
    forall i | 0 <= i < |items|
      ensures Created(AfterRun(w, r, acts).created, items[i].key) ==
              Created(w.created, items[i].key) + if Enters(items[i], existing, attempts[i], effects[i]) then 1 else 0
    {
      HeldAt(w.created, items, existing, attempts, effects, |items|, i);
    }
  }

  // ---------------------------------------------------------------- acknowledging

  /** The orders among the first n items that the run asks DSCO to acknowledge. */
  function Requested(items: seq<Tasks.Item>, dsco: map<string, string>, details: map<string, seq<int>>, multiBan: bool,
                     n: nat): (s: set<string>)
    requires n <= |items|
    ensures s <= details.Keys
  {
    if n == 0 then {}
    else
      Requested(items, dsco, details, multiBan, n - 1)
      + if Joinable(items[n - 1], dsco, details, multiBan) then {items[n - 1].key} else {}
  }

  predicate Joinable(it: Tasks.Item, dsco: map<string, string>, details: map<string, seq<int>>, multiBan: bool) {
    Tasks.WaitsAt(it, dsco, multiBan, it.key) && Tasks.IsReady(details, it.key)
  }

  lemma {:induction false} RequestedHas(items: seq<Tasks.Item>, dsco: map<string, string>, details: map<string, seq<int>>, multiBan: bool,
                                        n: nat, i: nat)
    requires i < n <= |items| && Joinable(items[i], dsco, details, multiBan)
    ensures items[i].key in Requested(items, dsco, details, multiBan, n)
    decreases n
  {
    if i < n - 1 {
      RequestedHas(items, dsco, details, multiBan, n - 1, i);
    }
  }

  lemma {:induction false} RequestedFrom(items: seq<Tasks.Item>, dsco: map<string, string>, details: map<string, seq<int>>, multiBan: bool,
                                         n: nat, po: string) returns (i: nat)
    requires n <= |items| && po in Requested(items, dsco, details, multiBan, n)
    ensures i < n && items[i].key == po && Joinable(items[i], dsco, details, multiBan)
  {
    if items[n - 1].key == po && Joinable(items[n - 1], dsco, details, multiBan) {
      i := n - 1;
    } else {
      i := RequestedFrom(items, dsco, details, multiBan, n - 1, po);
    }
  }

  /** They are the ones that Tasks puts into the request. */
  lemma RequestedIff(items: seq<Tasks.Item>, dsco: map<string, string>, details: map<string, seq<int>>, multiBan: bool, n: nat, po: string)
    requires n <= |items| && Tasks.CleanItems(items)
    ensures po in Requested(items, dsco, details, multiBan, n) <==> Tasks.Waits(items, dsco, multiBan, n, po) && Tasks.IsReady(details, po)
  {
    if po in Requested(items, dsco, details, multiBan, n) {
      var i := RequestedFrom(items, dsco, details, multiBan, n, po);
    }
    if Tasks.IsReady(details, po) {
      if i: nat :| i < n && Tasks.WaitsAt(items[i], dsco, multiBan, po) {
        assert Tasks.OwnKey(items[i]);
        RequestedHas(items, dsco, details, multiBan, n, i);
      }
    }
  }

  function Batch(pos: set<string>, details: map<string, seq<int>>): map<string, Issued>
    requires pos <= details.Keys
  {
    map k | k in pos :: Issued(k, SetFields(3, "", ""), OnAck(details[k]))
  }

  function AckTask(items: seq<Tasks.Item>, pos: set<string>, details: map<string, seq<int>>, n: nat): Task
    requires n <= |items| && pos <= details.Keys
  {
    NewTask(AckJob).(stage := Collecting, todo := Todo(items, n), batch := Batch(pos, details))
  }

  function Seen(items: seq<Tasks.Item>, pos: set<string>, details: map<string, seq<int>>, n: nat): Task
    requires n < |items| && pos <= details.Keys
  {
    AckTask(items, pos, details, n + 1).(ready := map[items[n].key := Issued(items[n].key, SetFields(3, "", ""), OnDsco)])
  }

  function AckAct(it: Tasks.Item, dsco: map<string, string>, details: map<string, seq<int>>, multiBan: bool): TaskAct {
    if it.key != "" && Tasks.Confirmed(dsco, it.key) then SeenConfirmed(it.key)
    else if Joinable(it, dsco, details, multiBan) then JoinAck(it.key, details[it.key])
    else Drop(it.key)
  }

  lemma BatchMore(pos: set<string>, details: map<string, seq<int>>, k: string)
    requires pos <= details.Keys && k in details
    ensures Batch(pos + {k}, details) == Batch(pos, details)[k := Issued(k, SetFields(3, "", ""), OnAck(details[k]))]
  {
  }

  lemma SeeOne(w: World, items: seq<Tasks.Item>, pos: set<string>, details: map<string, seq<int>>, n: nat)
    requires n < |items| && Tasks.CleanItems(items) && pos <= details.Keys && items[n].key in w.confirmed
    ensures var t, act := AckTask(items, pos, details, n), SeenConfirmed(items[n].key);
            CanDo(w, t, act) && RowsAfter(w, t, act) == w.rows && TaskAfter(w, t, act) == Seen(items, pos, details, n)
  {
    assert Tasks.OwnKey(items[n]);
    TodoNext(items, n);
  }

  lemma JoinOne(w: World, items: seq<Tasks.Item>, pos: set<string>, details: map<string, seq<int>>, n: nat)
    requires n < |items| && Tasks.CleanItems(items) && pos <= details.Keys && items[n].key != "" && Tasks.IsReady(details, items[n].key)
    ensures var t, act := AckTask(items, pos, details, n), JoinAck(items[n].key, details[items[n].key]);
            && CanDo(w, t, act) && RowsAfter(w, t, act) == w.rows
            && TaskAfter(w, t, act) == AckTask(items, pos + {items[n].key}, details, n + 1)
  {
    assert Tasks.OwnKey(items[n]);
    TodoNext(items, n);
    BatchMore(pos, details, items[n].key);
  }

  lemma DropOne(w: World, items: seq<Tasks.Item>, pos: set<string>, details: map<string, seq<int>>, n: nat)
    requires n < |items| && Tasks.CleanItems(items) && pos <= details.Keys
    ensures var t, act := AckTask(items, pos, details, n), Drop(items[n].key);
            CanDo(w, t, act) && RowsAfter(w, t, act) == w.rows && TaskAfter(w, t, act) == AckTask(items, pos, details, n + 1)
  {
    TodoNext(items, n);
  }

  lemma AckLook(w: World, items: seq<Tasks.Item>, dsco: map<string, string>, details: map<string, seq<int>>, multiBan: bool, n: nat)
    requires n < |items| && Tasks.CleanItems(items)
    requires Tasks.Confirmed(dsco, items[n].key) ==> items[n].key in w.confirmed
    ensures var pos, act := Requested(items, dsco, details, multiBan, n), AckAct(items[n], dsco, details, multiBan);
            var t := AckTask(items, pos, details, n);
            && CanDo(w, t, act) && RowsAfter(w, t, act) == w.rows
            && TaskAfter(w, t, act) ==
               if act.SeenConfirmed? then Seen(items, pos, details, n)
               else AckTask(items, Requested(items, dsco, details, multiBan, n + 1), details, n + 1)
    ensures AckAct(items[n], dsco, details, multiBan).SeenConfirmed? ==>
              Requested(items, dsco, details, multiBan, n + 1) == Requested(items, dsco, details, multiBan, n)
  {
    var pos, act := Requested(items, dsco, details, multiBan, n), AckAct(items[n], dsco, details, multiBan);
    RequestedNext(items, dsco, details, multiBan, n);
    if act.SeenConfirmed? {
      SeeOne(w, items, pos, details, n);
    } else if act.JoinAck? {
      JoinOne(w, items, pos, details, n);
    } else {
      DropOne(w, items, pos, details, n);
    }
  }

  lemma RequestedNext(items: seq<Tasks.Item>, dsco: map<string, string>, details: map<string, seq<int>>, multiBan: bool, n: nat)
    requires n < |items|
    ensures var pos, act := Requested(items, dsco, details, multiBan, n), AckAct(items[n], dsco, details, multiBan);
            && Requested(items, dsco, details, multiBan, n + 1) == (if act.JoinAck? then pos + {items[n].key} else pos)
            && (act.JoinAck? ==> items[n].key != "" && Tasks.IsReady(details, items[n].key) && act.statuses == details[items[n].key])
  {
    var pos := Requested(items, dsco, details, multiBan, n);
    assert pos + {} == pos;
    assert Tasks.Confirmed(dsco, items[n].key) ==> !Joinable(items[n], dsco, details, multiBan);
  }

  lemma AckWrite(w: World, items: seq<Tasks.Item>, pos: set<string>, details: map<string, seq<int>>, n: nat, up: bool)
    requires n < |items| && pos <= details.Keys
    ensures var t, act := Seen(items, pos, details, n), WriteBack(items[n].key, up);
            && CanDo(w, t, act) && TaskAfter(w, t, act) == AckTask(items, pos, details, n + 1)
            && RowsAfter(w, t, act) == if up then Written(w.rows, items[n].key, SetFields(3, "", "")) else w.rows
  {
    assert Seen(items, pos, details, n).ready - {items[n].key} == map[];
  }

  /** The rows written at once among the first n items. */
  function Direct(rows: Rows, items: seq<Tasks.Item>, dsco: map<string, string>, multiBan: bool, down: set<string>, n: nat): Rows
    requires n <= |items|
  {
    Tasks.Moved(rows, Tasks.Plan(items, dsco, multiBan, down, n).direct, 3)
  }

  lemma DirectNext(rows: Rows, items: seq<Tasks.Item>, dsco: map<string, string>, details: map<string, seq<int>>, multiBan: bool,
                   down: set<string>, n: nat)
    requires n < |items| && Tasks.CleanItems(items)
    ensures var before, k := Direct(rows, items, dsco, multiBan, down, n), items[n].key;
            Direct(rows, items, dsco, multiBan, down, n + 1) ==
            if AckAct(items[n], dsco, details, multiBan).SeenConfirmed? && k !in down then Written(before, k, SetFields(3, "", ""))
            else before
  {
    assert Tasks.OwnKey(items[n]);
    Tasks.MoveOne(rows, Tasks.Plan(items, dsco, multiBan, down, n).direct, 3, items[n].key);
  }

  /** The run stands before item n, with the requests and rows that Tasks says. */
  ghost predicate AckedTo(w: World, r: Locking.RunId, acts: seq<TaskAct>, items: seq<Tasks.Item>, dsco: map<string, string>,
                          details: map<string, seq<int>>, multiBan: bool, down: set<string>, n: nat)
    requires n <= |items|
  {
    At(w, r, acts, AckTask(items, Requested(items, dsco, details, multiBan, n), details, n), Direct(w.rows, items, dsco, multiBan, down, n))
  }

  lemma AckItem(w: World, r: Locking.RunId, acts: seq<TaskAct>, items: seq<Tasks.Item>, dsco: map<string, string>,
                details: map<string, seq<int>>, multiBan: bool, down: set<string>, n: nat) returns (more: seq<TaskAct>)
    requires n < |items| && Tasks.CleanItems(items) && (Tasks.Confirmed(dsco, items[n].key) ==> items[n].key in w.confirmed)
    requires AckedTo(w, r, acts, items, dsco, details, multiBan, down, n)
    ensures AckedTo(w, r, more, items, dsco, details, multiBan, down, n + 1)
  {
    var pos, rows := Requested(items, dsco, details, multiBan, n), Direct(w.rows, items, dsco, multiBan, down, n);
    var act := AckAct(items[n], dsco, details, multiBan);
    DirectNext(w.rows, items, dsco, details, multiBan, down, n);
    AckLook(AfterRun(w, r, acts), items, dsco, details, multiBan, n);
    more := Acted(w, r, acts, AckTask(items, pos, details, n), rows, act);
    if act.SeenConfirmed? {
      AckWrite(AfterRun(w, r, more), items, pos, details, n, items[n].key !in down);
      more := Acted(w, r, more, Seen(items, pos, details, n), rows, WriteBack(items[n].key, items[n].key !in down));
    }
  }

  lemma AckItems(w: World, r: Locking.RunId, start: seq<TaskAct>, items: seq<Tasks.Item>, dsco: map<string, string>,
                 details: map<string, seq<int>>, multiBan: bool, down: set<string>) returns (acts: seq<TaskAct>)
    requires Tasks.CleanItems(items) && forall po :: Tasks.Confirmed(dsco, po) ==> po in w.confirmed
    requires AckedTo(w, r, start, items, dsco, details, multiBan, down, 0)
    ensures AckedTo(w, r, acts, items, dsco, details, multiBan, down, |items|)
  {
    acts := start;
    for n := 0 to |items|
      invariant AckedTo(w, r, acts, items, dsco, details, multiBan, down, n)
    {
      acts := AckItem(w, r, acts, items, dsco, details, multiBan, down, n);
    }
  }

  /** The batch call was accepted and these rows are still to be written. */
  function Draining(pos: set<string>, details: map<string, seq<int>>): Task
    requires pos <= details.Keys
  {
    NewTask(AckJob).(stage := Settled, ready := Batch(pos, details))
  }

  lemma DrainOne(w: World, pos: set<string>, details: map<string, seq<int>>, k: string, up: bool)
    requires pos <= details.Keys && k in pos
    ensures var t, act := Draining(pos, details), WriteBack(k, up);
            && CanDo(w, t, act) && TaskAfter(w, t, act) == Draining(pos - {k}, details)
            && RowsAfter(w, t, act) == if up then Written(w.rows, k, SetFields(3, "", "")) else w.rows
  {
    assert Batch(pos, details) - {k} == Batch(pos - {k}, details);
  }

  lemma Drained(w: World, r: Locking.RunId, acts: seq<TaskAct>, pos: set<string>, details: map<string, seq<int>>,
                moved: set<string>, k: string, up: bool) returns (more: seq<TaskAct>)
    requires pos <= details.Keys && k in pos && At(w, r, acts, Draining(pos, details), Tasks.Moved(w.rows, moved, 3))
    ensures At(w, r, more, Draining(pos - {k}, details), Tasks.Moved(w.rows, if up then moved + {k} else moved, 3))
  {
    Tasks.MoveOne(w.rows, moved, 3, k);
    DrainOne(AfterRun(w, r, acts), pos, details, k, up);
    more := Acted(w, r, acts, Draining(pos, details), Tasks.Moved(w.rows, moved, 3), WriteBack(k, up));
  }

  lemma {:induction false} Drain(w: World, r: Locking.RunId, acts: seq<TaskAct>, pos: set<string>, details: map<string, seq<int>>,
                                 moved: set<string>, down: set<string>) returns (more: seq<TaskAct>)
    requires pos <= details.Keys && At(w, r, acts, Draining(pos, details), Tasks.Moved(w.rows, moved, 3))
    ensures At(w, r, more, Draining({}, details), Tasks.Moved(w.rows, moved + (pos - down), 3))
    decreases pos
  {
    if pos == {} {
      assert moved + (pos - down) == moved;
      more := acts;
    } else {
      var k :| k in pos;
      var next := if k in down then moved else moved + {k};
      more := Drained(w, r, acts, pos, details, moved, k, k !in down);
      more := Drain(w, r, more, pos - {k}, details, next, down);
      assert next + (pos - {k} - down) == moved + (pos - down);
    }
  }

  /** The batch call, and the writes after it if it was accepted. */
  lemma AckSend(w: World, items: seq<Tasks.Item>, pos: set<string>, details: map<string, seq<int>>, accepted: bool)
    requires pos <= details.Keys && pos != {}
    ensures var t, act := AckTask(items, pos, details, |items|), Send(accepted, accepted);
            && CanDo(w, t, act) && RowsAfter(w, t, act) == w.rows
            && TaskAfter(w, t, act) == if accepted then Draining(pos, details) else Draining({}, details)
  {
    var k :| k in pos;
    assert k in Batch(pos, details);
    assert Batch({}, details) == map[];
  }

  lemma AckFinish(w: World, r: Locking.RunId, acts: seq<TaskAct>, items: seq<Tasks.Item>, pos: set<string>, details: map<string, seq<int>>,
                  moved: set<string>, accepted: bool, down: set<string>) returns (more: seq<TaskAct>)
    requires pos <= details.Keys && At(w, r, acts, AckTask(items, pos, details, |items|), Tasks.Moved(w.rows, moved, 3))
    ensures CanRun(w, r, more)
    ensures AfterRun(w, r, more).rows == Tasks.Moved(w.rows, moved + if accepted then pos - down else {}, 3)
  {
    assert moved + {} == moved;
    if pos == {} {
      assert pos - down == {};
      more := acts;
    } else {
      AckSend(AfterRun(w, r, acts), items, pos, details, accepted);
      more := Acted(w, r, acts, AckTask(items, pos, details, |items|), Tasks.Moved(w.rows, moved, 3), Send(accepted, accepted));
      if accepted {
        more := Drain(w, r, more, pos, details, moved, down);
      }
    }
  }

  lemma RequestedIs(items: seq<Tasks.Item>, dsco: map<string, string>, details: map<string, seq<int>>, multiBan: bool, down: set<string>)
    requires Tasks.CleanItems(items)
    ensures var need := Tasks.Plan(items, dsco, multiBan, down, |items|).need;
            Requested(items, dsco, details, multiBan, |items|) == Tasks.Members(Tasks.Ready(need, details, |need|))
  {
    var need := Tasks.Plan(items, dsco, multiBan, down, |items|).need;
    forall po ensures po in Requested(items, dsco, details, multiBan, |items|) <==> po in Tasks.Ready(need, details, |need|) {
      RequestedIff(items, dsco, details, multiBan, |items|, po);
      Tasks.AckedIff(items, dsco, details, multiBan, down, po);
    }
  }

  /**
   Likewise an uninterrupted ack run as `Tasks.AckToDSCO` describes it, when DSCO confirms only what has
   been acknowledged.
   */
  lemma AckRunIsSteps(w: World, r: Locking.RunId, items: seq<Tasks.Item>, dsco: map<string, string>, details: map<string, seq<int>>,
                      multiBan: bool, accepted: bool, down: set<string>) returns (acts: seq<TaskAct>)
    requires Selectable(w, r, AckJob, items)
    requires forall po :: Tasks.Confirmed(dsco, po) ==> po in w.confirmed
    ensures var plan := Tasks.Plan(items, dsco, multiBan, down, |items|);
            var requested := Tasks.Ready(plan.need, details, |plan.need|);
            && CanRun(w, r, acts)
            && AfterRun(w, r, acts).rows ==
               Tasks.Moved(w.rows, plan.direct + if requested == [] || accepted then Tasks.Members(requested) - down else {}, 3)
  {
    var plan := Tasks.Plan(items, dsco, multiBan, down, |items|);
    var pos := Requested(items, dsco, details, multiBan, |items|);
    acts := RunSelects(w, r, AckJob, items);
    assert Batch({}, details) == map[];
    Tasks.MoveOne(w.rows, {}, 3, "");
    acts := AckItems(w, r, acts, items, dsco, details, multiBan, down);
    acts := AckFinish(w, r, acts, items, pos, details, plan.direct, accepted, down);
    RequestedIs(items, dsco, details, multiBan, down);
    NoneRequested(Tasks.Ready(plan.need, details, |plan.need|), down);
  }

  lemma NoneRequested(requested: seq<string>, down: set<string>)
    ensures requested == [] ==> Tasks.Members(requested) - down == {}
  {
  }
}
