/**
 Runs of the whole system that show what is and what is not possible: an order carried from 1 to 5,
 an order created in LingXing twice, and a finished row taken back to 3.
 */
module PipelineExample {
  import opened Text
  import opened Orders
  import opened OrderStore
  import opened Pipeline
  import opened Tracking
  import Aggregation
  import Locking = AdvisoryLock
  import Shipment
  import Invoice
  import ChangeLog
  import Mskus
  import Evidence = PipelineEvidence
  import PipelineSafety
  import PipelineTheorems

  // ---------------------------------------------------------------- building a schedule

  /** The actions taken so far, last first. */
  datatype Path = Here | More(before: Path, action: Action)

  ghost predicate Walks(w0: World, p: Path)
    decreases p, 0
  {
    p.More? ==> Walks(w0, p.before) && Enabled(EndOf(w0, p.before), p.action)
  }

  ghost function EndOf(w0: World, p: Path): World
    requires Walks(w0, p)
    decreases p, 1
  {
    if p.Here? then w0 else Next(EndOf(w0, p.before), p.action)
  }

  ghost predicate Visited(w0: World, p: Path, v: World)
    requires Walks(w0, p)
  {
    EndOf(w0, p) == v || (p.More? && Visited(w0, p.before, v))
  }

  /** q walks on from where p ends. */
  ghost predicate Extends(w0: World, p: Path, q: Path) {
    Walks(w0, p) && Walks(w0, q) && forall v :: Visited(w0, p, v) ==> Visited(w0, q, v)
  }

  lemma NextState(w0: World, done: Path, a: Action) returns (p: Path)
    requires Walks(w0, done) && Enabled(EndOf(w0, done), a)
    ensures Extends(w0, done, p) && EndOf(w0, p) == Next(EndOf(w0, done), a)
  {
    p := More(done, a);
  }

  lemma ScheduleMore(states: seq<World>, actions: seq<Action>, a: Action)
    requires Schedule(states, actions) && Enabled(states[|actions|], a)
    ensures Schedule(states + [Next(states[|actions|], a)], actions + [a])
  {
    var after, all := states + [Next(states[|actions|], a)], actions + [a];
    forall i | 0 <= i < |all| ensures Enabled(after[i], all[i]) && after[i + 1] == Next(after[i], all[i]) {
      if i < |actions| {
        assert after[i] == states[i] && after[i + 1] == states[i + 1] && all[i] == actions[i];
      }
    }
  }

  lemma {:induction false} AsSchedule(w0: World, p: Path) returns (states: seq<World>, actions: seq<Action>)
    requires Initial(w0) && Walks(w0, p)
    ensures Schedule(states, actions) && states[|actions|] == EndOf(w0, p)
    ensures forall v :: Visited(w0, p, v) ==> v in states
  {
    if p.Here? {
      states, actions := [w0], [];
    } else {
      var before, done := AsSchedule(w0, p.before);
      ScheduleMore(before, done, p.action);
      states, actions := before + [EndOf(w0, p)], done + [p.action];
    }
  }

  /** The empty world. */
  function Empty(keys: Keys, reverse: map<string, string>): World {
    World(keys, reverse, Locking.INIT, map[], map[], map[], {}, {}, map[])
  }

  // ---------------------------------------------------------------- starting and ending a run

  function AloneLocked(key: Locking.Key, r: Locking.RunId, s: Locking.Session): Locking.Locks {
    Locking.Locks(map[key := Locking.Held(s, 1)], {}, map[r := Locking.Run(key, s)])
  }

  predicate LockStep(before: Locking.Locks, a: Locking.Action, after: Locking.Locks) {
    Locking.Enabled(before, a) && Locking.Next(before, a) == after
  }

  /** How a single run takes, gives back and loses its lock, and how a session is opened when there is none. */
  lemma AloneSteps(key: Locking.Key, r: Locking.RunId, s: Locking.Session)
    ensures var free, taken, none := Locking.Locks(map[], {s}, map[]), AloneLocked(key, r, s), Locking.Locks(map[], {}, map[]);
            && LockStep(free, Locking.Acquire(r, key, s, Locking.Answered), taken)
            && LockStep(taken, Locking.Release(r, Locking.Answered), free)
            && LockStep(taken, Locking.Crash(r), none)
            && LockStep(none, Locking.Open(s), free)
  {
    var taken := AloneLocked(key, r, s);
    assert Locking.Unlocked(taken.held, key, s) == map[] && Locking.Dropped(taken.held, s) == map[];
    assert taken.runs - {r} == map[];
  }

  /** Nothing runs, and session s waits in the pool. */
  predicate Idle(w: World, s: Locking.Session) {
    w.tasks == map[] && w.locks == Locking.Locks(map[], {s}, map[])
  }

  /** Only run r is under way, on session s, and has come as far as t. */
  predicate Runs(w: World, r: Locking.RunId, s: Locking.Session, t: Task) {
    w.tasks == map[r := t] && w.locks == AloneLocked(KeyOf(w.keys, t.job), r, s)
  }

  /** What neither starting nor ending a run touches. */
  predicate SameData(w: World, w': World) {
    w'.keys == w.keys && w'.reverse == w.reverse && w'.rows == w.rows && w'.created == w.created && w'.asked == w.asked
    && w'.confirmed == w.confirmed && w'.outbound == w.outbound
  }

  /** The run has selected the one row. */
  function Chosen(job: Job, k: string, row: Row): Task {
    NewTask(job).(stage := if job == PushJob then Selected else Collecting, todo := map[k := row])
  }

  lemma Started(w0: World, done: Path, r: Locking.RunId, s: Locking.Session, job: Job)
    returns (p: Path)
    requires Walks(w0, done) && Idle(EndOf(w0, done), s)
    ensures Extends(w0, done, p) && Runs(EndOf(w0, p), r, s, NewTask(job)) && SameData(EndOf(w0, done), EndOf(w0, p))
  {
    AloneSteps(KeyOf(EndOf(w0, done).keys, job), r, s);
    p := NextState(w0, done, Begin(r, job, s, Locking.Answered));
  }

  lemma Ended(w0: World, done: Path, r: Locking.RunId, s: Locking.Session, t: Task)
    returns (p: Path)
    requires Walks(w0, done) && Runs(EndOf(w0, done), r, s, t)
    ensures Extends(w0, done, p) && Idle(EndOf(w0, p), s) && SameData(EndOf(w0, done), EndOf(w0, p))
  {
    AloneSteps(KeyOf(EndOf(w0, done).keys, t.job), r, s);
    p := NextState(w0, done, Finish(r, Locking.Answered));
    assert EndOf(w0, p).tasks == map[];
  }

  lemma StepFields(w: World, r: Locking.RunId, act: TaskAct)
    requires r in w.tasks && CanDo(w, w.tasks[r], act)
    ensures var w' := AfterDo(w, r, act);
            w'.keys == w.keys && w'.locks == w.locks && w'.tasks == w.tasks[r := TaskAfter(w, w.tasks[r], act)]
  {
  }

  lemma OnlyTask(r: Locking.RunId, t: Task, t': Task)
    ensures map[r := t][r := t'] == map[r := t'] && r in map[r := t]
  {
  }

  lemma StillRuns(w: World, r: Locking.RunId, s: Locking.Session, t: Task, act: TaskAct)
    requires Runs(w, r, s, t) && CanDo(w, t, act)
    ensures r in w.tasks && w.tasks[r] == t && Runs(AfterDo(w, r, act), r, s, TaskAfter(w, t, act))
  {
    OnlyTask(r, t, TaskAfter(w, t, act));
    PipelineSafety.TaskKeepsJob(w, t, act);
    StepFields(w, r, act);
  }

  /** One step of the only run. */
  lemma Acted(w0: World, done: Path, r: Locking.RunId, s: Locking.Session, t: Task, act: TaskAct)
    returns (p: Path)
    requires Walks(w0, done) && Runs(EndOf(w0, done), r, s, t) && CanDo(EndOf(w0, done), t, act)
    ensures Extends(w0, done, p) && Runs(EndOf(w0, p), r, s, TaskAfter(EndOf(w0, done), t, act))
    ensures EndOf(w0, p) == AfterDo(EndOf(w0, done), r, act)
  {
    StillRuns(EndOf(w0, done), r, s, t, act);
    p := NextState(w0, done, Do(r, act));
  }

  lemma RowSelected(w0: World, done: Path, r: Locking.RunId, s: Locking.Session, job: Job, k: string)
    returns (p: Path)
    requires Walks(w0, done) && Idle(EndOf(w0, done), s)
    requires k in EndOf(w0, done).rows && EndOf(w0, done).rows[k].status == Source(job)
    ensures Extends(w0, done, p) && Runs(EndOf(w0, p), r, s, Chosen(job, k, EndOf(w0, done).rows[k]))
    ensures SameData(EndOf(w0, done), EndOf(w0, p))
  {
    p := Started(w0, done, r, s, job);
    var w := EndOf(w0, p);
    assert k in WithStatus(w.rows, Source(job));
    p := Acted(w0, p, r, s, NewTask(job), Select({k}));
    assert TaskAfter(w, NewTask(job), Select({k})).todo == map[k := w.rows[k]];
  }

  /** The last step of a run that has one write to make. */
  lemma RowWritten(w0: World, done: Path, r: Locking.RunId, s: Locking.Session, t: Task, k: string)
    returns (p: Path)
    requires Walks(w0, done) && Runs(EndOf(w0, done), r, s, t) && k in t.ready
    ensures Extends(w0, done, p) && Idle(EndOf(w0, p), s)
    ensures var w, w' := EndOf(w0, done), EndOf(w0, p);
            SameData(w.(rows := Written(w.rows, t.ready[k].po, t.ready[k].write)), w')
  {
    p := Acted(w0, done, r, s, t, WriteBack(k, true));
    p := Ended(w0, p, r, s, TaskAfter(EndOf(w0, done), t, WriteBack(k, true)));
  }

  // ---------------------------------------------------------------- the four jobs, for one row

  /** The row of a pulled order that nothing is known of in LingXing. */
  predicate NewRow(w: World, k: string) {
    k in w.rows && w.rows[k].status == 1 && w.rows[k].payload.Some? && w.rows[k].payload.value.poNumber == k
  }

  /** A push run asks LingXing and is told of nothing. */
  lemma NothingFound(w0: World, done: Path, r: Locking.RunId, s: Locking.Session, k: string)
    returns (p: Path)
    requires Walks(w0, done) && Idle(EndOf(w0, done), s) && NewRow(EndOf(w0, done), k)
    ensures Extends(w0, done, p) && SameData(EndOf(w0, done), EndOf(w0, p))
    ensures Runs(EndOf(w0, p), r, s, Chosen(PushJob, k, EndOf(w0, done).rows[k]).(stage := Collecting))
  {
    p := RowSelected(w0, done, r, s, PushJob, k);
    var t := Chosen(PushJob, k, EndOf(w0, done).rows[k]);
    assert TaskAfter(EndOf(w0, p), t, Query({})) == t.(stage := Collecting);
    p := Acted(w0, p, r, s, t, Query({}));
  }

  /** The run has created the order and has its row to write. */
  function Pushing(k: string): Task {
    NewTask(PushJob).(stage := Collecting, ready := map[k := Issued(k, SetFields(2, "", ""), OnLingXing)])
  }

  lemma MayCreate(w: World, k: string, row: Row)
    requires row.payload.Some? && row.payload.value.poNumber == k
    ensures var t, act := Chosen(PushJob, k, row).(stage := Collecting), Create(k, true, true);
            CanDo(w, t, act) && TaskAfter(w, t, act) == Pushing(k) && CreatedAfter(w, t, act) == w.created[k := Created(w.created, k) + 1]
  {
    assert map[k := row] - {k} == map[];
  }

  function WithCreated(w: World, k: string): World {
    w.(created := w.created[k := Created(w.created, k) + 1])
  }

  lemma OneCreated(w: World, asked: World, w': World, k: string)
    requires SameData(w, asked) && SameData(WithCreated(asked, k), w')
    ensures SameData(WithCreated(w, k), w')
  {
  }

  /** So it creates the order. */
  lemma OrderCreated(w0: World, done: Path, r: Locking.RunId, s: Locking.Session, k: string) returns (p: Path)
    requires Walks(w0, done) && Idle(EndOf(w0, done), s) && NewRow(EndOf(w0, done), k)
    ensures Extends(w0, done, p) && Runs(EndOf(w0, p), r, s, Pushing(k))
    ensures SameData(WithCreated(EndOf(w0, done), k), EndOf(w0, p))
  {
    var q := NothingFound(w0, done, r, s, k);
    p := CreateTaken(w0, q, r, s, k, EndOf(w0, done).rows[k]);
    OneCreated(EndOf(w0, done), EndOf(w0, q), EndOf(w0, p), k);
  }

  lemma CreateTaken(w0: World, done: Path, r: Locking.RunId, s: Locking.Session, k: string, row: Row) returns (p: Path)
    requires row.payload.Some? && row.payload.value.poNumber == k
    requires Walks(w0, done) && Runs(EndOf(w0, done), r, s, Chosen(PushJob, k, row).(stage := Collecting))
    ensures Extends(w0, done, p) && Runs(EndOf(w0, p), r, s, Pushing(k))
    ensures SameData(WithCreated(EndOf(w0, done), k), EndOf(w0, p))
  {
    MayCreate(EndOf(w0, done), k, row);
    p := Acted(w0, done, r, s, Chosen(PushJob, k, row).(stage := Collecting), Create(k, true, true));
  }

  lemma Pushed(w0: World, done: Path, r: Locking.RunId, s: Locking.Session, k: string)
    returns (p: Path)
    requires Walks(w0, done) && Idle(EndOf(w0, done), s) && NewRow(EndOf(w0, done), k)
    ensures Extends(w0, done, p) && Idle(EndOf(w0, p), s)
    ensures var w := EndOf(w0, done);
            SameData(w.(created := w.created[k := Created(w.created, k) + 1],
                        rows := Written(w.rows, k, SetFields(2, "", ""))), EndOf(w0, p))
  {
    p := OrderCreated(w0, done, r, s, k);
    p := RowWritten(w0, p, r, s, Pushing(k), k);
  }

  /** An ack run finds the order confirmed in DSCO and writes at once, by the trimmed key. */
  lemma SeenInDsco(w0: World, done: Path, r: Locking.RunId, s: Locking.Session, k: string)
    returns (p: Path)
    requires Walks(w0, done) && Idle(EndOf(w0, done), s)
    requires k in EndOf(w0, done).rows && EndOf(w0, done).rows[k].status == 2 && Trim(k) in EndOf(w0, done).confirmed
    ensures Extends(w0, done, p) && Idle(EndOf(w0, p), s)
    ensures var w := EndOf(w0, done); SameData(w.(rows := Written(w.rows, Trim(k), SetFields(3, "", ""))), EndOf(w0, p))
  {
    p := RowSelected(w0, done, r, s, AckJob, k);
    var t := Chosen(AckJob, k, EndOf(w0, done).rows[k]);
    var seen := TaskAfter(EndOf(w0, p), t, SeenConfirmed(k));
    p := Acted(w0, p, r, s, t, SeenConfirmed(k));
    p := RowWritten(w0, p, r, s, seen, k);
  }

  /** What a run writes for row k after its batch call. */
  lemma BatchSent(w0: World, done: Path, r: Locking.RunId, s: Locking.Session, t: Task)
    returns (p: Path)
    requires Walks(w0, done) && Runs(EndOf(w0, done), r, s, t)
    requires CanDo(EndOf(w0, done), t, Send(true, true))
    ensures Extends(w0, done, p) && Runs(EndOf(w0, p), r, s, TaskAfter(EndOf(w0, done), t, Send(true, true)))
    ensures var w := EndOf(w0, done); SameData(w.(asked := AskedAfter(w, t, Send(true, true))), EndOf(w0, p))
  {
    p := Acted(w0, done, r, s, t, Send(true, true));
  }

  /** An ack run finds the LingXing order ready, acknowledges it and writes. */
  lemma Acknowledged(w0: World, done: Path, r: Locking.RunId, s: Locking.Session, k: string)
    returns (p: Path)
    requires Walks(w0, done) && Idle(EndOf(w0, done), s)
    requires k in EndOf(w0, done).rows && EndOf(w0, done).rows[k].status == 2 && Trim(k) == k != ""
    ensures Extends(w0, done, p) && Idle(EndOf(w0, p), s)
    ensures var w := EndOf(w0, done); SameData(w.(asked := w.asked + {k}, rows := Written(w.rows, k, SetFields(3, "", ""))), EndOf(w0, p))
  {
    p := RowSelected(w0, done, r, s, AckJob, k);
    var t := Chosen(AckJob, k, EndOf(w0, done).rows[k]);
    var act := JoinAck(k, [PENDING_SHIPMENT]);
    var joined := TaskAfter(EndOf(w0, p), t, act);
    p := Acted(w0, p, r, s, t, act);
    assert joined.batch == map[k := Issued(k, SetFields(3, "", ""), OnAck([PENDING_SHIPMENT]))] && joined.todo == map[];
    var sent := TaskAfter(EndOf(w0, p), joined, Send(true, true));
    OnlyWanted(joined.batch, k);
    p := BatchSent(w0, p, r, s, joined);
    p := RowWritten(w0, p, r, s, sent, k);
  }

  lemma OnlyWanted(batch: map<string, Issued>, k: string)
    requires batch.Keys == {k} && Trim(batch[k].po) == k
    ensures Wanted(batch) == {k}
  {
    assert k in batch;
  }

  /** A batch of one, sent and settled by the given verdicts, and written back. */
  lemma Confirmed(w0: World, done: Path, r: Locking.RunId, s: Locking.Session, t: Task, k: string,
                  entries: seq<ChangeLog.Entry>)
    returns (p: Path)
    requires Walks(w0, done) && Runs(EndOf(w0, done), r, s, t) && (t.job == ShipJob || t.job == InvoiceJob)
    requires CanDo(EndOf(w0, done), t, Send(true, true)) && k in t.batch && Accepted(t, entries, {}, Trim(t.batch[k].po))
    ensures Extends(w0, done, p) && Idle(EndOf(w0, p), s)
    ensures var w := EndOf(w0, done); SameData(w.(rows := Written(w.rows, t.batch[k].po, t.batch[k].write)), EndOf(w0, p))
  {
    var sent := TaskAfter(EndOf(w0, done), t, Send(true, true));
    p := BatchSent(w0, done, r, s, t);
    var settled := TaskAfter(EndOf(w0, p), sent, Verdicts(entries, {}));
    p := Acted(w0, p, r, s, sent, Verdicts(entries, {}));
    assert k in settled.ready && settled.ready[k] == t.batch[k];
    p := RowWritten(w0, p, r, s, settled, k);
  }

  // ---------------------------------------------------------------- one order, one parcel

  const LINE := Line(Some("S"), None, 1, Some(10.0), None, None, None)
  const ORDER := Order("A", [LINE])
  const PARCELS := [Outbound("T", [Product("S", 1)])]

  function NoNames(): Names {
    Names(map[], AliasMap([LINE]))
  }

  lemma OneLine()
    ensures Expected([LINE]) == map["S" := 1] && AliasMap([LINE]) == map["S" := "S"]
    ensures Invoice.PriceByKey([LINE]) == map["S" := 10.0]
  {
    assert [LINE][..0] == [] && [LINE][0] == LINE;
    assert LineSku(LINE) == "S" && LinePartner(LINE) == "" && LineKey(LINE) == "S";
    assert Invoice.PickUnitPrice(LINE) == Some(10.0);
    assert Invoice.PriceByKey([]) == map[];
    assert Invoice.PriceByKey([LINE]) == Invoice.NotePrice(Invoice.PriceByKey([]), LINE);
  }

  lemma OneProduct()
    ensures Counts(Product("S", 1)) && Resolve(NoNames(), Product("S", 1)) == "S"
    ensures ProductsQty(NoNames(), [Product("S", 1)], "S") == 1
  {
    OneLine();
    var p := Product("S", 1);
    assert Trim("S") == "S" && Trim("") == "";
    assert [p][..0] == [] && [p][0] == p;
    assert ProductsQty(NoNames(), [], "S") == 0;
  }

  lemma OneParcel()
    ensures TrackedQty(NoNames(), PARCELS, "S") == 1 && UnderQty(NoNames(), PARCELS, "T", "S") == 1
    ensures ShipGate([LINE], map[], PARCELS)
    ensures forall t :: t in Aggregation.Aggregate(NoNames(), PARCELS) <==> t == "T"
    ensures Aggregation.Aggregate(NoNames(), PARCELS)["T"] != map[]
  {
    OneLine();
    OneProduct();
    var w := Outbound("T", [Product("S", 1)]);
    assert Trim("T") == "T" && PARCELS[..0] == [] && PARCELS[0] == w;
    assert TrackedQty(NoNames(), [], "S") == 0 && UnderQty(NoNames(), [], "T", "S") == 0;
    forall t ensures t in Aggregation.Aggregate(NoNames(), PARCELS) <==> t == "T" {
      Aggregation.AggregateMeaning(NoNames(), PARCELS, t, "S");
      assert Aggregation.HasTracking(PARCELS, "T");
    }
    Shipment.GroupNonEmptyIff(NoNames(), PARCELS, "T");
  }

  const MSKUS := Mskus.Tokens([LINE])

  const SHIP_INPUT := Shipment.ShipInput("A", "", MSKUS, false, None, Some(ORDER), true, Some(PARCELS), map[])

  lemma ShipsParcel()
    ensures Shipment.ShipDecision(SHIP_INPUT).Send? && Shipment.ShipDecision(SHIP_INPUT).record == {"T"}
  {
    OneParcel();
    assert Trim("A") == "A" && Tokens("") == [];
    var agg := Shipment.GroupsOf(SHIP_INPUT);
    assert agg == Aggregation.Aggregate(NoNames(), PARCELS);
    assert Shipment.AlreadySent(SHIP_INPUT) == {} && Shipment.ExistingTrackings(SHIP_INPUT) == {};
    assert agg.Keys == {"T"};
    assert Shipment.ToSend(agg, {}) == {"T"};
    assert "T" in Shipment.ShipmentsFor(agg, [LINE], {});
    Shipment.DecisionIsSplit(SHIP_INPUT);
  }

  lemma RecordedAsT()
    ensures TokenSet("T") == FieldSet({"T"})
  {
    CleanIsItself("T");
    FieldSetFaithfulIff({"T"});
    assert Tokens("T") == ["T"];
  }

  const INVOICE_INPUT := Invoice.InvoiceInput("A", "", None, MSKUS, false, Some(ORDER), true, Some(PARCELS), map[])

  lemma InvoicesLine()
    ensures Invoice.InvoiceDecision(INVOICE_INPUT).Send?
  {
    OneParcel();
    OneLine();
    assert Trim("A") == "A";
    ShipGateImpliesInvoiceGate([LINE], map[], PARCELS, PARCELS);
    Invoice.SendIffBuilt(INVOICE_INPUT);
  }

  // ---------------------------------------------------------------- from 1 to 5

  lemma {:induction false} LowerCase(s: string)
    requires forall i :: 0 <= i < |s| ==> 'a' <= s[i] <= 'z'
    ensures ChangeLog.Lower(s) == s
  {
    if s != "" {
      LowerCase(s[1..]);
    }
  }

  const SUCCESS := ChangeLog.Entry("A", "success")

  lemma KeptAsIs(s: string)
    requires s != "" && forall i :: 0 <= i < |s| ==> 'a' <= s[i] <= 'z'
    ensures ChangeLog.Lower(Trim(s)) == s
  {
    LowerCase(s);
    assert Trimmed(s);
  }

  lemma SuccessIsSuccess()
    ensures ChangeLog.MarkOf(SUCCESS) == ChangeLog.Success
  {
    KeptAsIs("success");
  }

  lemma NotedSuccess(rule: ChangeLog.Rule, e: ChangeLog.Entry, want: set<string>)
    requires ChangeLog.MarkOf(e) == ChangeLog.Success && e.id != "" && e.id in want
    ensures ChangeLog.NoteAll(rule, [e], want) == map[e.id := true]
  {
    assert [e][..0] == [];
    assert ChangeLog.NoteAll(rule, [], want) == map[];
  }

  lemma SuccessAccepted(t: Task)
    requires t.batch.Keys == {"A"} && t.batch["A"].po == "A"
    ensures Accepted(t, [SUCCESS], {}, Trim("A"))
  {
    assert Trim("A") == "A";
    OnlyWanted(t.batch, "A");
    SuccessIsSuccess();
    NotedSuccess(ChangeLog.FailureWins, SUCCESS, Wanted(t.batch));
    NotedSuccess(ChangeLog.LastWins, SUCCESS, Wanted(t.batch));
  }

  /** The one row of the table and what is shipped for it. */
  predicate OneRow(w: World, row: Row) {
    w.rows == map["A" := row] && w.reverse == map[] && row.payload == Some(ORDER) && row.mskus == MSKUS
  }

  lemma MayShip(w: World, row: Row)
    requires OneRow(w, row) && row.status == 3 && row.tracking == "" && OutboundOf(w.outbound, "A") == PARCELS
    ensures CanDo(w, Chosen(ShipJob, "A", row), JoinShip("A", SHIP_INPUT, "T"))
    ensures TaskAfter(w, Chosen(ShipJob, "A", row), JoinShip("A", SHIP_INPUT, "T"))
            == Batched(ShipJob, Issued("A", SetTracking(4, "T"), OnShip(SHIP_INPUT)))
  {
    ShipsParcel();
    RecordedAsT();
    assert Trim("A") == "A";
    assert ShipInputFor(w, "A", row, SHIP_INPUT);
    assert map["A" := row] - {"A"} == map[];
  }

  lemma MayInvoice(w: World, row: Row)
    requires OneRow(w, row) && row.status == 4 && row.invoiceId == "" && OutboundOf(w.outbound, "A") == PARCELS
    ensures CanDo(w, Chosen(InvoiceJob, "A", row), JoinInvoice("A", INVOICE_INPUT))
    ensures TaskAfter(w, Chosen(InvoiceJob, "A", row), JoinInvoice("A", INVOICE_INPUT))
            == Batched(InvoiceJob, Issued("A", SetInvoice(5, "A"), OnInvoice(INVOICE_INPUT)))
  {
    InvoicesLine();
    assert Trim("A") == "A";
    assert InvoiceInputFor(w, "A", row, INVOICE_INPUT);
    assert map["A" := row] - {"A"} == map[];
  }

  /** The run has prepared its one write for the batch call. */
  function Batched(job: Job, i: Issued): Task {
    NewTask(job).(stage := Collecting, batch := map["A" := i])
  }

  /** A write to the one row there is. */
  lemma OnlyRowWritten(k: string, row: Row, w: Write)
    requires Trim(k) == k != ""
    ensures Written(map[k := row], k, w) == map[k := Updated(row, w)]
  {
  }

  lemma MaySend(w: World, job: Job, i: Issued)
    requires job != PushJob
    ensures CanDo(w, Batched(job, i), Send(true, true))
  {
    assert "A" in Batched(job, i).batch;
  }

  /** The batch of one is sent, reported as a success, and written. */
  lemma BatchWritten(w0: World, done: Path, job: Job, i: Issued, row: Row) returns (p: Path)
    requires Walks(w0, done) && (job == ShipJob || job == InvoiceJob) && i.po == "A" && EndOf(w0, done).rows == map["A" := row]
    requires Runs(EndOf(w0, done), 7, 1, Batched(job, i)) && (i.write.SetTracking? || i.write.SetInvoice?)
    ensures Extends(w0, done, p) && Idle(EndOf(w0, p), 1)
    ensures SameData(EndOf(w0, done).(rows := map["A" := Updated(row, i.write)]), EndOf(w0, p))
  {
    assert Trim("A") == "A";
    OnlyRowWritten("A", row, i.write);
    SuccessAccepted(Batched(job, i));
    MaySend(EndOf(w0, done), job, i);
    p := Confirmed(w0, done, 7, 1, Batched(job, i), "A", [SUCCESS]);
  }

  lemma Shipped(w0: World, done: Path, row: Row) returns (p: Path)
    requires Walks(w0, done) && Idle(EndOf(w0, done), 1) && OneRow(EndOf(w0, done), row)
    requires row.status == 3 && row.tracking == "" && OutboundOf(EndOf(w0, done).outbound, "A") == PARCELS
    ensures Extends(w0, done, p) && Idle(EndOf(w0, p), 1)
    ensures SameData(EndOf(w0, done).(rows := map["A" := Updated(row, SetTracking(4, "T"))]), EndOf(w0, p))
  {
    p := RowSelected(w0, done, 7, 1, ShipJob, "A");
    MayShip(EndOf(w0, p), row);
    p := Acted(w0, p, 7, 1, Chosen(ShipJob, "A", row), JoinShip("A", SHIP_INPUT, "T"));
    p := BatchWritten(w0, p, ShipJob, Issued("A", SetTracking(4, "T"), OnShip(SHIP_INPUT)), row);
  }

  lemma Invoiced(w0: World, done: Path, row: Row) returns (p: Path)
    requires Walks(w0, done) && Idle(EndOf(w0, done), 1) && OneRow(EndOf(w0, done), row)
    requires row.status == 4 && row.invoiceId == "" && OutboundOf(EndOf(w0, done).outbound, "A") == PARCELS
    ensures Extends(w0, done, p) && Idle(EndOf(w0, p), 1)
    ensures SameData(EndOf(w0, done).(rows := map["A" := Updated(row, SetInvoice(5, "A"))]), EndOf(w0, p))
  {
    p := RowSelected(w0, done, 7, 1, InvoiceJob, "A");
    MayInvoice(EndOf(w0, p), row);
    p := Acted(w0, p, 7, 1, Chosen(InvoiceJob, "A", row), JoinInvoice("A", INVOICE_INPUT));
    p := BatchWritten(w0, p, InvoiceJob, Issued("A", SetInvoice(5, "A"), OnInvoice(INVOICE_INPUT)), row);
  }

  lemma EnteredAtOne(order: Order)
    ensures EntryRow(order, "created", 0).status == 1
  {
    KeptAsIs("created");
  }

  lemma EnteredAtFive(order: Order)
    ensures EntryRow(order, "shipped", 0).status == 5
  {
    KeptAsIs("shipped");
  }

  /** A new order is pulled. */
  lemma Pulled(w0: World, done: Path, order: Order, dscoStatus: string) returns (p: Path)
    requires Walks(w0, done) && Trim(order.poNumber) != "" && order.poNumber !in EndOf(w0, done).rows
    ensures Extends(w0, done, p)
    ensures var w := EndOf(w0, done); EndOf(w0, p) == w.(rows := w.rows[order.poNumber := EntryRow(order, dscoStatus, 0)])
  {
    p := NextState(w0, done, Pull(order, dscoStatus, 0));
  }

  /** A first session is opened. */
  lemma Opened(w0: World, done: Path, s: Locking.Session) returns (p: Path)
    requires Walks(w0, done) && EndOf(w0, done).tasks == map[] && EndOf(w0, done).locks == Locking.Locks(map[], {}, map[])
    ensures Extends(w0, done, p) && Idle(EndOf(w0, p), s) && SameData(EndOf(w0, done), EndOf(w0, p))
  {
    AloneSteps(0, 0, s);
    p := NextState(w0, done, Open(s));
  }

  /** An order has been pulled into the empty table. */
  lemma OrderPulled(keys: Keys, reverse: map<string, string>, order: Order) returns (p: Path, v: World)
    requires Trim(order.poNumber) != ""
    ensures var w0 := Empty(keys, reverse);
            && Walks(w0, p) && Visited(w0, p, v) && Idle(EndOf(w0, p), 1)
            && v == w0.(rows := map[order.poNumber := EntryRow(order, "created", 0)]) && SameData(v, EndOf(w0, p))
    ensures EntryRow(order, "created", 0).status == 1
  {
    var w0 := Empty(keys, reverse);
    p := Pulled(w0, Here, order, "created");
    v := EndOf(w0, p);
    p := Opened(w0, p, 1);
    EnteredAtOne(order);
  }

  /** The order has come as far as row, DSCO has reported nothing, and v is a state it was at 1 in. */
  ghost predicate Carried(w0: World, p: Path, row: Row, v: World) {
    && Walks(w0, p) && Idle(EndOf(w0, p), 1) && OneRow(EndOf(w0, p), row) && EndOf(w0, p).confirmed == {}
    && Visited(w0, p, v) && "A" in v.rows && v.rows["A"].status == 1
  }

  lemma TrimmedA()
    ensures Trim("A") == "A" != ""
  {
  }

  /** The one new row is pushed. */
  lemma OneRowPushed(w0: World, done: Path, row: Row) returns (p: Path)
    requires Walks(w0, done) && Idle(EndOf(w0, done), 1) && OneRow(EndOf(w0, done), row) && row.status == 1
    ensures Extends(w0, done, p) && Idle(EndOf(w0, p), 1) && OneRow(EndOf(w0, p), Updated(row, SetFields(2, "", "")))
    ensures EndOf(w0, p).outbound == EndOf(w0, done).outbound && EndOf(w0, p).confirmed == EndOf(w0, done).confirmed
  {
    TrimmedA();
    OnlyRowWritten("A", row, SetFields(2, "", ""));
    p := Pushed(w0, done, 7, 1, "A");
  }

  lemma OneRowAcknowledged(w0: World, done: Path, row: Row) returns (p: Path)
    requires Walks(w0, done) && Idle(EndOf(w0, done), 1) && OneRow(EndOf(w0, done), row) && row.status == 2
    ensures Extends(w0, done, p) && Idle(EndOf(w0, p), 1) && OneRow(EndOf(w0, p), Updated(row, SetFields(3, "", "")))
    ensures EndOf(w0, p).outbound == EndOf(w0, done).outbound && EndOf(w0, p).confirmed == EndOf(w0, done).confirmed
  {
    TrimmedA();
    OnlyRowWritten("A", row, SetFields(3, "", ""));
    p := Acknowledged(w0, done, 7, 1, "A");
  }

  lemma CarriedToThree(keys: Keys) returns (p: Path, row: Row, v: World)
    ensures var w0 := Empty(keys, map[]); Carried(w0, p, row, v) && EndOf(w0, p).outbound == map[]
    ensures row.status == 3 && row.tracking == "" && row.invoiceId == ""
  {
    var w0 := Empty(keys, map[]);
    TrimmedA();
    row := EntryRow(ORDER, "created", 0);
    p, v := OrderPulled(keys, map[], ORDER);
    p := OneRowPushed(w0, p, row);
    row := Updated(row, SetFields(2, "", ""));
    p := OneRowAcknowledged(w0, p, row);
    row := Updated(row, SetFields(3, "", ""));
  }

  lemma ParcelsShipped(w0: World, done: Path) returns (p: Path)
    requires Walks(w0, done) && EndOf(w0, done).outbound == map[]
    ensures Extends(w0, done, p) && EndOf(w0, p) == EndOf(w0, done).(outbound := map["A" := PARCELS])
  {
    p := NextState(w0, done, Ships("A", PARCELS));
  }

  lemma CarriedToFive(keys: Keys) returns (p: Path, row: Row, v: World)
    ensures Carried(Empty(keys, map[]), p, row, v)
    ensures row.status == 5 && row.tracking == "T" && row.invoiceId == "A"
  {
    var w0 := Empty(keys, map[]);
    p, row, v := CarriedToThree(keys);
    p := ParcelsShipped(w0, p);
    p := Shipped(w0, p, row);
    row := Updated(row, SetTracking(4, "T"));
    p := Invoiced(w0, p, row);
    row := Updated(row, SetInvoice(5, "A"));
  }

  /** A schedule with clean keys. */
  ghost predicate CleanSchedule(states: seq<World>, actions: seq<Action>) {
    Schedule(states, actions) && forall i :: 0 <= i < |states| ==> TrimmedKeys(states[i])
  }

  /** Under clean keys no row has a twin, in particular. */
  lemma CleanHasNoTwins(w: World)
    requires TrimmedKeys(w)
    ensures NoTwins(w.rows)
  {
  }

  lemma ScheduledToFive(keys: Keys) returns (states: seq<World>, actions: seq<Action>, i: nat)
    ensures CleanSchedule(states, actions) && i < |states|
    ensures "A" in states[i].rows && states[i].rows["A"].status == 1 && states[|actions|].confirmed == {}
    ensures "A" in states[|actions|].rows
    ensures var row := states[|actions|].rows["A"]; row.status == 5 && row.tracking == "T" && row.invoiceId == "A"
  {
    var p, row, v := CarriedToFive(keys);
    TrimmedA();
    states, actions := AsSchedule(Empty(keys, map[]), p);
    PipelineTheorems.TrimmedThroughout(states, actions, |actions|);
    i :| 0 <= i < |states| && states[i] == v;
  }

  lemma ClimbsAt(states: seq<World>, actions: seq<Action>, i: nat, status: int) returns (n: nat)
    requires CleanSchedule(states, actions) && i < |states| && "A" in states[i].rows && "A" in states[|actions|].rows
    requires states[i].rows["A"].status <= status < states[|actions|].rows["A"].status
    ensures n < |actions| && Evidence.Climbs(states[n], states[n + 1], "A", status)
  {
    CleanHasNoTwins(states[|actions|]);
    n := PipelineTheorems.NoStatusSkipped(states, actions, i, |actions|, "A", status);
  }

  /**
   A schedule carries an order from 1 to 5, and so takes the steps that WhatReachingThreeTakes,
   WhatReachingFourTakes and WhatReachingFiveTakes speak of, although DSCO never reports the order.
   */
  lemma FullRun(keys: Keys) returns (states: seq<World>, actions: seq<Action>, three: nat, four: nat, five: nat)
    ensures CleanSchedule(states, actions) && three < |actions| && four < |actions| && five < |actions|
    ensures Evidence.Climbs(states[three], states[three + 1], "A", 2) && Evidence.Climbs(states[four], states[four + 1], "A", 3)
    ensures Evidence.Climbs(states[five], states[five + 1], "A", 4) && states[|actions|].confirmed == {}
    ensures "A" in states[|actions|].rows
    ensures var row := states[|actions|].rows["A"]; row.status == 5 && row.tracking == "T" && row.invoiceId == "A"
  {
    var i;
    states, actions, i := ScheduledToFive(keys);
    three := ClimbsAt(states, actions, i, 2);
    four := ClimbsAt(states, actions, i, 3);
    five := ClimbsAt(states, actions, i, 4);
  }

  /** A schedule ends with a row at 3 that DSCO has never reported as acknowledged. */
  lemma UnreportedAtThree(keys: Keys) returns (states: seq<World>, actions: seq<Action>)
    ensures CleanSchedule(states, actions) && states[|actions|].confirmed == {}
    ensures "A" in states[|actions|].rows && states[|actions|].rows["A"].status == 3
  {
    var p, row, v := CarriedToThree(keys);
    TrimmedA();
    states, actions := AsSchedule(Empty(keys, map[]), p);
    PipelineTheorems.TrimmedThroughout(states, actions, |actions|);
  }

  // ---------------------------------------------------------------- twice in LingXing

  /** The run that created the order crashes before its write, and a new session is opened. */
  lemma CrashedAndReopened(w0: World, done: Path, r: Locking.RunId, s: Locking.Session, t: Task, s': Locking.Session)
    returns (p: Path)
    requires Walks(w0, done) && Runs(EndOf(w0, done), r, s, t)
    ensures Extends(w0, done, p) && Idle(EndOf(w0, p), s') && SameData(EndOf(w0, done), EndOf(w0, p))
  {
    AloneSteps(KeyOf(EndOf(w0, done).keys, t.job), r, s);
    p := NextState(w0, done, Crash(r));
    assert EndOf(w0, p).tasks == map[];
    p := Opened(w0, p, s');
  }

  /**
   A run that creates the order and crashes before its write, and a second one whose existence check is
   told of nothing, leave the order in LingXing twice. All keys are trimmed: only the check is at fault.
   */
  lemma CreatedTwice(keys: Keys, reverse: map<string, string>, order: Order) returns (states: seq<World>, actions: seq<Action>)
    requires Trim(order.poNumber) == order.poNumber != ""
    ensures CleanSchedule(states, actions)
    ensures Created(states[|actions|].created, order.poNumber) == 2
  {
    var w0, k := Empty(keys, reverse), order.poNumber;
    var p, _ := OrderPulled(keys, reverse, order);
    p := OrderCreated(w0, p, 7, 1, k);
    p := CrashedAndReopened(w0, p, 7, 1, Pushing(k), 2);
    p := OrderCreated(w0, p, 8, 2, k);
    states, actions := AsSchedule(w0, p);
    PipelineTheorems.TrimmedThroughout(states, actions, |actions|);
  }

  // ---------------------------------------------------------------- from 5 back to 3

  /** One order is finished when it is pulled; the other's number is the same but for white space. */
  predicate Twins(finished: Order, twin: Order) {
    Trim(twin.poNumber) == finished.poNumber != "" && twin.poNumber != finished.poNumber
  }

  lemma TwinsPulled(keys: Keys, reverse: map<string, string>, finished: Order, twin: Order) returns (p: Path, v: World)
    requires Twins(finished, twin)
    ensures var w0 := Empty(keys, reverse);
            && Walks(w0, p) && Visited(w0, p, v) && Idle(EndOf(w0, p), 1)
            && finished.poNumber in v.rows && v.rows[finished.poNumber].status == 5
            && SameData(w0.(rows := map[finished.poNumber := EntryRow(finished, "shipped", 0),
                                        twin.poNumber := EntryRow(twin, "created", 0)]),
                        EndOf(w0, p))
  {
    var w0 := Empty(keys, reverse);
    EnteredAtFive(finished);
    p := Pulled(w0, Here, finished, "shipped");
    v := EndOf(w0, p);
    p := Pulled(w0, p, twin, "created");
    p := Opened(w0, p, 1);
  }

  /** The push reaches the twin's row, the acknowledgement the finished one. */
  lemma TwinWritten(finished: Order, twin: Order, a: Row, b: Row)
    requires Twins(finished, twin)
    ensures var pushed := Written(map[finished.poNumber := a, twin.poNumber := b], twin.poNumber, SetFields(2, "", ""));
            && twin.poNumber in pushed && pushed[twin.poNumber].status == 2
            && var acked := Written(pushed, Trim(twin.poNumber), SetFields(3, "", ""));
               acked.Keys == {finished.poNumber, twin.poNumber} && acked[finished.poNumber].status == 3 && acked[twin.poNumber].status == 2
  {
  }

  lemma TwinsRun(keys: Keys, reverse: map<string, string>, finished: Order, twin: Order) returns (p: Path, v: World)
    requires Twins(finished, twin)
    ensures var w0 := Empty(keys, reverse);
            && Walks(w0, p) && Visited(w0, p, v) && finished.poNumber in v.rows && v.rows[finished.poNumber].status == 5
            && EndOf(w0, p).rows.Keys == {finished.poNumber, twin.poNumber}
            && EndOf(w0, p).rows[finished.poNumber].status == 3 && EndOf(w0, p).rows[twin.poNumber].status == 2
  {
    var w0, k := Empty(keys, reverse), twin.poNumber;
    EnteredAtOne(twin);
    TwinWritten(finished, twin, EntryRow(finished, "shipped", 0), EntryRow(twin, "created", 0));
    p, v := TwinsPulled(keys, reverse, finished, twin);
    p := Pushed(w0, p, 7, 1, k);
    p := ConfirmedByDsco(w0, p, finished.poNumber);
    p := SeenInDsco(w0, p, 7, 1, k);
  }

  lemma ConfirmedByDsco(w0: World, done: Path, po: string) returns (p: Path)
    requires Walks(w0, done)
    ensures Extends(w0, done, p) && EndOf(w0, p) == EndOf(w0, done).(confirmed := EndOf(w0, done).confirmed + {po})
  {
    p := NextState(w0, done, DscoConfirms(po));
  }

  /**
   A schedule in which a finished row falls from 5 to 3: its twin, whose key has white space around it,
   is pushed and then found acknowledged under the trimmed key, and the write for the twin, which stays
   at 2, reaches the finished row.
   */
  lemma FinishedRowFallsBack(keys: Keys, reverse: map<string, string>, finished: Order, twin: Order)
    returns (states: seq<World>, actions: seq<Action>, n: nat)
    requires Twins(finished, twin)
    ensures Schedule(states, actions) && n < |states|
    ensures finished.poNumber in states[n].rows && states[n].rows[finished.poNumber].status == 5
    ensures var rows := states[|actions|].rows;
            && rows.Keys == {finished.poNumber, twin.poNumber}
            && rows[finished.poNumber].status == 3 && rows[twin.poNumber].status == 2
  {
    var p, v := TwinsRun(keys, reverse, finished, twin);
    states, actions := AsSchedule(Empty(keys, reverse), p);
    n :| 0 <= n < |states| && states[n] == v;
  }

  // ---------------------------------------------------------------- exactly which PO numbers let a status fall

  /** No PO number is what another one is trimmed to; blank ones are never pulled. */
  predicate TwinFree(pos: set<string>) {
    forall k :: k in pos && !Trimmed(k) && Trim(k) != "" ==> Trim(k) !in pos
  }

  /** All orders of the schedule have these PO numbers. */
  ghost predicate Over(states: seq<World>, pos: set<string>) {
    forall i :: 0 <= i < |states| ==> states[i].rows.Keys <= pos
  }

  predicate NotBelow(w: World, w': World, k: string) {
    k in w.rows ==> k in w'.rows && w.rows[k].status <= w'.rows[k].status
  }

  ghost predicate NeverFalls(states: seq<World>) {
    forall i, j, k :: 0 <= i <= j < |states| ==> NotBelow(states[i], states[j], k)
  }

  lemma NewKeyNotBlank(w: World, a: Action, k: string)
    requires Enabled(w, a) && k in Next(w, a).rows && k !in w.rows
    ensures Trim(k) != ""
  {
  }

  lemma {:induction false} KeysNotBlank(states: seq<World>, actions: seq<Action>, n: nat, k: string)
    requires Schedule(states, actions) && n < |states| && k in states[n].rows
    ensures Trim(k) != ""
  {
    if n > 0 {
      if k in states[n - 1].rows {
        KeysNotBlank(states, actions, n - 1, k);
      } else {
        NewKeyNotBlank(states[n - 1], actions[n - 1], k);
      }
    }
  }

  lemma {:induction false} KeysGrow(states: seq<World>, actions: seq<Action>, i: nat, n: nat, k: string)
    requires Schedule(states, actions) && i <= n < |states| && k in states[i].rows
    ensures k in states[n].rows
    decreases n
  {
    if i < n {
      KeysGrow(states, actions, i, n - 1, k);
      PipelineSafety.RowsStay(states[n - 1], actions[n - 1], k);
    }
  }

  lemma TwinFreeNeverFalls(pos: set<string>, states: seq<World>, actions: seq<Action>)
    requires TwinFree(pos) && Schedule(states, actions) && Over(states, pos)
    ensures NeverFalls(states)
  {
    forall i, j, k | 0 <= i <= j < |states| ensures NotBelow(states[i], states[j], k) {
      if k in states[i].rows {
        forall x | x in states[j].rows ensures Lone(states[j].rows, x) {
          KeysNotBlank(states, actions, j, x);
          assert x in pos;
        }
        PipelineTheorems.StatusOnlyRises(states, actions, i, j, k);
      }
    }
  }

  /** A PO number whose trimmed form is there as well lets that one's row fall. */
  lemma TwinsFall(pos: set<string>, k: string) returns (states: seq<World>, actions: seq<Action>)
    requires k in pos && !Trimmed(k) && Trim(k) != "" && Trim(k) in pos
    ensures Schedule(states, actions) && Over(states, pos) && !NeverFalls(states)
  {
    var n;
    states, actions, n := FinishedRowFallsBack(Keys(1, 2, 3, 4), map[], Order(Trim(k), []), Order(k, []));
    forall i | 0 <= i < |states| ensures states[i].rows.Keys <= pos {
      forall x | x in states[i].rows ensures x in pos {
        KeysGrow(states, actions, i, |actions|, x);
      }
    }
    assert !NotBelow(states[n], states[|actions|], Trim(k));
  }

  /**
   Whatever runs, crashes and overlaps, the orders with these PO numbers keep their statuses from falling
   if and only if none of the numbers is what another one is trimmed to.
   */
  lemma NoFallIff(pos: set<string>)
    ensures (forall states, actions :: Schedule(states, actions) && Over(states, pos) ==> NeverFalls(states)) <==> TwinFree(pos)
  {
    if TwinFree(pos) {
      forall states, actions | Schedule(states, actions) && Over(states, pos) ensures NeverFalls(states) {
        TwinFreeNeverFalls(pos, states, actions);
      }
    } else {
      var k :| k in pos && !Trimmed(k) && Trim(k) != "" && Trim(k) in pos;
      var states, actions := TwinsFall(pos, k);
    }
  }
}
