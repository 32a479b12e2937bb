/**
 What a row's status proves about LingXing, DSCO and the warehouse in every reachable state, and
 the moves that close an order: to 3, to 4 and to 5.
 */
module PipelineEvidence {
  import opened Text
  import opened Orders
  import opened OrderStore
  import opened Pipeline
  import opened PipelineSafety
  import opened PipelineTheorems
  import opened Tracking
  import Aggregation
  import Locking = AdvisoryLock
  import Shipment
  import Invoice

  /** The warehouse's current list ships every ordered line in full, with tracking numbers. */
  predicate FullyShipped(w: World, k: string) {
    k in w.rows && w.rows[k].payload.Some? && ShipGate(w.rows[k].payload.value.lines, w.reverse, OutboundOf(w.outbound, k))
  }

  predicate RowEvidence(w: World, k: string)
    requires k in w.rows
  {
    && (2 <= w.rows[k].status <= 4 ==> Created(w.created, k) >= 1)
    && (3 <= w.rows[k].status <= 4 ==> k in w.asked || k in w.confirmed)
    && (w.rows[k].status == 4 ==> FullyShipped(w, k))
  }

  /** What a job's write i for row k may rest on; an acknowledgement is asked for, or seen in DSCO. */
  predicate Shows(w: World, job: Job, k: string, i: Issued) {
    match job
    case PushJob => Created(w.created, i.po) >= 1
    case AckJob => if i.basis.OnAck? then i.po in w.asked else i.basis.OnDsco? && i.po in w.confirmed
    case ShipJob => FullyShipped(w, k)
    case InvoiceJob => true
  }

  /** What an entry of the batch rests on before the call. */
  predicate BatchShows(w: World, job: Job, k: string, i: Issued) {
    && (job == AckJob ==> i.basis.OnAck? && Trim(i.po) == i.po)
    && (job == ShipJob ==> FullyShipped(w, k))
  }

  predicate TaskEvidence(w: World, t: Task) {
    && (t.job == PushJob ==> forall k :: k in t.existing ==> Created(w.created, k) >= 1)
    && (forall k :: k in t.ready ==> Shows(w, t.job, k, t.ready[k]))
    && (forall k :: k in t.batch ==> BatchShows(w, t.job, k, t.batch[k]))
  }

  ghost predicate Evidence(w: World) {
    && (forall k :: k in w.rows ==> RowEvidence(w, k))
    && (forall r :: r in w.tasks ==> TaskEvidence(w, w.tasks[r]))
  }

  /** The remote systems forget nothing. */
  ghost predicate Grows(w: World, w': World) {
    && (forall k :: Created(w.created, k) <= Created(w'.created, k))
    && w.asked <= w'.asked && w.confirmed <= w'.confirmed
    && (forall k :: FullyShipped(w, k) ==> FullyShipped(w', k))
  }

  lemma ShipsGrows(w: World, po: string, list: seq<Outbound>, k: string)
    requires multiset(OutboundOf(w.outbound, po)) <= multiset(list) && FullyShipped(w, k)
    ensures FullyShipped(w.(outbound := w.outbound[po := list]), k)
  {
    if po == k {
      ShipGateGrows(w.rows[k].payload.value.lines, w.reverse, OutboundOf(w.outbound, k), list);
    } else {
      assert OutboundOf(w.outbound[po := list], k) == OutboundOf(w.outbound, k);
    }
  }

  /** The gate depends on nothing but the payload, the mapping and the outbound list. */
  lemma SameInputs(w: World, w': World, k: string)
    requires FullyShipped(w, k) && k in w'.rows && w'.rows[k].payload == w.rows[k].payload
    requires w'.reverse == w.reverse && w'.outbound == w.outbound
    ensures FullyShipped(w', k)
  {
  }

  lemma OnlyShipsShips(w: World, a: Action)
    requires Enabled(w, a) && !a.Ships?
    ensures Next(w, a).reverse == w.reverse && Next(w, a).outbound == w.outbound
  {
  }

  lemma CountsGrow(w: World, a: Action, k: string)
    requires Enabled(w, a)
    ensures Created(w.created, k) <= Created(Next(w, a).created, k) && w.asked <= Next(w, a).asked && w.confirmed <= Next(w, a).confirmed
  {
  }

  lemma StepGrows(w: World, a: Action)
    requires Inv(w) && Enabled(w, a)
    ensures Grows(w, Next(w, a))
  {
    var w' := Next(w, a);
    CountsGrow(w, a, "");
    forall k ensures Created(w.created, k) <= Created(w'.created, k) {
      CountsGrow(w, a, k);
    }
    forall k | FullyShipped(w, k) ensures FullyShipped(w', k) {
      if a.Ships? {
        ShipsGrows(w, a.po, a.outbound, k);
      } else {
        OnlyShipsShips(w, a);
        StepIsLater(w, a, k);
        SameInputs(w, w', k);
      }
    }
  }

  lemma ShowsGrows(w: World, w': World, job: Job, k: string, i: Issued)
    requires Grows(w, w')
    ensures Shows(w, job, k, i) ==> Shows(w', job, k, i)
    ensures BatchShows(w, job, k, i) ==> BatchShows(w', job, k, i)
  {
  }

  lemma TaskEvidenceGrows(w: World, w': World, t: Task)
    requires TaskEvidence(w, t) && Grows(w, w')
    ensures TaskEvidence(w', t)
  {
    forall k | k in t.ready ensures Shows(w', t.job, k, t.ready[k]) {
      ShowsGrows(w, w', t.job, k, t.ready[k]);
    }
    forall k | k in t.batch ensures BatchShows(w', t.job, k, t.batch[k]) {
      ShowsGrows(w, w', t.job, k, t.batch[k]);
    }
  }

  /** The decision to ship was taken on part of the current list, so the whole of it is fully shipped too. */
  lemma JoinedIsFullyShipped(w: World, t: Task, a: TaskAct)
    requires TaskForm(t) && TaskOwned(w.rows, t) && CanDo(w, t, a) && a.JoinShip?
    ensures FullyShipped(w, a.row)
  {
    assert Owns(t, a.row);
    Shipment.OnlyFullyShippedOrdersMove(a.ship);
    ShipGateGrows(a.ship.payload.value.lines, w.reverse, a.ship.outbound.value, OutboundOf(w.outbound, a.row));
  }

  lemma RowShows(w': World, t: Task, a: TaskAct)
    requires TaskForm(t) && LooksAt(t, a) && JobFits(t, a) && Joins(a)
    requires a.FoundExisting? ==> Created(w'.created, Trim(a.row)) >= 1
    requires a.Create? ==> Created(w'.created, t.todo[a.row].payload.value.poNumber) >= 1
    requires a.SeenConfirmed? ==> Trim(a.row) in w'.confirmed
    requires a.JoinShip? ==> FullyShipped(w', a.row)
    ensures var i := Prepare(a.row, t.todo[a.row], a);
            if Batches(a) then BatchShows(w', t.job, a.row, i) else Shows(w', t.job, a.row, i)
  {
    assert RowOk(a.row, t.todo[a.row]);
  }

  lemma RowEvidenceOf(w': World, t: Task, a: TaskAct)
    requires TaskEvidence(w', t) && TaskForm(t) && LooksAt(t, a) && JobFits(t, a)
    requires a.FoundExisting? ==> Trim(a.row) in t.existing
    requires a.Create? && a.accepted ==> Created(w'.created, t.todo[a.row].payload.value.poNumber) >= 1
    requires a.SeenConfirmed? ==> Trim(a.row) in w'.confirmed
    requires a.JoinShip? ==> FullyShipped(w', a.row)
    ensures TaskEvidence(w', AfterRow(t, a))
  {
    if Joins(a) {
      RowShows(w', t, a);
      PutEvidence(w', t, t.todo - {a.row}, a.row, Prepare(a.row, t.todo[a.row], a));
    }
  }

  lemma PutEvidence(w: World, t: Task, rest: Rows, k: string, i: Issued)
    requires TaskEvidence(w, t)
    ensures BatchShows(w, t.job, k, i) ==> TaskEvidence(w, t.(todo := rest, batch := t.batch[k := i]))
    ensures Shows(w, t.job, k, i) ==> TaskEvidence(w, t.(todo := rest, ready := t.ready[k := i]))
  {
  }

  lemma SendEvidence(w: World, t: Task, a: TaskAct, w': World)
    requires TaskEvidence(w', t) && CanDo(w, t, a) && a.Send? && w'.asked == AskedAfter(w, t, a)
    ensures TaskEvidence(w', TaskAfter(w, t, a))
  {
    if t.job == AckJob && a.answered {
      forall k | k in t.batch ensures Shows(w', AckJob, k, t.batch[k]) {
        assert BatchShows(w', AckJob, k, t.batch[k]);
        assert Trim(t.batch[k].po) in Wanted(t.batch);
      }
    }
  }

  lemma RowStepEvidence(w: World, t: Task, a: TaskAct, w': World)
    requires TaskEvidence(w', t) && TaskForm(t) && TaskOwned(w.rows, t) && CanDo(w, t, a) && Grows(w, w')
    requires LooksAt(t, a) && JobFits(t, a) && w'.created == CreatedAfter(w, t, a)
    ensures TaskEvidence(w', AfterRow(t, a))
  {
    if a.JoinShip? {
      JoinedIsFullyShipped(w, t, a);
    } else if a.Create? && a.accepted {
      CreateShows(w, t, a);
    }
    RowEvidenceOf(w', t, a);
  }

  lemma CreateShows(w: World, t: Task, a: TaskAct)
    requires CanDo(w, t, a) && a.Create? && a.accepted
    ensures Created(CreatedAfter(w, t, a), t.todo[a.row].payload.value.poNumber) >= 1
  {
  }

  /** Steps that make nothing new ready, but for a confirmed batch. */
  lemma QuietEvidence(w: World, t: Task, a: TaskAct, w': World)
    requires TaskEvidence(w', t) && CanDo(w, t, a) && Grows(w, w')
    requires a.Select? || a.Query? || a.Verdicts? || a.WriteBack?
    ensures TaskEvidence(w', TaskAfter(w, t, a))
  {
    var t' := TaskAfter(w, t, a);
    forall k | k in t'.ready ensures Shows(w', t'.job, k, t'.ready[k]) {
      if a.Verdicts? {
        assert BatchShows(w', t.job, k, t.batch[k]);
      }
    }
  }

  lemma DoEvidence(w: World, t: Task, a: TaskAct, w': World)
    requires TaskEvidence(w, t) && TaskForm(t) && TaskOwned(w.rows, t) && CanDo(w, t, a) && Grows(w, w')
    requires w'.created == CreatedAfter(w, t, a) && w'.asked == AskedAfter(w, t, a)
    ensures TaskEvidence(w', TaskAfter(w, t, a))
  {
    TaskEvidenceGrows(w, w', t);
    if a.Send? {
      SendEvidence(w, t, a, w');
    } else if a.Select? || a.Query? || a.Verdicts? || a.WriteBack? {
      QuietEvidence(w, t, a, w');
    } else {
      RowStep(w, t, a);
      RowStepEvidence(w, t, a, w');
    }
  }

  /** Push and ack writes that land are addressed to the row's own key, the others to a trimmed one. */
  lemma LandsAtOwnKey(job: Job, k: string, i: Issued)
    requires IssuedOk(job, k, i) && Lands(k, i)
    ensures job == PushJob || job == AckJob ==> i.po == k
    ensures job == ShipJob || job == InvoiceJob ==> Trim(k) == k
  {
  }

  /** What a row that was moved forward by a job now needs is what that job's write rested on. */
  lemma ForwardEvidence(w: World, w': World, k: string, job: Job, i: Issued)
    requires k in w.rows && k in w'.rows && OneForward(w.rows[k], w'.rows[k], job, i.write) && Lands(k, i) && IssuedOk(job, k, i)
    requires RowEvidence(w, k) && Shows(w', job, k, i) && Grows(w, w')
    ensures RowEvidence(w', k)
  {
    LandsAtOwnKey(job, k, i);
  }

  lemma SameRowEvidence(w: World, w': World, k: string)
    requires k in w.rows && k in w'.rows && w'.rows[k] == w.rows[k] && RowEvidence(w, k) && Grows(w, w')
    ensures RowEvidence(w', k)
  {
  }

  lemma MovedRowEvidence(w: World, a: Action, k: string)
    requires Inv(w) && Evidence(w) && Enabled(w, a) && k in w.rows && Grows(w, Next(w, a))
    requires k in Next(w, a).rows && Next(w, a).rows[k] != w.rows[k]
    ensures RowEvidence(Next(w, a), k)
  {
    EveryStepIsOneForward(w, a, k);
    var t := w.tasks[a.run];
    assert TaskEvidence(w, t) && TaskForm(t) && k in t.ready;
    ShowsGrows(w, Next(w, a), t.job, k, t.ready[k]);
    ForwardEvidence(w, Next(w, a), k, t.job, t.ready[k]);
  }

  lemma PulledEvidence(w: World, a: Action, k: string)
    requires Inv(w) && Enabled(w, a) && k !in w.rows && k in Next(w, a).rows
    ensures RowEvidence(Next(w, a), k)
  {
    OnlyPullsAdd(w, a, k);
  }

  lemma OnlyPullsAdd(w: World, a: Action, k: string)
    requires Inv(w) && Enabled(w, a) && k !in w.rows && k in Next(w, a).rows
    ensures var st := Next(w, a).rows[k].status; st == 1 || st == 5 || st == 6
  {
  }

  lemma RowEvidenceStep(w: World, a: Action, k: string)
    requires Inv(w) && Evidence(w) && Enabled(w, a) && Grows(w, Next(w, a)) && k in Next(w, a).rows
    ensures RowEvidence(Next(w, a), k)
  {
    if k !in w.rows {
      PulledEvidence(w, a, k);
    } else if Next(w, a).rows[k] != w.rows[k] {
      MovedRowEvidence(w, a, k);
    } else {
      SameRowEvidence(w, Next(w, a), k);
    }
  }

  lemma {:induction false} EvidenceStep(w: World, a: Action)
    requires Inv(w) && Evidence(w) && Enabled(w, a)
    ensures Evidence(Next(w, a))
  {
    var w' := Next(w, a);
    StepGrows(w, a);
    forall k | k in w'.rows ensures RowEvidence(w', k) {
      RowEvidenceStep(w, a, k);
    }
    forall r | r in w'.tasks ensures TaskEvidence(w', w'.tasks[r]) {
      TaskEvidenceStep(w, a, r);
    }
  }

  lemma OwnEvidence(w: World, r: Locking.RunId, act: TaskAct)
    requires Inv(w) && Evidence(w) && r in w.tasks && CanDo(w, w.tasks[r], act) && Grows(w, AfterDo(w, r, act))
    ensures TaskEvidence(AfterDo(w, r, act), TaskAfter(w, w.tasks[r], act))
  {
    DoEvidence(w, w.tasks[r], act, AfterDo(w, r, act));
  }

  /** A run changes by its own steps only. */
  lemma OthersStay(w: World, a: Action, r: Locking.RunId)
    requires Enabled(w, a) && r in Next(w, a).tasks && !(a.Do? && a.run == r)
    ensures Next(w, a).tasks[r] == if r in w.tasks then w.tasks[r] else NewTask(a.job)
  {
  }

  lemma TaskEvidenceStep(w: World, a: Action, r: Locking.RunId)
    requires Inv(w) && Evidence(w) && Enabled(w, a) && Grows(w, Next(w, a)) && r in Next(w, a).tasks
    ensures TaskEvidence(Next(w, a), Next(w, a).tasks[r])
  {
    if a.Do? && a.run == r {
      OwnEvidence(w, r, a.act);
    } else {
      OthersStay(w, a, r);
      if r in w.tasks {
        TaskEvidenceGrows(w, Next(w, a), w.tasks[r]);
      }
    }
  }

  lemma InitialEvidence(w: World)
    requires Initial(w)
    ensures Evidence(w)
  {
  }

  /**
   In every reachable state a row at 2, 3 or 4 exists in LingXing, for one at 3 or 4 DSCO was asked for
   an acknowledgement or has reported one, and one at 4 is fully shipped according to the warehouse's
   current list.
   */
  lemma {:induction false} StatusIsEvidence(states: seq<World>, actions: seq<Action>, n: nat)
    requires Schedule(states, actions) && n < |states| && NoTwins(states[n].rows)
    ensures Inv(states[n]) && Evidence(states[n])
  {
    ScheduleInv(states, actions, n);
    if n == 0 {
      InitialEvidence(states[0]);
    } else {
      var w, a := states[n - 1], actions[n - 1];
      NoTwinsBefore(w, a);
      StatusIsEvidence(states, actions, n - 1);
      EvidenceStep(w, a);
    }
  }

  // ---------------------------------------------------------------- the move to 3

  /** The action moves row k from 2 to 3, for an ack run whose write rests on this. */
  predicate MovesToThree(w: World, a: Action, k: string, asked: bool) {
    && a.Do? && a.act.WriteBack? && a.act.row == k && a.run in w.tasks && w.tasks[a.run].job == AckJob
    && k in w.tasks[a.run].ready
    && var i := w.tasks[a.run].ready[k];
       i.po == k && if asked then i.basis.OnAck? && k in w.asked else i.basis.OnDsco? && k in w.confirmed
  }

  lemma ReadyToAcknowledge(w: World, t: Task, k: string)
    requires TaskEvidence(w, t) && TaskForm(t) && t.job == AckJob && k in t.ready && Lands(k, t.ready[k])
    ensures var i := t.ready[k]; i.po == k && if i.basis.OnAck? then k in w.asked else i.basis.OnDsco? && k in w.confirmed
  {
    assert IssuedOk(t.job, k, t.ready[k]) && Shows(w, t.job, k, t.ready[k]);
    LandsAtOwnKey(t.job, k, t.ready[k]);
  }

  /** Row k moves from this status to the next. */
  predicate Climbs(w: World, w': World, k: string, status: int) {
    k in w.rows && w.rows[k].status == status && k in w'.rows && w'.rows[k].status == status + 1
  }

  lemma MoveToThree(w: World, a: Action, k: string)
    requires Inv(w) && Evidence(w) && Enabled(w, a) && Climbs(w, Next(w, a), k, 2)
    ensures MovesToThree(w, a, k, true) || MovesToThree(w, a, k, false)
  {
    MoveOf(w, a, k);
    var t := w.tasks[a.run];
    assert TaskEvidence(w, t) && TaskForm(t);
    ReadyToAcknowledge(w, t, k);
  }

  /** A row reaches 3 only on a request of an ack run that arrived, or on DSCO's own report. */
  lemma WhatReachingThreeTakes(states: seq<World>, actions: seq<Action>, n: nat, k: string)
    requires Schedule(states, actions) && n < |actions| && NoTwins(states[n].rows) && Climbs(states[n], states[n + 1], k, 2)
    ensures MovesToThree(states[n], actions[n], k, true) || MovesToThree(states[n], actions[n], k, false)
  {
    StatusIsEvidence(states, actions, n);
    MoveToThree(states[n], actions[n], k);
  }

  /** The arrived batch call of an ack run names the PO. */
  ghost predicate AsksFor(w: World, a: Action, k: string) {
    a.Do? && a.act.Send? && a.act.arrived && a.run in w.tasks && w.tasks[a.run].job == AckJob && k in Wanted(w.tasks[a.run].batch)
  }

  lemma AskedBy(w: World, a: Action, k: string)
    requires Enabled(w, a) && k in Next(w, a).asked && k !in w.asked
    ensures AsksFor(w, a, k)
  {
  }

  lemma {:induction false} AskedMeans(states: seq<World>, actions: seq<Action>, n: nat, k: string) returns (i: nat)
    requires Schedule(states, actions) && n < |states| && k in states[n].asked
    ensures i < n && AsksFor(states[i], actions[i], k)
  {
    if n == 0 {
      assert false;
    } else if k in states[n - 1].asked {
      i := AskedMeans(states, actions, n - 1, k);
    } else {
      i := n - 1;
      AskedBy(states[i], actions[i], k);
    }
  }

  lemma ConfirmedStays(w: World, a: Action, k: string)
    requires Enabled(w, a) && k in w.confirmed
    ensures k in Next(w, a).confirmed
  {
  }

  /** Row k is at 3 or 4 without a report of DSCO. */
  predicate Unreported(w: World, k: string) {
    k in w.rows && 3 <= w.rows[k].status <= 4 && k !in w.confirmed
  }

  /** Such a row was so before, or has just come from 2. */
  lemma UnreportedBefore(w: World, a: Action, k: string)
    requires Inv(w) && Enabled(w, a) && Unreported(Next(w, a), k)
    ensures k !in w.confirmed && (Unreported(w, k) || Climbs(w, Next(w, a), k, 2))
  {
    if k in w.rows {
      StatusStep(w, a, k);
    } else {
      OnlyPullsAdd(w, a, k);
    }
    if k in w.confirmed {
      ConfirmedStays(w, a, k);
    }
  }

  lemma ReachableUnreportedBefore(states: seq<World>, actions: seq<Action>, n: nat, k: string)
    requires Schedule(states, actions) && n < |actions| && NoTwins(states[n].rows) && Unreported(states[n + 1], k)
    ensures k !in states[n].confirmed && (Unreported(states[n], k) || Climbs(states[n], states[n + 1], k, 2))
  {
    ScheduleInv(states, actions, n);
    UnreportedBefore(states[n], actions[n], k);
  }

  lemma AskedClimb(states: seq<World>, actions: seq<Action>, j: nat, k: string) returns (i: nat)
    requires Schedule(states, actions) && j < |actions| && NoTwins(states[j].rows)
    requires Climbs(states[j], states[j + 1], k, 2) && k !in states[j].confirmed
    ensures i < j && AsksFor(states[i], actions[i], k) && MovesToThree(states[j], actions[j], k, true)
  {
    WhatReachingThreeTakes(states, actions, j, k);
    i := AskedMeans(states, actions, j, k);
  }

  /** The row was unreported in the state before, or this step took it from 2 to 3. */
  predicate ComesFrom(w: World, w': World, k: string) {
    Unreported(w', k) ==> k !in w.confirmed && (Unreported(w, k) || Climbs(w, w', k, 2))
  }

  lemma {:induction false} Descend(states: seq<World>, n: nat, k: string) returns (j: nat)
    requires n < |states| && Unreported(states[n], k) && !Unreported(states[0], k)
    requires forall m :: 0 <= m < n ==> ComesFrom(states[m], states[m + 1], k)
    ensures j < n && k !in states[j].confirmed && Climbs(states[j], states[j + 1], k, 2)
  {
    assert ComesFrom(states[n - 1], states[n], k);
    if Unreported(states[n - 1], k) {
      j := Descend(states, n - 1, k);
    } else {
      j := n - 1;
    }
  }

  lemma LastClimb(states: seq<World>, actions: seq<Action>, n: nat, k: string) returns (j: nat)
    requires Schedule(states, actions) && n < |states| && NoTwins(states[n].rows) && Unreported(states[n], k)
    ensures j < n && k !in states[j].confirmed && Climbs(states[j], states[j + 1], k, 2)
  {
    forall m | 0 <= m < n ensures ComesFrom(states[m], states[m + 1], k) {
      NoTwinsThroughout(states, actions, m, n);
      if Unreported(states[m + 1], k) {
        ReachableUnreportedBefore(states, actions, m, k);
      }
    }
    j := Descend(states, n, k);
  }

  /**
   An acknowledgement is asynchronous and never awaited. So when DSCO has not reported a row at 3 or 4,
   the row got there through an arrived batch call that names it, not through a report.
   */
  lemma UnconfirmedWasAsked(states: seq<World>, actions: seq<Action>, n: nat, k: string) returns (i: nat, j: nat)
    requires Schedule(states, actions) && n < |states| && NoTwins(states[n].rows) && Unreported(states[n], k)
    ensures i < j < n && AsksFor(states[i], actions[i], k)
    ensures Climbs(states[j], states[j + 1], k, 2) && MovesToThree(states[j], actions[j], k, true)
  {
    j := LastClimb(states, actions, n, k);
    NoTwinsThroughout(states, actions, j, n);
    i := AskedClimb(states, actions, j, k);
  }

  // ---------------------------------------------------------------- the last two moves

  /** The local tracking field is blank at status 3, so an order advances unsent only on DSCO's own record. */
  lemma AdvanceNeedsDsco(k: string, i: Issued, tracking: string)
    requires ShipJustified(k, i) && i.write.SetStatus?
    ensures var x := i.basis.ship;
            x.dsco.Some? && x.outbound.Some?
            && (tracking != "" && Aggregation.HasTracking(x.outbound.value, tracking) ==> tracking in Shipment.DscoTrackings(x.dsco.value))
  {
    var x := i.basis.ship;
    Shipment.AdvanceIsSplit(x);
    assert Tokens("") == [];
    if tracking != "" && Aggregation.HasTracking(x.outbound.value, tracking) {
      Shipment.AdvanceMeansAllRecorded(x, tracking);
    }
  }

  /**
   A row reaches 4 only when the warehouse ships every line in full and either this run's batch
   was confirmed, with a success and no failure, or every tracking number is on DSCO's record.
   */
  lemma WhatReachingFourTakes(states: seq<World>, actions: seq<Action>, n: nat, k: string)
    requires Schedule(states, actions) && n < |actions| && NoTwins(states[n].rows)
    requires Climbs(states[n], states[n + 1], k, 3)
    ensures actions[n].Do? && actions[n].act.WriteBack? && actions[n].run in states[n].tasks
    ensures k in states[n].tasks[actions[n].run].ready
    ensures FullyShipped(states[n], k)
    ensures var t := states[n].tasks[actions[n].run];
            ShipJustified(k, t.ready[k]) && (t.ready[k].write.SetTracking? ==> ShipConfirmed(t.entries, k))
  {
    ScheduleJustified(states, actions, n);
    StatusIsEvidence(states, actions, n);
    MoveOf(states[n], actions[n], k);
    var t := states[n].tasks[actions[n].run];
    assert TaskForm(t) && TaskJustified(t) && TaskEvidence(states[n], t);
    ReadyToShip(states[n], t, k);
  }

  /** A row that changes is written by the run of the job whose source status it has. */
  lemma MoveOf(w: World, a: Action, k: string)
    requires Inv(w) && Enabled(w, a) && k in w.rows && k in Next(w, a).rows && Next(w, a).rows[k] != w.rows[k]
    ensures a.Do? && a.act.WriteBack? && a.act.row == k && a.run in w.tasks && k in w.tasks[a.run].ready
    ensures Source(w.tasks[a.run].job) == w.rows[k].status && Lands(k, w.tasks[a.run].ready[k])
    ensures Next(w, a).rows[k] == Updated(w.rows[k], w.tasks[a.run].ready[k].write)
  {
    EveryStepIsOneForward(w, a, k);
  }

  lemma ReadyToShip(w: World, t: Task, k: string)
    requires TaskForm(t) && TaskJustified(t) && TaskEvidence(w, t) && t.job == ShipJob && k in t.ready && Lands(k, t.ready[k])
    ensures FullyShipped(w, k) && ShipJustified(k, t.ready[k])
    ensures t.ready[k].write.SetTracking? ==> ShipConfirmed(t.entries, k)
  {
    assert ReadyOk(t, k, t.ready[k]) && Shows(w, t.job, k, t.ready[k]) && IssuedOk(t.job, k, t.ready[k]);
    LandsAtOwnKey(t.job, k, t.ready[k]);
  }

  /** A row reaches 5 from 4 only on an invoice whose last verdict is success, or that is visible when nothing was decided. */
  lemma WhatReachingFiveTakes(states: seq<World>, actions: seq<Action>, n: nat, k: string)
    requires Schedule(states, actions) && n < |actions| && NoTwins(states[n].rows)
    requires Climbs(states[n], states[n + 1], k, 4)
    ensures actions[n].Do? && actions[n].act.WriteBack? && actions[n].run in states[n].tasks
    ensures k in states[n].tasks[actions[n].run].ready
    ensures var t := states[n].tasks[actions[n].run];
            InvoiceJustified(k, t.ready[k]) && InvoiceSeen(t.entries, t.visible, k)
    ensures states[n + 1].rows[k].invoiceId == k
  {
    ScheduleJustified(states, actions, n);
    MoveOf(states[n], actions[n], k);
    var t := states[n].tasks[actions[n].run];
    assert TaskForm(t) && TaskJustified(t);
    ReadyToInvoice(t, k, states[n].rows[k]);
  }

  lemma ReadyToInvoice(t: Task, k: string, row: Row)
    requires TaskForm(t) && TaskJustified(t) && t.job == InvoiceJob && k in t.ready && Lands(k, t.ready[k])
    ensures InvoiceJustified(k, t.ready[k]) && InvoiceSeen(t.entries, t.visible, k)
    ensures Updated(row, t.ready[k].write).invoiceId == k
  {
    assert ReadyOk(t, k, t.ready[k]) && IssuedOk(t.job, k, t.ready[k]);
    LandsAtOwnKey(t.job, k, t.ready[k]);
  }

  /**
   This rests on outbound lists that only grow: when the warehouse withdraws the outbound orders of a
   row at 4, the row is no longer fully shipped, unless nothing was ordered.
   */
  lemma WithdrawnOutboundUndoesEvidence(w: World, k: string)
    requires FullyShipped(w, k)
    ensures FullyShipped(w.(outbound := w.outbound[k := []]), k) <==> Expected(w.rows[k].payload.value.lines) == map[]
  {
    var lines := w.rows[k].payload.value.lines;
    if Expected(lines) != map[] {
      var key :| key in Expected(lines);
      ExpectedIsOrdered(lines, key);
      assert TrackedQty(Names(w.reverse, AliasMap(lines)), [], key) == 0;
    }
  }

  /** A row at 4 is never kept waiting by the invoice gate, nor skipped as already invoiced. */
  lemma InvoiceNeverWaits(w: World, k: string, x: Invoice.InvoiceInput)
    requires Inv(w) && Evidence(w) && k in w.rows && w.rows[k].status == 4
    requires InvoiceInputFor(w, k, w.rows[k], x) && x.outbound == Some(OutboundOf(w.outbound, k))
    ensures InvoiceGate(x.payload.value.lines, x.reverse, x.outbound.value)
    ensures Invoice.InvoiceDecision(x) != Invoice.Skip(Invoice.NotFullyShipped)
    ensures Invoice.InvoiceDecision(x) != Invoice.Skip(Invoice.AlreadyInvoiced)
  {
    assert RowOk(k, w.rows[k]) && RowEvidence(w, k);
    ShipGateImpliesInvoiceGate(x.payload.value.lines, x.reverse, x.outbound.value, x.outbound.value);
  }

  // ---------------------------------------------------------------- at most one LingXing order

  /** The existence check of a push run that has selected k does not see that LingXing holds it. */
  ghost predicate Missed(w: World, a: Action, k: string) {
    && a.Do? && a.act.Query? && a.run in w.tasks
    && k in w.tasks[a.run].todo && Created(w.created, k) >= 1 && Trim(k) !in a.act.found
  }

  predicate Found(created: map<string, nat>, t: Task, k: string) {
    t.job == PushJob && t.stage == Collecting && k in t.todo && Created(created, k) >= 1 ==> Trim(k) in t.existing
  }

  /** The PO is not held twice, and a push run past its query that has it on its list has found it if it is held. */
  ghost predicate OnceInv(w: World, k: string) {
    Created(w.created, k) <= 1 && forall r :: r in w.tasks ==> Found(w.created, w.tasks[r], k)
  }

  /** Whoever creates an order is the only push run. */
  lemma CreateTask(w: World, r: Locking.RunId, act: TaskAct, q: Locking.RunId, k: string)
    requires Inv(w) && r in w.tasks && CanDo(w, w.tasks[r], act) && act.Create? && q in w.tasks && q != r
    ensures Found(CreatedAfter(w, w.tasks[r], act), w.tasks[q], k)
  {
    if w.tasks[q].job == PushJob {
      OneRunPerJob(w, q, r);
    }
  }

  /** The run that creates the order has looked at its row and drops it from its list. */
  lemma CreateOwn(w: World, t: Task, act: TaskAct, k: string)
    requires Found(w.created, t, k) && TaskForm(t) && CanDo(w, t, act) && act.Create?
    ensures Found(CreatedAfter(w, t, act), TaskAfter(w, t, act), k)
    ensures act.row == k ==> Created(w.created, k) == 0
    ensures Created(CreatedAfter(w, t, act), k) == if act.effect && k == act.row then 1 else Created(w.created, k)
  {
    assert RowOk(act.row, t.todo[act.row]);
    RowStep(w, t, act);
  }

  lemma CreateStep(w: World, r: Locking.RunId, act: TaskAct, k: string)
    requires Inv(w) && OnceInv(w, k) && r in w.tasks && CanDo(w, w.tasks[r], act) && act.Create?
    ensures OnceInv(AfterDo(w, r, act), k)
  {
    var w' := AfterDo(w, r, act);
    assert TaskForm(w.tasks[r]) && Found(w.created, w.tasks[r], k);
    CreateOwn(w, w.tasks[r], act, k);
    forall q | q in w'.tasks ensures Found(w'.created, w'.tasks[q], k) {
      if q != r {
        CreateTask(w, r, act, q, k);
      }
    }
  }

  lemma OtherStep(w: World, t: Task, a: TaskAct, k: string)
    requires Found(w.created, t, k) && CanDo(w, t, a) && !a.Create?
    requires a.Query? && k in t.todo && Created(w.created, k) >= 1 ==> Trim(k) in a.found
    ensures Found(w.created, TaskAfter(w, t, a), k)
  {
    if !a.Select? && !a.Query? && !a.Send? && !a.Verdicts? && !a.WriteBack? {
      RowStep(w, t, a);
    }
  }

  lemma OtherKeepsOnce(w: World, r: Locking.RunId, act: TaskAct, k: string)
    requires OnceInv(w, k) && r in w.tasks && CanDo(w, w.tasks[r], act) && !act.Create?
    requires act.Query? && k in w.tasks[r].todo && Created(w.created, k) >= 1 ==> Trim(k) in act.found
    ensures OnceInv(AfterDo(w, r, act), k)
  {
    OtherStep(w, w.tasks[r], act, k);
  }

  lemma {:induction false} OnceStep(w: World, a: Action, k: string)
    requires Inv(w) && OnceInv(w, k) && Enabled(w, a) && !Missed(w, a, k)
    ensures OnceInv(Next(w, a), k)
  {
    if a.Do? && a.act.Create? {
      CreateStep(w, a.run, a.act, k);
    } else if a.Do? {
      OtherKeepsOnce(w, a.run, a.act, k);
    }
  }

  lemma InitialOnce(w: World, k: string)
    requires Initial(w)
    ensures OnceInv(w, k)
  {
  }

  lemma OnceNext(states: seq<World>, actions: seq<Action>, n: nat, k: string)
    requires Schedule(states, actions) && n < |actions| && NoTwins(states[n].rows) && !Missed(states[n], actions[n], k)
    ensures OnceInv(states[n], k) ==> OnceInv(states[n + 1], k)
  {
    ScheduleInv(states, actions, n);
    if OnceInv(states[n], k) {
      OnceStep(states[n], actions[n], k);
    }
  }

  lemma {:induction false} OnceAlong(states: seq<World>, n: nat, k: string)
    requires n < |states| && OnceInv(states[0], k)
    requires forall m :: 0 <= m < n && OnceInv(states[m], k) ==> OnceInv(states[m + 1], k)
    ensures OnceInv(states[n], k)
  {
    if n > 0 {
      OnceAlong(states, n - 1, k);
    }
  }

  /** A PO that no existence check misses is created in LingXing at most once, whatever else fails or crashes. */
  lemma CreatedAtMostOnce(states: seq<World>, actions: seq<Action>, n: nat, k: string)
    requires Schedule(states, actions) && n < |states|
    requires NoTwins(states[n].rows)
    requires forall i :: 0 <= i < n ==> !Missed(states[i], actions[i], k)
    ensures Inv(states[n]) && OnceInv(states[n], k)
  {
    ScheduleInv(states, actions, n);
    InitialOnce(states[0], k);
    forall m | 0 <= m < n && OnceInv(states[m], k) ensures OnceInv(states[m + 1], k) {
      NoTwinsThroughout(states, actions, m, n);
      OnceNext(states, actions, m, k);
    }
    OnceAlong(states, n, k);
  }

  /** So behind every order that LingXing holds twice there is a check that missed it. */
  lemma TwiceMeansMissed(states: seq<World>, actions: seq<Action>, n: nat, k: string) returns (i: nat)
    requires Schedule(states, actions) && n < |states| && Created(states[n].created, k) >= 2
    requires NoTwins(states[n].rows)
    ensures i < n && Missed(states[i], actions[i], k)
  {
    if forall m :: 0 <= m < n ==> !Missed(states[m], actions[m], k) {
      CreatedAtMostOnce(states, actions, n, k);
      assert false;
    }
    i :| 0 <= i < n && Missed(states[i], actions[i], k);
  }

  lemma Asked(w: World, r: Locking.RunId, found: set<string>)
    requires r in w.tasks && w.tasks[r].job == PushJob && CanDo(w, w.tasks[r], Query(found))
    ensures var asked := AfterDo(w, r, Query(found));
            && r in asked.tasks && asked.tasks[r].job == PushJob && asked.tasks[r].stage == Collecting
            && asked.tasks[r].todo == w.tasks[r].todo && asked.tasks[r].existing == found && asked.created == w.created
  {
  }

  lemma CreateCounts(w: World, r: Locking.RunId, k: string)
    requires r in w.tasks && CanDo(w, w.tasks[r], Create(k, true, true))
    ensures var po := w.tasks[r].todo[k].payload.value.poNumber;
            Created(AfterDo(w, r, Create(k, true, true)).created, po) == Created(w.created, po) + 1
  {
  }

  lemma CreateGuard(w: World, t: Task, k: string)
    requires t.job == PushJob && t.stage == Collecting && k in t.todo && t.todo[k].payload.Some?
    ensures CanDo(w, t, Create(k, true, true)) <==> Trim(k) !in t.existing
  {
  }

  /** A second order can be created if and only if the run's query missed the PO, as when both the list call and the single lookup fail. */
  lemma SecondOrderIffMissed(w: World, r: Locking.RunId, k: string, found: set<string>)
    requires Inv(w) && r in w.tasks && w.tasks[r].job == PushJob && CanDo(w, w.tasks[r], Query(found))
    requires k in w.tasks[r].todo && Created(w.created, k) >= 1
    ensures var asked, create := AfterDo(w, r, Query(found)), Create(k, true, true);
            && (CanDo(asked, asked.tasks[r], create) <==> Trim(k) !in found)
            && (Trim(k) !in found ==> Created(AfterDo(asked, r, create).created, k) == Created(w.created, k) + 1)
  {
    assert TaskForm(w.tasks[r]);
    assert RowOk(k, w.tasks[r].todo[k]);
    Asked(w, r, found);
    CreateGuard(AfterDo(w, r, Query(found)), AfterDo(w, r, Query(found)).tasks[r], k);
    if Trim(k) !in found {
      CreateCounts(AfterDo(w, r, Query(found)), r, k);
    }
  }
}
