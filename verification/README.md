# Order pipeline between DSCO and LingXing: a verified model

This project models, in Dafny 4.11, the logic of a service that moves retail orders from DSCO to the
LingXing ERP and reports acknowledgements, shipments, invoices and stock back, and proves what that
logic guarantees. `dafny verify dfyconfig.toml` checks the whole project.

Every row of the table `dsco_order_sync` moves through the statuses 1 (pulled), 2 (pushed to LingXing),
3 (acknowledged), 4 (shipped) and 5 (invoiced); 6 is cancelled. Four jobs make the moves. Nothing but a
PostgreSQL advisory lock per job keeps two runs apart, and all writes are blind updates by PO number.

| files | subject |
|---|---|
| `AdvisoryLock`, `OrderStore`, `Tasks`, `Pipeline`, `PipelineSafety`, `PipelineTheorems`, `PipelineEvidence`, `PipelineExample`, `PipelineRuns`, `Batches`, `PipelineBatchRuns` | the jobs as interleaved steps over locks, rows and remote systems, with crashes and lost replies; what every reachable state keeps |
| `Orders`, `Sums`, `Aggregation`, `Shipment`, `Invoice`, `ChangeLog`, `Tracking` | building one shipment or invoice, the full-shipment gates, and confirming an asynchronous batch |
| `PgTextArray`, `Mskus` | the `text[]` printer and parser, and the multi-order verdict that depends on them |
| `StreamReader`, `StockCache`, `Paging` | the inventory stream, the cache it fills, and the paging and batching loops |
| `SkuMaps`, `SkuPull` | pulling SKU pairs, hashing, comparing and reversing the mapping |
| `DirCleanup` | deleting the oldest files of a directory |
| `Text` | trimming, joining and optional values |

## How the model is built

Loops over Go maps take keys in an arbitrary order (`:|`) and still have one result. Remote systems, the
clock and the database answer with arbitrary values; a failed call, a lost reply and a crash are ordinary
inputs. Methods follow the source's loops and branches and are proved against specification functions;
the lemmas then say what those functions mean.

The concurrent part is a state machine. `AdvisoryLock.Locks` holds the server's locks, the pooled sessions
of all processes and the live runs. `Pipeline.World` adds the rows, each run's claim on rows (selected,
waiting for a batch, ready to be written), what LingXing and the warehouse hold, and which orders DSCO was
asked to acknowledge and which it has reported as acknowledged. A step is one
statement or one remote call. `Schedule` is a run of the whole system from an empty table: any number of
processes, any interleaving.

Claims that turned out false of the code are stated as such, with the condition that decides them:

- A legal array is not always recovered: an unquoted element must hold no escaped comma and keep its ends when trimmed, `NULL` must be in upper case, and a quoted one must not be padded with vertical tabs or form feeds; a list is recovered exactly when each element is of that kind (`PgTextArray.ListRecoveredIff`).
- A tracking number with a separator inside is not stored faithfully (`Tracking.FieldSetFaithfulIff`, `Shipment.StoredTrackingsIff`).
- A line key does not keep answering for itself when a later line names it as a partner SKU (`Orders.KeyKeepsItselfIff`).
- Statuses can fall. PO numbers are trimmed when read back but not when stored, so the write for one row can land on another, and a finished row falls to 3 (`PipelineExample.FinishedRowFallsBack`). For a given set of PO numbers no schedule lets a status fall iff none of them is another's trimmed form (`PipelineExample.NoFallIff`); the guarantees below are proved for all such tables, in which a write prepared under an untrimmed number lands on its own row or on none (`PipelineSafety.WriteLands`). All writes land on their own rows iff all numbers are trimmed (`PipelineTheorems.WritesLandIff`).
- A row at 3 or 4 need not be acknowledged in DSCO. The batch call only asks for it, DSCO acknowledges asynchronously, and the job writes 3 on the HTTP answer (`PipelineExample.UnreportedAtThree`). Such a row was named in a call that arrived, and reached 3 by that run's write (`PipelineEvidence.UnconfirmedWasAsked`).
- "Already running" can be reported when nothing runs: exactly when the key was leaked to another session that has not ended since (`AdvisoryLock.FalseReportIff`, `AdvisoryLock.BusyWithoutARun`).
- LingXing can get an order twice, but only if an existence check misses it, as when the list call and the single lookup both fail (`PipelineEvidence.TwiceMeansMissed`, `PipelineEvidence.SecondOrderIffMissed`, and such a run: `PipelineExample.CreatedTwice`).
- The invoice poll does not let failure win (`ChangeLog.RulesAgreeIff`).
- The stock cache can keep an older quantity: it is the log's, whatever the events say, exactly when the event handled last is the newest come across (`StockCache.CacheEqualsLogIff`, `StockCache.PartialRedeliveryLosesAnUpdate`).
- The hashed bytes of two different mappings can coincide, even without NUL, but then a key of one and a value of the other contain a newline (`SkuMaps.HashTellsNulFreeMapsApart`, `SkuMaps.NulFreeCollision`).
- A pulled mapping need not be reversible, because the reverse direction is checked per store only: it is exactly when no SKU is listed under two MSKUs (`SkuPull.NotInjectiveAcrossStores`, `SkuPull.PulledReversibleIff`).
- The stock page loop stops early when the server caps pages below the configured size (`Paging.PagingCompleteIff`).

## Model

| member | source | states |
|---|---|---|
| AdvisoryLock.Advisory.TryLock | infra/lock/advisory.go:20-38 | a connection is returned exactly when the server grants the key and the reply arrives; a session refused, or whose reply is lost, goes back to the pool, in the latter case holding the key; the call is one Acquire step of the schedule |
| AdvisoryLock.Advisory.Unlock | infra/lock/advisory.go:40-47 | the session returns to the pool whether or not the unlock statement took effect, and a nil connection changes nothing; the call is one Release step |
| AdvisoryLock.StepKeepsInv | infra/lock/advisory.go:20-47 | every action of any process keeps: each run holds its key on a checked-out session of its own |
| AdvisoryLock.MutualExclusion | integration/runner.go:83-91 | in every state of every schedule at most one run per lock key is between acquire and release, even with failed unlocks, lost grants and sessions pooled while holding keys |
| AdvisoryLock.HeldWithoutARunIff | infra/lock/advisory.go:20-47 | at any point of any schedule a key with no live run is held iff some lost grant or failed unlock left it with a session that no later death or crash has ended |
| AdvisoryLock.BusyMeansRunning | integration/runner.go:84-91 | "job running" is the truth whenever no leak of that key stands, healed leaks and leaks of other keys included |
| AdvisoryLock.FalseReportIff | integration/runner.go:84-91 | an answered TryLock reports "job running" with no run live iff none is live and a leak of the key stands with another session than the one asking |
| AdvisoryLock.BusyWithoutARun | infra/lock/advisory.go:45-46 | after one ignored unlock failure a schedule exists where the job is reported running with no run at all |
| AdvisoryLock.LeakHeals | infra/lock/advisory.go:40-47 | a leaked key can be granted exactly to the session that holds it, and to every session once that one dies |
| AdvisoryLock.CutOffBreaksExclusion | infra/lock/advisory.go:19-38 | the guarantee rests on the session outliving the run: once it is cut off, any other session starts a second run of the same key |
| OrderStore.Store.UpdateStatus | infra/store/dsco_order_sync_store.go:278-290 | blank keys are refused, the key is trimmed, only the status column of that row changes, a missing row is no error |
| OrderStore.Store.UpdateStatusAndTrackingNo | infra/store/dsco_order_sync_store.go:292-306 | the same with the tracking column |
| OrderStore.Store.UpdateStatusAndInvoiceID | infra/store/dsco_order_sync_store.go:308-322 | the same with the invoice id column |
| OrderStore.Store.UpdateStatusAndFields | infra/store/dsco_order_sync_store.go:324-335 | all three columns of the row with exactly this key, which is neither trimmed nor refused |
| OrderStore.Store.FindByStatus | infra/store/dsco_order_sync_store.go:224-235 | distinct rows of that status, oldest first, none left out is older than one returned, as many as the limit (50 by default) allows |
| OrderStore.ConfirmShipments | integration/dsco_lingxing/task_ship_to_dsco.go:797-860 | the table afterwards is the old one with exactly the positively confirmed entries written, and the counters add up to the batch |
| OrderStore.ConfirmInvoices | integration/dsco_lingxing/task_invoice_to_dsco.go:588-641 | likewise for invoices, where a missing verdict fails |
| OrderStore.ConfirmedRows | integration/dsco_lingxing/task_ship_to_dsco.go:796-845 | row by row: a confirmed PO's row gets its own write, every other row is untouched, no row appears or disappears |
| Tasks.PushToLingXing | integration/dsco_lingxing/task_push_to_lingxing.go:128-435 | the orders asked for are those of the specification below; with clean keys a row moves to 2 iff its update goes through and the order exists already or LingXing answered the create call with a success or without errors; an answer of errors alone, like a failed call, leaves the row, and every other row stays |
| Tasks.CreatedMeans | integration/dsco_lingxing/task_push_to_lingxing.go:130-374 | a create call is made for an order iff there is a selected row for it that was not found to exist and whose request could be built |
| Tasks.CreatedOnce | integration/dsco_lingxing/task_push_to_lingxing.go:128-374 | with clean keys a run asks for each order at most once and for none found to exist |
| Tasks.MovedMeans | integration/dsco_lingxing/task_push_to_lingxing.go:130-421 | a row moves iff there is an item that writes its key and whose update goes through |
| Tasks.PushedRows | integration/dsco_lingxing/task_push_to_lingxing.go:374-421 | the same row by row, stated on the reply's own counts |
| Tasks.WritesOwnRow | integration/dsco_lingxing/task_push_to_lingxing.go:132-408 | with a clean key an item writes its own row iff the order exists already or its create call was taken |
| Tasks.AckToDSCO | integration/dsco_lingxing/task_ack_to_dsco.go:125-318 | the ACK request is that of the specification below; with clean keys a row moves to 3 iff its update goes through and DSCO reports shipment_pending, shipped or completed, or the accepted batch call names it; every other row stays |
| Tasks.PlanMeans | integration/dsco_lingxing/task_ack_to_dsco.go:125-195 | an order is considered for an ACK iff a row for it is unconfirmed in DSCO and not banned, and moves without iff it is confirmed and its update goes through |
| Tasks.AckedIff | integration/dsco_lingxing/task_ack_to_dsco.go:125-275 | an order is acknowledged iff it is so considered and all of its LingXing sub-orders, at least one, are ready |
| Tasks.AckedRows | integration/dsco_lingxing/task_ack_to_dsco.go:125-318 | which rows move, stated on DSCO's statuses, the sub-order statuses 5 and 6, the ban and the batch answer |
| Pipeline.ReadyToAck | integration/dsco_lingxing/task_ack_to_dsco.go:233-257 | an order may be acknowledged iff LingXing lists at least one sub-order and all are at status 5 or 6 |
| Pipeline.CheckExisting | integration/dsco_lingxing/task_push_to_lingxing.go:93-119 | a PO counts as existing iff some list answer names it or, where the list call failed, its single lookup succeeded |
| PipelineTheorems.FinishedOnEntry | integration/dsco_lingxing/util.go:295-315 | in every reachable state an order whose status, trimmed and in any letter case, is shipped or cancelled when it is first pulled is exactly as it was stored, and no run of any job claims it |
| PipelineSafety.OneRunPerJob | integration/runner.go:82-91 | runs of the same job are the same run, derived from the lock invariant |
| PipelineSafety.LocksMatchStep | integration/runner.go:82-110 | every step keeps the live runs in step with the lock table |
| PipelineSafety.WriteLands | infra/store/dsco_order_sync_store.go:278-335 | where no PO is another's trimmed form, a prepared write changes the row it was prepared for or no row, and what it writes there is its job's next status |
| PipelineSafety.OwnedOnce | integration/dsco_lingxing/task_push_to_lingxing.go:59-71 | no row is claimed by two runs: runs of one job are one run, and other jobs select other statuses |
| PipelineSafety.OthersKeepOwned | integration/dsco_lingxing/task_ship_to_dsco.go:796-831 | a write never touches a row claimed by another run, because the claimants' source statuses differ |
| PipelineSafety.StepKeepsInv | integration/dsco_lingxing/task_push_to_lingxing.go:59-71 | every step of every job, process, remote system and the pull keeps locks, row shape and ownership, as long as no PO is another's trimmed form |
| PipelineSafety.ScheduleInv | integration/dsco_lingxing/task_push_to_lingxing.go:59-71 | hence every reachable state with such PO numbers has them |
| PipelineTheorems.EveryStepIsOneForward | integration/dsco_lingxing/task_ack_to_dsco.go:300-302 | a step leaves a row as it is or is its owner's write from the source status to exactly the next one |
| PipelineTheorems.StatusOnlyRises | integration/dsco_lingxing/task_invoice_to_dsco.go:587-616 | along every run of the system, while no PO is another's trimmed form, statuses never fall, the order payload never changes, and rows at 5 or 6 are final |
| PipelineTheorems.OwnershipHolds | integration/dsco_lingxing/task_ack_to_dsco.go:64-75 | every row a run still has to write is at the status it was selected at, belongs to no other run, and what the run read of it is still current |
| PipelineTheorems.NoStatusSkipped | integration/dsco_lingxing/task_invoice_to_dsco.go:587-616 | between any two statuses a row has had, every level was left for the next one in a single step |
| PipelineTheorems.BlindWriteMovesBackIff | infra/store/dsco_order_sync_store.go:278-335 | met with any status, as by a second run or after a manual change, the push write lowers exactly 3 to 6, ack 4 to 6, ship 5 and 6, invoice 6; exactly lower ones skip a step; push and ack wipe tracking numbers and invoice id, ship and invoice keep the other's column |
| PipelineTheorems.WritesLandIff | integration/dsco_lingxing/task_push_to_lingxing.go:128-132 | every write of every job lands on its own row iff all keys are trimmed |
| PipelineTheorems.UntrimmedKeyMovesAnotherRow | integration/dsco_lingxing/task_ack_to_dsco.go:126-144 | with an untrimmed key an acknowledgement leaves its row behind and takes a finished row from 5 to 3 |
| PipelineTheorems.AcceptedMeans | integration/dsco_lingxing/task_ship_to_dsco.go:797-831 | a batch entry is accepted only when "success" and never "failure" was said of it (shipments), or "success" without a later "failure", or neither and it is visible (invoices) |
| PipelineTheorems.ScheduleJustified | integration/dsco_lingxing/task_ship_to_dsco.go:207-831 | in every reachable state each prepared shipment and invoice write carries the decision and the verdicts that justify it |
| PipelineExample.FullRun | integration/dsco_lingxing/task_invoice_to_dsco.go:587-616 | the steps can be taken: from an empty table a schedule carries an order from 1 to 5 through all four jobs, and so takes the moves to 3, to 4 and to 5, without a word from DSCO that the order is acknowledged |
| PipelineExample.CreatedTwice | integration/dsco_lingxing/task_push_to_lingxing.go:103-160 | a schedule with clean keys in which a run creates the order and crashes before its write, the next check is told of nothing, and LingXing holds the order twice |
| PipelineExample.FinishedRowFallsBack | integration/dsco_lingxing/task_ack_to_dsco.go:126-144 | a schedule in which a finished row falls from 5 to 3 by the acknowledgement of another row whose key differs by white space |
| PipelineExample.NoFallIff | infra/store/dsco_order_sync_store.go:278-335 | for any set of PO numbers: every schedule over them keeps every status from falling iff none of them is, trimmed, another non-blank one |
| PipelineExample.UnreportedAtThree | integration/dsco_lingxing/task_ack_to_dsco.go:288-302 | a schedule with clean keys ends with a row at 3 that DSCO has never reported as acknowledged |
| PipelineRuns.PushRunIsSteps | integration/dsco_lingxing/task_push_to_lingxing.go:59-435 | the uninterrupted push run is a sequence of steps of one pipeline run, with the same create calls in order and the same final rows, for whatever LingXing really did about each call, as far as its answer tells; LingXing then holds exactly the orders it took |
| PipelineRuns.AckRunIsSteps | integration/dsco_lingxing/task_ack_to_dsco.go:64-318 | the uninterrupted ack run is a sequence of steps of one pipeline run with the same final rows, whether the batch call is accepted, refused or not needed |
| Batches.ShipToDSCO | integration/dsco_lingxing/task_ship_to_dsco.go:207-860 | a whole uninterrupted ship run: the rows are what the decisions, the answered call and its change log make of them, row by row, and every tracking field written stands for the tracking numbers to record |
| Batches.InvoiceToDSCO | integration/dsco_lingxing/task_invoice_to_dsco.go:122-641 | likewise a whole invoice run |
| PipelineBatchRuns.ShipRunIsSteps | integration/dsco_lingxing/task_ship_to_dsco.go:207-860 | that ship run is a sequence of steps of one pipeline run with the same final rows, whatever is skipped, advanced or sent, whether the call is answered, and whichever updates fail |
| PipelineBatchRuns.InvoiceRunIsSteps | integration/dsco_lingxing/task_invoice_to_dsco.go:122-641 | that invoice run likewise |
| PipelineEvidence.StatusIsEvidence | integration/dsco_lingxing/task_push_to_lingxing.go:374-408 | in every reachable state status 2 to 4 means LingXing holds the order, 3 and 4 that DSCO was asked to acknowledge it by a call that arrived or has reported it acknowledged, 4 that the warehouse's current list, which is taken only to grow, ships it in full |
| PipelineEvidence.WhatReachingThreeTakes | integration/dsco_lingxing/task_ack_to_dsco.go:125-302 | a row goes from 2 to 3 only by an ack run's write, prepared from an arrived request or from DSCO's own report |
| PipelineEvidence.UnconfirmedWasAsked | integration/dsco_lingxing/task_ack_to_dsco.go:288-302 | a row at 3 or 4 that DSCO has not reported was named in an arrived batch call and later went from 2 to 3 by the write that such a request prepares, never by one prepared from a report |
| PipelineEvidence.WithdrawnOutboundUndoesEvidence | integration/dsco_lingxing/task_ship_to_dsco.go:411-482 | the last part rests on that: once the outbound orders of a row are withdrawn it is fully shipped iff nothing was ordered |
| PipelineEvidence.AdvanceNeedsDsco | integration/dsco_lingxing/task_ship_to_dsco.go:547-603 | a batch run advances an order without sending only if DSCO's order was fetched and its packages record every tracking number |
| PipelineEvidence.WhatReachingFourTakes | integration/dsco_lingxing/task_ship_to_dsco.go:500-603 | a row goes from 3 to 4 only fully shipped, and only on a confirmed batch (a success, no failure) or with everything already recorded |
| PipelineEvidence.WhatReachingFiveTakes | integration/dsco_lingxing/task_invoice_to_dsco.go:525-616 | a row goes from 4 to 5 only on an invoice whose last verdict is success, or that is visible when there is none, and then stores its own PO as invoice id |
| PipelineEvidence.InvoiceNeverWaits | integration/dsco_lingxing/task_invoice_to_dsco.go:375-400 | a row at 4 always passes the invoice gate on the current list, taken only to grow, and is never skipped as already invoiced |
| PipelineEvidence.CreatedAtMostOnce | integration/dsco_lingxing/task_push_to_lingxing.go:83-160 | a PO that no existence check misses is created in LingXing at most once over any run of the system with crashes and lost responses |
| PipelineEvidence.TwiceMeansMissed | integration/dsco_lingxing/task_push_to_lingxing.go:83-160 | if LingXing holds a PO twice, some earlier check of a run that had selected it missed it although LingXing held it |
| PipelineEvidence.SecondOrderIffMissed | integration/dsco_lingxing/task_push_to_lingxing.go:103-113 | for an order LingXing already holds, a second create is possible iff the run's query missed it |
| Orders.BuildNames | integration/dsco_lingxing/task_ship_to_dsco.go:374-402 | the loop computes the alias and name maps the lemmas below interpret |
| Orders.ExpectedIsOrdered | integration/dsco_lingxing/task_ship_to_dsco.go:503-510 | the expected map holds exactly the keys with positive ordered quantity, each with the sum over its lines |
| Orders.AliasIsLastMention | integration/dsco_lingxing/task_invoice_to_dsco.go:272-288 | an alias resolves to the key of the last line naming it by SKU or partner SKU |
| Orders.KeyKeepsItselfIff | integration/dsco_lingxing/task_ship_to_dsco.go:384-392 | a key answers for itself iff no later line with another key mentions it |
| Orders.ProductCountsUnder | integration/dsco_lingxing/task_ship_to_dsco.go:441-457 | a product with a SKU and a positive count counts once: its SKU is led through the reverse map unless the entry is blank, and it counts under the key of the last line that has the result as SKU or partner SKU, or under the result itself when no line has it |
| Orders.OrderedAdds | integration/dsco_lingxing/task_ship_to_dsco.go:503-510 | a line adds its positive quantity under its SKU, or under its partner SKU when it has none |
| Orders.ShipGateMeans | integration/dsco_lingxing/task_ship_to_dsco.go:500-529 | the shipment gate holds iff of every key at least the ordered quantity is tracked |
| Orders.InvoiceGateMeans | integration/dsco_lingxing/task_invoice_to_dsco.go:328-385 | the invoice gate likewise on everything listed |
| Orders.TrackedGrows | integration/dsco_lingxing/task_ship_to_dsco.go:411-482 | a larger WMS list, in any order, never ships less of a key |
| Orders.ShipGateGrows | integration/dsco_lingxing/task_ship_to_dsco.go:500-529 | an order that passed the shipment gate passes it on every larger list |
| Orders.ShipGateImpliesInvoiceGate | integration/dsco_lingxing/task_invoice_to_dsco.go:331-385 | an order that passed the shipment gate passes the invoice gate on the same or a larger list |
| Orders.GatesAgreeWhenTracked | integration/dsco_lingxing/task_invoice_to_dsco.go:352-385 | without untracked outbound orders the two gates are equivalent |
| Aggregation.AggregateByTracking | integration/dsco_lingxing/task_ship_to_dsco.go:409-483 | the nested loops compute the grouping the lemmas below interpret, by the keys that Orders.ProductCountsUnder states |
| Aggregation.AggregateMeaning | integration/dsco_lingxing/task_ship_to_dsco.go:411-483 | a group exists iff an outbound order carries the number, and holds per key the sum of positive counts resolving to it |
| Aggregation.AggregationConserves | integration/dsco_lingxing/task_ship_to_dsco.go:404-483 | per key the sum over all groups equals the sum over tracked WMS lines |
| Aggregation.ShippedByKey | integration/dsco_lingxing/task_ship_to_dsco.go:511-519 | summing groups in any order gives that per-key sum |
| Aggregation.AllShipped | integration/dsco_lingxing/task_ship_to_dsco.go:520-529 | the early-exit comparison is true iff every expected quantity is reached |
| Aggregation.GateOf | integration/dsco_lingxing/task_ship_to_dsco.go:500-529 | the computed gate equals the shipment gate stated on the raw WMS list |
| Shipment.ReadTrackings | integration/dsco_lingxing/task_ship_to_dsco.go:208-245 | local field and DSCO packages become the sets of their tokens, and the joined text is blank iff the union is empty |
| Shipment.SelectToSend | integration/dsco_lingxing/task_ship_to_dsco.go:547-558 | exactly the groups not yet recorded, in any iteration order |
| Shipment.FindSpans | integration/dsco_lingxing/task_ship_to_dsco.go:605-626 | the keys held by more than one group of the whole list |
| Shipment.BuildShipments | integration/dsco_lingxing/task_ship_to_dsco.go:628-668 | one shipment per new group with items, lines and flags included, for every iteration order |
| Shipment.PrepareShipment | integration/dsco_lingxing/task_ship_to_dsco.go:207-715 | the loop body, with all its skips in order, realises the decision the lemmas below describe |
| Shipment.OnlyFullyShippedOrdersMove | integration/dsco_lingxing/task_ship_to_dsco.go:500-545 | advancing or sending takes the full-shipment gate, an allowed DSCO status and no multi ban |
| Shipment.SentIff | integration/dsco_lingxing/task_ship_to_dsco.go:207-689 | an order is sent iff it has a PO, a warehouse id, a payload and a tracked outbound order, DSCO's status, if fetched, is shipped, completed or shipment_pending, it is not a banned multi order, everything ordered is tracked, and some unrecorded number has a usable item |
| Shipment.AdvancesIff | integration/dsco_lingxing/task_ship_to_dsco.go:547-603 | it advances without sending iff all that holds but no listed number is unrecorded |
| Shipment.AdvanceMeansAllRecorded | integration/dsco_lingxing/task_ship_to_dsco.go:547-603 | advancing without sending means every WMS tracking number is recorded: a token of DSCO's packages if its order was fetched, else of the local field |
| Shipment.SentExactlyNewWithItems | integration/dsco_lingxing/task_ship_to_dsco.go:547-668 | a tracking number is sent iff it is on the WMS list, unrecorded and has a usable item |
| Shipment.SentLineQuantity | integration/dsco_lingxing/task_ship_to_dsco.go:631-655 | each sent line carries exactly what was shipped under its tracking number and key |
| Shipment.SentLineNames | integration/dsco_lingxing/task_ship_to_dsco.go:460-470 | the SKU sent is that of the last order line filed under the key that has one, else the key, which comes to the key either way; the partner SKU is that of the last such line that has one, else blank |
| Shipment.SpanFlagIff | integration/dsco_lingxing/task_ship_to_dsco.go:605-653 | a line is span-flagged iff its key is shipped under two tracking numbers of the whole list, recorded ones included |
| Shipment.SentPlusRecorded | integration/dsco_lingxing/task_ship_to_dsco.go:552-558 | sent and recorded groups together account for every tracked piece of a key |
| Shipment.NoTrackingSentUnreachable | integration/dsco_lingxing/task_ship_to_dsco.go:559-575 | the "fully_shipped_but_no_tracking_sent" branch cannot be reached |
| Shipment.StoredTrackingsIff | integration/dsco_lingxing/task_ship_to_dsco.go:691-701 | what is stored after confirmation stands for local, DSCO and new numbers iff no new number contains a separator |
| Tracking.UniqueNonEmptyStrings | integration/dsco_lingxing/util.go:93-108 | trimmed, non-empty, distinct values with the same members as the input |
| Tracking.TokensAround | integration/dsco_lingxing/task_ship_to_dsco.go:20-34 | every comma, semicolon, full-width or not, blank, tab and line break separates: the tokens of a text are those before it and then those after it |
| Tracking.NormalizeTrackingJoined | integration/dsco_lingxing/task_ship_to_dsco.go:17-35 | joins exactly the distinct tokens of the values |
| Tracking.ParseTrackingSet | integration/dsco_lingxing/task_ship_to_dsco.go:37-49 | the set of tokens of the field |
| Tracking.JoinTrackingSet | integration/dsco_lingxing/task_ship_to_dsco.go:51-62 | a field whose tokens are the tokens of the set's members, for every iteration order |
| Tracking.TokensJoined | integration/dsco_lingxing/task_ship_to_dsco.go:20-34 | splitting a join of clean tokens gives them back in order |
| Tracking.SplitJoined | integration/dsco_lingxing/task_ship_to_dsco.go:43-47 | so does splitting at commas only |
| Tracking.FieldSetFaithfulIff | integration/dsco_lingxing/task_ship_to_dsco.go:37-62 | a set survives being joined and parsed iff all its members are separator-free |
| Invoice.PickIsFirstUsable | integration/dsco_lingxing/task_push_to_lingxing.go:443-457 | the unit price is the first positive of the four candidates, and there is none iff none is positive |
| Invoice.PriceExistsIff | integration/dsco_lingxing/task_invoice_to_dsco.go:308-317 | a key has a price iff one of its lines does |
| Invoice.InvoicedPrice | integration/dsco_lingxing/task_invoice_to_dsco.go:308-317 | an invoice line carries the price of the last order line for its key that has one |
| Invoice.InvoicedNames | integration/dsco_lingxing/task_invoice_to_dsco.go:422-429 | its SKU and partner SKU are those of the last lines for its key that have them, else the key and blank |
| Invoice.InvoiceReady | integration/dsco_lingxing/task_invoice_to_dsco.go:328-385 | the computed flag is the invoice gate stated on the raw WMS list, untracked orders included |
| Invoice.BuildLines | integration/dsco_lingxing/task_invoice_to_dsco.go:402-472 | lines, total and unpriced keys do not depend on the order in which the map is walked |
| Invoice.PrepareInvoice | integration/dsco_lingxing/task_invoice_to_dsco.go:122-498 | the loop body, with all its skips in order, realises the decision the lemmas below describe |
| Invoice.OneLinePerOrderedKey | integration/dsco_lingxing/task_invoice_to_dsco.go:409-441 | an invoice has one line per key with positive ordered quantity, carrying that quantity |
| Invoice.ExpectedConserves | integration/dsco_lingxing/task_invoice_to_dsco.go:273-291 | grouping the lines by key neither loses nor invents pieces |
| Invoice.KeysTotalIsLinesTotal | integration/dsco_lingxing/task_invoice_to_dsco.go:409-442 | for any prices the sum over keys, in any order, is the sum over order lines |
| Invoice.TotalWithinHalfCent | integration/dsco_lingxing/task_invoice_to_dsco.go:472 | the total is a whole number of cents within half a cent of the lines' total at the invoiced prices, half a cent rounding up |
| Invoice.UniformTotal | integration/dsco_lingxing/task_invoice_to_dsco.go:408-472 | when lines that share a key share their unit price, the total is within half a cent of the sum of quantity times each line's own price |
| Invoice.SendIffEveryKeyPriced | integration/dsco_lingxing/task_invoice_to_dsco.go:413-470 | past the gate, an invoice is built iff every ordered key has a priced line |
| Invoice.InvoicedIff | integration/dsco_lingxing/task_invoice_to_dsco.go:122-498 | an order is invoiced, under its PO as invoice id, iff it has a PO, a payload, a warehouse id and outbound orders, is not already invoiced in DSCO nor a banned multi order, everything ordered is listed, something is ordered, and every ordered key has a priced line |
| ChangeLog.Poll | integration/dsco_lingxing/dsco_shipment_change_log.go:39-88 | stops at the first reply that says completed, in any letter case, or settles everything, else at the deadline; a shipment then succeeds iff an entry says success and none failure, an invoice iff an entry says success and none after it failure; any other word decides nothing |
| ChangeLog.VerdictMeans | integration/dsco_lingxing/dsco_shipment_change_log.go:45-67 | the same for either poll and any entries, on their statuses trimmed and compared without regard to ASCII case |
| ChangeLog.FailureWinsMeaning | integration/dsco_lingxing/dsco_shipment_change_log.go:45-67 | a wanted PO is settled iff decided at all, and succeeds iff it never failed |
| ChangeLog.FailureWinsIsOrderFree | integration/dsco_lingxing/dsco_shipment_change_log.go:45-67 | shipment verdicts depend only on which marks were seen |
| ChangeLog.LastWinsMeaning | integration/dsco_lingxing/task_invoice_to_dsco.go:716-735 | an invoice verdict is the last decisive entry |
| ChangeLog.RulesAgreeIff | integration/dsco_lingxing/task_invoice_to_dsco.go:724-734 | the two polls agree iff no success was the last word after a failure |
| ChangeLog.LaterSuccessOverridesForInvoicesOnly | integration/dsco_lingxing/task_invoice_to_dsco.go:726-729 | failure then success: settled as success for invoices, as failure for shipments |
| ChangeLog.WaitForVisible | integration/dsco_lingxing/task_invoice_to_dsco.go:664-685 | visible iff one of the allowed lookups finds it, stopping at the first |
| ChangeLog.ConfirmedInvoiceIff | integration/dsco_lingxing/task_invoice_to_dsco.go:578-591 | confirmed iff success was said and no failure after it, or neither decided and the invoice is visible |
| PgTextArray.ToPGTextArrayLiteral | infra/store/dsco_order_sync_store.go:20-32 | the printing loop equals the specification the lemmas below interpret |
| PgTextArray.TwoPassIsOnePass | infra/store/dsco_order_sync_store.go:27-28 | replacing backslashes and then quotes equals escaping both in one pass |
| PgTextArray.UnescapeBackslash | infra/store/pg_text_array.go:114-129 | the index loop equals its recursive specification |
| PgTextArray.ReadQuoted | infra/store/pg_text_array.go:73-96 | the scanner of a quoted element equals scanning the remaining input, its error included |
| PgTextArray.ReadBare | infra/store/pg_text_array.go:98-108 | the scanner of an unquoted element reads up to the next comma |
| PgTextArray.ParsePGTextArrayLiteral | infra/store/pg_text_array.go:48-112 | the index-driven parser equals the recursive one the lemmas below interpret |
| PgTextArray.ParseAnyLegalMix | infra/store/pg_text_array.go:57-111 | any mix of elements in PostgreSQL's input syntax, quoted, unquoted or NULL and with any white space around them, parses to the values meant if each is Readable |
| PgTextArray.RoundTrip | infra/store/dsco_order_sync_store.go:20-32 | parsing what was printed gives every element trimmed |
| PgTextArray.PrintIsStable | infra/store/dsco_order_sync_store.go:20-32 | printing what was parsed prints the same literal again |
| PgTextArray.ServerRoundTrip | infra/store/pg_text_array.go:17-42 | the form in which PostgreSQL itself prints an array parses to the same elements |
| PgTextArray.ListRecoveredIff | infra/store/pg_text_array.go:57-108 | a list of legal elements is recovered iff each is Readable: quoted and padded with the parser's separators only, unquoted without escaped comma and with ends that survive trimming, or NULL in upper case |
| Mskus.PrintMSKUs | integration/dsco_lingxing/task_pull_dsco_orders.go:197-205 | one token per line that has a SKU, in order |
| Mskus.AtoiItoa | integration/dsco_lingxing/task_pull_dsco_orders.go:204 | reading back a printed quantity gives the quantity, for every int |
| Mskus.QtyOfToken | integration/dsco_lingxing/util.go:354-377 | the quantity read from a printed token is the line's when positive and else 1, whatever characters the SKU contains |
| Mskus.DetectMultiOrderByMSKUs | integration/dsco_lingxing/util.go:332-352 | the verdict is "several tokens or one with quantity above 1" |
| Mskus.MultiVerdictEndToEnd | integration/dsco_lingxing/util.go:332-377 | print, encode, decode, detect: the verdict is that of the order lines themselves |
| Mskus.MultiVerdictThroughServer | infra/store/pg_text_array.go:48-112 | the same when PostgreSQL prints the array in its own form in between |
| StreamReader.StreamPartitionReader.Ack | golib/v2/sdk/dsco/stream.go:202-217 | the position moves, to the trimmed id, only when that is non-blank and the call succeeds |
| StreamReader.WaitUntilHasEvents | golib/v2/sdk/dsco/stream.go:221-248 | returns ready only when a pull brings events, gives up only after a silent pull past the deadline |
| StreamReader.WatchMaxPosition | golib/v2/sdk/dsco/inventory_stream.go:171-202 | after a readable maxPosition the stable time is set iff it equals the position, an unreadable one changes nothing; whenever it is set, every pull since was silent and every readable maxPosition was one value equal to the position |
| StreamReader.PullAll | golib/v2/sdk/dsco/inventory_stream.go:141-236 | every event with an id at or before the position was handled; nil is returned at the first silent pull after IdleTimeout without events, or after a minute in which all pulls were empty and every readable maxPosition equalled the unchanged position |
| StreamReader.AllHandled | golib/v2/sdk/dsco/inventory_stream.go:217-235 | for every history of acknowledged and unacknowledged batches, delivery is at least once |
| StreamReader.LiveMeans | golib/v2/sdk/dsco/inventory_stream.go:217-230 | the events to be handled are all that have an id, as often as they come |
| StreamReader.SamePosition | golib/v2/sdk/dsco/inventory_stream.go:171-202 | positions compare as equal iff they spell the same characters, whichever of them are percent-escaped and in whichever case |
| StockCache.Cache.Handle | integration/dsco_lingxing/task_sync_stock.go:183-227 | one event overwrites its SKU and only fills in its partner SKU, at the wanted warehouses |
| StockCache.CacheMeaning | integration/dsco_lingxing/task_sync_stock.go:183-227 | key k holds the last event with SKU k, or else the first with partner SKU k |
| StockCache.WantedMeans | integration/dsco_lingxing/task_sync_stock.go:183-227 | an event brings, for each wanted warehouse it lists, the quantity of the last entry, 0 where that has none, and nothing else |
| StockCache.HoldsLastSku | integration/dsco_lingxing/task_sync_stock.go:183-227 | a key that some event has as SKU holds what the last such event brings |
| StockCache.HoldsFirstPartner | integration/dsco_lingxing/task_sync_stock.go:183-227 | any other key holds what the first event with a SKU that names it as partner SKU brings, or is absent |
| StockCache.RedeliveryChangesNothing | golib/v2/sdk/dsco/inventory_stream.go:114-115 | delivering the last events once more leaves the cache as it was |
| StockCache.CacheTracksLog | golib/v2/sdk/dsco/inventory_stream.go:217-235 | over any history, the cache plus what is still to be redelivered equals the cache of the log itself |
| StockCache.CacheEqualsLog | integration/dsco_lingxing/task_sync_stock.go:183-239 | when the event handled last is the newest the reader has come across, the cache is what the log, each event once, fills |
| StockCache.CacheEqualsLogIff | integration/dsco_lingxing/task_sync_stock.go:183-239 | for given ids and a given history of batches the cache is the log's for all contents of the events iff that holds, or no warehouse is wanted |
| StockCache.PartialRedeliveryLosesAnUpdate | golib/v2/sdk/dsco/inventory_stream.go:218-235 | a batch ending in a blank id and redelivered in part can leave an older quantity |
| StockCache.IdsMeanExactlyOnce | golib/v2/sdk/dsco/inventory_stream.go:231-235 | with ids on all events everything up to the position is handled exactly once, in order |
| SkuMaps.HashedBytes | integration/dsco_lingxing/task_pull_sku_pair.go:428-447 | the bytes fed to the hash are the entries in sorted key order, for every iteration order |
| SkuMaps.LessMeans | integration/dsco_lingxing/task_pull_sku_pair.go:436 | that order is the lexicographic one |
| SkuMaps.HashIsOrderFree | integration/dsco_lingxing/task_pull_sku_pair.go:432-445 | the bytes are determined by the map alone |
| SkuMaps.HashTellsMapsApart | integration/dsco_lingxing/task_pull_sku_pair.go:438-445 | equal bytes iff equal maps, for keys without NUL and values without newline |
| SkuMaps.HashTellsNulFreeMapsApart | integration/dsco_lingxing/task_pull_sku_pair.go:438-445 | without NUL, which the configuration column cannot hold, equal bytes iff equal maps unless a key of one and a value of the other contain a newline |
| SkuMaps.NewlineCollision | integration/dsco_lingxing/task_pull_sku_pair.go:439-445 | otherwise a line moved from the second key to the end of the first value leaves the bytes the same |
| SkuMaps.NulFreeCollision | integration/dsco_lingxing/task_pull_sku_pair.go:439-445 | two such mappings, without NUL |
| SkuMaps.DiffStringMap | integration/dsco_lingxing/task_pull_sku_pair.go:449-471 | added, deleted and changed entries, for every iteration order |
| SkuMaps.ApplyDiff | integration/dsco_lingxing/task_pull_sku_pair.go:449-471 | applying the difference to the old map gives the new one, and the counts balance |
| SkuMaps.ReverseMapStrict | integration/dsco_lingxing/util.go:69-83 | for every map and iteration order: succeeds iff no trimmed entry is blank and no two trimmed keys share a value, with the inverse of the trimmed entries |
| SkuMaps.BuildReverseSKUMap | integration/dsco_lingxing/util.go:224-248 | succeeds iff no trimmed key or value is blank, keys that trim to one have one value and values that trim to one have one key; the result then leads from each trimmed value back to its trimmed key, and nowhere else |
| SkuMaps.InverseIsUnique | integration/dsco_lingxing/util.go:70-82 | the result does not depend on the iteration order |
| SkuPull.NotePair | integration/dsco_lingxing/task_pull_sku_pair.go:208-240 | one pair, its fields trimmed, with everything stored before the check that fails |
| SkuPull.PullStore | integration/dsco_lingxing/task_pull_sku_pair.go:187-246 | succeeds iff the pages lead up to a first short or empty one without a failed call, and then has noted every pair on them in order |
| SkuPull.PullStores | integration/dsco_lingxing/task_pull_sku_pair.go:180-247 | succeeds iff every store does, with everything listed noted in order |
| SkuPull.NoConflictIff | integration/dsco_lingxing/task_pull_sku_pair.go:208-261 | no conflict iff all listed pairs are valid and agree: one SKU per MSKU everywhere, one MSKU per SKU within a store; the maps then hold exactly the listed pairs |
| SkuPull.StoresAreBijections | integration/dsco_lingxing/task_pull_sku_pair.go:222-232 | without conflict each store's two maps are mutually inverse |
| SkuPull.NewMappingIsUnion | integration/dsco_lingxing/task_pull_sku_pair.go:234-238 | without conflict the new mapping is exactly the union of the stores' maps |
| SkuPull.NotInjectiveAcrossStores | integration/dsco_lingxing/task_pull_sku_pair.go:228-238 | two stores may map two MSKUs to one SKU without conflict |
| SkuPull.PulledReversibleIff | integration/dsco_lingxing/util.go:224-248 | a mapping pulled without conflict can be reversed iff no two listed pairs, over all stores, have one SKU and different MSKUs |
| SkuPull.PulledMappingReversibleIff | integration/dsco_lingxing/task_pull_sku_pair.go:180-261 | the same on the pairs as the stores list them, page by page, in a pull that finds no conflict |
| SkuPull.Finish | integration/dsco_lingxing/task_pull_sku_pair.go:249-333 | on conflict, concurrent change or failure the configuration is untouched; an update changes mapping.sku only, and happens iff the mapping is unchanged since the start (for maps the bytes tell apart) |
| SkuPull.PullSKUPair | integration/dsco_lingxing/task_pull_sku_pair.go:138-351 | a whole run touches only mapping.sku, and only when every store was read to a short or empty page and all listed pairs are well formed and agree; mapping.sku then leads from each listed MSKU, trimmed, to its SKU and holds nothing else; for maps the bytes tell apart it is updated exactly when nothing stands in the way and nobody changed the mapping meanwhile |
| DirCleanup.SortByAge | infra/fileutil/dir.go:77-82 | a permutation sorted by time, then path |
| DirCleanup.OrderIsUnique | infra/fileutil/dir.go:77-82 | that order is determined by the files |
| DirCleanup.CleanupDirByOldest | infra/fileutil/dir.go:39-98 | freed plus remaining is the initial total, deletion stops as soon as the rest fits, no file kept that could have been removed is older than one deleted, and the error is set iff a tried file could not be removed |
| DirCleanup.CountersMean | infra/fileutil/dir.go:84-96 | the running counters count exactly the files removed and the bytes left |
| DirCleanup.SomeStuckMeans | infra/fileutil/dir.go:88-92 | a failure is reported iff one of the files tried could not be removed |
| DirCleanup.FitsOrAllStuck | infra/fileutil/dir.go:84-97 | on exit the rest fits or every remaining file refused to be removed |
| DirCleanup.ShortestPrefix | infra/fileutil/dir.go:84-96 | without failures the deleted files are the shortest sufficient prefix, oldest first |
| Paging.ChunkStrings | integration/dsco_lingxing/util.go:110-126 | the chunks the lemma below describes, with 50 as the default size |
| Paging.ChunksCover | integration/dsco_lingxing/util.go:118-125 | chunks concatenate to the input, all but the last are full, none is empty |
| Paging.SendBatches | integration/dsco_lingxing/task_sync_stock.go:425-450 | batches go out in order up to the first failure, and all of them iff none fails |
| Paging.PullPages | integration/dsco_lingxing/task_sync_stock.go:272-308 | the page loop terminates and sees the whole list, or one page when pages are capped below the configured size |
| Paging.PagingCompleteIff | integration/dsco_lingxing/task_sync_stock.go:487-493 | every item is processed exactly once and in order iff a page can hold the configured size or the whole list |

## Left out

- Pull overwriting an existing row, admin edits and manual single-PO runs: meant to overwrite a status, so they are no steps of the pipeline; `PipelineTheorems.BlindWriteMovesBackIff` shows what a job's write does to a row changed that way.
- Session death while its run goes on: assumed not to happen; `AdvisoryLock.CutOffBreaksExclusion` shows the effect.
- A create request that takes effect after the run that sent it has ended: taken not to occur in the pipeline. A create reply that lists neither successes nor errors, which the code takes for a success, is taken to mean that LingXing holds the order.
- A local UPDATE whose caller gives up is taken not to land after its run has ended; landing later it could lower a status that has risen meanwhile.
- Orders entered in LingXing by hand: a query finds only orders that this system created.
- The outcome of an acknowledgement that DSCO rejects later: the code does not ask for it, and the model has no step for it.
- Outbound orders that are withdrawn or cancelled: the warehouse's list of an order is taken only to grow, although the code does not filter cancelled ones; `PipelineEvidence.WithdrawnOutboundUndoesEvidence` shows what rests on it.
- The SKU mapping and its reverse are fixed during a run of the pipeline model; a change between shipping and invoicing could change the gate.
- The window between the mapping hash comparison and the configuration write, which is not atomic in the code.
- The hash function itself: `SkuMaps` compares the hashed bytes.
- Which steps a run must take: a run may drop an order or end at any time, so the pipeline results are about safety, not about progress.
- The list pages of 50 and 200 entries that LingXing is asked for: a reply may be part of the current outbound list, and an incomplete existence check is an explicit case.
- `dscoItemId`, line numbers, carrier, ship and invoice dates, currency, product codes, logging, metrics and exported files: copied through or written for people.
- The order of lines, shipments and changed entries inside a request or report, where the code follows map order or sorts for display: modelled as maps.
- Sorting the file list in place: `DirCleanup` sorts a sequence.
- Floating point: amounts are exact reals and rounding to cents is modelled on them; overflow of summed quantities and sizes is not modelled.
- Bytes and invalid UTF-8: strings are sequences of characters, `strings.ToLower` acts on ASCII, and `url.PathUnescape` decodes to single characters.
- Event ids, maxPosition and change-log ids, which the code trims on first use, arrive trimmed in the stream and change-log models.
- HTTP, JSON, SQL, GORM, configuration validation, token refresh and encryption.
- The comparison rows and statuses `SyncStock` records, the target building of `syncStockByOverride`, and `CheckOrders`: they would add easy members only.
