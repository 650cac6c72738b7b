# Pickup-point orders: a verified model

This project models a pickup-point order service with a transactional outbox and proves what its
transactions, its message pipeline and its cache guarantee.

* A courier hands in an order; it is packed, priced and stored. The recipient takes it (or finds its
  storage time over) and may bring it back. The courier takes expired orders away.
* Each of these requests is one database transaction that reads one order row, decides, writes the
  row, appends a history record and inserts an outbox task. After the commit the new row is written
  to a cache.
* A poller moves the oldest `created` tasks to `processing`, a hundred at a time, and puts the batch on
  a bounded channel. A producer sends every task of a batch to the broker and then deletes its row, or
  marks it failed if the send failed.

## How it is built

| module | what it holds |
|---|---|
| `Domain`, `Tables`, `Transactions` | the order entity, the tables as values, the four transactions as a decision on one row and an effect on the tables |
| `Lifecycle` | what a stored order and its history look like, and that each transition keeps it |
| `Interleaving`, `Serializability`, `OrderGuarantees` | any number of concurrent requests as a state machine, its invariant, and what follows for every run |
| `Pipeline`, `Delivery` | the outbox pipeline as a state machine with failures at every call, its invariant, and what follows for every run |
| `EndToEnd` | both machines run together |
| `Behaviour` | a reference for what each request writes, reports and answers, in literal values and without the model's own functions |
| `Requests`, `Service` | one request at a time: the specification as functions, and the service, repository, outbox and cache in imperative form proved against it |
| `Producer`, `Polling`, `Outcomes` | the producer and poller loops in imperative form, proved runs of the pipeline machine while others act too, and what a batch comes to |
| `Runs`, `Sequential`, `ServiceRuns` | any sequence of requests to the imperative service, with any failures, is a run of the interleaved machine |
| `Batches`, `CacheRefinement` | what success and failure of a batch mean, and when the cache is invisible |
| `Races` | the cache while requests overlap: exactly which steps break its agreement with the table, and a discipline under which it settles |
| `ReadSide`, `HistoryGuarantees` | listing, paging, grouping, refunds and the history view |

One decision function (`Transactions.Decide`) and one effect function (`Transactions.Apply`) serve all
layers: the imperative callbacks are proved to do what they say, the interleaved machine computes with
them on snapshots, and the one-at-a-time replay runs them on the current tables.

## What is trusted

* The commit rule of the database: a repeatable-read transaction commits only if the row it writes is
  the version its snapshot saw (first updater wins, section 13.2.2 of the PostgreSQL documentation), and
  a sequence never hands out a value twice.
* The LockPending statement takes effect as a whole or not at all.
* The clock does not go back. Where ordering by timestamp has to be unique, readings never repeat
  (`strict`); every other result holds with repeated readings.

Clock readings, failing calls, lost replies and the interleaving are inputs, so the lemmas speak of all
of them. The interleaved model starts from empty tables.

## Where the code differs from what it says

* A refund is described as limited in time, but the delivery date is compared with itself plus two days
  (internal/domain/order/order.go:61-63). There is no time limit: `OrderGuarantees.GoesThrough` states
  exactly when each transaction goes through, and `Domain.Order.CanBeRefunded` states the predicate.
* A return to the courier looks only at the expiration date, so delivered and refunded orders are
  removed too once it has passed (internal/service/order/service.go:214-230). It writes no history record
  and no task.
* A cache hit does not look at the recipient (internal/service/order/service.go:68-73):
  `CacheRefinement.HitIgnoresRecipient` states exactly when a hit differs from the table.
* A picked task carries only its id, status and creation time
  (internal/infra/order_outbox/outbox.go:108-111), so the messages carry neither the order's status nor
  its description: `Service.Message` has only those fields.
* The poller returns on the first error, and nothing moves a `processing` row back to `created`: delivery
  is at most once. `Delivery.StrandedWhen` states exactly which runs leave a task undelivered for good,
  `Delivery.StrandedReachable` gives one, and `Delivery.ErrorsStopDelivery` is about the poller.
* Overlapping requests on one order can leave a wrong entry in the cache although every cache write
  succeeds (`Races.StaleEntryReachable`). `Races.AgreesThroughout` states exactly when the cache agrees with
  the table all along, and `Races.OverlapHarmless` when overlap does no lasting harm.

## Model

| member | source | states |
|---|---|---|
| OrderGuarantees.Serializable | internal/service/order/service.go:164-458 | over every interleaving of accept, deliver, refund and return, with aborts, lost replies and crashes, the committed orders, records and task inserts equal those of the committed transactions run one at a time in commit order with the same readings and ids |
| Serializability.EffectIsCurrent | internal/infra/tx_manager/tx_manager.go:35-69 | an effect computed on an old snapshot is the effect on the tables at commit time, because a transaction reads only the row it writes |
| Serializability.CommitKeeps | internal/infra/tx_manager/tx_manager.go:51-69 | a commit keeps every invariant of orders, histories, tasks, snapshots, drawn ids and cached values |
| Serializability.LocalKeeps | internal/service/order/service.go:56-98 | so does every other step: begin, clock reading, id allocation, compute, cache write, query, abandonment |
| Serializability.Reachable | internal/service/order/service.go:120-458 | the invariant holds after every run |
| OrderGuarantees.OneWinner | internal/infra/tx_manager/tx_manager.go:35-41 | of two requests that have computed a change of the same order, the commit of one makes the other's commit impossible |
| OrderGuarantees.LifecycleSafety | internal/service/order/service.go:316-458 | every order ever accepted went through received; received, delivered; received, storage_ended; or received, delivered, refunded, and its status is the last of them, so nothing happens twice |
| OrderGuarantees.FieldInvariants | internal/domain/order/order.go:57-89 | delivered and refunded dates are set exactly in their statuses and in order, the returned date never, an expiry record is later than the expiration date, and recipient, expiration, weight and worth are those of every earlier version |
| OrderGuarantees.AcceptedAsGiven | internal/domain/order/order.go:29-38 | over every run, the first version of an accepted order, and its parcel as long as it is stored, is the recipient, expiration date and weight handed in and the worth with its packaging |
| OrderGuarantees.NoNilDate | internal/domain/order/order.go:57-65 | no reachable snapshot makes CanBeRefunded dereference a nil delivered date |
| OrderGuarantees.OneTaskPerTransition | internal/service/order/service.go:188-199 | records and tasks ever committed correspond one to one with equal status, description (the text of that status) and timestamp, one pair per committed accept, deliver or refund in commit order, none for a return |
| OrderGuarantees.RemovalOnlyAfterExpiry | internal/service/order/service.go:214-230 | an order that is gone was removed by a committed return whose clock reading was after its expiration date, and its records went with it |
| OrderGuarantees.NeverReappears | internal/infra/migrations/20251126064130_init_order_table.sql:6 | a removed order's id never comes back, over any continuation of any run |
| OrderGuarantees.CacheSoundness | internal/infra/repository/order/order_cache.go:34-60 | every cached value is a committed version of that order's row, whatever overlaps and whichever cache writes fail |
| Lifecycle.TransitionKeepsOrder | internal/domain/order/order.go:67-89 | a transition extends a well-formed history by one status of the lifecycle and keeps the dates in order |
| OrderGuarantees.GoesThrough | internal/service/order/service.go:164-458 | in every reachable state, exactly when each of the four transactions goes through: a refund at any time, a return whatever the status |
| Tables.HistoryOfWithout | internal/infra/migrations/20251126064130_init_order_table.sql:19 | the cascade erases exactly the history of the deleted order |
| Pipeline.Reachable | internal/infra/order_outbox/outbox.go:21-165 | every run of the pipeline, with any number of pollers and producers, failures at every call and crashes anywhere (inside SendMessage too), keeps its invariant |
| Delivery.AtMostOneSend | internal/infra/order_outbox/outbox.go:94-121 | picked batches are pairwise disjoint for all time and no task is passed to SendMessage twice, calls cut off by a crash included |
| Delivery.NoSilentLoss | internal/service/order_audit/producer.go:50-104 | every committed task is a created, processing or failed row or was removed after an acknowledged send; a failed row had an error and no acknowledgement; a send without an answer, and what is unsent in memory, is a processing row |
| Delivery.UnansweredWhere | internal/service/order_audit/producer.go:74 | a send without an answer is under way, or its task is stranded and never sent again |
| Delivery.ReleasedAlong | internal/infra/order_outbox/outbox.go:94-165 | a row past `created` that nobody holds is final: no continuation of any run changes it or sends its task |
| Delivery.StrandedForever | internal/infra/order_outbox/outbox.go:104-107 | a processing row that nobody holds stays so for ever and is never sent later |
| Delivery.StrandsExactly | internal/service/order_audit/producer.go:60-100 | exactly which steps strand a task: a lost answer of a pick, a crash, a task that cannot be marshalled, a failing row change after the send |
| Delivery.StrandedWhen | internal/infra/order_outbox/outbox.go:35-53 | after every run, a task is stranded if and only if the run took such a step |
| Delivery.StrandedReachable | internal/infra/order_outbox/outbox.go:114-118 | a lost answer of LockPending strands a task that was never sent |
| Delivery.ErrorsStopDelivery | internal/infra/order_outbox/outbox.go:37-49 | once every poller has returned on an error, nothing is picked until a restart and created tasks stay created |
| Delivery.MemoryBound | cmd/server/main.go:74-97 | tasks held in memory are at most a hundred for each poller, channel place and producer; at most 700 with the wiring of main |
| Delivery.PickShortensQueue | internal/infra/order_outbox/outbox.go:97-107 | a pick that passes over a created task takes exactly a hundred of those at or before it |
| Delivery.BoundedWait | internal/infra/order_outbox/outbox.go:97-107 | a created task with r created tasks at or before its time is picked by the (r / 100 + 1)-th pick at the latest, whatever later tasks are added, in every run |
| Delivery.Drain | internal/infra/order_outbox/outbox.go:97-107 | with nothing added, n created tasks are all picked if and only if a hundred times the number of picks reaches n |
| Delivery.PickSize | internal/infra/order_outbox/outbox.go:99-101 | a pick takes a hundred created rows, or all of them if there are fewer |
| EndToEnd.Reachable | internal/service/order/service.go:425-430 | orders and pipeline run together: the pipeline's rows are the committed tasks up to their delivery status |
| EndToEnd.CommitNeverBlocked | internal/infra/order_outbox/outbox.go:58-92 | whenever the order service can take a step, the pipeline accepts the task it inserts |
| EndToEnd.EveryTransitionAccounted | internal/service/order_audit/producer.go:52-100 | every committed transition of every order is still a row that mirrors its history record or was acknowledged; it is sent at most once; every send belongs to a committed transition; an unanswered one is still a row |
| EndToEnd.OrdersProject | internal/service/order/service.go:120-458 | the order part of every run of the whole system is a run of the order machine |
| EndToEnd.PipeProjects | internal/infra/order_outbox/outbox.go:21-165 | its outbox part, committed inserts included, is a run of the pipeline machine |
| EndToEnd.WholeSystem | cmd/server/main.go:64-97 | so serializability, the order lives and the memory bound hold of the whole system |
| EndToEnd.WaitWhileServing | internal/infra/order_outbox/outbox.go:97-107 | and so does the bounded wait, while requests go on committing |
| Requests.AllOrNothing | internal/infra/tx_manager/tx_manager.go:51-69 | the transaction has its whole effect exactly when it decides to write, no call it reaches fails and the commit is not refused; otherwise the tables are as they were and an error is reported |
| Requests.RunTxAhead | internal/infra/repository/order/order_repo.go:26-49 | every key in the tables was drawn from its sequence, so a drawn key is fresh |
| Behaviour.WhichError | internal/service/order/service.go:120-458 | which error every request reports, in the order in which the code finds it |
| Behaviour.EachDoes | internal/service/order/service.go:120-458 | every request that takes effect writes exactly this row, record, task and cache entry, in literal values, and draws exactly these ids; any other leaves tables and cache as they were |
| Behaviour.TransactionDoes | internal/service/order/service.go:164-458 | the same for the tables of the transaction alone, at every failing call |
| Service.PvzService.BeginFunc | internal/infra/tx_manager/tx_manager.go:51-78 | begin, callback, commit or rollback on the real connection state is the all-or-nothing specification |
| Service.PvzService.ProcessOrderReceive | internal/service/order/service.go:164-201 | the callback's statements in program order do to the open transaction what the decision says, and leave the committed tables alone; on success the order is placed as handed in, with its record and task |
| Service.PvzService.ProcessOrderRefund | internal/service/order/service.go:316-350 | the same for a refund |
| Service.PvzService.ProcessOrderDeliver | internal/service/order/service.go:394-458 | the same for a delivery, in both of its branches |
| Service.PvzService.ProcessOrderReturn | internal/service/order/service.go:214-230 | the same for the callback of a return |
| Service.PvzService.AcceptFromCourier | internal/service/order/service.go:120-162 | the error; if it took effect the row as handed in with packaging charged, the record and the task, under fresh ids, and nothing else; the cache entry; the id is reported exactly on success |
| Service.PvzService.ReturnToCourier | internal/service/order/service.go:203-241 | the error; if it took effect the order and its records are gone and nothing else; the cache entry |
| Service.PvzService.DeliverOrders | internal/service/order/service.go:352-392 | the loop is the fold of single requests that stops at the first error |
| Service.PvzService.RefundOrders | internal/service/order/service.go:274-314 | the same for refunds |
| Service.PvzService.ServeRecipient | internal/service/order/service.go:243-272 | deliver and refund reach their loops, any other action changes nothing and is an error |
| Service.PvzService.GetOrderByID | internal/service/order/service.go:56-98 | a hit answers with the cached value; otherwise the stored row exactly if the table can be read and the order is the caller's, and only then is the cache filled; a failing cache write does not fail the query |
| Service.OrderRepo.Add | internal/infra/repository/order/order_repo.go:26-49 | the new row, its id and what the insert leaves null |
| Service.OrderRepo.AddHistoryRecord | internal/infra/repository/order/order_repo.go:51-74 | one record is appended; if the order is not there, none, but a sequence value is gone |
| Service.OrderRepo.Delete | internal/infra/repository/order/order_repo.go:76-85 | order and records go together; a missing row is an error |
| Service.OrderRepo.Update | internal/infra/repository/order/order_repo.go:87-121 | the row becomes the object's fields; a missing row is an error |
| Service.OrderRepo.GetByID | internal/infra/repository/order/order_repo.go:235-245 | a fresh object that holds the stored row |
| Service.OrderRepo.GetRecipientOrderByID | internal/infra/repository/order/order_repo.go:223-233 | the same, only for the order's recipient |
| Service.OrderOutbox.AddTask | internal/infra/order_outbox/outbox.go:58-92 | one created task under a fresh id |
| Service.PickOldest | internal/infra/order_outbox/outbox.go:97-103 | at most a hundred created rows, none left out that is older, all of them if there are fewer |
| Service.OrderOutbox.LockPending | internal/infra/order_outbox/outbox.go:94-121 | such a set, a hundred rows if there are as many, becomes processing, and each is returned with its id, status and creation time, unless the statement fails; its answer may be lost |
| Service.OrderOutbox.MarkTaskAsFailed | internal/infra/order_outbox/outbox.go:123-139 | exactly that row becomes failed |
| Service.OrderOutbox.DeleteTask | internal/infra/order_outbox/outbox.go:153-165 | exactly that row is removed |
| Service.Cache.SetOrder | internal/infra/repository/order/order_cache.go:48-55 | that entry is written, or nothing; an error can come in both cases |
| Service.Cache.DeleteOrder | internal/infra/repository/order/order_cache.go:57-60 | that entry is removed, or nothing; an error can come in both cases |
| Domain.Order.New | internal/domain/order/order.go:29-38 | a new order without dates, history or status |
| Domain.Order.FromRow | internal/infra/repository/order/struct.go:22-42 | the object holds exactly the columns of the row |
| Domain.Order.CanBeRefunded | internal/domain/order/order.go:57-65 | true exactly for delivered orders, whatever the date |
| Domain.Order.Deliver | internal/domain/order/order.go:73-77 | status and delivered date change and nothing else |
| Domain.Order.Refund | internal/domain/order/order.go:67-71 | status and refunded date change and nothing else |
| Domain.Order.ApplyPackaging | internal/domain/order/order.go:91-104 | worth changes on success and nothing on failure |
| Producer.AuditProducer.Handle | internal/service/order_audit/producer.go:52-100 | what one task does to the table and to what was sent, in each of its five fates |
| Producer.AuditProducer.Work | internal/service/order_audit/producer.go:50-104 | working off a batch, with requests, pollers and other producers acting before each task, is a run of the pipeline protocol |
| Producer.AuditProducer.Take | internal/service/order_audit/producer.go:29-42 | so is one turn of the loop: others act, a batch is taken off the channel and worked off |
| Producer.AuditProducer.Run | internal/service/order_audit/producer.go:25-48 | so is any number of turns; no error ends the loop |
| Outcomes.BatchComesTo | internal/service/order_audit/producer.go:50-104 | what a batch comes to task by task, whatever others do meanwhile: acknowledged and deleted is gone, refused and marked is failed, everything else stays processing; exactly the marshalled tasks are sent; and it is final |
| Polling.Poller.Poll | internal/infra/order_outbox/outbox.go:35-53 | one tick, from whatever state the others have left: a failing LockPending changes nothing and ends the loop; otherwise the oldest created rows are processing and their batch is on the channel, or waits for room, or is lost with the answer, which ends the loop |
| Polling.Poller.Resume | internal/infra/order_outbox/outbox.go:53 | a batch that waited for room is enqueued once there is some |
| Polling.Poller.Run | internal/infra/order_outbox/outbox.go:21-56 | any number of ticks without others in between are a run of the protocol; every tick taken picks unless LockPending fails, so the created rows go down by a hundred each; each puts a batch on the channel but a last one that stopped or waits; the loop ends with the ticks, at the first error, or at a full channel |
| Sequential.ServedAlone | internal/service/order/service.go:120-458 | from any state of the interleaved machine, a request served alone, whatever it is told and whichever call fails, is a run of the machine that does what the specification of the imperative code says |
| ServiceRuns.BatchRuns | internal/service/order/service.go:274-392 | so is a batch, up to the request it stops at |
| ServiceRuns.ServiceIsRun | internal/service/order/service.go:56-392 | so is any sequence of accepts, returns, batches and queries from empty tables |
| ServiceRuns.ServiceKeepsLifecycle | internal/service/order/service.go:316-458 | so whatever the imperative service was asked and whatever failed, every stored order has lived one of the four lives with its dates in order |
| ServiceRuns.FetchIsQuery | internal/infra/repository/order/order_repo.go:223-233 | a table look-up of the interleaved machine answers what the service's query answers |
| Sequential.Assembles | internal/service/order/service.go:394-458 | readings and ids taken one by one in program order give the decision of the request |
| Batches.OneRequest | internal/service/order/service.go:364-389 | exactly when a request of a batch changes the tables, and exactly which error it reports |
| Batches.BatchSucceedsWhen | internal/service/order/service.go:352-392 | a batch returns nil if and only if its ids are distinct, every order was eligible for that recipient at the start, and nothing failed |
| Batches.BatchSuccess | internal/service/order/service.go:274-314 | then each listed order is delivered, storage_ended or refunded as its check says, and every other order is unchanged |
| Batches.BatchLogs | internal/service/order/service.go:410-455 | and exactly one record and one task were written for each id |
| Batches.BatchFolds | internal/service/order/service.go:352-392 | and tables and sequences are the fold of the single transitions |
| Batches.BatchStops | internal/service/order/service.go:380-387 | a batch with an error served the ids before the failing one, and the error is that request's |
| Batches.BatchFailure | internal/service/order/service.go:286-313 | then the tables are the fold over the ids before the failing one, and over that one too exactly when the error came after its commit |
| CacheRefinement.WhenStale | internal/service/order/service.go:384-387 | a request makes an agreeing cache disagree if and only if it decides to write, no call it reaches fails, the commit is not refused, the commit reply is lost or the cache write not applied, and the order was cached |
| CacheRefinement.CacheIsInvisible | internal/service/order/service.go:56-241 | over any sequence of requests that do not overlap, answers and tables equal those of a service without a cache, and the cache agrees with the table |
| CacheRefinement.MissIsTable | internal/service/order/service.go:82-97 | a query that misses the cache answers like the table, whoever asks |
| CacheRefinement.HitIgnoresRecipient | internal/service/order/service.go:68-73 | a hit answers like the table if and only if the table can be read and the caller owns the order |
| Races.AgreesExactly | internal/service/order/service.go:306-388 | while any requests are under way, a step keeps the cache in agreement with the table if and only if it is not a commit of a cached order and not a write of a row that is no longer current |
| Races.AgreesThroughout | internal/service/order/service.go:82-97 | over every run, the cache agrees all along if and only if every step is such a step |
| Races.OverlapHarmless | internal/service/order/service.go:286-311 | if no row is changed while another request is going to write its entry, no commit of a cached order loses its reply and none stops before its cache write, then every entry is current or its correction is on the way |
| Races.LateWriteSpoils | internal/service/order/service.go:82-97 | a row changed while another request is going to write its entry leaves that entry wrong |
| Races.StaleEntryReachable | internal/service/order/service.go:82-97 | from every reachable state with an order, two overlapping requests that both succeed can leave the removed order cached |
| ReadSide.Group | internal/infra/repository/order/order_repo.go:140-144 | the single pass gives every order exactly its subsequence of the sorted records |
| ReadSide.GetAll | internal/infra/repository/order/order_repo.go:123-155 | unless one of the two queries fails: every stored order at its place in the order of ids, with its own row and its own records in time order |
| ReadSide.GetList | internal/infra/repository/order/order_repo.go:157-198 | as many orders as the page has room for and the table has left, the i-th with exactly offset + i smaller ids, each with its own row and its own records in time order; an error exactly for a negative limit or offset or a failing query |
| ReadSide.RankInSorted | internal/infra/repository/order/order_repo.go:160-166 | the place of an order in the listing is the number of stored orders with a smaller id |
| ReadSide.GetAllRefunds | internal/service/order/service.go:460-486 | exactly the refunded orders whose place is on the page, in the order of ids, with their own rows and records, or the error of the page |
| ReadSide.PageRefunds | internal/service/order/service.go:477-485 | filtering a page gives exactly its refunded orders, none lost or doubled |
| ReadSide.PermutedHistory | internal/infra/repository/order/order_repo.go:131-144 | the answer of the record query gives each order the same records in whatever order it comes |
| ReadSide.ListingIsHistory | internal/infra/repository/order/order_repo.go:131-144 | without equal timestamps, sorting by timestamp gives the insertion order |
| ReadSide.PagesTile | internal/infra/repository/order/order_repo.go:157-198 | consecutive pages of any positive size concatenate to GetAll, histories included, up to records of one order with equal timestamps |
| ReadSide.RefundPagesTile | internal/service/order/service.go:472-485 | consecutive refund pages concatenate to the refunded orders of GetAll, in order |
| ReadSide.SortNewestFirst | internal/service/order/service.go:505-516 | the in-place sort leaves a permutation in nonincreasing order of last-record time |
| ReadSide.GetHistory | internal/service/order/service.go:488-519 | a permutation of the page, each order with its own records in time order, the later last record first and orders without records last, or the error of the page |
| ReadSide.LastStampIsCurrent | internal/service/order/service.go:505-516 | the sort key is the latest of the order's records and belongs to its current status |
| HistoryGuarantees.SortKeyIsLastTransition | internal/service/order/service.go:505-516 | in every reachable state with a strict clock it is the time of the committed transition into the current status |
| HistoryGuarantees.ReachableHistory | internal/service/order/service.go:488-519 | in every reachable state with a strict clock, what GetHistory answers is listed by the times of the last committed transitions, the latest first, each order with exactly the history ever committed for it |
| HistoryGuarantees.ReachablePagesTile | internal/infra/repository/order/order_repo.go:157-198 | in every reachable state the pages tile the list and the refund pages its refunds |

## Left out

- CacheRefinement.CacheIsInvisible: assumes requests that do not overlap, callers that own the order they ask for, a readable table, and that the replies of the commit and of the cache write after it arrive; `WhenStale`, `HitIgnoresRecipient` and the lemmas of `Races` state what happens otherwise.
- ServiceRuns.ServiceIsRun: is about requests one after the other; that overlapping requests of the imperative code are threads of the interleaved machine is how that machine is built, not a theorem.
- Producer.AuditProducer.Run: others act between tasks and between batches, not between the calls for one task; the `Pipeline` machine has them there too. Closing the channel and cancelling the context are not modelled, and a crash ends the run at any of its steps.
- Polling.Poller.Run: others do not act between its ticks, because which of several rows with the same time a tick picks is open; `Poll` states one tick from any state.
- ReadSide.GetHistory: stability of the sort is not claimed, and the sort is an insertion sort with the source's comparator.
- ReadSide.PagesTile: is about an unchanging table; `GetList` itself allows a commit between its two queries.
- Delivery.NoSilentLoss: counts calls of SendMessage; duplicates made inside the broker client are not modelled.
- Service.OrderOutbox.LockPending: row locks held by an uncommitted pick (SKIP LOCKED) are covered only by taking the statement as atomic.
- HTTP and gRPC handlers, request parsing, configuration, logging, tracing and metrics: they do not touch the state.
- SQL text, the database driver, Redis and Kafka: each statement is its effect on the tables, each remote call succeeds or fails; JSON encoding of an order is the identity on its fields.
- Lock waits and deadlocks: a transaction that waits or is chosen as a victim is one that commits later or is abandoned.
- Time zones and the precision of stored timestamps: times are natural numbers of nanoseconds.
- Floating point: weights and worths are reals.
- Widths of integers: ids are natural numbers, so a negative id, which names no row, cannot be asked for.
- The literal texts of statuses, descriptions and packaging types: named constructors stand for them.
- Aliasing of a returned order object with the one that was cached: objects are cached by value.
- Cancellation of a request's context: covered only as a failure of the next call.
- SeedOrders: writes delivered orders with only a received record, outside the service's state machine.
- GetByIDs, GetOrdersByIDs, GetOrders, DeleteTasks and RunSerializable: plain reads, a wrapper, and code nothing in the pipeline calls.
- The Kafka consumer: it only logs.
