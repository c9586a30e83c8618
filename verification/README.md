# Avatar pipeline: a verified model

The service accepts avatar uploads over an API, keeps one row per user in a database and the
pictures in an object store, and hands each upload to a worker through a message broker with a
retry ladder. This project models that pipeline as one step machine, proves what holds in all of
its runs, and proves the imperative code of the service, as classes and methods, against the
machine. Four smaller pieces of the service with exact laws of their own stand beside it: the
upload rate limiter, the circuit breaker, the resize arithmetic and the two storage back ends.

`dafny verify dfyconfig.toml` checks everything (Dafny 4.11).

## How it is put together

**The machine** (`Pipeline.dfy`). The state has the rows, the processed ids, the objects, the four
queues, what each worker and each API request is about to do, and a clock. An action is one call of
one actor (an upload or delete request, a worker, the broker) to the database, the object store or
the broker. It carries its outcome: `ok == false` is a call that fails and has no effect. A worker
may crash, and a request be abandoned, between any two calls. Actions of all actors interleave
freely. An action that is not enabled changes nothing, so a run is any sequence of actions, and "in
every run" below is a quantifier over all of them. `History` records what happened (what was
published, settled, removed, lost); no step reads it, except that message ids are issued once.

**The broker.** Publishing follows direct-exchange routing (AMQP 0-9-1, section 3.1.3.1), over the
bindings that `Declare` makes; an unacknowledged delivery comes back, body and headers unchanged,
when its worker is gone (section 3.1.8). Time to live, dead-lettering and `nack` are RabbitMQ's
extensions. Queues are durable, a publish that returns no error has enqueued its message, and
prefetch is one. A requeued delivery may land anywhere in its queue, and a worker may be handed any
message of it, so no theorem but the end-to-end one relies on queue order. Messages expire at the
head of a retry queue. A failed ack or nack leaves the delivery unacknowledged, and the worker
without work, until its connection ends (`Hung`).

**What the theorems are about.**
- Conservation and loss (`Conservation.dfy`), any number of workers: copies in queues and in hand
  plus settled deliveries equal the accepted publishes plus the duplications.
- The retry ladder (`Topology.dfy`, `Ladder.dfy`, `Termination.dfy`): where each count leads, what
  the counter means, the time between attempts, and a weight by which runs from any state end.
- Ownership (`Keys.dfy`, `Ownership.dfy`): the object names tell users apart, so users are isolated,
  and the shapes a row can have.
- No torn avatar (`Torn.dfy`), one worker: what a ready row shows is one upload, whole.
- Publish comes last (`SourceKeeping.dfy`), handler runs are counted (`Idempotency.dfy`), and without
  faults everybody ends up with the last picture published (`EndToEnd.dfy`).
- Whose picture that is (`Newest.dfy`). "The newest upload wins" is not true of this service: `Handle`
  never compares the id of its message with the row. A ready row shows the upload that it names if and
  only if the last mark-ready that took effect on it was for that message, which a comparison just
  before that call would tell. A retry can break this, but it takes none: overlapping uploads that reach
  the database in one order and the broker in the other do it without any fault.
- When a ready avatar stays ready (`Readiness.dfy`), one worker: worker and broker can make it not
  ready if and only if a copy of a message of its user, with an id not marked as processed, is still
  in processing, in a retry queue or in hand.
- Where the guarantees end (`Limits.dfy`): for each claim above that is not true as it stands, a
  concrete run that breaks it. A ready avatar can turn failed, two workers or more can tear an avatar
  (and no service of one worker ever does), a half-done delete leaves half an avatar, and both a retry
  and an overlap of uploads can show the older of two pictures.

**The imperative code.** `World.dfy` has the object store, the channel and the deployment that holds
them. `WorkerService.dfy`, `QueueConsumer.dfy` and `Api.dfy` are the service's methods over these objects
and the database of `Storage.dfy`; `HandlerAccount.dfy` says what a handler run comes to. `World.Valid`
says that the objects hold exactly what some run of the machine says. Every method keeps it, extends the
run, and ends at the point of the machine it promises. Before each call the method lets all other actors
do anything (`Interfere`, whose contract admits any actions but the caller's own). So each theorem about
runs holds of the code at every moment, under interference. What a method does not owe to the run alone it
says itself: a failure on record is one that happened, a request is not silently given up, and, where
nobody interferes, which rows, objects and queues it leaves, for every outcome of its calls. The consumer
loop is proved to terminate from any backlog, if there are only finitely many disturbances: failing calls,
and bursts of any length of uploads, deletes and broker actions.

**Evidence for one worker.** `deploy/helm/avatars/values.yaml:45` deploys a single replica. The
theorems that need it take `Init(1)`; for tearing, `Limits.UntornIffOneWorker` shows that it is needed.

## Model

| member | source | states |
|---|---|---|
| Conservation.MessagesAreConserved | internal/queue/consumer.go:62-102 | with any number of workers and any faults: live copies of an id plus its settled deliveries equal its accepted publishes plus the crashes and lost acks between a retry publish and its ack; what is settled is marked |
| Conservation.BacklogIsConserved | internal/queue/consumer.go:41-102 | the same law from any state on, for whatever the queues held there |
| Conservation.NoMessageIsLost | internal/queue/consumer.go:62-102 | in every reachable state an accepted message is marked as processed, or a copy of it is in one of the four queues or unacknowledged |
| Conservation.CopiesAreBounded | internal/queue/consumer.go:88-96 | an accepted message has one copy plus its duplications; without any of those it is in exactly one place |
| Conservation.UnreadablesAreKept | internal/queue/consumer.go:67-71 | messages that do not parse are neither lost nor copied, over any run |
| Conservation.IdsAreFresh | internal/handler/handler.go:151 | no two uploads in flight share an id, none of them was published before, and only bytes of an issued id are staged |
| Ladder.LadderInvariant | internal/queue/retry.go:13-53 | in every reachable state retry.30s holds count 1 and retry.2m count 2, a copy's counter equals the counted failures of its lineage, and dead-letter copies of parsed messages have three and no header |
| Ladder.BackoffInTime | internal/queue/topology.go:27-43 | a message enters the dead-letter queue at least 150 s after its first counted failure, with at least 30 s and then at least 120 s between its failures |
| Ladder.DueInTime | internal/queue/topology.go:27-43 | the head of a retry queue can come back as soon as, and not before, 30 s or 2 min have passed |
| Ladder.LineagesAreShort | internal/queue/retry.go:13-53 | over any backlog, with any integer in its headers, each lineage has at most three counted failures, and at most two while it can still be handled |
| Termination.ProgressIsBounded | internal/queue/consumer.go:41-102 | from any state, with any headers and any number of workers, the calls and expiries that go through in a run are bounded by the state's weight plus 41 for each fault and each arrival |
| Termination.SomethingToDo | internal/queue/consumer.go:49-59 | unless everything is drained, a worker or an expiry can lower the weight, after a wait at most |
| Termination.CanDrain | internal/queue/consumer.go:49-59 | every state without hung acknowledgements has a fault-free continuation that drains it |
| Termination.DrainedMessagesAreDecided | internal/queue/consumer.go:88-101 | once drained, every accepted message is marked as processed or lies in the dead-letter queue |
| Termination.BacklogIsDecided | internal/queue/consumer.go:88-101 | the same for every parsed message of a backlog the service was started over |
| Termination.DrainedUnreadablesAreDead | internal/queue/consumer.go:67-71 | once drained, all of them lie in the dead-letter queue, and nothing else of the kind |
| Torn.NeverTorn | internal/worker/service.go:41-71 | the invariant of one worker: how far the handler got is what the objects hold, and the row is not ready until it is through |
| Torn.ReadyAvatarsAreWhole | internal/worker/service.go:41-71 | with one worker a ready row shows one upload of that user, the one made ready last: its size and dimensions are that picture's, and each of its two keys holds that picture's object, or nothing if and only if a DELETE removed the object after it was last put |
| SourceKeeping.SourcesAreKept | internal/handler/handler.go:166-196 | with any workers and faults, the source of an accepted or about to be published message that was never made ready is in the store if and only if no DELETE removed that object |
| SourceKeeping.AcceptedSourceIsThere | internal/handler/handler.go:166-196 | the source of an accepted message that was never made ready is there if and only if no DELETE removed that very object, and then with the bytes that were uploaded |
| SourceKeeping.FirstDownloadFindsTheSource | internal/worker/service.go:45-55 | a first success is never blocked by a missing source: a working download lets the handler go on exactly when the uploaded bytes are a picture |
| Idempotency.SuccessesAreAccountedFor | internal/queue/consumer.go:88-101 | with any number of workers, handler successes of an id equal its marks plus its lost marks plus those at the mark now |
| Idempotency.SuccessesAreBounded | internal/queue/consumer.go:79-101 | at most one success per worker more than marks were lost: with one worker, once more |
| Idempotency.MarksAreBounded | internal/queue/consumer.go:79-101 | no id is marked more often than there are workers; those still handling it count with its marks |
| Idempotency.IdsAreMarkedOnce | internal/queue/consumer.go:79-101 | with one worker no marked id is being handled, and each id is marked at most once |
| Idempotency.ProcessedGrows | internal/storage/mem.go:107-119 | the set of processed ids only grows, from any state |
| Idempotency.MarkedIdsAreSettled | internal/queue/consumer.go:79-87 | with one worker a marked id has exactly one success more than lost marks |
| Idempotency.MarkedIdsStayHandled | internal/queue/consumer.go:79-87 | with one worker, whatever deliveries of a marked id still come, the handler is never in progress for it and gains no success |
| EndToEnd.BenignRunsAreCalm | internal/queue/consumer.go:62-102 | invariant of fault-free runs: messages pass in publish order, staging holds only what is still needed, the shown picture is the last one readied, and every row not ready awaits a message |
| EndToEnd.QuiescentMeansShown | internal/worker/service.go:34-82 | whenever a fault-free run without DELETE has nothing left to do, every user with an accepted upload is ready with both objects of the last message published for that user, and staging is empty |
| EndToEnd.EveryUploadIsShown | internal/handler/handler.go:166-196 | each such run with no request in flight has a fault-free continuation that gets there, accepting nothing more on the way |
| Ownership.EverythingStructured | internal/handler/handler.go:151-189 | in every reachable state messages, rows, staged objects and pending deletes carry only keys of their own user, and staged objects hold what was uploaded |
| Ownership.RowsHaveShape | internal/handler/handler.go:172-193 | every row is staged under its own message id with no results, or finished with both results and no staging key; ready implies finished, pending staged; error text exactly when failed |
| Ownership.UsersAreIsolated | internal/worker/service.go:57-58 | whatever uploads, deletes and worker steps of other users do, in any continuation of any run, a user's row and objects stay the same |
| Ownership.NamesTellObjectsApart | internal/handler/handler.go:152 | in a reachable bucket two objects are the same key exactly if they have the same name |
| Keys.TextInjective | internal/worker/service.go:57-58 | for any user ids, slashes included, and slash-free message ids, the three key schemes are injective and pairwise disjoint |
| Keys.NamesOfKeys | internal/worker/service.go:57-58 | the names as the code writes them, with a slash in the user id |
| Keys.SlashInIdCollides | internal/handler/handler.go:152 | without slash-free ids the staging scheme collides |
| Limits.ReadyCanTurnFailed | internal/queue/consumer.go:97-100 | a ready avatar turns failed, its objects untouched, after one failed mark |
| Limits.HandlerOutcome | internal/worker/service.go:41-81 | one uninterrupted handler run from any state, for every outcome of its calls: which row status it leaves, and whether it ends in success; ready only if all five calls work and the source is there and a picture |
| Readiness.ReadyIsLostExactlyIf | internal/queue/consumer.go:79-101 | from any reachable state of one worker with a ready row: worker and broker, crashes and failures included, can make it not ready if and only if a copy of a message of that user whose id is not marked is in processing, in a retry queue or in hand |
| Readiness.SettledRowsStay | internal/queue/consumer.go:79-87 | with no such copy, no worker or broker action ever makes the row not ready, and none such appears |
| Newest.ShowsItsOwnUpload | internal/worker/service.go:57-71 | in every run of any number of workers: a ready row shows the upload that its message id names if and only if the last mark-ready that took effect on it was for that message, by the comparison of ids just before the call |
| Newest.ShowsItsOwnPicture | internal/worker/service.go:57-71 | with one worker and both objects there: the row shows the picture of the upload that it names if and only if that comparison holds, or the message marked instead has the very same picture |
| Newest.AtRestShowsItsOwn | internal/handler/handler.go:172-190 | at rest after a fault-free run, a row shows its own upload if and only if that was the last one published for its user |
| Limits.UntornIffOneWorker | internal/worker/service.go:60-71 | no run of the service ever tears an avatar, whatever the pictures, if and only if it has at most one worker |
| Limits.TwoWorkersCanTear | internal/worker/service.go:60-71 | any number of workers above one, no fault, no DELETE: a ready row that stands for no single upload |
| Limits.HalfDeleteLeavesHalfAnAvatar | internal/handler/handler.go:244-247 | a DELETE that stops half-way leaves a ready row with a thumbnail and no original |
| Limits.RetryCanShowTheOlderPicture | internal/queue/consumer.go:88-96 | with one retry, the ready avatar is the older picture while the row names the newer message |
| Limits.OverlapCanShowTheOlderPicture | internal/handler/handler.go:172-190 | the same with no fault and no retry, by two uploads that overlap |
| Topology.Channel.Declare | internal/queue/topology.go:5-53 | on any broker, whatever it holds already: success if and only if the channel answers all nine calls and no queue of the topology exists with other arguments; then the whole topology is added and nothing else, otherwise a part of it |
| Topology.JoinedRoutes | internal/queue/topology.go:5-53 | on a broker with other things on it, a publish reaches what those bind and what the topology routes it to |
| Topology.RetryReachesOneQueue | internal/queue/retry.go:13-53 | for every integer count the retry publish reaches exactly one declared queue, that of the ladder, and the next reader finds the count, or zero where the header is dropped |
| Topology.EdgesOfTheTopology | internal/queue/topology.go:13-50 | uploads reach processing only, its rejects the dead-letter queue only, expired retries processing only, and dead letters stay; only the retry queues have a time to live, of 30 s and 2 min |
| World.RoutesOfThePipeline | internal/queue/retry.go:24-33 | each publish of the pipeline appends to the one queue the machine says, by routing over the declared bindings |
| WorkerService.Service.Handle | internal/worker/service.go:34-82 | under interference between any two calls: the calls made are a run of the machine from the first status update to the mark (no error) or the retry publish (error), and those recorded as failed number at most the disturbances that came up; alone: an error only if a call failed or the source is not a picture; without one the row is ready with that picture, both objects are in place, and the source is gone unless the one call that removes it failed; with one, the outcome is one of the four of `Erred` |
| HandlerAccount.HandlerStep | internal/worker/service.go:41-81 | each call of the handler, failing or not, keeps the account of rows and objects: after a failed status call nothing is touched; after a failed download, processing or put the row says failed, with a text, unless the call that says so failed too; after a failed mark-ready both objects are in place and the row is as during the work |
| WorkerService.Service.Fail | internal/worker/service.go:46-49 | the failure exit keeps that account |
| WorkerService.Service.SetStatus | internal/worker/service.go:41-43 | the status call is the machine's step, on rows as callers see them |
| WorkerService.Service.Fetch | internal/worker/service.go:45-55 | the handler has a picture afterwards exactly if the download worked and its bytes process |
| WorkerService.Service.Put | internal/worker/service.go:60-67 | the upload of either result is the machine's step, and a failed one leads to the failed row |
| WorkerService.Service.MarkAvatarReady | internal/worker/service.go:69-71 | mark-ready is the machine's step; its failure leads to a retry with the row left as it is |
| WorkerService.Service.RemoveStaging | internal/worker/service.go:80-81 | whether or not the clean-up works, the handler has succeeded |
| QueueConsumer.Consumer.HandleDelivery | internal/queue/consumer.go:62-102 | under interference, one delivery is taken along a run of the machine, by calls only, until the worker is free or hangs on an acknowledgement, and with bounded disturbances it gets closer to the end; alone and with no failing call: an unparsable delivery is dead-lettered, a marked one forgotten, a picture made ready and marked, and anything else marked failed and sent to the rung of the ladder that is its turn |
| QueueConsumer.Consumer.HandleUnprocessed | internal/queue/consumer.go:88-101 | a failed handler leads to the retry publish, a successful one to the mark, and either to ack or requeue; alone and with no failing call, to exactly what `Handled` says |
| QueueConsumer.Consumer.IsProcessed | internal/queue/consumer.go:79-87 | a marked id is acknowledged, an unmarked one handled, a failed check requeued |
| QueueConsumer.Consumer.SendToRetry | internal/queue/retry.go:24-33 | the published copy lands where the ladder says, with the counter header that goes with it |
| QueueConsumer.Consumer.MarkProcessed | internal/queue/consumer.go:97-101 | the mark is the machine's step; a failed one leads to a requeue |
| QueueConsumer.Consumer.NackRequeue | internal/queue/consumer.go:81-82 | the delivery is back in the processing queue unchanged, or hangs |
| QueueConsumer.Consumer.NackReject | internal/queue/consumer.go:68-71 | an unparsable body is dead-lettered by the arguments of its queue, or hangs |
| QueueConsumer.Consumer.Ack | internal/queue/consumer.go:94-101 | the broker forgets the delivery, or it hangs |
| QueueConsumer.Consumer.Drain | internal/queue/consumer.go:49-59 | the loop of one worker ends with nothing unacknowledged and three empty queues, from any backlog, any headers, and any bounded number of failing calls and of bursts of uploads, deletes and broker actions; after a run without faults and DELETE, and undisturbed, every user with an accepted upload then shows the picture of the last message published for that user, whole |
| QueueConsumer.Consumer.DrainDecides | internal/queue/consumer.go:49-59 | every parsed message the loop started over is then in the processed table or in the dead-letter queue |
| Api.Handler.UploadAvatar | internal/handler/handler.go:90-204 | under interference: 202 if and only if the message was published, after object and row; any other code and it never was; 400 and 413 exactly for the inputs they are for, with nothing touched; 500 only if a call failed; the request is never just given up, and its calls recorded as failed did fail; alone, 202 leaves exactly the staged bytes, the pending row and one queued message, and 500 leaves the staged bytes gone unless a second call failed, the row failed with a text unless a further one did, and the rows untouched if none had been written |
| Api.Handler.PublishOrUndo | internal/handler/handler.go:185-196 | the publish went through, or a call failed and the undoing was carried through: alone, the staged bytes are gone and the row says failed, each unless a further call failed |
| Api.Handler.DeleteAvatar | internal/handler/handler.go:229-257 | under interference: 204 if and only if this very request took the row away, and then it had read it and after that removed each object that it named; 404 only if the user had no row at the read, or none any more at the row delete; 500 only if a call failed; alone, 204 removes exactly the row and the objects it names |
| Api.Handler.DeleteObjects | internal/objectstore/client.go:90-107 | under interference: success only if each non-empty key was removed, in order, up to the first error; alone, it removes exactly those |
| Api.Handler.DeleteRow | internal/handler/handler.go:248-255 | the reply tells whether there was a row at that very action of the run |
| RateLimit.UploadRateLimiter.constructor | internal/handler/ratelimit.go:22-33 | a new limiter is a full bucket with the creation as its first instant |
| RateLimit.UploadRateLimiter.Allow | internal/handler/ratelimit.go:35-51 | admits if and only if no window since any earlier instant would exceed capacity plus refill; the tokens left are the tightest of all those windows' slacks |
| RateLimit.WindowBound | internal/handler/ratelimit.go:35-51 | the uploads admitted in any window number at most the capacity plus the refill over it |
| RateLimit.NoOverdraft | internal/handler/ratelimit.go:35-51 | no window's slack is ever negative |
| RateLimit.GreedyIsOptimal | internal/handler/ratelimit.go:35-51 | no other policy that keeps every window's bound, even one that knows all calls beforehand, has let through more uploads at any moment |
| RateLimit.GreedyKeepsBounds | internal/handler/ratelimit.go:35-51 | the limiter itself is such a policy: none of its windows is ever overdrawn |
| CircuitBreaker.Breaker.constructor | internal/resilience/breaker.go:21-29 | a new breaker has an empty history, and the limits asked for or the defaults |
| CircuitBreaker.Breaker.Admit | internal/resilience/breaker.go:31-37 | in any interleaving, a call is let through if and only if no earlier trip's cooldown still runs |
| CircuitBreaker.Breaker.Complete | internal/resilience/breaker.go:39-53 | in any interleaving, counter and open time stay functions of the history of completions; the open time never goes back and moves exactly at a trip |
| CircuitBreaker.Breaker.Call | internal/resilience/breaker.go:31-53 | an uninterrupted call adds one completion exactly if it was not blocked, and reports an error if blocked or failed |
| CircuitBreaker.CounterIsFailuresSinceReset | internal/resilience/breaker.go:43-51 | the counter is below the limit and counts the failures since the last success or trip |
| CircuitBreaker.CallDeadBackend | internal/resilience/breaker.go:31-53 | one call after another of a new breaker, all failing: all report errors, and those executed are a run as the next two bounds take it |
| CircuitBreaker.TripsAreCooldownApart | internal/resilience/breaker.go:33-36 | when every call fails, consecutive trips are at least a cooldown apart |
| CircuitBreaker.DeadBackendBound | internal/resilience/breaker.go:31-53 | when every call fails, the executions started within any window number at most the failure limit times one more than the cooldowns that fit |
| Processor.FitBounds | internal/processor/image.go:96-116 | results are within 1 and the bound, never larger than the source, and at the bound if the source exceeded it |
| Processor.FitRoundsDown | internal/processor/image.go:100-116 | a picture within the bound keeps its size; of a larger one the longer side gets the bound and the shorter side the most pixels that do not exceed its share, but at least one |
| Processor.FitTransposes | internal/processor/image.go:104-116 | resizing commutes with swapping width and height |
| Processor.FitKeepsRatio | internal/processor/image.go:104-116 | the cross products of old and new sides differ by less than the longer side |
| Processor.FitCommutes | internal/processor/image.go:52-53 | resizing to a multiple of a bound and then to the bound is resizing to the bound, clamping included |
| Processor.ProcessDescribesItsResult | internal/processor/image.go:30-73 | the recorded content type is the decoded one; size and dimensions are those of the stored original, which is the decoded picture fitted to 512; and the thumbnail has the size that shrinking the stored original to 128 would give |
| Processor.ProcessAcceptsExactly | internal/processor/image.go:30-63 | an upload is accepted if and only if its bytes decode to a picture of 1 to 4096 pixels on each side that can be encoded at the two sizes stored |
| Processor.ProcessAcceptsPictures | internal/processor/image.go:38-72 | no decodable picture within 1 to 4096 that can be encoded at all is refused, and it is stored fitted to 512 and 128 with its content type |
| Storage.Simulation | internal/storage/postgres.go:46-165 | over every sequence of calls, maps and tables keep the same visible rows, update times and processed ids |
| Storage.SimulationReplies | internal/storage/mem.go:28-119 | after any calls the two answer the next one alike, if and only if it is not a status or ready update of a missing row |
| Storage.SimulatesStep | internal/storage/mem.go:62-93 | one call keeps the two related; on the exception, memory reports a missing row and SQL does not, and neither changes |
| Storage.TotalIgnoresOrder | internal/storage/postgres.go:150-152 | the total of ready bytes is the same in whatever order rows come |
| Storage.ReadyBytesOfUpdate | internal/storage/mem.go:95-105 | changing one row moves the total by the difference of that row's contributions |
| Storage.TotalByRow | internal/storage/mem.go:98-103 | a ready row adds its bytes to the total, any other nothing |
| Storage.SqlTimes | internal/storage/postgres.go:46-77 | the tables keep a row's creation time through every call, upserts included; a new row has its caller's time, or the clock; update times are those of the last change, and the time of a processed id that of its first mark |
| Storage.CreatedByFirstUpsert | internal/storage/postgres.go:61-73 | over any calls the creation time of a row is that of the upsert since which its user has had one |
| Storage.MemTimes | internal/storage/mem.go:28-39 | in memory every upsert sets the creation time anew, and every mark its id's time |
| Storage.CreatedByLastUpsert | internal/storage/mem.go:28-39 | over any calls the creation time in memory is that of the user's last upsert |
| Storage.GetTellsTimes | internal/storage/postgres.go:79-90 | a lookup tells the times that the table holds |
| Storage.MemStorage.UpsertAvatar | internal/storage/mem.go:28-39 | the maps follow the step function that the simulation is about |
| Storage.MemStorage.GetAvatar | internal/storage/mem.go:41-50 | likewise, reading only |
| Storage.MemStorage.DeleteAvatar | internal/storage/mem.go:52-60 | likewise, with its not-found reply |
| Storage.MemStorage.UpdateAvatarStatus | internal/storage/mem.go:62-73 | likewise, with its not-found reply |
| Storage.MemStorage.MarkAvatarReady | internal/storage/mem.go:75-93 | likewise, with its not-found reply |
| Storage.MemStorage.TotalStorageBytes | internal/storage/mem.go:95-105 | the loop over the map, in any order, computes the sum over the ready rows |
| Storage.MemStorage.IsMessageProcessed | internal/storage/mem.go:107-112 | tells exactly the marked ids |
| Storage.MemStorage.MarkMessageProcessed | internal/storage/mem.go:114-119 | marks that id and no other |
| Storage.PostgresStorage.UpsertAvatar | internal/storage/postgres.go:46-77 | the statement follows the table semantics that the simulation and the laws of times are about; a failed call changes nothing |
| Storage.PostgresStorage.GetAvatar | internal/storage/postgres.go:79-90 | reads the row with NULL error text as empty |
| Storage.PostgresStorage.DeleteAvatar | internal/storage/postgres.go:92-108 | not found exactly if no row was affected |
| Storage.PostgresStorage.UpdateAvatarStatus | internal/storage/postgres.go:110-118 | a missing row is no error and no change |
| Storage.PostgresStorage.MarkAvatarReady | internal/storage/postgres.go:120-132 | a missing row is no error and no change |
| Storage.PostgresStorage.IsMessageProcessed | internal/storage/postgres.go:134-143 | tells exactly the marked ids, if the call works |
| Storage.PostgresStorage.TotalStorageBytes | internal/storage/postgres.go:145-154 | if the call works, the sum over the ready rows, whatever order rows are read in; if not, an error |
| Storage.PostgresStorage.MarkMessageProcessed | internal/storage/postgres.go:156-165 | marks that id and no other, keeping the time of a first mark |

## Left out

- HTTP: routing, multipart forms and their limits, JSON, trimming of user ids, file extensions and content types, the GET and health handlers, presigned URLs and the web page. A request is modelled from its validated parameters on.
- Message marshalling: a body either parses to the message that was published or does not parse at all; nobody but the API publishes a parsed message.
- The message-id property: messages carry their id in the body, as the API builds them, so the fallback to the property (internal/queue/consumer.go:72-74) is never taken in the machine.
- Image decoding, scaling and PNG encoding: `Codec` leaves open which bytes decode and to what, and takes both as deterministic; only the dimensions are computed.
- Clients of PostgreSQL, S3 and RabbitMQ: connections, contexts and timeouts are left out. A call takes effect and returns, or fails without effect; a call that takes effect and is reported as failed is not in the machine.
- A worker that keeps running after the broker took its delivery back: a crash ends the worker's work on it.
- MemStorage in the pipeline: the machine has the SQL semantics of a missing row; the reply of the maps is one where the call fails, which every theorem allows for.
- Locks and memory: the methods of limiter, breaker and storage are atomic, as their mutexes make them; aliasing of records, and the times that an upsert writes into its caller's record, are not modelled.
- Numbers: the limiter uses reals for floating point, byte totals and counters are unbounded integers, and clock readings under a lock do not go back.
- Error texts: what the worker writes into a failed row is some non-empty text; `Service.Fail` writes a fixed one.
- Telemetry, logging, metrics, trace headers, configuration and deployment files have no effect on the modelled state.
- QueueConsumer.Consumer.Drain: ends only if the disturbances do; endless uploads keep any consumer busy, and the model does not say how long a burst of them takes.
- WorkerService.Service.Publish: the second half of `Handle`, split off to keep the proof small; it has no counterpart of its own in the source.
- Api.Handler.DeleteAvatar: does not promise that the deleted objects stay deleted, because a message still on its way to the worker may write them again.
