# telego-bot-api: the update path and its side protocols, verified

telego-bot-api is a Telegram Bot API gateway. An update arrives on an MTProto connection, waits in a
bounded intake, passes the gap manager, is numbered and appended to a Redis Stream by one worker per
bot, and leaves the stream either through a webhook replay loop or through `getUpdates`. This project
models that path and the protocols around it, and proves that

- updates of one conversation are accepted in the order in which they arrived, also across restarts;
- the replay loop asks to remove an update only once the application accepted it or it is a day old, and
  does not send an update again after its acceptance was reported to that loop. An update whose send
  failed, or whose report was lost with its loop, is sent again;
- what Redis drops by itself, since appending trims the stream to its maximum length
  (internal/storage/redis.go:329), or what another client deletes, is gone without having been accepted;
- no poller, feeder or loop sleeps through something it has to do.

It also covers the rich message builder, the watchdog, the log sampler and the entity filter.

`dafny verify dfyconfig.toml` checks everything.

## How it is built

| file | what it models |
|---|---|
| `Basics.dfy`, `Decimal.dfy` | optional values; decimal text, written and read |
| `Updates.dfy` | updates, stream IDs, queue keys, `allowed_updates` |
| `RedisStream.dfy` | one bot's stream: range reads, paging by update_id, deletion, with other clients acting between any two commands |
| `DeliveryTrace.dfy` | what a replay loop may do, as rules on its event sequence, and what the rules imply for every run |
| `WebhookLoad.dfy` | which entries a load takes into memory, and when it stops |
| `WebhookDelivery.dfy` | the replay loop as a class: index, queues, retries, dispatcher results, acknowledgements |
| `DeliveryGuarantees.dfy` | the theorems about the loop, stated on conversations and the stream |
| `WebhookLifetime.dfy`, `WebhookServing.dfy` | SetWebhook, DeleteWebhook, restart and Stop, stepped concurrently with the loops they start; what these operations achieve |
| `UpdatePipeline.dfy` | the queue to the worker, conversion, numbering, appending |
| `EndToEnd.dfy` | the worker and the replay loop on one stream |
| `PollSignal.dfy`, `LongPolling.dfy` | the wake-up channel, and `getUpdates` itself |
| `UpdateIntake.dfy` | the intake as a class with its feeder, and the same queue stepped by all goroutines |
| `BotRegistry.dfy`, `BotOutcomes.dfy` | singleflight plus the map of running bots; what callers are told |
| `RichTree.dfy`, `RichBlocks.dfy`, `RichMessage.dfy` | JSON, page blocks, when one renders the other, and the builder with its side tables |
| `TextWriting.dfy`, `BlockWriting.dfy` | the same texts and blocks written back as JSON, by the names of the Bot API |
| `ListLabels.dfy`, `AnchorEncode.dfy` | the two injective text encoders |
| `Watchdog.dfy`, `Sampler.dfy`, `EntityBounds.dfy` | time-window counters, and the in-place filter |

Two forms are used. Code that one goroutine runs is a class or a method with the source's fields,
branches and loops, and an environment step (`Elapse`, `DispatcherRuns`, a nondeterministic choice)
stands for everything others may do meanwhile. Protocols between goroutines are state machines: a
program counter per goroutine, `Can` and `Do` for each atomic section, and theorems over all runs. The
getUpdates call of `LongPolling` takes the steps of a poller of `PollSignal`, whose invariant it keeps.

The replay loop ties the two together. Each of its methods keeps `Valid`, which says that the events it
recorded form a `Legal` trace and that its index refines the stream. So a theorem about legal traces is
a theorem about every run of the loop, whatever Redis, the dispatcher, the clock and the context do.

## What is assumed

- Stream IDs and update_ids grow in the order entries are appended (one writer per bot), and a failed
  append has had no effect.
- All times of one run come from one clock that does not go back.
- A stream object fixes in advance everything that is appended in the finite run considered; any
  entries may be deleted at any time, by other clients or by the trimming that comes with appending.
- A dispatcher task reports at most once. While the context is live it reports into the result channel;
  when the context is done the report may be lost, so an update may be sent again by a later loop.
- An update carries one of its optional fields.
- Redis, the dispatcher, uploads and the gap manager may succeed or fail at every call. The gap manager
  may also never answer; what is said of the feeder's progress excludes that case by name.

## What turned out to be otherwise

- With a filter set, `getUpdates` returns a `removed_chat_boost` update only if the filter names the empty
  string: the type has no name in the filter's table (`RemovedBoostsAreFiltered`).
- `load` can stop although memory has room and the stream has more. That happens exactly when more than
  900 updates are loaded, so that the last page asks for fewer than 100 entries, more than that many are
  waiting, and one of those asked for cannot be decoded (`StopsWithRoomExactlyWhen`, `Load`);
  `LoadStopsEarly` is a stream for which it happens.
- A bot whose token is reported as revoked between its start and its registration is stopped first and
  registered afterwards, and then stays registered although it is stopped. `RegisteredIsLive` says that
  this is the only way a registered bot can be a stopped one; `RevokedBeforeStored` gives the run.
- The users table of a rich message can contain users that the message does not mention: inner text of
  a custom emoji, a formula or an anchor is read and then discarded. `UsersAreTheMentioned` says exactly
  when the table and the mentions agree; `MentionInsideEmoji` is a case where they do not.
- The watchdog never counts more traffic than there was in the ten minutes that end with the last update,
  but it counts less if and only if an update of that window was once followed by one ten minutes later or
  more, which takes a clock that goes back (`TrafficIsTheWindow`, `ClockGoingBack`).

## Model

| member | source | states |
|---|---|---|
| Decimal.ItoaRoundTrip | internal/botmanager/rich.go:505 | decimal text of any int reads back as that int |
| Decimal.SignsRead | internal/botmanager/rich.go:80-83 | one plus or minus sign may precede the digits, and there must be digits |
| Updates.QueueKeysSeparateConversations | internal/botmanager/webhook_delivery.go:315-331 | two different stream entries get the same textual queue key exactly when they have the same chat and are both messages (edits and deletions included), both membership changes, both boosts or both reactions; the texts never collide |
| Updates.StreamIdTextInjective | internal/botmanager/webhook_delivery.go:330 | stream IDs written as text stay distinct, so updates without a chat never share a queue |
| Updates.FamiliesOfKeys | internal/botmanager/webhook_delivery.go:315-328 | the cases of the queue key are those four sets of update types, and each has a chat |
| Updates.FilterIsByName | internal/botmanager/bot.go:775-834 | a filter lets through exactly the types it names, by their Bot API names; an empty one lets through everything; a type without a name passes only by the empty name |
| Updates.StaleByItsLastChange | internal/botmanager/updates_pipeline.go:172-191 | an edited message is as old as its last edit, any other as old as its date; only one of more than a day is stale, and nothing without a date |
| RedisStream.Stream.Scan | internal/storage/redis.go:387-400 | a range read gives the first `limit` live entries after the cursor, in order, and all of them when it gives fewer |
| RedisStream.Stream.ReadUpdatesAfter | internal/storage/redis.go:387-415 | the same against the stream as it is when the command runs, with the limit clamped to 1..100; other clients may act before it, and Redis may fail |
| RedisStream.Stream.ReadUpdates | internal/storage/redis.go:343-372 | paging from the start finds every live entry with update_id at or above the offset, in order, up to the limit, and none that was deleted before the call; terminates while others append |
| RedisStream.ReadsWhatIsNotAcknowledged | internal/storage/redis.go:360-368 | a positive offset reads exactly the entries that acknowledging it leaves: the entry at the offset is read and kept |
| RedisStream.LimitsOfAPage | internal/storage/redis.go:344-346 | a limit from 1 to 100 is kept, any other reads 100 |
| RedisStream.Stream.Collect | internal/storage/redis.go:360-368 | one page adds exactly its entries at the offset, stopping at the entry that fills the limit |
| RedisStream.GatherPage | internal/storage/redis.go:352-369 | scanning the next page extends what was found so far without omission or repetition |
| RedisStream.PageNotGone | internal/storage/redis.go:352-369 | what a page adds was still in the stream when the page was read |
| RedisStream.Stream.AckUpdates | internal/storage/redis.go:446-484 | asks to delete only entries below the offset; on success none that was there at the start is left |
| RedisStream.Stream.AckPage | internal/storage/redis.go:456-482 | one page removes what is below the offset at its front, and tells whether nothing below the offset can follow it |
| RedisStream.ClearPage | internal/storage/redis.go:463-482 | stopping at the first entry at the offset, or at a short page, leaves nothing below the offset behind |
| RedisStream.Stream.AckUpdate | internal/storage/redis.go:488-490 | asks to delete that entry only; success means it is gone, failure leaves both possible |
| DeliveryTrace.LegalIsSound | internal/botmanager/webhook_delivery.go:130-138 | in every legal run, whatever precedes an in-flight or accepted update in its queue was acknowledged, and only accepted or expired updates are |
| DeliveryTrace.AcceptedInOrder | internal/botmanager/webhook_delivery.go:134-136 | of two acceptances in one queue the first has the smaller stream ID; none is accepted twice |
| DeliveryTrace.NoLoss | internal/botmanager/webhook_delivery.go:130-132 | every acknowledgement is preceded by the acceptance of that update, or by giving it up after a look at the clock more than a day past the time in its stream ID |
| DeliveryTrace.NoResend | internal/botmanager/webhook_delivery.go:222 | an accepted update is never sent again, however often its acknowledgement fails |
| DeliveryTrace.SentAfterPredecessors | internal/botmanager/webhook_delivery.go:134-136 | at each send, every update loaded ahead of it in its queue was accepted, or given up more than a day after its stream ID's time, and then acknowledged |
| DeliveryTrace.TimesGrow | internal/botmanager/webhook_delivery.go:212-228 | no send, failure or expiry is later than the last time the run recorded, which the loop's clock bounds: the time of an expiry is a time the loop has lived through |
| DeliveryTrace.RetryDelays | internal/botmanager/webhook_delivery.go:120-128 | delays are 1, 2, 4, 8, 16 and then 30 seconds for every failure count: non-decreasing, and the shift cannot overflow |
| DeliveryTrace.BacksOff | internal/botmanager/webhook_delivery.go:120-128 | after the f-th failure of an update, to be sent or to be removed, its next try and every later one comes at least the f-th delay later |
| DeliveryTrace.NeverSentOld | internal/botmanager/webhook_delivery.go:217-228 | no update is sent by a dispatch that began more than 24 hours after it was added |
| WebhookDelivery.NormalizeWebhookConnections | internal/botmanager/webhook_delivery.go:33-38 | a number from 1 to 100 is kept, a larger one becomes 100, any other 40 |
| WebhookLoad.StopsWithRoomExactlyWhen | internal/botmanager/webhook_delivery.go:177-206 | an undisturbed load takes everything ahead or fills memory if and only if its last page is not cut short: fewer than 100 asked for, more waiting, one of those undecodable |
| WebhookLoad.LoadStopsEarly | internal/botmanager/webhook_delivery.go:202-204 | a stream of 1002 entries of which a load keeps 999 and leaves the last one, which decodes |
| WebhookLoad.FirstLiveIsPrefix | internal/botmanager/webhook_delivery.go:180 | a page is the beginning of the live entries after the cursor, and what follows it lies ahead of the next one |
| WebhookDelivery.WebhookDelivery.constructor | internal/botmanager/webhook_delivery.go:72-78 | a fresh loop starts before the first entry with an empty index, and satisfies the invariant |
| WebhookDelivery.WebhookDelivery.Load | internal/botmanager/webhook_delivery.go:177-206 | terminates with at most 1000 updates; without a read failure or a done context it has every decodable entry still there, or 1000, if and only if its last page was not cut short, whatever others append or delete meanwhile: that page is given by its place, what lay ahead of it and what was in memory, and it leads to where the load ended; on a stream that stays as it is it takes exactly what WebhookLoad says |
| WebhookDelivery.WebhookDelivery.LoadPage | internal/botmanager/webhook_delivery.go:179-204 | takes as many of the waiting entries as there is room for, up to 100, and keeps exactly the decodable ones; goes on only after a page of 100 |
| WebhookDelivery.WebhookDelivery.IndexEntry | internal/botmanager/webhook_delivery.go:186-201 | each entry moves the tail; a decodable one joins the end of its queue and the index once, an undecodable one nothing |
| WebhookDelivery.WebhookDelivery.Dispatch | internal/botmanager/webhook_delivery.go:209-236 | ends only when the context is done, all connections are used, or every queue's head is in flight or waits for its retry; whatever it sends was ready and not a day old when it began; terminates |
| WebhookDelivery.WebhookDelivery.DispatchQueue | internal/botmanager/webhook_delivery.go:211-231 | one queue's turn touches no entry of another queue, sends only a head that is ready and not a day old, and ends for one of those reasons |
| WebhookDelivery.WebhookDelivery.Settle | internal/botmanager/webhook_delivery.go:217-228 | a delivered or day-old head is removed, or waits for its next try; nothing is sent |
| WebhookDelivery.WebhookDelivery.Send | internal/botmanager/webhook_delivery.go:238-253 | a head that is ready and not a day old goes in flight once, one more connection is used, and a report that comes at once fits the channel |
| WebhookDelivery.WebhookDelivery.Report | internal/botmanager/webhook_delivery.go:242-247 | a report never blocks: there is room in the channel for it; only a done context loses it |
| WebhookDelivery.WebhookDelivery.Complete | internal/botmanager/webhook_delivery.go:255-271 | a result always belongs to an entry in flight, so the guard never fires; failure reschedules, success delivers, and one connection is free again |
| WebhookDelivery.WebhookDelivery.CompleteDelivered | internal/botmanager/webhook_delivery.go:269-270 | success marks the head delivered, and then removes it or, when Redis fails, keeps it for another acknowledgement |
| WebhookDelivery.WebhookDelivery.Remove | internal/botmanager/webhook_delivery.go:274-294 | takes a settled head out of stream, index and queue together; on failure changes only its retry time; the head check never fails |
| WebhookDelivery.WebhookDelivery.Forget | internal/botmanager/webhook_delivery.go:283-292 | the entry is the head of its queue, and the queue disappears with its last entry |
| WebhookDelivery.WebhookDelivery.Postpone | internal/botmanager/webhook_delivery.go:278-282 | a failed removal counts as a failure and schedules the next try; nothing else changes |
| WebhookDelivery.WebhookDelivery.NextRetryDelay | internal/botmanager/webhook_delivery.go:298-310 | the sleep is the earliest retry of an idle head, cut to 10 milliseconds below and 30 seconds above |
| WebhookDelivery.WebhookDelivery.Run | internal/botmanager/webhook_delivery.go:151-174 | for any number of turns and any behaviour of the environment the invariant holds and the recorded events only grow; each turn is the one of the next row; unless its context is done it makes its turns, and leaves no result behind |
| WebhookDelivery.WebhookDelivery.Turn | internal/botmanager/webhook_delivery.go:156-173 | each turn reads the stream unless the context is done or memory is full, dispatches, sleeps as in the next row, and ends with no result left in the channel |
| WebhookDelivery.WebhookDelivery.Sleep | internal/botmanager/webhook_delivery.go:160-168 | its preconditions, met at every turn: with a live context the loop sleeps only when all connections are used or every queue's head was in flight or waiting when the dispatch began, which is after this turn's load; and for 30 seconds or exactly until the first retry of an idle head, at least 10 milliseconds |
| WebhookDelivery.WebhookDelivery.Drain | internal/botmanager/webhook_delivery.go:169-172 | completes everything reported, terminates, leaves the channel empty |
| DeliveryGuarantees.AcceptedInPersistedOrder | internal/botmanager/webhook_delivery.go:134-138 | of two accepted updates of one conversation, the one accepted first was persisted first and has the smaller update_id |
| DeliveryGuarantees.SentAfterEarlierUpdates | internal/botmanager/webhook_delivery.go:134-136 | when an update is sent every decodable update persisted before it in its conversation has left the stream, and those this loop loaded were accepted, or given up more than a day after their stream ID's time, and acknowledged before |
| DeliveryGuarantees.SentInTime | internal/botmanager/webhook_delivery.go:212-228 | in every run of the loop a send obeys the backoff after each earlier failure of its update, and the age limit |
| DeliveryGuarantees.RemovalIsJustified | internal/botmanager/webhook_delivery.go:130-132 | the loop asks to remove an entry only after an event of its trace at which the application accepted it, or at which the clock, now no earlier, stood more than 24 hours past the time in its stream ID |
| DeliveryGuarantees.ReplayAcrossRestarts | internal/botmanager/webhook_delivery.go:130-138 | however often the loop is stopped and replaced, whatever its incarnations asked to remove had been accepted in one of them or was a day old; and no update a later incarnation sees accepted precedes, in its conversation, one that an earlier incarnation saw accepted; the incarnations are loops made on that stream, with the events they recorded |
| DeliveryGuarantees.LoopPassed | internal/botmanager/webhook_delivery.go:134-136 | when the application has accepted an update, everything decodable before it in its conversation is gone from the stream, and stays so for the next loop |
| DeliveryGuarantees.LaterLoopInOrder | internal/botmanager/webhook_delivery.go:72-78 | a loop that starts from the beginning of what is left accepts nothing that precedes, in its conversation, what an earlier loop saw accepted |
| DeliveryGuarantees.FirstLoad | internal/botmanager/webhook_delivery.go:72-78 | unless a read fails or its context is done, a fresh loop has every decodable entry still in the stream, or 1000 of them, if and only if the last page it read was not cut short, also while others append and delete |
| DeliveryGuarantees.IndexIsUnionOfQueues | internal/botmanager/webhook_delivery.go:145-147 | byID is exactly the disjoint union of the queues; queues are non-empty, strictly ascending and bounded by tail; at most 1000 entries |
| DeliveryGuarantees.IndexRefinesStream | internal/botmanager/webhook_delivery.go:136-138 | every decodable entry up to the tail that is still in the stream is loaded, with its own content, and nothing else is |
| DeliveryGuarantees.FlowAccounting | internal/botmanager/webhook_delivery.go:151-155 | the counter equals the entries in flight, at most maxConns; only heads fly; unreported tasks plus buffered results never exceed it, and equal it while the context is live |
| WebhookLifetime.AtMostOneLoop | internal/botmanager/webhook_delivery.go:53-89 | in every interleaving at most one replay loop per bot is alive, and none while pending updates are dropped |
| WebhookLifetime.StopIsFinal | internal/botmanager/bot.go:2831-2841 | once Stop has returned no loop is alive, and none ever is again |
| WebhookLifetime.NoneStartedOnceStopped | internal/botmanager/webhook_delivery.go:61-67 | after the stop flag is set no operation starts a loop |
| WebhookLifetime.InvStep | internal/botmanager/bot.go:919-954 | each step of SetWebhook, DeleteWebhook, restart, Stop and the loops keeps the protocol's invariant |
| WebhookLifetime.HolderProgresses | internal/botmanager/webhook_delivery.go:82-89 | whoever holds the lock can go on, or waits for a cancelled loop that can exit: no deadlock |
| WebhookServing.LoopRunsExactlyWhenConfigured | internal/botmanager/webhook_delivery.go:53-89 | whenever no operation is going on and the bot is not stopped, a loop runs if and only if the configuration saved last has a URL and the bot was ready at the last start; that configuration is in use, every operation that sets one has tried to save it, and no drop that was asked for is outstanding |
| WebhookServing.UrlIsServed | internal/botmanager/webhook_delivery.go:61-67 | a bot that was ready before it had a webhook runs a loop exactly while it has a URL |
| WebhookServing.OperationsEnd | internal/botmanager/webhook_delivery.go:53-89 | an operation takes at most eight steps, the exit of the loop it waits for included; no other step sets it back, and its last one frees the lock |
| WebhookServing.DoesWhatWasAsked | internal/botmanager/bot.go:919-954 | a configuration is saved only by an operation that sets one, and pending updates are dropped only by one that was asked to, after saving |
| UpdatePipeline.UpdateWorker.Handle | internal/botmanager/updates_pipeline.go:30-49 | a batch enters the queue, or is refused only when the worker is told to quit or the caller gives up on a full queue |
| UpdatePipeline.UpdateWorker.NextUpdateId | internal/botmanager/updates_pipeline.go:109-138 | ids strictly increase through retries, and are consecutive if Redis never fails; there is none exactly if eight attempts in a row failed |
| UpdatePipeline.UpdateWorker.AppendUpdate | internal/botmanager/updates_pipeline.go:109-145 | the update is appended once, or not at all and exactly if eight attempts in a row failed |
| UpdatePipeline.UpdateWorker.PersistOne | internal/botmanager/bot.go:604-632 | an update that is stale now is dropped without an id, and no other is; any other gets an id and is kept, unless Redis fails |
| UpdatePipeline.UpdateWorker.Convert | internal/botmanager/bot.go:543-596 | the updates of a batch, in order, without replayed and unconverted ones |
| UpdatePipeline.CandidatesOfParts | internal/botmanager/bot.go:543-596 | a batch gives the updates of its parts in order, none for a replayed or unconverted one; a short message gives its update exactly when it is incoming |
| UpdatePipeline.UpdateWorker.ProcessUpdates | internal/botmanager/bot.go:533-639 | a batch is dealt with completely and in order, and a broadcast follows if anything was appended |
| UpdatePipeline.UpdateWorker.Turn | internal/botmanager/updates_pipeline.go:66-82 | a worker that drains its queue takes a batch in each turn and exits when there is none; any other takes a batch, finds none, or notices quit |
| UpdatePipeline.UpdateWorker.RunUpdateWorker | internal/botmanager/updates_pipeline.go:66-82 | when the worker exits, every batch that ever entered the queue was processed, in arrival order |
| UpdatePipeline.PersistedInArrivalOrder | internal/botmanager/bot.go:602-632 | the stream is an ordered selection of the arrivals, with strictly increasing update_ids, and contains every kept update |
| UpdatePipeline.StreamInArrivalOrder | internal/botmanager/updates_pipeline.go:26-30 | in every reachable state the stream has the arrivals in order; an update was dropped as stale exactly if it was when it was handled, and any other that is missing fell to a Redis failure |
| UpdatePipeline.NothingLostWithoutFailures | internal/botmanager/bot.go:602-639 | without Redis failures an update is persisted if and only if it was not stale when it was handled, and the ids are consecutive: nothing else uses one |
| EndToEnd.WorkersStreamAscends | internal/storage/redis.go:451-453 | the worker's stream has the growing update_ids that reading and acknowledging rely on |
| EndToEnd.AcceptedInArrivalOrder | internal/botmanager/webhook_delivery.go:134-136 | of two accepted updates of one conversation, the one the application accepted first had reached the worker first; its place among the arrivals is the one its own entry was made from, even if another update is equal in content |
| PollSignal.InvAlways | internal/botmanager/updates_pipeline.go:147-166 | in every run a signal that was handed out is the current one or is closed |
| PollSignal.NoLostWakeUp | internal/botmanager/updates_pipeline.go:147-166 | for any number of pollers and any interleaving, a poller asleep over updates its read did not cover can wake, or the worker still owes the broadcast that lets it |
| PollSignal.OwesWhatItAppended | internal/botmanager/updates_pipeline.go:158-166 | the worker owes a broadcast exactly when it appended something after the last one |
| PollSignal.BroadcastReachesAll | internal/botmanager/updates_pipeline.go:158-166 | after a broadcast no poller holds an open signal |
| PollSignal.OthersStep | internal/botmanager/updates_pipeline.go:147-166 | whatever other goroutines do leaves a caller where it stands, and only a broadcast closes a signal |
| LongPolling.BotInstance.GetUpdates | internal/botmanager/bot.go:673-773 | a non-empty answer is exactly the wanted entries of the first page after the offset with any, in log order; the page holds `limit` entries or ends where the log does; an empty answer comes only at the deadline or without a timeout, and means nothing wanted was there at the last read, unless that failed; a positive offset, unless Redis failed, has everything below it that was there at the call removed; terminates; its page holds nothing that was deleted before the call |
| LongPolling.BotInstance.Poll | internal/botmanager/bot.go:711-772 | the same for the reading loop, in which the cursor strictly advances, or a signal or the deadline is used up; each round takes its signal before it reads |
| LongPolling.BotInstance.ReadPage | internal/botmanager/bot.go:715-723 | a page continues the stream where the call left it, without a gap and without what was deleted before; it is read by a caller that already holds a signal, and an empty one has seen all that was there |
| LongPolling.BotInstance.NewUpdatesSignal | internal/botmanager/updates_pipeline.go:147-156 | the signal handed out is open, and the next broadcast closes it |
| LongPolling.BotInstance.Wait | internal/botmanager/bot.go:757-772 | waits on the signal taken before the read that found nothing: not at all if that is closed, and otherwise until it is, the timer fires or the context is done; the timer fires after five seconds, or at the deadline if that comes first |
| LongPolling.BotInstance.Select | internal/botmanager/bot.go:735-747 | keeps exactly the decodable entries of an allowed type, in order |
| LongPolling.ResultOfPage | internal/botmanager/bot.go:735-754 | the loop keeps exactly the wanted entries of its page |
| LongPolling.AnswersUpToPageEnd | internal/botmanager/bot.go:734-750 | such an answer misses no wanted entry up to the end of its page, which holds `limit` entries or ends where the log does |
| LongPolling.RemovedBoostsAreFiltered | internal/botmanager/bot.go:775-834 | a removed boost passes the filter only if there is none, or it names the empty string |
| UpdateIntake.UpdateIntake.Push | internal/botmanager/gaps.go:258-273 | appends and leaves a wake token, or counts a drop at 100000 items; never blocks |
| UpdateIntake.UpdateIntake.Pop | internal/botmanager/gaps.go:276-282 | hands out all items and the drop count, and leaves both empty |
| UpdateIntake.UpdateIntake.StuckSince | internal/botmanager/gaps.go:293-300 | positive only while an item is with the gap manager and others wait |
| UpdateIntake.Feeder.HandOverAll | internal/botmanager/gaps.go:320-335 | the popped items reach the gap manager in order; the feeder gives up after an item exactly if the context is done then, and only that leaves a rest |
| UpdateIntake.Feeder.Handle | internal/botmanager/gaps.go:320-327 | an item is in the gap manager only while the intake is marked as busy since it went in |
| UpdateIntake.Feeder.RunIntake | internal/botmanager/gaps.go:309-345 | what was accepted is what was handed over, what the cancelled feeder left, and what is queued; when the feeder sleeps everything accepted was handed over; it does not spin: each round hands something over or uses up a token |
| UpdateIntake.Conservation | internal/botmanager/gaps.go:258-345 | in every interleaving pushes equal items handed over, held, queued and dropped; the gap manager saw a prefix of the accepted items; the limit holds |
| UpdateIntake.NoLostWakeUp | internal/botmanager/gaps.go:265-271 | a feeder asleep over queued items has a token, or a push is between its append and its send |
| UpdateIntake.WakesAreEarned | internal/botmanager/gaps.go:265-271 | in every interleaving the feeder wakes no more often than tokens were sent |
| UpdateIntake.QuietMeansAllHandedOver | internal/botmanager/gaps.go:336-343 | when nobody can wake the feeder it has handed over everything |
| UpdateIntake.StuckForIsHonest | internal/botmanager/gaps.go:284-300 | the reported time is the time since the current item entered the gap manager, and zero otherwise |
| UpdateIntake.FeederProgresses | internal/botmanager/gaps.go:311-344 | only a gap manager that does not answer can hold up a feeder that has something to do |
| UpdateIntake.FeederComesToRest | internal/botmanager/gaps.go:311-344 | the feeder does not spin: unless something is pushed, each of its steps brings it nearer to sleeping over an empty queue |
| UpdateIntake.CancelEndsTheFeeder | internal/botmanager/gaps.go:328-344 | a done context ends a sleeping feeder, and a busy one as soon as the gap manager has answered; a feeder that ended hands over nothing more |
| UpdateIntake.PushNeverBlocks | internal/botmanager/gaps.go:235-240 | a stuck gap manager blocks no push, and shows as stuck, for as long as it is, once another item waits |
| BotRegistry.OneLeader | internal/botmanager/flight.go:28-48 | at every step each token has at most one leader, the table's entry is that leader's call, so a leader deletes its own entry only |
| BotRegistry.CallersAgree | internal/botmanager/flight.go:24-34 | the leader and all followers of a call return the same pair; a returned bot is one of the token asked for |
| BotOutcomes.CallersAreTold | internal/botmanager/manager.go:181-213 | in every run a caller fails if and only if the bot could not be made in its call, and otherwise gets the bot found or stored in that call; a bot found at once is never a failure; whatever is returned was registered for the token, after its client was ready |
| BotOutcomes.RegisteredUnlessTooEarly | internal/botmanager/manager.go:205-212 | a registered bot is a stopped one if and only if the steps so far reported its token as revoked before it was stored |
| BotOutcomes.NotRefusedWhileRegistered | internal/botmanager/manager.go:183-204 | no call fails while a bot of its token is registered |
| BotOutcomes.AlwaysPossible | internal/botmanager/manager.go:229-306 | closing, resetting and stopping never have to wait for a caller, nor does dropping a bot whose token was revoked |
| BotOutcomes.TakenOut | internal/botmanager/manager.go:229-306 | closing, resetting, revoking and stopping leave the bot unregistered and stopped |
| BotRegistry.ResultIsFinal | internal/botmanager/flight.go:40-47 | a finished call's result never changes |
| BotRegistry.NeverASecondSession | internal/botmanager/manager.go:165-214 | no step makes a bot of a registered token, or replaces a registered instance, under any interleaving with closing, resetting and revoking |
| BotRegistry.OneLiveSession | internal/botmanager/manager.go:181-214 | two instances of a token that nobody has retired are one |
| BotRegistry.RegisteredIsLive | internal/botmanager/manager.go:246-257 | a registered bot is live if and only if it was not reported as revoked before it was stored |
| BotRegistry.RevokedBeforeStored | internal/botmanager/manager.go:199-212 | a run that leaves a stopped bot registered |
| BotRegistry.CallerProgresses | internal/botmanager/flight.go:30-34 | no caller waits on a call that nobody leads |
| BotOutcomes.CallersMoveOn | internal/botmanager/flight.go:28-48 | each step of a caller brings it nearer to its return, and nobody else's step moves it |
| RichTree.TextKeepsPieces | internal/botmanager/rich.go:569-685 | a rendered text has the words and mentions of its source in the same order, except what a custom emoji, formula or anchor discards |
| TextWriting.TextRoundTrip | internal/botmanager/rich.go:569-685 | every rich text that can be sent is what its JSON is read as: each kind under its Bot API name and members, with numbers given as numbers or as decimal text |
| TextWriting.AcceptedExactly | internal/botmanager/rich.go:597-685 | a value is read as a text if and only if its type is one of the 25 of the Bot API, its inner text is a text, and the members its type demands are valid |
| TextWriting.TextIsWellFormed | internal/botmanager/rich.go:569-685 | no empty text, link, date, user or emoji identifier is ever sent |
| TextWriting.DetectedByTheServer | internal/botmanager/rich.go:625-627 | mentions, hashtags, cashtags, commands and card numbers are sent as their inner text |
| TextWriting.LongNumbers | internal/botmanager/rich.go:71-86 | a number given as text is read exactly when it fits in 64 bits |
| RichBlocks.BlockKeepsPieces | internal/botmanager/rich.go:295-436 | the same for every block type, through lists, tables, quotes, galleries and captions |
| BlockWriting.BlockReads | internal/botmanager/rich.go:295-436 | every block that can be sent renders its JSON, with the Bot API names of all its types and members, default alignments and the ways to say yes |
| BlockWriting.OneBlock | internal/botmanager/rich.go:295-436 | a value renders as one block only, up to what its uploads gave, and never as one that cannot be sent |
| BlockWriting.OnlyTheseTypes | internal/botmanager/rich.go:295-436 | only the twenty block types of the Bot API that are supported render as anything |
| BlockWriting.OnlyTheseAlignments | internal/botmanager/rich.go:508-566 | a cell is aligned by one of the three names, or by none; any other is an error |
| RichMessage.RichBuilder.Text | internal/botmanager/rich.go:569-595 | succeeds exactly when the value is a valid rich text, with the one text it is sent as; the users table follows the mentions read |
| RichMessage.RichBuilder.TypedText | internal/botmanager/rich.go:597-685 | the same for a typed object, including its error cases |
| RichMessage.RichBuilder.AddUser | internal/botmanager/rich.go:647-653 | a mentioned user enters the table once |
| RichMessage.RichBuilder.ListOf | internal/botmanager/rich.go:438-475 | gives a list of one kind that renders every item; fails only if there is none (empty, malformed or mixed), or if an upload on record failed or gave a medium of the wrong kind |
| RichMessage.RichBuilder.TableBlock | internal/botmanager/rich.go:508-566 | gives a table that renders every cell, or there is none; uploads nothing |
| RichMessage.RichBuilder.MediaBlock | internal/botmanager/rich.go:401-434 | a media block adds exactly the photo or document its upload gave to the right table; it fails only if no block renders the value, or an upload on record failed or gave a medium of the wrong kind |
| RichMessage.RichBuilder.MapBlock | internal/botmanager/rich.go:381-400 | gives a map block with the given place and caption, or there is none; uploads nothing |
| RichMessage.RichBuilder.Blocks | internal/botmanager/rich.go:257-274 | renders every element in order; side tables grow by exactly what the blocks contain; terminates |
| RichMessage.RichBuilder.Block | internal/botmanager/rich.go:295-436 | gives a block that renders the value, or no block does, or an upload on record failed or gave a medium of the wrong kind |
| RichMessage.RichBuilder.BuildRichMessage | internal/botmanager/rich.go:106-137 | the photos and documents are those of the emitted tree in its order, and those the uploads gave in theirs; everyone it mentions is in the users table, and nobody is there twice; an error means that the value is no object, that no blocks render it, or that an upload on record failed or does not fit |
| RichMessage.RichBuilder.Resolve | internal/botmanager/rich.go:203-255 | the record of uploads grows by exactly the one made, with what was wanted and what came, and only when the object has the expected type |
| RichMessage.TablesClosed | internal/botmanager/rich.go:257-436 | every text mention of the tree has its user in the table, without repeats |
| RichMessage.UsersAreTheMentioned | internal/botmanager/rich.go:602-654 | the table lists exactly the mentioned users if and only if nobody is mentioned in discarded text alone |
| RichMessage.MentionInsideEmoji | internal/botmanager/rich.go:665-670 | a message that mentions nobody and still lists a user |
| ListLabels.OrderedListLabel | internal/botmanager/rich.go:478-506 | the loops compute the label of the type: letters, Roman numerals for 1 to 3999, or decimal |
| ListLabels.LettersRoundTrip | internal/botmanager/rich.go:479-488 | read as bijective base 26, in either case, the letters give the number back |
| ListLabels.RomanRoundTrip | internal/botmanager/rich.go:490-499 | the greedy numeral has the number as its subtractive value |
| ListLabels.LabelRoundTrip | internal/botmanager/rich.go:478-506 | every label of every type gives its number back, for all ints |
| ListLabels.LabelInjective | internal/botmanager/rich.go:478-506 | for a fixed type different numbers have different labels |
| ListLabels.LabelCase | internal/botmanager/rich.go:478-506 | the letters of a label are small for types a and i and capital for A and I |
| ListLabels.LabelStyle | internal/botmanager/rich.go:478-506 | letters for positive numbers, numerals from 1 to 3999, decimal for everything else |
| AnchorEncode.AnchorEncode | internal/botmanager/rich.go:716-728 | the byte loop computes the encoding |
| AnchorEncode.DecodedEncoded | internal/botmanager/rich.go:715-728 | only unreserved characters and %XX are emitted (sections 2.1 and 2.3 of RFC 3986), and decoding gives every byte string back |
| AnchorEncode.EncodedDecoded | internal/botmanager/rich.go:715-728 | every text of that form is the encoding of what it decodes to |
| Watchdog.ClientWatchdog.NoteUpdates | internal/botmanager/watchdog.go:39-57 | the counters are those of everything noted, pruned in place; counts that are not positive change nothing |
| Watchdog.ClientWatchdog.Traffic | internal/botmanager/watchdog.go:75-78 | the sum does not depend on the map's order |
| Watchdog.ClientWatchdog.Check | internal/botmanager/watchdog.go:69-96 | restarts if and only if the client was busy, is silent, shows a stall, and was not restarted within ten minutes |
| Watchdog.TrafficIsTheWindow | internal/botmanager/watchdog.go:48-56 | the counters never exceed the updates of the ten minutes that end with the last one, and equal them if and only if none of those was pruned by a note ten minutes later |
| Watchdog.BucketsAbove | internal/botmanager/watchdog.go:48-56 | the same for the minutes after any given one |
| Watchdog.InOrderIsEnough | internal/botmanager/watchdog.go:48-56 | times in order are enough for equality |
| Watchdog.ClockGoingBack | internal/botmanager/watchdog.go:51-56 | three notes for which they do not when the clock goes back |
| Watchdog.RestartsAreRare | internal/botmanager/watchdog.go:91-94 | restarts i and j of a run are at least (j - i) times ten minutes apart |
| Watchdog.RestartedWasBusy | internal/botmanager/watchdog.go:75-81 | a restart followed at least sixty updates in such a window, whatever the clock did |
| Sampler.SampleWindow.SampleAt | internal/logging/sampler.go:61-86 | the window and the decision after each call |
| Sampler.Conservation | internal/logging/sampler.go:75-85 | for any seconds and settings, calls equal lines written, skipped lines reported and lines still to be reported |
| Sampler.SecondWrites | internal/logging/sampler.go:75-83 | c calls in one second write min(c, first) + max(0, c - first) / thereafter lines |
| EntityBounds.ClampEntityBounds | internal/converter/formatting.go:48-76 | in place: the first n slots are the kept objects in the old order, each cut to the text; the other slots are as before |
| EntityBounds.Entity.Cut | internal/converter/formatting.go:53-70 | an entity stays if it starts in the text with positive length and fits or can be cut; then its length is the smaller of the two |
| EntityBounds.KeptAtIsExact | internal/converter/formatting.go:52-73 | exactly the entities that qualify are kept, each once, in order |
| EntityBounds.ClampedIsInside | internal/converter/formatting.go:45-47 | every kept entity lies inside the text, and entities already inside are untouched |
| EntityBounds.MarksTheSameText | internal/converter/formatting.go:48-76 | no more is cut than has to be: an entity stays exactly if it marks something of the text, starts in it, and fits or can be cut, and then marks the same characters of the text as before |
| EntityBounds.Idempotent | internal/converter/formatting.go:48-76 | clamping again changes nothing |
| EntityBounds.ClampedStaysLaminar | internal/converter/formatting.go:45-47 | entities that were nested or disjoint stay so |

## Left out

- WebhookDelivery.WebhookDelivery.Complete: a pending update is a value reached through its stream ID, not an object shared by queue and index; that the two always meet in one object is therefore not a theorem but built in.
- WebhookDelivery.WebhookDelivery.Run: runs are finite; that a failing update is retried for ever, and fairness between queues, are not stated.
- WebhookDelivery.WebhookDelivery.Load: the fallback to the current time for an unreadable stream ID is not modelled, as every ID is well formed.
- UpdatePipeline.UpdateWorker.RunUpdateWorker: a panic while a batch is processed, which loses the batch, is not modelled; nor is an update that cannot be marshalled.
- UpdatePipeline.UpdateWorker.Handle: a batch that is enqueued after the worker has exited is kept in the queue and never processed; the source promises nothing for it.
- LongPolling.BotInstance.GetUpdates: a negative offset reads from the start, as the code does and says.
- RichMessage.RichBuilder.BuildRichMessage: a message given as Markdown or HTML, with its media list, is only told apart, and error texts are not modelled.
- RichMessage.RichBuilder.TypedText: the flags a date-time format stands for are kept as its text, and a link to an anchor keeps the anchor's name, whose encoding is a theorem of its own.
- RichMessage.RichBuilder.Resolve: which photo or document an upload gives is arbitrary; the upload itself is not part of this model.
- RichMessage.RichBuilder.MapBlock: floating-point rounding and the conversion of numbers beyond 64 bits are inputs of the parsed JSON value.
- BotRegistry.OneLiveSession: an instance counts as retired as soon as it is out of the map, although its Stop may still be running while a new one starts.
- BotRegistry.CallersAgree: tokens are well formed; a malformed one is refused before anything modelled here.
- BotRegistry.OneLeader: like WebhookLifetime and PollSignal, a state with the source's fields that goroutines step one locked section at a time, not a class; accesses outside the locks and the memory model are not captured.
- EntityBounds.ClampEntityBounds: the length of the text in UTF-16 units is a parameter; reflection is reduced to whether the length can be set.
- Decimal.ItoaRoundTrip: integers are unbounded, so 64-bit overflow of counters and identifiers is not modelled.
- HTTP handlers, routing, request binding and error mapping: framework plumbing, one branch per case.
- Sending, editing, gifts, stickers, payments, media upload and caches: wrappers over remote calls.
- MTProto-to-Bot-API field conversion and the HTML and Markdown parsers: wide mappings that would add only easy members.
- The gap manager, the Redis server and the HTTP dispatcher's worker pool: environments with the assumptions listed above.
- Hibernation, downloads, configuration, metrics, logging text and diagnostics: no property of the update path rests on them.
