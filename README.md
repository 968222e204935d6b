# node-pubsub: a Dafny model of the broker core

This project models the core of node-pubsub, a Mongo-backed message broker
written in TypeScript, and proves properties of the model. The core covers:

- **The message lifecycle.** Send, receive, delete and get exist in three
  controller variants, which the model keeps apart:
  - the queue service's `visible`/`visibleAt` controller, which moves its
    counters with `$inc`;
  - the API server's `received`/`receivedAt` controller, whose counters move
    through the Message schema's post-hooks and `updateReceivedMessages`;
  - the packaged server's controller, which writes `received: false` back on
    receive, so a receive never hides a message.
- **The per-queue metrics counters** (`messageCount`, `messagesSent`,
  `messagesReceived`) and the three Mongoose post-hooks that move them.
- **The queue registry.** This covers creation defaults and validation, the
  zeroed counter record, owner and name filtering, and the not-found-before-
  forbidden checks.
- **Topics.** Topics come in the API server variant and in the packaged queue
  service variant, which uses the `'anonymous'` owner. The model covers create,
  list, get, subscribe (append if absent), publish (fan-out to every subscribed
  queue that still exists) and delete.
- **The queue service dashboard.** It provides server and per-queue counts,
  the oldest and newest message ages, and lazily created zero records.
- **The notification server's change-stream bookkeeping.** This covers:
  - event classification;
  - the resume-token choice;
  - one notification per change;
  - failure marking;
  - the stream registry and its `initialize` / `restartStream` / `close`
    lifecycle;
  - the Notification record with its enum, defaults and JSON view.

How the model is built:

- **Time and identity.** Time is a parameter (`now`, milliseconds). Document
  ids are naturals that each store allocates fresh.
- **Collections.** A collection is a sequence in insertion order, which is
  the order a Mongo query without a sort returns.
- **Classes.** Each store is a class whose methods change its fields. Each
  method is specified by a pure function on the old contents (`Select`,
  `UpdateAll`, `Remove`, `Inc`, `Fanout`, `Update`, ...), and lemmas state
  the broker's promises about those functions.
- **Errors.** Errors are `Result` values carrying the controller's status
  code and message (`Common.Reason`), or the set of paths a schema
  validation rejects.

Module layout, one file each:

- `common.dfy`: `Common`.
- `json.dfy`: `Json`, the stored-document and `toJSON` views.
- `queue_model.dfy`: `QueueModel`.
- `metrics.dfy`: `Metrics`.
- `message_model.dfy`: `MessageModel`.
- `message_store.dfy`: `Messages`.
- `message_hooks.dfy`: `MessageHooks`.
- `queue_registry.dfy`: `Queues`.
- `queue_service_messages.dfy`: `QueueServiceMessages`.
- `api_server_messages.dfy`: `ApiServerMessages`.
- `packages_server_messages.dfy`: `PackagedServerMessages`.
- `topics.dfy`: `Topics`.
- `dashboard.dfy`: `Dashboard`.
- `notification.dfy`: `Notifications`.
- `change_stream.dfy`: `ChangeStreams`.

## Model

| member | source | states |
|---|---|---|
| `Json.ToJson` | apps/api-server/src/models/Message.ts:44-51 | the `toJSON` transform: `id` carries the `_id` value, `_id` and `__v` are gone, every other field keeps its value |
| `QueueModel.TrimmedHasNoOuterSpace` | apps/api-server/src/models/Queue.ts:9-14 | a trimmed name starts and ends with a non-space character and is a slice of the input |
| `QueueModel.TrimEmptyIffBlank` | apps/api-server/src/models/Queue.ts:9-14 | trimming leaves the required name empty exactly when the given name is all white space |
| `QueueModel.TrimIdempotent` | apps/api-server/src/models/Queue.ts:12 | trimming an already trimmed name changes nothing |
| `QueueModel.NewQueue` | apps/api-server/src/models/Queue.ts:7-35 | creation succeeds iff the name is present and not blank, the owner is present and not empty, and the retention period (default 14) is at least 1; otherwise a validation error names every failing path; a created queue has the trimmed name, the owner, the retention period or its default, the schema (any JSON value, as the Mixed path takes it) and push endpoint as given (null when absent), and both timestamps at the creation time |
| `QueueModel.QueueDocument` | apps/api-server/src/models/Queue.ts:7-35 | the stored queue document has exactly `_id`, `__v`, the five schema fields and the `createdAt`/`updatedAt` timestamps |
| `QueueModel.QueueJson` | apps/api-server/src/models/Queue.ts:35-43 | the JSON view has exactly `id`, the five schema fields and both timestamps, `_id` renamed to `id`, `__v` dropped, unset schema and push endpoint as null |
| `Metrics.Inc` | queue-service/src/controllers/messageController.ts:33-42 | `findOneAndUpdate` with `$inc`: the queue's record moves by the delta; a missing record is created from zeros only on upsert, otherwise the counters are unchanged |
| `Metrics.IncAdds` | queue-service/src/controllers/messageController.ts:100-108 | two `$inc` updates on the same record add up to one with the summed delta |
| `Metrics.MetricsStore.Increment` | apps/api-server/src/models/Message.ts:58-67 | the per-queue counters become `Inc` of the old ones; the server record is untouched |
| `Metrics.MetricsStore.CreateQueueRecord` | apps/api-server/src/controllers/queueController.ts:22-28 | the queue gets a record with every counter at 0 |
| `Metrics.MetricsStore.FindOrCreateQueueRecord` | queue-service/src/controllers/dashboardController.ts:55-64 | an existing record is returned unchanged; a missing one is created with every counter 0 and returned |
| `Metrics.MetricsStore.FindOrCreateServer` | queue-service/src/controllers/dashboardController.ts:9-19 | an existing server record is returned unchanged; only when none exists, one started at `now` with all counters 0 is created |
| `MessageModel.NewDelivery` | apps/api-server/src/models/Message.ts:23-31 | a new record's delivery fields follow its schema's shape: the given flag, or `visible: true` / `received: false` by default, with a null time |
| `MessageModel.NewMessage` | apps/api-server/src/models/Message.ts:12-41 | create succeeds iff `data`, `queueId` and `expiresAt` are all given; otherwise a validation error names exactly the missing ones; a new record has `receivedCount` 0 unless given, and equal `createdAt` and `updatedAt` |
| `MessageModel.PreSave` | packages/server/src/models/Message.ts:51-58 | a first save sets `expiresAt` to `now` plus the default retention period, whatever it held; a re-save changes nothing; no other field is touched |
| `MessageModel.NewPackagedMessage` | packages/server/src/models/Message.ts:51-56 | a packaged create stores the validated record with its expiry overridden to the default retention period |
| `MessageModel.PackagedExpiryIgnoresCaller` | packages/server/src/models/Message.ts:51-56 | two packaged creates that differ only in the caller's expiry store the same record |
| `MessageModel.ResaveKeepsExpiry` | packages/server/src/models/Message.ts:52 | saving a record again keeps the expiry its first save set |
| `MessageModel.NewRecord` | packages/server/src/models/Message.ts:7-58 | create under a schema: the same validation as `NewMessage`, and the expiry is the caller's unless the schema has the pre-save hook |
| `MessageModel.MessageDocument` | apps/server/src/models/Message.ts:7-48 | a stored message has exactly `_id`, `__v`, the common fields and the two delivery fields of its shape |
| `MessageModel.MessageJson` | apps/server/src/models/Message.ts:39-46 | the message JSON view exposes `id`, hides `_id` and `__v`, and keeps every other stored field |
| `MessageModel.NewMessageAvailable` | packages/server/src/models/Message.ts:18-22 | a record created with the schema default flag is available to a receive of its own shape |
| `Messages.MatchingMembers` | queue-service/src/controllers/messageController.ts:71-74 | the receive query answers exactly the stored records of that queue that pass the availability filter |
| `Messages.MatchingConcat` | queue-service/src/controllers/messageController.ts:71-74 | the query over two parts of the collection is the first part's answer followed by the second's (collection order) |
| `Messages.MatchingIncrease` | queue-service/src/controllers/messageController.ts:71-74 | the answer keeps collection order, so ids stay increasing and no record repeats |
| `Messages.MongoLimit` | queue-service/src/controllers/messageController.ts:74 | `.limit(n)` lets all records through for 0 and otherwise at most abs(n) |
| `Messages.Select` | queue-service/src/controllers/messageController.ts:71-74 | a receive selects a prefix of the available records of the queue, no more than a positive `maxMessages`, and each selected record is stored, of that queue and available |
| `Messages.SelectStops` | queue-service/src/controllers/messageController.ts:74 | a scan that has seen the limit's worth of matches, or the whole collection, has the full answer |
| `Messages.SelectEmpty` | queue-service/src/controllers/messageController.ts:76-85 | with nothing available the selection is empty whatever the limit |
| `Messages.UpdateAllKeepsIdentity` | queue-service/src/controllers/messageController.ts:91-98 | the receive update keeps every record's id, queue, data, expiry and creation time |
| `Messages.UpdateNothing` | queue-service/src/controllers/messageController.ts:91-98 | an update on no ids leaves the collection unchanged |
| `Messages.UpdateIgnoresAbsent` | queue-service/src/controllers/messageController.ts:91-98 | listing an id no record has makes no difference to the update |
| `Messages.CountIds` | apps/api-server/src/models/Message.ts:99-107 | the update's `modifiedCount` is at most the collection size |
| `Messages.CountPrefix` | apps/api-server/src/controllers/messageController.ts:88-89 | updating the ids of the first k selected records modifies exactly k records, so `messagesReceived` grows by the number returned |
| `Messages.HideSelected` | queue-service/src/controllers/messageController.ts:87-98 | hiding the first k available records leaves exactly the remaining available ones, in order |
| `Messages.KeepSelected` | packages/server/src/controllers/messageController.ts:78-86 | writing back a state the filter accepts keeps the available records exactly as before |
| `Messages.LookupFinds` | queue-service/src/controllers/messageController.ts:134-139 | with unique ids, looking up a stored record's id finds that record |
| `Messages.RemoveMembers` | queue-service/src/controllers/messageController.ts:139 | deleting by id keeps every other record and nothing else |
| `Messages.RemoveIncrease` | queue-service/src/controllers/messageController.ts:139 | the delete keeps the order of the remaining records |
| `Messages.RemoveOne` | queue-service/src/controllers/messageController.ts:134-139 | deleting a record that is there removes exactly one record |
| `Messages.RemoveAbsent` | apps/api-server/src/models/Message.ts:85-97 | a delete that matches nothing leaves the collection unchanged |
| `Messages.CountQueueAppend` | queue-service/src/controllers/messageController.ts:25-31 | a new message raises its queue's message count by one and no other queue's |
| `Messages.CountQueueRemove` | queue-service/src/controllers/messageController.ts:139 | deleting a message lowers its queue's count by one and no other queue's |
| `Messages.CountQueueUpdate` | queue-service/src/controllers/messageController.ts:91-98 | a receive update moves no message between queues |
| `Messages.ReceiveContinues` | apps/api-server/src/controllers/messageController.ts:69-89 | after a receive that hides what it took, the available records are exactly those it did not take, in order |
| `Messages.ReceiveThenReceive` | apps/api-server/src/controllers/messageController.ts:69-89 | a second receive answers the next available records, as many as its own limit lets through |
| `Messages.ReceiveTwoThenRest` | apps/api-server/src/tests/integration/message.test.ts:112-131 | five available messages: a receive of 2 answers the first two, and a default receive after it the other three |
| `Messages.MessageStore.Create` | queue-service/src/controllers/messageController.ts:25-31 | `Message.create`: the validated record is appended under a fresh id; a failed validation stores nothing |
| `Messages.MessageStore.Find` | queue-service/src/controllers/messageController.ts:71-74 | the scan returns exactly `Select` of the collection |
| `Messages.MessageStore.FindOne` | queue-service/src/controllers/messageController.ts:134 | `findOne({ _id, queueId })` returns a stored record with that id and queue, or none when there is no such record |
| `Messages.MessageStore.UpdateMany` | queue-service/src/controllers/messageController.ts:91-98 | every listed record takes the new delivery state and one more receive, the others stay; the result is `modifiedCount` |
| `Messages.MessageStore.DeleteById` | queue-service/src/controllers/messageController.ts:139 | removes the record with that id and returns it, or returns nothing |
| `MessageHooks.AfterSave` | apps/api-server/src/models/Message.ts:55-69 | on a new document (equal timestamps) its queue's `messageCount` and `messagesSent` rise by 1, creating the record if absent; a re-save changes nothing |
| `MessageHooks.AfterUpdate` | apps/api-server/src/models/Message.ts:71-83 | only a document received with `receivedCount` 1 adds 1 to `messagesReceived`, of an existing record; everything else is untouched |
| `MessageHooks.AfterDelete` | apps/api-server/src/models/Message.ts:85-97 | a deleted document takes 1 off its queue's `messageCount`; a delete that matched nothing changes no counter |
| `MessageHooks.PostSave` | apps/server/src/models/Message.ts:50-64 | the hook leaves the counters as `AfterSave` says |
| `MessageHooks.PostFindOneAndUpdate` | apps/server/src/models/Message.ts:66-78 | the hook leaves the counters as `AfterUpdate` says |
| `MessageHooks.PostFindOneAndDelete` | apps/server/src/models/Message.ts:80-92 | the hook leaves the counters as `AfterDelete` says |
| `MessageHooks.FindByIdAndDelete` | apps/api-server/src/controllers/messageController.ts:120 | the delete, then its post hook on the deleted document |
| `MessageHooks.CreateHooked` | apps/api-server/src/controllers/messageController.ts:33-39 | the create, then the post-save hook on the new record; a failed create changes no counter |
| `MessageHooks.UpdateReceivedMessages` | apps/api-server/src/models/Message.ts:99-122 | every listed record becomes received at `now` with one more receive; `messagesReceived` grows by the modified count, upserting, only when it is positive |
| `MessageHooks.SaveKeepsCounts` | apps/api-server/src/models/Message.ts:55-69 | storing a message plus the post-save hook keeps every record's `messageCount` equal to its queue's message count |
| `MessageHooks.DeleteKeepsCounts` | apps/api-server/src/models/Message.ts:85-97 | a delete plus the post-delete hook keeps that agreement |
| `MessageHooks.ReceiveKeepsCounts` | apps/api-server/src/models/Message.ts:99-119 | a receive update plus its `messagesReceived` increment keeps that agreement |
| `MessageHooks.HookRunIgnores` | apps/server/src/models/Message.ts:67 | updates none of which has `receivedCount` 1 leave the counters alone |
| `MessageHooks.HookCountsOnce` | apps/server/src/models/Message.ts:66-78 | however often one message is updated, the hook counts it towards `messagesReceived` at most once and moves no other counter |
| `MessageHooks.SaveRunOthers` | apps/server/src/models/Message.ts:50-64 | saves on other queues leave a queue's counters and record presence alone |
| `MessageHooks.SaveRunEach` | apps/server/src/models/Message.ts:50-64 | saving one new message on each of distinct queues counts each queue exactly once (+1 count, +1 sent) |
| `QueueServiceMessages.Hidden` | queue-service/src/controllers/messageController.ts:87-98 | a received record becomes invisible until `now` plus the visibility timeout |
| `QueueServiceMessages.SendMessage` | queue-service/src/controllers/messageController.ts:12-59 | a missing queue is 404 with nothing created or counted; otherwise one visible, never-received record expiring after the queue's retention days is appended, `messageCount`/`messagesSent` +1, pushed iff the queue has a push endpoint |
| `QueueServiceMessages.ReceiveMessages` | queue-service/src/controllers/messageController.ts:61-123 | 404 for a missing queue; otherwise the reply holds the selected records (at most `maxMessages`, default 10) and their number; none selected changes nothing; otherwise exactly those are hidden until `now` + timeout (default 30 s) with one more receive, and `messagesReceived` grows by the number taken |
| `QueueServiceMessages.DeleteMessage` | queue-service/src/controllers/messageController.ts:125-160 | 404 for a missing queue, then for a message not in that queue, both changing nothing; otherwise exactly that record is removed and `messageCount` drops by 1 |
| `QueueServiceMessages.GetMessage` | queue-service/src/controllers/messageController.ts:162-182 | returns the record with that id in that queue, or 404 when there is none; nothing changes |
| `ApiServerMessages.SendMessage` | apps/api-server/src/controllers/messageController.ts:20-56 | 404 before any create; otherwise one not-received record with `receivedCount` 0 expiring after the queue's retention days, counted by the post-save hook, pushed iff the queue has a push endpoint |
| `ApiServerMessages.ReceiveMessages` | apps/api-server/src/controllers/messageController.ts:58-104 | 404 for a missing queue; only not-received records of the queue, at most `maxMessages` (default 10); an empty selection answers `results` 0 and updates nothing; otherwise exactly the selected ids are marked received, `messagesReceived` grows by their number, and the reply echoes the timeout (default 30) with `results` equal to the records returned |
| `ApiServerMessages.DeleteMessage` | apps/api-server/src/controllers/messageController.ts:106-131 | queue 404, then message-in-queue 404, both changing nothing; otherwise that record alone is removed and the post-delete hook lowers `messageCount` |
| `ApiServerMessages.GetMessage` | apps/api-server/src/controllers/messageController.ts:133-153 | read-only lookup by id and queue, 404 when absent |
| `ApiServerMessages.ReceivedNotRedelivered` | apps/api-server/src/controllers/messageController.ts:69-89 | a received record is never handed out again: the available records after a receive are exactly those it did not take |
| `PackagedServerMessages.Redelivery` | packages/server/src/controllers/messageController.ts:75-86 | the state a receive writes back still passes the `received: false` filter, with `receivedAt` at `now` + timeout |
| `PackagedServerMessages.SendMessage` | packages/server/src/controllers/messageController.ts:11-47 | 404 creates nothing; otherwise one not-received record with `receivedCount` 0 whose expiry the pre-save hook sets to the default retention period, pushed iff the queue has a push endpoint |
| `PackagedServerMessages.ReceiveMessages` | packages/server/src/controllers/messageController.ts:49-101 | 404 for a missing queue; at most `maxMessages` (default 10) not-received records; none selected changes nothing; otherwise the selected ids keep `received: false`, get `receivedAt` = `now` + timeout and one more receive |
| `PackagedServerMessages.DeleteMessage` | packages/server/src/controllers/messageController.ts:103-128 | queue 404, then message-in-queue 404, both changing nothing; otherwise exactly that record is removed |
| `PackagedServerMessages.GetMessage` | packages/server/src/controllers/messageController.ts:130-150 | read-only lookup by id and queue, 404 when absent |
| `PackagedServerMessages.SelectedIdsAvailable` | packages/server/src/controllers/messageController.ts:59-62 | with unique ids, a stored record whose id was selected is an available record of that queue |
| `PackagedServerMessages.ReceiveRedelivers` | packages/server/src/controllers/messageController.ts:78-86 | a receive hides nothing: a following receive with any limit answers the same records again, in the same order |
| `Queues.QueueById` | apps/api-server/src/controllers/queueController.ts:74 | `findById` returns the stored queue with that id, or none when no queue has it |
| `Queues.WithoutQueueMembers` | apps/api-server/src/controllers/queueController.ts:108 | `findByIdAndDelete` removes the queue with that id and keeps every other one |
| `Queues.WithoutQueueIncrease` | apps/api-server/src/controllers/queueController.ts:108 | the delete keeps the order of the remaining queues |
| `Queues.QueueStore.Create` | apps/api-server/src/controllers/queueController.ts:14-20 | `Queue.create`: the validated queue, stamped with the creation time, is appended under a fresh id; a failed validation stores nothing |
| `Queues.QueueStore.DeleteById` | apps/api-server/src/controllers/queueController.ts:108 | the collection loses that queue and nothing else |
| `Queues.CreateQueue` | apps/api-server/src/controllers/queueController.ts:9-41 | the queue is stored with the fields as given and the caller as owner, and its counter record is created with every counter 0; an invalid queue creates neither |
| `Queues.GetQueuesMembers` | apps/api-server/src/controllers/queueController.ts:43-56 | the listing holds exactly the queues of the caller (when a caller is present) whose name equals the given non-empty name after the `name` path's `trim` setter casts it |
| `Queues.GetQueuesTrimsFilter` | apps/api-server/src/controllers/queueController.ts:52-56 | a name filter with surrounding white space (`" orders"`) still lists the caller's queue named `orders` |
| `Queues.GetQueuesUnfiltered` | apps/api-server/src/controllers/queueController.ts:46-56 | without a caller and without a name every queue is listed, in order |
| `Queues.CheckQueue` | apps/api-server/src/controllers/queueController.ts:74-81 | 404 "Queue not found with ID: id" iff the queue is missing; 403 iff a present caller is not the owner; otherwise the queue |
| `Queues.GetQueue` | apps/api-server/src/controllers/queueController.ts:70-92 | a missing queue answers 404 naming the id; a present caller who is not the stored queue's owner answers 403 with the access message; anyone else (an absent caller included) gets the stored queue |
| `Queues.DeleteQueue` | apps/api-server/src/controllers/queueController.ts:94-108 | the same checks; a failed check deletes nothing; otherwise only the queue record goes, and messages, counters and subscriptions stay |
| `Topics.Owner` | packages/queue-service/src/controllers/topicController.ts:14 | the queue service compares with the caller or, when absent or empty, `'anonymous'`, so it always has an owner; the API server uses the caller as given |
| `Topics.NewTopic` | apps/api-server/src/controllers/topicController.ts:17-21 | a topic is created iff its name is not blank and it has an owner; it starts with no subscribed queues |
| `Topics.TopicById` | apps/api-server/src/controllers/topicController.ts:83 | `findById` returns the stored topic with that id, or none when no topic has it |
| `Topics.ReplaceTopic` | apps/api-server/src/controllers/topicController.ts:102-103 | `topic.save()` replaces the stored topic with that id and keeps every other one |
| `Topics.TopicByIdReplaced` | apps/api-server/src/controllers/topicController.ts:102-103 | after the save, looking the topic up finds the saved version |
| `Topics.WithoutTopicMembers` | apps/api-server/src/controllers/topicController.ts:187 | the delete removes only the topic with that id and keeps the order of the rest |
| `Topics.TopicStore.Create` | apps/api-server/src/controllers/topicController.ts:17-21 | `Topic.create`: the validated topic is appended under a fresh id; a failed validation stores nothing |
| `Topics.TopicStore.Save` | apps/api-server/src/controllers/topicController.ts:103 | the stored topic is replaced by the saved one |
| `Topics.TopicStore.DeleteById` | apps/api-server/src/controllers/topicController.ts:187 | the collection loses that topic and nothing else |
| `Topics.CreateTopic` | apps/api-server/src/controllers/topicController.ts:12-34 | the topic is owned by the controller's owner for the caller and starts with no subscribers |
| `Topics.GetTopicsMembers` | apps/api-server/src/controllers/topicController.ts:36-39 | the listing holds exactly the caller's topics; on the API server an absent caller lists none |
| `Topics.CheckTopic` | apps/api-server/src/controllers/topicController.ts:56-65 | 404 iff the topic is missing, then 403 iff the caller is not its owner, each with the operation's message |
| `Topics.GetTopic` | apps/api-server/src/controllers/topicController.ts:53-76 | a missing topic answers 404 with the not-found message; a caller who does not own the stored topic answers 403 with the access message; the owner gets the stored topic |
| `Topics.SubscribeResult` | apps/api-server/src/controllers/topicController.ts:83-103 | in order: topic 404, queue 404, not-owner 403, already-subscribed 400; otherwise the topic with the queue appended at the end |
| `Topics.SubscribeKeepsDistinct` | apps/api-server/src/controllers/topicController.ts:98-103 | a subscribe keeps the earlier entries in place, adds the queue once at the end, and never introduces a duplicate |
| `Topics.SubscribeTwiceRejected` | packages/queue-service/src/controllers/topicController.ts:98-103 | subscribing the same queue again is rejected with 400 |
| `Topics.Subscribe` | packages/queue-service/src/controllers/topicController.ts:83-103 | on success the topic is saved with the queue appended; any failed check saves nothing |
| `Topics.PublishCheck` | packages/queue-service/src/controllers/topicController.ts:123-135 | in order: 404 missing topic, 403 not owner, 400 "Topic has no subscribers"; otherwise an owned topic with subscribers |
| `Topics.SubscribedQueuesMembers` | apps/api-server/src/controllers/topicController.ts:137 | the publish targets are exactly the stored queues whose id is subscribed, each once |
| `Topics.Fanout` | apps/api-server/src/controllers/topicController.ts:139-157 | the publish creates one message per target queue; without data no message is created |
| `Topics.FanoutMessages` | packages/queue-service/src/controllers/topicController.ts:137-167 | each published message carries the same data and a fresh id, sits on its own queue, expires after that queue's retention days, and has the controller's flag (`received: false` or `visible: true`) and `receivedCount` 0 |
| `Topics.FanoutGrows` | apps/api-server/src/controllers/topicController.ts:140-152 | one more loop round appends that queue's message to the messages so far |
| `Topics.PushTargetsMembers` | apps/api-server/src/controllers/topicController.ts:154-156 | a publish pushes to exactly the target queues that have a push endpoint |
| `Topics.CreateOn` | apps/api-server/src/controllers/topicController.ts:141-150 | one loop round: the create of that queue's message, counted by the post-save hook on the API server |
| `Topics.DeliveredStep` | apps/api-server/src/controllers/topicController.ts:140-157 | a successful loop round keeps the loop state (messages so far, push targets, hook counts) |
| `Topics.DeliveredFails` | apps/api-server/src/controllers/topicController.ts:144-150 | only the first create can fail, and then nothing has been stored or counted |
| `Topics.Deliver` | apps/api-server/src/controllers/topicController.ts:139-157 | the loop stores exactly the fan-out messages in order, pushes to exactly the targets with a push endpoint, and runs the hooks once per message; a failure stores nothing |
| `Topics.Publish` | apps/api-server/src/controllers/topicController.ts:118-171 | a failed check returns its error and creates nothing; otherwise one message per still-existing subscribed queue, `results` equals their number, and the pushes and counters follow |
| `Topics.FanoutCoversSubscribers` | apps/api-server/src/controllers/topicController.ts:137-152 | every message lands on a subscribed queue that exists, each such queue gets one, and no queue gets two |
| `Topics.PublishCountsEachQueue` | apps/api-server/src/controllers/topicController.ts:144-150 | on the API server a publish adds 1 to `messageCount` and `messagesSent` of every queue it reaches |
| `Topics.DeleteTopic` | apps/api-server/src/controllers/topicController.ts:173-197 | 404 naming the id, then 403; otherwise only that topic is removed; a failed check removes nothing |
| `Dashboard.ServerStatsOf` | queue-service/src/controllers/dashboardController.ts:21-23 | the server stats count queues, messages and visible messages, and active never exceeds total |
| `Dashboard.OfQueue` | queue-service/src/controllers/dashboardController.ts:66 | the queue's records number exactly its message count |
| `Dashboard.OfQueueMembers` | queue-service/src/controllers/dashboardController.ts:69 | `find({ queueId })` answers exactly the records of that queue |
| `Dashboard.EarliestCreated` | queue-service/src/controllers/dashboardController.ts:68 | the oldest visible message's creation time is one of theirs and no later than any |
| `Dashboard.LatestCreated` | queue-service/src/controllers/dashboardController.ts:69 | the newest message's creation time is one of theirs and no earlier than any |
| `Dashboard.VisibleWithinQueue` | queue-service/src/controllers/dashboardController.ts:66-67 | a queue's visible messages number at most its messages and at most the server's visible messages |
| `Dashboard.ActiveWithinTotal` | queue-service/src/controllers/dashboardController.ts:66-67 | per-queue `activeMessages` never exceeds `totalMessages` or the server's `activeMessages` |
| `Dashboard.EmptyQueueStats` | queue-service/src/controllers/dashboardController.ts:66-79 | a queue without messages shows 0 for both counts and both ages |
| `Dashboard.AgesOrdered` | queue-service/src/controllers/dashboardController.ts:68-79 | while a visible message exists, the newest age is no larger than the oldest age |
| `Dashboard.ReceiveLowersActive` | queue-service/src/controllers/dashboardController.ts:66-67 | after a queue-service receive, `activeMessages` drops by the number received and `totalMessages` stays |
| `Dashboard.TenSentThreeReceived` | queue-service/src/tests/integration/dashboard.test.ts:222-228 | ten visible messages and a receive of three: total 10, active 7 |
| `Dashboard.SendRaisesBoth` | queue-service/src/controllers/dashboardController.ts:66-67 | a new visible message raises both the queue's total and active counts by one |
| `Dashboard.MetricsAccess` | queue-service/src/controllers/dashboardController.ts:45-53 | 404 iff the queue is missing; 403 when the requester (caller or `'anonymous'`) is not the owner; an owner always passes |
| `Dashboard.MetricsAccessStricter` | queue-service/src/controllers/dashboardController.ts:50-53 | compared with the API server's `getQueue` check (apps/api-server/src/controllers/queueController.ts, lines 74-81): whoever may read a queue's metrics may read the queue there, and for a present caller the two checks agree |
| `Dashboard.GetServerMetrics` | queue-service/src/controllers/dashboardController.ts:7-39 | the server record is created all-zero only when none exists, otherwise returned unchanged; stats as `ServerStatsOf` |
| `Dashboard.GetQueueMetrics` | queue-service/src/controllers/dashboardController.ts:41-86 | a failed check returns its error and creates nothing; otherwise the counter record (created all-zero when missing) and the queue stats at `now` |
| `Dashboard.GetAllQueueMetrics` | queue-service/src/controllers/dashboardController.ts:88-107 | exactly the existing counter records of queues the requester owns, unchanged, and `results` equals their number |
| `Dashboard.OwnedIdsBound` | queue-service/src/controllers/dashboardController.ts:92-93 | the owned ids are no more than the queues |
| `Dashboard.AllMetricsBounded` | queue-service/src/controllers/dashboardController.ts:95-99 | `results` never exceeds the number of owned queues, nor the number of queues |
| `Dashboard.ReadQueueThenListed` | queue-service/src/controllers/dashboardController.ts:55-64 | once the requester has read a queue's metrics, that queue's record is in the requester's listing |
| `Notifications.ParseStatus` | apps/notification-server/src/models/Notification.ts:52-57 | the enum validator accepts a string only when it names one of the four states |
| `Notifications.StatusRoundTrip` | apps/notification-server/src/models/Notification.ts:52-57 | every state's name is accepted and read back as that state |
| `Notifications.NewNotification` | apps/notification-server/src/models/Notification.ts:27-66 | create succeeds iff event, documentId, collection and operationType are non-empty and the status is in the enum; defaults are an empty payload, `pending` and 0 attempts; both timestamps are `now` |
| `Notifications.RequiredFields` | apps/notification-server/src/models/Notification.ts:29-47 | a create without any of the four required fields is rejected on all four |
| `Notifications.Defaults` | apps/notification-server/src/models/Notification.ts:52-61 | a create without status or attempts yields a `pending` record with 0 attempts |
| `Notifications.NotificationDocument` | apps/notification-server/src/models/Notification.ts:27-66 | the stored document has exactly the schema fields plus the optional error and processedAt when set |
| `Notifications.NotificationJson` | apps/notification-server/src/models/Notification.ts:74-81 | the JSON view exposes `id`, hides `_id` and `__v`, and keeps every other field |
| `Notifications.LatestIn` | apps/notification-server/src/services/ChangeStreamService.ts:79-83 | the latest notification of a collection is a record of it created no earlier than any other of it; none when it has no records |
| `Notifications.LatestAfterAppend` | apps/notification-server/src/services/ChangeStreamService.ts:79-83 | a record created no earlier than the others of its collection becomes that collection's latest |
| `Notifications.Update` | apps/notification-server/src/services/ChangeStreamService.ts:172-175 | `findByIdAndUpdate` changes status and error of that record alone; attempts, payload and creation time are untouched |
| `Notifications.UpdateLast` | apps/notification-server/src/services/ChangeStreamService.ts:172-175 | updating the record just added changes that record alone |
| `Notifications.NotificationStore.Create` | apps/notification-server/src/services/ChangeStreamService.ts:127-139 | `Notification.create`: the validated record is appended under a fresh id; a failed validation stores nothing |
| `Notifications.NotificationStore.FindByIdAndUpdate` | apps/notification-server/src/services/ChangeStreamService.ts:172-175 | the collection becomes `Update` of the old one |
| `ChangeStreams.DetermineEventType` | apps/notification-server/src/services/ChangeStreamService.ts:179-190 | the classification always yields a non-empty event name |
| `ChangeStreams.EventFallback` | apps/notification-server/src/services/ChangeStreamService.ts:189 | any pair without a name of its own maps to "collection.operation"; (queues, delete) gives `queues.delete` |
| `ChangeStreams.EventMarker` | apps/notification-server/src/services/ChangeStreamService.ts:179-189 | for a watched collection, a named event has the verb's initial after the collection's length and a fallback has the dot and then the operation |
| `ChangeStreams.EventIdentifiesChange` | apps/notification-server/src/services/ChangeStreamService.ts:179-190 | on the watched collections, equal event names mean equal collection and operation |
| `ChangeStreams.DeletionsRoutes` | apps/notification-server/src/services/ChangeStreamService.ts:155-169 | message deletions reach the message branch but neither case; queue deletions reach no branch; inserts and queue updates reach theirs |
| `ChangeStreams.ChangeNotification` | apps/notification-server/src/services/ChangeStreamService.ts:120-139 | a change with token and document key yields one notification with the classified event, documentId, collection, operationType, the payload with the token's data, `completed` and `processedAt` = `now`; without them, none |
| `ChangeStreams.Processed` | apps/notification-server/src/services/ChangeStreamService.ts:170-176 | a processing failure sets `failed` with the error text; attempts, payload and creation time are untouched |
| `ChangeStreams.ResumeFromStoredToken` | apps/notification-server/src/services/ChangeStreamService.ts:79-93 | without an in-memory token, the corrected choice resumes from the token of the collection's latest notification, the change's own |
| `ChangeStreams.ResumeAsWrittenLosesToken` | apps/notification-server/src/services/ChangeStreamService.ts:85-88 | as written, the fallback yields a token without data instead of the change's token |
| `ChangeStreams.ResumeAsWrittenExample` | apps/notification-server/src/services/ChangeStreamService.ts:87 | concrete case: token "abc" stored, the corrected choice resumes from "abc", the written one from a token without data |
| `ChangeStreams.Opening` | apps/notification-server/src/services/ChangeStreamService.ts:68-72 | the streams opened by `watchCollections` go to the watched collections in order under consecutive serials |
| `ChangeStreams.RegisterWatched` | apps/notification-server/src/services/ChangeStreamService.ts:104 | registering the two streams sets the registry entry of each collection |
| `ChangeStreams.ChangeStreamService.constructor` | apps/notification-server/src/services/ChangeStreamService.ts:45-54 | a new service has no streams, no tokens and is not initialized |
| `ChangeStreams.ChangeStreamService.WatchCollection` | apps/notification-server/src/services/ChangeStreamService.ts:74-111 | opens one stream on the collection with the configured options and registers it under the collection; `resumeAfter` is the in-memory token or else the token in the payload of the collection's latest notification (the corrected choice of the finding below, not the top-level read of line 87), and absent when there is neither |
| `ChangeStreams.ChangeStreamService.Initialize` | apps/notification-server/src/services/ChangeStreamService.ts:56-66 | idempotent when already initialized; otherwise watches `messages` then `queues`, each resuming by the corrected choice, and only then sets `isInitialized` |
| `ChangeStreams.ChangeStreamService.ProcessNotification` | apps/notification-server/src/services/ChangeStreamService.ts:150-177 | a failure marks that notification failed with the error text; otherwise nothing changes |
| `ChangeStreams.ChangeStreamService.HandleChange` | apps/notification-server/src/services/ChangeStreamService.ts:113-148 | the change's token becomes the collection's resume token first; then at most one notification is added, processed; streams are untouched |
| `ChangeStreams.ChangeStreamService.RestartStream` | apps/notification-server/src/services/ChangeStreamService.ts:192-204 | closes only that collection's stream, if any, then watches it again, resuming by the corrected choice |
| `ChangeStreams.ChangeStreamService.Close` | apps/notification-server/src/services/ChangeStreamService.ts:206-223 | closes every registered stream, empties the registry, resets `isInitialized`, keeps the resume tokens |

## Left out

- HTTP and plumbing are not modelled: Express routing, the express-validator bounds, the error handler, JWT authentication and password hashing. The caller is an optional owner id.
- I/O is not modelled either: logging, the React clients, and DB connect and disconnect.
- socket.io emits are network I/O. Each is kept only as the `pushed` flag or list a send or publish returns.
- Mongo's concurrency is out of reach of a sequential model. A receive does find-then-update, and two concurrent receivers could take the same message. The model states "no double delivery" only for calls made one after another.
- Visibility-timeout reversion and an expiry reaper are left out because no file in the system implements them. `expiresAt`, `visibleAt` and `receivedAt` are only stored.
- Query values are taken as already-parsed integers. `Number(...)` and `parseInt` of malformed values, NaN included, are not modelled.
- A malformed id is not modelled: it would throw a cast error in `findById`. Ids are naturals the stores allocate.
- Date arithmetic is in whole days and seconds on an integer clock. Daylight-saving shifts are not modelled.
- `createdAt` and `updatedAt` of topics are not modelled, because nothing in the core reads them. Queues, messages and notifications keep theirs. A queue's `updatedAt` stays at its creation time, because nothing in the core updates a queue.
- The API server's receive computes a `receivedAt` from the visibility timeout but never stores it. `updateReceivedMessages` stamps `now`, and the timeout is only echoed. The model does the same.
- The packaged server's schema declares `visible`/`visibleAt`, but its controller creates, queries and writes `received`/`receivedAt`. The model gives that server's records the `received` shape the controller uses. It does not model Mongoose's strict mode dropping fields the schema lacks.
- The queue service's own Queue and Message models are not part of this model. Its records are given the `visible`/`visibleAt` shape with no hooks, as its controller writes them.
- The packaged queue service's topic controller is modelled through the `Topics.Variant` parameter. That controller has no `deleteTopic`.
- The `Topic` schema file is not part of this model. Topic validation is a required, trimmed name and a required owner.
- `avgWaitTime` is created at 0 and never changed, because no shown code writes it.
- `getAllQueueMetrics` returns the records as a map keyed by queue id. The order in which `QueueMetrics.find` returns them is not modelled.
- `Dashboard.LatestCreated` and `Dashboard.EarliestCreated` model only the creation time the sorted `findOne` picks, which is all the ages use. Which of several records with equal `createdAt` comes first is not modelled.
- Notifications.LatestIn: when several notifications of a collection share the latest `createdAt`, Mongo leaves unspecified which one `findOne` with `sort({ createdAt: -1 })` returns. The contract promises only some record with the latest `createdAt`.
- Change streams are records of `watch` calls kept in a log, with their options. The driver, the `'change'` and `'error'` event wiring, and the stream contents are not modelled.
- ChangeStreams.ChangeStreamService.WatchCollection: with no token in memory, it resumes from the token in the payload of the collection's latest notification. The service as written reads a top-level `resumeToken` at line 87 and resumes after a token without data. The class follows the corrected choice; `ChangeStreams.ResumePointAsWritten` and `ChangeStreams.ResumeAsWrittenLosesToken` model the code as written (see Findings).
- ChangeStreams.ChangeStreamService.Initialize: it opens its streams through `WatchCollection`, so it also resumes by the corrected choice, not the as-written read.
- ChangeStreams.ChangeStreamService.RestartStream: it re-watches through `WatchCollection`, so it also resumes by the corrected choice, not the as-written read.
- The retry timers in `watchCollection` (5 s) and `restartStream` (1 s) are not modelled. `RestartStream` re-watches at once. A `watch` that throws is not modelled.
- `close` awaits all stream closes concurrently and swallows close errors. The model closes them one by one, in an unspecified order, without errors.
- `processNotification`'s branches only log. A thrown error enters as the `processingError` parameter.
- Notification retries and `attempts` increments are left out because nothing in the system implements them.
- Graceful shutdown of the notification server, with its hard timeout, is not modelled.
- Configuration comes from environment variables, which are not modelled. The defaults are used: a 14-day retention period, a 30 s visibility timeout, and change-stream options of batch size 100, `updateLookup` and 1000 ms.
- `Topics.Fanout`: its own contract states only that the publish succeeds and the number of messages. The contents of each message are stated by the lemma `Topics.FanoutMessages`.

## Findings

| source | as written | input that shows it | evidently intended | confidence | as-written member | corrected member |
|---|---|---|---|---|---|---|
| apps/notification-server/src/services/ChangeStreamService.ts:87 | with no token in memory, the resume token is read as `lastNotification.get('resumeToken')`, a top-level path no notification has; `handleChange` stores it as `payload.resumeToken` (line 135), so the fallback token is `{ _data: undefined }` | a fresh service, after one insert on `messages` was recorded with token "abc": `watchCollection('messages')` resumes after a token without data instead of "abc" | resume after the token stored in the latest notification's payload | not executed | `ChangeStreams.ResumeAsWrittenLosesToken` | `ChangeStreams.ResumeFromStoredToken` |
