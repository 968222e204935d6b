/**
 * The API server's message controller. Its records carry the
 * `received`/`receivedAt` delivery fields, and the counters move only
 * through the message model's hooks and its `updateReceivedMessages`.
 */
module ApiServerMessages {
  import opened Common
  import opened QueueModel
  import opened Queues
  import opened MessageModel
  import opened Messages
  import opened Metrics
  import opened MessageHooks

  /** Received/receivedAt records, no expiry hook. */
  const ApiServerSchema := Schema(ReceiptShape, false)

  /**
   * `sendMessage`: a missing queue is a 404 that creates nothing. Otherwise
   * the record, not received and never received before, expires the queue's
   * retention period after `now`; the post-save hook counts it as sent on
   * its queue, and the message is pushed when the queue has a push endpoint.
   */
  method SendMessage(queues: QueueStore, store: MessageStore, metrics: MetricsStore, q: Id, data: Option<Data>, now: Time)
    returns (r: Result<Message>, pushed: bool)
    requires store.Valid()
    modifies store, metrics
    ensures store.Valid()
    ensures QueueById(queues.queues, q).None? ==>
      r == Err(AppError(404, QueueNotFound)) && !pushed
      && store.messages == old(store.messages) && metrics.perQueue == old(metrics.perQueue)
    ensures QueueById(queues.queues, q).Some? ==>
      var queue := QueueById(queues.queues, q).value;
      && r == NewRecord(ApiServerSchema, old(store.nextId), now, data, Some(q), Some(AddDays(now, queue.retentionPeriod)), Some(false), Some(0))
      && (r.Ok? ==> && store.messages == old(store.messages) + [r.value]
                    && r.value.delivery == Receipt(false, None) && r.value.receivedCount == 0
                    && r.value.expiresAt == AddDays(now, queue.retentionPeriod)
                    && metrics.perQueue == old(metrics.perQueue)[q := Apply(CountersOf(old(metrics.perQueue), q), SendDelta)]
                    && pushed == Truthy(queue.pushEndpoint))
      && (r.Err? ==> store.messages == old(store.messages) && metrics.perQueue == old(metrics.perQueue) && !pushed)
    ensures metrics.server == old(metrics.server)
  {
    var queue := QueueById(queues.queues, q);
    if queue.None? {
      return Err(AppError(404, QueueNotFound)), false;
    }
    var expiresAt := AddDays(now, queue.value.retentionPeriod);
    r := CreateHooked(store, metrics, ApiServerSchema, now, data, Some(q), Some(expiresAt), Some(false), Some(0));
    pushed := false;
    if r.Ok? {
      pushed := Truthy(queue.value.pushEndpoint);
    }
  }

  /**
   * `receiveMessages`: up to `maxMessages` (default 10) records of the queue
   * not yet received, in collection order. An empty selection answers an
   * empty reply and changes nothing. Otherwise every selected record is
   * marked received at `now` and counts one more receive, the queue's
   * `messagesReceived` goes up by the number taken (creating its counter
   * record if needed), and the reply holds the records as found and the
   * visibility timeout (default 30 s), which is echoed but not stored.
   */
  method ReceiveMessages(
    queues: QueueStore, store: MessageStore, metrics: MetricsStore, q: Id,
    maxMessages: Option<int>, visibilityTimeout: Option<int>, now: Time)
    returns (r: Result<ReceiveReply>)
    requires store.Valid()
    modifies store, metrics
    ensures store.Valid() && store.nextId == old(store.nextId)
    ensures QueueById(queues.queues, q).None? ==>
      r == Err(AppError(404, QueueNotFound))
      && store.messages == old(store.messages) && metrics.perQueue == old(metrics.perQueue)
    ensures QueueById(queues.queues, q).Some? ==>
      var sel := Select(old(store.messages), q, ReceivedFalse, maxMessages.GetOr(DefaultMaxMessages));
      && r.Ok? && r.value.messages == sel && r.value.results == |sel|
      && (sel == [] ==> r.value == EmptyReply
                        && store.messages == old(store.messages) && metrics.perQueue == old(metrics.perQueue))
      && (sel != [] ==> && r.value.visibilityTimeout == Some(visibilityTimeout.GetOr(DefaultVisibilityTimeout))
                        && store.messages == UpdateAll(old(store.messages), IdSet(sel), Receipt(true, Some(now)), now)
                        && metrics.perQueue == Inc(old(metrics.perQueue), q, ReceiveDelta(|sel|), true))
    ensures metrics.server == old(metrics.server)
  {
    if QueueById(queues.queues, q).None? {
      return Err(AppError(404, QueueNotFound));
    }
    var timeout := visibilityTimeout.GetOr(DefaultVisibilityTimeout);
    var sel := store.Find(q, ReceivedFalse, maxMessages.GetOr(DefaultMaxMessages));
    if |sel| == 0 {
      return Ok(EmptyReply);
    }
    CountPrefix(store.messages, q, ReceivedFalse, |sel|);
    var _ := UpdateReceivedMessages(store, metrics, IdSet(sel), q, now);
    r := Ok(ReceiveReply(|sel|, sel, Some(timeout)));
  }

  /**
   * `deleteMessage`: a missing queue, then a message that is not in that
   * queue, is a 404 that changes nothing. Otherwise exactly that record goes
   * and the post-delete hook takes one off its queue's `messageCount`.
   */
  method DeleteMessage(queues: QueueStore, store: MessageStore, metrics: MetricsStore, q: Id, id: Id)
    returns (r: Result<Message>)
    requires store.Valid()
    modifies store, metrics
    ensures store.Valid() && store.nextId == old(store.nextId)
    ensures QueueById(queues.queues, q).None? ==> r == Err(AppError(404, QueueNotFound))
    ensures QueueById(queues.queues, q).Some? && r.Err? ==>
      r == Err(AppError(404, MessageNotFound)) && forall m :: m in old(store.messages) ==> !(m.id == id && m.queueId == q)
    ensures r.Err? ==> store.messages == old(store.messages) && metrics.perQueue == old(metrics.perQueue)
    ensures r.Ok? ==> && QueueById(queues.queues, q).Some?
                      && r.value in old(store.messages) && r.value.id == id && r.value.queueId == q
                      && store.messages == Remove(old(store.messages), id)
                      && |store.messages| == |old(store.messages)| - 1
                      && metrics.perQueue == AfterDelete(old(metrics.perQueue), Some(r.value))
    ensures metrics.server == old(metrics.server)
  {
    if QueueById(queues.queues, q).None? {
      return Err(AppError(404, QueueNotFound));
    }
    var found := store.FindOne(id, q);
    if found.None? {
      return Err(AppError(404, MessageNotFound));
    }
    LookupFinds(store.messages, found.value);
    RemoveOne(store.messages, id);
    var deleted := FindByIdAndDelete(store, metrics, id);
    r := Ok(found.value);
  }

  /** `getMessage`: the record with that id in that queue, or a 404; nothing changes. */
  method GetMessage(store: MessageStore, q: Id, id: Id) returns (r: Result<Message>)
    ensures r.Ok? ==> r.value in store.messages && r.value.id == id && r.value.queueId == q
    ensures r.Err? ==> r == Err(AppError(404, MessageNotFound))
                       && forall m :: m in store.messages ==> !(m.id == id && m.queueId == q)
  {
    var found := store.FindOne(id, q);
    if found.None? {
      return Err(AppError(404, MessageNotFound));
    }
    r := Ok(found.value);
  }

  /**
   * A received record is never handed out again: after a receive, the
   * records still available are exactly those it did not take.
   */
  lemma ReceivedNotRedelivered(ms: seq<Message>, q: Id, n: int, now: Time)
    requires IdsIncrease(ms)
    ensures var sel := Select(ms, q, ReceivedFalse, n);
      Matching(UpdateAll(ms, IdSet(sel), Receipt(true, Some(now)), now), q, ReceivedFalse) == Matching(ms, q, ReceivedFalse)[|sel|..]
  {
    ReceiveContinues(ms, q, ReceivedFalse, n, Receipt(true, Some(now)), now);
  }
}
