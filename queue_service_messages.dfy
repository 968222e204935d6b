/**
 * The queue service's message controller. Its records carry the
 * `visible`/`visibleAt` delivery fields; the controller itself moves the
 * queue's counters with `$inc` updates that never create a counter record.
 */
module QueueServiceMessages {
  import opened Common
  import opened QueueModel
  import opened Queues
  import opened MessageModel
  import opened Messages
  import opened Metrics

  /** Visible/visibleAt records, no expiry hook. */
  const QueueServiceSchema := Schema(VisibilityShape, false)

  /** The state a receive gives the records it takes: invisible until `visibleAt`. */
  function Hidden(now: Time, visibilityTimeout: int): (d: Delivery)
    ensures !Accepts(VisibleTrue, d)
    ensures d.Visibility? && d.visibleAt == Some(AddSeconds(now, visibilityTimeout))
  {
    Visibility(false, Some(AddSeconds(now, visibilityTimeout)))
  }

  /**
   * `sendMessage`: a missing queue is a 404 that creates nothing and counts
   * nothing. Otherwise the record, visible and never received, expires the
   * queue's retention period after `now`; the queue's `messageCount` and
   * `messagesSent` go up by one (when its counter record exists), and the
   * message is pushed when the queue has a push endpoint.
   */
  method SendMessage(queues: QueueStore, store: MessageStore, metrics: MetricsStore, q: Id, data: Option<Data>, now: Time)
    returns (r: Result<Message>, pushed: bool)
    requires store.Valid()
    modifies store, metrics
    ensures store.Valid()
    ensures QueueById(queues.queues, q).None? ==>
      r == Err(AppError(404, QueueNotFound)) && !pushed
      && store.messages == old(store.messages) && metrics.perQueue == old(metrics.perQueue)
    ensures QueueById(queues.queues, q).Some? ==>
      var queue := QueueById(queues.queues, q).value;
      && r == NewRecord(QueueServiceSchema, old(store.nextId), now, data, Some(q), Some(AddDays(now, queue.retentionPeriod)), Some(true), Some(0))
      && (r.Ok? ==> && store.messages == old(store.messages) + [r.value]
                    && r.value.delivery == Visibility(true, None) && r.value.receivedCount == 0
                    && r.value.expiresAt == AddDays(now, queue.retentionPeriod)
                    && metrics.perQueue == Inc(old(metrics.perQueue), q, SendDelta, false)
                    && pushed == Truthy(queue.pushEndpoint))
      && (r.Err? ==> store.messages == old(store.messages) && metrics.perQueue == old(metrics.perQueue) && !pushed)
    ensures metrics.server == old(metrics.server)
  {
    var queue := QueueById(queues.queues, q);
    if queue.None? {
      return Err(AppError(404, QueueNotFound)), false;
    }
    var expiresAt := AddDays(now, queue.value.retentionPeriod);
    r := store.Create(QueueServiceSchema, now, data, Some(q), Some(expiresAt), Some(true), Some(0));
    pushed := false;
    if r.Ok? {
      metrics.Increment(q, SendDelta, false);
      pushed := Truthy(queue.value.pushEndpoint);
    }
  }

  /**
   * `receiveMessages`: up to `maxMessages` (default 10) visible records of the
   * queue, in collection order. An empty selection answers an empty reply
   * and changes nothing. Otherwise every selected record becomes invisible
   * until `now` plus the visibility timeout (default 30 s) and counts one
   * more receive, the queue's `messagesReceived` goes up by the number
   * taken, and the reply holds the records as found and the timeout.
   */
  method ReceiveMessages(
    queues: QueueStore, store: MessageStore, metrics: MetricsStore, q: Id,
    maxMessages: Option<int>, visibilityTimeout: Option<int>, now: Time)
    returns (r: Result<ReceiveReply>)
    requires store.Valid()
    modifies store, metrics
    ensures store.Valid() && store.nextId == old(store.nextId)
    ensures QueueById(queues.queues, q).None? ==>
      r == Err(AppError(404, QueueNotFound))
      && store.messages == old(store.messages) && metrics.perQueue == old(metrics.perQueue)
    ensures QueueById(queues.queues, q).Some? ==>
      var sel := Select(old(store.messages), q, VisibleTrue, maxMessages.GetOr(DefaultMaxMessages));
      var timeout := visibilityTimeout.GetOr(DefaultVisibilityTimeout);
      && r.Ok? && r.value.messages == sel && r.value.results == |sel|
      && (sel == [] ==> r.value == EmptyReply
                        && store.messages == old(store.messages) && metrics.perQueue == old(metrics.perQueue))
      && (sel != [] ==> && r.value.visibilityTimeout == Some(timeout)
                        && store.messages == UpdateAll(old(store.messages), IdSet(sel), Hidden(now, timeout), now)
                        && metrics.perQueue == Inc(old(metrics.perQueue), q, ReceiveDelta(|sel|), false))
    ensures metrics.server == old(metrics.server)
  {
    if QueueById(queues.queues, q).None? {
      return Err(AppError(404, QueueNotFound));
    }
    var timeout := visibilityTimeout.GetOr(DefaultVisibilityTimeout);
    var sel := store.Find(q, VisibleTrue, maxMessages.GetOr(DefaultMaxMessages));
    if |sel| == 0 {
      return Ok(EmptyReply);
    }
    var _ := store.UpdateMany(IdSet(sel), Hidden(now, timeout), now);
    metrics.Increment(q, ReceiveDelta(|sel|), false);
    r := Ok(ReceiveReply(|sel|, sel, Some(timeout)));
  }

  /**
   * `deleteMessage`: a missing queue, then a message that is not in that
   * queue, is a 404 that changes nothing. Otherwise exactly that record goes
   * and the queue's `messageCount` goes down by one.
   */
  method DeleteMessage(queues: QueueStore, store: MessageStore, metrics: MetricsStore, q: Id, id: Id)
    returns (r: Result<Message>)
    requires store.Valid()
    modifies store, metrics
    ensures store.Valid() && store.nextId == old(store.nextId)
    ensures QueueById(queues.queues, q).None? ==> r == Err(AppError(404, QueueNotFound))
    ensures QueueById(queues.queues, q).Some? && r.Err? ==>
      r == Err(AppError(404, MessageNotFound)) && forall m :: m in old(store.messages) ==> !(m.id == id && m.queueId == q)
    ensures r.Err? ==> store.messages == old(store.messages) && metrics.perQueue == old(metrics.perQueue)
    ensures r.Ok? ==> && QueueById(queues.queues, q).Some?
                      && r.value in old(store.messages) && r.value.id == id && r.value.queueId == q
                      && store.messages == Remove(old(store.messages), id)
                      && |store.messages| == |old(store.messages)| - 1
                      && metrics.perQueue == Inc(old(metrics.perQueue), q, DeleteDelta, false)
    ensures metrics.server == old(metrics.server)
  {
    if QueueById(queues.queues, q).None? {
      return Err(AppError(404, QueueNotFound));
    }
    var found := store.FindOne(id, q);
    if found.None? {
      return Err(AppError(404, MessageNotFound));
    }
    RemoveOne(store.messages, id);
    var _ := store.DeleteById(id);
    metrics.Increment(q, DeleteDelta, false);
    r := Ok(found.value);
  }

  /** `getMessage`: the record with that id in that queue, or a 404; nothing changes. */
  method GetMessage(store: MessageStore, q: Id, id: Id) returns (r: Result<Message>)
    ensures r.Ok? ==> r.value in store.messages && r.value.id == id && r.value.queueId == q
    ensures r.Err? ==> r == Err(AppError(404, MessageNotFound))
                       && forall m :: m in store.messages ==> !(m.id == id && m.queueId == q)
  {
    var found := store.FindOne(id, q);
    if found.None? {
      return Err(AppError(404, MessageNotFound));
    }
    r := Ok(found.value);
  }
}
