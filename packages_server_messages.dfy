/**
 * The packaged server's message controller. Its schema's pre-save hook
 * gives every new record the default retention period, and its receive
 * writes `received: false` back, so a received record stays available.
 * This controller keeps no counters.
 */
module PackagedServerMessages {
  import opened Common
  import opened QueueModel
  import opened Queues
  import opened MessageModel
  import opened Messages

  /** Received/receivedAt records whose expiry the pre-save hook sets. */
  const PackagedSchema := Schema(ReceiptShape, true)

  /** What a receive writes back: still not received, `receivedAt` pushed out by the timeout. */
  function Redelivery(now: Time, visibilityTimeout: int): (d: Delivery)
    ensures Accepts(ReceivedFalse, d)
    ensures d.Receipt? && d.receivedAt == Some(AddSeconds(now, visibilityTimeout))
  {
    Receipt(false, Some(AddSeconds(now, visibilityTimeout)))
  }

  /**
   * `sendMessage`: a missing queue is a 404 that creates nothing. Otherwise
   * the record is stored not received, and it expires the default retention
   * period after `now` whatever the queue's own retention period; it is
   * pushed when the queue has a push endpoint.
   */
  method SendMessage(queues: QueueStore, store: MessageStore, q: Id, data: Option<Data>, now: Time)
    returns (r: Result<Message>, pushed: bool)
    requires store.Valid()
    modifies store
    ensures store.Valid()
    ensures QueueById(queues.queues, q).None? ==>
      r == Err(AppError(404, QueueNotFound)) && !pushed && store.messages == old(store.messages)
    ensures QueueById(queues.queues, q).Some? ==>
      var queue := QueueById(queues.queues, q).value;
      && r == NewRecord(PackagedSchema, old(store.nextId), now, data, Some(q), Some(AddDays(now, queue.retentionPeriod)), Some(false), Some(0))
      && (r.Ok? ==> && store.messages == old(store.messages) + [r.value]
                    && r.value.delivery == Receipt(false, None) && r.value.receivedCount == 0
                    && r.value.expiresAt == AddDays(now, DefaultRetentionPeriod)
                    && pushed == Truthy(queue.pushEndpoint))
      && (r.Err? ==> store.messages == old(store.messages) && !pushed)
  {
    var queue := QueueById(queues.queues, q);
    if queue.None? {
      return Err(AppError(404, QueueNotFound)), false;
    }
    var expiresAt := AddDays(now, queue.value.retentionPeriod);
    r := store.Create(PackagedSchema, now, data, Some(q), Some(expiresAt), Some(false), Some(0));
    pushed := false;
    if r.Ok? {
      pushed := Truthy(queue.value.pushEndpoint);
    }
  }

  /**
   * `receiveMessages`: up to `maxMessages` (default 10) records of the queue
   * not received, in collection order. An empty selection answers an empty
   * reply and changes nothing. Otherwise every selected record keeps
   * `received` false, gets `receivedAt` the visibility timeout (default
   * 30 s) after `now`, and counts one more receive; the reply holds the
   * records as found and the timeout.
   */
  method ReceiveMessages(
    queues: QueueStore, store: MessageStore, q: Id,
    maxMessages: Option<int>, visibilityTimeout: Option<int>, now: Time)
    returns (r: Result<ReceiveReply>)
    requires store.Valid()
    modifies store
    ensures store.Valid() && store.nextId == old(store.nextId)
    ensures QueueById(queues.queues, q).None? ==>
      r == Err(AppError(404, QueueNotFound)) && store.messages == old(store.messages)
    ensures QueueById(queues.queues, q).Some? ==>
      var sel := Select(old(store.messages), q, ReceivedFalse, maxMessages.GetOr(DefaultMaxMessages));
      var timeout := visibilityTimeout.GetOr(DefaultVisibilityTimeout);
      && r.Ok? && r.value.messages == sel && r.value.results == |sel|
      && (sel == [] ==> r.value == EmptyReply && store.messages == old(store.messages))
      && (sel != [] ==> && r.value.visibilityTimeout == Some(timeout)
                        && store.messages == UpdateAll(old(store.messages), IdSet(sel), Redelivery(now, timeout), now))
  {
    if QueueById(queues.queues, q).None? {
      return Err(AppError(404, QueueNotFound));
    }
    var timeout := visibilityTimeout.GetOr(DefaultVisibilityTimeout);
    var sel := store.Find(q, ReceivedFalse, maxMessages.GetOr(DefaultMaxMessages));
    if |sel| == 0 {
      return Ok(EmptyReply);
    }
    var _ := store.UpdateMany(IdSet(sel), Redelivery(now, timeout), now);
    r := Ok(ReceiveReply(|sel|, sel, Some(timeout)));
  }

  /**
   * `deleteMessage`: a missing queue, then a message that is not in that
   * queue, is a 404 that changes nothing. Otherwise exactly that record goes.
   */
  method DeleteMessage(queues: QueueStore, store: MessageStore, q: Id, id: Id)
    returns (r: Result<Message>)
    requires store.Valid()
    modifies store
    ensures store.Valid() && store.nextId == old(store.nextId)
    ensures QueueById(queues.queues, q).None? ==> r == Err(AppError(404, QueueNotFound))
    ensures QueueById(queues.queues, q).Some? && r.Err? ==>
      r == Err(AppError(404, MessageNotFound)) && forall m :: m in old(store.messages) ==> !(m.id == id && m.queueId == q)
    ensures r.Err? ==> store.messages == old(store.messages)
    ensures r.Ok? ==> && QueueById(queues.queues, q).Some?
                      && r.value in old(store.messages) && r.value.id == id && r.value.queueId == q
                      && store.messages == Remove(old(store.messages), id)
                      && |store.messages| == |old(store.messages)| - 1
  {
    if QueueById(queues.queues, q).None? {
      return Err(AppError(404, QueueNotFound));
    }
    var found := store.FindOne(id, q);
    if found.None? {
      return Err(AppError(404, MessageNotFound));
    }
    RemoveOne(store.messages, id);
    var _ := store.DeleteById(id);
    r := Ok(found.value);
  }

  /** `getMessage`: the record with that id in that queue, or a 404; nothing changes. */
  method GetMessage(store: MessageStore, q: Id, id: Id) returns (r: Result<Message>)
    ensures r.Ok? ==> r.value in store.messages && r.value.id == id && r.value.queueId == q
    ensures r.Err? ==> r == Err(AppError(404, MessageNotFound))
                       && forall m :: m in store.messages ==> !(m.id == id && m.queueId == q)
  {
    var found := store.FindOne(id, q);
    if found.None? {
      return Err(AppError(404, MessageNotFound));
    }
    r := Ok(found.value);
  }

  /** In a collection without repeated ids, a stored record whose id was selected is one of the selected records. */
  lemma SelectedIdsAvailable(ms: seq<Message>, q: Id, f: Filter, n: int)
    requires IdsIncrease(ms)
    ensures forall m :: m in ms && m.id in IdSet(Select(ms, q, f, n)) ==> Available(m, q, f)
  {
    var sel := Select(ms, q, f, n);
    forall m | m in ms && m.id in IdSet(sel) ensures Available(m, q, f) {
      var k :| 0 <= k < |sel| && sel[k].id == m.id;
      assert sel[k] in sel;
      var i :| 0 <= i < |ms| && ms[i] == m;
      var j :| 0 <= j < |ms| && ms[j] == sel[k];
      assert i == j;
    }
  }

  /**
   * Because a receive writes `received: false` back, it hides nothing: a
   * second receive with any limit answers the same records again, in the
   * same order.
   */
  lemma ReceiveRedelivers(ms: seq<Message>, q: Id, n1: int, n2: int, d: Delivery, now: Time)
    requires IdsIncrease(ms)
    requires Accepts(ReceivedFalse, d)
    ensures var first := Select(ms, q, ReceivedFalse, n1);
      Ids(Select(UpdateAll(ms, IdSet(first), d, now), q, ReceivedFalse, n2)) == Ids(Select(ms, q, ReceivedFalse, n2))
  {
    var first := Select(ms, q, ReceivedFalse, n1);
    var after := UpdateAll(ms, IdSet(first), d, now);
    SelectedIdsAvailable(ms, q, ReceivedFalse, n1);
    KeepSelected(ms, q, ReceivedFalse, IdSet(first), d, now);
    var a := Matching(after, q, ReceivedFalse);
    var b := Matching(ms, q, ReceivedFalse);
    assert |a| == |Ids(a)| == |Ids(b)| == |b|;
    var k := MongoLimit(n2, |b|);
    assert Ids(a[..k]) == Ids(a)[..k];
    assert Ids(b[..k]) == Ids(b)[..k];
  }
}
