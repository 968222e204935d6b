/**
 * The metric hooks the API server's Message schema (and the identical one
 * of the older server) registers, its `updateReceivedMessages` static, and
 * the bookkeeping they keep: every counter record's `messageCount` equals
 * the number of stored messages of its queue.
 */
module MessageHooks {
  import opened Common
  import opened MessageModel
  import opened Messages
  import opened Metrics

  type Counters = map<Id, QueueCounters>

  /** The post-save hook takes a document for a new one when both its timestamps are equal. */
  predicate SavedNew(doc: Message) {
    doc.createdAt == doc.updatedAt
  }

  /** The post-findOneAndUpdate hook counts a document that is received, for the first time. */
  predicate FirstReceipt(doc: Message) {
    doc.delivery.Receipt? && doc.delivery.received && doc.receivedCount == 1
  }

  /**
   * The counters after `post('save')`: a new message adds one to the
   * `messageCount` and `messagesSent` of its queue, creating the record if
   * needed; a re-save changes nothing.
   */
  function AfterSave(m: Counters, doc: Message): (r: Counters)
    ensures SavedNew(doc) ==> r == m[doc.queueId := Apply(CountersOf(m, doc.queueId), SendDelta)]
    ensures !SavedNew(doc) ==> r == m
  {
    if SavedNew(doc) then Inc(m, doc.queueId, SendDelta, true) else m
  }

  /**
   * The counters after `post('findOneAndUpdate')`: a document received for
   * the first time adds one to `messagesReceived` of an existing record;
   * nothing else changes, and no record is created.
   */
  function AfterUpdate(m: Counters, doc: Option<Message>): (r: Counters)
    ensures doc.Some? && FirstReceipt(doc.value) && doc.value.queueId in m ==>
      var q := doc.value.queueId;
      r == m[q := m[q].(messagesReceived := m[q].messagesReceived + 1)]
    ensures doc.None? || !FirstReceipt(doc.value) || doc.value.queueId !in m ==> r == m
  {
    if doc.Some? && FirstReceipt(doc.value) then Inc(m, doc.value.queueId, ReceiveDelta(1), false) else m
  }

  /**
   * The counters after `post('findOneAndDelete')`: deleting a message takes
   * one off the `messageCount` of an existing record of its queue; a delete
   * that matched nothing changes nothing, and no record is created.
   */
  function AfterDelete(m: Counters, doc: Option<Message>): (r: Counters)
    ensures doc.Some? && doc.value.queueId in m ==>
      var q := doc.value.queueId;
      r == m[q := m[q].(messageCount := m[q].messageCount - 1)]
    ensures doc.None? || doc.value.queueId !in m ==> r == m
  {
    if doc.Some? then Inc(m, doc.value.queueId, DeleteDelta, false) else m
  }

  method PostSave(metrics: MetricsStore, doc: Message)
    modifies metrics
    ensures metrics.perQueue == AfterSave(old(metrics.perQueue), doc)
    ensures metrics.server == old(metrics.server)
  {
    if SavedNew(doc) {
      metrics.Increment(doc.queueId, SendDelta, true);
    }
  }

  method PostFindOneAndUpdate(metrics: MetricsStore, doc: Option<Message>)
    modifies metrics
    ensures metrics.perQueue == AfterUpdate(old(metrics.perQueue), doc)
    ensures metrics.server == old(metrics.server)
  {
    if doc.Some? && FirstReceipt(doc.value) {
      metrics.Increment(doc.value.queueId, ReceiveDelta(1), false);
    }
  }

  method PostFindOneAndDelete(metrics: MetricsStore, doc: Option<Message>)
    modifies metrics
    ensures metrics.perQueue == AfterDelete(old(metrics.perQueue), doc)
    ensures metrics.server == old(metrics.server)
  {
    if doc.Some? {
      metrics.Increment(doc.value.queueId, DeleteDelta, false);
    }
  }

  /**
   * `Message.findByIdAndDelete(id)` on the API server: the delete, then its
   * post hook on the deleted document.
   */
  method FindByIdAndDelete(store: MessageStore, metrics: MetricsStore, id: Id) returns (deleted: Option<Message>)
    requires store.Valid()
    modifies store, metrics
    ensures store.Valid()
    ensures store.messages == Remove(old(store.messages), id) && deleted == Lookup(old(store.messages), id)
    ensures store.nextId == old(store.nextId)
    ensures metrics.perQueue == AfterDelete(old(metrics.perQueue), deleted)
    ensures metrics.server == old(metrics.server)
  {
    deleted := store.DeleteById(id);
    PostFindOneAndDelete(metrics, deleted);
  }

  /**
   * `Message.create(fields)` on the API server: the insert, then the
   * post-save hook on the new document.
   */
  method CreateHooked(
    store: MessageStore, metrics: MetricsStore, schema: Schema, now: Time,
    data: Option<Data>, queueId: Option<Id>, expiresAt: Option<Time>,
    flag: Option<bool>, receivedCount: Option<int>) returns (r: Result<Message>)
    requires store.Valid()
    modifies store, metrics
    ensures store.Valid()
    ensures r == NewRecord(schema, old(store.nextId), now, data, queueId, expiresAt, flag, receivedCount)
    ensures r.Ok? ==> store.messages == old(store.messages) + [r.value] && store.nextId == old(store.nextId) + 1
    ensures r.Ok? ==> metrics.perQueue == AfterSave(old(metrics.perQueue), r.value)
    ensures r.Err? ==> store.messages == old(store.messages) && store.nextId == old(store.nextId)
    ensures r.Err? ==> metrics.perQueue == old(metrics.perQueue)
    ensures metrics.server == old(metrics.server)
  {
    r := store.Create(schema, now, data, queueId, expiresAt, flag, receivedCount);
    if r.Ok? {
      PostSave(metrics, r.value);
    }
  }

  /**
   * `Message.updateReceivedMessages(ids, q)` at `now`: marks every listed
   * record received at `now` and counts one more receive on it, then adds the
   * number of modified records to `messagesReceived` of `q` (creating the
   * record if needed), only when that number is positive.
   */
  method UpdateReceivedMessages(store: MessageStore, metrics: MetricsStore, ids: set<Id>, q: Id, now: Time)
    returns (modified: nat)
    requires store.Valid()
    modifies store, metrics
    ensures store.Valid()
    ensures store.messages == UpdateAll(old(store.messages), ids, Receipt(true, Some(now)), now)
    ensures store.nextId == old(store.nextId)
    ensures modified == CountIds(old(store.messages), ids)
    ensures metrics.perQueue == if modified > 0 then Inc(old(metrics.perQueue), q, ReceiveDelta(modified), true) else old(metrics.perQueue)
    ensures metrics.server == old(metrics.server)
  {
    modified := store.UpdateMany(ids, Receipt(true, Some(now)), now);
    if modified > 0 {
      metrics.Increment(q, ReceiveDelta(modified), true);
    }
  }

  /** Every counter record's `messageCount` is the number of stored messages of its queue. */
  predicate CountsAgree(ms: seq<Message>, m: Counters) {
    forall q :: q in m ==> m[q].messageCount == CountQueue(ms, q)
  }

  /**
   * Storing a new message and running the post-save hook keeps the counts
   * in agreement, provided a queue without a record has no messages (the
   * upsert starts the record from zero).
   */
  lemma SaveKeepsCounts(ms: seq<Message>, m: Counters, doc: Message)
    requires CountsAgree(ms, m)
    requires SavedNew(doc)
    requires doc.queueId in m || CountQueue(ms, doc.queueId) == 0
    ensures CountsAgree(ms + [doc], AfterSave(m, doc))
  {
    var r := AfterSave(m, doc);
    forall q | q in r ensures r[q].messageCount == CountQueue(ms + [doc], q) {
      CountQueueAppend(ms, doc, q);
    }
  }

  /** Deleting a message and running the post-delete hook on it keeps the counts in agreement. */
  lemma DeleteKeepsCounts(ms: seq<Message>, m: Counters, id: Id)
    requires IdsIncrease(ms)
    requires CountsAgree(ms, m)
    ensures CountsAgree(Remove(ms, id), AfterDelete(m, Lookup(ms, id)))
  {
    var r := AfterDelete(m, Lookup(ms, id));
    forall q | q in r ensures r[q].messageCount == CountQueue(Remove(ms, id), q) {
      CountQueueRemove(ms, id, q);
    }
  }

  /** A receive moves no `messageCount` and no message between queues, so it keeps the counts in agreement. */
  lemma ReceiveKeepsCounts(ms: seq<Message>, m: Counters, ids: set<Id>, d: Delivery, now: Time, q: Id, k: int)
    requires CountsAgree(ms, m)
    requires q in m || CountQueue(ms, q) == 0
    ensures CountsAgree(UpdateAll(ms, ids, d, now), Inc(m, q, ReceiveDelta(k), true))
  {
    var r := Inc(m, q, ReceiveDelta(k), true);
    forall p | p in r ensures r[p].messageCount == CountQueue(UpdateAll(ms, ids, d, now), p) {
      CountQueueUpdate(ms, ids, d, now, p);
    }
  }

  /** The post-update hook run on successive versions of documents, in order. */
  function HookRun(m: Counters, docs: seq<Message>): (r: Counters)
    decreases |docs|
  {
    if docs == [] then m else HookRun(AfterUpdate(m, Some(docs[0])), docs[1..])
  }

  /** Versions none of which is a first receipt leave the counters alone. */
  lemma {:induction false} HookRunIgnores(m: Counters, docs: seq<Message>)
    requires forall i :: 0 <= i < |docs| ==> docs[i].receivedCount != 1
    ensures HookRun(m, docs) == m
    decreases |docs|
  {
    if docs != [] {
      HookRunIgnores(m, docs[1..]);
    }
  }

  /**
   * However often one message is updated, the post-update hook counts it
   * towards `messagesReceived` at most once: its successive versions carry
   * increasing receive counts, so only one of them can be the first receipt.
   */
  lemma {:induction false} HookCountsOnce(m: Counters, docs: seq<Message>, q: Id)
    requires q in m
    requires forall i :: 0 <= i < |docs| ==> docs[i].queueId == q
    requires forall i, j :: 0 <= i < j < |docs| ==> docs[i].receivedCount < docs[j].receivedCount
    ensures q in HookRun(m, docs)
    ensures m[q].messagesReceived <= HookRun(m, docs)[q].messagesReceived <= m[q].messagesReceived + 1
    ensures HookRun(m, docs)[q] == m[q].(messagesReceived := HookRun(m, docs)[q].messagesReceived)
  {
    if docs != [] {
      var m1 := AfterUpdate(m, Some(docs[0]));
      if docs[0].receivedCount == 1 {
        assert forall i :: 0 <= i < |docs[1..]| ==> docs[1..][i].receivedCount != 1 by {
          forall i | 0 <= i < |docs[1..]| ensures docs[1..][i].receivedCount != 1 {
            assert docs[1..][i] == docs[i + 1];
          }
        }
        HookRunIgnores(m1, docs[1..]);
      } else {
        HookCountsOnce(m1, docs[1..], q);
      }
    }
  }

  /** The post-save hook run on new documents, in the order they were saved. */
  function SaveRun(m: Counters, docs: seq<Message>): (r: Counters)
    decreases |docs|
  {
    if docs == [] then m else AfterSave(SaveRun(m, docs[..|docs| - 1]), docs[|docs| - 1])
  }

  /** Saves of messages of other queues leave a queue's counters (and whether it has a record) alone. */
  lemma {:induction false} SaveRunOthers(m: Counters, docs: seq<Message>, q: Id)
    requires forall i :: 0 <= i < |docs| ==> docs[i].queueId != q
    ensures q in SaveRun(m, docs) <==> q in m
    ensures CountersOf(SaveRun(m, docs), q) == CountersOf(m, q)
    decreases |docs|
  {
    if docs != [] {
      SaveRunOthers(m, docs[..|docs| - 1], q);
    }
  }

  /**
   * Saving one new message on each of several distinct queues counts each
   * of those queues once: one more message, one more sent, creating its
   * record from zero when it had none.
   */
  lemma {:induction false} SaveRunEach(m: Counters, docs: seq<Message>, i: nat)
    requires i < |docs|
    requires forall k :: 0 <= k < |docs| ==> SavedNew(docs[k])
    requires forall a, b :: 0 <= a < b < |docs| ==> docs[a].queueId != docs[b].queueId
    ensures docs[i].queueId in SaveRun(m, docs)
    ensures SaveRun(m, docs)[docs[i].queueId] == Apply(CountersOf(m, docs[i].queueId), SendDelta)
    decreases |docs|
  {
    var n := |docs| - 1;
    var init := docs[..n];
    var q := docs[i].queueId;
    if i == n {
      SaveRunOthers(m, init, q);
    } else {
      SaveRunEach(m, init, i);
      assert docs[n].queueId != q;
    }
  }
}
