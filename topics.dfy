/**
 * Topics and the two topic controllers: the API server's, which compares
 * owners with the caller as given, and the packaged queue service's, which
 * stands in the owner `'anonymous'` for an absent caller. A topic keeps the
 * ids of its subscribed queues in subscription order; publishing fans one
 * message out to every subscribed queue that still exists.
 */
module Topics {
  import opened Common
  import opened QueueModel
  import opened Queues
  import opened MessageModel
  import opened Messages
  import opened Metrics
  import opened MessageHooks

  datatype Topic = Topic(id: Id, name: string, ownerId: string, subscribedQueues: seq<Id>)

  /** Which of the two topic controllers. */
  datatype Variant = ApiServer | QueueService

  /**
   * The owner a controller stores and compares with: the caller's id as
   * given on the API server; on the queue service the caller's id when it
   * is present and not empty, and `'anonymous'` otherwise.
   */
  function Owner(v: Variant, caller: Option<string>): (o: Option<string>)
    ensures v == QueueService ==> Truthy(o)
    ensures v == QueueService && !Truthy(caller) ==> o == Some(Anonymous)
    ensures Truthy(caller) ==> o == caller
    ensures v == ApiServer ==> o == caller
  {
    match v
    case ApiServer => caller
    case QueueService => Some(if Truthy(caller) then caller.value else Anonymous)
  }

  /** `topic.ownerId === owner`: the stored owner is a string, so an absent owner never matches. */
  predicate Owns(t: Topic, v: Variant, caller: Option<string>) {
    Some(t.ownerId) == Owner(v, caller)
  }

  /** The paths Mongoose's validation rejects for a new topic. */
  function TopicInvalidPaths(name: Option<string>, ownerId: Option<string>): set<string> {
    (if name.None? || Trim(name.value) == "" then {"name"} else {})
    + (if ownerId.None? || ownerId.value == "" then {"ownerId"} else {})
  }

  /**
   * `Topic.create({ name, ownerId, subscribedQueues: [] })`: the name is
   * trimmed and required, the owner required; a valid topic starts without
   * subscribers.
   */
  function NewTopic(id: Id, name: Option<string>, ownerId: Option<string>): (r: Result<Topic>)
    ensures r.Ok? <==> name.Some? && !Blank(name.value) && Truthy(ownerId)
    ensures r.Err? ==> r.failure == ValidationError(TopicInvalidPaths(name, ownerId)) && r.failure.paths != {}
    ensures r.Ok? ==> && r.value.id == id && r.value.name == Trim(name.value) && r.value.name != ""
                      && r.value.ownerId == ownerId.value && r.value.subscribedQueues == []
  {
    if name.None? then
      Err(ValidationError(TopicInvalidPaths(name, ownerId)))
    else
      TrimEmptyIffBlank(name.value);
      var bad := TopicInvalidPaths(name, ownerId);
      if bad == {} then Ok(Topic(id, Trim(name.value), ownerId.value, [])) else Err(ValidationError(bad))
  }

  predicate TopicIdsIncrease(ts: seq<Topic>) {
    forall i, j :: 0 <= i < j < |ts| ==> ts[i].id < ts[j].id
  }

  /** `Topic.findById(id)`. */
  function TopicById(ts: seq<Topic>, id: Id): (r: Option<Topic>)
    ensures r.Some? ==> r.value in ts && r.value.id == id
    ensures r.None? ==> forall t :: t in ts ==> t.id != id
    decreases |ts|
  {
    if ts == [] then None else if ts[0].id == id then Some(ts[0]) else TopicById(ts[1..], id)
  }

  /** The collection after `topic.save()`: the stored topic with that id replaced. */
  function ReplaceTopic(ts: seq<Topic>, t: Topic): (r: seq<Topic>)
    ensures |r| == |ts|
    ensures forall i :: 0 <= i < |ts| ==> r[i] == (if ts[i].id == t.id then t else ts[i])
  {
    seq(|ts|, i requires 0 <= i < |ts| => if ts[i].id == t.id then t else ts[i])
  }

  /** After saving a topic, looking up its id finds the saved version. */
  lemma {:induction false} TopicByIdReplaced(ts: seq<Topic>, t: Topic)
    requires TopicById(ts, t.id).Some?
    ensures TopicById(ReplaceTopic(ts, t), t.id) == Some(t)
    decreases |ts|
  {
    var r := ReplaceTopic(ts, t);
    if ts[0].id != t.id {
      TopicByIdReplaced(ts[1..], t);
      assert r[1..] == ReplaceTopic(ts[1..], t);
    }
  }

  /** The collection after `Topic.findByIdAndDelete(id)`. */
  function WithoutTopic(ts: seq<Topic>, id: Id): (r: seq<Topic>)
    ensures |r| <= |ts|
    decreases |ts|
  {
    if ts == [] then [] else if ts[0].id == id then WithoutTopic(ts[1..], id) else [ts[0]] + WithoutTopic(ts[1..], id)
  }

  /** The delete removes the topic with that id and keeps every other one, in order. */
  lemma {:induction false} WithoutTopicMembers(ts: seq<Topic>, id: Id)
    requires TopicIdsIncrease(ts)
    ensures forall t :: t in WithoutTopic(ts, id) <==> t in ts && t.id != id
    ensures TopicIdsIncrease(WithoutTopic(ts, id))
    decreases |ts|
  {
    if ts != [] {
      assert TopicIdsIncrease(ts[1..]);
      WithoutTopicMembers(ts[1..], id);
      assert forall t :: t in ts <==> t == ts[0] || t in ts[1..] by {
        assert ts == [ts[0]] + ts[1..];
      }
      if ts[0].id != id {
        var r := [ts[0]] + WithoutTopic(ts[1..], id);
        forall i, j | 0 <= i < j < |r| ensures r[i].id < r[j].id {
          assert r[j] in ts[1..];
        }
      }
    }
  }

  class TopicStore {
    var topics: seq<Topic>
    var nextId: Id

    predicate Valid()
      reads this
    {
      TopicIdsIncrease(topics) && forall i :: 0 <= i < |topics| ==> topics[i].id < nextId
    }

    constructor ()
      ensures Valid() && topics == [] && nextId == 0
    {
      topics := [];
      nextId := 0;
    }

    /** `Topic.create(fields)`: validation, then the insert under the next fresh id. */
    method Create(name: Option<string>, ownerId: Option<string>) returns (r: Result<Topic>)
      requires Valid()
      modifies this
      ensures Valid()
      ensures r == NewTopic(old(nextId), name, ownerId)
      ensures r.Ok? ==> topics == old(topics) + [r.value] && nextId == old(nextId) + 1
      ensures r.Err? ==> topics == old(topics) && nextId == old(nextId)
    {
      r := NewTopic(nextId, name, ownerId);
      if r.Ok? {
        topics := topics + [r.value];
        nextId := nextId + 1;
      }
    }

    /** `topic.save()` of a stored topic. */
    method Save(t: Topic)
      requires Valid()
      modifies this
      ensures Valid()
      ensures topics == ReplaceTopic(old(topics), t) && nextId == old(nextId)
    {
      topics := ReplaceTopic(topics, t);
    }

    /** `Topic.findByIdAndDelete(id)`. */
    method DeleteById(id: Id)
      requires Valid()
      modifies this
      ensures Valid()
      ensures topics == WithoutTopic(old(topics), id) && nextId == old(nextId)
    {
      WithoutTopicMembers(topics, id);
      var r := WithoutTopic(topics, id);
      forall i | 0 <= i < |r| ensures r[i].id < nextId {
        assert r[i] in topics;
      }
      topics := r;
    }
  }

  /**
   * `createTopic`: a topic owned by the controller's owner for the caller.
   * On the API server an absent caller leaves the required owner unset, so
   * the create fails validation; the queue service always has an owner.
   */
  method CreateTopic(store: TopicStore, v: Variant, caller: Option<string>, name: Option<string>)
    returns (r: Result<Topic>)
    requires store.Valid()
    modifies store
    ensures store.Valid()
    ensures r == NewTopic(old(store.nextId), name, Owner(v, caller))
    ensures r.Ok? ==> store.topics == old(store.topics) + [r.value]
    ensures r.Err? ==> store.topics == old(store.topics)
  {
    r := store.Create(name, Owner(v, caller));
  }

  /** `getTopics`: `Topic.find({ ownerId })`, in collection order. */
  function GetTopics(ts: seq<Topic>, v: Variant, caller: Option<string>): (r: seq<Topic>)
    ensures |r| <= |ts|
    decreases |ts|
  {
    if ts == [] then []
    else if Owns(ts[0], v, caller) then [ts[0]] + GetTopics(ts[1..], v, caller)
    else GetTopics(ts[1..], v, caller)
  }

  /** The listing holds exactly the topics the caller owns; on the API server an absent caller owns none. */
  lemma {:induction false} GetTopicsMembers(ts: seq<Topic>, v: Variant, caller: Option<string>)
    ensures forall t :: t in GetTopics(ts, v, caller) <==> t in ts && Owns(t, v, caller)
    ensures v == ApiServer && caller.None? ==> GetTopics(ts, v, caller) == []
    decreases |ts|
  {
    if ts != [] {
      GetTopicsMembers(ts[1..], v, caller);
      assert forall t :: t in ts <==> t == ts[0] || t in ts[1..] by {
        assert ts == [ts[0]] + ts[1..];
      }
    }
  }

  /**
   * The check in front of `getTopic`, `publishToTopic` and `deleteTopic`: a
   * missing topic is a 404, a caller who does not own it a 403, each with
   * the operation's own message.
   */
  function CheckTopic(ts: seq<Topic>, v: Variant, caller: Option<string>, id: Id, missing: Reason, denied: Reason): (r: Result<Topic>)
    ensures HasStatus(r, 404) <==> TopicById(ts, id).None?
    ensures HasStatus(r, 404) ==> r.failure.reason == missing
    ensures HasStatus(r, 403) <==> TopicById(ts, id).Some? && !Owns(TopicById(ts, id).value, v, caller)
    ensures HasStatus(r, 403) ==> r.failure.reason == denied
    ensures r.Err? ==> HasStatus(r, 404) || HasStatus(r, 403)
    ensures r.Ok? ==> r.value in ts && r.value.id == id && Owns(r.value, v, caller)
  {
    match TopicById(ts, id)
    case None => Err(AppError(404, missing))
    case Some(t) => if !Owns(t, v, caller) then Err(AppError(403, denied)) else Ok(t)
  }

  /**
   * `getTopic`: a missing topic is a 404, a caller who does not own it a
   * 403, and the owner gets the stored topic.
   */
  function GetTopic(ts: seq<Topic>, v: Variant, caller: Option<string>, id: Id): (r: Result<Topic>)
    ensures TopicById(ts, id).None? ==> r == Err(AppError(404, TopicNotFound))
    ensures TopicById(ts, id).Some? && !Owns(TopicById(ts, id).value, v, caller) ==> r == Err(AppError(403, TopicAccessDenied))
    ensures TopicById(ts, id).Some? && Owns(TopicById(ts, id).value, v, caller) ==> r == Ok(TopicById(ts, id).value)
  {
    CheckTopic(ts, v, caller, id, TopicNotFound, TopicAccessDenied)
  }

  /**
   * `subscribeTopic`, as a value: the checks in their order (topic missing,
   * queue missing, caller not the owner, queue already subscribed), then
   * the topic with the queue appended at the end of its subscriptions.
   */
  function SubscribeResult(ts: seq<Topic>, qs: seq<Queue>, v: Variant, caller: Option<string>, topicId: Id, queueId: Id): (r: Result<Topic>)
    ensures r == Err(AppError(404, TopicNotFound)) <==> TopicById(ts, topicId).None?
    ensures r == Err(AppError(404, QueueNotFound)) <==> TopicById(ts, topicId).Some? && QueueById(qs, queueId).None?
    ensures HasStatus(r, 403) <==>
      TopicById(ts, topicId).Some? && QueueById(qs, queueId).Some? && !Owns(TopicById(ts, topicId).value, v, caller)
    ensures HasStatus(r, 403) ==> r.failure.reason == TopicModifyDenied
    ensures HasStatus(r, 400) <==>
      && TopicById(ts, topicId).Some? && QueueById(qs, queueId).Some? && Owns(TopicById(ts, topicId).value, v, caller)
      && queueId in TopicById(ts, topicId).value.subscribedQueues
    ensures HasStatus(r, 400) ==> r.failure.reason == AlreadySubscribed
    ensures r.Err? ==> HasStatus(r, 404) || HasStatus(r, 403) || HasStatus(r, 400)
    ensures r.Ok? ==>
      var t := TopicById(ts, topicId).value;
      && QueueById(qs, queueId).Some? && Owns(t, v, caller) && queueId !in t.subscribedQueues
      && r.value == t.(subscribedQueues := t.subscribedQueues + [queueId])
  {
    match TopicById(ts, topicId)
    case None => Err(AppError(404, TopicNotFound))
    case Some(t) =>
      if QueueById(qs, queueId).None? then Err(AppError(404, QueueNotFound))
      else if !Owns(t, v, caller) then Err(AppError(403, TopicModifyDenied))
      else if queueId in t.subscribedQueues then Err(AppError(400, AlreadySubscribed))
      else Ok(t.(subscribedQueues := t.subscribedQueues + [queueId]))
  }

  /**
   * A subscribe keeps the earlier subscriptions in place, adds the queue
   * once, and never introduces a duplicate.
   */
  lemma SubscribeKeepsDistinct(ts: seq<Topic>, qs: seq<Queue>, v: Variant, caller: Option<string>, topicId: Id, queueId: Id)
    requires SubscribeResult(ts, qs, v, caller, topicId, queueId).Ok?
    requires Distinct(TopicById(ts, topicId).value.subscribedQueues)
    ensures var before := TopicById(ts, topicId).value.subscribedQueues;
      var after := SubscribeResult(ts, qs, v, caller, topicId, queueId).value.subscribedQueues;
      && Distinct(after) && after[..|before|] == before && after[|before|] == queueId && |after| == |before| + 1
  {
    var before := TopicById(ts, topicId).value.subscribedQueues;
    var after := before + [queueId];
    forall i, j | 0 <= i < j < |after| ensures after[i] != after[j] {
      if j == |before| {
        assert after[i] in before;
      }
    }
  }

  /** Subscribing the same queue a second time is rejected as a duplicate. */
  lemma SubscribeTwiceRejected(ts: seq<Topic>, qs: seq<Queue>, v: Variant, caller: Option<string>, topicId: Id, queueId: Id)
    requires SubscribeResult(ts, qs, v, caller, topicId, queueId).Ok?
    ensures var saved := ReplaceTopic(ts, SubscribeResult(ts, qs, v, caller, topicId, queueId).value);
      SubscribeResult(saved, qs, v, caller, topicId, queueId) == Err(AppError(400, AlreadySubscribed))
  {
    var t := SubscribeResult(ts, qs, v, caller, topicId, queueId).value;
    TopicByIdReplaced(ts, t);
    assert t.subscribedQueues[|t.subscribedQueues| - 1] == queueId;
  }

  /** `subscribeTopic`: on success the topic is saved with the queue appended; a failed check saves nothing. */
  method Subscribe(topics: TopicStore, queues: QueueStore, v: Variant, caller: Option<string>, topicId: Id, queueId: Id)
    returns (r: Result<Topic>)
    requires topics.Valid()
    modifies topics
    ensures topics.Valid()
    ensures r == SubscribeResult(old(topics.topics), queues.queues, v, caller, topicId, queueId)
    ensures r.Ok? ==> topics.topics == ReplaceTopic(old(topics.topics), r.value)
    ensures r.Err? ==> topics.topics == old(topics.topics)
  {
    r := SubscribeResult(topics.topics, queues.queues, v, caller, topicId, queueId);
    if r.Ok? {
      topics.Save(r.value);
    }
  }

  /**
   * The checks in front of `publishToTopic`, in their order: topic missing
   * (404), caller not the owner (403), no subscribers (400).
   */
  function PublishCheck(ts: seq<Topic>, v: Variant, caller: Option<string>, id: Id): (r: Result<Topic>)
    ensures r == Err(AppError(404, TopicNotFound)) <==> TopicById(ts, id).None?
    ensures r == Err(AppError(403, TopicPublishDenied)) <==> TopicById(ts, id).Some? && !Owns(TopicById(ts, id).value, v, caller)
    ensures r == Err(AppError(400, NoSubscribers)) <==>
      TopicById(ts, id).Some? && Owns(TopicById(ts, id).value, v, caller) && TopicById(ts, id).value.subscribedQueues == []
    ensures r.Err? ==> HasStatus(r, 404) || HasStatus(r, 403) || HasStatus(r, 400)
    ensures r.Ok? ==> r.value in ts && r.value.id == id && Owns(r.value, v, caller) && r.value.subscribedQueues != []
  {
    var c := CheckTopic(ts, v, caller, id, TopicNotFound, TopicPublishDenied);
    if c.Err? then c
    else if |c.value.subscribedQueues| == 0 then Err(AppError(400, NoSubscribers))
    else c
  }

  /** `Queue.find({ _id: { $in: subs } })`: the queues that still exist among the subscribed ids, in collection order. */
  function SubscribedQueues(qs: seq<Queue>, subs: seq<Id>): (r: seq<Queue>)
    ensures |r| <= |qs|
    decreases |qs|
  {
    if qs == [] then []
    else if qs[0].id in subs then [qs[0]] + SubscribedQueues(qs[1..], subs)
    else SubscribedQueues(qs[1..], subs)
  }

  /** The selection holds exactly the stored queues whose id is subscribed, without repeats. */
  lemma {:induction false} SubscribedQueuesMembers(qs: seq<Queue>, subs: seq<Id>)
    requires QueueIdsIncrease(qs)
    ensures forall x :: x in SubscribedQueues(qs, subs) <==> x in qs && x.id in subs
    ensures QueueIdsIncrease(SubscribedQueues(qs, subs))
    decreases |qs|
  {
    if qs != [] {
      assert QueueIdsIncrease(qs[1..]);
      SubscribedQueuesMembers(qs[1..], subs);
      assert forall x :: x in qs <==> x == qs[0] || x in qs[1..] by {
        assert qs == [qs[0]] + qs[1..];
      }
      if qs[0].id in subs {
        var r := [qs[0]] + SubscribedQueues(qs[1..], subs);
        forall i, j | 0 <= i < j < |r| ensures r[i].id < r[j].id {
          assert r[j] in qs[1..];
        }
      }
    }
  }

  /** The schema the published messages are stored with. */
  function TopicSchema(v: Variant): Schema {
    match v
    case ApiServer => Schema(ReceiptShape, false)
    case QueueService => Schema(VisibilityShape, false)
  }

  /** The delivery flag a publish passes: `received: false` or `visible: true`. */
  function TopicFlag(v: Variant): Option<bool> {
    match v
    case ApiServer => Some(false)
    case QueueService => Some(true)
  }

  /** The message a publish creates on one queue. */
  function FanoutRecord(v: Variant, id: Id, now: Time, data: Option<Data>, q: Queue): Result<Message> {
    NewRecord(TopicSchema(v), id, now, data, Some(q.id), Some(AddDays(now, q.retentionPeriod)), TopicFlag(v), Some(0))
  }

  /**
   * The messages a publish creates, one per queue in order, under
   * consecutive fresh ids from `start`. Without data the first create
   * fails, so either every message is created or none.
   */
  function Fanout(v: Variant, start: Id, now: Time, data: Option<Data>, qs: seq<Queue>): (r: Result<seq<Message>>)
    ensures r.Ok? <==> qs == [] || data.Some?
    ensures r.Err? ==> r.failure == ValidationError({"data"})
    ensures r.Ok? ==> |r.value| == |qs|
  {
    if qs == [] then Ok([])
    else if data.None? then Err(ValidationError({"data"}))
    else Ok(seq(|qs|, i requires 0 <= i < |qs| => FanoutRecord(v, start + i, now, data, qs[i]).value))
  }

  /**
   * The messages of a publish: each with the published data, on its queue,
   * under the next fresh id, expiring that queue's own retention period
   * after `now`, with the controller's delivery flag and no receives yet.
   */
  lemma FanoutMessages(v: Variant, start: Id, now: Time, data: Data, qs: seq<Queue>)
    ensures var out := Fanout(v, start, now, Some(data), qs).value;
      forall i :: 0 <= i < |qs| ==>
        && out[i].id == start + i && out[i].queueId == qs[i].id && out[i].data == data
        && out[i].expiresAt == AddDays(now, qs[i].retentionPeriod)
        && out[i].delivery == NewDelivery(TopicSchema(v).shape, TopicFlag(v)) && out[i].receivedCount == 0
        && out[i].createdAt == now && out[i].updatedAt == now
  {
  }

  /** One more queue for the publish loop: its message extends the fanout of the queues before it. */
  lemma FanoutGrows(v: Variant, start: Id, now: Time, data: Data, qs: seq<Queue>, i: nat, x: Message)
    requires i < |qs|
    requires FanoutRecord(v, start + i, now, Some(data), qs[i]) == Ok(x)
    ensures Fanout(v, start, now, Some(data), qs[..i + 1]) == Ok(Fanout(v, start, now, Some(data), qs[..i]).value + [x])
  {
    var a := Fanout(v, start, now, Some(data), qs[..i + 1]).value;
    var b := Fanout(v, start, now, Some(data), qs[..i]).value + [x];
    assert |a| == |b|;
    forall k | 0 <= k < |a| ensures a[k] == b[k] {
      assert a[k] == FanoutRecord(v, start + k, now, Some(data), qs[..i + 1][k]).value;
      if k < i {
        assert b[k] == FanoutRecord(v, start + k, now, Some(data), qs[..i][k]).value;
      }
    }
    assert a == b;
  }

  /** The ids of the queues a publish pushes to: those with a push endpoint, in order. */
  function PushTargets(qs: seq<Queue>): (r: seq<Id>)
    ensures |r| <= |qs|
    decreases |qs|
  {
    if qs == [] then [] else PushTargets(qs[..|qs| - 1]) + (if Truthy(qs[|qs| - 1].pushEndpoint) then [qs[|qs| - 1].id] else [])
  }

  /** A publish pushes to exactly the selected queues that have a push endpoint. */
  lemma {:induction false} PushTargetsMembers(qs: seq<Queue>)
    ensures forall id :: id in PushTargets(qs) <==> exists q :: q in qs && q.id == id && Truthy(q.pushEndpoint)
    decreases |qs|
  {
    if qs != [] {
      var init := qs[..|qs| - 1];
      PushTargetsMembers(init);
      assert qs == init + [qs[|qs| - 1]];
      forall id | id in PushTargets(qs) ensures exists q :: q in qs && q.id == id && Truthy(q.pushEndpoint) {
        if id in PushTargets(init) {
          var q :| q in init && q.id == id && Truthy(q.pushEndpoint);
          assert q in qs;
        } else {
          assert qs[|qs| - 1] in qs;
        }
      }
    }
  }

  /** One more queue for the publish loop: it is a push target exactly when it has a push endpoint. */
  lemma PushStep(qs: seq<Queue>, i: nat)
    requires i < |qs|
    ensures PushTargets(qs[..i + 1]) == PushTargets(qs[..i]) + (if Truthy(qs[i].pushEndpoint) then [qs[i].id] else [])
  {
    assert qs[..i + 1][..i] == qs[..i];
  }

  /** One more saved message for the publish loop. */
  lemma SaveRunStep(m: Counters, msgs: seq<Message>, x: Message)
    ensures SaveRun(m, msgs + [x]) == AfterSave(SaveRun(m, msgs), x)
  {
    assert (msgs + [x])[..|msgs|] == msgs;
  }

  /** The counters after the post-save hooks of a publish's messages: the API server runs them, the queue service has none. */
  function Hooked(v: Variant, m: Counters, docs: seq<Message>): Counters {
    if v == ApiServer then SaveRun(m, docs) else m
  }

  /**
   * `Message.create` of the message a publish puts on one queue, after the
   * messages `done` of the same publish; on the API server the post-save
   * hook then counts it.
   */
  method CreateOn(store: MessageStore, metrics: MetricsStore, v: Variant, now: Time, data: Option<Data>, q: Queue,
                  ghost base: Counters, ghost done: seq<Message>)
    returns (m: Result<Message>)
    requires store.Valid()
    requires metrics.perQueue == Hooked(v, base, done)
    modifies store, metrics
    ensures store.Valid() && metrics.server == old(metrics.server)
    ensures m == FanoutRecord(v, old(store.nextId), now, data, q)
    ensures m.Ok? ==> && store.messages == old(store.messages) + [m.value] && store.nextId == old(store.nextId) + 1
                      && metrics.perQueue == Hooked(v, base, done + [m.value])
    ensures m.Err? ==> store.messages == old(store.messages) && metrics.perQueue == old(metrics.perQueue)
  {
    var expiresAt := AddDays(now, q.retentionPeriod);
    if v == ApiServer {
      m := CreateHooked(store, metrics, TopicSchema(v), now, data, Some(q.id), Some(expiresAt), TopicFlag(v), Some(0));
      if m.Ok? {
        SaveRunStep(base, done, m.value);
      }
    } else {
      m := store.Create(TopicSchema(v), now, data, Some(q.id), Some(expiresAt), TopicFlag(v), Some(0));
    }
  }

  /**
   * The state of the publish loop after `i` queues: `msgs` created on top of
   * the collection `before`, the first `i` push targets, and the hooks run
   * on the counters `base`.
   */
  ghost predicate Delivered(
    v: Variant, start: Id, now: Time, data: Option<Data>, qs: seq<Queue>, i: nat, msgs: seq<Message>, pushed: seq<Id>,
    before: seq<Message>, base: Counters, messages: seq<Message>, nextId: Id, perQueue: Counters)
  {
    && i <= |qs| && |msgs| == i && nextId == start + i
    && (i > 0 ==> data.Some? && Fanout(v, start, now, data, qs[..i]) == Ok(msgs))
    && messages == before + msgs
    && pushed == PushTargets(qs[..i])
    && perQueue == Hooked(v, base, msgs)
  }

  /** A round of the publish loop whose create succeeds keeps the loop state. */
  lemma DeliveredStep(
    v: Variant, start: Id, now: Time, data: Option<Data>, qs: seq<Queue>, i: nat, msgs: seq<Message>, pushed: seq<Id>,
    before: seq<Message>, base: Counters, messages: seq<Message>, nextId: Id, m: Message)
    requires i < |qs| && Delivered(v, start, now, data, qs, i, msgs, pushed, before, base, messages, nextId, Hooked(v, base, msgs))
    requires FanoutRecord(v, nextId, now, data, qs[i]) == Ok(m)
    ensures Delivered(v, start, now, data, qs, i + 1, msgs + [m],
                      pushed + (if Truthy(qs[i].pushEndpoint) then [qs[i].id] else []),
                      before, base, messages + [m], nextId + 1, Hooked(v, base, msgs + [m]))
  {
    PushStep(qs, i);
    FanoutGrows(v, start, now, data.value, qs, i, m);
  }

  /** A create of the publish loop fails only in the first round, when the whole fanout fails. */
  lemma DeliveredFails(
    v: Variant, start: Id, now: Time, data: Option<Data>, qs: seq<Queue>, i: nat, msgs: seq<Message>, pushed: seq<Id>,
    before: seq<Message>, base: Counters, messages: seq<Message>, nextId: Id, perQueue: Counters)
    requires i < |qs| && Delivered(v, start, now, data, qs, i, msgs, pushed, before, base, messages, nextId, perQueue)
    requires FanoutRecord(v, nextId, now, data, qs[i]).Err?
    ensures i == 0 && Fanout(v, start, now, data, qs) == Err(FanoutRecord(v, nextId, now, data, qs[i]).failure)
    ensures messages == before && perQueue == base
  {
  }

  /**
   * The loop of `publishToTopic`: one message per queue, in order, each
   * pushed when its queue has a push endpoint; a create that fails ends the
   * publish, and since only the first can fail, nothing is stored then.
   */
  method Deliver(store: MessageStore, metrics: MetricsStore, v: Variant, now: Time, data: Option<Data>, qs: seq<Queue>)
    returns (r: Result<seq<Message>>, pushed: seq<Id>)
    requires store.Valid()
    modifies store, metrics
    ensures store.Valid() && metrics.server == old(metrics.server)
    ensures r == Fanout(v, old(store.nextId), now, data, qs)
    ensures r.Err? ==> && pushed == [] && store.messages == old(store.messages) && metrics.perQueue == old(metrics.perQueue)
    ensures r.Ok? ==> && pushed == PushTargets(qs) && store.messages == old(store.messages) + r.value
                      && metrics.perQueue == Hooked(v, old(metrics.perQueue), r.value)
  {
    var start := store.nextId;
    var msgs: seq<Message> := [];
    pushed := [];
    var i := 0;
    ghost var before, base := store.messages, metrics.perQueue;
    while i < |qs|
      invariant store.Valid() && metrics.server == old(metrics.server)
      invariant Delivered(v, start, now, data, qs, i, msgs, pushed, before, base, store.messages, store.nextId, metrics.perQueue)
    {
      ghost var messages, nextId, perQueue := store.messages, store.nextId, metrics.perQueue;
      var m := CreateOn(store, metrics, v, now, data, qs[i], base, msgs);
      if m.Err? {
        DeliveredFails(v, start, now, data, qs, i, msgs, pushed, before, base, messages, nextId, perQueue);
        return Err(m.failure), [];
      }
      DeliveredStep(v, start, now, data, qs, i, msgs, pushed, before, base, messages, nextId, m.value);
      if Truthy(qs[i].pushEndpoint) {
        pushed := pushed + [qs[i].id];
      }
      msgs := msgs + [m.value];
      i := i + 1;
    }
    assert qs[..i] == qs;
    r := Ok(msgs);
  }

  datatype PublishReply = PublishReply(results: nat, messages: seq<Message>)

  /**
   * `publishToTopic`: after the checks, one message per subscribed queue
   * that still exists, in collection order, each pushed when its queue has
   * a push endpoint. On the API server each create runs the post-save hook.
   * A failed check, or a create that fails validation, stores nothing.
   */
  method Publish(
    topics: TopicStore, queues: QueueStore, store: MessageStore, metrics: MetricsStore,
    v: Variant, caller: Option<string>, topicId: Id, data: Option<Data>, now: Time)
    returns (r: Result<PublishReply>, pushed: seq<Id>)
    requires store.Valid()
    modifies store, metrics
    ensures store.Valid()
    ensures metrics.server == old(metrics.server)
    ensures PublishCheck(topics.topics, v, caller, topicId).Err? ==>
      && r == Err(PublishCheck(topics.topics, v, caller, topicId).failure) && pushed == []
      && store.messages == old(store.messages) && metrics.perQueue == old(metrics.perQueue)
    ensures PublishCheck(topics.topics, v, caller, topicId).Ok? ==>
      var qs := SubscribedQueues(queues.queues, PublishCheck(topics.topics, v, caller, topicId).value.subscribedQueues);
      var out := Fanout(v, old(store.nextId), now, data, qs);
      && (out.Err? ==> && r == Err(out.failure) && pushed == []
                       && store.messages == old(store.messages) && metrics.perQueue == old(metrics.perQueue))
      && (out.Ok? ==> && r == Ok(PublishReply(|qs|, out.value)) && pushed == PushTargets(qs)
                      && store.messages == old(store.messages) + out.value
                      && metrics.perQueue == Hooked(v, old(metrics.perQueue), out.value))
  {
    var check := PublishCheck(topics.topics, v, caller, topicId);
    if check.Err? {
      return Err(check.failure), [];
    }
    var qs := SubscribedQueues(queues.queues, check.value.subscribedQueues);
    var out;
    out, pushed := Deliver(store, metrics, v, now, data, qs);
    if out.Err? {
      return Err(out.failure), pushed;
    }
    r := Ok(PublishReply(|qs|, out.value));
  }

  /**
   * A publish reaches exactly the subscribed queues that still exist: every
   * message lands on such a queue, and each such queue gets exactly one.
   */
  lemma FanoutCoversSubscribers(v: Variant, start: Id, now: Time, data: Data, qs: seq<Queue>, subs: seq<Id>)
    requires QueueIdsIncrease(qs)
    ensures var out := Fanout(v, start, now, Some(data), SubscribedQueues(qs, subs));
      && out.Ok?
      && (forall m :: m in out.value ==> m.queueId in subs && QueueById(qs, m.queueId).Some?)
      && (forall x :: x in qs && x.id in subs ==> exists i :: 0 <= i < |out.value| && out.value[i].queueId == x.id)
      && (forall i, j :: 0 <= i < j < |out.value| ==> out.value[i].queueId != out.value[j].queueId)
  {
    var sel := SubscribedQueues(qs, subs);
    var out := Fanout(v, start, now, Some(data), sel).value;
    SubscribedQueuesMembers(qs, subs);
    FanoutMessages(v, start, now, data, sel);
    forall m | m in out ensures m.queueId in subs && QueueById(qs, m.queueId).Some? {
      var i :| 0 <= i < |out| && out[i] == m;
      assert sel[i] in sel;
    }
    forall x | x in qs && x.id in subs ensures exists i :: 0 <= i < |out| && out[i].queueId == x.id {
      var i :| 0 <= i < |sel| && sel[i] == x;
      assert out[i].queueId == x.id;
    }
  }

  /**
   * On the API server, a publish counts one more message and one more sent
   * on every queue it reaches, through the post-save hook run once per
   * created message.
   */
  lemma PublishCountsEachQueue(start: Id, now: Time, data: Data, qs: seq<Queue>, m: Counters, i: nat)
    requires QueueIdsIncrease(qs)
    requires i < |qs|
    ensures var out := Fanout(ApiServer, start, now, Some(data), qs).value;
      && qs[i].id in SaveRun(m, out)
      && SaveRun(m, out)[qs[i].id] == Apply(CountersOf(m, qs[i].id), SendDelta)
  {
    var out := Fanout(ApiServer, start, now, Some(data), qs).value;
    FanoutMessages(ApiServer, start, now, data, qs);
    SaveRunEach(m, out, i);
  }

  /**
   * `deleteTopic` (API server only): a missing topic is a 404 naming the id,
   * a caller who does not own it a 403; otherwise that topic alone goes.
   */
  method DeleteTopic(store: TopicStore, caller: Option<string>, id: Id) returns (r: Result<Topic>)
    requires store.Valid()
    modifies store
    ensures store.Valid()
    ensures r == CheckTopic(old(store.topics), ApiServer, caller, id, TopicNotFoundWithId(id), TopicDeleteDenied)
    ensures r.Ok? ==> store.topics == WithoutTopic(old(store.topics), id)
                      && forall t :: t in store.topics <==> t in old(store.topics) && t.id != id
    ensures r.Err? ==> store.topics == old(store.topics)
  {
    r := CheckTopic(store.topics, ApiServer, caller, id, TopicNotFoundWithId(id), TopicDeleteDenied);
    if r.Ok? {
      WithoutTopicMembers(store.topics, id);
      store.DeleteById(id);
    }
  }
}
