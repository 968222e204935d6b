/**
 * The queue service's dashboard controller: server-wide and per-queue
 * counts over the message collection, the ages of the oldest visible and
 * the newest message of a queue, and the counter records, which a read
 * creates with every counter at zero when they are missing.
 */
module Dashboard {
  import opened Common
  import opened QueueModel
  import opened Queues
  import opened MessageModel
  import opened Messages
  import opened Metrics
  import opened QueueServiceMessages

  /** `req.user?.userId || 'anonymous'`. */
  function Requester(caller: Option<string>): string {
    if Truthy(caller) then caller.value else Anonymous
  }

  /** `countDocuments({ visible: true })` over the whole collection. */
  function CountVisible(ms: seq<Message>): (k: nat)
    ensures k <= |ms|
    decreases |ms|
  {
    if ms == [] then 0 else (if Accepts(VisibleTrue, ms[0].delivery) then 1 else 0) + CountVisible(ms[1..])
  }

  datatype ServerStats = ServerStats(totalQueues: nat, totalMessages: nat, activeMessages: nat)

  /** The `stats` of `getServerMetrics`: queues, messages, and visible messages. */
  function ServerStatsOf(qs: seq<Queue>, ms: seq<Message>): (s: ServerStats)
    ensures s.activeMessages <= s.totalMessages
  {
    ServerStats(|qs|, |ms|, CountVisible(ms))
  }

  /** The records of queue `q`, in collection order: `find({ queueId: q })`. */
  function OfQueue(ms: seq<Message>, q: Id): (r: seq<Message>)
    ensures |r| == CountQueue(ms, q)
    decreases |ms|
  {
    if ms == [] then [] else (if ms[0].queueId == q then [ms[0]] else []) + OfQueue(ms[1..], q)
  }

  /** The query answers every record of `q` and nothing else. */
  lemma {:induction false} OfQueueMembers(ms: seq<Message>, q: Id)
    ensures forall m :: m in OfQueue(ms, q) <==> m in ms && m.queueId == q
    decreases |ms|
  {
    if ms != [] {
      OfQueueMembers(ms[1..], q);
      assert forall m :: m in ms <==> m == ms[0] || m in ms[1..] by {
        assert ms == [ms[0]] + ms[1..];
      }
    }
  }

  /** The earliest creation time of a record in `ms`; `sort({ createdAt: 1 })` puts a record with it first. */
  function EarliestCreated(ms: seq<Message>): (t: Time)
    requires ms != []
    ensures exists i :: 0 <= i < |ms| && ms[i].createdAt == t
    ensures forall i :: 0 <= i < |ms| ==> t <= ms[i].createdAt
    decreases |ms|
  {
    if |ms| == 1 then ms[0].createdAt
    else
      var t := EarliestCreated(ms[1..]);
      if ms[0].createdAt <= t then ms[0].createdAt else t
  }

  /** The latest creation time of a record in `ms`; `sort({ createdAt: -1 })` puts a record with it first. */
  function LatestCreated(ms: seq<Message>): (t: Time)
    requires ms != []
    ensures exists i :: 0 <= i < |ms| && ms[i].createdAt == t
    ensures forall i :: 0 <= i < |ms| ==> ms[i].createdAt <= t
    decreases |ms|
  {
    if |ms| == 1 then ms[0].createdAt
    else
      var t := LatestCreated(ms[1..]);
      if t <= ms[0].createdAt then ms[0].createdAt else t
  }

  datatype QueueStats = QueueStats(totalMessages: nat, activeMessages: nat, oldestMessageAge: int, newestMessageAge: int)

  /**
   * The `stats` of `getQueueMetrics` at time `now`: the queue's records, its
   * visible records, the age of its oldest visible record and the age of
   * its newest record of any visibility, each age 0 when there is no such
   * record.
   */
  function QueueStatsOf(ms: seq<Message>, q: Id, now: Time): QueueStats {
    var visible := Matching(ms, q, VisibleTrue);
    var all := OfQueue(ms, q);
    QueueStats(
      CountQueue(ms, q), |visible|,
      if visible == [] then 0 else now - EarliestCreated(visible),
      if all == [] then 0 else now - LatestCreated(all))
  }

  /** The visible records of a queue are among its records. */
  lemma {:induction false} VisibleWithinQueue(ms: seq<Message>, q: Id)
    ensures |Matching(ms, q, VisibleTrue)| <= CountQueue(ms, q)
    ensures |Matching(ms, q, VisibleTrue)| <= CountVisible(ms)
    decreases |ms|
  {
    if ms != [] {
      VisibleWithinQueue(ms[1..], q);
    }
  }

  /**
   * A queue never shows more active than total messages, and its active
   * messages are among the server's.
   */
  lemma ActiveWithinTotal(qs: seq<Queue>, ms: seq<Message>, q: Id, now: Time)
    ensures QueueStatsOf(ms, q, now).activeMessages <= QueueStatsOf(ms, q, now).totalMessages
    ensures QueueStatsOf(ms, q, now).activeMessages <= ServerStatsOf(qs, ms).activeMessages
  {
    VisibleWithinQueue(ms, q);
  }

  /** A queue without records shows zero everywhere. */
  lemma EmptyQueueStats(ms: seq<Message>, q: Id, now: Time)
    requires CountQueue(ms, q) == 0
    ensures QueueStatsOf(ms, q, now) == QueueStats(0, 0, 0, 0)
  {
    VisibleWithinQueue(ms, q);
  }

  /**
   * While a queue has a visible record, its newest record is no older than
   * its oldest visible one.
   */
  lemma AgesOrdered(ms: seq<Message>, q: Id, now: Time)
    requires Matching(ms, q, VisibleTrue) != []
    ensures QueueStatsOf(ms, q, now).newestMessageAge <= QueueStatsOf(ms, q, now).oldestMessageAge
  {
    var visible := Matching(ms, q, VisibleTrue);
    var all := OfQueue(ms, q);
    MatchingMembers(ms, q, VisibleTrue);
    OfQueueMembers(ms, q);
    var i :| 0 <= i < |visible| && visible[i].createdAt == EarliestCreated(visible);
    assert visible[i] in all;
    var j :| 0 <= j < |all| && all[j] == visible[i];
  }

  /**
   * A receive of the queue service hides the records it takes: the queue's
   * active count drops by the number received and its total stays.
   */
  lemma ReceiveLowersActive(ms: seq<Message>, q: Id, n: int, visibilityTimeout: int, now: Time, later: Time)
    requires IdsIncrease(ms)
    ensures var sel := Select(ms, q, VisibleTrue, n);
      var after := UpdateAll(ms, IdSet(sel), Hidden(now, visibilityTimeout), now);
      && QueueStatsOf(after, q, later).totalMessages == QueueStatsOf(ms, q, later).totalMessages
      && QueueStatsOf(after, q, later).activeMessages == QueueStatsOf(ms, q, later).activeMessages - |sel|
  {
    var sel := Select(ms, q, VisibleTrue, n);
    ReceiveContinues(ms, q, VisibleTrue, n, Hidden(now, visibilityTimeout), now);
    CountQueueUpdate(ms, IdSet(sel), Hidden(now, visibilityTimeout), now, q);
  }

  /** Ten visible messages and a receive of three: the queue shows 10 total and 7 active. */
  lemma TenSentThreeReceived(ms: seq<Message>, q: Id, visibilityTimeout: int, now: Time, later: Time)
    requires IdsIncrease(ms)
    requires CountQueue(ms, q) == 10 && |Matching(ms, q, VisibleTrue)| == 10
    ensures var after := UpdateAll(ms, IdSet(Select(ms, q, VisibleTrue, 3)), Hidden(now, visibilityTimeout), now);
      && QueueStatsOf(after, q, later).totalMessages == 10
      && QueueStatsOf(after, q, later).activeMessages == 7
  {
    ReceiveLowersActive(ms, q, 3, visibilityTimeout, now, later);
  }

  /** A new visible record on a queue raises both its total and its active count by one. */
  lemma SendRaisesBoth(ms: seq<Message>, m: Message, now: Time)
    requires Accepts(VisibleTrue, m.delivery)
    ensures QueueStatsOf(ms + [m], m.queueId, now).totalMessages == QueueStatsOf(ms, m.queueId, now).totalMessages + 1
    ensures QueueStatsOf(ms + [m], m.queueId, now).activeMessages == QueueStatsOf(ms, m.queueId, now).activeMessages + 1
  {
    CountQueueAppend(ms, m, m.queueId);
    MatchingConcat(ms, [m], m.queueId, VisibleTrue);
    assert Matching([m], m.queueId, VisibleTrue) == [m];
  }

  /**
   * The checks of `getQueueMetrics`: a missing queue is a 404, then a queue
   * the requester (the anonymous owner when no caller is present) does not
   * own is a 403.
   */
  function MetricsAccess(qs: seq<Queue>, caller: Option<string>, id: Id): (r: Result<Queue>)
    ensures HasStatus(r, 404) <==> QueueById(qs, id).None?
    ensures HasStatus(r, 404) ==> r.failure.reason == QueueNotFound
    ensures HasStatus(r, 403) ==> r.failure.reason == QueueMetricsDenied
    ensures r.Err? ==> HasStatus(r, 404) || HasStatus(r, 403)
    ensures r.Ok? ==> r.value in qs && r.value.id == id && r.value.ownerId == Requester(caller)
    ensures QueueById(qs, id).Some? && QueueById(qs, id).value.ownerId == Requester(caller) ==> r.Ok?
  {
    match QueueById(qs, id)
    case None => Err(AppError(404, QueueNotFound))
    case Some(x) => if x.ownerId != Requester(caller) then Err(AppError(403, QueueMetricsDenied)) else Ok(x)
  }

  /**
   * The dashboard is never more open than reading the queue itself: a
   * caller it lets through may read the queue, and for a present caller the
   * two checks agree.
   */
  lemma MetricsAccessStricter(qs: seq<Queue>, caller: Option<string>, id: Id)
    ensures MetricsAccess(qs, caller, id).Ok? ==> GetQueue(qs, caller, id) == MetricsAccess(qs, caller, id)
    ensures Truthy(caller) ==> (MetricsAccess(qs, caller, id).Ok? <==> GetQueue(qs, caller, id).Ok?)
  {
  }

  datatype ServerMetricsReply = ServerMetricsReply(serverMetrics: ServerCounters, stats: ServerStats)

  /**
   * `getServerMetrics`: the server record, created with every counter at
   * zero and started at `now` only when none exists, and the server stats.
   */
  method GetServerMetrics(queues: QueueStore, store: MessageStore, metrics: MetricsStore, now: Time)
    returns (r: ServerMetricsReply)
    modifies metrics
    ensures metrics.perQueue == old(metrics.perQueue)
    ensures old(metrics.server).Some? ==> metrics.server == old(metrics.server) && r.serverMetrics == old(metrics.server).value
    ensures old(metrics.server).None? ==> metrics.server == Some(ZeroServer(now)) && r.serverMetrics == ZeroServer(now)
    ensures r.stats == ServerStatsOf(queues.queues, store.messages)
  {
    var s := metrics.FindOrCreateServer(now);
    r := ServerMetricsReply(s, ServerStatsOf(queues.queues, store.messages));
  }

  datatype QueueMetricsReply = QueueMetricsReply(queueMetrics: QueueCounters, stats: QueueStats)

  /**
   * `getQueueMetrics` at time `now`: after the checks, the queue's counter
   * record, created with every counter at zero when it is missing, and the
   * queue's stats. A failed check creates nothing.
   */
  method GetQueueMetrics(
    queues: QueueStore, store: MessageStore, metrics: MetricsStore, caller: Option<string>, q: Id, now: Time)
    returns (r: Result<QueueMetricsReply>)
    modifies metrics
    ensures metrics.server == old(metrics.server)
    ensures MetricsAccess(queues.queues, caller, q).Err? ==>
      r == Err(MetricsAccess(queues.queues, caller, q).failure) && metrics.perQueue == old(metrics.perQueue)
    ensures MetricsAccess(queues.queues, caller, q).Ok? ==>
      && r.Ok? && r.value.stats == QueueStatsOf(store.messages, q, now)
      && (q in old(metrics.perQueue) ==>
            metrics.perQueue == old(metrics.perQueue) && r.value.queueMetrics == old(metrics.perQueue)[q])
      && (q !in old(metrics.perQueue) ==>
            metrics.perQueue == old(metrics.perQueue)[q := ZeroCounters] && r.value.queueMetrics == ZeroCounters)
  {
    var access := MetricsAccess(queues.queues, caller, q);
    if access.Err? {
      return Err(access.failure);
    }
    var c := metrics.FindOrCreateQueueRecord(q);
    r := Ok(QueueMetricsReply(c, QueueStatsOf(store.messages, q, now)));
  }

  /** The ids of the queues `owner` owns: `Queue.find({ ownerId })` mapped to ids. */
  function OwnedIds(qs: seq<Queue>, owner: string): set<Id> {
    set x | x in qs && x.ownerId == owner :: x.id
  }

  datatype AllMetricsReply = AllMetricsReply(results: nat, queueMetrics: map<Id, QueueCounters>)

  /**
   * `getAllQueueMetrics`: the counter records of the queues the requester
   * owns (`QueueMetrics.find({ queueId: { $in: ids } })`), and their number.
   * It creates no record: an owned queue without one is left out.
   */
  function GetAllQueueMetrics(qs: seq<Queue>, perQueue: map<Id, QueueCounters>, caller: Option<string>): (r: AllMetricsReply)
    ensures forall id :: id in r.queueMetrics <==>
      id in perQueue && exists x :: x in qs && x.ownerId == Requester(caller) && x.id == id
    ensures forall id :: id in r.queueMetrics ==> r.queueMetrics[id] == perQueue[id]
    ensures r.results == |r.queueMetrics|
  {
    var owned := OwnedIds(qs, Requester(caller));
    var found := map id | id in perQueue && id in owned :: perQueue[id];
    AllMetricsReply(|found|, found)
  }

  lemma {:induction false} SubsetCard<T>(a: set<T>, b: set<T>)
    requires a <= b
    ensures |a| <= |b|
    decreases a
  {
    if a != {} {
      var x :| x in a;
      SubsetCard(a - {x}, b - {x});
    }
  }

  /** A collection of `n` queues holds at most `n` distinct owned ids. */
  lemma {:induction false} OwnedIdsBound(qs: seq<Queue>, owner: string)
    ensures |OwnedIds(qs, owner)| <= |qs|
    decreases |qs|
  {
    if qs != [] {
      var rest := qs[1..];
      OwnedIdsBound(rest, owner);
      assert OwnedIds(qs, owner) <= OwnedIds(rest, owner) + {qs[0].id} by {
        forall id | id in OwnedIds(qs, owner) ensures id in OwnedIds(rest, owner) + {qs[0].id} {
          var x :| x in qs && x.ownerId == owner && x.id == id;
          if x != qs[0] {
            assert x in rest by { assert qs == [qs[0]] + rest; }
          }
        }
      }
      SubsetCard(OwnedIds(qs, owner), OwnedIds(rest, owner) + {qs[0].id});
    }
  }

  /** The listing never has more entries than the requester owns queues, nor than there are queues. */
  lemma AllMetricsBounded(qs: seq<Queue>, perQueue: map<Id, QueueCounters>, caller: Option<string>)
    ensures GetAllQueueMetrics(qs, perQueue, caller).results <= |OwnedIds(qs, Requester(caller))| <= |qs|
  {
    var r := GetAllQueueMetrics(qs, perQueue, caller);
    SubsetCard(r.queueMetrics.Keys, OwnedIds(qs, Requester(caller)));
    OwnedIdsBound(qs, Requester(caller));
  }

  /**
   * After `getQueueMetrics` has let a requester read a queue, the queue's
   * record is in that requester's listing, whether it existed before or
   * the read created it.
   */
  lemma ReadQueueThenListed(qs: seq<Queue>, perQueue: map<Id, QueueCounters>, caller: Option<string>, q: Id)
    requires MetricsAccess(qs, caller, q).Ok?
    ensures var after := if q in perQueue then perQueue else perQueue[q := ZeroCounters];
      q in GetAllQueueMetrics(qs, after, caller).queueMetrics
  {
    var x := MetricsAccess(qs, caller, q).value;
    assert x in qs && x.ownerId == Requester(caller) && x.id == q;
  }
}
