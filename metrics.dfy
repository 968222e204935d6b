/**
 * The metrics collections: one counter record per queue (QueueMetrics) and
 * one server-wide record (ServerMetrics). Every per-queue change is an
 * `$inc` through `findOneAndUpdate`, which only creates a missing record
 * when the caller asks for an upsert.
 */
module Metrics {
  import opened Common

  datatype QueueCounters = QueueCounters(messageCount: int, messagesSent: int, messagesReceived: int, avgWaitTime: int)

  /** The record `QueueMetrics.create` writes for a new queue, and the schema defaults. */
  const ZeroCounters := QueueCounters(0, 0, 0, 0)

  datatype ServerCounters = ServerCounters(
    startTime: Time, totalRequests: int, activeConnections: int,
    messagesProcessed: int, errorCount: int, avgResponseTime: int)

  /** The record `getServerMetrics` creates when none exists. */
  function ZeroServer(now: Time): ServerCounters {
    ServerCounters(now, 0, 0, 0, 0, 0)
  }

  /** The three counters an `$inc` may move. */
  datatype Delta = Delta(count: int, sent: int, received: int)

  /** `$inc: { messageCount: 1, messagesSent: 1 }`, for a new message. */
  const SendDelta := Delta(1, 1, 0)
  /** `$inc: { messageCount: -1 }`, for a deleted message. */
  const DeleteDelta := Delta(-1, 0, 0)
  /** `$inc: { messagesReceived: n }`. */
  function ReceiveDelta(n: int): Delta {
    Delta(0, 0, n)
  }

  /** The counters of queue `q`, or the schema defaults when it has no record. */
  function CountersOf(m: map<Id, QueueCounters>, q: Id): QueueCounters {
    if q in m then m[q] else ZeroCounters
  }

  function Apply(c: QueueCounters, d: Delta): QueueCounters {
    c.(messageCount := c.messageCount + d.count,
       messagesSent := c.messagesSent + d.sent,
       messagesReceived := c.messagesReceived + d.received)
  }

  /**
   * `QueueMetrics.findOneAndUpdate({ queueId }, { $inc }, { upsert })`: the
   * record of `q` moves by `d`; a missing record stays missing unless the
   * update is an upsert, which starts it from the schema defaults.
   */
  function Inc(m: map<Id, QueueCounters>, q: Id, d: Delta, upsert: bool): (r: map<Id, QueueCounters>)
    ensures q in r <==> q in m || upsert
    ensures q in r ==> r == m[q := Apply(CountersOf(m, q), d)]
    ensures q !in r ==> r == m
  {
    if q in m then m[q := Apply(m[q], d)]
    else if upsert then m[q := Apply(ZeroCounters, d)]
    else m
  }

  /** Two `$inc`s on the same record add up; the store keeps no other trace of them. */
  lemma IncAdds(m: map<Id, QueueCounters>, q: Id, d1: Delta, d2: Delta, upsert: bool)
    ensures Inc(Inc(m, q, d1, upsert), q, d2, upsert)
         == Inc(m, q, Delta(d1.count + d2.count, d1.sent + d2.sent, d1.received + d2.received), upsert)
  {
  }

  class MetricsStore {
    var perQueue: map<Id, QueueCounters>
    var server: Option<ServerCounters>

    constructor ()
      ensures perQueue == map[] && server == None
    {
      perQueue := map[];
      server := None;
    }

    /** `QueueMetrics.findOneAndUpdate({ queueId: q }, { $inc: d }, { upsert })`. */
    method Increment(q: Id, d: Delta, upsert: bool)
      modifies this
      ensures perQueue == Inc(old(perQueue), q, d, upsert)
      ensures server == old(server)
    {
      perQueue := Inc(perQueue, q, d, upsert);
    }

    /** `QueueMetrics.create({ queueId: q, ... all counters 0 })`. */
    method CreateQueueRecord(q: Id)
      modifies this
      ensures perQueue == old(perQueue)[q := ZeroCounters]
      ensures server == old(server)
    {
      perQueue := perQueue[q := ZeroCounters];
    }

    /** `findOne({ queueId: q })`, creating an all-zero record when there is none. */
    method FindOrCreateQueueRecord(q: Id) returns (c: QueueCounters)
      modifies this
      ensures q in old(perQueue) ==> perQueue == old(perQueue) && c == old(perQueue)[q]
      ensures q !in old(perQueue) ==> perQueue == old(perQueue)[q := ZeroCounters] && c == ZeroCounters
      ensures server == old(server)
    {
      if q !in perQueue {
        perQueue := perQueue[q := ZeroCounters];
      }
      c := perQueue[q];
    }

    /** `ServerMetrics.findOne()`, creating an all-zero record started at `now` when there is none. */
    method FindOrCreateServer(now: Time) returns (s: ServerCounters)
      modifies this
      ensures old(server).Some? ==> server == old(server) && s == old(server).value
      ensures old(server).None? ==> server == Some(ZeroServer(now)) && s == ZeroServer(now)
      ensures perQueue == old(perQueue)
    {
      if server.None? {
        server := Some(ZeroServer(now));
      }
      s := server.value;
    }
  }
}
