/**
 * The queue collection and the API server's queue controller: creating a
 * queue together with its zeroed counter record, listing queues with the
 * owner and name filters, and the not-found-then-forbidden checks in front
 * of reading and deleting one.
 */
module Queues {
  import opened Common
  import opened QueueModel
  import opened Metrics
  import J = Json

  /** Record ids increase along the collection. */
  predicate QueueIdsIncrease(qs: seq<Queue>) {
    forall i, j :: 0 <= i < j < |qs| ==> qs[i].id < qs[j].id
  }

  /** `Queue.findById(id)`. */
  function QueueById(qs: seq<Queue>, id: Id): (r: Option<Queue>)
    ensures r.Some? ==> r.value in qs && r.value.id == id
    ensures r.None? ==> forall x :: x in qs ==> x.id != id
    decreases |qs|
  {
    if qs == [] then None else if qs[0].id == id then Some(qs[0]) else QueueById(qs[1..], id)
  }

  /** The collection after `Queue.findByIdAndDelete(id)`. */
  function WithoutQueue(qs: seq<Queue>, id: Id): (r: seq<Queue>)
    ensures |r| <= |qs|
    decreases |qs|
  {
    if qs == [] then [] else if qs[0].id == id then WithoutQueue(qs[1..], id) else [qs[0]] + WithoutQueue(qs[1..], id)
  }

  /** The delete removes the records with that id and keeps every other one. */
  lemma {:induction false} WithoutQueueMembers(qs: seq<Queue>, id: Id)
    ensures forall x :: x in WithoutQueue(qs, id) <==> x in qs && x.id != id
    decreases |qs|
  {
    if qs != [] {
      WithoutQueueMembers(qs[1..], id);
      assert forall x :: x in qs <==> x == qs[0] || x in qs[1..] by {
        assert qs == [qs[0]] + qs[1..];
      }
    }
  }

  /** The delete keeps the order of the records that stay, so their increasing ids. */
  lemma {:induction false} WithoutQueueIncrease(qs: seq<Queue>, id: Id)
    requires QueueIdsIncrease(qs)
    ensures QueueIdsIncrease(WithoutQueue(qs, id))
    decreases |qs|
  {
    if qs != [] {
      assert QueueIdsIncrease(qs[1..]);
      WithoutQueueIncrease(qs[1..], id);
      WithoutQueueMembers(qs[1..], id);
      if qs[0].id != id {
        var r := [qs[0]] + WithoutQueue(qs[1..], id);
        forall i, j | 0 <= i < j < |r| ensures r[i].id < r[j].id {
          assert r[j] in qs[1..];
        }
      }
    }
  }

  /** Appending a record with a fresh id, above every stored one, keeps the ids increasing. */
  lemma AppendIncrease(qs: seq<Queue>, x: Queue, bound: Id)
    requires QueueIdsIncrease(qs) && (forall i :: 0 <= i < |qs| ==> qs[i].id < bound) && x.id == bound
    ensures QueueIdsIncrease(qs + [x]) && forall i :: 0 <= i < |qs + [x]| ==> (qs + [x])[i].id < bound + 1
  {
  }

  class QueueStore {
    var queues: seq<Queue>
    var nextId: Id

    predicate Valid()
      reads this
    {
      QueueIdsIncrease(queues) && forall i :: 0 <= i < |queues| ==> queues[i].id < nextId
    }

    constructor ()
      ensures Valid() && queues == [] && nextId == 0
    {
      queues := [];
      nextId := 0;
    }

    /** `Queue.create(fields)`: validation, then the insert under the next fresh id. */
    method Create(now: Time, name: Option<string>, ownerId: Option<string>, retentionPeriod: Option<int>,
                  schema: Option<J.Value>, pushEndpoint: Option<string>) returns (r: Result<Queue>)
      requires Valid()
      modifies this
      ensures Valid()
      ensures r == NewQueue(old(nextId), now, name, ownerId, retentionPeriod, schema, pushEndpoint)
      ensures r.Ok? ==> queues == old(queues) + [r.value] && nextId == old(nextId) + 1
      ensures r.Err? ==> queues == old(queues) && nextId == old(nextId)
    {
      r := NewQueue(nextId, now, name, ownerId, retentionPeriod, schema, pushEndpoint);
      if r.Ok? {
        AppendIncrease(queues, r.value, nextId);
        queues := queues + [r.value];
        nextId := nextId + 1;
      }
    }

    /** `Queue.findByIdAndDelete(id)`. */
    method DeleteById(id: Id)
      requires Valid()
      modifies this
      ensures Valid()
      ensures queues == WithoutQueue(old(queues), id) && nextId == old(nextId)
    {
      WithoutQueueIncrease(queues, id);
      WithoutQueueMembers(queues, id);
      var r := WithoutQueue(queues, id);
      forall i | 0 <= i < |r| ensures r[i].id < nextId {
        assert r[i] in queues;
      }
      queues := r;
    }
  }

  /**
   * `createQueue`: the queue, owned by the caller, and a counter record for
   * it with every counter at zero. A queue that fails validation creates
   * neither.
   */
  method CreateQueue(
    store: QueueStore, metrics: MetricsStore, now: Time, caller: Option<string>,
    name: Option<string>, retentionPeriod: Option<int>, schema: Option<J.Value>, pushEndpoint: Option<string>)
    returns (r: Result<Queue>)
    requires store.Valid()
    modifies store, metrics
    ensures store.Valid()
    ensures r == NewQueue(old(store.nextId), now, name, caller, retentionPeriod, schema, pushEndpoint)
    ensures r.Ok? ==> store.queues == old(store.queues) + [r.value]
                      && metrics.perQueue == old(metrics.perQueue)[r.value.id := ZeroCounters]
    ensures r.Err? ==> store.queues == old(store.queues) && metrics.perQueue == old(metrics.perQueue)
    ensures metrics.server == old(metrics.server)
  {
    r := store.Create(now, name, caller, retentionPeriod, schema, pushEndpoint);
    if r.Ok? {
      metrics.CreateQueueRecord(r.value.id);
    }
  }

  /**
   * Whether a queue passes the `getQueues` filter: the caller's, when there
   * is one, and, when a non-empty name is given, of that name as the `name`
   * path's `trim` setter casts the filter value.
   */
  predicate ListedFor(x: Queue, caller: Option<string>, name: Option<string>) {
    (Truthy(caller) ==> x.ownerId == caller.value) && (Truthy(name) ==> x.name == Trim(name.value))
  }

  /** `getQueues`: `Queue.find(filter)`, in collection order. */
  function GetQueues(qs: seq<Queue>, caller: Option<string>, name: Option<string>): (r: seq<Queue>)
    ensures |r| <= |qs|
    decreases |qs|
  {
    if qs == [] then []
    else if ListedFor(qs[0], caller, name) then [qs[0]] + GetQueues(qs[1..], caller, name)
    else GetQueues(qs[1..], caller, name)
  }

  /** The listing holds exactly the queues that pass the filter. */
  lemma {:induction false} GetQueuesMembers(qs: seq<Queue>, caller: Option<string>, name: Option<string>)
    ensures forall x :: x in GetQueues(qs, caller, name) <==> x in qs && ListedFor(x, caller, name)
    decreases |qs|
  {
    if qs != [] {
      GetQueuesMembers(qs[1..], caller, name);
      assert forall x :: x in qs <==> x == qs[0] || x in qs[1..] by {
        assert qs == [qs[0]] + qs[1..];
      }
    }
  }

  /**
   * A name filter with surrounding white space still lists the caller's
   * queue of the trimmed name, since the filter value is trimmed like the
   * stored name was.
   */
  lemma GetQueuesTrimsFilter(qs: seq<Queue>, caller: Option<string>, name: string, x: Queue)
    requires x in qs && name != "" && x.name == Trim(name)
    requires Truthy(caller) ==> x.ownerId == caller.value
    ensures x in GetQueues(qs, caller, Some(name))
  {
    GetQueuesMembers(qs, caller, Some(name));
  }

  /** Without a caller and without a name, every queue is listed, in collection order. */
  lemma {:induction false} GetQueuesUnfiltered(qs: seq<Queue>, caller: Option<string>, name: Option<string>)
    requires !Truthy(caller) && !Truthy(name)
    ensures GetQueues(qs, caller, name) == qs
    decreases |qs|
  {
    if qs != [] {
      GetQueuesUnfiltered(qs[1..], caller, name);
      assert qs == [qs[0]] + qs[1..];
    }
  }

  /**
   * The check in front of `getQueue` and `deleteQueue`: a missing queue is a
   * 404 naming the id; a present caller who does not own the queue gets a
   * 403 with the operation's own message; otherwise the queue.
   */
  function CheckQueue(qs: seq<Queue>, caller: Option<string>, id: Id, denied: Reason): (r: Result<Queue>)
    ensures HasStatus(r, 404) <==> QueueById(qs, id).None?
    ensures HasStatus(r, 404) ==> r.failure.reason == QueueNotFoundWithId(id)
    ensures HasStatus(r, 403) <==> QueueById(qs, id).Some? && Truthy(caller) && QueueById(qs, id).value.ownerId != caller.value
    ensures HasStatus(r, 403) ==> r.failure.reason == denied
    ensures r.Err? ==> HasStatus(r, 404) || HasStatus(r, 403)
    ensures r.Ok? ==> r.value in qs && r.value.id == id && (Truthy(caller) ==> r.value.ownerId == caller.value)
  {
    match QueueById(qs, id)
    case None => Err(AppError(404, QueueNotFoundWithId(id)))
    case Some(q) =>
      if Truthy(caller) && q.ownerId != caller.value then Err(AppError(403, denied)) else Ok(q)
  }

  /**
   * `getQueue`: a missing queue is a 404 naming the id, a present caller who
   * does not own the queue a 403, and anyone else gets the stored queue.
   */
  function GetQueue(qs: seq<Queue>, caller: Option<string>, id: Id): (r: Result<Queue>)
    ensures QueueById(qs, id).None? ==> r == Err(AppError(404, QueueNotFoundWithId(id)))
    ensures QueueById(qs, id).Some? && Truthy(caller) && QueueById(qs, id).value.ownerId != caller.value
      ==> r == Err(AppError(403, QueueAccessDenied))
    ensures QueueById(qs, id).Some? && !(Truthy(caller) && QueueById(qs, id).value.ownerId != caller.value)
      ==> r == Ok(QueueById(qs, id).value)
  {
    CheckQueue(qs, caller, id, QueueAccessDenied)
  }

  /**
   * `deleteQueue`: the same checks, then the delete of the queue record alone;
   * a failed check deletes nothing. The queue's messages, counters and topic
   * subscriptions stay where they are.
   */
  method DeleteQueue(store: QueueStore, caller: Option<string>, id: Id) returns (r: Result<Queue>)
    requires store.Valid()
    modifies store
    ensures store.Valid()
    ensures r == CheckQueue(old(store.queues), caller, id, QueueDeleteDenied)
    ensures r.Ok? ==> store.queues == WithoutQueue(old(store.queues), id)
    ensures r.Err? ==> store.queues == old(store.queues)
  {
    r := CheckQueue(store.queues, caller, id, QueueDeleteDenied);
    if r.Ok? {
      store.DeleteById(id);
    }
  }
}
