/**
 * The message collection: records in insertion order (the order a query
 * without a sort returns them in), with the query, update and delete
 * operations the controllers issue against it. The specification functions
 * describe each operation on a sequence of records; the `MessageStore`
 * class carries them out step by step.
 */
module Messages {
  import opened Common
  import opened MessageModel

  /** A record a receive on queue `q` with availability filter `f` may select. */
  predicate Available(m: Message, q: Id, f: Filter) {
    m.queueId == q && Accepts(f, m.delivery)
  }

  /** Record ids increase along the collection, so no id occurs twice. */
  predicate IdsIncrease(ms: seq<Message>) {
    forall i, j :: 0 <= i < j < |ms| ==> ms[i].id < ms[j].id
  }

  function IdSet(ms: seq<Message>): set<Id> {
    set i | 0 <= i < |ms| :: ms[i].id
  }

  function Ids(ms: seq<Message>): seq<Id> {
    seq(|ms|, i requires 0 <= i < |ms| => ms[i].id)
  }

  /** Splitting off the first record of a collection whose ids increase. */
  lemma IncreaseCons(h: Message, r: seq<Message>)
    ensures IdsIncrease([h] + r) <==> IdsIncrease(r) && forall x :: x in r ==> h.id < x.id
  {
    if IdsIncrease(r) && forall x :: x in r ==> h.id < x.id {
      IncreaseJoin(h, r);
    }
    if IdsIncrease([h] + r) {
      IncreaseSplit(h, r);
    }
  }

  lemma IncreaseJoin(h: Message, r: seq<Message>)
    requires IdsIncrease(r) && forall x :: x in r ==> h.id < x.id
    ensures IdsIncrease([h] + r)
  {
    var s := [h] + r;
    forall i, j | 0 <= i < j < |s| ensures s[i].id < s[j].id {
      assert s[j] == r[j - 1];
      if i == 0 { assert s[j] in r; } else { assert s[i] == r[i - 1]; }
    }
  }

  lemma IncreaseSplit(h: Message, r: seq<Message>)
    requires IdsIncrease([h] + r)
    ensures IdsIncrease(r) && forall x :: x in r ==> h.id < x.id
  {
    var s := [h] + r;
    assert forall i :: 0 <= i < |r| ==> s[i + 1] == r[i];
    forall x | x in r ensures h.id < x.id {
      var j :| 0 <= j < |r| && r[j] == x;
      assert s[0] == h && s[j + 1] == x;
    }
  }

  lemma IncreaseTail(ms: seq<Message>)
    requires IdsIncrease(ms) && ms != []
    ensures IdsIncrease(ms[1..]) && forall x :: x in ms[1..] ==> ms[0].id < x.id
  {
    assert ms == [ms[0]] + ms[1..];
    IncreaseCons(ms[0], ms[1..]);
  }

  /** `find({ queueId: q, <f> })`: the available records of `q`, in collection order. */
  function Matching(ms: seq<Message>, q: Id, f: Filter): (r: seq<Message>)
    ensures |r| <= |ms|
    decreases |ms|
  {
    if ms == [] then []
    else if Available(ms[0], q, f) then [ms[0]] + Matching(ms[1..], q, f)
    else Matching(ms[1..], q, f)
  }

  /** The query answers every available record of `q` and nothing else. */
  lemma {:induction false} MatchingMembers(ms: seq<Message>, q: Id, f: Filter)
    ensures forall m :: m in Matching(ms, q, f) <==> m in ms && Available(m, q, f)
    decreases |ms|
  {
    if ms != [] {
      MatchingMembers(ms[1..], q, f);
      assert forall m :: m in ms <==> m == ms[0] || m in ms[1..] by {
        assert ms == [ms[0]] + ms[1..];
      }
    }
  }

  /** A query over two parts of the collection returns the matches of the first part, then those of the second. */
  lemma {:induction false} MatchingConcat(a: seq<Message>, b: seq<Message>, q: Id, f: Filter)
    ensures Matching(a + b, q, f) == Matching(a, q, f) + Matching(b, q, f)
    decreases |a|
  {
    if a == [] {
      assert a + b == b;
    } else {
      assert (a + b)[1..] == a[1..] + b;
      MatchingConcat(a[1..], b, q, f);
    }
  }

  /** A selection in collection order keeps the increasing ids of the collection. */
  lemma {:induction false} MatchingIncrease(ms: seq<Message>, q: Id, f: Filter)
    requires IdsIncrease(ms)
    ensures IdsIncrease(Matching(ms, q, f))
    decreases |ms|
  {
    if ms != [] {
      IncreaseTail(ms);
      MatchingIncrease(ms[1..], q, f);
      MatchingMembers(ms[1..], q, f);
      if Available(ms[0], q, f) {
        IncreaseCons(ms[0], Matching(ms[1..], q, f));
      }
    }
  }

  /**
   * The number of records `.limit(n)` lets through out of `size`: all of
   * them for 0, otherwise at most |n| (a negative limit asks for a single
   * batch of |n| records).
   */
  function MongoLimit(n: int, size: nat): (k: nat)
    ensures k <= size
    ensures n == 0 ==> k == size
    ensures n != 0 ==> k == if size < n || size < -n then size else (if n < 0 then -n else n)
  {
    if n == 0 then size
    else
      var cap := if n < 0 then -n else n;
      if size < cap then size else cap
  }

  /** `find({ queueId: q, <f> }).limit(n)`. */
  function Select(ms: seq<Message>, q: Id, f: Filter, n: int): (sel: seq<Message>)
    ensures |sel| <= |Matching(ms, q, f)| && sel == Matching(ms, q, f)[..|sel|]
    ensures n > 0 ==> |sel| <= n
    ensures |sel| == MongoLimit(n, |Matching(ms, q, f)|)
    ensures forall m :: m in sel ==> m in ms && Available(m, q, f)
  {
    var all := Matching(ms, q, f);
    MatchingMembers(ms, q, f);
    var sel := all[..MongoLimit(n, |all|)];
    assert forall m :: m in sel ==> m in all;
    sel
  }

  /**
   * A scan that has looked at the first `i` records has found all the
   * records the query answers once it has found as many as the limit lets
   * through, or once it has looked at every record.
   */
  lemma SelectStops(ms: seq<Message>, q: Id, f: Filter, n: int, i: nat)
    requires i <= |ms|
    requires var found := Matching(ms[..i], q, f);
      |found| <= MongoLimit(n, |ms|) && (i == |ms| || |found| == MongoLimit(n, |ms|))
    ensures Select(ms, q, f, n) == Matching(ms[..i], q, f)
  {
    assert ms == ms[..i] + ms[i..];
    MatchingConcat(ms[..i], ms[i..], q, f);
    if i == |ms| {
      assert ms[..i] == ms;
    }
  }

  /** Nothing is available: the query finds nothing, whatever the limit. */
  lemma {:induction false} SelectEmpty(ms: seq<Message>, q: Id, f: Filter, n: int)
    requires forall m :: m in ms ==> !Available(m, q, f)
    ensures Select(ms, q, f, n) == []
    decreases |ms|
  {
    if ms != [] {
      assert ms[0] in ms;
      assert forall m :: m in ms[1..] ==> m in ms;
      SelectEmpty(ms[1..], q, f, n);
    }
  }

  /** One record after `updateMany({ _id: { $in: ids } }, { <d>, $inc: { receivedCount: 1 } })` at `now`. */
  function Touch(m: Message, ids: set<Id>, d: Delivery, now: Time): Message {
    if m.id in ids then m.(delivery := d, receivedCount := m.receivedCount + 1, updatedAt := now) else m
  }

  /**
   * The collection after that update: every listed record takes the new
   * delivery state, one more receive and a fresh `updatedAt`; every other
   * record, and the order, stay as they were.
   */
  function UpdateAll(ms: seq<Message>, ids: set<Id>, d: Delivery, now: Time): (r: seq<Message>)
    ensures |r| == |ms|
    ensures forall i :: 0 <= i < |ms| ==> r[i] == Touch(ms[i], ids, d, now)
  {
    seq(|ms|, i requires 0 <= i < |ms| => Touch(ms[i], ids, d, now))
  }

  lemma UpdateAllCons(ms: seq<Message>, ids: set<Id>, d: Delivery, now: Time)
    requires ms != []
    ensures UpdateAll(ms, ids, d, now) == [Touch(ms[0], ids, d, now)] + UpdateAll(ms[1..], ids, d, now)
  {
    assert UpdateAll(ms, ids, d, now)[1..] == UpdateAll(ms[1..], ids, d, now);
  }

  /** Updating a collection one record longer adds that record's update at the end. */
  lemma UpdateAllSnoc(ms: seq<Message>, m: Message, ids: set<Id>, d: Delivery, now: Time)
    ensures UpdateAll(ms + [m], ids, d, now) == UpdateAll(ms, ids, d, now) + [Touch(m, ids, d, now)]
  {
  }

  /** The update keeps the ids of the records, and so their increasing order. */
  lemma UpdateIncrease(ms: seq<Message>, ids: set<Id>, d: Delivery, now: Time)
    requires IdsIncrease(ms)
    ensures IdsIncrease(UpdateAll(ms, ids, d, now))
    ensures forall i :: 0 <= i < |ms| ==> UpdateAll(ms, ids, d, now)[i].id == ms[i].id
  {
  }

  /** The update keeps every record's identity, queue, data, expiry and creation time. */
  lemma UpdateAllKeepsIdentity(ms: seq<Message>, ids: set<Id>, d: Delivery, now: Time, i: int)
    requires 0 <= i < |ms|
    ensures var r := UpdateAll(ms, ids, d, now)[i];
      r.id == ms[i].id && r.queueId == ms[i].queueId && r.data == ms[i].data
      && r.expiresAt == ms[i].expiresAt && r.createdAt == ms[i].createdAt
  {
  }

  /** An update on no ids leaves the collection as it was. */
  lemma UpdateNothing(ms: seq<Message>, d: Delivery, now: Time)
    ensures UpdateAll(ms, {}, d, now) == ms
  {
  }

  /** Ids no record carries make no difference to an update. */
  lemma UpdateIgnoresAbsent(ms: seq<Message>, ids: set<Id>, x: Id, d: Delivery, now: Time)
    requires forall m :: m in ms ==> m.id != x
    ensures UpdateAll(ms, ids, d, now) == UpdateAll(ms, ids - {x}, d, now)
  {
    forall i | 0 <= i < |ms|
      ensures Touch(ms[i], ids, d, now) == Touch(ms[i], ids - {x}, d, now)
    {
      assert ms[i] in ms;
    }
  }

  /** The number of records an update on `ids` matches: its `modifiedCount`. */
  function CountIds(ms: seq<Message>, ids: set<Id>): (k: nat)
    ensures k <= |ms|
    decreases |ms|
  {
    if ms == [] then 0 else (if ms[0].id in ids then 1 else 0) + CountIds(ms[1..], ids)
  }

  lemma {:induction false} CountIdsConcat(a: seq<Message>, b: seq<Message>, ids: set<Id>)
    ensures CountIds(a + b, ids) == CountIds(a, ids) + CountIds(b, ids)
    decreases |a|
  {
    if a == [] {
      assert a + b == b;
    } else {
      assert (a + b)[1..] == a[1..] + b;
      CountIdsConcat(a[1..], b, ids);
    }
  }

  lemma CountNone(ms: seq<Message>)
    ensures CountIds(ms, {}) == 0
    decreases |ms|
  {
    if ms != [] { CountNone(ms[1..]); }
  }

  /** Ids no record carries make no difference to the count. */
  lemma {:induction false} CountIgnoresAbsent(ms: seq<Message>, ids: set<Id>, x: Id)
    requires forall m :: m in ms ==> m.id != x
    ensures CountIds(ms, ids) == CountIds(ms, ids - {x})
    decreases |ms|
  {
    if ms != [] {
      assert ms[0] in ms;
      assert forall m :: m in ms[1..] ==> m in ms;
      CountIgnoresAbsent(ms[1..], ids, x);
    }
  }

  lemma IdSetCons(h: Message, t: seq<Message>)
    ensures IdSet([h] + t) == {h.id} + IdSet(t)
  {
    var s := [h] + t;
    assert s[0] == h;
    assert forall i :: 0 <= i < |t| ==> s[i + 1] == t[i];
    forall x | x in IdSet(s) ensures x in {h.id} + IdSet(t) {
      var i :| 0 <= i < |s| && s[i].id == x;
      if i > 0 { assert t[i - 1].id == x; }
    }
  }

  lemma MatchingCons(h: Message, r: seq<Message>, q: Id, f: Filter)
    ensures Matching([h] + r, q, f) == if Available(h, q, f) then [h] + Matching(r, q, f) else Matching(r, q, f)
  {
    assert ([h] + r)[1..] == r;
  }

  /** No record after the first, and so no record a query over them selects, carries the first record's id. */
  lemma RestIdsAbove(ms: seq<Message>, q: Id, f: Filter, j: nat)
    requires IdsIncrease(ms) && ms != []
    requires j <= |Matching(ms[1..], q, f)|
    ensures forall x :: x in ms[1..] ==> x.id != ms[0].id
    ensures ms[0].id !in IdSet(Matching(ms[1..], q, f)[..j])
  {
    IncreaseTail(ms);
    var r := Matching(ms[1..], q, f);
    MatchingMembers(ms[1..], q, f);
    forall i | 0 <= i < j ensures r[..j][i].id != ms[0].id {
      assert r[i] in r;
    }
  }

  /** When the first record is available, the first `k` selected are it and the first `k - 1` of the rest. */
  lemma PrefixAvailable(ms: seq<Message>, q: Id, f: Filter, k: nat)
    requires ms != [] && Available(ms[0], q, f)
    requires 0 < k <= |Matching(ms, q, f)|
    ensures IdSet(Matching(ms, q, f)[..k]) == {ms[0].id} + IdSet(Matching(ms[1..], q, f)[..k - 1])
  {
    var r := Matching(ms[1..], q, f);
    assert Matching(ms, q, f)[..k] == [ms[0]] + r[..k - 1];
    IdSetCons(ms[0], r[..k - 1]);
  }

  /** An update on the ids of the first `k` available records of a collection without repeated ids modifies exactly `k` records. */
  lemma {:induction false} CountPrefix(ms: seq<Message>, q: Id, f: Filter, k: nat)
    requires IdsIncrease(ms)
    requires k <= |Matching(ms, q, f)|
    ensures CountIds(ms, IdSet(Matching(ms, q, f)[..k])) == k
    decreases |ms|
  {
    if ms != [] {
      IncreaseTail(ms);
      var ids := IdSet(Matching(ms, q, f)[..k]);
      if Available(ms[0], q, f) && k > 0 {
        HeadIds(ms, q, f, k);
        CountIgnoresAbsent(ms[1..], ids, ms[0].id);
        CountPrefix(ms[1..], q, f, k - 1);
      } else if Available(ms[0], q, f) {
        assert ids == {};
        CountNone(ms);
      } else {
        RestIdsAbove(ms, q, f, k);
        CountPrefix(ms[1..], q, f, k);
      }
    }
  }

  /**
   * Hiding the first `k` available records (giving them a delivery state
   * the filter rejects) leaves exactly the remaining ones available, in the
   * same order: a following receive continues where this one stopped.
   */
  lemma {:induction false} HideSelected(ms: seq<Message>, q: Id, f: Filter, k: nat, d: Delivery, now: Time)
    requires IdsIncrease(ms)
    requires k <= |Matching(ms, q, f)|
    requires !Accepts(f, d)
    ensures Matching(UpdateAll(ms, IdSet(Matching(ms, q, f)[..k]), d, now), q, f) == Matching(ms, q, f)[k..]
    decreases |ms|
  {
    if ms != [] {
      IncreaseTail(ms);
      if Available(ms[0], q, f) && k > 0 {
        HideHead(ms, q, f, k, d, now);
        HideSelected(ms[1..], q, f, k - 1, d, now);
      } else if Available(ms[0], q, f) {
        assert IdSet(Matching(ms, q, f)[..k]) == {};
        UpdateNothing(ms, d, now);
      } else {
        HideSkip(ms, q, f, k, d, now);
        HideSelected(ms[1..], q, f, k, d, now);
      }
    }
  }

  /** The step of `HideSelected` past an available first record, which the update hides. */
  lemma HideHead(ms: seq<Message>, q: Id, f: Filter, k: nat, d: Delivery, now: Time)
    requires IdsIncrease(ms) && ms != [] && Available(ms[0], q, f)
    requires 0 < k <= |Matching(ms, q, f)|
    requires !Accepts(f, d)
    ensures Matching(UpdateAll(ms, IdSet(Matching(ms, q, f)[..k]), d, now), q, f)
         == Matching(UpdateAll(ms[1..], IdSet(Matching(ms[1..], q, f)[..k - 1]), d, now), q, f)
    ensures Matching(ms, q, f)[k..] == Matching(ms[1..], q, f)[k - 1..]
  {
    var ids := IdSet(Matching(ms, q, f)[..k]);
    var restIds := IdSet(Matching(ms[1..], q, f)[..k - 1]);
    HeadIds(ms, q, f, k);
    assert ids - {ms[0].id} == restIds;
    var h := Touch(ms[0], ids, d, now);
    assert !Available(h, q, f);
    var tail := UpdateAll(ms[1..], ids, d, now);
    UpdateAllCons(ms, ids, d, now);
    MatchingCons(h, tail, q, f);
    assert Matching(UpdateAll(ms, ids, d, now), q, f) == Matching(tail, q, f);
    UpdateIgnoresAbsent(ms[1..], ids, ms[0].id, d, now);
    assert tail == UpdateAll(ms[1..], restIds, d, now);
    assert Matching(ms, q, f) == [ms[0]] + Matching(ms[1..], q, f);
  }

  /** The ids of the first `k` selected records, with an available first record: its id, then the rest's, which exclude it. */
  lemma HeadIds(ms: seq<Message>, q: Id, f: Filter, k: nat)
    requires IdsIncrease(ms) && ms != [] && Available(ms[0], q, f)
    requires 0 < k <= |Matching(ms, q, f)|
    ensures var ids := IdSet(Matching(ms, q, f)[..k]);
      ms[0].id in ids && ids - {ms[0].id} == IdSet(Matching(ms[1..], q, f)[..k - 1])
    ensures forall x :: x in ms[1..] ==> x.id != ms[0].id
  {
    RestIdsAbove(ms, q, f, k - 1);
    PrefixAvailable(ms, q, f, k);
    var rest := IdSet(Matching(ms[1..], q, f)[..k - 1]);
    assert ({ms[0].id} + rest) - {ms[0].id} == rest;
  }

  /** The step of `HideSelected` past a first record that is not available, which the update leaves alone. */
  lemma HideSkip(ms: seq<Message>, q: Id, f: Filter, k: nat, d: Delivery, now: Time)
    requires IdsIncrease(ms) && ms != [] && !Available(ms[0], q, f)
    requires k <= |Matching(ms, q, f)|
    ensures Matching(UpdateAll(ms, IdSet(Matching(ms, q, f)[..k]), d, now), q, f)
         == Matching(UpdateAll(ms[1..], IdSet(Matching(ms[1..], q, f)[..k]), d, now), q, f)
    ensures Matching(ms, q, f) == Matching(ms[1..], q, f)
  {
    var ids := IdSet(Matching(ms, q, f)[..k]);
    RestIdsAbove(ms, q, f, k);
    UpdateAllCons(ms, ids, d, now);
    MatchingCons(Touch(ms[0], ids, d, now), UpdateAll(ms[1..], ids, d, now), q, f);
  }

  lemma IdsCons(h: Message, t: seq<Message>)
    ensures Ids([h] + t) == [h.id] + Ids(t)
  {
  }

  /**
   * Writing back a delivery state the filter accepts, on records that were
   * available, keeps every record available: the next query finds the same
   * records again, in the same order.
   */
  lemma {:induction false} KeepSelected(ms: seq<Message>, q: Id, f: Filter, ids: set<Id>, d: Delivery, now: Time)
    requires Accepts(f, d)
    requires forall m :: m in ms && m.id in ids ==> Available(m, q, f)
    ensures Ids(Matching(UpdateAll(ms, ids, d, now), q, f)) == Ids(Matching(ms, q, f))
    decreases |ms|
  {
    if ms != [] {
      assert ms[0] in ms;
      assert forall m :: m in ms[1..] ==> m in ms;
      KeepSelected(ms[1..], q, f, ids, d, now);
      UpdateAllCons(ms, ids, d, now);
      var t := Touch(ms[0], ids, d, now);
      MatchingCons(t, UpdateAll(ms[1..], ids, d, now), q, f);
      assert Available(t, q, f) == Available(ms[0], q, f);
      if Available(ms[0], q, f) {
        IdsCons(t, Matching(UpdateAll(ms[1..], ids, d, now), q, f));
        IdsCons(ms[0], Matching(ms[1..], q, f));
      }
    }
  }

  /** `findOne({ _id: id })`: the record with that id, if any. */
  function Lookup(ms: seq<Message>, id: Id): (r: Option<Message>)
    ensures r.Some? ==> r.value in ms && r.value.id == id
    ensures r.None? ==> forall m :: m in ms ==> m.id != id
    decreases |ms|
  {
    if ms == [] then None else if ms[0].id == id then Some(ms[0]) else Lookup(ms[1..], id)
  }

  /** In a collection without repeated ids, looking up the id of a stored record finds that record. */
  lemma LookupFinds(ms: seq<Message>, m: Message)
    requires IdsIncrease(ms)
    requires m in ms
    ensures Lookup(ms, m.id) == Some(m)
  {
    var r := Lookup(ms, m.id);
    var i :| 0 <= i < |ms| && ms[i] == m;
    var j :| 0 <= j < |ms| && ms[j] == r.value;
    assert i == j;
  }

  /** `deleteMany({ _id: id })`: the collection without the records with that id. */
  function Remove(ms: seq<Message>, id: Id): (r: seq<Message>)
    ensures |r| <= |ms|
    decreases |ms|
  {
    if ms == [] then []
    else if ms[0].id == id then Remove(ms[1..], id)
    else [ms[0]] + Remove(ms[1..], id)
  }

  /** Removal keeps every other record and nothing else. */
  lemma {:induction false} RemoveMembers(ms: seq<Message>, id: Id)
    ensures forall m :: m in Remove(ms, id) <==> m in ms && m.id != id
    decreases |ms|
  {
    if ms != [] {
      RemoveMembers(ms[1..], id);
      assert forall m :: m in ms <==> m == ms[0] || m in ms[1..] by {
        assert ms == [ms[0]] + ms[1..];
      }
    }
  }

  /** Removal keeps the increasing order of the ids. */
  lemma {:induction false} RemoveIncrease(ms: seq<Message>, id: Id)
    requires IdsIncrease(ms)
    ensures IdsIncrease(Remove(ms, id))
    decreases |ms|
  {
    if ms != [] {
      IncreaseTail(ms);
      RemoveIncrease(ms[1..], id);
      RemoveMembers(ms[1..], id);
      if ms[0].id != id {
        IncreaseCons(ms[0], Remove(ms[1..], id));
      }
    }
  }

  /** Removal keeps the ids increasing and below any bound they were below. */
  lemma RemoveBelow(ms: seq<Message>, id: Id, bound: Id)
    requires IdsIncrease(ms) && forall i :: 0 <= i < |ms| ==> ms[i].id < bound
    ensures var r := Remove(ms, id); IdsIncrease(r) && forall i :: 0 <= i < |r| ==> r[i].id < bound
  {
    RemoveIncrease(ms, id);
    RemoveMembers(ms, id);
    var r := Remove(ms, id);
    forall a | 0 <= a < |r| ensures r[a].id < bound {
      assert r[a] in ms;
    }
  }

  /** Removing a record that is there, from a collection without repeated ids, removes exactly one record. */
  lemma {:induction false} RemoveOne(ms: seq<Message>, id: Id)
    requires IdsIncrease(ms)
    requires Lookup(ms, id).Some?
    ensures |Remove(ms, id)| == |ms| - 1
    decreases |ms|
  {
    IncreaseTail(ms);
    if ms[0].id == id {
      RemoveAbsent(ms[1..], id);
    } else {
      RemoveOne(ms[1..], id);
    }
  }

  lemma {:induction false} RemoveAbsent(ms: seq<Message>, id: Id)
    requires forall m :: m in ms ==> m.id != id
    ensures Remove(ms, id) == ms
    decreases |ms|
  {
    if ms != [] {
      assert ms[0] in ms;
      assert forall m :: m in ms[1..] ==> m in ms;
      RemoveAbsent(ms[1..], id);
    }
  }

  /** The number of records of queue `q`. */
  function CountQueue(ms: seq<Message>, q: Id): (k: nat)
    ensures k <= |ms|
    decreases |ms|
  {
    if ms == [] then 0 else (if ms[0].queueId == q then 1 else 0) + CountQueue(ms[1..], q)
  }

  lemma {:induction false} CountQueueAppend(ms: seq<Message>, m: Message, q: Id)
    ensures CountQueue(ms + [m], q) == CountQueue(ms, q) + (if m.queueId == q then 1 else 0)
    decreases |ms|
  {
    if ms == [] {
      assert ms + [m] == [m];
    } else {
      assert (ms + [m])[1..] == ms[1..] + [m];
      CountQueueAppend(ms[1..], m, q);
    }
  }

  /** Removing a record takes one off the count of its queue and leaves every other queue's count alone. */
  lemma {:induction false} CountQueueRemove(ms: seq<Message>, id: Id, q: Id)
    requires IdsIncrease(ms)
    ensures var found := Lookup(ms, id);
      CountQueue(Remove(ms, id), q) == CountQueue(ms, q) - (if found.Some? && found.value.queueId == q then 1 else 0)
    decreases |ms|
  {
    if ms != [] {
      IncreaseTail(ms);
      if ms[0].id == id {
        RemoveAbsent(ms[1..], id);
      } else {
        CountQueueRemove(ms[1..], id, q);
      }
    }
  }

  /** An update changes no record's queue, so no queue's count. */
  lemma {:induction false} CountQueueUpdate(ms: seq<Message>, ids: set<Id>, d: Delivery, now: Time, q: Id)
    ensures CountQueue(UpdateAll(ms, ids, d, now), q) == CountQueue(ms, q)
    decreases |ms|
  {
    if ms != [] {
      UpdateAllCons(ms, ids, d, now);
      assert (UpdateAll(ms, ids, d, now))[1..] == UpdateAll(ms[1..], ids, d, now);
      CountQueueUpdate(ms[1..], ids, d, now, q);
    }
  }

  /**
   * What a receive answers: the number of messages, the messages as the
   * query found them (before the update), and the visibility timeout it
   * echoes, which an empty answer leaves out.
   */
  datatype ReceiveReply = ReceiveReply(results: nat, messages: seq<Message>, visibilityTimeout: Option<int>)

  /** The reply to a receive that found nothing. */
  const EmptyReply := ReceiveReply(0, [], None)

  /**
   * A receive that updates the records it selected to a delivery state the
   * filter rejects leaves available exactly the records it did not take, in
   * their order.
   */
  lemma ReceiveContinues(ms: seq<Message>, q: Id, f: Filter, n: int, d: Delivery, now: Time)
    requires IdsIncrease(ms)
    requires !Accepts(f, d)
    ensures var sel := Select(ms, q, f, n);
      Matching(UpdateAll(ms, IdSet(sel), d, now), q, f) == Matching(ms, q, f)[|sel|..]
  {
    var sel := Select(ms, q, f, n);
    HideSelected(ms, q, f, |sel|, d, now);
  }

  /**
   * A second receive after such a receive takes up where the first one
   * stopped: it answers the next available records, as many as its own
   * limit lets through.
   */
  lemma ReceiveThenReceive(ms: seq<Message>, q: Id, f: Filter, n1: int, n2: int, d: Delivery, now: Time)
    requires IdsIncrease(ms)
    requires !Accepts(f, d)
    ensures var all := Matching(ms, q, f);
      var first := Select(ms, q, f, n1);
      var second := Select(UpdateAll(ms, IdSet(first), d, now), q, f, n2);
      second == all[|first|..][..MongoLimit(n2, |all| - |first|)]
  {
    var all := Matching(ms, q, f);
    var first := Select(ms, q, f, n1);
    var after := UpdateAll(ms, IdSet(first), d, now);
    ReceiveContinues(ms, q, f, n1, d, now);
    var rest := Matching(after, q, f);
    assert rest == all[|first|..];
    var second := Select(after, q, f, n2);
    assert |second| == MongoLimit(n2, |all| - |first|);
    assert second == rest[..|second|];
  }

  /** Five available records: a receive of two answers the first two, and a default receive after it the other three. */
  lemma ReceiveTwoThenRest(ms: seq<Message>, q: Id, f: Filter, d: Delivery, now: Time)
    requires IdsIncrease(ms)
    requires !Accepts(f, d)
    requires |Matching(ms, q, f)| == 5
    ensures var first := Select(ms, q, f, 2);
      && first == Matching(ms, q, f)[..2]
      && Select(UpdateAll(ms, IdSet(first), d, now), q, f, DefaultMaxMessages) == Matching(ms, q, f)[2..]
  {
    ReceiveThenReceive(ms, q, f, 2, DefaultMaxMessages, d, now);
  }

  class MessageStore {
    var messages: seq<Message>
    var nextId: Id

    predicate Valid()
      reads this
    {
      IdsIncrease(messages) && forall i :: 0 <= i < |messages| ==> messages[i].id < nextId
    }

    constructor ()
      ensures Valid() && messages == [] && nextId == 0
    {
      messages := [];
      nextId := 0;
    }

    /**
     * `Message.create(fields)` under `schema`: validation (and the schema's
     * hooks), then the insert under the next fresh id; a failed validation
     * stores nothing.
     */
    method Create(
      schema: Schema, now: Time, data: Option<Data>, queueId: Option<Id>, expiresAt: Option<Time>,
      flag: Option<bool>, receivedCount: Option<int>) returns (r: Result<Message>)
      requires Valid()
      modifies this
      ensures Valid()
      ensures r == NewRecord(schema, old(nextId), now, data, queueId, expiresAt, flag, receivedCount)
      ensures r.Ok? ==> messages == old(messages) + [r.value] && nextId == old(nextId) + 1
      ensures r.Err? ==> messages == old(messages) && nextId == old(nextId)
    {
      r := NewRecord(schema, nextId, now, data, queueId, expiresAt, flag, receivedCount);
      if r.Ok? {
        Insert(r.value);
      }
    }

    /** Stores a new record under the next fresh id. */
    method Insert(m: Message)
      requires Valid() && m.id == nextId
      modifies this
      ensures Valid()
      ensures messages == old(messages) + [m] && nextId == old(nextId) + 1
    {
      messages := messages + [m];
      nextId := nextId + 1;
    }

    /** `find({ queueId: q, <f> }).limit(n)`: a scan in collection order that stops once the limit is reached. */
    method Find(q: Id, f: Filter, n: int) returns (sel: seq<Message>)
      ensures sel == Select(messages, q, f, n)
    {
      var cap := MongoLimit(n, |messages|);
      sel := [];
      var i := 0;
      while i < |messages| && |sel| < cap
        invariant 0 <= i <= |messages|
        invariant sel == Matching(messages[..i], q, f)
        invariant |sel| <= cap
      {
        assert messages[..i + 1] == messages[..i] + [messages[i]];
        MatchingConcat(messages[..i], [messages[i]], q, f);
        if Available(messages[i], q, f) {
          sel := sel + [messages[i]];
        }
        i := i + 1;
      }
      SelectStops(messages, q, f, n, i);
    }

    /** `findOne({ _id: id, queueId: q })`. */
    method FindOne(id: Id, q: Id) returns (r: Option<Message>)
      ensures r.Some? ==> r.value in messages && r.value.id == id && r.value.queueId == q
      ensures r.None? ==> forall m :: m in messages ==> !(m.id == id && m.queueId == q)
    {
      var i := 0;
      while i < |messages|
        invariant 0 <= i <= |messages|
        invariant forall j :: 0 <= j < i ==> !(messages[j].id == id && messages[j].queueId == q)
      {
        if messages[i].id == id && messages[i].queueId == q {
          return Some(messages[i]);
        }
        i := i + 1;
      }
      return None;
    }

    /**
     * `updateMany({ _id: { $in: ids } }, { <d>, $inc: { receivedCount: 1 } })`
     * at `now`, answering its `modifiedCount`.
     */
    method UpdateMany(ids: set<Id>, d: Delivery, now: Time) returns (modified: nat)
      requires Valid()
      modifies this
      ensures Valid()
      ensures messages == UpdateAll(old(messages), ids, d, now) && nextId == old(nextId)
      ensures modified == CountIds(old(messages), ids)
    {
      var ms := messages;
      var out := [];
      modified := 0;
      var i := 0;
      while i < |ms|
        invariant 0 <= i <= |ms|
        invariant messages == ms && nextId == old(nextId)
        invariant out == UpdateAll(ms[..i], ids, d, now)
        invariant modified == CountIds(ms[..i], ids)
      {
        assert ms[..i + 1] == ms[..i] + [ms[i]];
        CountIdsConcat(ms[..i], [ms[i]], ids);
        UpdateAllSnoc(ms[..i], ms[i], ids, d, now);
        if ms[i].id in ids {
          modified := modified + 1;
        }
        out := out + [Touch(ms[i], ids, d, now)];
        i := i + 1;
      }
      assert ms[..i] == ms;
      UpdateIncrease(ms, ids, d, now);
      messages := out;
    }

    /** `findByIdAndDelete(id)`: removes the record with that id and answers it, or answers nothing. */
    method DeleteById(id: Id) returns (deleted: Option<Message>)
      requires Valid()
      modifies this
      ensures Valid()
      ensures messages == Remove(old(messages), id) && nextId == old(nextId)
      ensures deleted == Lookup(old(messages), id)
    {
      var ms := messages;
      var out := [];
      deleted := None;
      var i := 0;
      while i < |ms|
        invariant 0 <= i <= |ms|
        invariant messages == ms && nextId == old(nextId)
        invariant out == Remove(ms[..i], id)
        invariant deleted == Lookup(ms[..i], id)
      {
        assert ms[..i + 1] == ms[..i] + [ms[i]];
        RemoveConcat(ms[..i], [ms[i]], id);
        LookupConcat(ms[..i], [ms[i]], id);
        if ms[i].id != id {
          out := out + [ms[i]];
        } else if deleted.None? {
          deleted := Some(ms[i]);
        }
        i := i + 1;
      }
      assert ms[..i] == ms;
      RemoveBelow(ms, id, nextId);
      messages := out;
    }
  }

  lemma {:induction false} RemoveConcat(a: seq<Message>, b: seq<Message>, id: Id)
    ensures Remove(a + b, id) == Remove(a, id) + Remove(b, id)
    decreases |a|
  {
    if a == [] {
      assert a + b == b;
    } else {
      assert (a + b)[1..] == a[1..] + b;
      RemoveConcat(a[1..], b, id);
    }
  }

  lemma {:induction false} LookupConcat(a: seq<Message>, b: seq<Message>, id: Id)
    ensures Lookup(a + b, id) == if Lookup(a, id).Some? then Lookup(a, id) else Lookup(b, id)
    decreases |a|
  {
    if a == [] {
      assert a + b == b;
    } else {
      assert (a + b)[1..] == a[1..] + b;
      LookupConcat(a[1..], b, id);
    }
  }
}
