/**
 * The notification server's record of a captured change: what happened
 * (event, document, collection, operation), the change itself, and how far
 * its processing got. The store below is the Notification collection as the
 * change-stream service uses it.
 */
module Notifications {
  import opened Common
  import J = Json

  /** The processing states the schema's enum admits. */
  datatype Status = Pending | Processing | Completed | Failed

  function StatusName(s: Status): string {
    match s
    case Pending => "pending"
    case Processing => "processing"
    case Completed => "completed"
    case Failed => "failed"
  }

  /** The enum validator: a status string is accepted only when it names one of the four states. */
  function ParseStatus(s: string): (r: Option<Status>)
    ensures r.Some? ==> StatusName(r.value) == s
  {
    if s == "pending" then Some(Pending)
    else if s == "processing" then Some(Processing)
    else if s == "completed" then Some(Completed)
    else if s == "failed" then Some(Failed)
    else None
  }

  /** Every state's name is accepted, and read back as that state. */
  lemma StatusRoundTrip(s: Status)
    ensures ParseStatus(StatusName(s)) == Some(s)
  {
  }

  /**
   * The `payload` object: the changed document, the description of an
   * update, and the resume token of the change, each absent when unset.
   */
  datatype Payload = Payload(fullDocument: Option<J.Value>, updateDescription: Option<J.Value>, resumeToken: Option<string>)

  /** The schema default `{}`. */
  const EmptyPayload := Payload(None, None, None)

  datatype Notification = Notification(
    id: Id,
    event: string,
    documentId: string,
    collection: string,
    operationType: string,
    payload: Payload,
    status: Status,
    attempts: int,
    error: Option<string>,
    processedAt: Option<Time>,
    createdAt: Time,
    updatedAt: Time)

  /** The paths validation rejects: a required string that is unset or empty, a status outside the enum. */
  function InvalidPaths(
    event: Option<string>, documentId: Option<string>, collection: Option<string>, operationType: Option<string>,
    status: Option<string>): set<string>
  {
    (if !Truthy(event) then {"event"} else {})
    + (if !Truthy(documentId) then {"documentId"} else {})
    + (if !Truthy(collection) then {"collection"} else {})
    + (if !Truthy(operationType) then {"operationType"} else {})
    + (if status.Some? && ParseStatus(status.value).None? then {"status"} else {})
  }

  /**
   * `Notification.create(fields)`: validation, then the record with the
   * defaults (an empty payload, status pending, no attempts) and both
   * timestamps at `now`.
   */
  function NewNotification(
    id: Id, now: Time,
    event: Option<string>, documentId: Option<string>, collection: Option<string>, operationType: Option<string>,
    payload: Option<Payload>, status: Option<string>, attempts: Option<int>,
    error: Option<string>, processedAt: Option<Time>): (r: Result<Notification>)
    ensures r.Ok? <==> && Truthy(event) && Truthy(documentId) && Truthy(collection) && Truthy(operationType)
                       && (status.None? || ParseStatus(status.value).Some?)
    ensures r.Err? ==> r.failure == ValidationError(InvalidPaths(event, documentId, collection, operationType, status))
                       && r.failure.paths != {}
    ensures r.Ok? ==> && r.value.id == id
                      && r.value.event == event.value && r.value.documentId == documentId.value
                      && r.value.collection == collection.value && r.value.operationType == operationType.value
                      && r.value.payload == payload.GetOr(EmptyPayload)
                      && StatusName(r.value.status) == status.GetOr("pending")
                      && r.value.attempts == attempts.GetOr(0)
                      && r.value.error == error && r.value.processedAt == processedAt
                      && r.value.createdAt == now && r.value.updatedAt == now
  {
    var bad := InvalidPaths(event, documentId, collection, operationType, status);
    if bad != {} then Err(ValidationError(bad))
    else
      var s := if status.Some? then ParseStatus(status.value).value else Pending;
      Ok(Notification(id, event.value, documentId.value, collection.value, operationType.value,
                      payload.GetOr(EmptyPayload), s, attempts.GetOr(0), error, processedAt, now, now))
  }

  /** A create that names none of the required fields is rejected on all four. */
  lemma RequiredFields(id: Id, now: Time)
    ensures NewNotification(id, now, None, None, None, None, None, None, None, None, None)
         == Err(ValidationError({"event", "documentId", "collection", "operationType"}))
  {
    assert InvalidPaths(None, None, None, None, None) == {"event", "documentId", "collection", "operationType"};
  }

  /** A create that sets no status and no attempts yields a pending record with no attempts. */
  lemma Defaults(id: Id, now: Time, event: string, documentId: string, collection: string, operationType: string, payload: Payload)
    requires event != "" && documentId != "" && collection != "" && operationType != ""
    ensures var r := NewNotification(id, now, Some(event), Some(documentId), Some(collection), Some(operationType),
                                     Some(payload), None, None, None, None);
      r.Ok? && r.value.status == Pending && r.value.attempts == 0 && r.value.payload == payload
  {
    var r := NewNotification(id, now, Some(event), Some(documentId), Some(collection), Some(operationType),
                             Some(payload), None, None, None, None);
    StatusRoundTrip(r.value.status);
    assert ParseStatus(StatusName(r.value.status)) == Some(Pending);
  }

  /** The stored `payload` object: only the keys that were set. */
  function PayloadValue(p: Payload): J.Value {
    J.Object(
      (if p.fullDocument.Some? then map["fullDocument" := p.fullDocument.value] else map[])
      + (if p.updateDescription.Some? then map["updateDescription" := p.updateDescription.value] else map[])
      + (if p.resumeToken.Some? then map["resumeToken" := J.Str(p.resumeToken.value)] else map[]))
  }

  /** The fields every stored notification has. */
  const StoredFields: set<J.Field> :=
    {J.MongoId, J.VersionKey, J.Event, J.DocumentId, J.Collection, J.OperationType, J.Payload, J.Status, J.Attempts,
     J.CreatedAt, J.UpdatedAt}

  /** The optional fields a notification has set. */
  function OptionalFields(n: Notification): set<J.Field> {
    (if n.error.Some? then {J.Error} else {}) + (if n.processedAt.Some? then {J.ProcessedAt} else {})
  }

  function StoredValue(n: Notification, f: J.Field): Option<J.Value> {
    match f
    case MongoId => Some(J.Num(n.id))
    case VersionKey => Some(J.Num(0))
    case Event => Some(J.Str(n.event))
    case DocumentId => Some(J.Str(n.documentId))
    case Collection => Some(J.Str(n.collection))
    case OperationType => Some(J.Str(n.operationType))
    case Payload => Some(PayloadValue(n.payload))
    case Status => Some(J.Str(StatusName(n.status)))
    case Attempts => Some(J.Num(n.attempts))
    case Error => if n.error.Some? then Some(J.Str(n.error.value)) else None
    case ProcessedAt => if n.processedAt.Some? then Some(J.Num(n.processedAt.value)) else None
    case CreatedAt => Some(J.Num(n.createdAt))
    case UpdatedAt => Some(J.Num(n.updatedAt))
    case _ => None
  }

  /** The stored document of a notification, version key included. */
  function NotificationDocument(n: Notification): (doc: J.Document)
    ensures J.HasExactly(doc, StoredFields + OptionalFields(n))
  {
    assert forall f :: StoredValue(n, f).Some? <==> f in StoredFields + OptionalFields(n);
    (f: J.Field) => StoredValue(n, f)
  }

  /**
   * The notification as `toJSON` renders it: `id` in place of `_id`, no
   * `__v`, and every other stored field with its value.
   */
  function NotificationJson(n: Notification): (view: J.Document)
    ensures view(J.MongoId) == None && view(J.VersionKey) == None
    ensures view(J.PublicId) == Some(J.Num(n.id))
    ensures forall f :: f != J.MongoId && f != J.VersionKey && f != J.PublicId ==> view(f) == StoredValue(n, f)
  {
    J.ToJson(NotificationDocument(n))
  }

  /** Record ids increase along the collection. */
  predicate NoteIdsIncrease(ns: seq<Notification>) {
    forall i, j :: 0 <= i < j < |ns| ==> ns[i].id < ns[j].id
  }

  /**
   * `findOne({ collection: c }, {}, { sort: { createdAt: -1 } })`: a record
   * of collection `c` created no earlier than any other. Which of several
   * records created at the same instant is returned is left open.
   */
  function LatestIn(ns: seq<Notification>, c: string): (r: Option<Notification>)
    ensures r.Some? ==> r.value in ns && r.value.collection == c
    ensures r.Some? ==> forall i :: 0 <= i < |ns| && ns[i].collection == c ==> ns[i].createdAt <= r.value.createdAt
    ensures r.None? ==> forall i :: 0 <= i < |ns| ==> ns[i].collection != c
    decreases |ns|
  {
    if ns == [] then None
    else
      var init, last := ns[..|ns| - 1], ns[|ns| - 1];
      var rest := LatestIn(init, c);
      assert forall i :: 0 <= i < |init| ==> ns[i] == init[i];
      if last.collection == c && (rest.None? || rest.value.createdAt <= last.createdAt) then Some(last) else rest
  }

  /** A record of `c` created no earlier than every other record of `c` becomes the latest of `c`. */
  lemma LatestAfterAppend(ns: seq<Notification>, n: Notification)
    requires forall i :: 0 <= i < |ns| && ns[i].collection == n.collection ==> ns[i].createdAt <= n.createdAt
    ensures LatestIn(ns + [n], n.collection) == Some(n)
  {
    assert (ns + [n])[..|ns|] == ns;
  }

  /**
   * `findByIdAndUpdate(id, { status, error })`: the record with that id takes
   * the new status and error and a new `updatedAt`; no record's attempts,
   * payload or creation time change, and every other record stays as it is.
   */
  function Update(ns: seq<Notification>, id: Id, status: Status, error: Option<string>, now: Time): (r: seq<Notification>)
    ensures |r| == |ns|
    ensures forall i :: 0 <= i < |ns| ==>
      && r[i].id == ns[i].id && r[i].attempts == ns[i].attempts && r[i].payload == ns[i].payload
      && r[i].createdAt == ns[i].createdAt
      && (ns[i].id != id ==> r[i] == ns[i])
      && (ns[i].id == id ==> r[i] == ns[i].(status := status, error := error, updatedAt := now))
  {
    seq(|ns|, i requires 0 <= i < |ns| =>
      if ns[i].id == id then ns[i].(status := status, error := error, updatedAt := now) else ns[i])
  }

  /** An update of the record just added changes that record alone. */
  lemma UpdateLast(ns: seq<Notification>, n: Notification, status: Status, error: Option<string>, now: Time)
    requires forall i :: 0 <= i < |ns| ==> ns[i].id < n.id
    ensures Update(ns + [n], n.id, status, error, now) == ns + [n.(status := status, error := error, updatedAt := now)]
  {
  }

  class NotificationStore {
    var notifications: seq<Notification>
    var nextId: Id

    predicate Valid()
      reads this
    {
      NoteIdsIncrease(notifications) && forall i :: 0 <= i < |notifications| ==> notifications[i].id < nextId
    }

    constructor ()
      ensures Valid() && notifications == [] && nextId == 0
    {
      notifications := [];
      nextId := 0;
    }

    /** `Notification.create(fields)`: validation, then the insert under the next fresh id. */
    method Create(
      now: Time,
      event: Option<string>, documentId: Option<string>, collection: Option<string>, operationType: Option<string>,
      payload: Option<Payload>, status: Option<string>, attempts: Option<int>,
      error: Option<string>, processedAt: Option<Time>)
      returns (r: Result<Notification>)
      requires Valid()
      modifies this
      ensures Valid()
      ensures r == NewNotification(old(nextId), now, event, documentId, collection, operationType,
                                   payload, status, attempts, error, processedAt)
      ensures r.Ok? ==> notifications == old(notifications) + [r.value] && nextId == old(nextId) + 1
      ensures r.Err? ==> notifications == old(notifications) && nextId == old(nextId)
    {
      r := NewNotification(nextId, now, event, documentId, collection, operationType,
                           payload, status, attempts, error, processedAt);
      if r.Ok? {
        notifications := notifications + [r.value];
        nextId := nextId + 1;
      }
    }

    /** `findByIdAndUpdate(id, { status, error })` at time `now`. */
    method FindByIdAndUpdate(id: Id, status: Status, error: Option<string>, now: Time)
      requires Valid()
      modifies this
      ensures Valid()
      ensures notifications == Update(old(notifications), id, status, error, now) && nextId == old(nextId)
    {
      notifications := Update(notifications, id, status, error, now);
    }
  }
}
