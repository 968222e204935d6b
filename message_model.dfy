/**
 * The Message record. Two schema shapes exist in the system: the
 * `received`/`receivedAt` shape of the API server and the `visible`/`visibleAt`
 * shape of the packaged server, which also overrides the expiry of every new
 * message in a pre-save hook. Both keep `data`, `queueId` and `expiresAt`
 * required, count receives in `receivedCount` and carry Mongoose timestamps.
 */
module MessageModel {
  import opened Common
  import J = Json

  /** The delivery state a message carries, in the field names of its schema. */
  datatype Delivery =
    | Visibility(visible: bool, visibleAt: Option<Time>)
    | Receipt(received: bool, receivedAt: Option<Time>)

  datatype Message = Message(
    id: Id,
    queueId: Id,
    data: Data,
    expiresAt: Time,
    delivery: Delivery,
    receivedCount: int,
    createdAt: Time,
    updatedAt: Time)

  datatype Shape = VisibilityShape | ReceiptShape

  /**
   * The delivery state of a new record: the flag the caller passes, or the
   * schema default (`visible: true`, `received: false`), and a null time.
   */
  function NewDelivery(shape: Shape, flag: Option<bool>): (d: Delivery)
    ensures d.Visibility? <==> shape == VisibilityShape
    ensures d.Visibility? ==> d.visible == flag.GetOr(true) && d.visibleAt == None
    ensures d.Receipt? ==> d.received == flag.GetOr(false) && d.receivedAt == None
  {
    match shape
    case VisibilityShape => Visibility(flag.GetOr(true), None)
    case ReceiptShape => Receipt(flag.GetOr(false), None)
  }

  /** The required paths a create leaves unset. */
  function MissingPaths(data: Option<Data>, queueId: Option<Id>, expiresAt: Option<Time>): set<string> {
    (if data.None? then {"data"} else {})
    + (if queueId.None? then {"queueId"} else {})
    + (if expiresAt.None? then {"expiresAt"} else {})
  }

  /**
   * `Message.create(fields)` as far as the schema goes: defaults for the
   * delivery state and `receivedCount`, both timestamps set to the same
   * instant, and a validation error naming every missing required path.
   */
  function NewMessage(
    shape: Shape, id: Id, now: Time,
    data: Option<Data>, queueId: Option<Id>, expiresAt: Option<Time>,
    flag: Option<bool>, receivedCount: Option<int>): (r: Result<Message>)
    ensures r.Ok? <==> data.Some? && queueId.Some? && expiresAt.Some?
    ensures r.Err? ==> r.failure == ValidationError(MissingPaths(data, queueId, expiresAt)) && r.failure.paths != {}
    ensures r.Ok? ==> && r.value.id == id
                      && r.value.data == data.value && r.value.queueId == queueId.value
                      && r.value.expiresAt == expiresAt.value
                      && r.value.delivery == NewDelivery(shape, flag)
                      && r.value.receivedCount == receivedCount.GetOr(0)
                      && r.value.createdAt == now && r.value.updatedAt == now
  {
    if data.Some? && queueId.Some? && expiresAt.Some? then
      Ok(Message(id, queueId.value, data.value, expiresAt.value, NewDelivery(shape, flag),
                 receivedCount.GetOr(0), now, now))
    else
      Err(ValidationError(MissingPaths(data, queueId, expiresAt)))
  }

  /**
   * The packaged server's pre-save hook: a document saved for the first time
   * expires the default retention period after `now`, whatever expiry it
   * was given; a document saved again keeps its expiry.
   */
  function PreSave(m: Message, isNew: bool, now: Time): (r: Message)
    ensures isNew ==> r.expiresAt == AddDays(now, DefaultRetentionPeriod)
    ensures !isNew ==> r == m
    ensures r == m.(expiresAt := r.expiresAt)
  {
    if isNew then m.(expiresAt := AddDays(now, DefaultRetentionPeriod)) else m
  }

  /**
   * `Message.create` on the packaged server: validation, then the pre-save hook.
   * The expiry the caller computes never reaches the store.
   */
  function NewPackagedMessage(
    shape: Shape, id: Id, now: Time,
    data: Option<Data>, queueId: Option<Id>, expiresAt: Option<Time>,
    flag: Option<bool>, receivedCount: Option<int>): (r: Result<Message>)
    ensures r.Ok? <==> data.Some? && queueId.Some? && expiresAt.Some?
    ensures r.Ok? ==> r.value.expiresAt == AddDays(now, DefaultRetentionPeriod)
    ensures r.Ok? ==> r.value == NewMessage(shape, id, now, data, queueId, expiresAt, flag, receivedCount).value.(expiresAt := r.value.expiresAt)
  {
    var m := NewMessage(shape, id, now, data, queueId, expiresAt, flag, receivedCount);
    if m.Ok? then Ok(PreSave(m.value, true, now)) else m
  }

  /** Two packaged creates that differ only in the expiry the caller passes store the same record. */
  lemma PackagedExpiryIgnoresCaller(
    shape: Shape, id: Id, now: Time, data: Data, queueId: Id, e1: Time, e2: Time,
    flag: Option<bool>, receivedCount: Option<int>)
    ensures NewPackagedMessage(shape, id, now, Some(data), Some(queueId), Some(e1), flag, receivedCount)
         == NewPackagedMessage(shape, id, now, Some(data), Some(queueId), Some(e2), flag, receivedCount)
  {
  }

  /** Saving an existing record again, for any number of times, keeps the expiry the first save set. */
  lemma ResaveKeepsExpiry(m: Message, now1: Time, now2: Time)
    ensures PreSave(PreSave(m, true, now1), false, now2).expiresAt == AddDays(now1, DefaultRetentionPeriod)
  {
  }

  /**
   * The schema a service stores its messages with: the shape of its
   * delivery fields, and whether a pre-save hook overrides the expiry of a
   * new record (only the packaged server's schema has one).
   */
  datatype Schema = Schema(shape: Shape, expiryHook: bool)

  /** `Message.create` under a given schema. */
  function NewRecord(
    schema: Schema, id: Id, now: Time,
    data: Option<Data>, queueId: Option<Id>, expiresAt: Option<Time>,
    flag: Option<bool>, receivedCount: Option<int>): (r: Result<Message>)
    ensures r.Ok? <==> data.Some? && queueId.Some? && expiresAt.Some?
    ensures r.Err? ==> r.failure == ValidationError(MissingPaths(data, queueId, expiresAt))
    ensures r.Ok? ==> r.value.expiresAt == if schema.expiryHook then AddDays(now, DefaultRetentionPeriod) else expiresAt.value
    ensures r.Ok? ==> r.value == NewMessage(schema.shape, id, now, data, queueId, expiresAt, flag, receivedCount).value.(expiresAt := r.value.expiresAt)
  {
    if schema.expiryHook then NewPackagedMessage(schema.shape, id, now, data, queueId, expiresAt, flag, receivedCount)
    else NewMessage(schema.shape, id, now, data, queueId, expiresAt, flag, receivedCount)
  }

  function OptionalTime(t: Option<Time>): J.Value {
    if t.Some? then J.Num(t.value) else J.Null
  }

  /** The delivery fields of each shape. */
  function DeliveryFields(d: Delivery): set<J.Field> {
    if d.Visibility? then {J.Visible, J.VisibleAt} else {J.Received, J.ReceivedAt}
  }

  /** The fields every stored message has, besides its delivery fields. */
  const StoredFields: set<J.Field> :=
    {J.MongoId, J.VersionKey, J.Data, J.QueueId, J.ExpiresAt, J.ReceivedCount, J.CreatedAt, J.UpdatedAt}

  /** The value of a field in the stored document of a message; the delivery fields are named by its shape. */
  function StoredValue(m: Message, f: J.Field): Option<J.Value> {
    match f
    case MongoId => Some(J.Num(m.id))
    case VersionKey => Some(J.Num(0))
    case Data => Some(J.Str(m.data))
    case QueueId => Some(J.Num(m.queueId))
    case ExpiresAt => Some(J.Num(m.expiresAt))
    case ReceivedCount => Some(J.Num(m.receivedCount))
    case CreatedAt => Some(J.Num(m.createdAt))
    case UpdatedAt => Some(J.Num(m.updatedAt))
    case Visible => if m.delivery.Visibility? then Some(J.Bool(m.delivery.visible)) else None
    case VisibleAt => if m.delivery.Visibility? then Some(OptionalTime(m.delivery.visibleAt)) else None
    case Received => if m.delivery.Receipt? then Some(J.Bool(m.delivery.received)) else None
    case ReceivedAt => if m.delivery.Receipt? then Some(OptionalTime(m.delivery.receivedAt)) else None
    case _ => None
  }

  /** The stored document of a message, version key included. */
  function MessageDocument(m: Message): (doc: J.Document)
    ensures J.HasExactly(doc, StoredFields + DeliveryFields(m.delivery))
  {
    assert forall f :: StoredValue(m, f).Some? <==> f in StoredFields + DeliveryFields(m.delivery);
    (f: J.Field) => StoredValue(m, f)
  }

  /**
   * The message as the API returns it: `id` in place of `_id`, no `__v`,
   * and every other stored field of its shape with its value.
   */
  function MessageJson(m: Message): (view: J.Document)
    ensures view(J.MongoId) == None && view(J.VersionKey) == None
    ensures view(J.PublicId) == Some(J.Num(m.id))
    ensures forall f :: f != J.MongoId && f != J.VersionKey && f != J.PublicId ==> view(f) == StoredValue(m, f)
  {
    J.ToJson(MessageDocument(m))
  }

  /** The availability condition a receive puts into its query. */
  datatype Filter = VisibleTrue | ReceivedFalse

  /**
   * Whether a delivery state satisfies the filter; a record of the other
   * shape lacks the field and does not match, as in a Mongo query.
   */
  predicate Accepts(f: Filter, d: Delivery) {
    match f
    case VisibleTrue => d.Visibility? && d.visible
    case ReceivedFalse => d.Receipt? && !d.received
  }

  /** A fresh record of either shape is available to a receive of that shape. */
  lemma NewMessageAvailable(shape: Shape)
    ensures Accepts(if shape == VisibilityShape then VisibleTrue else ReceivedFalse, NewDelivery(shape, None))
  {
  }
}
