/**
 * Stored documents and the JSON views the schemas install. Field names are
 * an enumeration rather than strings; `Name` gives each its spelling.
 */
module Json {
  import opened Common

  datatype Field =
    | MongoId | VersionKey | PublicId
    | Name | OwnerId | RetentionPeriod | Schema | PushEndpoint
    | Data | QueueId | ExpiresAt | Visible | VisibleAt | Received | ReceivedAt | ReceivedCount
    | CreatedAt | UpdatedAt
    | Event | DocumentId | Collection | OperationType | Payload | Status | Attempts | Error | ProcessedAt

  /** The spelling of each field in a stored document. */
  function Spelling(f: Field): string {
    match f
    case MongoId => "_id"
    case VersionKey => "__v"
    case PublicId => "id"
    case Name => "name"
    case OwnerId => "ownerId"
    case RetentionPeriod => "retentionPeriod"
    case Schema => "schema"
    case PushEndpoint => "pushEndpoint"
    case Data => "data"
    case QueueId => "queueId"
    case ExpiresAt => "expiresAt"
    case Visible => "visible"
    case VisibleAt => "visibleAt"
    case Received => "received"
    case ReceivedAt => "receivedAt"
    case ReceivedCount => "receivedCount"
    case CreatedAt => "createdAt"
    case UpdatedAt => "updatedAt"
    case Event => "event"
    case DocumentId => "documentId"
    case Collection => "collection"
    case OperationType => "operationType"
    case Payload => "payload"
    case Status => "status"
    case Attempts => "attempts"
    case Error => "error"
    case ProcessedAt => "processedAt"
  }

  /** A field value of a stored document, as far as the JSON views need one. */
  datatype Value = Str(s: string) | Num(n: int) | Bool(b: bool) | Null | Object(fields: map<string, Value>)

  /** A stored document or a JSON view: the value of each field, `None` where the field is absent. */
  type Document = Field -> Option<Value>

  /** The fields present in a document, out of a given set of candidates. */
  predicate HasExactly(doc: Document, fields: set<Field>) {
    forall f :: doc(f).Some? <==> f in fields
  }

  /**
   * The JSON view every schema in the system installs: the internal `_id`
   * is exposed as `id`, `_id` and the version key `__v` are removed, and
   * every other field is kept as it is.
   */
  function ToJson(doc: Document): (view: Document)
    ensures view(MongoId) == None && view(VersionKey) == None
    ensures view(PublicId) == doc(MongoId)
    ensures forall f :: f != MongoId && f != VersionKey && f != PublicId ==> view(f) == doc(f)
  {
    f => if f == MongoId || f == VersionKey then None else if f == PublicId then doc(MongoId) else doc(f)
  }

  /** The view of a document that has an `_id` and no `id` of its own has exactly the document's other fields plus `id`. */
  lemma ToJsonFields(doc: Document, fields: set<Field>)
    requires HasExactly(doc, fields) && MongoId in fields && PublicId !in fields
    ensures HasExactly(ToJson(doc), fields - {MongoId, VersionKey} + {PublicId})
  {
  }
}
