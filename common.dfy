/**
 * Definitions shared by every part of the broker model: optional values,
 * the error results the controllers raise, identifiers, time and the
 * configuration constants the controllers read.
 */
module Common {

  datatype Option<+T> = None | Some(value: T) {
    function GetOr(default: T): T {
      match this
      case Some(v) => v
      case None => default
    }
  }

  /** Document identity. The store allocates fresh ones, as Mongo does with ObjectIds. */
  type Id = nat

  /** A point in time, in milliseconds since the epoch (`Date.now()`). */
  type Time = int

  /** The opaque `data` payload of a message, kept in its serialized form. */
  type Data = string

  const MsPerSecond: int := 1000
  const MsPerDay: int := 86_400_000

  /** `d.setDate(d.getDate() + days)`, with days counted as whole days. */
  function AddDays(t: Time, days: int): Time {
    t + days * MsPerDay
  }

  /** `d.setSeconds(d.getSeconds() + seconds)`. */
  function AddSeconds(t: Time, seconds: int): Time {
    t + seconds * MsPerSecond
  }

  /** `config.defaultRetentionPeriod` when DEFAULT_RETENTION_PERIOD is unset (days). */
  const DefaultRetentionPeriod: int := 14
  /** `config.visibilityTimeout` (seconds). */
  const DefaultVisibilityTimeout: int := 30
  /** The `maxMessages` a receive uses when the query does not give one. */
  const DefaultMaxMessages: int := 10
  /** The principal the queue-service controllers fall back to when no user is authenticated. */
  const Anonymous: string := "anonymous"

  /** Why a controller rejected a request; the comment gives the message text. */
  datatype Reason =
    | QueueNotFound                    // "Queue not found"
    | QueueNotFoundWithId(id: Id)      // "Queue not found with ID: <id>"
    | MessageNotFound                  // "Message not found"
    | TopicNotFound                    // "Topic not found"
    | TopicNotFoundWithId(id: Id)      // "Topic not found with ID: <id>"
    | TopicAccessDenied                // "Not authorized to access this topic"
    | TopicModifyDenied                // "Not authorized to modify this topic"
    | TopicPublishDenied               // "Not authorized to publish to this topic"
    | TopicDeleteDenied                // "Not authorized to delete this topic"
    | AlreadySubscribed                // "Queue is already subscribed to this topic"
    | NoSubscribers                    // "Topic has no subscribers"
    | QueueAccessDenied                // "You do not have permission to access this queue"
    | QueueDeleteDenied                // "You do not have permission to delete this queue"
    | QueueMetricsDenied               // "Not authorized to access this queue"

  /**
   * An `AppError(message, statusCode)` raised by a controller, or a schema
   * validation failure naming every path that failed, as Mongoose reports it.
   */
  datatype Failure = AppError(status: int, reason: Reason) | ValidationError(paths: set<string>)

  datatype Result<+T> = Ok(value: T) | Err(failure: Failure)

  /** The status code a failure carries, when it is an `AppError`. */
  predicate HasStatus<T>(r: Result<T>, status: int) {
    r.Err? && r.failure.AppError? && r.failure.status == status
  }

  /** A JavaScript string in a truthiness test: present and not empty. */
  predicate Truthy(s: Option<string>) {
    s.Some? && s.value != ""
  }

  function DigitChar(d: nat): char
    requires d < 10
  {
    "0123456789"[d]
  }

  /** Decimal rendering of an id, as it appears inside an error message. */
  function Decimal(n: nat): (s: string)
    ensures |s| >= 1
    ensures forall i :: 0 <= i < |s| ==> '0' <= s[i] <= '9'
    decreases n
  {
    if n < 10 then [DigitChar(n)] else Decimal(n / 10) + [DigitChar(n % 10)]
  }

  /** The message text the error handler sends for each reason. */
  function Text(r: Reason): string {
    match r
    case QueueNotFound => "Queue not found"
    case QueueNotFoundWithId(id) => "Queue not found with ID: " + Decimal(id)
    case MessageNotFound => "Message not found"
    case TopicNotFound => "Topic not found"
    case TopicNotFoundWithId(id) => "Topic not found with ID: " + Decimal(id)
    case TopicAccessDenied => "Not authorized to access this topic"
    case TopicModifyDenied => "Not authorized to modify this topic"
    case TopicPublishDenied => "Not authorized to publish to this topic"
    case TopicDeleteDenied => "Not authorized to delete this topic"
    case AlreadySubscribed => "Queue is already subscribed to this topic"
    case NoSubscribers => "Topic has no subscribers"
    case QueueAccessDenied => "You do not have permission to access this queue"
    case QueueDeleteDenied => "You do not have permission to delete this queue"
    case QueueMetricsDenied => "Not authorized to access this queue"
  }

  /** Distinct seqs: every element occurs once. */
  predicate Distinct<T(==)>(s: seq<T>) {
    forall i, j :: 0 <= i < j < |s| ==> s[i] != s[j]
  }
}
