/**
 * The Queue record of the API server's schema: a trimmed, required name, a
 * required owner, a retention period in days that defaults to the configured
 * value and may not be below 1, an optional schema and push endpoint
 * that default to null, and the `createdAt`/`updatedAt` timestamps the
 * schema keeps.
 */
module QueueModel {
  import opened Common
  import J = Json

  datatype Queue = Queue(
    id: Id,
    name: string,
    ownerId: string,
    retentionPeriod: int,
    schema: Option<J.Value>,
    pushEndpoint: Option<string>,
    createdAt: Time,
    updatedAt: Time)

  /** The characters `String.prototype.trim` removes: white space and line terminators. */
  predicate IsSpace(c: char) {
    c == ' ' || c == '\t' || c == '\n' || c == '\r' || c == '\U{000B}' || c == '\U{000C}'
    || c == '\U{00A0}' || c == '\U{1680}' || ('\U{2000}' <= c <= '\U{200A}')
    || c == '\U{2028}' || c == '\U{2029}' || c == '\U{202F}' || c == '\U{205F}'
    || c == '\U{3000}' || c == '\U{FEFF}'
  }

  predicate Blank(s: string) {
    forall i :: 0 <= i < |s| ==> IsSpace(s[i])
  }

  /** `s` with its leading white space removed. */
  function TrimStart(s: string): (r: string)
    ensures |r| <= |s| && r == s[|s| - |r|..]
    ensures Blank(s[..|s| - |r|])
    ensures r == [] || !IsSpace(r[0])
    decreases |s|
  {
    if s != [] && IsSpace(s[0]) then
      var r := TrimStart(s[1..]);
      assert s[1..][|s| - 1 - |r|..] == s[|s| - |r|..];
      assert s[..|s| - |r|] == [s[0]] + s[1..][..|s| - 1 - |r|];
      r
    else s
  }

  /** `s` with its trailing white space removed. */
  function TrimEnd(s: string): (r: string)
    ensures |r| <= |s| && r == s[..|r|]
    ensures Blank(s[|r|..])
    ensures r == [] || !IsSpace(r[|r| - 1])
    decreases |s|
  {
    if s != [] && IsSpace(s[|s| - 1]) then
      var r := TrimEnd(s[..|s| - 1]);
      assert s[..|s| - 1][..|r|] == s[..|r|];
      assert s[|r|..] == s[..|s| - 1][|r|..] + [s[|s| - 1]];
      r
    else s
  }

  /** The value the schema's `trim: true` setter stores. */
  function Trim(s: string): string {
    TrimEnd(TrimStart(s))
  }

  /** A trimmed name has neither leading nor trailing white space, and it is a part of the input. */
  lemma TrimmedHasNoOuterSpace(s: string)
    ensures var r := Trim(s);
      && (r == [] || (!IsSpace(r[0]) && !IsSpace(r[|r| - 1])))
      && r == s[|s| - |TrimStart(s)|..][..|r|]
  {
    var t := TrimStart(s);
    var r := TrimEnd(t);
    if r != [] {
      assert r[0] == t[0];
    }
  }

  /** The name is rejected as missing exactly when it is absent or nothing but white space. */
  lemma {:induction false} TrimEmptyIffBlank(s: string)
    ensures Trim(s) == [] <==> Blank(s)
  {
    var t := TrimStart(s);
    if !Blank(s) {
      var i :| 0 <= i < |s| && !IsSpace(s[i]);
      assert t != [];
      var r := TrimEnd(t);
      assert t[|r|..] == t || r != [];
    }
  }

  /** Trimming a second time changes nothing. */
  lemma TrimIdempotent(s: string)
    ensures Trim(Trim(s)) == Trim(s)
  {
    var r := Trim(s);
    TrimmedHasNoOuterSpace(s);
    assert TrimStart(r) == r;
    assert TrimEnd(r) == r;
  }

  /** The paths Mongoose's validation rejects for a new queue. */
  function InvalidPaths(name: Option<string>, ownerId: Option<string>, retentionPeriod: Option<int>): set<string> {
    (if name.None? || Trim(name.value) == "" then {"name"} else {})
    + (if ownerId.None? || ownerId.value == "" then {"ownerId"} else {})
    + (if retentionPeriod.GetOr(DefaultRetentionPeriod) < 1 then {"retentionPeriod"} else {})
  }

  /**
   * `Queue.create`: casting (trimming the name), applying the defaults, then
   * validating the required fields and the `min: 1` bound of the retention period.
   */
  function NewQueue(
    id: Id, now: Time, name: Option<string>, ownerId: Option<string>, retentionPeriod: Option<int>,
    schema: Option<J.Value>, pushEndpoint: Option<string>): (r: Result<Queue>)
    ensures r.Ok? <==> name.Some? && !Blank(name.value) && Truthy(ownerId)
                       && retentionPeriod.GetOr(DefaultRetentionPeriod) >= 1
    ensures r.Err? ==> r.failure == ValidationError(InvalidPaths(name, ownerId, retentionPeriod))
                       && r.failure.paths != {}
    ensures r.Ok? ==> && r.value.id == id
                      && r.value.name == Trim(name.value) && r.value.name != ""
                      && r.value.ownerId == ownerId.value
                      && r.value.retentionPeriod >= 1
                      && (retentionPeriod.None? ==> r.value.retentionPeriod == DefaultRetentionPeriod)
                      && (retentionPeriod.Some? ==> r.value.retentionPeriod == retentionPeriod.value)
                      && r.value.schema == schema && r.value.pushEndpoint == pushEndpoint
                      && r.value.createdAt == now && r.value.updatedAt == now
  {
    if name.None? then
      Err(ValidationError(InvalidPaths(name, ownerId, retentionPeriod)))
    else
      TrimEmptyIffBlank(name.value);
      var bad := InvalidPaths(name, ownerId, retentionPeriod);
      if bad == {} then
        Ok(Queue(id, Trim(name.value), ownerId.value, retentionPeriod.GetOr(DefaultRetentionPeriod), schema, pushEndpoint, now, now))
      else
        Err(ValidationError(bad))
  }

  function Nullable(s: Option<string>): J.Value {
    if s.Some? then J.Str(s.value) else J.Null
  }

  /** The stored document of a queue, version key and timestamps included. */
  function QueueDocument(q: Queue): (doc: J.Document)
    ensures J.HasExactly(doc, {J.MongoId, J.VersionKey, J.Name, J.OwnerId, J.RetentionPeriod, J.Schema, J.PushEndpoint,
                               J.CreatedAt, J.UpdatedAt})
  {
    (f: J.Field) => match f
      case MongoId => Some(J.Num(q.id))
      case VersionKey => Some(J.Num(0))
      case Name => Some(J.Str(q.name))
      case OwnerId => Some(J.Str(q.ownerId))
      case RetentionPeriod => Some(J.Num(q.retentionPeriod))
      case Schema => Some(q.schema.GetOr(J.Null))
      case PushEndpoint => Some(Nullable(q.pushEndpoint))
      case CreatedAt => Some(J.Num(q.createdAt))
      case UpdatedAt => Some(J.Num(q.updatedAt))
      case _ => None
  }

  /**
   * The queue as the API returns it: `id` instead of `_id`, no `__v`, and
   * every field of the record with its value, an unset schema or push
   * endpoint as null.
   */
  function QueueJson(q: Queue): (view: J.Document)
    ensures J.HasExactly(view, {J.PublicId, J.Name, J.OwnerId, J.RetentionPeriod, J.Schema, J.PushEndpoint,
                                J.CreatedAt, J.UpdatedAt})
    ensures view(J.PublicId) == Some(J.Num(q.id))
    ensures view(J.Name) == Some(J.Str(q.name)) && view(J.OwnerId) == Some(J.Str(q.ownerId))
    ensures view(J.RetentionPeriod) == Some(J.Num(q.retentionPeriod))
    ensures view(J.Schema) == Some(q.schema.GetOr(J.Null)) && view(J.PushEndpoint) == Some(Nullable(q.pushEndpoint))
    ensures view(J.CreatedAt) == Some(J.Num(q.createdAt)) && view(J.UpdatedAt) == Some(J.Num(q.updatedAt))
  {
    var doc := QueueDocument(q);
    J.ToJsonFields(doc, {J.MongoId, J.VersionKey, J.Name, J.OwnerId, J.RetentionPeriod, J.Schema, J.PushEndpoint,
                         J.CreatedAt, J.UpdatedAt});
    J.ToJson(doc)
  }
}
