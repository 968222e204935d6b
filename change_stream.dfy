/**
 * The notification server's change-stream service: it watches the
 * `messages` and `queues` collections, records every change as one
 * notification, keeps the latest resume token of each collection in
 * memory, and resumes a stream from that token or, failing that, from the
 * token of the collection's latest notification.
 *
 * That fallback is written in `watchCollection` as a read of a top-level
 * `resumeToken`, which no notification has (the token sits in the payload),
 * so as written it resumes after a token without data. `ResumePointAsWritten`
 * models that read; the service class below follows the corrected choice,
 * `ResumePoint`, which reads the token from the payload.
 *
 * The streams themselves are outside the model: a stream is the record of
 * one `watch` call (the collection and the options it was opened with),
 * and the service keeps the log of streams it opened and closed.
 */
module ChangeStreams {
  import opened Common
  import J = Json
  import opened Notifications

  /** The collections the service watches, in the order it opens them. */
  const Watched: seq<string> := ["messages", "queues"]

  /** A change stream resume token, `{ _data }`. */
  datatype Token = Token(data: Option<string>)

  /**
   * A change event as the stream delivers it: its resume token `_id`, the
   * operation, the `_id` of the changed document (rendered as a string),
   * and the document and update description when the stream sends them.
   */
  datatype Change = Change(
    id: Option<Token>,
    operationType: string,
    documentKey: Option<string>,
    fullDocument: Option<J.Value>,
    updateDescription: Option<J.Value>)

  /** The options a stream is opened with. */
  datatype WatchOptions = WatchOptions(batchSize: nat, fullDocument: string, maxAwaitTimeMS: nat, resumeAfter: Option<Token>)

  /** The configured options, with `resumeAfter` only when there is a token. */
  function Options(resumeAfter: Option<Token>): WatchOptions {
    WatchOptions(100, "updateLookup", 1000, resumeAfter)
  }

  /** The stream one `watch` call opened: the `serial`-th, on `collection`. */
  datatype Stream = Stream(serial: nat, collection: string, options: WatchOptions)

  /**
   * `determineEventType`: the five named events for inserts, updates and
   * deletes of messages and inserts and updates of queues, and
   * `"<collection>.<operation>"` for anything else.
   */
  function DetermineEventType(c: string, op: string): (e: string)
    ensures |e| > 0
  {
    if c == "messages" && op == "insert" then "message.created"
    else if c == "messages" && op == "update" then "message.updated"
    else if c == "messages" && op == "delete" then "message.deleted"
    else if c == "queues" && op == "insert" then "queue.created"
    else if c == "queues" && op == "update" then "queue.updated"
    else c + "." + op
  }

  /** The pairs with an event name of their own. */
  predicate Named(c: string, op: string) {
    (c == "messages" && op in {"insert", "update", "delete"}) || (c == "queues" && op in {"insert", "update"})
  }

  /** Any other pair is named after its collection and operation; a queue deletion, for one, is `queues.delete`. */
  lemma EventFallback(c: string, op: string)
    ensures !Named(c, op) ==> DetermineEventType(c, op) == c + "." + op
    ensures DetermineEventType("queues", "delete") == "queues.delete"
  {
  }

  /** The initial of the past participle a named event ends in: created, updated, deleted. */
  function Verb(op: string): char {
    if op == "insert" then 'c' else if op == "update" then 'u' else 'd'
  }

  /**
   * The character after the collection's length tells the cases apart: the
   * separating dot for a fallback name, the initial of the verb for a named
   * event.
   */
  lemma EventMarker(c: string, op: string)
    requires c in Watched
    ensures var e := DetermineEventType(c, op);
      && |e| > |c| && e[0] == c[0]
      && (Named(c, op) ==> e[|c|] == Verb(op))
      && (!Named(c, op) ==> e[|c|] == '.' && e[|c| + 1..] == op)
  {
    var e := DetermineEventType(c, op);
    if !Named(c, op) {
      assert e == c + "." + op;
      assert e[|c|] == (c + ".")[|c|];
      assert e[|c| + 1..] == op;
    }
  }

  /**
   * On the watched collections the event names one change kind: two changes
   * with the same event come from the same collection and operation.
   */
  lemma EventIdentifiesChange(c1: string, op1: string, c2: string, op2: string)
    requires c1 in Watched && c2 in Watched
    requires DetermineEventType(c1, op1) == DetermineEventType(c2, op2)
    ensures c1 == c2 && op1 == op2
  {
    EventMarker(c1, op1);
    EventMarker(c2, op2);
    assert c1[0] == c2[0];
  }

  /** The branch of `processNotification` an event takes. */
  datatype Route = MessageCreated | MessageUpdated | OtherMessageEvent | QueueEvent | Unrouted

  predicate StartsWith(s: string, prefix: string) {
    |prefix| <= |s| && s[..|prefix|] == prefix
  }

  function RouteOf(event: string): Route {
    if StartsWith(event, "message.") then
      if event == "message.created" then MessageCreated
      else if event == "message.updated" then MessageUpdated
      else OtherMessageEvent
    else if StartsWith(event, "queue.") then QueueEvent
    else Unrouted
  }

  /**
   * Message deletions reach the message branch but neither of its cases,
   * and queue deletions, named `queues.delete`, reach no branch at all.
   */
  lemma DeletionsRoutes()
    ensures RouteOf(DetermineEventType("messages", "delete")) == OtherMessageEvent
    ensures RouteOf(DetermineEventType("queues", "delete")) == Unrouted
    ensures RouteOf(DetermineEventType("messages", "insert")) == MessageCreated
    ensures RouteOf(DetermineEventType("queues", "update")) == QueueEvent
  {
    assert "message.deleted"[..8] == "message.";
    assert "message.created"[..8] == "message.";
    assert "queue.updated"[..6] == "queue.";
    assert "queues.delete"[..8] != "message." by { assert "queues.delete"[0] != "message."[0]; }
    assert "queues.delete"[..6] != "queue." by { assert "queues.delete"[5] != "queue."[5]; }
  }

  /**
   * The notification `handleChange` creates for change `change` of
   * collection `c`: none when the change has no resume token or no document
   * key (reading them throws, and the handler swallows the error), otherwise
   * the create of a completed record, which validation rejects only for an
   * empty operation, document id or collection.
   */
  function ChangeNotification(id: Id, c: string, change: Change, now: Time): (r: Option<Result<Notification>>)
    ensures r.Some? <==> change.id.Some? && change.documentKey.Some?
    ensures r.Some? ==> (r.value.Ok? <==> change.operationType != "" && change.documentKey.value != "" && c != "")
    ensures r.Some? && r.value.Ok? ==>
      var n := r.value.value;
      && n.id == id && n.event == DetermineEventType(c, change.operationType)
      && n.documentId == change.documentKey.value && n.collection == c && n.operationType == change.operationType
      && n.payload == Payload(change.fullDocument, change.updateDescription, change.id.value.data)
      && n.status == Completed && n.attempts == 0 && n.error == None && n.processedAt == Some(now)
      && n.createdAt == now
  {
    if change.id.None? || change.documentKey.None? then None
    else
      var r := NewNotification(
        id, now, Some(DetermineEventType(c, change.operationType)), change.documentKey, Some(c),
        Some(change.operationType), Some(Payload(change.fullDocument, change.updateDescription, change.id.value.data)),
        Some("completed"), None, None, Some(now));
      assert r.Ok? ==> StatusName(r.value.status) == "completed";
      Some(r)
  }

  /** A notification after `processNotification`: marked failed with the error text when processing threw. */
  function Processed(n: Notification, processingError: Option<string>, now: Time): (r: Notification)
    ensures r.collection == n.collection && r.payload == n.payload && r.createdAt == n.createdAt
    ensures r.attempts == n.attempts
    ensures processingError.Some? ==> r.status == Failed && r.error == processingError
  {
    if processingError.Some? then n.(status := Failed, error := processingError, updatedAt := now) else n
  }

  /**
   * Where a stream on `c` resumes: the token kept in memory, otherwise the
   * token stored in the payload of the collection's latest notification,
   * otherwise nowhere (no `resumeAfter`).
   */
  function ResumePoint(tokens: map<string, Token>, ns: seq<Notification>, c: string): Option<Token> {
    if c in tokens then Some(tokens[c])
    else
      match LatestIn(ns, c)
      case None => None
      case Some(n) => Some(Token(n.payload.resumeToken))
  }

  /**
   * The same choice as `watchCollection` writes it: the fallback reads
   * `resumeToken` at the top level of the notification, where no record has
   * one, so it yields a token without data.
   */
  function ResumePointAsWritten(tokens: map<string, Token>, ns: seq<Notification>, c: string): Option<Token> {
    if c in tokens then Some(tokens[c])
    else
      match LatestIn(ns, c)
      case None => None
      case Some(n) => Some(Token(None))
  }

  /**
   * After a change has been recorded, a service that no longer has the
   * token in memory (after a process restart) still resumes right after
   * that change: the stored token is the change's own.
   */
  lemma ResumeFromStoredToken(
    tokens: map<string, Token>, ns: seq<Notification>, id: Id, c: string, change: Change, now: Time,
    processingError: Option<string>)
    requires ChangeNotification(id, c, change, now).Some? && ChangeNotification(id, c, change, now).value.Ok?
    requires forall i :: 0 <= i < |ns| && ns[i].collection == c ==> ns[i].createdAt <= now
    requires c !in tokens
    ensures var n := ChangeNotification(id, c, change, now).value.value;
      ResumePoint(tokens, ns + [Processed(n, processingError, now)], c) == change.id
  {
    var n := ChangeNotification(id, c, change, now).value.value;
    LatestAfterAppend(ns, Processed(n, processingError, now));
  }

  /**
   * As written, the same situation resumes from a token without data: for a
   * change whose token has data, the stream does not resume after it.
   */
  lemma ResumeAsWrittenLosesToken(
    tokens: map<string, Token>, ns: seq<Notification>, id: Id, c: string, change: Change, now: Time,
    processingError: Option<string>)
    requires ChangeNotification(id, c, change, now).Some? && ChangeNotification(id, c, change, now).value.Ok?
    requires forall i :: 0 <= i < |ns| && ns[i].collection == c ==> ns[i].createdAt <= now
    requires c !in tokens && change.id.value.data.Some?
    ensures var n := ChangeNotification(id, c, change, now).value.value;
      ResumePointAsWritten(tokens, ns + [Processed(n, processingError, now)], c) == Some(Token(None)) != change.id
  {
    var n := ChangeNotification(id, c, change, now).value.value;
    LatestAfterAppend(ns, Processed(n, processingError, now));
  }

  /** One inserted message, recorded with token "abc", and a fresh service: it resumes from a token without data. */
  lemma ResumeAsWrittenExample()
    ensures var change := Change(Some(Token(Some("abc"))), "insert", Some("d1"), None, None);
      var n := ChangeNotification(0, "messages", change, 0).value.value;
      && ResumePoint(map[], [n], "messages") == Some(Token(Some("abc")))
      && ResumePointAsWritten(map[], [n], "messages") == Some(Token(None))
  {
    var change := Change(Some(Token(Some("abc"))), "insert", Some("d1"), None, None);
    ResumeFromStoredToken(map[], [], 0, "messages", change, 0, None);
    ResumeAsWrittenLosesToken(map[], [], 0, "messages", change, 0, None);
    assert [] + [Processed(ChangeNotification(0, "messages", change, 0).value.value, None, 0)]
        == [ChangeNotification(0, "messages", change, 0).value.value];
  }

  /** The streams opening the collections `cs` in order, the first under serial `start`. */
  function Opening(start: nat, tokens: map<string, Token>, ns: seq<Notification>, cs: seq<string>): (r: seq<Stream>)
    ensures |r| == |cs|
    ensures forall j :: 0 <= j < |cs| ==> r[j].serial == start + j && r[j].collection == cs[j]
  {
    seq(|cs|, j requires 0 <= j < |cs| => Stream(start + j, cs[j], Options(ResumePoint(tokens, ns, cs[j]))))
  }

  /** The registry after registering the streams `ss` in order, each under its collection. */
  function Register(m: map<string, Stream>, ss: seq<Stream>): map<string, Stream>
    decreases |ss|
  {
    if ss == [] then m else Register(m, ss[..|ss| - 1])[ss[|ss| - 1].collection := ss[|ss| - 1]]
  }

  lemma RegisterStep(m: map<string, Stream>, ss: seq<Stream>, s: Stream)
    ensures Register(m, ss + [s]) == Register(m, ss)[s.collection := s]
  {
    assert (ss + [s])[..|ss|] == ss;
  }

  /** Registering a stream on `messages` and then one on `queues`. */
  lemma RegisterWatched(m: map<string, Stream>, ss: seq<Stream>)
    requires |ss| == 2
    ensures Register(m, ss) == m[ss[0].collection := ss[0]][ss[1].collection := ss[1]]
  {
    var first := ss[..1];
    assert first[..0] == [];
    assert Register(m, first) == m[ss[0].collection := ss[0]];
    assert ss[..|ss| - 1] == first;
  }

  /**
   * The state of `initialize`'s loop after `i` collections: the first `i`
   * streams of the opening opened after `log0` and registered on top of `m0`.
   */
  ghost predicate Started(
    m0: map<string, Stream>, log0: seq<Stream>, tokens: map<string, Token>, ns: seq<Notification>, i: nat,
    streams: map<string, Stream>, log: seq<Stream>)
  {
    var opening := Opening(|log0|, tokens, ns, Watched);
    i <= |Watched| && log == log0 + opening[..i] && streams == Register(m0, opening[..i])
  }

  lemma StartedStep(
    m0: map<string, Stream>, log0: seq<Stream>, tokens: map<string, Token>, ns: seq<Notification>, i: nat,
    streams: map<string, Stream>, log: seq<Stream>)
    requires i < |Watched| && Started(m0, log0, tokens, ns, i, streams, log)
    ensures var s := Stream(|log|, Watched[i], Options(ResumePoint(tokens, ns, Watched[i])));
      Started(m0, log0, tokens, ns, i + 1, streams[Watched[i] := s], log + [s])
  {
    var opening := Opening(|log0|, tokens, ns, Watched);
    assert opening[..i + 1] == opening[..i] + [opening[i]];
    RegisterStep(m0, opening[..i], opening[i]);
  }

  lemma StartedAll(
    m0: map<string, Stream>, log0: seq<Stream>, tokens: map<string, Token>, ns: seq<Notification>,
    streams: map<string, Stream>, log: seq<Stream>)
    requires Started(m0, log0, tokens, ns, |Watched|, streams, log)
    ensures log == log0 + Opening(|log0|, tokens, ns, Watched)
    ensures streams == m0["messages" := log[|log0|]]["queues" := log[|log0| + 1]]
  {
    var opening := Opening(|log0|, tokens, ns, Watched);
    assert opening[..|Watched|] == opening;
    RegisterWatched(m0, opening);
  }

  class ChangeStreamService {
    /** The open stream of each watched collection. */
    var changeStreams: map<string, Stream>
    /** The resume token of the latest change seen on each collection. */
    var resumeTokens: map<string, Token>
    var isInitialized: bool
    /** Every stream opened, in order; a stream's serial is its place here. */
    var watchLog: seq<Stream>
    /** Every stream closed, in order. */
    var closeLog: seq<Stream>

    /** Each registered stream is one this service opened, on the collection it is registered under. */
    predicate Valid()
      reads this
    {
      forall c :: c in changeStreams ==>
        changeStreams[c].collection == c && changeStreams[c].serial < |watchLog| && watchLog[changeStreams[c].serial] == changeStreams[c]
    }

    constructor ()
      ensures Valid()
      ensures changeStreams == map[] && resumeTokens == map[] && !isInitialized && watchLog == [] && closeLog == []
    {
      changeStreams := map[];
      resumeTokens := map[];
      isInitialized := false;
      watchLog := [];
      closeLog := [];
    }

    /**
     * `watchCollection(c)`: a new stream on `c`, resuming where the
     * corrected `ResumePoint` says (not `ResumePointAsWritten`), registered under `c` in place of any stream
     * registered there before (which stays open).
     */
    method WatchCollection(c: string, notes: NotificationStore)
      requires Valid()
      modifies this
      ensures Valid()
      ensures var s := Stream(|old(watchLog)|, c, Options(ResumePoint(old(resumeTokens), notes.notifications, c)));
        watchLog == old(watchLog) + [s] && changeStreams == old(changeStreams)[c := s]
      ensures resumeTokens == old(resumeTokens) && isInitialized == old(isInitialized) && closeLog == old(closeLog)
    {
      var last := LatestIn(notes.notifications, c);
      var token := if c in resumeTokens then Some(resumeTokens[c]) else None;
      if last.Some? && token.None? {
        token := Some(Token(last.value.payload.resumeToken));
      }
      var s := Stream(|watchLog|, c, Options(token));
      watchLog := watchLog + [s];
      changeStreams := changeStreams[c := s];
    }

    /**
     * `initialize`: nothing when already initialized; otherwise a stream on
     * `messages`, then one on `queues`, and only then the flag.
     */
    method Initialize(notes: NotificationStore)
      requires Valid()
      modifies this
      ensures Valid()
      ensures isInitialized && resumeTokens == old(resumeTokens) && closeLog == old(closeLog)
      ensures old(isInitialized) ==> changeStreams == old(changeStreams) && watchLog == old(watchLog)
      ensures !old(isInitialized) ==>
        && watchLog == old(watchLog) + Opening(|old(watchLog)|, resumeTokens, notes.notifications, Watched)
        && changeStreams == old(changeStreams)["messages" := watchLog[|old(watchLog)|]]["queues" := watchLog[|old(watchLog)| + 1]]
    {
      if isInitialized {
        return;
      }
      var i := 0;
      while i < |Watched|
        invariant 0 <= i <= |Watched| && Valid()
        invariant resumeTokens == old(resumeTokens) && closeLog == old(closeLog) && !isInitialized
        invariant Started(old(changeStreams), old(watchLog), resumeTokens, notes.notifications, i, changeStreams, watchLog)
      {
        ghost var streams, log := changeStreams, watchLog;
        WatchCollection(Watched[i], notes);
        StartedStep(old(changeStreams), old(watchLog), resumeTokens, notes.notifications, i, streams, log);
        i := i + 1;
      }
      StartedAll(old(changeStreams), old(watchLog), resumeTokens, notes.notifications, changeStreams, watchLog);
      isInitialized := true;
    }

    /**
     * `processNotification`: the processing itself only logs; when it
     * throws (`processingError`), the record is marked failed with the
     * error text.
     */
    method ProcessNotification(notes: NotificationStore, n: Notification, processingError: Option<string>, now: Time)
      requires notes.Valid()
      modifies notes
      ensures notes.Valid()
      ensures processingError.None? ==> notes.notifications == old(notes.notifications)
      ensures processingError.Some? ==> notes.notifications == Update(old(notes.notifications), n.id, Failed, processingError, now)
    {
      if processingError.Some? {
        notes.FindByIdAndUpdate(n.id, Failed, processingError, now);
      }
    }

    /**
     * `handleChange(c, change)` at time `now`: first the change's token
     * becomes the collection's resume token, then the notification is
     * created and processed. At most one record is added.
     */
    method HandleChange(c: string, change: Change, notes: NotificationStore, now: Time, processingError: Option<string>)
      requires notes.Valid()
      modifies this, notes
      ensures notes.Valid()
      ensures changeStreams == old(changeStreams) && isInitialized == old(isInitialized)
      ensures watchLog == old(watchLog) && closeLog == old(closeLog)
      ensures resumeTokens == if change.id.Some? then old(resumeTokens)[c := change.id.value] else old(resumeTokens)
      ensures var r := ChangeNotification(old(notes.nextId), c, change, now);
        && (r.None? || r.value.Err? ==> notes.notifications == old(notes.notifications))
        && (r.Some? && r.value.Ok? ==>
              notes.notifications == old(notes.notifications) + [Processed(r.value.value, processingError, now)])
    {
      if change.id.Some? {
        resumeTokens := resumeTokens[c := change.id.value];
      }
      if change.documentKey.None? || change.id.None? {
        return;
      }
      var event := DetermineEventType(c, change.operationType);
      var created := notes.Create(
        now, Some(event), change.documentKey, Some(c), Some(change.operationType),
        Some(Payload(change.fullDocument, change.updateDescription, change.id.value.data)),
        Some("completed"), None, None, Some(now));
      if created.Ok? {
        ghost var before := notes.notifications[..|notes.notifications| - 1];
        assert notes.notifications == before + [created.value];
        ProcessNotification(notes, created.value, processingError, now);
        if processingError.Some? {
          UpdateLast(before, created.value, Failed, processingError, now);
        }
      }
    }

    /**
     * `restartStream(c)`: the stream registered under `c`, if any, is
     * closed, then `c` is watched again; no other stream is touched.
     */
    method RestartStream(c: string, notes: NotificationStore)
      requires Valid()
      modifies this
      ensures Valid()
      ensures closeLog == old(closeLog) + (if c in old(changeStreams) then [old(changeStreams)[c]] else [])
      ensures var s := Stream(|old(watchLog)|, c, Options(ResumePoint(old(resumeTokens), notes.notifications, c)));
        watchLog == old(watchLog) + [s] && changeStreams == old(changeStreams)[c := s]
      ensures resumeTokens == old(resumeTokens) && isInitialized == old(isInitialized)
    {
      if c in changeStreams {
        closeLog := closeLog + [changeStreams[c]];
      }
      WatchCollection(c, notes);
    }

    /**
     * `close`: every registered stream is closed once, the registry is
     * emptied and the service is no longer initialized. The resume tokens
     * are kept, so a later `initialize` resumes where the streams stopped.
     */
    method Close()
      requires Valid()
      modifies this
      ensures Valid()
      ensures changeStreams == map[] && !isInitialized
      ensures resumeTokens == old(resumeTokens) && watchLog == old(watchLog)
      ensures |closeLog| == |old(closeLog)| + |old(changeStreams).Keys| && closeLog[..|old(closeLog)|] == old(closeLog)
      ensures forall c :: c in old(changeStreams) ==> old(changeStreams)[c] in closeLog[|old(closeLog)|..]
      ensures forall j :: |old(closeLog)| <= j < |closeLog| ==> closeLog[j] in old(changeStreams).Values
    {
      var streams := changeStreams;
      var pending := streams.Keys;
      ghost var done: seq<Stream> := [];
      while pending != {}
        invariant changeStreams == streams && resumeTokens == old(resumeTokens) && watchLog == old(watchLog)
        invariant pending <= streams.Keys && |done| + |pending| == |streams.Keys|
        invariant closeLog == old(closeLog) + done
        invariant forall c :: c in streams && c !in pending ==> streams[c] in done
        invariant forall s :: s in done ==> s in streams.Values
        decreases pending
      {
        var c :| c in pending;
        closeLog := closeLog + [streams[c]];
        done := done + [streams[c]];
        pending := pending - {c};
      }
      changeStreams := map[];
      isInitialized := false;
    }
  }
}
