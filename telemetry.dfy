/**
 * The analytics ingestion endpoint: validation of a decoded telemetry event,
 * its normalisation (fresh id, installation id on first contact, server
 * time), and the ordered sequence of effects the request handler performs
 * (error renders, the store insert, the final body write).
 *
 * External calls are parameters: the outcome of JSON decoding, the freshly
 * generated object id, the clock reading, and the results of the store
 * insert and of marshalling the response body.
 */
module Telemetry {
  import opened ObjectIds

  /** Go's `int64`. */
  newtype int64 = x: int | -0x8000_0000_0000_0000 <= x < 0x8000_0000_0000_0000

  datatype Option<T> = None | Some(value: T)

  /** A Go `error` value; `Error()` is its message. */
  datatype GoError = GoError(message: string) {
    function Error(): string { message }
  }

  /** The outcome of a call that returns a value or an error. */
  datatype Result<T> = Ok(value: T) | Err(error: GoError)

  /** A decoded JSON value, as `meta` holds them. */
  datatype JsonValue =
    | JNull
    | JBool(b: bool)
    | JNumber(literal: string)
    | JString(s: string)
    | JArray(items: seq<JsonValue>)
    | JObject(members: map<string, JsonValue>)

  /** The `meta` map; `None` is Go's nil map (the key was absent or null). */
  type MetaMap = Option<map<string, JsonValue>>

  /** The field values of an `Event`; also the document handed to the store. */
  datatype EventRecord = EventRecord(
    ID: ObjectId,
    InstallationID: string,
    EventType: string,
    Meta: MetaMap,
    CreatedAt: int64,
    StoredAt: int64)

  /** `Event{}`: every field at Go's zero value. */
  const ZeroEvent := EventRecord(NilObjectId, "", "", None, 0, 0)

  const BadRequest := 400
  const EmptyEventTypeText := "EventType cant be empty"
  const InvalidRequestText := "Invalid request."
  const CapturedText := "Captured analytics"
  const ParseFailedLog := "error parsing request"
  const InsertFailedLog := "failed to insert analytics"
  const MarshalFailedLog := "failed to marshal the resp"

  /** The telemetry event the handler decodes into and then updates field by field. */
  class Event {
    var ID: ObjectId
    var InstallationID: string
    var EventType: string
    var Meta: MetaMap
    var CreatedAt: int64
    var StoredAt: int64

    /** `&Event{}` */
    constructor ()
      ensures Record() == ZeroEvent
    {
      ID, InstallationID, EventType := NilObjectId, "", "";
      Meta, CreatedAt, StoredAt := None, 0, 0;
    }

    function Record(): EventRecord
      reads this
    {
      EventRecord(ID, InstallationID, EventType, Meta, CreatedAt, StoredAt)
    }

    /**
     * A successful JSON decode into this event; `rec` holds the decoded
     * values, with Go's zero value for every key the body left out.
     */
    method Decode(rec: EventRecord)
      modifies this
      ensures Record() == rec
    {
      ID, InstallationID, EventType := rec.ID, rec.InstallationID, rec.EventType;
      Meta, CreatedAt, StoredAt := rec.Meta, rec.CreatedAt, rec.StoredAt;
    }

    /** `Event.Bind`: an event is accepted exactly when its type is non-empty. */
    function Bind(): (err: Option<GoError>)
      reads this
      ensures err.Some? <==> EventType == ""
      ensures err.Some? ==> err.value.Error() == EmptyEventTypeText
    {
      if EventType == "" then Some(GoError(EmptyEventTypeText)) else None
    }
  }

  /** The JSON body of an error response: `code` and `error` are left out when empty. */
  datatype ErrorJson = ErrorJson(status: string, code: Option<int64>, error: Option<string>)

  /** `ErrResponse`: status code and error are not serialised; the rest is. */
  datatype ErrResponse = ErrResponse(
    Err: GoError,
    HTTPStatusCode: int,
    StatusText: string,
    AppCode: int64,
    ErrorText: string)
  {
    function Json(): ErrorJson {
      ErrorJson(StatusText,
                if AppCode == 0 then None else Some(AppCode),
                if ErrorText == "" then None else Some(ErrorText))
    }
  }

  /** `ErrInvalidRequest`: the fixed-shape "invalid request" error for `err`. */
  function ErrInvalidRequest(status: int, err: GoError): (r: ErrResponse)
    ensures r.HTTPStatusCode == status && r.Err == err
    ensures r.StatusText == InvalidRequestText && r.ErrorText == err.Error()
    ensures r.AppCode == 0
    ensures r.Json().status == InvalidRequestText && r.Json().code == None
    ensures r.Json().error == if err.Error() == "" then None else Some(err.Error())
  {
    ErrResponse(err, status, InvalidRequestText, 0, err.Error())
  }

  /**
   * The event as the handler stores it: the fresh id always becomes `ID`,
   * the id's text form fills an empty installation id, and `StoredAt` is
   * the server's clock; nothing else changes.
   */
  function Normalized(rec: EventRecord, id: ObjectId, now: int64): (r: EventRecord)
    ensures r.ID == id
    ensures rec.InstallationID == "" ==> r.InstallationID == IdString(id)
    ensures rec.InstallationID != "" ==> r.InstallationID == rec.InstallationID
    ensures r.InstallationID != ""
    ensures r.StoredAt == now
    ensures r.EventType == rec.EventType && r.Meta == rec.Meta && r.CreatedAt == rec.CreatedAt
  {
    rec.(ID := id,
         InstallationID := if rec.InstallationID == "" then IdString(id) else rec.InstallationID,
         StoredAt := now)
  }

  /** The success body: a confirmation and the resolved installation id. */
  function SuccessBody(installationId: string): map<string, string> {
    map["message" := CapturedText, "InstallationID" := installationId]
  }

  /** What `w.Write(bin)` sends: the marshalled body, or nothing when marshalling failed. */
  datatype Payload = Body(json: map<string, string>) | Nothing

  /** One externally visible step of the handler, in the order it happens. */
  datatype Effect =
    | LogError(msg: string, err: GoError)
    | Render(resp: ErrResponse)
    | GenerateId(id: ObjectId)
    | InsertOne(doc: EventRecord)
    | Write(payload: Payload)

  /** Logging `err` under `msg` and rendering it as a 400 invalid request, when there is an error. */
  function ErrorTrail(err: Option<GoError>, msg: string): seq<Effect> {
    match err
    case None => []
    case Some(e) => [LogError(msg, e), Render(ErrInvalidRequest(BadRequest, e))]
  }

  /** The request binds: it decoded and its event type is non-empty. */
  predicate Binds(decoded: Result<EventRecord>) {
    decoded.Ok? && decoded.value.EventType != ""
  }

  /** The error `render.Bind` returns for a request that does not bind. */
  function BindError(decoded: Result<EventRecord>): GoError
    requires !Binds(decoded)
  {
    if decoded.Err? then decoded.error else GoError(EmptyEventTypeText)
  }

  /**
   * The analytics request handler. `decoded` is the outcome of decoding the
   * body, `id` the generated object id, `now` the clock in Unix seconds,
   * `insertErr` and `marshalErr` the errors (if any) of the store insert
   * and of marshalling the success body. Returns what the handler does, in
   * order.
   */
  method Handler(decoded: Result<EventRecord>, id: ObjectId, now: int64,
                 insertErr: Option<GoError>, marshalErr: Option<GoError>)
    returns (trace: seq<Effect>)
    // a request that does not bind gets one logged 400 error and nothing else
    ensures !Binds(decoded) ==> trace == ErrorTrail(Some(BindError(decoded)), ParseFailedLog)
    // otherwise: id, insert, the insert's error (no early return), the
    // marshal error, and the body write always comes last
    ensures Binds(decoded) ==>
      var doc := Normalized(decoded.value, id, now);
      trace == [GenerateId(id), InsertOne(doc)]
               + ErrorTrail(insertErr, InsertFailedLog)
               + ErrorTrail(marshalErr, MarshalFailedLog)
               + [Write(if marshalErr.None? then Body(SuccessBody(doc.InstallationID)) else Nothing)]
    ensures !Binds(decoded) ==>
      forall k :: 0 <= k < |trace| ==> !trace[k].GenerateId? && !trace[k].InsertOne? && !trace[k].Write?
    ensures |trace| > 0 && (trace[|trace| - 1].Write? <==> Binds(decoded))
    // a store failure renders its 400 error and the request still goes on to the write
    ensures Binds(decoded) && insertErr.Some? ==>
      trace[3] == Render(ErrInvalidRequest(BadRequest, insertErr.value)) && trace[|trace| - 1].Write?
    ensures Binds(decoded) && marshalErr.None? ==>
      var body := trace[|trace| - 1].payload;
      body.Body? && body.json["message"] == CapturedText &&
      body.json["InstallationID"] == Normalized(decoded.value, id, now).InstallationID
    ensures forall k :: 0 <= k < |trace| && trace[k].Render? ==> trace[k].resp.HTTPStatusCode == BadRequest
    ensures forall k :: 0 <= k < |trace| && trace[k].InsertOne? ==> trace[k].doc.EventType != ""
  {
    trace := [];
    var data := new Event();
    var bindErr: Option<GoError>;
    match decoded {
      case Err(e) =>
        bindErr := Some(e);
      case Ok(rec) =>
        data.Decode(rec);
        bindErr := data.Bind();
    }
    if bindErr.Some? {
      trace := trace + [LogError(ParseFailedLog, bindErr.value)];
      trace := trace + [Render(ErrInvalidRequest(BadRequest, bindErr.value))];
      return;
    }

    trace := trace + [GenerateId(id)];
    if data.InstallationID == "" {
      data.InstallationID := IdString(id);
      data.ID := id;
    } else {
      data.ID := id;
    }
    data.StoredAt := now;
    assert data.Record() == Normalized(decoded.value, id, now);

    trace := trace + [InsertOne(data.Record())];
    if insertErr.Some? {
      trace := trace + [LogError(InsertFailedLog, insertErr.value)];
      trace := trace + [Render(ErrInvalidRequest(BadRequest, insertErr.value))];
    }

    var respBody := SuccessBody(data.InstallationID);
    var bin := if marshalErr.None? then Body(respBody) else Nothing;
    if marshalErr.Some? {
      trace := trace + [LogError(MarshalFailedLog, marshalErr.value)];
      trace := trace + [Render(ErrInvalidRequest(BadRequest, marshalErr.value))];
    }
    trace := trace + [Write(bin)];
  }

  /**
   * No deduplication: the same payload submitted twice, under two different
   * generated ids, gives two documents with different ids, and different
   * installation ids when the client supplied none.
   */
  lemma SamePayloadTwice(rec: EventRecord, id1: ObjectId, now1: int64, id2: ObjectId, now2: int64)
    requires id1 != id2
    ensures Normalized(rec, id1, now1).ID != Normalized(rec, id2, now2).ID
    ensures rec.InstallationID == "" ==>
      Normalized(rec, id1, now1).InstallationID != Normalized(rec, id2, now2).InstallationID
  {
    IdStringDistinct(id1, id2);
  }

  /**
   * An installation id is generated once: any later payload that carries
   * the id an earlier request resolved keeps it, whatever else it holds.
   */
  lemma InstallationIdStable(rec: EventRecord, id1: ObjectId, now1: int64,
                              rec2: EventRecord, id2: ObjectId, now2: int64)
    requires rec2.InstallationID == Normalized(rec, id1, now1).InstallationID
    ensures Normalized(rec2, id2, now2).InstallationID == rec2.InstallationID
  {
  }
}
