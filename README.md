# Telemetry ingestion handler, modelled in Dafny

The system is a small HTTP service for analytics events. `POST /analytics`
takes a JSON `Event`, checks that it has an event type, gives it a fresh
object id, fills in an installation id when the client sent none, stamps it
with the server's clock and inserts it into a document collection. It then
answers with `{"message": "Captured analytics", "InstallationID": ...}`.
Every failure is rendered as a 400 "Invalid request." error.

The model has two modules:

- `ObjectIds` (`objectid.dfy`): the driver's 12-byte object identifier and
  its text form `ObjectID("<24 lower-case hex digits>")`. This is the form the
  handler copies into an empty installation id. It is proved injective, so
  different ids give different installation ids. The driver is not part of
  this model. This text format is the driver's documented `ObjectID.String()`,
  and the handler relies on nothing more than its being non-empty and injective.
- `Telemetry` (`telemetry.dfy`): the `Event` entity as a class whose fields
  the handler updates in place, together with `EventRecord`, the value of its
  fields, which is also the document handed to the store. It also holds
  `Event.Bind`, `ErrResponse` with its JSON shape, `ErrInvalidRequest`, the
  normalisation function `Normalized`, and `Handler`. `Handler` allocates a
  fresh `Event`, mutates it step by step as the Go handler does, and returns
  the ordered trace of what the handler does: error logs, error renders, id
  generation, the insert, and the final body write.

The handler's external inputs are parameters of `Handler`:

- the outcome of JSON decoding (an `EventRecord`, or a decode error);
- the generated object id;
- the clock reading in Unix seconds;
- the error results of the store insert and of marshalling the response.

On a store failure the handler does not return: it renders the 400 error and
then still marshals and writes the success body into the same response. The model
follows the code: `Handler`'s contract says that the `Write` is always the
last effect of a request that binds, including after an insert error.

## Model

| member | source | states |
|---|---|---|
| `Telemetry.Event.Bind` | main.go:41-46 | the result is an error exactly when `EventType` is empty, and that error's text is "EventType cant be empty" |
| `Telemetry.Event.constructor` | main.go:98 | `&Event{}` has every field at Go's zero value (nil object id, empty strings, nil meta, zero times) |
| `Telemetry.Event.Decode` | main.go:99 | a successful decode leaves the event holding exactly the decoded field values |
| `Telemetry.ErrInvalidRequest` | main.go:135-156 | status code is the argument, status text is "Invalid request.", error text is `err.Error()`, `Err` is `err`, app code is zero; the rendered JSON has that status, no `code` key, and an `error` key exactly when the error text is non-empty |
| `Telemetry.Normalized` | main.go:105-114 | `ID` becomes the fresh id in both branches; an empty installation id becomes the id's text form, a non-empty one is kept unchanged; the result's installation id is never empty; `StoredAt` is the server time whatever the input held; `EventType`, `Meta` and `CreatedAt` are untouched |
| `Telemetry.Handler` | main.go:97-133 | a request that fails to decode or bind gets one logged error and one 400 render, with no id generated, no insert and no write; otherwise the effects are id generation, an insert of the normalised event, the insert error's log and 400 render if there is one (no early return), the same for a marshal error, and a final write. The write carries "Captured analytics" and the normalised installation id, or nothing when marshalling failed. Every render is a 400, and every inserted document has a non-empty event type |
| `Telemetry.SamePayloadTwice` | main.go:105-113 | no deduplication: one payload handled under two different generated ids yields documents with different ids, and different installation ids when the client sent none |
| `Telemetry.InstallationIdStable` | main.go:107-113 | an installation id is generated only once: any later request whose payload carries the installation id an earlier request resolved keeps exactly that id, whatever else the payload holds |
| `ObjectIds.IdString` | main.go:109 | the id's text form is 36 characters: `ObjectID("`, the id's 24 hexadecimal digits, then `")`; so it is never empty |
| `ObjectIds.IdStringDistinct` | main.go:108-109 | different ids have different text forms, so a generated installation id identifies the id it came from |
| `ObjectIds.Hex` | main.go:109 | two lower-case hexadecimal digits per byte of the id |
| `ObjectIds.HexDistinct` | main.go:109 | the hexadecimal encoding is injective on byte strings of one length |

## Left out

- `main()` (main.go:48-95) is left out. It covers logger setup, reading the store URI from the environment, connecting to and pinging the database, tracing-agent setup, router registration and `ListenAndServe`. All of it is startup I/O.
- The `/healthz` handler (main.go:89-91) is left out. It writes a constant string and has no logic.
- JSON decoding of the request body is a parameter of `Handler`: a decoded `EventRecord` or a decode error. The record gives the Go zero value for every absent key. This includes a client-sent `id` or `StoredAt`, which the handler overwrites anyway.
- `json.Marshal` of the success body is an error parameter. When it succeeds, the written payload is the body map itself, not its bytes. When it fails, `w.Write(nil)` sends nothing (`Nothing`).
- `primitive.NewObjectID()` is an id parameter. Uniqueness of generated ids across requests depends on the driver's generator, so it is not modelled. `SamePayloadTwice` takes distinct ids as its premise.
- `time.Now().Unix()` is an `int64` parameter.
- `collection.InsertOne` is an error parameter, recorded as an `InsertOne` effect carrying the document. No persistence semantics are modelled: no stored collection, no read-back, no BSON encoding, and no `omitempty` on the BSON side.
- Logging is recorded as a `LogError` effect with the message and the error. The structured-logging fields are not modelled.
- `render.Render`, `ErrResponse.Render` and `render.Status` (main.go:144-147) are one `Render` effect. The effect means "status set to the response's code and its JSON written". Its JSON shape is `ErrResponse.Json`.
- Numbers inside `meta` are kept as their literal text. Go decodes them to `float64`, and floating point is not modelled. `meta` is only passed through and is never inspected.
- Concurrency across requests is left out. It lives entirely in the HTTP server and the driver's pool.
