# CodeBox client session lifecycle, in Dafny

This project models the `CodeBox` client of codebox-js (`index.ts`). The client
drives one remote sandbox session over HTTP. Under its HTTP calls it is a small
state machine over three fields:

- `session_id`: null until `start`, cleared again by `stop`;
- `aiohttp_session`: the HTTP transport, present from construction until `cleanup`;
- `last_interaction`: overwritten on every dispatched operation.

All session-scoped operations (`status`, `run`, `upload`, `download`, `install`,
`list_files`, `restart`) go through one guarded routine, `codeboxRequest`. It
records the interaction time first. It then refuses to send anything unless
both the session id and the transport are present.

Layout:

- `values.dfy` (module `Values`): the nullable `Option`, a `Json` type for the
  untyped payloads, the value classes `CodeBoxStatus`, `CodeBoxOutput` and
  `CodeBoxFile`, and the `list_files` mapping from file names to records.
- `session.dfy` (module `Session`): the lifecycle as pure step functions. A
  `Snapshot` of the three fields goes to a `Step`, which holds the new snapshot,
  the exchanges sent (each request with the transport's answer) and the result
  or error.
- `traces.dfy` (module `Traces`): sequences of calls (`Replay`) and the
  properties that hold over every such sequence.
- `client.dfy` (module `Client`): the class `CodeBox`. Its fields are updated
  in place by imperative methods with early exits, as in the source. A ghost
  field `sent` logs the requests. Each method's postcondition equates the new
  fields, the extended log and the result with the matching `Session` step.

The environment supplies three things as parameters:

- the transport's answer to a request (`Reply`: a `Response` with its payload,
  or a `Failure`);
- the identifier produced by `uuidv4` (`freshId`);
- the clock reading (`now`).

Behaviour of the code that the model keeps:

- The stored session id is the generated `freshId`, not the `id` in the
  service's answer (`index.ts:89` passes the answer's id to `uuidv4` as its
  options argument).
- `cleanup` never clears `session_id`. `start` checks the id before the
  transport, so a started client that has been cleaned up still answers
  "started" to `start`, without a request (`StartAfterCleanupStillStarted`).
- `last_interaction` is updated before the guard in `codeboxRequest`, so a
  refused operation still records the interaction. `start` and `stop` never
  update it.
- `status` waits for the payload and then discards it.
- `stop` returns the raw payload, although its signature says `CodeBoxStatus`.
  If the stop request fails, the id is kept.
- A request whose session id is absent would go to `/codebox/null/...` (the
  template literal renders null that way). The guard refuses it before it is
  sent.

Where the documented design and the code differ, the model follows the code:

- `start` after `cleanup` fails only when no session id is held.
- The stored id is generated locally, not issued by the service.
- `stop` returns the raw payload.
- `last_interaction` is only overwritten. The model claims no increase.

## Model

| member | source | states |
|---|---|---|
| `Values.Strings` | index.ts:131-134 | the listed items read as names exactly when every item is a string; the names then have the same length and order as the items |
| `Values.FileNames` | index.ts:131 | names are found exactly when the payload has a `files` array of strings; they keep that array's length and order |
| `Values.ListedFiles` | index.ts:131-134 | one record per name, same length and order: record i has name `names[i]` and null content |
| `Session.Dispatch` | index.ts:67-78 | the interaction time becomes `now` even when refused; refusal with the "start your CodeBox" error happens exactly when id or transport is absent, and then nothing is sent; otherwise exactly one request with the given method, endpoint and body is sent, its payload is returned unchanged or the transport's failure is propagated; id and transport never change |
| `Session.Scoped` | index.ts:95-139 | a session-scoped operation keeps id and transport, sets the interaction time, sends nothing when not ready, and otherwise sends one request with its own method and body to `/codebox/{id}/{path}` for the current id, succeeding with the payload exactly when the transport answers, and otherwise returning the transport's failure unchanged |
| `Session.StatusOutcome` | index.ts:95-100 | `status` succeeds exactly when its request did, and returns no payload |
| `Session.FilesResult` | index.ts:126-135 | `list_files` propagates dispatch errors, fails on a payload without a `files` array of names, and otherwise returns records in the order of `files`, each with that name and null content |
| `Session.StartStep` | index.ts:80-93 | with a session id: "started", no request, nothing changes; without id and transport: error, no request; otherwise exactly one `GET /codebox/start`, whose transport failure is returned unchanged and whose null payload gives the malformed-response error; "started" is returned exactly when the client ends holding an id; the only possible new id is `freshId`; transport and interaction time never change |
| `Session.StopStep` | index.ts:141-150 | without id or transport: error, no request, nothing changes; otherwise exactly one `POST /codebox/{id}/stop`; on an answer the id is cleared and the payload returned; on a failure nothing changes and the transport's failure is returned unchanged; the transport is kept |
| `Session.CleanupStep` | index.ts:152-157 | the transport is absent afterwards; the session id and interaction time are untouched |
| `Traces.WithoutTransportNothingIsSent` | index.ts:67-157 | once the transport is gone, no sequence of calls sends anything, restores the transport or changes the session id |
| `Traces.RepeatedStartIsSilent` | index.ts:81-84 | any number of `start` calls on a client holding an id send nothing and change nothing |
| `Traces.StartsAfterSuccessAreSilent` | index.ts:80-93 | after a successful `start`, any further `start` calls leave exactly one start request on the wire and keep the generated id |
| `Traces.ScopedCallsKeepSession` | index.ts:95-139 | any run of session-scoped operations keeps id and transport and leaves the last call's clock reading; when not ready nothing is sent; otherwise one request per call, each under `/codebox/{id}/` |
| `Traces.ScopedRequestIsNeitherStartNorStop` | index.ts:95-146 | no session-scoped request equals the start request or goes to a `/stop` endpoint |
| `Traces.PerformKeepsBalance` | index.ts:80-157 | one call keeps adopted plus held sessions equal to released plus held |
| `Traces.SessionBalance` | index.ts:80-157 | over any sequence of calls, sessions adopted (answered starts) plus the one held at the outset equal sessions released (answered stops) plus the one held at the end |
| `Traces.FreshClientHoldsAtMostOne` | index.ts:50-157 | from a freshly constructed client, adopted sessions never exceed released sessions by more than one |
| `Traces.CleanupIsIdempotent` | index.ts:152-157 | a second `cleanup` changes nothing |
| `Traces.StartAfterCleanupStillStarted` | index.ts:80-86 | a client holding an id that was cleaned up still gets "started" from `start`, with no request |
| `Traces.LifecycleScenario` | index.ts:80-150 | start, run, list, stop, run on a fresh client: the generated id is stored, run posts `{code}` to `/codebox/{id}/run` and returns the payload, the listing `["a.py"]` gives one record with null content, stop clears the id, and the last run is refused with nothing sent |
| `Client.CodeBox.constructor` | index.ts:50-61 | a new client has no session id, holds a transport and the current time, so it is not started but can start |
| `Client.CodeBox.Update` | index.ts:63-65 | overwrites the interaction time and nothing else |
| `Client.CodeBox.CodeboxRequest` | index.ts:67-78 | fields, request log and result are those of `Session.Dispatch` |
| `Client.CodeBox.Start` | index.ts:80-93 | fields, request log and result are those of `Session.StartStep` |
| `Client.CodeBox.Status` | index.ts:95-100 | fields and log follow `Session.Scoped` for `GET /codebox/{id}/`; the payload is discarded |
| `Client.CodeBox.Run` | index.ts:102-106 | fields, log and result follow `Session.Scoped` for `POST .../run` with body `{code}` |
| `Client.CodeBox.Upload` | index.ts:108-112 | fields, log and result follow `Session.Scoped` for `POST .../upload` with body `{file: {file_name, content}}` |
| `Client.CodeBox.Download` | index.ts:114-118 | fields, log and result follow `Session.Scoped` for `GET .../download` with body `{file_name}` |
| `Client.CodeBox.Install` | index.ts:120-124 | fields, log and result follow `Session.Scoped` for `POST .../install` with body `{package_name}` |
| `Client.CodeBox.ListFiles` | index.ts:126-135 | fields and log follow `Session.Scoped` for `GET .../files`; the result is `Session.FilesResult` of the dispatch |
| `Client.CodeBox.Restart` | index.ts:137-139 | fields, log and result follow `Session.Scoped` for `POST .../restart` without body |
| `Client.CodeBox.Stop` | index.ts:141-150 | fields, log and result are those of `Session.StopStep` |
| `Client.CodeBox.Cleanup` | index.ts:152-157 | the transport is absent afterwards; id, interaction time and log are unchanged |

## Left out

- Configuration (`config.ts`) is not part of this model. It reads environment variables and parses the timeout as a float. The transport is reduced to present or absent, so its base URL, bearer header and timeout (`index.ts:52-59`) do not appear.
- HTTP and network semantics are abstracted. Every transport error (status code, timeout, network failure) is one `Failure(reason)` answer, which is propagated unchanged.
- `uuidv4` is not modelled. Its result is the parameter `freshId`, an arbitrary string.
- The wall clock is not modelled. `last_interaction` is a natural-number reading supplied by the caller and is only overwritten.
- `console.log` output (`index.ts:82`, `index.ts:90-91`) is left out.
- Concurrency is left out. Every async method is one atomic step, so interleavings of calls that are not awaited are not modelled.
- JSON numbers are integers, so floating-point payload values are not represented.
- The `toString` methods are one-line `ToString` functions without contracts. `CodeBoxOutput` is not used by the client.
- Payload shape checks are modelled only where the client reads a field. `start` reads `id` and fails on a null payload. `list_files` reads `files`. Every other payload is passed through untouched.
- Values.FileNames: a `files` array holding a non-string element is reported as malformed. The JavaScript `map` would still build a record from it; the model follows the declared `string` element type instead.
- `list_files` builds plain `{name, content: null}` objects, not `CodeBoxFile` instances. The model returns `CodeBoxFile` values with the same two fields, so their `ToString` gives the name, where the source's objects would print as `[object Object]`.
- `MalformedResponse` stands for the engine's TypeError, raised when `id` is read from a null `start` payload or `map` is called on a missing `files` field. Its message is only a label, not the engine's text.
