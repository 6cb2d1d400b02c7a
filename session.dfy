/** The CodeBox session lifecycle as pure step functions.

    A client is summarised by a `Snapshot` of its three fields. Each operation
    is one atomic step from a snapshot to a `Step`: the snapshot afterwards,
    the exchanges it put on the wire (each request with the transport's
    answer) and the value it returns or the error it raises. The transport's
    answer, the generated session id and the clock are parameters. */
module Session {
  import opened Values

  /** The errors an operation can raise. */
  datatype Error =
    | NotStarted                   // session id or transport absent at dispatch or stop
    | NoTransport                  // start without a session id after cleanup
    | RemoteError(reason: string)  // the transport failed; propagated unchanged
    | MalformedResponse            // the payload lacks the field the client reads
  {
    /** The text each error carries. `MalformedResponse` stands for the
        engine's TypeError from reading `id` of a null payload or calling
        `map` on a missing `files` field; its text here is only a label. */
    function Message(): string {
      match this
      case NotStarted => "Make sure to start your CodeBox before using it."
      case NoTransport => "aiohttp_session is null"
      case RemoteError(reason) => reason
      case MalformedResponse => "malformed response"
    }
  }

  datatype Result<T> = Ok(value: T) | Err(error: Error)

  /** The result of an operation whose value the source discards. */
  datatype Outcome = Pass | Fail(error: Error)

  datatype Method = GET | POST

  datatype Request = Request(verb: Method, endpoint: string, body: Option<Json>)

  /** What the transport answers to one request. */
  datatype Reply = Response(data: Json) | Failure(reason: string)

  /** One request put on the wire, with the answer it received. */
  datatype Exchange = Exchange(request: Request, reply: Reply)

  /** The client's fields: `session_id`, whether `aiohttp_session` is present,
      and `last_interaction` as a clock reading. */
  datatype Snapshot = Snapshot(sessionId: Option<string>, transport: bool, lastInteraction: nat)
  {
    /** The guard of `codeboxRequest` and `stop`. */
    predicate Ready() { sessionId.Some? && transport }
  }

  datatype Step<T> = Step(post: Snapshot, sent: seq<Exchange>, result: Result<T>)

  const Started := CodeBoxStatus("started")

  const StartRequest := Request(GET, "/codebox/start", None)

  /** A freshly constructed client read at clock `now`. */
  function Initial(now: nat): (s: Snapshot) {
    Snapshot(None, true, now)
  }

  /** How a template literal renders a nullable id. */
  function IdText(id: Option<string>): (text: string) {
    match id
    case Some(x) => x
    case None => "null"
  }

  /** The path `/codebox/{id}/{tail}`. */
  function Endpoint(id: Option<string>, tail: string): (endpoint: string)
    ensures id.Some? ==> endpoint == "/codebox/" + id.value + "/" + tail
  {
    "/codebox/" + IdText(id) + "/" + tail
  }

  /** The session-scoped operations. */
  datatype Operation =
    | StatusOp
    | RunOp(code: string)
    | UploadOp(fileName: string, content: string)
    | DownloadOp(fileName: string)
    | InstallOp(packageName: string)
    | ListFilesOp
    | RestartOp

  function MethodOf(op: Operation): (verb: Method) {
    match op
    case StatusOp => GET
    case RunOp(_) => POST
    case UploadOp(_, _) => POST
    case DownloadOp(_) => GET
    case InstallOp(_) => POST
    case ListFilesOp => GET
    case RestartOp => POST
  }

  function PathOf(op: Operation): (tail: string) {
    match op
    case StatusOp => ""
    case RunOp(_) => "run"
    case UploadOp(_, _) => "upload"
    case DownloadOp(_) => "download"
    case InstallOp(_) => "install"
    case ListFilesOp => "files"
    case RestartOp => "restart"
  }

  function BodyOf(op: Operation): (body: Option<Json>) {
    match op
    case StatusOp => None
    case RunOp(code) => Some(JObject(map["code" := JString(code)]))
    case UploadOp(name, content) =>
      Some(JObject(map["file" := JObject(map["file_name" := JString(name), "content" := JString(content)])]))
    case DownloadOp(name) => Some(JObject(map["file_name" := JString(name)]))
    case InstallOp(name) => Some(JObject(map["package_name" := JString(name)]))
    case ListFilesOp => None
    case RestartOp => None
  }

  /** `codeboxRequest`: record the interaction, then refuse unless both the
      session id and the transport are present; otherwise send exactly one
      request and hand back its payload unchanged. */
  function Dispatch(s: Snapshot, now: nat, verb: Method, endpoint: string, body: Option<Json>, reply: Reply)
    : (r: Step<Json>)
    ensures r.post == s.(lastInteraction := now)
    ensures r.result == Err(NotStarted) <==> !s.Ready()
    ensures !s.Ready() ==> r.sent == []
    ensures s.Ready() ==> r.sent == [Exchange(Request(verb, endpoint, body), reply)]
    ensures s.Ready() && reply.Response? ==> r.result == Ok(reply.data)
    ensures s.Ready() && reply.Failure? ==> r.result == Err(RemoteError(reply.reason))
  {
    var touched := s.(lastInteraction := now);
    if !s.Ready() then Step(touched, [], Err(NotStarted))
    else
      var sent := [Exchange(Request(verb, endpoint, body), reply)];
      match reply
      case Response(data) => Step(touched, sent, Ok(data))
      case Failure(reason) => Step(touched, sent, Err(RemoteError(reason)))
  }

  /** A session-scoped operation: its request goes to the endpoint under the
      current session id, and nothing but the clock reading changes. */
  function Scoped(s: Snapshot, now: nat, op: Operation, reply: Reply): (r: Step<Json>)
    ensures r.post.sessionId == s.sessionId && r.post.transport == s.transport
    ensures r.post.lastInteraction == now
    ensures !s.Ready() ==> r.sent == [] && r.result == Err(NotStarted)
    ensures s.Ready() ==>
      r.sent == [Exchange(Request(MethodOf(op), "/codebox/" + s.sessionId.value + "/" + PathOf(op), BodyOf(op)), reply)]
    ensures s.Ready() ==> (r.result.Ok? <==> reply.Response?)
    ensures r.result.Ok? ==> r.result.value == reply.data
    ensures s.Ready() && reply.Failure? ==> r.result == Err(RemoteError(reply.reason))
  {
    Dispatch(s, now, MethodOf(op), Endpoint(s.sessionId, PathOf(op)), BodyOf(op), reply)
  }

  /** `status` waits for the payload and drops it. */
  function StatusOutcome(res: Result<Json>): (r: Outcome)
    ensures r.Pass? <==> res.Ok?
    ensures r.Fail? ==> r.error == res.error
  {
    match res
    case Ok(_) => Pass
    case Err(e) => Fail(e)
  }

  /** `list_files` maps the listed names to records without content. */
  function FilesResult(res: Result<Json>): (r: Result<seq<CodeBoxFile>>)
    ensures res.Err? ==> r == Err(res.error)
    ensures res.Ok? && FileNames(res.value).None? ==> r == Err(MalformedResponse)
    ensures res.Ok? && FileNames(res.value).Some? ==>
      r.Ok? && |r.value| == |FileNames(res.value).value|
      && forall i :: 0 <= i < |r.value| ==>
           r.value[i] == CodeBoxFile(FileNames(res.value).value[i], None)
  {
    match res
    case Err(e) => Err(e)
    case Ok(data) =>
      match FileNames(data)
      case None => Err(MalformedResponse)
      case Some(names) => Ok(ListedFiles(names))
  }

  /** `start`: a client that already has a session id answers "started"
      without a request; otherwise it needs the transport, asks the service
      for a session and stores the generated id `freshId`. */
  function StartStep(s: Snapshot, reply: Reply, freshId: string): (r: Step<CodeBoxStatus>)
    ensures s.sessionId.Some? ==> r == Step(s, [], Ok(Started))
    ensures s.sessionId.None? && !s.transport ==> r == Step(s, [], Err(NoTransport))
    ensures s.sessionId.None? && s.transport ==> r.sent == [Exchange(StartRequest, reply)]
    ensures r.post.transport == s.transport && r.post.lastInteraction == s.lastInteraction
    ensures r.result.Ok? <==> r.post.sessionId.Some?
    ensures r.result.Ok? ==> r.result.value == Started
    ensures r.post.sessionId != s.sessionId ==> s.sessionId.None? && r.post.sessionId == Some(freshId)
    ensures s.sessionId.None? && s.transport ==>
      (r.result.Ok? <==> reply.Response? && reply.data != JNull)
    ensures s.sessionId.None? && s.transport && reply.Failure? ==>
      r.result == Err(RemoteError(reply.reason))
    ensures s.sessionId.None? && s.transport && reply.Response? && reply.data == JNull ==>
      r.result == Err(MalformedResponse)
  {
    if s.sessionId.Some? then Step(s, [], Ok(Started))
    else if !s.transport then Step(s, [], Err(NoTransport))
    else
      var sent := [Exchange(StartRequest, reply)];
      match reply
      case Failure(reason) => Step(s, sent, Err(RemoteError(reason)))
      case Response(data) =>
        if data == JNull then Step(s, sent, Err(MalformedResponse))
        else Step(s.(sessionId := Some(freshId)), sent, Ok(Started))
  }

  /** `stop`: refuses without a session id or transport; otherwise posts to
      the stop endpoint and clears the id only once the answer has arrived. */
  function StopStep(s: Snapshot, reply: Reply): (r: Step<Json>)
    ensures !s.Ready() ==> r == Step(s, [], Err(NotStarted))
    ensures s.Ready() ==>
      r.sent == [Exchange(Request(POST, "/codebox/" + s.sessionId.value + "/stop", None), reply)]
    ensures r.post.transport == s.transport && r.post.lastInteraction == s.lastInteraction
    ensures s.Ready() && reply.Response? ==> r.post.sessionId == None && r.result == Ok(reply.data)
    ensures reply.Failure? ==> r.post == s && r.result.Err?
    ensures s.Ready() && reply.Failure? ==> r.result == Err(RemoteError(reply.reason))
  {
    if !s.Ready() then Step(s, [], Err(NotStarted))
    else
      var endpoint := Endpoint(s.sessionId, "stop");
      assert endpoint == "/codebox/" + s.sessionId.value + "/stop";
      var sent := [Exchange(Request(POST, endpoint, None), reply)];
      match reply
      case Failure(reason) => Step(s, sent, Err(RemoteError(reason)))
      case Response(data) => Step(s.(sessionId := None), sent, Ok(data))
  }

  /** `cleanup`: drops the transport and keeps everything else. */
  function CleanupStep(s: Snapshot): (r: Snapshot)
    ensures !r.transport
    ensures r.sessionId == s.sessionId && r.lastInteraction == s.lastInteraction
  {
    if s.transport then s.(transport := false) else s
  }
}
