/** The `CodeBox` client: a session id, a transport that is present until
    `cleanup`, and the time of the last interaction, updated in place by its
    methods. Each method is one awaited call; the transport's answer (`reply`),
    the generated session id (`freshId`) and the clock reading (`now`) are
    supplied as parameters, and the ghost field `sent` logs every request put
    on the wire with its answer. Every method's effect is the corresponding
    step of module `Session`. */
module Client {
  import opened Values
  import opened Session

  class CodeBox {
    var sessionId: Option<string>
    /** Whether the HTTP transport (`aiohttp_session`) is still present. */
    var httpSession: bool
    var lastInteraction: nat
    ghost var sent: seq<Exchange>

    function Snap(): (s: Snapshot)
      reads this
    {
      Snapshot(sessionId, httpSession, lastInteraction)
    }

    /** A new client has no session yet but holds a transport, so it can start. */
    constructor(now: nat)
      ensures sessionId == None && httpSession && lastInteraction == now
      ensures !Snap().Ready() && Snap() == Initial(now)
      ensures sent == []
    {
      sessionId := None;
      httpSession := true;
      lastInteraction := now;
      sent := [];
    }

    method Update(now: nat)
      modifies this
      ensures lastInteraction == now
      ensures sessionId == old(sessionId) && httpSession == old(httpSession) && sent == old(sent)
    {
      lastInteraction := now;
    }

    /** `codeboxRequest`: updates the interaction time first, then refuses
        before sending anything unless both the id and the transport exist. */
    method CodeboxRequest(verb: Method, endpoint: string, body: Option<Json>, now: nat, reply: Reply)
      returns (r: Result<Json>)
      modifies this
      ensures var st := Dispatch(old(Snap()), now, verb, endpoint, body, reply);
        Snap() == st.post && sent == old(sent) + st.sent && r == st.result
    {
      Update(now);
      if sessionId.None? || !httpSession {
        return Err(NotStarted);
      }
      sent := sent + [Exchange(Request(verb, endpoint, body), reply)];
      match reply {
        case Response(data) => r := Ok(data);
        case Failure(reason) => r := Err(RemoteError(reason));
      }
    }

    method Start(reply: Reply, freshId: string) returns (r: Result<CodeBoxStatus>)
      modifies this
      ensures var st := StartStep(old(Snap()), reply, freshId);
        Snap() == st.post && sent == old(sent) + st.sent && r == st.result
    {
      if sessionId.Some? {
        return Ok(CodeBoxStatus("started"));
      }
      if !httpSession {
        return Err(NoTransport);
      }
      sent := sent + [Exchange(Request(GET, "/codebox/start", None), reply)];
      match reply {
        case Failure(reason) =>
          return Err(RemoteError(reason));
        case Response(data) =>
          if data == JNull {
            return Err(MalformedResponse);
          }
          sessionId := Some(freshId);
          r := Ok(CodeBoxStatus("started"));
      }
    }

    /** `status` discards the payload it receives. */
    method Status(now: nat, reply: Reply) returns (r: Outcome)
      modifies this
      ensures var st := Scoped(old(Snap()), now, StatusOp, reply);
        Snap() == st.post && sent == old(sent) + st.sent && r == StatusOutcome(st.result)
    {
      var response := CodeboxRequest(GET, Endpoint(sessionId, ""), None, now, reply);
      if response.Err? {
        return Fail(response.error);
      }
      r := Pass;
    }

    method Run(code: string, now: nat, reply: Reply) returns (r: Result<Json>)
      modifies this
      ensures var st := Scoped(old(Snap()), now, RunOp(code), reply);
        Snap() == st.post && sent == old(sent) + st.sent && r == st.result
    {
      r := CodeboxRequest(POST, Endpoint(sessionId, "run"), Some(JObject(map["code" := JString(code)])), now, reply);
    }

    method Upload(fileName: string, content: string, now: nat, reply: Reply) returns (r: Result<Json>)
      modifies this
      ensures var st := Scoped(old(Snap()), now, UploadOp(fileName, content), reply);
        Snap() == st.post && sent == old(sent) + st.sent && r == st.result
    {
      var file := JObject(map["file_name" := JString(fileName), "content" := JString(content)]);
      r := CodeboxRequest(POST, Endpoint(sessionId, "upload"), Some(JObject(map["file" := file])), now, reply);
    }

    method Download(fileName: string, now: nat, reply: Reply) returns (r: Result<Json>)
      modifies this
      ensures var st := Scoped(old(Snap()), now, DownloadOp(fileName), reply);
        Snap() == st.post && sent == old(sent) + st.sent && r == st.result
    {
      r := CodeboxRequest(GET, Endpoint(sessionId, "download"), Some(JObject(map["file_name" := JString(fileName)])), now, reply);
    }

    method Install(packageName: string, now: nat, reply: Reply) returns (r: Result<Json>)
      modifies this
      ensures var st := Scoped(old(Snap()), now, InstallOp(packageName), reply);
        Snap() == st.post && sent == old(sent) + st.sent && r == st.result
    {
      r := CodeboxRequest(POST, Endpoint(sessionId, "install"), Some(JObject(map["package_name" := JString(packageName)])), now, reply);
    }

    /** `list_files`: one record per listed name, in order, without content. */
    method ListFiles(now: nat, reply: Reply) returns (r: Result<seq<CodeBoxFile>>)
      modifies this
      ensures var st := Scoped(old(Snap()), now, ListFilesOp, reply);
        Snap() == st.post && sent == old(sent) + st.sent && r == FilesResult(st.result)
    {
      var response := CodeboxRequest(GET, Endpoint(sessionId, "files"), None, now, reply);
      if response.Err? {
        return Err(response.error);
      }
      var names := FileNames(response.value);
      if names.None? {
        return Err(MalformedResponse);
      }
      r := Ok(ListedFiles(names.value));
    }

    method Restart(now: nat, reply: Reply) returns (r: Result<Json>)
      modifies this
      ensures var st := Scoped(old(Snap()), now, RestartOp, reply);
        Snap() == st.post && sent == old(sent) + st.sent && r == st.result
    {
      r := CodeboxRequest(POST, Endpoint(sessionId, "restart"), None, now, reply);
    }

    /** `stop` does not touch the interaction time; the id is cleared only
        after the answer arrives, so a failed request leaves it in place. */
    method Stop(reply: Reply) returns (r: Result<Json>)
      modifies this
      ensures var st := StopStep(old(Snap()), reply);
        Snap() == st.post && sent == old(sent) + st.sent && r == st.result
    {
      if sessionId.None? || !httpSession {
        return Err(NotStarted);
      }
      sent := sent + [Exchange(Request(POST, Endpoint(sessionId, "stop"), None), reply)];
      match reply {
        case Failure(reason) =>
          return Err(RemoteError(reason));
        case Response(data) =>
          sessionId := None;
          r := Ok(data);
      }
    }

    /** `cleanup` drops the transport and nothing else; a second call is a no-op. */
    method Cleanup()
      modifies this
      ensures Snap() == CleanupStep(old(Snap())) && sent == old(sent)
      ensures !httpSession && sessionId == old(sessionId)
    {
      if httpSession {
        httpSession := false;
      }
    }
  }
}
