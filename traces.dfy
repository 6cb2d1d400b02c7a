/** Sequences of calls on one client, and what holds over every such sequence:
    a client without its transport never sends again, repeated `start` on a
    started client is silent, session-scoped operations never move the session,
    and every session the client adopts is balanced by a stop or is still held. */
module Traces {
  import opened Values
  import opened Session

  /** One awaited call on the client, with the inputs the environment supplies. */
  datatype Call =
    | CallStart(reply: Reply, freshId: string)
    | CallScoped(now: nat, op: Operation, reply: Reply)
    | CallStop(reply: Reply)
    | CallCleanup

  /** The client state after some calls and everything they sent, in order. */
  datatype Trace = Trace(post: Snapshot, sent: seq<Exchange>)

  function Perform(s: Snapshot, c: Call): (t: Trace) {
    match c
    case CallStart(reply, freshId) =>
      var st := StartStep(s, reply, freshId); Trace(st.post, st.sent)
    case CallScoped(now, op, reply) =>
      var st := Scoped(s, now, op, reply); Trace(st.post, st.sent)
    case CallStop(reply) =>
      var st := StopStep(s, reply); Trace(st.post, st.sent)
    case CallCleanup =>
      Trace(CleanupStep(s), [])
  }

  function Replay(s: Snapshot, calls: seq<Call>): (t: Trace)
    decreases |calls|
  {
    if calls == [] then Trace(s, [])
    else
      var first := Perform(s, calls[0]);
      var rest := Replay(first.post, calls[1..]);
      Trace(rest.post, first.sent + rest.sent)
  }

  /** Once the transport is gone (after `cleanup`) no call sends anything,
      the transport never comes back and the session id is frozen. */
  lemma {:induction false} WithoutTransportNothingIsSent(s: Snapshot, calls: seq<Call>)
    requires !s.transport
    ensures Replay(s, calls).sent == []
    ensures !Replay(s, calls).post.transport
    ensures Replay(s, calls).post.sessionId == s.sessionId
    decreases |calls|
  {
    if calls != [] {
      WithoutTransportNothingIsSent(Perform(s, calls[0]).post, calls[1..]);
    }
  }

  predicate OnlyStarts(calls: seq<Call>) {
    forall i :: 0 <= i < |calls| ==> calls[i].CallStart?
  }

  /** `start` on a client that holds a session id, however often repeated and
      whatever the transport would answer, sends nothing and changes nothing. */
  lemma {:induction false} RepeatedStartIsSilent(s: Snapshot, calls: seq<Call>)
    requires s.sessionId.Some?
    requires OnlyStarts(calls)
    ensures Replay(s, calls) == Trace(s, [])
    decreases |calls|
  {
    if calls != [] {
      RepeatedStartIsSilent(s, calls[1..]);
    }
  }

  /** The first successful `start` is the only one that reaches the service:
      every later `start` in the same run is silent. */
  lemma StartsAfterSuccessAreSilent(s: Snapshot, reply: Reply, freshId: string, later: seq<Call>)
    requires s.sessionId.None? && s.transport
    requires reply.Response? && reply.data != JNull
    requires OnlyStarts(later)
    ensures Replay(s, [CallStart(reply, freshId)] + later).sent == [Exchange(StartRequest, reply)]
    ensures Replay(s, [CallStart(reply, freshId)] + later).post.sessionId == Some(freshId)
  {
    var calls := [CallStart(reply, freshId)] + later;
    assert calls[1..] == later;
    RepeatedStartIsSilent(s.(sessionId := Some(freshId)), later);
  }

  predicate OnlyScoped(calls: seq<Call>) {
    forall i :: 0 <= i < |calls| ==> calls[i].CallScoped?
  }

  /** Session-scoped operations keep the session id and the transport; when
      the client is not ready they send nothing; otherwise each sends one
      request under `/codebox/{id}/`. The clock reading is the last call's. */
  lemma {:induction false} ScopedCallsKeepSession(s: Snapshot, calls: seq<Call>)
    requires OnlyScoped(calls)
    ensures Replay(s, calls).post.sessionId == s.sessionId
    ensures Replay(s, calls).post.transport == s.transport
    ensures calls != [] ==> Replay(s, calls).post.lastInteraction == calls[|calls| - 1].now
    ensures !s.Ready() ==> Replay(s, calls).sent == []
    ensures s.Ready() ==> |Replay(s, calls).sent| == |calls|
    ensures s.Ready() ==> forall k :: 0 <= k < |Replay(s, calls).sent| ==>
      "/codebox/" + s.sessionId.value + "/" <= Replay(s, calls).sent[k].request.endpoint
    decreases |calls|
  {
    if calls != [] {
      var first := Perform(s, calls[0]);
      ScopedCallsKeepSession(first.post, calls[1..]);
      var rest := Replay(first.post, calls[1..]);
      assert first.post.sessionId == s.sessionId && first.post.transport == s.transport;
      if s.Ready() {
        var prefix := "/codebox/" + s.sessionId.value + "/";
        assert |first.sent| == 1;
        assert prefix <= first.sent[0].request.endpoint by {
          var op := calls[0].op;
          assert first.sent[0].request.endpoint == prefix + PathOf(op);
        }
        forall k | 0 <= k < |first.sent + rest.sent|
          ensures prefix <= (first.sent + rest.sent)[k].request.endpoint
        {
          if k > 0 {
            assert (first.sent + rest.sent)[k] == rest.sent[k - 1];
          }
        }
      }
    }
  }

  /** An answered `start` whose payload the client could read: a session the
      client adopts. */
  predicate Adopts(e: Exchange) {
    e.request == StartRequest && e.reply.Response? && e.reply.data != JNull
  }

  predicate IsStopEndpoint(endpoint: string) {
    |endpoint| >= 5 && endpoint[|endpoint| - 5..] == "/stop"
  }

  /** An answered `stop`: a session the client releases. */
  predicate Releases(e: Exchange) {
    e.request.verb == POST && IsStopEndpoint(e.request.endpoint) && e.reply.Response?
  }

  function Adopted(log: seq<Exchange>): (count: nat) {
    if log == [] then 0 else (if Adopts(log[0]) then 1 else 0) + Adopted(log[1..])
  }

  function Released(log: seq<Exchange>): (count: nat) {
    if log == [] then 0 else (if Releases(log[0]) then 1 else 0) + Released(log[1..])
  }

  function Held(s: Snapshot): (count: nat) {
    if s.sessionId.Some? then 1 else 0
  }

  lemma {:induction false} CountsAppend(a: seq<Exchange>, b: seq<Exchange>)
    ensures Adopted(a + b) == Adopted(a) + Adopted(b)
    ensures Released(a + b) == Released(a) + Released(b)
    decreases |a|
  {
    if a != [] {
      assert (a + b)[0] == a[0];
      assert (a + b)[1..] == a[1..] + b;
      CountsAppend(a[1..], b);
    } else {
      assert a + b == b;
    }
  }

  /** No session-scoped request is a start request or a stop request. */
  lemma ScopedRequestIsNeitherStartNorStop(id: string, op: Operation)
    ensures Request(MethodOf(op), "/codebox/" + id + "/" + PathOf(op), BodyOf(op)) != StartRequest
    ensures !IsStopEndpoint("/codebox/" + id + "/" + PathOf(op))
  {
    var head := "/codebox/" + id + "/";
    var tail := PathOf(op);
    var endpoint := head + tail;
    var last := endpoint[|endpoint| - 1];
    if tail == "" {
      assert endpoint == head;
      assert last == '/';
    } else {
      assert last == tail[|tail| - 1];
    }
    assert last != 'p';
    if MethodOf(op) == GET {
      assert op.StatusOp? || op.DownloadOp? || op.ListFilesOp?;
      assert last != 't';
      assert StartRequest.endpoint[|StartRequest.endpoint| - 1] == 't';
    }
  }

  /** One call keeps the balance between adopted, released and held sessions. */
  lemma PerformKeepsBalance(s: Snapshot, c: Call)
    ensures Adopted(Perform(s, c).sent) + Held(s) == Released(Perform(s, c).sent) + Held(Perform(s, c).post)
  {
    var t := Perform(s, c);
    match c
    case CallStart(reply, freshId) =>
      if t.sent != [] {
        assert t.sent[0].request == StartRequest;
        assert t.sent[1..] == [];
      }
    case CallScoped(now, op, reply) =>
      if t.sent != [] {
        ScopedRequestIsNeitherStartNorStop(s.sessionId.value, op);
        assert t.sent[1..] == [];
      }
    case CallStop(reply) =>
      if t.sent != [] {
        var endpoint := t.sent[0].request.endpoint;
        assert endpoint == "/codebox/" + s.sessionId.value + "/stop";
        assert endpoint[|endpoint| - 5..] == "/stop";
        assert t.sent[1..] == [];
      }
    case CallCleanup =>
  }

  /** Sessions adopted plus the one held at the outset equal sessions released
      plus the one held at the end: the client never holds more than one
      session, and every adopted session other than the held one was stopped. */
  lemma {:induction false} SessionBalance(s: Snapshot, calls: seq<Call>)
    ensures Adopted(Replay(s, calls).sent) + Held(s)
         == Released(Replay(s, calls).sent) + Held(Replay(s, calls).post)
    decreases |calls|
  {
    if calls != [] {
      var first := Perform(s, calls[0]);
      PerformKeepsBalance(s, calls[0]);
      SessionBalance(first.post, calls[1..]);
      CountsAppend(first.sent, Replay(first.post, calls[1..]).sent);
    }
  }

  /** From a fresh client, at most one adopted session is ever left unreleased. */
  lemma FreshClientHoldsAtMostOne(now: nat, calls: seq<Call>)
    ensures Adopted(Replay(Initial(now), calls).sent) <= Released(Replay(Initial(now), calls).sent) + 1
  {
    SessionBalance(Initial(now), calls);
  }
  /** `cleanup` twice is `cleanup` once. */
  lemma CleanupIsIdempotent(s: Snapshot)
    ensures CleanupStep(CleanupStep(s)) == CleanupStep(s)
  {
  }

  /** `cleanup` leaves the session id alone, and `start` checks the id before
      the transport: a started client that was cleaned up still answers
      "started" to `start`, without a request, though it can send nothing. */
  lemma StartAfterCleanupStillStarted(s: Snapshot, reply: Reply, freshId: string)
    requires s.sessionId.Some?
    ensures StartStep(CleanupStep(s), reply, freshId) == Step(CleanupStep(s), [], Ok(Started))
  {
  }

  /** Start, run, list, stop, then run again on a fresh client. The stored id
      is the generated one, not the id in the service's answer. */
  lemma LifecycleScenario(freshId: string, output: Json, stopped: Json, late: Reply)
    ensures
      var s0 := Initial(0);
      var started := StartStep(s0, Response(JObject(map["id" := JString("abc-123")])), freshId);
      var ran := Scoped(started.post, 1, RunOp("print(1)"), Response(output));
      var listed := Scoped(ran.post, 2, ListFilesOp, Response(JObject(map["files" := JArray([JString("a.py")])])));
      var stop := StopStep(listed.post, Response(stopped));
      var after := Scoped(stop.post, 3, RunOp("print(2)"), late);
      && started.result == Ok(Started) && started.post.sessionId == Some(freshId)
      && ran.sent == [Exchange(Request(POST, "/codebox/" + freshId + "/run",
                                       Some(JObject(map["code" := JString("print(1)")]))), Response(output))]
      && ran.result == Ok(output)
      && FilesResult(listed.result) == Ok([CodeBoxFile("a.py", None)])
      && stop.post.sessionId == None && stop.result == Ok(stopped)
      && after.sent == [] && after.result == Err(NotStarted)
  {
    var items := [JString("a.py")];
    assert items[1..] == [] && Strings([]) == Some([]);
    assert Strings(items) == Some(["a.py"] + []);
    assert ["a.py"] + [] == ["a.py"];
    var files := JObject(map["files" := JArray(items)]);
    assert FileNames(files) == Some(["a.py"]);
    var started := StartStep(Initial(0), Response(JObject(map["id" := JString("abc-123")])), freshId);
    assert started.post == Snapshot(Some(freshId), true, 0);
    var ran := Scoped(started.post, 1, RunOp("print(1)"), Response(output));
    assert ran.post == Snapshot(Some(freshId), true, 1);
    assert "/codebox/" + freshId + "/" + PathOf(RunOp("print(1)")) == "/codebox/" + freshId + "/run";
    var listed := Scoped(ran.post, 2, ListFilesOp, Response(files));
    assert listed.result == Ok(files);
    assert ListedFiles(["a.py"])[0] == CodeBoxFile("a.py", None);
    assert ListedFiles(["a.py"]) == [CodeBoxFile("a.py", None)];
    var stop := StopStep(listed.post, Response(stopped));
    assert stop.post == Snapshot(None, true, 2);
  }
}
